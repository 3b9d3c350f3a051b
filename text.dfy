/** String helpers standing in for the parts of Go's `fmt` and `strings`
    that the terminal UI and the database layer rely on: splitting and joining
    on a separator, and `%d` decimal formatting. */
module Text {

  /** Position of the first occurrence of `c` in `s`. */
  function IndexOf(s: string, c: char): (i: nat)
    requires c in s
    ensures i < |s| && s[i] == c && c !in s[..i]
  {
    if s[0] == c then 0
    else
      var j := IndexOf(s[1..], c);
      assert s[..j + 1] == [s[0]] + s[1..][..j];
      1 + j
  }

  /** The pieces of `s` between occurrences of `sep` (like Go's strings.Split). */
  function Split(s: string, sep: char): (parts: seq<string>)
    ensures |parts| >= 1
    decreases |s|
  {
    if sep in s then
      var i := IndexOf(s, sep);
      [s[..i]] + Split(s[i + 1..], sep)
    else [s]
  }

  /** The pieces glued together with `sep` between neighbours. */
  function Join(parts: seq<string>, sep: char): (s: string)
    requires |parts| >= 1
  {
    if |parts| == 1 then parts[0] else parts[0] + [sep] + Join(parts[1..], sep)
  }

  /** Splitting undoes joining, provided no piece contains the separator. */
  lemma {:induction false} SplitJoin(parts: seq<string>, sep: char)
    requires |parts| >= 1
    requires forall k | 0 <= k < |parts| :: sep !in parts[k]
    ensures Split(Join(parts, sep), sep) == parts
  {
    if |parts| > 1 {
      var head, rest := parts[0], Join(parts[1..], sep);
      var s := head + [sep] + rest;
      FirstSeparator(head, rest, sep);
      assert s[..|head|] == head;
      assert s[|head| + 1..] == rest;
      SplitJoin(parts[1..], sep);
    }
  }

  /** The first separator of `head + [sep] + rest` is the one after `head`
      when `head` holds none. */
  lemma FirstSeparator(head: string, rest: string, sep: char)
    requires sep !in head
    ensures sep in head + [sep] + rest
    ensures IndexOf(head + [sep] + rest, sep) == |head|
  {
    var s := head + [sep] + rest;
    assert s[|head|] == sep;
    assert s[..|head|] == head;
    var i := IndexOf(s, sep);
    assert i == |head|;
  }

  /** Joining one more piece appends the separator and that piece. */
  lemma {:induction false} JoinSnoc(parts: seq<string>, last: string, sep: char)
    requires |parts| >= 1
    ensures Join(parts + [last], sep) == Join(parts, sep) + [sep] + last
  {
    var all := parts + [last];
    if |parts| == 1 {
      assert all[1..] == [last];
    } else {
      assert all[1..] == parts[1..] + [last];
      JoinSnoc(parts[1..], last, sep);
      assert Join(all, sep) == parts[0] + [sep] + (Join(parts[1..], sep) + [sep] + last);
    }
  }

  function DigitChar(d: nat): (c: char)
    requires d < 10
  {
    "0123456789"[d]
  }

  function DigitValue(c: char): int
  {
    c as int - '0' as int
  }

  predicate IsDigits(s: string)
  {
    forall k | 0 <= k < |s| :: '0' <= s[k] <= '9'
  }

  /** Decimal digits of `n`, most significant first, without leading zeros. */
  function NatDecimal(n: nat): (s: string)
    ensures |s| >= 1 && IsDigits(s)
    ensures s[0] == '0' <==> n == 0
    ensures n == 0 ==> s == "0"
  {
    if n < 10 then [DigitChar(n)] else NatDecimal(n / 10) + [DigitChar(n % 10)]
  }

  /** Go's `%d` verb applied to an integer. */
  function Decimal(n: int): (s: string)
    ensures |s| >= 1 && (s[0] == '-' <==> n < 0)
    ensures n >= 0 ==> IsDigits(s) && (s[0] == '0' ==> s == "0")
    ensures n < 0 ==> |s| >= 2 && IsDigits(s[1..]) && s[1] != '0'
  {
    if n < 0 then "-" + NatDecimal(-n) else NatDecimal(n)
  }

  /** Reads back a string of decimal digits. */
  function ParseNat(s: string): (n: int)
  {
    if s == [] then 0 else 10 * ParseNat(s[..|s| - 1]) + DigitValue(s[|s| - 1])
  }

  /** Reads back an optionally negative decimal numeral. */
  function ParseDecimal(s: string): (n: int)
  {
    if |s| > 0 && s[0] == '-' then -ParseNat(s[1..]) else ParseNat(s)
  }

  lemma {:induction false} NatDecimalRoundTrip(n: nat)
    ensures ParseNat(NatDecimal(n)) == n
  {
    if n >= 10 {
      var s := NatDecimal(n / 10) + [DigitChar(n % 10)];
      assert s[..|s| - 1] == NatDecimal(n / 10);
      NatDecimalRoundTrip(n / 10);
    }
  }

  /** The decimal text of a number reads back as that number. */
  lemma DecimalRoundTrip(n: int)
    ensures ParseDecimal(Decimal(n)) == n
  {
    if n < 0 {
      var digits := NatDecimal(-n);
      var s := "-" + digits;
      assert s[0] == '-' && s[1..] == digits;
      NatDecimalRoundTrip(-n);
      assert ParseDecimal(s) == -ParseNat(digits);
    } else {
      var digits := NatDecimal(n);
      assert '0' <= digits[0] <= '9';
      NatDecimalRoundTrip(n);
      assert ParseDecimal(digits) == ParseNat(digits);
    }
  }
}
