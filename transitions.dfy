/** The terminal UI's state machine of ui.go, as values: the model's fields
    as a record, `Update` as the transition function Step, and
    `fetchTableData` as the function FetchTableData applied to the model
    once the connection is open. The class in module Ui runs the same
    transitions in place and is proved equal to these functions. */
module Transitions {
  import opened Text
  import opened Db

  // The four UI states (iota constants of ui.go)
  const StateConfigWizard := 0
  const StateConnected := 1
  const StateError := 2
  const StateQuerying := 3

  /** Number of wizard inputs: user, password, host, port, database name. */
  const InputCount := 5
  /** Number of dashboard tabs. */
  const TabCount := 4

  const TablesLoadFailed := "Failed to load tables: "
  const RowCountFailed := "Failed to fetch row count for table "

  /** One wizard text input: its text and whether it holds the focus. */
  datatype Field = Field(value: string, focused: bool)

  /** The messages Update reacts to: a key press, by its name, or a terminal resize. */
  datatype Msg = Key(key: string) | Resize(width: int, height: int)

  /** How the focused text input changes its text on a key press
      (typing, deleting, moving the cursor): left to the input component. */
  type Editor = (string, string) -> string

  /** The model's fields. `state` is a plain int as in the source, so that
      the View's "Invalid state" case can be stated. */
  datatype AppState = AppState(
    state: int,
    fields: seq<Field>,
    focusedInput: int,
    errorMessage: string,
    width: int,
    height: int,
    selectedTab: int,
    db: Option<Handle>,
    tables: seq<string>,
    tableRowCount: map<string, int>)

  /** The new model, whether tea.Quit is returned, and whether the table
      fetch is started. */
  datatype Transition = Transition(next: AppState, quit: bool, startFetch: bool)

  /** Go's `%` on int: truncated division, so the remainder takes the sign of `a`. */
  function GoRem(a: int, b: int): (r: int)
    requires b != 0
  {
    if a >= 0 then a % b else -((-a) % b)
  }

  /** On a non-negative operand Go's `%` agrees with the mathematical remainder. */
  lemma GoRemNonNegative(a: int, b: int)
    requires 0 <= a && 0 < b
    ensures GoRem(a, b) == a % b && 0 <= GoRem(a, b) < b
  {
  }

  /** What holds in every reachable model: five inputs, the focus index in
      range with exactly that input focused, the tab in range, and one of
      the four states. */
  predicate Inv(s: AppState)
  {
    && |s.fields| == InputCount
    && 0 <= s.focusedInput < InputCount
    && (forall i | 0 <= i < InputCount :: s.fields[i].focused <==> i == s.focusedInput)
    && 0 <= s.selectedTab < TabCount
    && StateConfigWizard <= s.state <= StateQuerying
  }

  /** initialModel: the wizard, five empty inputs with the first focused, tab 0. */
  function Initial(): (s: AppState)
    ensures Inv(s)
    ensures s.state == StateConfigWizard && s.focusedInput == 0 && s.selectedTab == 0
    ensures forall i | 0 <= i < InputCount :: s.fields[i].value == ""
    ensures s.tables == [] && s.tableRowCount == map[] && s.db == None
  {
    AppState(StateConfigWizard,
      [Field("", true), Field("", false), Field("", false), Field("", false), Field("", false)],
      0, "", 0, 0, 0, None, [], map[])
  }

  /** The Focus/Blur loop: input `k` focused, every other input blurred. */
  function FocusOnly(fields: seq<Field>, k: int): (r: seq<Field>)
  {
    seq(|fields|, i requires 0 <= i < |fields| => fields[i].(focused := i == k))
  }

  /** The per-message pass over the inputs: only a focused input reacts. */
  function EditFocused(fields: seq<Field>, key: string, edit: Editor): (r: seq<Field>)
  {
    seq(|fields|, i requires 0 <= i < |fields| =>
      if fields[i].focused then fields[i].(value := edit(fields[i].value, key)) else fields[i])
  }

  /** The configuration built on "enter": inputs 0..4 as user, password, host, port, dbname. */
  function ConfigOf(fields: seq<Field>): (c: DBConfig)
    requires |fields| == InputCount
  {
    DBConfig(fields[0].value, fields[1].value, fields[2].value, fields[3].value, fields[4].value)
  }

  function Stay(s: AppState): Transition
  {
    Transition(s, false, false)
  }

  function Quit(s: AppState): Transition
  {
    Transition(s, true, false)
  }

  /** The key switch of Update, per state; the connect call is made
      synchronously through the driver. */
  function HandleKey(s: AppState, key: string, d: Driver): (t: Transition)
    requires |s.fields| == InputCount
    ensures |t.next.fields| == InputCount
    ensures t.next.width == s.width && t.next.height == s.height
  {
    if s.state == StateConfigWizard then
      if key == "ctrl+c" then Quit(s)
      else if key == "tab" || key == "down" then
        var k := GoRem(s.focusedInput + 1, InputCount);
        Stay(s.(focusedInput := k, fields := FocusOnly(s.fields, k)))
      else if key == "shift+tab" || key == "up" then
        var k := GoRem(s.focusedInput - 1 + InputCount, InputCount);
        Stay(s.(focusedInput := k, fields := FocusOnly(s.fields, k)))
      else if key == "enter" then
        match ConnectToDatabase(ConfigOf(s.fields), d).result
        case Err(e) => Stay(s.(errorMessage := e, state := StateError))
        case Ok(db) => Transition(s.(db := Some(db), state := StateQuerying), false, true)
      else Stay(s)
    else if s.state == StateError then
      if key == "enter" then Stay(s.(state := StateConfigWizard))
      else if key == "ctrl+c" then Quit(s)
      else Stay(s)
    else if s.state == StateConnected then
      if key == "ctrl+c" || key == "q" then Quit(s)
      else if key == "left" then Stay(s.(selectedTab := GoRem(s.selectedTab - 1 + TabCount, TabCount)))
      else if key == "right" then Stay(s.(selectedTab := GoRem(s.selectedTab + 1, TabCount)))
      else Stay(s)
    else Stay(s)
  }

  /** Update: a resize sets the size; a key goes through the switch and,
      unless it quit, on to the focused input. */
  function Step(s: AppState, msg: Msg, d: Driver, edit: Editor): (t: Transition)
    requires |s.fields| == InputCount
    ensures |t.next.fields| == InputCount
    ensures t.quit ==> t.next == s && !t.startFetch
    ensures t.startFetch ==> s.state == StateConfigWizard && t.next.state == StateQuerying && t.next.db.Some?
  {
    match msg
    case Resize(w, h) => Stay(s.(width := w, height := h))
    case Key(key) =>
      var t := HandleKey(s, key, d);
      if t.quit then t else t.(next := t.next.(fields := EditFocused(t.next.fields, key, edit)))
  }

  /** The same key pressed `n` times in a row. */
  function Presses(s: AppState, key: string, n: nat, d: Driver, edit: Editor): (r: AppState)
    requires |s.fields| == InputCount
    ensures |r.fields| == InputCount
    decreases n
  {
    if n == 0 then s else Presses(Step(s, Key(key), d, edit).next, key, n - 1, d, edit)
  }

  /** The keys that end the program, state by state. */
  predicate IsQuitKey(state: int, key: string)
  {
    || (state == StateConfigWizard && key == "ctrl+c")
    || (state == StateError && key == "ctrl+c")
    || (state == StateConnected && (key == "ctrl+c" || key == "q"))
  }

  /** Every message keeps the invariant. */
  lemma StepKeepsInv(s: AppState, msg: Msg, d: Driver, edit: Editor)
    requires Inv(s)
    ensures Inv(Step(s, msg, d, edit).next)
  {
    if msg.Key? {
      HandleKeyKeepsInv(s, msg.key, d);
      var t := HandleKey(s, msg.key, d);
      var fs := EditFocused(t.next.fields, msg.key, edit);
      assert forall i | 0 <= i < InputCount :: fs[i].focused == t.next.fields[i].focused;
    }
  }

  lemma HandleKeyKeepsInv(s: AppState, key: string, d: Driver)
    requires Inv(s)
    ensures Inv(HandleKey(s, key, d).next)
  {
    if s.state == StateConfigWizard {
      GoRemNonNegative(s.focusedInput + 1, InputCount);
      GoRemNonNegative(s.focusedInput - 1 + InputCount, InputCount);
    } else if s.state == StateConnected {
      GoRemNonNegative(s.selectedTab + 1, TabCount);
      GoRemNonNegative(s.selectedTab - 1 + TabCount, TabCount);
    }
  }

  /** A key quits exactly when it is a quit key of the current state, and
      quitting changes nothing. */
  lemma QuitKeys(s: AppState, key: string, d: Driver, edit: Editor)
    requires |s.fields| == InputCount
    ensures var t := Step(s, Key(key), d, edit);
      && (t.quit <==> IsQuitKey(s.state, key))
      && (t.quit ==> t.next == s && !t.startFetch)
  {
  }

  /** The fetch is started only by "enter" in the wizard, after a successful
      connect, with the handle stored and the loading state entered. */
  lemma FetchStartsOnlyFromWizard(s: AppState, msg: Msg, d: Driver, edit: Editor)
    requires |s.fields| == InputCount
    ensures var t := Step(s, msg, d, edit);
      t.startFetch ==>
        && s.state == StateConfigWizard && msg == Key("enter")
        && t.next.state == StateQuerying
        && ConnectToDatabase(ConfigOf(s.fields), d).result.Ok?
        && t.next.db == Some(ConnectToDatabase(ConfigOf(s.fields), d).result.value)
  {
  }

  /** Everything but the focus and the input values is left alone. */
  predicate OnlyInputsChanged(s: AppState, r: AppState)
  {
    r == s.(focusedInput := r.focusedInput, fields := r.fields)
  }

  /** Values after the pass over the inputs: only the focused one is edited. */
  predicate EditedAt(before: seq<Field>, after: seq<Field>, k: int, key: string, edit: Editor)
    requires |before| == |after| == InputCount
  {
    forall i | 0 <= i < InputCount ::
      after[i].value == if i == k then edit(before[i].value, key) else before[i].value
  }

  /** "tab"/"down" in the wizard: focus moves to the next input, wrapping
      from the last to the first, and exactly that input is focused. */
  lemma FocusNext(s: AppState, key: string, d: Driver, edit: Editor)
    requires Inv(s) && s.state == StateConfigWizard
    requires key == "tab" || key == "down"
    ensures var t := Step(s, Key(key), d, edit);
      && !t.quit && !t.startFetch && OnlyInputsChanged(s, t.next)
      && t.next.focusedInput == (s.focusedInput + 1) % InputCount
      && (forall i | 0 <= i < InputCount :: t.next.fields[i].focused <==> i == t.next.focusedInput)
      && EditedAt(s.fields, t.next.fields, t.next.focusedInput, key, edit)
  {
    GoRemNonNegative(s.focusedInput + 1, InputCount);
  }

  /** "shift+tab"/"up" in the wizard: focus moves to the previous input,
      wrapping from the first to the last, and exactly that input is focused. */
  lemma FocusPrevious(s: AppState, key: string, d: Driver, edit: Editor)
    requires Inv(s) && s.state == StateConfigWizard
    requires key == "shift+tab" || key == "up"
    ensures var t := Step(s, Key(key), d, edit);
      && !t.quit && !t.startFetch && OnlyInputsChanged(s, t.next)
      && t.next.focusedInput == (s.focusedInput - 1) % InputCount
      && 0 <= t.next.focusedInput < InputCount
      && (s.focusedInput == 0 ==> t.next.focusedInput == InputCount - 1)
      && (forall i | 0 <= i < InputCount :: t.next.fields[i].focused <==> i == t.next.focusedInput)
      && EditedAt(s.fields, t.next.fields, t.next.focusedInput, key, edit)
  {
    GoRemNonNegative(s.focusedInput - 1 + InputCount, InputCount);
  }

  /** Focus keys pressed `n` times: the focus has moved `n` places round the
      five inputs, and when the input ignores the key nothing else changed. */
  lemma {:induction false} FocusCycle(s: AppState, key: string, n: nat, d: Driver, edit: Editor)
    requires Inv(s) && s.state == StateConfigWizard
    requires key in {"tab", "down", "shift+tab", "up"}
    ensures var r := Presses(s, key, n, d, edit);
      && Inv(r) && r.state == StateConfigWizard && OnlyInputsChanged(s, r)
      && r.focusedInput == (if key in {"tab", "down"} then s.focusedInput + n else s.focusedInput - n) % InputCount
      && ((forall v :: edit(v, key) == v) ==> r.fields == FocusOnly(s.fields, r.focusedInput))
    decreases n
  {
    if n > 0 {
      var forward := key in {"tab", "down"};
      var s1 := Step(s, Key(key), d, edit).next;
      if forward {
        FocusNext(s, key, d, edit);
        ModShift(s.focusedInput + 1, n - 1, InputCount);
      } else {
        FocusPrevious(s, key, d, edit);
        ModShift(s.focusedInput - 1, -(n - 1), InputCount);
      }
      StepKeepsInv(s, Key(key), d, edit);
      FocusCycle(s1, key, n - 1, d, edit);
      var r := Presses(s1, key, n - 1, d, edit);
      if forall v :: edit(v, key) == v {
        assert forall i | 0 <= i < InputCount :: s1.fields[i].value == s.fields[i].value;
        assert r.fields == FocusOnly(s.fields, r.focusedInput);
      }
    }
  }

  /** Taking the remainder early does not change the final remainder. */
  lemma ModShift(a: int, b: int, m: int)
    requires m > 0
    ensures (a % m + b) % m == (a + b) % m
  {
    var c := a % m + b;
    var q, q2 := a / m, c / m;
    assert a == q * m + a % m;
    assert c == q2 * m + c % m;
    assert a + b == (q + q2) * m + c % m;
    ModUnique(a + b, m, q + q2, c % m);
  }

  /** The quotient and remainder of Euclidean division are unique. */
  lemma ModUnique(x: int, m: int, k: int, r: int)
    requires m > 0 && 0 <= r < m && x == k * m + r
    ensures x % m == r && x / m == k
  {
    var q, r' := x / m, x % m;
    assert x == q * m + r';
    assert (k - q) * m == r' - r;
    MulSign(k - q, m);
  }

  lemma MulSign(c: int, m: int)
    requires m > 0
    ensures c >= 1 ==> c * m >= m
    ensures c <= -1 ==> c * m <= -m
  {
    assert (c - 1) * m == c * m - m;
    assert (c + 1) * m == c * m + m;
  }

  /** Five focus-key presses bring the wizard back where it started; if the
      input ignores the key, the whole model is unchanged. */
  lemma FivePressesReturn(s: AppState, key: string, d: Driver, edit: Editor)
    requires Inv(s) && s.state == StateConfigWizard
    requires key in {"tab", "down", "shift+tab", "up"}
    ensures Presses(s, key, InputCount, d, edit).focusedInput == s.focusedInput
    ensures (forall v :: edit(v, key) == v) ==> Presses(s, key, InputCount, d, edit) == s
  {
    FocusCycle(s, key, InputCount, d, edit);
    var r := Presses(s, key, InputCount, d, edit);
    if forall v :: edit(v, key) == v {
      assert r.fields == s.fields;
    }
  }

  /** "enter" in the wizard connects with the configuration read from the
      five inputs: an error is shown in the error state, a handle leads to
      the loading state and starts the fetch. */
  lemma EnterConnects(s: AppState, d: Driver, edit: Editor)
    requires Inv(s) && s.state == StateConfigWizard
    ensures var t := Step(s, Key("enter"), d, edit);
      var conn := ConnectToDatabase(ConfigOf(s.fields), d).result;
      && !t.quit
      && t.next == s.(state := t.next.state, errorMessage := t.next.errorMessage, db := t.next.db,
                      fields := t.next.fields)
      && EditedAt(s.fields, t.next.fields, s.focusedInput, "enter", edit)
      && (conn.Err? ==> && t.next.state == StateError && t.next.errorMessage == conn.error
                        && t.next.db == s.db && !t.startFetch)
      && (conn.Ok? ==> && t.next.state == StateQuerying && t.next.db == Some(conn.value)
                       && t.next.errorMessage == s.errorMessage && t.startFetch)
  {
  }

  /** "enter" on the error screen returns to the wizard with the focus and
      the inputs kept; the error message is not cleared. */
  lemma ErrorRetry(s: AppState, d: Driver, edit: Editor)
    requires Inv(s) && s.state == StateError
    ensures var t := Step(s, Key("enter"), d, edit);
      && !t.quit && !t.startFetch
      && t.next == s.(state := StateConfigWizard, fields := t.next.fields)
      && t.next.errorMessage == s.errorMessage
      && (forall i | 0 <= i < InputCount :: t.next.fields[i].focused == s.fields[i].focused)
      && EditedAt(s.fields, t.next.fields, s.focusedInput, "enter", edit)
  {
  }

  /** "left"/"right" on the dashboard move the tab by one, wrapping round
      the four tabs; "left" from the first tab gives the last. */
  lemma TabStep(s: AppState, key: string, d: Driver, edit: Editor)
    requires Inv(s) && s.state == StateConnected
    requires key == "left" || key == "right"
    ensures var t := Step(s, Key(key), d, edit);
      && !t.quit && !t.startFetch
      && t.next == s.(selectedTab := t.next.selectedTab, fields := t.next.fields)
      && t.next.selectedTab == (if key == "right" then s.selectedTab + 1 else s.selectedTab - 1) % TabCount
      && 0 <= t.next.selectedTab < TabCount
      && (key == "left" && s.selectedTab == 0 ==> t.next.selectedTab == TabCount - 1)
      && EditedAt(s.fields, t.next.fields, s.focusedInput, key, edit)
  {
    GoRemNonNegative(s.selectedTab + 1, TabCount);
    GoRemNonNegative(s.selectedTab - 1 + TabCount, TabCount);
  }

  /** Tab keys pressed `n` times move the tab `n` places round the four tabs. */
  lemma {:induction false} TabCycle(s: AppState, key: string, n: nat, d: Driver, edit: Editor)
    requires Inv(s) && s.state == StateConnected
    requires key == "left" || key == "right"
    ensures var r := Presses(s, key, n, d, edit);
      && Inv(r) && r.state == StateConnected
      && r == s.(selectedTab := r.selectedTab, fields := r.fields)
      && r.selectedTab == (if key == "right" then s.selectedTab + n else s.selectedTab - n) % TabCount
      && ((forall v :: edit(v, key) == v) ==> r.fields == s.fields)
    decreases n
  {
    if n > 0 {
      var s1 := Step(s, Key(key), d, edit).next;
      TabStep(s, key, d, edit);
      if key == "right" {
        ModShift(s.selectedTab + 1, n - 1, TabCount);
      } else {
        ModShift(s.selectedTab - 1, -(n - 1), TabCount);
      }
      StepKeepsInv(s, Key(key), d, edit);
      TabCycle(s1, key, n - 1, d, edit);
      if forall v :: edit(v, key) == v {
        assert s1.fields == s.fields;
      }
    }
  }

  /** Four "right" (or four "left") presses come back to the same tab. */
  lemma FourTabPressesReturn(s: AppState, key: string, d: Driver, edit: Editor)
    requires Inv(s) && s.state == StateConnected
    requires key == "left" || key == "right"
    ensures Presses(s, key, TabCount, d, edit).selectedTab == s.selectedTab
    ensures (forall v :: edit(v, key) == v) ==> Presses(s, key, TabCount, d, edit) == s
  {
    TabCycle(s, key, TabCount, d, edit);
  }

  /** While the tables load no key changes the state, the focus or the tab,
      and none quits, not even "ctrl+c". */
  lemma LoadingIgnoresKeys(s: AppState, key: string, d: Driver, edit: Editor)
    requires Inv(s) && s.state == StateQuerying
    ensures var t := Step(s, Key(key), d, edit);
      && !t.quit && !t.startFetch
      && t.next == s.(fields := t.next.fields)
      && EditedAt(s.fields, t.next.fields, s.focusedInput, key, edit)
  {
  }

  /** A key with no case of its own in the current state (typing into an
      input, say) neither quits nor starts a fetch, and changes nothing but
      the focused input's text: not the state, the focus or the tab. */
  lemma OtherKeysOnlyEdit(s: AppState, key: string, d: Driver, edit: Editor)
    requires Inv(s) && !IsQuitKey(s.state, key)
    requires s.state == StateConfigWizard ==> key !in {"tab", "down", "shift+tab", "up", "enter"}
    requires s.state == StateError ==> key != "enter"
    requires s.state == StateConnected ==> key !in {"left", "right"}
    ensures var t := Step(s, Key(key), d, edit);
      && !t.quit && !t.startFetch
      && t.next == s.(fields := t.next.fields)
      && EditedAt(s.fields, t.next.fields, s.focusedInput, key, edit)
  {
  }

  /** A resize in any state changes the width and height and nothing else;
      repeating it changes nothing more. */
  lemma ResizeOnlyViewport(s: AppState, w: int, h: int, d: Driver, edit: Editor)
    requires |s.fields| == InputCount
    ensures var t := Step(s, Resize(w, h), d, edit);
      && !t.quit && !t.startFetch
      && t.next == s.(width := w, height := h)
      && Step(t.next, Resize(w, h), d, edit) == t
  {
  }

  /** fetchTableData, run to completion on the model: list the tables, store
      them, then fetch and record each row count in order, stopping at the
      first error. */
  function FetchTableData(s: AppState, d: Driver): (r: AppState)
    requires s.db.Some?
    ensures r.state == StateConnected || r.state == StateError
    ensures r.fields == s.fields && r.db == s.db && r.focusedInput == s.focusedInput
  {
    match FetchTables(s.db.value, d).result
    case Err(e) => s.(errorMessage := TablesLoadFailed + e, state := StateError)
    case Ok(tables) => CountRows(s.(tables := tables), tables, d)
  }

  /** The row-count loop of fetchTableData over the tables still to do. */
  function CountRows(s: AppState, rest: seq<string>, d: Driver): (r: AppState)
    requires s.db.Some?
    ensures r.state == StateConnected || r.state == StateError
    ensures r.fields == s.fields && r.db == s.db && r.tables == s.tables && r.focusedInput == s.focusedInput
    decreases |rest|
  {
    if rest == [] then s.(state := StateConnected)
    else
      match FetchRowCount(s.db.value, rest[0], d).result
      case Err(e) => s.(errorMessage := RowCountFailed + rest[0] + ": " + e, state := StateError)
      case Ok(n) => CountRows(s.(tableRowCount := s.tableRowCount[rest[0] := n]), rest[1..], d)
  }

  /** The count the driver reports for `table`. */
  function DriverCount(db: Handle, table: string, d: Driver): (r: Result<int>)
  {
    d.get(db, CountQuery(table))
  }

  /** `after` holds the driver's count for every table of `done` and keeps
      every other entry of `before`. */
  predicate Recorded(before: map<string, int>, after: map<string, int>, done: seq<string>, db: Handle, d: Driver)
  {
    && after.Keys == before.Keys + (set t | t in done)
    && (forall i | 0 <= i < |done| :: DriverCount(db, done[i], d).Ok? && after[done[i]] == DriverCount(db, done[i], d).value)
    && (forall t | t in before && t !in done :: after[t] == before[t])
  }

  /** When every count succeeds, the loop records them all and ends connected. */
  lemma {:induction false} CountRowsAllOk(s: AppState, rest: seq<string>, d: Driver)
    requires s.db.Some?
    requires forall i | 0 <= i < |rest| :: DriverCount(s.db.value, rest[i], d).Ok?
    ensures var r := CountRows(s, rest, d);
      && r == s.(state := StateConnected, tableRowCount := r.tableRowCount)
      && Recorded(s.tableRowCount, r.tableRowCount, rest, s.db.value, d)
    decreases |rest|
  {
    if rest != [] {
      var db := s.db.value;
      var n := DriverCount(db, rest[0], d).value;
      var s1 := s.(tableRowCount := s.tableRowCount[rest[0] := n]);
      CountRowsAllOk(s1, rest[1..], d);
      var r := CountRows(s1, rest[1..], d);
      assert rest == [rest[0]] + rest[1..];
      assert (set t | t in rest) == {rest[0]} + (set t | t in rest[1..]);
      forall i | 0 <= i < |rest|
        ensures r.tableRowCount[rest[i]] == DriverCount(db, rest[i], d).value
      {
        if rest[i] !in rest[1..] {
          assert i == 0;
        } else {
          var j :| 0 <= j < |rest[1..]| && rest[1..][j] == rest[i];
        }
      }
    }
  }

  /** When the count of table k fails after the earlier ones succeeded, the
      loop stops in the error state naming that table, with the counts of
      the tables before k recorded. */
  lemma {:induction false} CountRowsFailsAt(s: AppState, rest: seq<string>, k: nat, d: Driver)
    requires s.db.Some?
    requires k < |rest|
    requires forall i | 0 <= i < k :: DriverCount(s.db.value, rest[i], d).Ok?
    requires DriverCount(s.db.value, rest[k], d).Err?
    ensures var r := CountRows(s, rest, d);
      && r == s.(state := StateError, errorMessage := r.errorMessage, tableRowCount := r.tableRowCount)
      && r.errorMessage == RowCountFailed + rest[k] + ": " + CountFailed + rest[k] + ": "
                           + DriverCount(s.db.value, rest[k], d).error
      && Recorded(s.tableRowCount, r.tableRowCount, rest[..k], s.db.value, d)
    decreases k
  {
    var db := s.db.value;
    if k == 0 {
      assert rest[..k] == [];
    } else {
      var n := DriverCount(db, rest[0], d).value;
      var s1 := s.(tableRowCount := s.tableRowCount[rest[0] := n]);
      CountRowsFailsAt(s1, rest[1..], k - 1, d);
      var r := CountRows(s1, rest[1..], d);
      var done, prev := rest[..k], rest[1..][..k - 1];
      assert done == [rest[0]] + prev;
      assert (set t | t in done) == {rest[0]} + (set t | t in prev);
      forall i | 0 <= i < |done|
        ensures r.tableRowCount[done[i]] == DriverCount(db, done[i], d).value
      {
        if done[i] !in prev {
          assert i == 0;
        } else {
          var j :| 0 <= j < k - 1 && prev[j] == done[i];
        }
      }
    }
  }

  /** fetchTableData when the table list fails: the error state with the
      wrapped message; tables and counts untouched. */
  lemma FetchListFails(s: AppState, d: Driver)
    requires s.db.Some?
    requires d.select(s.db.value, TablesQuery).Err?
    ensures FetchTableData(s, d) == s.(state := StateError,
      errorMessage := TablesLoadFailed + TablesFailed + d.select(s.db.value, TablesQuery).error)
  {
  }

  /** fetchTableData when the count of table k fails: the error state naming
      that table, the table list already stored, and counts for exactly the
      tables before k added. */
  lemma FetchCountFails(s: AppState, d: Driver, k: nat)
    requires s.db.Some?
    requires d.select(s.db.value, TablesQuery).Ok?
    requires var tables := d.select(s.db.value, TablesQuery).value;
      && k < |tables|
      && (forall i | 0 <= i < k :: DriverCount(s.db.value, tables[i], d).Ok?)
      && DriverCount(s.db.value, tables[k], d).Err?
    ensures var tables := d.select(s.db.value, TablesQuery).value;
      var r := FetchTableData(s, d);
      && r == s.(state := StateError, errorMessage := r.errorMessage, tables := tables, tableRowCount := r.tableRowCount)
      && r.errorMessage == RowCountFailed + tables[k] + ": " + CountFailed + tables[k] + ": "
                           + DriverCount(s.db.value, tables[k], d).error
      && Recorded(s.tableRowCount, r.tableRowCount, tables[..k], s.db.value, d)
  {
    var tables := d.select(s.db.value, TablesQuery).value;
    CountRowsFailsAt(s.(tables := tables), tables, k, d);
  }

  /** fetchTableData when everything succeeds: connected, the table list
      stored as listed, and every listed table's count recorded. */
  lemma FetchSucceeds(s: AppState, d: Driver)
    requires s.db.Some?
    requires d.select(s.db.value, TablesQuery).Ok?
    requires var tables := d.select(s.db.value, TablesQuery).value;
      forall i | 0 <= i < |tables| :: DriverCount(s.db.value, tables[i], d).Ok?
    ensures var tables := d.select(s.db.value, TablesQuery).value;
      var r := FetchTableData(s, d);
      && r == s.(state := StateConnected, tables := tables, tableRowCount := r.tableRowCount)
      && Recorded(s.tableRowCount, r.tableRowCount, tables, s.db.value, d)
  {
    var tables := d.select(s.db.value, TablesQuery).value;
    CountRowsAllOk(s.(tables := tables), tables, d);
  }

  /** The fetch touches nothing but the state, the message, the tables and
      the counts, so it keeps the invariant. */
  lemma FetchKeepsInv(s: AppState, d: Driver)
    requires Inv(s) && s.db.Some?
    ensures var r := FetchTableData(s, d);
      && Inv(r)
      && r == s.(state := r.state, errorMessage := r.errorMessage, tables := r.tables, tableRowCount := r.tableRowCount)
      && r.state in {StateConnected, StateError}
  {
    match FetchTables(s.db.value, d).result
    case Err(_) =>
    case Ok(tables) => CountRowsFrame(s.(tables := tables), tables, d);
  }

  lemma {:induction false} CountRowsFrame(s: AppState, rest: seq<string>, d: Driver)
    requires s.db.Some?
    ensures var r := CountRows(s, rest, d);
      && r == s.(state := r.state, errorMessage := r.errorMessage, tableRowCount := r.tableRowCount)
      && r.state in {StateConnected, StateError}
    decreases |rest|
  {
    if rest != [] && FetchRowCount(s.db.value, rest[0], d).result.Ok? {
      var n := FetchRowCount(s.db.value, rest[0], d).result.value;
      CountRowsFrame(s.(tableRowCount := s.tableRowCount[rest[0] := n]), rest[1..], d);
    }
  }

  /** A driver that reaches a database with tables "users" (3 rows) and
      "orders" (0 rows). */
  function SampleDriver(pingError: Option<string>): Driver
  {
    Driver((name, dsn) => Ok(Handle(1)),
           db => pingError,
           (db, query) => Ok(["users", "orders"]),
           (db, query) => if query == CountQuery("users") then Ok(3) else Ok(0))
  }

  /** From the initial model, "enter" connects and starts the fetch; the
      fetch ends on the dashboard with both tables and their counts. */
  lemma SuccessfulConnectScenario()
    ensures var d, keep := SampleDriver(None), (v: string, k: string) => v;
      var t := Step(Initial(), Key("enter"), d, keep);
      var r := FetchTableData(t.next, d);
      && t.startFetch && t.next.state == StateQuerying
      && r.state == StateConnected && r.tables == ["users", "orders"]
      && r.tableRowCount == map["users" := 3, "orders" := 0]
  {
    var d := SampleDriver(None);
    assert CountQuery("users") != CountQuery("orders") by {
      CountQueryVerbatim("users", "orders");
    }
    var t := Step(Initial(), Key("enter"), d, (v: string, k: string) => v);
    assert t.next.db == Some(Handle(1));
    var ts := ["users", "orders"];
    assert ts[1..] == ["orders"];
  }

  /** A failing ping leads to the error screen with the wrapped message;
      "enter" then returns to the wizard and the message stays on record. */
  lemma FailedPingScenario()
    ensures var d, keep := SampleDriver(Some("timeout")), (v: string, k: string) => v;
      var t := Step(Initial(), Key("enter"), d, keep);
      var back := Step(t.next, Key("enter"), d, keep);
      && !t.startFetch && t.next.state == StateError
      && t.next.errorMessage == "could not ping the database: timeout"
      && back.next.state == StateConfigWizard
      && back.next.errorMessage == "could not ping the database: timeout"
      && back.next.fields == Initial().fields
  {
  }
}
