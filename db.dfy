/** The PostgreSQL access layer of db.go: the connection configuration, the
    connection string handed to the driver, and the error plumbing of
    connectToDatabase, fetchTables and fetchRowCount. The driver itself
    (sqlx over lib/pq) is a parameter: a record of the four calls the code
    makes, each returning an outcome. Every operation also returns the
    driver calls it made, in order, so that "the ping is never attempted"
    is something the model can state. */
module Db {
  import opened Text

  datatype Option<T> = None | Some(value: T)

  /** A Go `(value, error)` pair with the error reduced to its message. */
  datatype Result<T> = Ok(value: T) | Err(error: string)

  /** DBConfig: the five fields typed into the configuration wizard. */
  datatype DBConfig = DBConfig(user: string, password: string, host: string, port: string, dbName: string)

  /** An open connection pool (`*sqlx.DB`); which server it reaches is left abstract. */
  datatype Handle = Handle(id: nat)

  /** One call into the driver. */
  datatype DriverCall =
    | Connect(driverName: string, dataSource: string)
    | Ping(db: Handle)
    | Select(db: Handle, query: string)
    | Get(db: Handle, query: string)

  /** What the driver answers to each call: sqlx.Connect, DB.Ping, DB.Select
      into a string slice, DB.Get into an int. */
  datatype Driver = Driver(
    connect: (string, string) -> Result<Handle>,
    ping: Handle -> Option<string>,
    select: (Handle, string) -> Result<seq<string>>,
    get: (Handle, string) -> Result<int>)

  /** A result together with the driver calls made to obtain it. */
  datatype Traced<T> = Traced(result: Result<T>, calls: seq<DriverCall>)

  const DriverName := "postgres"
  const ConnectFailed := "failed to connect to the database: "
  const PingFailed := "could not ping the database: "
  const TablesFailed := "failed to fetch tables: "
  const CountFailed := "failed to fetch row count for table "
  const TablesQuery := "SELECT table_name FROM information_schema.tables WHERE table_schema = 'public'"
  const CountPrefix := "SELECT COUNT(*) FROM "

  predicate StartsWith(s: string, prefix: string)
  {
    |prefix| <= |s| && s[..|prefix|] == prefix
  }

  /** The keyword/value connection string built by connectToDatabase. */
  function ConnString(c: DBConfig): (s: string)
    ensures StartsWith(s, "user=" + c.user + " password=")
    ensures |s| >= 16 && s[|s| - 16..] == " sslmode=disable"
  {
    "user=" + c.user + " password=" + c.password + " host=" + c.host + " port=" + c.port
      + " dbname=" + c.dbName + " sslmode=disable"
  }

  /** The six keyword=value words of a connection string, in order. */
  function ConnWords(c: DBConfig): (words: seq<string>)
  {
    ["user=" + c.user, "password=" + c.password, "host=" + c.host, "port=" + c.port,
     "dbname=" + c.dbName, "sslmode=disable"]
  }

  /** The value of `word` if it reads `key=value`. */
  function ValueOf(word: string, key: string): (v: Option<string>)
  {
    if StartsWith(word, key + "=") then Some(word[|key| + 1..]) else None
  }

  /** A reader of connection strings of exactly the shape ConnString writes:
      the independent definition ConnString is checked against. */
  function ParseConnString(s: string): (c: Option<DBConfig>)
  {
    var w := Split(s, ' ');
    if |w| != 6 || w[5] != "sslmode=disable" then None
    else
      match (ValueOf(w[0], "user"), ValueOf(w[1], "password"), ValueOf(w[2], "host"),
             ValueOf(w[3], "port"), ValueOf(w[4], "dbname"))
      case (Some(u), Some(p), Some(h), Some(pt), Some(d)) => Some(DBConfig(u, p, h, pt, d))
      case _ => None
  }

  predicate SpaceFree(c: DBConfig)
  {
    ' ' !in c.user && ' ' !in c.password && ' ' !in c.host && ' ' !in c.port && ' ' !in c.dbName
  }

  /** The connection string is the six words joined by single spaces. */
  lemma ConnStringIsWords(c: DBConfig)
    ensures ConnString(c) == Join(ConnWords(c), ' ')
  {
    var w := ConnWords(c);
    var a1 := w[0] + " password=" + c.password;
    var a2 := a1 + " host=" + c.host;
    var a3 := a2 + " port=" + c.port;
    var a4 := a3 + " dbname=" + c.dbName;
    AppendWord(w[0], " password=", "password=", c.password);
    AppendWord(a1, " host=", "host=", c.host);
    AppendWord(a2, " port=", "port=", c.port);
    AppendWord(a3, " dbname=", "dbname=", c.dbName);
    AppendWord(a4, " sslmode=disable", "sslmode=disable", "");
    JoinPrefix(w, 1);
    JoinPrefix(w, 2);
    JoinPrefix(w, 3);
    JoinPrefix(w, 4);
    JoinPrefix(w, 5);
    assert w[..6] == w;
  }

  /** Appending ` key=v` to the string so far appends a space and the word `key=v`. */
  lemma AppendWord(acc: string, spaced: string, key: string, v: string)
    requires spaced == " " + key
    ensures acc + spaced + v == acc + " " + (key + v)
  {
  }

  /** The join of the first k+1 words extends the join of the first k. */
  lemma JoinPrefix(w: seq<string>, k: nat)
    requires 1 <= k < |w|
    ensures Join(w[..k + 1], ' ') == Join(w[..k], ' ') + " " + w[k]
  {
    assert w[..k + 1] == w[..k] + [w[k]];
    JoinSnoc(w[..k], w[k], ' ');
  }

  /** Every field is inserted verbatim, in the order user, password, host,
      port, dbname: reading the string back gives the configuration again,
      as long as no field contains a space. */
  lemma ConnStringRoundTrip(c: DBConfig)
    requires SpaceFree(c)
    ensures ParseConnString(ConnString(c)) == Some(c)
  {
    SplitConnString(c);
    ParseWords(ConnString(c), c);
  }

  /** Splitting the connection string on spaces gives back its six words. */
  lemma SplitConnString(c: DBConfig)
    requires SpaceFree(c)
    ensures Split(ConnString(c), ' ') == ConnWords(c)
  {
    var w := ConnWords(c);
    ConnStringIsWords(c);
    WordOf("user", c.user);
    WordOf("password", c.password);
    WordOf("host", c.host);
    WordOf("port", c.port);
    WordOf("dbname", c.dbName);
    assert forall k | 0 <= k < |w| :: ' ' !in w[k] by {
      assert ' ' !in w[5];
    }
    SplitJoin(w, ' ');
  }

  lemma ParseWords(s: string, c: DBConfig)
    requires SpaceFree(c)
    requires Split(s, ' ') == ConnWords(c)
    ensures ParseConnString(s) == Some(c)
  {
    WordOf("user", c.user);
    WordOf("password", c.password);
    WordOf("host", c.host);
    WordOf("port", c.port);
    WordOf("dbname", c.dbName);
  }

  /** One `key=value` word: free of spaces when both parts are, and read back by ValueOf. */
  lemma WordOf(key: string, v: string)
    requires ' ' !in key && ' ' !in v
    ensures ' ' !in key + "=" + v
    ensures ValueOf(key + "=" + v, key) == Some(v)
  {
    var word := key + "=" + v;
    assert word[..|key| + 1] == key + "=";
    assert word[|key| + 1..] == v;
  }

  /** Without quoting, a value holding a space can pose as another
      keyword: two different configurations give the same string. */
  lemma ConnStringAmbiguous()
    ensures DBConfig("u", "p", "h port=1", "2", "d") != DBConfig("u", "p", "h", "1 port=2", "d")
    ensures ConnString(DBConfig("u", "p", "h port=1", "2", "d"))
         == ConnString(DBConfig("u", "p", "h", "1 port=2", "d"))
  {
  }

  /** connectToDatabase: connect with the connection string, then ping;
      either failure is wrapped with its own prefix. */
  function ConnectToDatabase(c: DBConfig, d: Driver): (r: Traced<Handle>)
    ensures 1 <= |r.calls| <= 2
    ensures r.result.Ok? ==> r.calls == [Connect(DriverName, ConnString(c)), Ping(r.result.value)]
  {
    var dsn := ConnString(c);
    match d.connect(DriverName, dsn)
    case Err(e) => Traced(Err(ConnectFailed + e), [Connect(DriverName, dsn)])
    case Ok(db) =>
      match d.ping(db)
      case Some(e) => Traced(Err(PingFailed + e), [Connect(DriverName, dsn), Ping(db)])
      case None => Traced(Ok(db), [Connect(DriverName, dsn), Ping(db)])
  }

  /** The driver is always asked first to open a "postgres" connection with
      the connection string built from the configuration. */
  lemma ConnectUsesConnString(c: DBConfig, d: Driver)
    ensures var r := ConnectToDatabase(c, d);
      |r.calls| >= 1 && r.calls[0] == Connect(DriverName, ConnString(c))
  {
  }

  /** A failed connect is reported with its prefix and no ping follows. */
  lemma ConnectFailureSkipsPing(c: DBConfig, d: Driver)
    requires d.connect(DriverName, ConnString(c)).Err?
    ensures var r := ConnectToDatabase(c, d);
      && r.result == Err(ConnectFailed + d.connect(DriverName, ConnString(c)).error)
      && forall k | 0 <= k < |r.calls| :: !r.calls[k].Ping?
  {
  }

  /** A failed ping is reported with its own prefix, after a successful connect. */
  lemma PingFailureReported(c: DBConfig, d: Driver)
    requires d.connect(DriverName, ConnString(c)).Ok?
    requires d.ping(d.connect(DriverName, ConnString(c)).value).Some?
    ensures var db := d.connect(DriverName, ConnString(c)).value;
      ConnectToDatabase(c, d).result == Err(PingFailed + d.ping(db).value)
  {
  }

  /** A handle comes back exactly when both the connect and the ping
      succeed, and it is the handle the connect produced; every error
      carries one of the two prefixes. */
  lemma ConnectSucceedsIff(c: DBConfig, d: Driver)
    ensures var r := ConnectToDatabase(c, d);
      var conn := d.connect(DriverName, ConnString(c));
      && (r.result.Ok? <==> conn.Ok? && d.ping(conn.value).None?)
      && (r.result.Ok? ==> r.result.value == conn.value)
      && (r.result.Err? ==> StartsWith(r.result.error, ConnectFailed) || StartsWith(r.result.error, PingFailed))
  {
  }

  /** fetchTables: one Select of the public table names. */
  function FetchTables(db: Handle, d: Driver): (r: Traced<seq<string>>)
    ensures r.calls == [Select(db, TablesQuery)]
  {
    match d.select(db, TablesQuery)
    case Err(e) => Traced(Err(TablesFailed + e), [Select(db, TablesQuery)])
    case Ok(tables) => Traced(Ok(tables), [Select(db, TablesQuery)])
  }

  /** The table list comes back unchanged, or the error is wrapped. */
  lemma FetchTablesOutcome(db: Handle, d: Driver)
    ensures var r := FetchTables(db, d);
      && r.calls == [Select(db, TablesQuery)]
      && (d.select(db, TablesQuery).Ok? ==> r.result == d.select(db, TablesQuery))
      && (d.select(db, TablesQuery).Err? ==> r.result == Err(TablesFailed + d.select(db, TablesQuery).error))
  {
  }

  /** The row-count query: the table name pasted in without quoting. */
  function CountQuery(table: string): (q: string)
    ensures |q| == |CountPrefix| + |table|
  {
    CountPrefix + table
  }

  /** The query is the fixed prefix followed by the table name verbatim, so
      distinct table names give distinct queries. */
  lemma CountQueryVerbatim(table: string, other: string)
    ensures StartsWith(CountQuery(table), CountPrefix)
    ensures CountQuery(table)[|CountPrefix|..] == table
    ensures CountQuery(table) == CountQuery(other) ==> table == other
  {
    assert CountQuery(other)[|CountPrefix|..] == other;
  }

  /** fetchRowCount: one Get of `SELECT COUNT(*) FROM <table>`. */
  function FetchRowCount(db: Handle, table: string, d: Driver): (r: Traced<int>)
    ensures r.calls == [Get(db, CountQuery(table))]
  {
    var q := CountQuery(table);
    match d.get(db, q)
    case Err(e) => Traced(Err(CountFailed + table + ": " + e), [Get(db, q)])
    case Ok(n) => Traced(Ok(n), [Get(db, q)])
  }

  /** The count fetched is returned as is; a failed Get gives an error
      that names the table. */
  lemma FetchRowCountOutcome(db: Handle, table: string, d: Driver)
    ensures var r := FetchRowCount(db, table, d);
      && r.calls == [Get(db, CountQuery(table))]
      && (d.get(db, CountQuery(table)).Ok? ==> r.result == d.get(db, CountQuery(table)))
      && (d.get(db, CountQuery(table)).Err? ==>
            r.result == Err(CountFailed + table + ": " + d.get(db, CountQuery(table)).error))
      && (r.result.Err? ==> StartsWith(r.result.error, CountFailed + table + ": "))
  {
  }
}
