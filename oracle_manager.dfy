/** `OracleManager`: the connection holder around the Oracle driver. The driver
    itself (connecting, executing, committing, reading the dictionary views) is
    outside the model and is passed in as a `Driver` value: each of its functions
    gives what the driver call returns, or the error it raises. What the class
    adds around those calls is modelled: parsing the DSN, stripping trailing
    semicolons, wrapping errors into messages, the success message, finding the
    table name for the metadata fallback, and keeping `conn`. */
module OracleManager {
  import opened Wrappers
  import opened PyStr
  import opened Frames

  /** An open connection, as an opaque handle. */
  datatype Connection = Connection(id: nat)

  /** What the driver raises: `cx_Oracle.DatabaseError` with its error object's
      code and message, or some other exception with its text. */
  datatype DbError = DatabaseError(code: int, message: string) | OtherError(message: string)

  /** The parts of a DSN `host:port/service_name`. */
  datatype Dsn = Dsn(host: string, port: int, service: string)

  /** A read returns the rows and column names when the cursor has a description,
      and `None` when it has none. */
  datatype Driver = Driver(
    connect: (string, string, Dsn) -> Result<Connection, DbError>,
    query: (Connection, string) -> Result<Option<DataFrame>, DbError>,
    execute: (Connection, string) -> Result<int, DbError>,
    columnsOf: (Connection, string) -> Result<DataFrame, DbError>)

  // ---- DSN ----

  /** `host, port_service = dsn.split(":", 1)` and `port, service_name =
      port_service.split("/", 1)`; `None` where an unpacking raises `ValueError`. */
  function DsnParts(dsn: string): Option<(string, string, string)> {
    match SplitFirst(dsn, ":")
    case None => None
    case Some((host, rest)) =>
      match SplitFirst(rest, "/")
      case None => None
      case Some((port, service)) => Some((host, port, service))
  }

  /** The parts followed by `int(port)`; `None` where Python raises `ValueError`. */
  function ParseDsn(dsn: string): Option<Dsn> {
    match DsnParts(dsn)
    case None => None
    case Some((host, port, service)) =>
      match ParseInt(port)
      case None => None
      case Some(p) => Some(Dsn(host, p, service))
  }

  /** The DSN text with the given parts. */
  function FormatDsn(d: Dsn): string {
    d.host + ":" + IntToString(d.port) + "/" + d.service
  }

  /** The parts put back together give the DSN; the host holds no ':' and the
      port text no '/'. */
  lemma DsnPartsJoin(dsn: string)
    requires DsnParts(dsn).Some?
    ensures var (host, port, service) := DsnParts(dsn).value;
            dsn == host + ":" + port + "/" + service && ':' !in host && '/' !in port
  {
    var r1 := SplitFirst(dsn, ":");
    var host, rest := r1.value.0, r1.value.1;
    var r2 := SplitFirst(rest, "/");
    var port, service := r2.value.0, r2.value.1;
    assert DsnParts(dsn).value == (host, port, service);
    JoinSplits(dsn, host, rest, port, service);
    assert ':' !in host by { CharContained(host, ':'); }
    assert '/' !in port by { CharContained(port, '/'); }
  }

  /** The two splits in one text. */
  lemma JoinSplits(dsn: string, host: string, rest: string, port: string, service: string)
    requires dsn == host + ":" + rest && rest == port + "/" + service
    ensures dsn == host + ":" + port + "/" + service
  {
    assert (host + ":") + (port + "/" + service) == host + ":" + port + "/" + service;
  }

  /** Conversely, a host without ':' and a port text without '/' are found again,
      whatever the service name holds. */
  lemma DsnPartsSplit(host: string, port: string, service: string)
    requires ':' !in host && '/' !in port
    ensures DsnParts(host + ":" + port + "/" + service) == Some((host, port, service))
  {
    assert host + ":" + port + "/" + service == host + [':'] + (port + ['/'] + service);
    SplitAtChar(host, ':', port + ['/'] + service);
    SplitAtChar(port, '/', service);
  }

  /** A DSN written from parts whose host has no ':' reads back as those parts. */
  lemma ParseFormatDsn(d: Dsn)
    requires ':' !in d.host
    ensures ParseDsn(FormatDsn(d)) == Some(d)
  {
    var p := IntToString(d.port);
    assert '/' !in p;
    DsnPartsSplit(d.host, p, d.service);
    ParseIntToString(d.port);
  }

  /** `"localhost:1521/orcl"` parses into its three parts. */
  lemma DefaultDsnParses()
    ensures ParseDsn("localhost:1521/orcl") == Some(Dsn("localhost", 1521, "orcl"))
  {
    var d := Dsn("localhost", 1521, "orcl");
    assert NatToString(1) == "1";
    assert NatToString(15) == "15";
    assert NatToString(152) == "152";
    assert IntToString(1521) == "1521";
    assert FormatDsn(d) == "localhost:1521/orcl";
    ParseFormatDsn(d);
  }

  /** A DSN without a port does not parse. */
  lemma DsnWithoutPortFails()
    ensures ParseDsn("localhost/orcl") == None
  {
    AbsentNotContained("localhost/orcl", ":");
  }

  // ---- messages ----

  const NoConnectionText := "No active connection to the database."

  const OraclePrefix := "Oracle Execution Error: ORA-"
  const GeneralPrefix := "General Execution Error: "
  const SuccessPrefix := "DDL/DML " + "executed successfully. Rows affected: "

  /** The message of the exception the two executors raise for a driver error. */
  function ErrorMessage(e: DbError): (m: string)
    ensures e.OtherError? ==> m == GeneralPrefix + e.message && StartsWith(m, GeneralPrefix)
    ensures e.DatabaseError? ==> StartsWith(m, OraclePrefix)
  {
    match e
    case DatabaseError(code, message) => OraclePrefix + IntToString(code) + ": " + message
    case OtherError(message) => GeneralPrefix + message
  }

  /** The message the executors raise when there is no connection: the inner
      exception is caught by the outer handler and wrapped again. */
  const NoConnectionMessage := ErrorMessage(OtherError(NoConnectionText))

  /** The value an execution returns on success. */
  function SuccessMessage(rowCount: int): string {
    SuccessPrefix + IntToString(rowCount)
  }

  /** The row count can be read back from the success message. */
  lemma SuccessMessageRoundTrip(rowCount: int)
    ensures var m := SuccessMessage(rowCount);
            StartsWith(m, SuccessPrefix) && ParseInt(m[|SuccessPrefix|..]) == Some(rowCount)
  {
    var m := SuccessMessage(rowCount);
    assert m[|SuccessPrefix|..] == IntToString(rowCount);
    ParseIntToString(rowCount);
  }

  /** The success message differs from every error message in its first letter. */
  lemma SuccessIsNotError(rowCount: int, e: DbError)
    ensures SuccessMessage(rowCount) != ErrorMessage(e)
  {
    assert SuccessPrefix[0] == 'D' && OraclePrefix[0] == 'O' && GeneralPrefix[0] == 'G';
    match e
    case DatabaseError(code, message) =>
      FirstCharDiffers(SuccessPrefix, IntToString(rowCount), OraclePrefix, IntToString(code) + ": " + message);
      assert ErrorMessage(e) == OraclePrefix + (IntToString(code) + ": " + message);
    case OtherError(message) =>
      FirstCharDiffers(SuccessPrefix, IntToString(rowCount), GeneralPrefix, message);
  }

  // ---- table name for the metadata fallback ----

  /** `sql.split("FROM")[1].split()[0]`: the first word after the first `FROM`
      (case-sensitive) and before the next one; `None` where the indexing raises
      `IndexError`. */
  function TableNameOf(sql: string): (r: Option<string>)
    ensures r.Some? ==> |r.value| > 0 && NoSpace(r.value)
  {
    var parts := Split(sql, "FROM");
    if |parts| < 2 then None
    else
      var words := Words(parts[1]);
      if |words| == 0 then None else WordIsWord(parts[1], 0); Some(words[0])
  }

  /** There is a table name exactly when `FROM` occurs and the text between it and
      the next `FROM` (or the end) is not all whitespace; the name is the first
      word of that text. */
  lemma TableNameMeaning(sql: string)
    ensures TableNameOf(sql).Some? <==>
      Contains(sql, "FROM") && !AllSpace(SegmentAfterFrom(sql))
    ensures TableNameOf(sql).Some? ==> TableNameOf(sql).value == Words(SegmentAfterFrom(sql))[0]
  {
    var parts := Split(sql, "FROM");
    if Contains(sql, "FROM") {
      var (_, after) := SplitFirst(sql, "FROM").value;
      assert parts[1] == Split(after, "FROM")[0];
      NoWords(parts[1]);
    }
  }

  /** The text between the first `FROM` and the next one. */
  function SegmentAfterFrom(sql: string): string
    requires Contains(sql, "FROM")
  {
    Split(SplitFirst(sql, "FROM").value.1, "FROM")[0]
  }

  /** The keyword is matched case-sensitively: a lower-case query gives no name. */
  lemma LowerCaseFromGivesNoName()
    ensures TableNameOf("select * from emp") == None
  {
    AbsentNotContained("select * from emp", "FROM");
  }

  /** A word after `FROM` and whitespace is the table name, when neither the
      text before nor the word contains `FROM`. */
  lemma TableNameAfterFrom(head: string, gap: string, name: string)
    requires !Contains(head, "FROM") && !Contains(name, "FROM")
    requires AllSpace(gap) && |name| > 0 && NoSpace(name)
    ensures TableNameOf(head + "FROM" + gap + name) == Some(name)
  {
    var after := gap + name;
    assert head + "FROM" + gap + name == head + "FROM" + after;
    FirstFromAfter(head, after);
    NoFromInGapAndWord(gap, name);
    assert Split(after, "FROM") == [after];
    WordsOfWord(gap, name);
  }

  /** The first `FROM` of `head + "FROM" + after` is the one after `head` when
      `head` contains none: one that reaches into the keyword would need an 'F'
      among its last three letters. */
  lemma FirstFromAfter(head: string, after: string)
    requires !Contains(head, "FROM")
    ensures SplitFirst(head + "FROM" + after, "FROM") == Some((head, after))
  {
    var s := head + "FROM" + after;
    assert s[|head|..|head| + 4] == "FROM";
    forall j | 0 <= j < |head| ensures !OccursAt(s, "FROM", j) {
      if j + 4 <= |head| {
        assert s[j..j + 4] == head[j..j + 4];
        assert !OccursAt(head, "FROM", j);
      } else if j + 4 <= |s| {
        assert s[j..j + 4][|head| - j] == s[|head|] == 'F';
      }
    }
    FindAt(s, "FROM", |head|);
    assert s[..|head|] == head;
    assert s[|head| + 4..] == after;
  }

  /** Whitespace followed by a word without `FROM` contains no `FROM`. */
  lemma NoFromInGapAndWord(gap: string, name: string)
    requires AllSpace(gap) && !Contains(name, "FROM")
    ensures !Contains(gap + name, "FROM")
  {
    var after := gap + name;
    forall j ensures !OccursAt(after, "FROM", j) {
      if 0 <= j && j + 4 <= |after| {
        if j < |gap| {
          assert IsSpace(gap[j]) && !IsSpace('F');
          assert after[j..j + 4][0] == gap[j] != "FROM"[0];
        } else {
          assert after[j..j + 4] == name[j - |gap|..j - |gap| + 4];
          assert !OccursAt(name, "FROM", j - |gap|);
        }
      }
    }
  }

  /** `"SELECT * FROM "` followed by a word gives that word, `emp` say. */
  lemma UpperCaseFromGivesName(name: string)
    requires !Contains(name, "FROM") && |name| > 0 && NoSpace(name)
    ensures TableNameOf("SELECT * FROM " + name) == Some(name)
  {
    var head, gap := "SELECT * ", " ";
    assert head + "FROM" + gap + name == "SELECT * FROM " + name;
    assert !Contains(head, "FROM") by {
      AbsentNotContained(head, "FROM");
    }
    TableNameAfterFrom(head, gap, name);
  }

  // ---- the object ----

  class OracleManager {
    var dsn: string
    var conn: Option<Connection>

    /** `OracleManager(dsn)`: not connected. */
    constructor (dsn: string)
      ensures this.dsn == dsn && conn.None?
    {
      this.dsn := dsn;
      conn := None;
    }

    /** `connect`: parse the DSN and open a connection; every failure gives
        `false` and leaves the connection as it was. */
    method Connect(username: string, password: string, driver: Driver) returns (ok: bool)
      modifies this
      ensures dsn == old(dsn)
      ensures ok <==> ParseDsn(dsn).Some? && driver.connect(username, password, ParseDsn(dsn).value).Success?
      ensures ok ==> conn == Some(driver.connect(username, password, ParseDsn(dsn).value).value)
      ensures !ok ==> conn == old(conn)
    {
      match ParseDsn(dsn)
      case None =>
        ok := false;
      case Some(d) =>
        match driver.connect(username, password, d)
        case Success(c) =>
          conn := Some(c);
          ok := true;
        case Failure(_) =>
          ok := false;
    }

    /** `execute_query`: the table a read returns, or the message of the
        exception it raises. All trailing semicolons are removed first; a cursor
        without a description gives the empty frame. */
    function ExecuteQuery(sql: string, driver: Driver): (r: Result<DataFrame, string>)
      reads this
      ensures conn.None? ==> r == Failure(GeneralPrefix + NoConnectionText)
      ensures r.Failure? ==> StartsWith(r.error, GeneralPrefix) || StartsWith(r.error, OraclePrefix)
      ensures conn.Some? ==> match driver.query(conn.value, TrimEndChar(sql, ';'))
        case Failure(e) => r == Failure(ErrorMessage(e))
        case Success(None) => r == Success(EmptyFrame)
        case Success(Some(df)) => r == Success(df)
    {
      if conn.None? then Failure(NoConnectionMessage)
      else
        match driver.query(conn.value, TrimEndChar(sql, ';'))
        case Failure(e) => Failure(ErrorMessage(e))
        case Success(None) => Success(EmptyFrame)
        case Success(Some(df)) => Success(df)
    }

    /** `execute_ddl_dml`: the success message with the affected row count, or
        the message of the exception it raises. */
    function ExecuteDdlDml(sql: string, driver: Driver): (r: Result<string, string>)
      reads this
      ensures conn.None? ==> r == Failure(GeneralPrefix + NoConnectionText)
      ensures r.Failure? ==> StartsWith(r.error, GeneralPrefix) || StartsWith(r.error, OraclePrefix)
      ensures r.Success? ==>
                (StartsWith(r.value, SuccessPrefix) && conn.Some?
                 && driver.execute(conn.value, TrimEndChar(sql, ';')).Success?
                 && ParseInt(r.value[|SuccessPrefix|..])
                    == Some(driver.execute(conn.value, TrimEndChar(sql, ';')).value))
      ensures conn.Some? ==> match driver.execute(conn.value, TrimEndChar(sql, ';'))
        case Failure(e) => r == Failure(ErrorMessage(e))
        case Success(n) => r == Success(SuccessMessage(n))
    {
      if conn.None? then Failure(NoConnectionMessage)
      else
        match driver.execute(conn.value, TrimEndChar(sql, ';'))
        case Failure(e) => Failure(ErrorMessage(e))
        case Success(n) => SuccessMessageRoundTrip(n); Success(SuccessMessage(n))
    }

    /** `get_table_metadata`: the column description of the table named after
        `FROM`; `None` when there is no name, no connection, or the lookup fails. */
    function GetTableMetadata(sql: string, driver: Driver): (r: Option<DataFrame>)
      reads this
      ensures r.Some? ==>
        (TableNameOf(sql).Some? && conn.Some?
         && driver.columnsOf(conn.value, TableNameOf(sql).value) == Success(r.value))
      ensures (TableNameOf(sql).Some? && conn.Some?
               && driver.columnsOf(conn.value, TableNameOf(sql).value).Success?) ==> r.Some?
    {
      match TableNameOf(sql)
      case None => None
      case Some(name) =>
        if conn.None? then None
        else
          match driver.columnsOf(conn.value, name)
          case Failure(_) => None
          case Success(df) => Some(df)
    }

    /** `close`: afterwards there is no connection. */
    method Close()
      modifies this
      ensures conn.None? && dsn == old(dsn)
    {
      if conn.Some? {
        conn := None;
      }
    }
  }

  /** The statement the driver sees ends in no semicolon, and only semicolons
      were removed. */
  lemma StrippedStatement(sql: string)
    ensures var t := TrimEndChar(sql, ';');
            (|t| == 0 || t[|t| - 1] != ';')
            && sql == t + sql[|t|..]
            && forall i :: |t| <= i < |sql| ==> sql[i] == ';'
  {
  }
}
