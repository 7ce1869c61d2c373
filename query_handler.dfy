/** `QueryHandler`: the dispatcher that runs a statement and records its outcome
    in the session store, and the analysis log the three analysis buttons add
    to. The security gate reads the store itself; the database manager and its
    driver are parameters of the methods, and so is the reply the language model
    gave to an analysis prompt (the prompt text itself is not modelled). */
module QueryHandler {
  import opened Wrappers
  import opened PyStr
  import opened Frames
  import opened Security
  import opened GroqHandler
  import opened OracleManager
  import opened StateManager

  // ---- execute_query ----

  /** The enable flag has a truth value: it holds no data frame. The flag is
      written only by `init_state` and by the sidebar checkbox. */
  predicate FlagReadable(m: Session) {
    !Lookup(m, DdlDmlEnabled).Frame?
  }

  /** The truth value of `ddl_dml_enabled`; a missing slot reads as false. */
  predicate Enabled(m: Session)
    requires FlagReadable(m)
  {
    Truthy(Lookup(m, DdlDmlEnabled))
  }

  /** Where a statement goes. */
  datatype Route = Rejected | Mutation | Read

  /** The gate first; then statements that are not SELECTs go to the mutation
      executor when the flag is on, and every other accepted statement to the
      read executor. */
  function RouteOf(sql: string, enabled: bool): (r: Route)
    ensures r.Rejected? <==> !SanitizeInput(sql, enabled)
    ensures r.Mutation? <==> SanitizeInput(sql, enabled) && !IsSelect(sql) && enabled
    ensures r.Read? <==> SanitizeInput(sql, enabled) && IsSelect(sql)
    ensures !enabled ==> !r.Mutation?
  {
    if !SanitizeInput(sql, enabled) then Rejected
    else if !IsSelect(sql) && enabled then Mutation
    else Read
  }

  /** The `except` branch: the error is recorded as the DDL/DML output only
      when the flag is on and the statement is not a SELECT. */
  function ErrorRecorded(m: Session, sql: string, message: string): Session
    requires FlagReadable(m)
  {
    if Enabled(m) && !IsSelect(sql) then m[DdlDmlOutput := Str("Error: " + message)] else m
  }

  /** The slots a successful mutation writes: its message, and the read
      result, its statement and the analysis log cleared. */
  function MutationStored(m: Session, output: string): Session {
    m[DdlDmlOutput := Str(output)][QueryDf := NoneValue][ExecutedSql := NoneValue][AnalysisResults := NoneValue]
  }

  /** The slots a read with rows writes: the statement and its table, with the
      analysis slots and the DDL/DML output reset. */
  function ReadStored(m: Session, sql: string, df: DataFrame): Session {
    m[ExecutedSql := Str(sql)][QueryDf := Frame(df)][AnalysisResult := NoneValue]
     [ShowAnalysis := Bool(false)][AnalysisResults := NoneValue][DdlDmlOutput := NoneValue]
  }

  /** The mutation branch. */
  function AfterMutation(m: Session, sql: string, mutation: Result<string, string>): Session
    requires FlagReadable(m)
  {
    match mutation
    case Success(output) => MutationStored(m, output)
    case Failure(e) => ErrorRecorded(m, sql, e)
  }

  /** The read branch; a read without rows only clears the DDL/DML output. */
  function AfterRead(m: Session, sql: string, read: Result<DataFrame, string>): Session
    requires FlagReadable(m)
  {
    match read
    case Failure(e) => ErrorRecorded(m, sql, e)
    case Success(df) => if !df.IsEmpty() then ReadStored(m, sql, df) else m[DdlDmlOutput := NoneValue]
  }

  /** The store after `execute_query(sql)`, given what the mutation executor
      and the read executor would return (only the one the route picks is
      used). */
  function AfterExecute(m: Session, sql: string, mutation: Result<string, string>,
                        read: Result<DataFrame, string>): Session
    requires FlagReadable(m)
  {
    match RouteOf(sql, Enabled(m))
    case Rejected => m
    case Mutation => AfterMutation(m, sql, mutation)
    case Read => AfterRead(m, sql, read)
  }

  /** A statement the gate refuses changes no slot. */
  lemma RejectedChangesNothing(m: Session, sql: string, mutation: Result<string, string>,
                               read: Result<DataFrame, string>)
    requires FlagReadable(m) && !SanitizeInput(sql, Enabled(m))
    ensures AfterExecute(m, sql, mutation, read) == m
  {
  }

  /** A successful mutation records its message and clears the read result,
      its statement and the analysis log; no other slot changes. */
  lemma MutationSuccess(m: Session, sql: string, output: string, read: Result<DataFrame, string>)
    requires FlagReadable(m) && RouteOf(sql, Enabled(m)).Mutation?
    ensures var r := AfterExecute(m, sql, Success(output), read);
            Lookup(r, DdlDmlOutput) == Str(output)
            && Lookup(r, QueryDf) == NoneValue && Lookup(r, ExecutedSql) == NoneValue
            && Lookup(r, AnalysisResults) == NoneValue
            && forall k :: k != DdlDmlOutput && k != QueryDf && k != ExecutedSql && k != AnalysisResults
                 ==> Lookup(r, k) == Lookup(m, k)
  {
    assert AfterExecute(m, sql, Success(output), read) == MutationStored(m, output);
    MutationStoredSlots(m, output);
  }

  lemma MutationStoredSlots(m: Session, output: string)
    ensures var r := MutationStored(m, output);
            Lookup(r, DdlDmlOutput) == Str(output)
            && Lookup(r, QueryDf) == NoneValue && Lookup(r, ExecutedSql) == NoneValue
            && Lookup(r, AnalysisResults) == NoneValue
            && forall k :: k != DdlDmlOutput && k != QueryDf && k != ExecutedSql && k != AnalysisResults
                 ==> Lookup(r, k) == Lookup(m, k)
  {
  }

  /** A read with rows stores the statement and its table, and resets the
      analysis slots and the DDL/DML output; no other slot changes. */
  lemma ReadSuccess(m: Session, sql: string, mutation: Result<string, string>, df: DataFrame)
    requires FlagReadable(m) && RouteOf(sql, Enabled(m)).Read? && !df.IsEmpty()
    ensures var r := AfterExecute(m, sql, mutation, Success(df));
            Lookup(r, ExecutedSql) == Str(sql) && Lookup(r, QueryDf) == Frame(df)
            && Lookup(r, AnalysisResult) == NoneValue && Lookup(r, ShowAnalysis) == Bool(false)
            && Lookup(r, AnalysisResults) == NoneValue && Lookup(r, DdlDmlOutput) == NoneValue
            && forall k :: (k != ExecutedSql && k != QueryDf && k != AnalysisResult && k != ShowAnalysis
                 && k != AnalysisResults && k != DdlDmlOutput) ==> Lookup(r, k) == Lookup(m, k)
  {
    assert AfterExecute(m, sql, mutation, Success(df)) == ReadStored(m, sql, df);
    ReadStoredSlots(m, sql, df);
  }

  lemma ReadStoredSlots(m: Session, sql: string, df: DataFrame)
    ensures var r := ReadStored(m, sql, df);
            Lookup(r, ExecutedSql) == Str(sql) && Lookup(r, QueryDf) == Frame(df)
            && Lookup(r, AnalysisResult) == NoneValue && Lookup(r, ShowAnalysis) == Bool(false)
            && Lookup(r, AnalysisResults) == NoneValue && Lookup(r, DdlDmlOutput) == NoneValue
            && forall k :: (k != ExecutedSql && k != QueryDf && k != AnalysisResult && k != ShowAnalysis
                 && k != AnalysisResults && k != DdlDmlOutput) ==> Lookup(r, k) == Lookup(m, k)
  {
    ReadStoredKeeps(m, sql, df);
  }

  /** The slots a successful read does not write keep their values. */
  lemma ReadStoredKeeps(m: Session, sql: string, df: DataFrame)
    ensures var r := ReadStored(m, sql, df);
            forall k :: (k != ExecutedSql && k != QueryDf && k != AnalysisResult && k != ShowAnalysis
                 && k != AnalysisResults && k != DdlDmlOutput) ==> Lookup(r, k) == Lookup(m, k)
  {
  }

  /** A read without rows keeps the previous result and log and only clears the
      DDL/DML output. */
  lemma EmptyRead(m: Session, sql: string, mutation: Result<string, string>, df: DataFrame)
    requires FlagReadable(m) && RouteOf(sql, Enabled(m)).Read? && df.IsEmpty()
    ensures AfterExecute(m, sql, mutation, Success(df)) == m[DdlDmlOutput := NoneValue]
  {
  }

  /** An execution error sets the DDL/DML output to `Error: ` and the message
      exactly when the flag is on and the statement is not a SELECT, which is
      exactly when the mutation executor raised; a failed read changes nothing. */
  lemma ExecutionError(m: Session, sql: string, e: string, mutation: Result<string, string>,
                       read: Result<DataFrame, string>)
    requires FlagReadable(m) && !RouteOf(sql, Enabled(m)).Rejected?
    requires RouteOf(sql, Enabled(m)).Mutation? ==> mutation == Failure(e)
    requires RouteOf(sql, Enabled(m)).Read? ==> read == Failure(e)
    ensures Enabled(m) && !IsSelect(sql) ==>
              AfterExecute(m, sql, mutation, read) == m[DdlDmlOutput := Str("Error: " + e)]
    ensures !(Enabled(m) && !IsSelect(sql)) ==> AfterExecute(m, sql, mutation, read) == m
  {
  }

  /** The dispatcher keeps the session invariants: a statement comes with its
      result, the result is a table, the log is a list, and a log entry needs a
      result. */
  lemma ExecuteKeepsInvariant(m: Session, sql: string, mutation: Result<string, string>,
                              read: Result<DataFrame, string>)
    requires FlagReadable(m) && SessionInvariant(m)
    ensures SessionInvariant(AfterExecute(m, sql, mutation, read))
  {
    var r := AfterExecute(m, sql, mutation, read);
    match RouteOf(sql, Enabled(m))
    case Rejected =>
    case Mutation =>
      if mutation.Failure? {
        assert Lookup(r, QueryDf) == Lookup(m, QueryDf);
        assert Lookup(r, ExecutedSql) == Lookup(m, ExecutedSql);
        assert Lookup(r, AnalysisResults) == Lookup(m, AnalysisResults);
      }
    case Read =>
      if read.Failure? || read.value.IsEmpty() {
        assert Lookup(r, QueryDf) == Lookup(m, QueryDf);
        assert Lookup(r, ExecutedSql) == Lookup(m, ExecutedSql);
        assert Lookup(r, AnalysisResults) == Lookup(m, AnalysisResults);
      }
  }

  /** At most one of a read result and a DDL/DML output is present. */
  predicate OutcomesExclusive(m: Session) {
    Lookup(m, QueryDf).NoneValue? || Lookup(m, DdlDmlOutput).NoneValue?
  }

  /** Every successful outcome, a mutation, a read with rows or a read without,
      leaves at most one of the two present. */
  lemma SuccessesAreExclusive(m: Session, sql: string, mutation: Result<string, string>,
                              read: Result<DataFrame, string>)
    requires FlagReadable(m)
    requires RouteOf(sql, Enabled(m)).Mutation? ==> mutation.Success?
    requires RouteOf(sql, Enabled(m)).Read? ==> read.Success?
    requires RouteOf(sql, Enabled(m)).Rejected? ==> OutcomesExclusive(m)
    ensures OutcomesExclusive(AfterExecute(m, sql, mutation, read))
  {
  }

  /** A failed mutation after a read keeps the read result and sets the error
      as the DDL/DML output, so both are present. */
  lemma FailedMutationKeepsResult(m: Session, sql: string, e: string, read: Result<DataFrame, string>)
    requires FlagReadable(m) && RouteOf(sql, Enabled(m)).Mutation?
    requires Lookup(m, QueryDf).Frame?
    ensures var r := AfterExecute(m, sql, Failure(e), read);
            Lookup(r, QueryDf) == Lookup(m, QueryDf)
            && Lookup(r, DdlDmlOutput) == Str("Error: " + e)
            && !OutcomesExclusive(r)
  {
  }

  /** The dispatcher stores nothing but tables as results. */
  lemma ExecuteStoresTables(m: Session, sql: string, mutation: Result<string, string>,
                            read: Result<DataFrame, string>)
    requires FlagReadable(m) && ResultIsTable(m)
    ensures ResultIsTable(AfterExecute(m, sql, mutation, read))
  {
    var r := AfterExecute(m, sql, mutation, read);
    match RouteOf(sql, Enabled(m))
    case Rejected =>
    case Mutation =>
      if mutation.Failure? {
        assert Lookup(r, QueryDf) == Lookup(m, QueryDf);
      }
    case Read =>
      if read.Failure? || read.value.IsEmpty() {
        assert Lookup(r, QueryDf) == Lookup(m, QueryDf);
      }
  }

  // ---- the analysis log ----

  /** `get_state("analysis_results") or []` gives a list: the slot holds a list
      or a false value (a data frame has no truth value, and any other true
      value has no `append`). */
  predicate LogAppendable(m: Session) {
    match Lookup(m, AnalysisResults)
    case Log(_) => true
    case Frame(_) => false
    case v => !Truthy(v)
  }

  /** The store after `_append_result(kind, content)`. */
  function Appended(m: Session, kind: string, content: string): Session
    requires LogAppendable(m)
  {
    if content == [] then m else m[AnalysisResults := Log(LogOf(m) + [Entry(kind, content)])]
  }

  /** An empty content changes nothing; otherwise exactly one entry is added at
      the end, the older entries stay as they were, and no other slot changes. */
  lemma AppendMeaning(m: Session, kind: string, content: string)
    requires LogAppendable(m)
    ensures content == [] ==> Appended(m, kind, content) == m
    ensures content != [] ==>
              var r := Appended(m, kind, content);
              LogOf(r) == LogOf(m) + [Entry(kind, content)]
              && |LogOf(r)| == |LogOf(m)| + 1
              && LogWellFormed(r) && LogAppendable(r)
              && forall k :: k != AnalysisResults ==> Lookup(r, k) == Lookup(m, k)
  {
  }

  /** The same kind twice gives two entries, in order. */
  lemma AppendTwice(m: Session, kind: string, first: string, second: string)
    requires LogAppendable(m) && first != [] && second != []
    ensures LogAppendable(Appended(m, kind, first))
    ensures LogOf(Appended(Appended(m, kind, first), kind, second))
            == LogOf(m) + [Entry(kind, first), Entry(kind, second)]
  {
    AppendMeaning(m, kind, first);
    var m1 := Appended(m, kind, first);
    AppendMeaning(m1, kind, second);
    assert LogOf(m) + [Entry(kind, first)] + [Entry(kind, second)]
        == LogOf(m) + [Entry(kind, first), Entry(kind, second)];
  }

  /** The three analysis requests. */
  datatype Request = Insights | SqlQueries | Visualizations

  /** The kind each request records. */
  function Label(request: Request): string {
    match request
    case Insights => "Insights"
    case SqlQueries => "Additional SQL Queries"
    case Visualizations => "Visualization Suggestions"
  }

  /** The text recorded when the model gives nothing. */
  function Placeholder(request: Request): (p: string)
    ensures p != []
  {
    match request
    case Insights => "No insights received from AI."
    case SqlQueries => "No SQL queries received from AI."
    case Visualizations => "No visualization suggestions received from AI."
  }

  /** `result if result else placeholder`: never empty; the answer when it has
      text, and the placeholder when it is `None` or empty. */
  function Content(request: Request, answer: Option<string>): (c: string)
    ensures c != []
    ensures answer.Some? && answer.value != [] ==> c == answer.value
    ensures answer.None? || answer.value == [] ==> c == Placeholder(request)
  {
    if answer.Some? && answer.value != [] then answer.value
    else Placeholder(request)
  }

  /** What the prompt of a `generate_*` request interpolates: the executed
      statement (the slot's value, rendered by the f-string) and the whole
      stored result, `df.to_string()`, with no row limit. The fixed instruction
      text of each request is not modelled. */
  datatype AnalysisPrompt = AnalysisPrompt(request: Request, sql: Value, rows: DataFrame)

  /** The prompt a request sends, when it gets as far as the call: the
      context exists and the stored result is a table. */
  function AnalysisPromptOf(m: Session, request: Request): (p: Option<AnalysisPrompt>)
    ensures p.Some? <==> HasContext(m) && Lookup(m, QueryDf).Frame?
    ensures p.Some? ==> p.value.request == request && p.value.sql == Lookup(m, ExecutedSql)
    ensures p.Some? ==> p.value.rows.columns == Lookup(m, QueryDf).df.columns
                        && p.value.rows.rows == Lookup(m, QueryDf).df.rows
  {
    if HasContext(m) && m[QueryDf].Frame? then
      Some(AnalysisPrompt(request, m[ExecutedSql], m[QueryDf].df))
    else None
  }

  /** The store after `generate_*` for `request`, given the model's reply.
      Without the context nothing happens; a stored result that is not a table
      makes `df.to_string()` raise before anything is written. */
  function AfterGenerate(m: Session, request: Request, reply: Reply): Session
    requires LogAppendable(m)
  {
    if !HasContext(m) then m
    else if !m[QueryDf].Frame? then m
    else Appended(m, Label(request), Content(request, AnalyzeDataReply(reply)))
  }

  /** With a stored table, a request adds exactly one entry: its label with the
      cleaned reply, or the placeholder when the reply is missing or blank. */
  lemma GenerateAppendsOne(m: Session, request: Request, reply: Reply)
    requires LogAppendable(m) && HasContext(m) && m[QueryDf].Frame?
    ensures var r := AfterGenerate(m, request, reply);
            LogOf(r) == LogOf(m) + [Entry(Label(request), Content(request, AnalyzeDataReply(reply)))]
            && forall k :: k != AnalysisResults ==> Lookup(r, k) == Lookup(m, k)
    ensures reply.Failure? || Strip(reply.value) == [] ==>
              Content(request, AnalyzeDataReply(reply)) == Placeholder(request)
    ensures reply.Success? && Strip(reply.value) != [] && NoBackslash(Strip(reply.value)) ==>
              Content(request, AnalyzeDataReply(reply)) == Strip(reply.value)
  {
    AppendMeaning(m, Label(request), Content(request, AnalyzeDataReply(reply)));
    if reply.Success? {
      AnalyzeDataValue(reply.value);
      if Strip(reply.value) != [] && NoBackslash(Strip(reply.value)) {
        assert Strip(reply.value) != [];
      }
    }
  }

  /** The context test looks only at the keys: after `init_state` it always
      passes, and with no stored result the request changes nothing. */
  lemma ContextWithoutResult(m: Session, request: Request, reply: Reply)
    requires LogAppendable(m) && HasContext(m) && Lookup(m, QueryDf) == NoneValue
    ensures AfterGenerate(m, request, reply) == m
  {
  }

  /** Requests keep the session invariants. */
  lemma GenerateKeepsInvariant(m: Session, request: Request, reply: Reply)
    requires SessionInvariant(m)
    ensures LogAppendable(m)
    ensures SessionInvariant(AfterGenerate(m, request, reply))
  {
    if HasContext(m) && m[QueryDf].Frame? {
      AppendMeaning(m, Label(request), Content(request, AnalyzeDataReply(reply)));
    }
  }

  // ---- the object ----

  /** What `handle_empty_query` shows. */
  datatype Notice = MetadataNotice(metadata: DataFrame) | NoMetadataNotice

  class QueryHandler {
    var state: StateManager

    constructor (state: StateManager)
      ensures this.state == state
    {
      this.state := state;
    }

    /** `execute_query`. `st.experimental_rerun` ends the action; it raises an
        exception the handler does not catch. */
    method ExecuteQuery(sql: string, db: OracleManager, driver: Driver)
      requires FlagReadable(state.slots)
      modifies state
      ensures state.slots == AfterExecute(old(state.slots), sql, db.ExecuteDdlDml(sql, driver),
                                          db.ExecuteQuery(sql, driver))
    {
      var enabled := Truthy(state.GetState(DdlDmlEnabled));
      if SanitizeInput(sql, enabled) {
        var isDdlDml := !IsSelect(sql);
        if isDdlDml && enabled {
          RunMutation(sql, db, driver);
        } else {
          RunRead(sql, db, driver);
        }
      }
    }

    /** The mutation branch of `execute_query`; the rerun after the writes ends
        the action. */
    method RunMutation(sql: string, db: OracleManager, driver: Driver)
      requires FlagReadable(state.slots)
      modifies state
      ensures state.slots == AfterMutation(old(state.slots), sql, db.ExecuteDdlDml(sql, driver))
    {
      match db.ExecuteDdlDml(sql, driver)
      case Success(output) =>
        state.UpdateState(DdlDmlOutput, Str(output));
        state.UpdateState(QueryDf, NoneValue);
        state.UpdateState(ExecutedSql, NoneValue);
        state.UpdateState(AnalysisResults, NoneValue);
      case Failure(e) =>
        RecordError(sql, e);
    }

    /** The read branch of `execute_query`; the rerun after the writes for a
        table with rows ends the action. */
    method RunRead(sql: string, db: OracleManager, driver: Driver)
      requires FlagReadable(state.slots)
      modifies state
      ensures state.slots == AfterRead(old(state.slots), sql, db.ExecuteQuery(sql, driver))
    {
      match db.ExecuteQuery(sql, driver)
      case Success(df) =>
        if !df.IsEmpty() {
          state.UpdateState(ExecutedSql, Str(sql));
          state.UpdateState(QueryDf, Frame(df));
          state.UpdateState(AnalysisResult, NoneValue);
          state.UpdateState(ShowAnalysis, Bool(false));
          state.UpdateState(AnalysisResults, NoneValue);
          state.UpdateState(DdlDmlOutput, NoneValue);
        } else {
          var _ := HandleEmptyQuery(sql, db, driver);
          state.UpdateState(DdlDmlOutput, NoneValue);
        }
      case Failure(e) =>
        RecordError(sql, e);
    }

    /** The `except` branch of `execute_query`. */
    method RecordError(sql: string, message: string)
      requires FlagReadable(state.slots)
      modifies state
      ensures state.slots == ErrorRecorded(old(state.slots), sql, message)
    {
      if Truthy(state.GetState(DdlDmlEnabled)) && !IsSelect(sql) {
        state.UpdateState(DdlDmlOutput, Str("Error: " + message));
      }
    }

    /** `handle_empty_query`: the table's column description when the name
        after `FROM` is found and the lookup succeeds, and a warning otherwise. */
    method HandleEmptyQuery(sql: string, db: OracleManager, driver: Driver) returns (notice: Notice)
      ensures notice.MetadataNotice? <==>
        TableNameOf(sql).Some? && db.conn.Some?
        && driver.columnsOf(db.conn.value, TableNameOf(sql).value).Success?
      ensures notice.MetadataNotice? ==>
        driver.columnsOf(db.conn.value, TableNameOf(sql).value) == Success(notice.metadata)
    {
      var metadata := db.GetTableMetadata(sql, driver);
      if metadata.Some? {
        notice := MetadataNotice(metadata.value);
      } else {
        notice := NoMetadataNotice;
      }
    }

    /** `_check_context`. */
    function CheckContext(): (ok: bool)
      reads this, state
      ensures ok <==> HasContext(state.slots)
    {
      ExecutedSql in state.slots && QueryDf in state.slots
    }

    /** `_append_result`: the existing list, or a new one, with the pair added
        at the end and stored back. */
    method AppendResult(kind: string, content: string)
      requires LogAppendable(state.slots)
      modifies state
      ensures state.slots == Appended(old(state.slots), kind, content)
    {
      if content != [] {
        var current := match state.GetState(AnalysisResults) case Log(entries) => entries case _ => [];
        state.UpdateState(AnalysisResults, Log(current + [Entry(kind, content)]));
      }
    }

    /** The common body of the three `generate_*` methods: `prompt` is what is
        sent to `analyze_data`, whose answer is `reply`. */
    method Generate(request: Request, reply: Reply) returns (prompt: Option<AnalysisPrompt>)
      requires LogAppendable(state.slots)
      modifies state
      ensures state.slots == AfterGenerate(old(state.slots), request, reply)
      ensures prompt == AnalysisPromptOf(old(state.slots), request)
    {
      prompt := None;
      if !CheckContext() {
        return;
      }
      var sql := state.GetState(ExecutedSql);
      var df := state.GetState(QueryDf);
      if !df.Frame? {
        return;
      }
      prompt := Some(AnalysisPrompt(request, sql, df.df));
      var result := AnalyzeDataReply(reply);
      AppendResult(Label(request), if result.Some? && result.value != [] then result.value else Placeholder(request));
    }

    /** `generate_insights`. */
    method GenerateInsights(reply: Reply) returns (prompt: Option<AnalysisPrompt>)
      requires LogAppendable(state.slots)
      modifies state
      ensures state.slots == AfterGenerate(old(state.slots), Insights, reply)
      ensures prompt == AnalysisPromptOf(old(state.slots), Insights)
    {
      prompt := Generate(Insights, reply);
    }

    /** `generate_sql_queries`. */
    method GenerateSqlQueries(reply: Reply) returns (prompt: Option<AnalysisPrompt>)
      requires LogAppendable(state.slots)
      modifies state
      ensures state.slots == AfterGenerate(old(state.slots), SqlQueries, reply)
      ensures prompt == AnalysisPromptOf(old(state.slots), SqlQueries)
    {
      prompt := Generate(SqlQueries, reply);
    }

    /** `generate_visualizations`. */
    method GenerateVisualizations(reply: Reply) returns (prompt: Option<AnalysisPrompt>)
      requires LogAppendable(state.slots)
      modifies state
      ensures state.slots == AfterGenerate(old(state.slots), Visualizations, reply)
      ensures prompt == AnalysisPromptOf(old(state.slots), Visualizations)
    {
      prompt := Generate(Visualizations, reply);
    }
  }
}
