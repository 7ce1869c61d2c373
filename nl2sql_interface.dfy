/** The state writes of the main page, `NL2SQLInterface.render`: the
    "Generate SQL" button stores the model's statement, the result section is
    shown only with a stored statement and table, and "Clear Analysis" empties
    the log. Layout and display are not modelled; the model's reply is a
    parameter. */
module Nl2SqlInterface {
  import opened Wrappers
  import opened PyStr
  import opened Frames
  import opened GroqHandler
  import opened StateManager
  import opened QueryHandler
  import opened ChatAnalyzer

  /** The guard of the result section, which holds the analysis buttons, the
      log and the chat: a statement and a result are stored. */
  predicate ResultsShown(m: Session) {
    !Lookup(m, QueryDf).NoneValue? && !Lookup(m, ExecutedSql).NoneValue?
  }

  /** Under the invariants the guard is just "a result is stored", and it
      implies the context test of the actions it shows. */
  lemma GuardMeaning(m: Session)
    requires SessionInvariant(m)
    ensures ResultsShown(m) <==> !Lookup(m, QueryDf).NoneValue?
    ensures ResultsShown(m) ==> HasContext(m)
  {
  }

  /** Under the guard each analysis button adds exactly one entry to the log. */
  lemma ShownButtonAddsOne(m: Session, request: Request, reply: Reply)
    requires SessionInvariant(m) && ResultsShown(m)
    ensures LogAppendable(m)
    ensures |LogOf(AfterGenerate(m, request, reply))| == |LogOf(m)| + 1
    ensures LogOf(AfterGenerate(m, request, reply))[..|LogOf(m)|] == LogOf(m)
  {
    GuardMeaning(m);
    GenerateKeepsInvariant(m, request, reply);
    GenerateAppendsOne(m, request, reply);
  }

  /** The analysis buttons and the chat section under the same result: the
      analysis prompt carries every row, the chat prompt only the first 200, so
      with a longer result the analysis sees rows the chat never sends. */
  lemma AnalysisSeesRowsChatDoesNot(m: Session, request: Request, question: string)
    requires HasContext(m) && Lookup(m, QueryDf).Frame?
    ensures var analysis := AnalysisPromptOf(m, request).value;
            var chat := CreateChatPrompt(Lookup(m, ExecutedSql), Lookup(m, QueryDf).df, question).prompt;
            analysis.sql == chat.sql && analysis.rows.columns == chat.rows.columns
            && chat.rows.rows == analysis.rows.rows[..Min(|analysis.rows.rows|, RowLimit)]
            && (Lookup(m, QueryDf).df.Length() > RowLimit ==>
                  |chat.rows.rows| == RowLimit < |analysis.rows.rows|
                  && analysis.rows.rows == chat.rows.rows + analysis.rows.rows[RowLimit..]
                  && analysis.rows.rows[RowLimit..] != [])
  {
  }

  /** The "Generate SQL" button: with a request, both the generated and the
      editable statement get the model's statement (`None` when the call
      failed). */
  function AfterGenerateSql(m: Session, request: string, reply: Reply): Session {
    if request == [] then m
    else
      var generated := FromOption(GenerateSqlReply(reply));
      m[GeneratedSql := generated][EditedSql := generated]
  }

  /** Both statement slots hold the same value: the cleaned reply, or `None`
      exactly when the call failed; no other slot changes. */
  lemma GenerateSqlMeaning(m: Session, request: string, reply: Reply)
    requires request != []
    ensures var r := AfterGenerateSql(m, request, reply);
            Lookup(r, GeneratedSql) == Lookup(r, EditedSql)
            && (Lookup(r, GeneratedSql) == NoneValue <==> reply.Failure?)
            && (reply.Success? ==> Lookup(r, GeneratedSql) == Str(CleanOutput(Strip(reply.value))))
            && forall k :: k != GeneratedSql && k != EditedSql ==> Lookup(r, k) == Lookup(m, k)
  {
    var r := AfterGenerateSql(m, request, reply);
    assert Lookup(r, GeneratedSql) == FromOption(GenerateSqlReply(reply));
  }

  /** Generating a statement does not touch the query slots or the log. */
  lemma GenerateSqlKeepsInvariant(m: Session, request: string, reply: Reply)
    requires SessionInvariant(m)
    ensures SessionInvariant(AfterGenerateSql(m, request, reply))
  {
    var r := AfterGenerateSql(m, request, reply);
    assert Lookup(r, QueryDf) == Lookup(m, QueryDf);
    assert Lookup(r, ExecutedSql) == Lookup(m, ExecutedSql);
    assert Lookup(r, AnalysisResults) == Lookup(m, AnalysisResults);
  }

  /** The "Clear Analysis" button. */
  function AfterClearAnalysis(m: Session): Session {
    m[AnalysisResults := NoneValue]
  }

  /** Clearing empties the log, keeps the invariants, and a later request
      starts a new log. */
  lemma ClearAnalysisMeaning(m: Session, request: Request, reply: Reply)
    requires SessionInvariant(m)
    ensures var r := AfterClearAnalysis(m);
            LogOf(r) == [] && SessionInvariant(r) && LogAppendable(r)
            && (HasContext(r) && r[QueryDf].Frame? ==>
                  LogOf(AfterGenerate(r, request, reply))
                  == [Entry(Label(request), Content(request, AnalyzeDataReply(reply)))])
  {
    var r := AfterClearAnalysis(m);
    if HasContext(r) && r[QueryDf].Frame? {
      GenerateAppendsOne(r, request, reply);
    }
  }

  class Nl2SqlInterface {
    var state: StateManager

    constructor (state: StateManager)
      ensures this.state == state
    {
      this.state := state;
    }

    /** The "Generate SQL" button, lines 18-23 of `render`. */
    method GenerateSql(request: string, reply: Reply)
      modifies state
      ensures state.slots == AfterGenerateSql(old(state.slots), request, reply)
    {
      if request != [] {
        var generated := GenerateSqlReply(reply);
        state.UpdateState(GeneratedSql, FromOption(generated));
        state.UpdateState(EditedSql, FromOption(generated));
      }
    }

    /** The "Clear Analysis" button; the rerun after it ends the action. */
    method ClearAnalysis()
      modifies state
      ensures state.slots == AfterClearAnalysis(old(state.slots))
    {
      state.UpdateState(AnalysisResults, NoneValue);
    }

    /** The guard of the result section. */
    function ResultSectionShown(): (shown: bool)
      reads this, state
      ensures shown <==> ResultsShown(state.slots)
    {
      state.GetState(QueryDf) != NoneValue && state.GetState(ExecutedSql) != NoneValue
    }
  }
}
