/** `ChatAnalyzer`: the chat section under the query result. A question about
    the stored result is turned into a prompt holding the statement, at most
    the first 200 rows and the question; the model's cleaned answer is stored
    and shown until it is cleared. The model's reply is a parameter of the
    section's method; the fixed instruction text of the prompt is not
    modelled. */
module ChatAnalyzer {
  import opened Wrappers
  import opened PyStr
  import opened Frames
  import opened GroqHandler
  import opened StateManager

  /** `self.row_limit`. */
  const RowLimit: nat := 200

  /** What the prompt interpolates: the executed statement (the slot's value,
      rendered by the f-string), the rows it shows, and the question. */
  datatype ChatPrompt = ChatPrompt(sql: Value, rows: DataFrame, question: string)

  /** A prompt, and the row count the size warning reports when there is one. */
  datatype PromptResult = PromptResult(prompt: ChatPrompt, warning: Option<nat>)

  function Min(a: nat, b: nat): nat {
    if a < b then a else b
  }

  /** `create_chat_prompt`: the table is the first `min(n, 200)` rows, and the
      warning is given exactly when there are more than 200. */
  function CreateChatPrompt(sql: Value, df: DataFrame, question: string): (r: PromptResult)
    ensures r.prompt.sql == sql && r.prompt.question == question
    ensures r.prompt.rows.columns == df.columns
    ensures r.prompt.rows.rows == df.rows[..Min(df.Length(), RowLimit)]
    ensures r.prompt.rows == df.Head(RowLimit)
    ensures r.warning.Some? <==> df.Length() > RowLimit
    ensures r.warning.Some? ==> r.warning.value == df.Length()
    ensures df.Length() <= RowLimit ==> r.prompt.rows == df
  {
    var limited := if df.Length() > RowLimit then df.Head(RowLimit) else df;
    var warning := if df.Length() > RowLimit then Some(df.Length()) else None;
    assert df.rows[..|df.rows|] == df.rows;
    PromptResult(ChatPrompt(sql, limited, question), warning)
  }

  /** Two results that agree on their columns and first 200 rows give the same
      prompt: later rows never reach the model. */
  lemma PromptSeesFirstRows(sql: Value, a: DataFrame, b: DataFrame, question: string)
    requires a.columns == b.columns
    requires Min(a.Length(), RowLimit) == Min(b.Length(), RowLimit)
    requires a.rows[..Min(a.Length(), RowLimit)] == b.rows[..Min(b.Length(), RowLimit)]
    ensures CreateChatPrompt(sql, a, question).prompt == CreateChatPrompt(sql, b, question).prompt
  {
    var pa := CreateChatPrompt(sql, a, question).prompt;
    var pb := CreateChatPrompt(sql, b, question).prompt;
    assert pa.rows == DataFrame(a.columns, a.rows[..Min(a.Length(), RowLimit)]);
    assert pb.rows == DataFrame(b.columns, b.rows[..Min(b.Length(), RowLimit)]);
  }

  // ---- the response slots ----

  /** The slots the display reads have the types it needs: the flag has a
      truth value, and a set flag comes with a text (`.strip()` is called on
      it). */
  predicate ChatSlotsReadable(m: Session) {
    !Lookup(m, ChatHasResponse).Frame?
    && (Truthy(Lookup(m, ChatHasResponse)) ==> Lookup(m, ChatAiResponse).Str?)
  }

  /** The response is shown when the flag is set and the stripped response is
      not empty. */
  predicate ResponseVisible(m: Session)
    requires ChatSlotsReadable(m)
  {
    Truthy(Lookup(m, ChatHasResponse)) && Strip(Lookup(m, ChatAiResponse).s) != []
  }

  /** The question stored, and the model's answer with the flag when the answer
      has text. */
  function Answered(m: Session, question: string, reply: Reply): (r: Session)
    ensures ChatSlotsReadable(m) ==> ChatSlotsReadable(r)
  {
    var m1 := m[ChatUserQuestion := Str(question)];
    match AnalyzeDataReply(reply)
    case Some(text) =>
      if text != [] then m1[ChatAiResponse := Str(text)][ChatHasResponse := Bool(true)] else m1
    case None => m1
  }

  /** The "Clear response" button. */
  function Cleared(m: Session): Session {
    m[ChatHasResponse := Bool(false)][ChatAiResponse := Str("")]
  }

  /** A non-empty question was submitted. */
  predicate Asked(submitted: bool, question: string) {
    submitted && question != []
  }

  /** Asking about a stored value that is not a table stores the question and
      then raises (`len(df)`, `df.head` or `to_string` fails). */
  predicate AskRaises(m: Session, submitted: bool, question: string) {
    HasContext(m) && Asked(submitted, question) && !Lookup(m, QueryDf).Frame?
  }

  /** The store after one run of `show_chat_section`, given the form's state,
      the model's reply and whether the clear button was clicked. */
  function AfterChat(m: Session, submitted: bool, question: string, reply: Reply,
                     clearClicked: bool): Session
    requires ChatSlotsReadable(m)
  {
    if !HasContext(m) then m
    else if AskRaises(m, submitted, question) then m[ChatUserQuestion := Str(question)]
    else
      var m1 := if Asked(submitted, question) then Answered(m, question, reply) else m;
      if clearClicked && ResponseVisible(m1) then Cleared(m1) else m1
  }

  /** Without a submitted question (and without a click on clear) nothing
      changes. */
  lemma EmptyQuestionChangesNothing(m: Session, submitted: bool, question: string, reply: Reply)
    requires ChatSlotsReadable(m) && !Asked(submitted, question)
    ensures AfterChat(m, submitted, question, reply, false) == m
  {
  }

  /** A question about a table is always stored; an answer with text is stored
      with the flag set; otherwise the response slots keep their values. */
  lemma AskMeaning(m: Session, question: string, reply: Reply)
    requires ChatSlotsReadable(m) && HasContext(m) && Lookup(m, QueryDf).Frame? && question != []
    ensures var r := AfterChat(m, true, question, reply, false);
            var answer := AnalyzeDataReply(reply);
            Lookup(r, ChatUserQuestion) == Str(question)
            && (answer.Some? && answer.value != [] ==>
                  Lookup(r, ChatAiResponse) == Str(answer.value) && Lookup(r, ChatHasResponse) == Bool(true))
            && (answer.None? || answer.value == [] ==>
                  Lookup(r, ChatAiResponse) == Lookup(m, ChatAiResponse)
                  && Lookup(r, ChatHasResponse) == Lookup(m, ChatHasResponse))
  {
  }

  /** Clearing sets the flag to false and the response to the empty text, and
      touches nothing else; afterwards nothing is shown. */
  lemma ClearMeaning(m: Session)
    ensures var r := Cleared(m);
            Lookup(r, ChatHasResponse) == Bool(false) && Lookup(r, ChatAiResponse) == Str("")
            && (forall k :: k != ChatHasResponse && k != ChatAiResponse ==> Lookup(r, k) == Lookup(m, k))
            && ChatSlotsReadable(r) && !ResponseVisible(r)
  {
  }

  /** A visible response is exactly a set flag with a response that is not all
      whitespace. */
  lemma VisibleMeaning(m: Session)
    requires ChatSlotsReadable(m)
    ensures ResponseVisible(m) <==>
      Truthy(Lookup(m, ChatHasResponse)) && !AllSpace(Lookup(m, ChatAiResponse).s)
  {
    if Truthy(Lookup(m, ChatHasResponse)) {
      StripEmpty(Lookup(m, ChatAiResponse).s);
    }
  }

  /** Emptiness is tested on the stripped reply and visibility on the cleaned
      one: a backslash, a space and a backslash set the flag, yet nothing is
      shown. */
  lemma SpaceBetweenBackslashesIsHidden(m: Session)
    requires ChatSlotsReadable(m) && HasContext(m) && Lookup(m, QueryDf).Frame?
    ensures var r := AfterChat(m, true, "q", Success("\\ \\"), false);
            Lookup(r, ChatHasResponse) == Bool(true) && Lookup(r, ChatAiResponse) == Str(" ")
            && !ResponseVisible(r)
  {
    var raw := "\\ \\";
    assert !IsSpace(raw[0]) && !IsSpace(raw[2]);
    assert Strip(raw) == raw;
    assert CleanOutput(raw) == " " by {
      assert raw[1..] == " \\";
      assert CleanOutput(raw[1..][1..]) == [];
    }
    var r := AfterChat(m, true, "q", Success(raw), false);
    assert Lookup(r, ChatAiResponse) == Str(" ");
    assert IsSpace(' ');
    assert LeadingSpaces(" ") == 1;
  }

  /** The chat section leaves the query slots and the analysis log alone, so
      it keeps the session invariants. */
  lemma ChatKeepsInvariant(m: Session, submitted: bool, question: string, reply: Reply,
                           clearClicked: bool)
    requires ChatSlotsReadable(m) && SessionInvariant(m)
    ensures var r := AfterChat(m, submitted, question, reply, clearClicked);
            ChatSlotsReadable(r) && SessionInvariant(r)
            && Lookup(r, QueryDf) == Lookup(m, QueryDf) && Lookup(r, ExecutedSql) == Lookup(m, ExecutedSql)
            && Lookup(r, AnalysisResults) == Lookup(m, AnalysisResults)
  {
    var r := AfterChat(m, submitted, question, reply, clearClicked);
    assert Lookup(r, QueryDf) == Lookup(m, QueryDf);
    assert Lookup(r, ExecutedSql) == Lookup(m, ExecutedSql);
    assert Lookup(r, AnalysisResults) == Lookup(m, AnalysisResults);
  }

  // ---- the object ----

  class ChatAnalyzer {
    var state: StateManager

    constructor (state: StateManager)
      ensures this.state == state
    {
      this.state := state;
    }

    /** One run of `show_chat_section`: `submitted` and `question` are the
        form's button and text, `reply` the model's answer to the prompt the
        method returns, and `clearClicked` the clear button (shown only with a
        visible response). The rerun after clearing ends the action. */
    method ShowChatSection(submitted: bool, question: string, reply: Reply, clearClicked: bool)
      returns (prompt: Option<PromptResult>)
      requires ChatSlotsReadable(state.slots)
      modifies state
      ensures state.slots == AfterChat(old(state.slots), submitted, question, reply, clearClicked)
      ensures prompt.Some? <==>
        HasContext(old(state.slots)) && Asked(submitted, question) && Lookup(old(state.slots), QueryDf).Frame?
      ensures prompt.Some? ==>
        prompt.value == CreateChatPrompt(Lookup(old(state.slots), ExecutedSql),
                                         Lookup(old(state.slots), QueryDf).df, question)
    {
      prompt := None;
      if !(ExecutedSql in state.slots && QueryDf in state.slots) {
        return;
      }
      var sql := state.GetState(ExecutedSql);
      var df := state.GetState(QueryDf);
      if submitted && question != [] {
        state.UpdateState(ChatUserQuestion, Str(question));
        if !df.Frame? {
          return;
        }
        prompt := Some(CreateChatPrompt(sql, df.df, question));
        var response := AnalyzeDataReply(reply);
        if response.Some? && response.value != [] {
          state.UpdateState(ChatAiResponse, Str(response.value));
          state.UpdateState(ChatHasResponse, Bool(true));
        }
      }
      if clearClicked && ResponseVisible(state.slots) {
        state.UpdateState(ChatHasResponse, Bool(false));
        state.UpdateState(ChatAiResponse, Str(""));
      }
    }
  }
}
