/** The session store `st.session_state` and its wrapper `StateManager`: a
    dictionary from slot names to values that persists between the reruns of
    the page. `init_state` fills in the slots that are missing, `get_state` reads
    a slot (`None` when it is missing) and `update_state` writes one. */
module StateManager {
  import opened Wrappers
  import opened Frames
  import OracleManager

  /** The service objects and classes the store holds; only their kind matters
      here. A `GroqHandler` records the model name it was built with. */
  datatype Component =
    | OracleManagerObject(dsn: string) | OracleManagerClass
    | GroqHandlerObject(model: Value) | GroqHandlerClass
    | SecurityManagerObject | HealthMonitorObject
    | DataVisualizerObject | DataVisualizerClass

  /** One `(result_type, result_content)` pair of the analysis log. */
  datatype Entry = Entry(kind: string, content: string)

  /** The values the slots hold. */
  datatype Value =
    | NoneValue
    | Bool(b: bool)
    | Str(s: string)
    | Frame(df: DataFrame)
    | Log(entries: seq<Entry>)
    | Object(component: Component)

  /** The slot names the core uses (`Name` gives each one's text); any other
      name, such as a widget key, is `OtherKey`. An `OtherKey` never carries the
      text of one of the named slots, so that every Python slot has exactly one
      key. */
  datatype Key =
    | Oracle | OracleClass | GeneratedSql | EditedSql | ExecutedSql | QueryDf
    | ChatUserQuestion | ChatAiResponse | ChatHasResponse
    | AnalysisResult | AnalysisResults | ShowAnalysis
    | QueryDfViz | VizSql | GroqClass | SelectedLlm | Groq
    | Security | Monitor | VisualizerClass | Visualizer
    | DdlDmlEnabled | DdlDmlOutput
    | OtherKey(name: string)

  function Name(k: Key): string {
    match k
    case Oracle => "oracle"
    case OracleClass => "oracle_class"
    case GeneratedSql => "generated_sql"
    case EditedSql => "edited_sql"
    case ExecutedSql => "executed_sql"
    case QueryDf => "query_df"
    case ChatUserQuestion => "chat_user_question"
    case ChatAiResponse => "chat_ai_response"
    case ChatHasResponse => "chat_has_response"
    case AnalysisResult => "analysis_result"
    case AnalysisResults => "analysis_results"
    case ShowAnalysis => "show_analysis"
    case QueryDfViz => "query_df_viz"
    case VizSql => "viz_sql"
    case GroqClass => "groq_class"
    case SelectedLlm => "selected_llm"
    case Groq => "groq"
    case Security => "security"
    case Monitor => "monitor"
    case VisualizerClass => "visualizer_class"
    case Visualizer => "visualizer"
    case DdlDmlEnabled => "ddl_dml_enabled"
    case DdlDmlOutput => "ddl_dml_output"
    case OtherKey(name) => name
  }

  type Session = map<Key, Value>

  const DefaultLlm := "qwen-2.5-coder-32b"

  /** The DSN of the database manager a new session gets: the defaults of
      `ORACLE_HOST`, `ORACLE_PORT` and `ORACLE_SERVICE`, joined in the form
      `host:port/service_name` that `connect` parses. (The source passes the
      three parts as separate arguments instead; see `InitStateAsWritten`.) */
  const DefaultDsn := "localhost:1521/orcl"

  /** `st.session_state.get(key)`. */
  function Lookup(m: Session, key: Key): (v: Value)
    ensures key !in m ==> v == NoneValue
    ensures key in m ==> v == m[key]
  {
    if key in m then m[key] else NoneValue
  }

  /** Python truth value. A data frame has none: pandas raises, and no slot
      whose truth is tested holds one. */
  predicate Truthy(v: Value)
    requires !v.Frame?
  {
    match v
    case NoneValue => false
    case Bool(b) => b
    case Str(s) => s != []
    case Log(entries) => entries != []
    case Object(_) => true
  }

  /** The text a slot holds, or `None`. */
  function FromOption(o: Option<string>): (v: Value)
    ensures o.None? <==> v == NoneValue
    ensures o.Some? ==> v == Str(o.value)
  {
    match o
    case None => NoneValue
    case Some(s) => Str(s)
  }

  // ---- init_state ----

  /** The value `init_state` writes into the missing slot `key`; `llm` is what
      the model-name slot holds at that moment. */
  function Default(key: Key, llm: Value): Value {
    match key
    case Oracle => Object(OracleManagerObject(DefaultDsn))
    case OracleClass => Object(OracleManagerClass)
    case ChatUserQuestion => Str("")
    case ChatAiResponse => Str("")
    case ChatHasResponse => Bool(false)
    case ShowAnalysis => Bool(false)
    case DdlDmlEnabled => Bool(false)
    case GroqClass => Object(GroqHandlerClass)
    case SelectedLlm => Str(DefaultLlm)
    case Groq => Object(GroqHandlerObject(llm))
    case Security => Object(SecurityManagerObject)
    case Monitor => Object(HealthMonitorObject)
    case VisualizerClass => Object(DataVisualizerClass)
    case Visualizer => Object(DataVisualizerObject)
    case _ => NoneValue
  }

  /** One block `if key not in st.session_state: st.session_state.key = ...`. */
  function SetDefaultIn(m: Session, key: Key): Session
  {
    if key in m then m else m[key := Default(key, Lookup(m, SelectedLlm))]
  }

  /** The store after the blocks for `keys`, in order. (The second component of
      the termination measure is not needed for termination; it keeps the
      verifier from unfolding the whole run when the key list is a constant.) */
  function Fill(m: Session, keys: seq<Key>): Session
    decreases |keys|, |m|
  {
    if keys == [] then m else Fill(SetDefaultIn(m, keys[0]), keys[1..])
  }

  const OracleKeys: seq<Key> := [Oracle, OracleClass]
  const QueryKeys: seq<Key> := [GeneratedSql, ExecutedSql, QueryDf]
  const ChatKeys: seq<Key> := [ChatUserQuestion, ChatAiResponse, ChatHasResponse]
  const AnalysisKeys: seq<Key> := [AnalysisResult, ShowAnalysis]
  const VisualizationKeys: seq<Key> := [QueryDfViz, VizSql]
  const HandlerKeys: seq<Key> := [GroqClass, SelectedLlm, Groq]
  const ServiceKeys: seq<Key> := [Security, Monitor, VisualizerClass]
  const DdlDmlKeys: seq<Key> := [DdlDmlEnabled, DdlDmlOutput]

  /** The blocks before the visualizer test, group by group in source order. */
  function Early(m: Session): Session {
    Fill(Fill(Fill(Fill(Fill(Fill(Fill(m, OracleKeys), QueryKeys), ChatKeys), AnalysisKeys),
      VisualizationKeys), HandlerKeys), ServiceKeys)
  }

  /** The slots those blocks create. */
  predicate InEarly(k: Key) {
    k in OracleKeys || k in QueryKeys || k in ChatKeys || k in AnalysisKeys
    || k in VisualizationKeys || k in HandlerKeys || k in ServiceKeys
  }

  /** The visualizer is created when it is missing, the oracle slot is present
      and the manager in it is connected. */
  function WithVisualizer(m: Session, connected: bool): Session {
    if Visualizer !in m && Oracle in m && connected then m[Visualizer := Object(DataVisualizerObject)] else m
  }

  /** The store after `init_state`. `connected` is the truth of
      `st.session_state.oracle.conn` for an oracle slot that already exists; a
      manager this call creates has no connection. */
  function Initialized(m: Session, connected: bool): Session {
    Fill(WithVisualizer(Early(m), Oracle in m && connected), DdlDmlKeys)
  }

  /** The slots `init_state` creates whatever the connection state. */
  const InitKeys: set<Key> := {
    Oracle, OracleClass, GeneratedSql, ExecutedSql, QueryDf,
    ChatUserQuestion, ChatAiResponse, ChatHasResponse, AnalysisResult, ShowAnalysis,
    QueryDfViz, VizSql, GroqClass, SelectedLlm, Groq, Security, Monitor,
    VisualizerClass, DdlDmlEnabled, DdlDmlOutput}

  /** The visualizer is due when it is missing and the oracle slot already held a
      connected manager. */
  predicate VisualizerDue(m: Session, connected: bool) {
    Visualizer !in m && Oracle in m && connected
  }

  /** The model name a handler created now is built with: the chosen one, or the
      default when none was chosen yet. */
  function ChosenLlm(m: Session): Value {
    if SelectedLlm in m then m[SelectedLlm] else Str(DefaultLlm)
  }

  // ---- facts about a run of blocks ----

  /** The blocks create exactly their own slots. */
  lemma {:induction false} FillKeys(m: Session, keys: seq<Key>, k: Key)
    ensures k in Fill(m, keys) <==> k in m || k in keys
    decreases |keys|
  {
    if keys != [] {
      FillKeys(SetDefaultIn(m, keys[0]), keys[1..], k);
      assert k in keys <==> k == keys[0] || k in keys[1..];
    }
  }

  /** The blocks never overwrite a slot. */
  lemma {:induction false} FillKeeps(m: Session, keys: seq<Key>, k: Key)
    requires k in m
    ensures k in Fill(m, keys) && Fill(m, keys)[k] == m[k]
    decreases |keys|
  {
    if keys != [] {
      FillKeeps(SetDefaultIn(m, keys[0]), keys[1..], k);
    }
  }

  /** Blocks whose slots all exist change nothing. */
  lemma {:induction false} FillPresent(m: Session, keys: seq<Key>)
    requires forall k :: k in keys ==> k in m
    ensures Fill(m, keys) == m
    decreases |keys|
  {
    if keys != [] {
      assert keys[0] in keys;
      FillPresent(m, keys[1..]);
    }
  }

  /** A slot other than the handler that a block creates gets its default. */
  lemma {:induction false} FillCreates(m: Session, keys: seq<Key>, k: Key)
    requires k !in m && k in keys && k != Groq
    ensures k in Fill(m, keys) && Fill(m, keys)[k] == Default(k, NoneValue)
    decreases |keys|
  {
    FillKeys(m, keys, k);
    var m1 := SetDefaultIn(m, keys[0]);
    if keys[0] == k {
      FillKeeps(m1, keys[1..], k);
    } else {
      assert k in keys[1..];
      FillCreates(m1, keys[1..], k);
    }
  }

  // ---- the session invariants the dispatcher keeps ----

  /** A stored query result comes with the statement that produced it. */
  predicate ResultConsistent(m: Session) {
    Lookup(m, ExecutedSql).NoneValue? <==> Lookup(m, QueryDf).NoneValue?
  }

  /** The analysis log holds nothing or a list. */
  predicate LogWellFormed(m: Session) {
    Lookup(m, AnalysisResults).NoneValue? || Lookup(m, AnalysisResults).Log?
  }

  /** The entries of the analysis log: `get_state("analysis_results") or []`. */
  function LogOf(m: Session): seq<Entry> {
    match Lookup(m, AnalysisResults)
    case Log(entries) => entries
    case _ => []
  }

  /** Analysis entries exist only about a stored result. */
  predicate LogNeedsResult(m: Session) {
    LogOf(m) != [] ==> !Lookup(m, QueryDf).NoneValue?
  }

  /** The stored result is nothing or a table. */
  predicate ResultIsTable(m: Session) {
    Lookup(m, QueryDf).NoneValue? || Lookup(m, QueryDf).Frame?
  }

  predicate SessionInvariant(m: Session) {
    ResultConsistent(m) && ResultIsTable(m) && LogWellFormed(m) && LogNeedsResult(m)
  }

  /** The query context the analysis and chat sections test for: both slots
      exist, whatever they hold. */
  predicate HasContext(m: Session) {
    ExecutedSql in m && QueryDf in m
  }

  // ---- the object ----

  class StateManager {
    /** `st.session_state`. */
    var slots: Session

    constructor (session: Session)
      ensures slots == session
    {
      slots := session;
    }

    /** `get_state`: the slot's value, `None` when it is missing. */
    function GetState(key: Key): (v: Value)
      reads this
      ensures key in slots ==> v == slots[key]
      ensures key !in slots ==> v == NoneValue
    {
      Lookup(slots, key)
    }

    /** `update_state`: this slot gets the value, every other slot keeps its own. */
    method UpdateState(key: Key, value: Value)
      modifies this
      ensures slots == old(slots)[key := value]
      ensures GetState(key) == value
    {
      slots := slots[key := value];
    }

    /** One block of `init_state`: the slot is written only when it is missing. */
    method SetDefault(key: Key)
      modifies this
      ensures slots == SetDefaultIn(old(slots), key)
    {
      if key !in slots {
        slots := slots[key := Default(key, GetState(SelectedLlm))];
      }
    }

    /** `init_state`: the blocks in source order, with the visualizer test
        between the visualizer class and the DDL/DML slots. */
    method InitState(connected: bool)
      modifies this
      ensures slots == Initialized(old(slots), connected)
    {
      ghost var m := slots;
      var oracleConnected := Oracle in slots && connected;
      InitOracle();
      InitQuerySlots();
      InitChatSlots();
      InitAnalysisSlots();
      InitVisualizationSlots();
      InitHandler();
      InitServices();
      if Visualizer !in slots && Oracle in slots {
        if oracleConnected {
          slots := slots[Visualizer := Object(DataVisualizerObject)];
        }
      }
      InitDdlDmlSlots();
    }

    /** The blocks for the database manager and its class. */
    method InitOracle()
      modifies this
      ensures slots == Fill(old(slots), OracleKeys)
    {
      TwoBlocks(slots, Oracle, OracleClass);
      SetDefault(Oracle);
      SetDefault(OracleClass);
    }

    /** The blocks for the statement and result slots. */
    method InitQuerySlots()
      modifies this
      ensures slots == Fill(old(slots), QueryKeys)
    {
      ThreeBlocks(slots, GeneratedSql, ExecutedSql, QueryDf);
      SetDefault(GeneratedSql);
      SetDefault(ExecutedSql);
      SetDefault(QueryDf);
    }

    /** The blocks for the chat slots. */
    method InitChatSlots()
      modifies this
      ensures slots == Fill(old(slots), ChatKeys)
    {
      ThreeBlocks(slots, ChatUserQuestion, ChatAiResponse, ChatHasResponse);
      SetDefault(ChatUserQuestion);
      SetDefault(ChatAiResponse);
      SetDefault(ChatHasResponse);
    }

    /** The blocks for the single-analysis slots. */
    method InitAnalysisSlots()
      modifies this
      ensures slots == Fill(old(slots), AnalysisKeys)
    {
      TwoBlocks(slots, AnalysisResult, ShowAnalysis);
      SetDefault(AnalysisResult);
      SetDefault(ShowAnalysis);
    }

    /** The blocks for the visualization slots. */
    method InitVisualizationSlots()
      modifies this
      ensures slots == Fill(old(slots), VisualizationKeys)
    {
      TwoBlocks(slots, QueryDfViz, VizSql);
      SetDefault(QueryDfViz);
      SetDefault(VizSql);
    }

    /** The blocks for the language-model handler class, the model name and the
        handler, built with the model name stored at that point. */
    method InitHandler()
      modifies this
      ensures slots == Fill(old(slots), HandlerKeys)
    {
      ThreeBlocks(slots, GroqClass, SelectedLlm, Groq);
      SetDefault(GroqClass);
      SetDefault(SelectedLlm);
      SetDefault(Groq);
    }

    /** The blocks for the security manager, the health monitor and the
        visualizer class. */
    method InitServices()
      modifies this
      ensures slots == Fill(old(slots), ServiceKeys)
    {
      ThreeBlocks(slots, Security, Monitor, VisualizerClass);
      SetDefault(Security);
      SetDefault(Monitor);
      SetDefault(VisualizerClass);
    }

    /** The blocks for the DDL/DML flag and output. */
    method InitDdlDmlSlots()
      modifies this
      ensures slots == Fill(old(slots), DdlDmlKeys)
    {
      TwoBlocks(slots, DdlDmlEnabled, DdlDmlOutput);
      SetDefault(DdlDmlEnabled);
      SetDefault(DdlDmlOutput);
    }
  }

  // ---- properties of init_state ----

  /** `update_state(k, v)` followed by `get_state`: the slot reads `v` and
      every other slot reads as before. */
  lemma UpdateOnlyThatSlot(m: Session, key: Key, value: Value)
    ensures Lookup(m[key := value], key) == value
    ensures forall k :: k != key ==> Lookup(m[key := value], k) == Lookup(m, k)
  {
  }

  /** What a group of blocks does to one slot. */
  lemma FillSlot(m: Session, keys: seq<Key>, k: Key)
    ensures k in Fill(m, keys) <==> k in m || k in keys
    ensures k in m ==> Fill(m, keys)[k] == m[k]
    ensures k !in m && k in keys && k != Groq ==> Fill(m, keys)[k] == Default(k, NoneValue)
  {
    FillKeys(m, keys, k);
    if k in m {
      FillKeeps(m, keys, k);
    } else if k in keys && k != Groq {
      FillCreates(m, keys, k);
    }
  }

  /** What the blocks before the visualizer test do to one slot. */
  lemma EarlySlot(m: Session, k: Key)
    ensures k in Early(m) <==> k in m || InEarly(k)
    ensures k in m ==> Early(m)[k] == m[k]
    ensures k !in m && InEarly(k) && k != Groq ==> Early(m)[k] == Default(k, NoneValue)
  {
    var m1 := Fill(m, OracleKeys);
    var m2 := Fill(m1, QueryKeys);
    var m3 := Fill(m2, ChatKeys);
    var m4 := Fill(m3, AnalysisKeys);
    var m5 := Fill(m4, VisualizationKeys);
    var m6 := Fill(m5, HandlerKeys);
    FillSlot(m, OracleKeys, k);
    FillSlot(m1, QueryKeys, k);
    FillSlot(m2, ChatKeys, k);
    FillSlot(m3, AnalysisKeys, k);
    FillSlot(m4, VisualizationKeys, k);
    FillSlot(m5, HandlerKeys, k);
    FillSlot(m6, ServiceKeys, k);
  }

  /** The slots `init_state` always creates are those of its blocks. */
  lemma InitKeysAreBlocks(k: Key)
    ensures k in InitKeys <==> InEarly(k) || k in DdlDmlKeys
    ensures !InEarly(Visualizer) && Visualizer !in DdlDmlKeys
    ensures InEarly(Oracle)
  {
  }

  /** What `init_state` does to one slot. */
  lemma InitSlot(m: Session, connected: bool, k: Key)
    ensures k in Initialized(m, connected) <==>
      k in m || k in InitKeys || (k == Visualizer && VisualizerDue(m, connected))
    ensures k in m ==> Initialized(m, connected)[k] == m[k]
    ensures k !in m && k in InitKeys && k != Groq ==> Initialized(m, connected)[k] == Default(k, NoneValue)
    ensures k == Visualizer && VisualizerDue(m, connected) ==>
              Initialized(m, connected)[k] == Default(Visualizer, NoneValue)
  {
    InitKeysAreBlocks(k);
    EarlySlot(m, k);
    EarlySlot(m, Visualizer);
    EarlySlot(m, Oracle);
    var v := WithVisualizer(Early(m), Oracle in m && connected);
    FillSlot(v, DdlDmlKeys, k);
  }

  /** `init_state` never overwrites: every existing slot keeps its value. */
  lemma InitKeepsExisting(m: Session, connected: bool, key: Key)
    requires key in m
    ensures key in Initialized(m, connected) && Initialized(m, connected)[key] == m[key]
  {
    InitSlot(m, connected, key);
  }

  /** The slots after `init_state` are the old ones, the twenty it always
      creates, and the visualizer exactly when it is due. */
  lemma InitSlots(m: Session, connected: bool, key: Key)
    ensures key in Initialized(m, connected) <==>
      key in m || key in InitKeys || (key == Visualizer && VisualizerDue(m, connected))
  {
    InitSlot(m, connected, key);
  }

  /** Only the singular `analysis_result` is created; the analysis log slot
      `analysis_results` is present after `init_state` only if it was before. */
  lemma InitLeavesLogAlone(m: Session, connected: bool)
    ensures AnalysisResults in Initialized(m, connected) <==> AnalysisResults in m
    ensures Lookup(Initialized(m, connected), AnalysisResults) == Lookup(m, AnalysisResults)
  {
    assert AnalysisResults !in InitKeys;
    InitSlot(m, connected, AnalysisResults);
  }

  /** A slot `init_state` creates, other than the handler and the visualizer,
      gets its default. */
  lemma InitCreates(m: Session, connected: bool, key: Key)
    requires key !in m && key in InitKeys && key != Groq
    ensures key in Initialized(m, connected) && Initialized(m, connected)[key] == Default(key, NoneValue)
  {
    InitSlot(m, connected, key);
  }

  /** A handler `init_state` creates is built with the model name chosen before,
      or with the default model when none was chosen. */
  lemma InitHandlerModel(m: Session, connected: bool)
    requires Groq !in m
    ensures Groq in Initialized(m, connected)
    ensures Initialized(m, connected)[Groq] == Object(GroqHandlerObject(ChosenLlm(m)))
  {
    EarlyHandler(m);
    var v := WithVisualizer(Early(m), Oracle in m && connected);
    FillKeeps(v, DdlDmlKeys, Groq);
  }

  /** The blocks before the handler leave the handler and the model name alone. */
  lemma EarlyHandler(m: Session)
    requires Groq !in m
    ensures Groq in Early(m) && Early(m)[Groq] == Object(GroqHandlerObject(ChosenLlm(m)))
  {
    var m1 := Fill(m, OracleKeys);
    var m2 := Fill(m1, QueryKeys);
    var m3 := Fill(m2, ChatKeys);
    var m4 := Fill(m3, AnalysisKeys);
    var p := Fill(m4, VisualizationKeys);
    assert SelectedLlm !in OracleKeys && SelectedLlm !in QueryKeys && SelectedLlm !in ChatKeys;
    assert SelectedLlm !in AnalysisKeys && SelectedLlm !in VisualizationKeys;
    assert Groq !in OracleKeys && Groq !in QueryKeys && Groq !in ChatKeys;
    assert Groq !in AnalysisKeys && Groq !in VisualizationKeys;
    FillSlot(m, OracleKeys, SelectedLlm);
    FillSlot(m1, QueryKeys, SelectedLlm);
    FillSlot(m2, ChatKeys, SelectedLlm);
    FillSlot(m3, AnalysisKeys, SelectedLlm);
    FillSlot(m4, VisualizationKeys, SelectedLlm);
    assert ChosenLlm(p) == ChosenLlm(m);
    FillSlot(m, OracleKeys, Groq);
    FillSlot(m1, QueryKeys, Groq);
    FillSlot(m2, ChatKeys, Groq);
    FillSlot(m3, AnalysisKeys, Groq);
    FillSlot(m4, VisualizationKeys, Groq);
    HandlerBlocks(p);
    ThreeBlocks(p, GroqClass, SelectedLlm, Groq);
    FillKeeps(Fill(p, HandlerKeys), ServiceKeys, Groq);
  }

  /** The handler blocks build the handler with the stored or the default model. */
  lemma HandlerBlocks(p: Session)
    requires Groq !in p
    ensures var r := SetDefaultIn(SetDefaultIn(SetDefaultIn(p, GroqClass), SelectedLlm), Groq);
      Groq in r && r[Groq] == Object(GroqHandlerObject(ChosenLlm(p)))
  {
    var p2 := SetDefaultIn(SetDefaultIn(p, GroqClass), SelectedLlm);
    assert Lookup(p2, SelectedLlm) == ChosenLlm(p);
  }

  lemma TwoBlocks(p: Session, a: Key, b: Key)
    ensures Fill(p, [a, b]) == SetDefaultIn(SetDefaultIn(p, a), b)
  {
    assert [a, b][1..] == [b];
    assert [b][1..] == [];
    assert Fill(p, [a, b]) == Fill(SetDefaultIn(p, a), [b]);
  }

  lemma ThreeBlocks(p: Session, a: Key, b: Key, c: Key)
    ensures Fill(p, [a, b, c]) == SetDefaultIn(SetDefaultIn(SetDefaultIn(p, a), b), c)
  {
    assert [a, b, c][1..] == [b, c];
    assert Fill(p, [a, b, c]) == Fill(SetDefaultIn(p, a), [b, c]);
    TwoBlocks(SetDefaultIn(p, a), b, c);
  }

  /** The visualizer is created only for an existing, connected database manager. */
  lemma InitCreatesVisualizer(m: Session, connected: bool)
    requires Visualizer !in m
    ensures Visualizer in Initialized(m, connected) <==> Oracle in m && connected
    ensures Visualizer in Initialized(m, connected) ==>
              Initialized(m, connected)[Visualizer] == Object(DataVisualizerObject)
  {
    assert Visualizer !in InitKeys;
    InitSlot(m, connected, Visualizer);
  }

  /** Running `init_state` again, on the next rerun, changes nothing. A database
      manager the first call created has no connection, hence the second flag. */
  lemma InitIdempotent(m: Session, connected: bool)
    ensures Initialized(Initialized(m, connected), connected && Oracle in m)
         == Initialized(m, connected)
  {
    var r := Initialized(m, connected);
    forall k | InEarly(k) || k in DdlDmlKeys ensures k in r {
      InitSlot(m, connected, k);
      InitKeysAreBlocks(k);
    }
    FillPresent(r, OracleKeys);
    FillPresent(r, QueryKeys);
    FillPresent(r, ChatKeys);
    FillPresent(r, AnalysisKeys);
    FillPresent(r, VisualizationKeys);
    FillPresent(r, HandlerKeys);
    FillPresent(r, ServiceKeys);
    assert Early(r) == r;
    InitSlot(m, connected, Visualizer);
    InitSlot(m, connected, Oracle);
    InitKeysAreBlocks(Oracle);
    assert WithVisualizer(r, Oracle in r && connected && Oracle in m) == r;
    FillPresent(r, DdlDmlKeys);
  }

  /** The slots whose presence the analysis actions test always exist after
      `init_state`. */
  lemma InitCreatesContext(m: Session, connected: bool)
    ensures HasContext(Initialized(m, connected))
  {
    InitSlots(m, connected, ExecutedSql);
    InitSlots(m, connected, QueryDf);
  }

  /** Reading a slot that `init_state` fills with `None` gives what it gave before. */
  lemma InitLookupNone(m: Session, connected: bool, key: Key)
    requires key != Groq && key != Visualizer && Default(key, NoneValue) == NoneValue
    ensures Lookup(Initialized(m, connected), key) == Lookup(m, key)
  {
    InitSlots(m, connected, key);
    if key in m {
      InitKeepsExisting(m, connected, key);
    } else if key in InitKeys {
      InitCreates(m, connected, key);
    }
  }

  /** The invariants depend only on the statement, the result and the log. */
  lemma InvariantFromSlots(m: Session, r: Session)
    requires SessionInvariant(m)
    requires Lookup(r, ExecutedSql) == Lookup(m, ExecutedSql)
    requires Lookup(r, QueryDf) == Lookup(m, QueryDf)
    requires Lookup(r, AnalysisResults) == Lookup(m, AnalysisResults)
    ensures SessionInvariant(r)
  {
    assert LogOf(r) == LogOf(m);
  }

  /** `init_state` keeps the session invariants: the result slots it may create
      hold `None`, which is what reading a missing slot gives. */
  lemma InitKeepsInvariant(m: Session, connected: bool)
    requires SessionInvariant(m)
    ensures SessionInvariant(Initialized(m, connected))
  {
    InitResultSlots(m, connected);
    InvariantFromSlots(m, Initialized(m, connected));
  }

  /** `init_state` leaves the statement, the result and the log as they read. */
  lemma InitResultSlots(m: Session, connected: bool)
    ensures var r := Initialized(m, connected);
      && Lookup(r, ExecutedSql) == Lookup(m, ExecutedSql)
      && Lookup(r, QueryDf) == Lookup(m, QueryDf)
      && Lookup(r, AnalysisResults) == Lookup(m, AnalysisResults)
  {
    InitLookupNone(m, connected, ExecutedSql);
    InitLookupNone(m, connected, QueryDf);
    InitLookupNone(m, connected, AnalysisResults);
  }

  /** A new session satisfies the invariants, and its analysis log, result and
      statement are all `None`. */
  lemma NewSessionInvariant(connected: bool)
    ensures SessionInvariant(Initialized(map[], connected))
    ensures Lookup(Initialized(map[], connected), ExecutedSql) == NoneValue
    ensures Lookup(Initialized(map[], connected), QueryDf) == NoneValue
    ensures Lookup(Initialized(map[], connected), AnalysisResults) == NoneValue
  {
    var m: Session := map[];
    assert SessionInvariant(m);
    InitKeepsInvariant(m, connected);
    InitResultSlots(m, connected);
  }

  /** A new session, or any session lacking these slots: the default model, a
      handler built with it, no visualizer, no chat answer and DDL/DML disabled. */
  lemma NewSessionDefaults(m: Session, connected: bool)
    requires SelectedLlm !in m && Groq !in m && Oracle !in m && Visualizer !in m
    requires ChatHasResponse !in m && DdlDmlEnabled !in m
    ensures var r := Initialized(m, connected);
      && SelectedLlm in r && r[SelectedLlm] == Str(DefaultLlm)
      && Groq in r && r[Groq] == Object(GroqHandlerObject(Str(DefaultLlm)))
      && Visualizer !in r
      && ChatHasResponse in r && r[ChatHasResponse] == Bool(false)
      && DdlDmlEnabled in r && r[DdlDmlEnabled] == Bool(false)
  {
    NewSessionModel(m, connected);
    NewSessionFlags(m, connected);
    InitCreatesVisualizer(m, connected);
  }

  /** The model name and the handler of a new session. */
  lemma NewSessionModel(m: Session, connected: bool)
    requires SelectedLlm !in m && Groq !in m
    ensures var r := Initialized(m, connected);
      && SelectedLlm in r && r[SelectedLlm] == Str(DefaultLlm)
      && Groq in r && r[Groq] == Object(GroqHandlerObject(Str(DefaultLlm)))
  {
    InitCreates(m, connected, SelectedLlm);
    InitHandlerModel(m, connected);
  }

  /** The two flags of a new session. */
  lemma NewSessionFlags(m: Session, connected: bool)
    requires ChatHasResponse !in m && DdlDmlEnabled !in m
    ensures var r := Initialized(m, connected);
      && ChatHasResponse in r && r[ChatHasResponse] == Bool(false)
      && DdlDmlEnabled in r && r[DdlDmlEnabled] == Bool(false)
  {
    InitCreates(m, connected, ChatHasResponse);
    InitCreates(m, connected, DdlDmlEnabled);
  }

  // ---- the constructor call of the first block ----

  /** `init_state` as written: on a session without a database manager the
      first block calls `OracleManager(host, port, service)`, but the
      constructor takes a single DSN, so Python raises `TypeError` before any
      slot is written and the page never gets past its first line. */
  function InitStateAsWritten(m: Session, connected: bool): Option<Session> {
    if Oracle !in m then None else Some(Initialized(m, connected))
  }

  /** A new session, and every session without the manager, fails. */
  lemma NewSessionInitRaises(connected: bool)
    ensures InitStateAsWritten(map[], connected) == None
    ensures forall m: Session :: Oracle !in m ==> InitStateAsWritten(m, connected) == None
  {
  }

  /** With the DSN built from the three defaults, a new session gets a manager
      whose DSN `connect` can parse into those defaults. */
  lemma NewSessionManagerParses(m: Session, connected: bool)
    requires Oracle !in m
    ensures Oracle in Initialized(m, connected)
    ensures Initialized(m, connected)[Oracle] == Object(OracleManagerObject(DefaultDsn))
    ensures OracleManager.ParseDsn(DefaultDsn) == Some(OracleManager.Dsn("localhost", 1521, "orcl"))
  {
    assert Oracle in InitKeys;
    InitCreates(m, connected, Oracle);
    OracleManager.DefaultDsnParses();
  }
}
