# DataQuest query pipeline, modelled in Dafny

DataQuest is a Streamlit application that lets a user talk to an Oracle
database in natural language. A language model (through the Groq API) turns a
request into SQL. The user edits and executes the statement, and the
application keeps the outcome in the Streamlit session store, so that the
result grid, the analysis log and the chat redraw consistently on every rerun
of the page.

This project models the core of that pipeline:

- **The session store.** `StateManager` with `init_state`, `get_state` and `update_state`.
- **The policy gate.** `SecurityManager.sanitize_input`.
- **The database manager.** `OracleManager`: DSN parsing, `connect`, the two executors with their messages, the metadata fallback and `close`.
- **The reply post-processing of the language-model client.** `GroqHandler._clean_output`, `generate_sql` and `analyze_data`.
- **The dispatcher.** `QueryHandler.execute_query`, with the analysis log it maintains.
- **The chat section.** `ChatAnalyzer`.
- **Two state writes of the main page.** The "Generate SQL" and "Clear Analysis" buttons and the result-section guard of `NL2SQLInterface.render`.

Every class whose fields the application updates in place is a Dafny `class`:

- The session store is `StateManager.StateManager`. Its field `slots` is a map from slot names (the `Key` datatype) to values.
- `OracleManager.OracleManager` keeps `dsn` and `conn`.
- `QueryHandler.QueryHandler`, `ChatAnalyzer.ChatAnalyzer` and `Nl2SqlInterface.Nl2SqlInterface` hold the store they write to.

Each state-changing method is proved equal to a specification function of the old store (`Initialized`, `AfterExecute`, `AfterGenerate`, `AfterChat`, …). The properties the application relies on are lemmas about those functions. They cover:

- which slots each outcome writes;
- that nothing else changes;
- the session invariants that are kept;
- idempotence of `init_state`.

Python behaviour the modules depend on is written out in `PyStr`:

- `str.isspace`, `upper`, `strip`, `rstrip(";")`;
- `startswith`, `split(sep)`, `split()`;
- `int()` and integer formatting.

`Frames` holds the part of a pandas `DataFrame` the code uses: `empty`, `len` and `head`.

The outside world enters as parameters:

- **The Oracle driver** is a `Driver` value. Its functions give what each driver call returns or the error it raises.
- **The language model's reply** is a `Reply`: `Success(text)` or `Failure(message)`.
- **Widget values** are parameters: the form's question, whether a button was clicked, and the DDL/DML checkbox through the store.
- **The connection state** seen by `init_state` is a parameter.

`st.experimental_rerun` raises an exception that the handlers do not catch, so it ends the action. Every write before it is kept.

## Model

| member | source | states |
|---|---|---|
| Security.IsSelect | app/security.py:11-16 | The SELECT test `sql.upper().strip().startswith("SELECT")`, also used for routing at app/query_handler.py:12-13; its meaning is stated in `Security.GateWhenDisabled` |
| Security.SanitizeInput | app/security.py:6-30 | `sanitize_input` given the flag: the SELECT test when DDL/DML is off, and no forbidden pattern when it is on; both directions are stated in `Security.GateWhenDisabled` and `Security.GateWhenEnabled` |
| Security.GateWhenDisabled | app/security.py:11-18 | With DDL/DML disabled, a statement passes exactly when its first six characters after the leading whitespace are SELECT in any case; the forbidden patterns play no part |
| Security.GateWhenEnabled | app/security.py:19-30 | With DDL/DML enabled, a statement is rejected exactly when, anywhere and ignoring case, it holds `;` then optional whitespace then `--`, or `EXEC` and a whitespace character, or `XP_`; no keyword is checked |
| Security.MatchesAtMeaning | app/security.py:21-26 | Each regular expression matches at a position exactly when the reference definition of its pattern holds there |
| Security.SearchFindsPosition | app/security.py:26 | `re.search` succeeds exactly when the pattern matches at some position |
| Security.LowerCaseSelectPasses | app/security.py:11-16 | Upper-casing before the test: `select …` passes with DDL/DML disabled |
| Security.DropRejectedWhenDisabled | app/security.py:14-18 | With DDL/DML disabled, `DROP …` is refused |
| Security.PatternsCheckedWhenEnabled | app/security.py:22-28 | With DDL/DML enabled, any statement holding `;`, whitespace and `--` is refused, whatever its keyword |
| GroqHandler.CleanOutput | app/groq_handler.py:125-127 | `_clean_output`, `replace("\\", "")`; what it removes and keeps is stated in the four lemmas below |
| GroqHandler.CleanRemovesBackslashes | app/groq_handler.py:125-127 | `_clean_output` leaves no backslash and removes exactly the backslashes |
| GroqHandler.CleanConcat | app/groq_handler.py:125-127 | Cleaning works piece by piece, so the other characters keep their order |
| GroqHandler.CleanUnchanged | app/groq_handler.py:125-127 | A text is left unchanged exactly when it has no backslash |
| GroqHandler.CleanIdempotent | app/groq_handler.py:125-127 | Cleaning twice equals cleaning once |
| GroqHandler.GenerateSqlReply | app/groq_handler.py:73-91 | `generate_sql` gives `None` exactly when the client raised, and otherwise the stripped reply with its backslashes removed, with no emptiness test |
| GroqHandler.AnalyzeDataReply | app/groq_handler.py:94-123 | `analyze_data` gives `None` exactly when the client raised or the stripped reply is empty, and otherwise a backslash-free text with the stripped reply's length minus its backslashes |
| GroqHandler.AnalyzeDataValue | app/groq_handler.py:109-119 | A non-empty stripped reply gives its cleaned form, which is the stripped reply itself when it has no backslash |
| GroqHandler.BackslashReplyGivesEmptyText | app/groq_handler.py:112-116 | Emptiness is tested before cleaning: a reply of two backslashes gives the empty text, not `None` |
| GroqHandler.BlankSqlReplyGivesEmptyText | app/groq_handler.py:84-87 | A blank reply gives `""` from `generate_sql` and `None` from `analyze_data` |
| OracleManager.DsnParts | app/oracle_manager.py:14-15 | The two unpacking splits of `connect`, `None` where an unpacking raises; the round trip is stated in `OracleManager.DsnPartsJoin` and `OracleManager.DsnPartsSplit` |
| OracleManager.ParseDsn | app/oracle_manager.py:14-23 | The split followed by `int(port)`, `None` on the `ValueError`s caught at lines 32-35; stated in `OracleManager.ParseFormatDsn` |
| OracleManager.DsnPartsJoin | app/oracle_manager.py:14-15 | The host, the port text and the service name split from a DSN join back into it; the host has no `:` and the port text no `/` |
| OracleManager.DsnPartsSplit | app/oracle_manager.py:14-15 | A host without `:` and a port text without `/` are found again, however many separators the service name holds |
| OracleManager.ParseFormatDsn | app/oracle_manager.py:14-23 | A DSN written from a host without `:`, an integer port and a service name parses back into those parts |
| OracleManager.DefaultDsnParses | app/oracle_manager.py:14-23 | `localhost:1521/orcl` parses into host, port 1521 and service |
| OracleManager.DsnWithoutPortFails | app/oracle_manager.py:14-35 | A DSN without `:` is refused |
| OracleManager.OracleManager.constructor | app/oracle_manager.py:6-8 | A new manager keeps its DSN and has no connection |
| OracleManager.OracleManager.Connect | app/oracle_manager.py:10-38 | `connect` succeeds exactly when the DSN parses and the driver connects; the connection is stored on success; every failure returns false and leaves the connection unchanged |
| OracleManager.ErrorMessage | app/oracle_manager.py:62-66 | A database error message starts with `Oracle Execution Error: ORA-`; any other error is prefixed with `General Execution Error: ` |
| OracleManager.SuccessMessage | app/oracle_manager.py:84 | The success text with the row count; `OracleManager.SuccessMessageRoundTrip` and `OracleManager.SuccessIsNotError` state its meaning |
| OracleManager.SuccessMessageRoundTrip | app/oracle_manager.py:84 | The row count can be read back from the success message |
| OracleManager.SuccessIsNotError | app/oracle_manager.py:84-90 | A success message never equals an error message |
| OracleManager.OracleManager.ExecuteQuery | app/oracle_manager.py:40-66 | Without a connection, the result is the wrapped no-connection error. Otherwise the driver runs the statement with its trailing semicolons removed: a driver error becomes its message, and a cursor without a description gives the empty table. Every failure message starts with `General Execution Error: ` or `Oracle Execution Error: ORA-`, and the one without a connection is `General Execution Error: No active connection to the database.` |
| OracleManager.OracleManager.ExecuteDdlDml | app/oracle_manager.py:68-90 | The same for a mutation, with the same failure prefixes; a success message starts with `DDL/DML executed successfully. Rows affected: ` and the driver's row count reads back from it |
| OracleManager.StrippedStatement | app/oracle_manager.py:50-78 | The statement sent to the driver ends in no `;`, and only semicolons were removed |
| OracleManager.TableNameOf | app/oracle_manager.py:120 | A table name, when there is one, is non-empty and has no whitespace |
| OracleManager.TableNameMeaning | app/oracle_manager.py:120-136 | A name exists exactly when FROM occurs and the text up to the next FROM is not all whitespace; the name is that text's first word |
| OracleManager.TableNameAfterFrom | app/oracle_manager.py:120 | A word after `FROM` and whitespace is the table name whenever the text before it and the word itself contain no `FROM`, so `SELECT FIRST_NAME FROM EMP` and `SELECT * FROM FACTS` are covered |
| OracleManager.LowerCaseFromGivesNoName | app/oracle_manager.py:120-136 | The keyword is case-sensitive: `select * from emp` gives no name instead of raising |
| OracleManager.UpperCaseFromGivesName | app/oracle_manager.py:120 | `SELECT * FROM ` followed by any word without `FROM`, such as `emp`, gives that word |
| OracleManager.OracleManager.GetTableMetadata | app/oracle_manager.py:114-136 | Metadata is given exactly when there is a name, a connection, and the dictionary lookup succeeds, and it is the lookup's table |
| OracleManager.OracleManager.Close | app/oracle_manager.py:138-142 | Afterwards there is no connection and the DSN is unchanged |
| StateManager.Initialized | app/state_manager.py:13-79 | The store after `init_state`, with the corrected manager; the slot-by-slot meaning is stated in `StateManager.InitSlot` and the lemmas after it |
| StateManager.InitStateAsWritten | app/state_manager.py:15-20 | `init_state` as written: it raises whenever the database manager is missing, and otherwise gives `StateManager.Initialized`; stated in `StateManager.NewSessionInitRaises` |
| StateManager.StateManager.GetState | app/state_manager.py:81-82 | A present slot gives its value; a missing one gives `None` |
| StateManager.StateManager.UpdateState | app/state_manager.py:84-85 | The store becomes the old store with this slot set |
| StateManager.UpdateOnlyThatSlot | app/state_manager.py:84-85 | After an update, the slot reads the new value and every other slot reads as before |
| StateManager.StateManager.SetDefault | app/state_manager.py:15-79 | One `if key not in st.session_state` block writes the slot only when it is missing |
| StateManager.StateManager.InitState | app/state_manager.py:13-79 | `init_state` runs the blocks in source order, including the visualizer block between the visualizer class and the DDL/DML slots, and yields `Initialized` |
| StateManager.InitSlot | app/state_manager.py:13-79 | A slot exists afterwards exactly when it existed, belongs to `init_state`'s slots, or is the visualizer when it is due; existing slots keep their values; every created slot except the handler has its default, the visualizer a `DataVisualizer()` |
| StateManager.InitKeepsExisting | app/state_manager.py:13-79 | `init_state` never overwrites a slot |
| StateManager.InitIdempotent | app/state_manager.py:13-79 | Running `init_state` twice gives the state of running it once |
| StateManager.InitLeavesLogAlone | app/state_manager.py:42-46 | `init_state` neither creates nor changes `analysis_results`; only `analysis_result` is created |
| StateManager.InitLookupNone | app/state_manager.py:27-79 | Slots whose default is `None` read the same before and after `init_state` |
| StateManager.InitCreates | app/state_manager.py:13-79 | A missing slot of `init_state` receives its default value |
| StateManager.InitHandlerModel | app/state_manager.py:55-60 | A new handler is built with the model name the store holds, or the default model when that slot was missing |
| StateManager.InitCreatesVisualizer | app/state_manager.py:70-73 | A missing visualizer is created exactly when the database manager exists and is connected, and it is then a `DataVisualizer()` |
| StateManager.InitCreatesContext | app/state_manager.py:29-32 | After `init_state` both slots the context test looks for exist |
| StateManager.NewSessionDefaults | app/state_manager.py:35-77 | On a new session: the default model, a handler built with it, no visualizer, no chat response and DDL/DML disabled |
| StateManager.NewSessionInvariant | app/state_manager.py:13-79 | A new session satisfies the session invariants and has no result and no log |
| StateManager.InitKeepsInvariant | app/state_manager.py:13-79 | `init_state` keeps the session invariants |
| StateManager.NewSessionInitRaises | app/state_manager.py:15-20 | As written, `init_state` raises on every session without a database manager, including every new one |
| StateManager.NewSessionManagerParses | app/state_manager.py:15-20 | With the DSN joined from the three defaults, a new session's manager holds a DSN that `connect` parses into those defaults |
| QueryHandler.AfterExecute | app/query_handler.py:8-44 | The store after `execute_query`, by route; stated in `QueryHandler.RejectedChangesNothing`, `QueryHandler.MutationSuccess`, `QueryHandler.ReadSuccess`, `QueryHandler.EmptyRead` and `QueryHandler.ExecutionError` |
| QueryHandler.RouteOf | app/query_handler.py:11-26 | Rejected exactly when the gate refuses. Mutation exactly when the gate accepts, the flag is on and the statement is not a SELECT. Read exactly when the gate accepts a SELECT. With the flag off there is never a mutation |
| QueryHandler.QueryHandler.ExecuteQuery | app/query_handler.py:8-44 | `execute_query` yields `AfterExecute` of the old store and of what the chosen executor returns |
| QueryHandler.QueryHandler.RunMutation | app/query_handler.py:15-23 | The mutation branch yields `AfterMutation` of what `execute_ddl_dml` returns |
| QueryHandler.QueryHandler.RunRead | app/query_handler.py:24-39 | The read branch yields `AfterRead` of what `execute_query` returns |
| QueryHandler.QueryHandler.RecordError | app/query_handler.py:41-44 | The `except` branch yields `ErrorRecorded` |
| QueryHandler.RejectedChangesNothing | app/query_handler.py:11-40 | A statement the gate refuses changes no slot |
| QueryHandler.MutationSuccess | app/query_handler.py:15-23 | A successful mutation stores its message as the DDL/DML output and sets the result, the statement and the log to `None`; nothing else changes |
| QueryHandler.ReadSuccess | app/query_handler.py:26-36 | A read with rows stores the statement and its table, resets `analysis_result`, `show_analysis`, `analysis_results` and the DDL/DML output; nothing else changes |
| QueryHandler.EmptyRead | app/query_handler.py:37-39 | A read without rows only sets the DDL/DML output to `None` |
| QueryHandler.ExecutionError | app/query_handler.py:41-44 | An execution error records `Error: ` and the message as the DDL/DML output exactly when the flag is on and the statement is not a SELECT; otherwise nothing changes |
| QueryHandler.ExecuteKeepsInvariant | app/query_handler.py:8-44 | Every outcome keeps the session invariants: a statement is stored exactly with a result, the result is `None` or a table, the log is a list or `None`, and a non-empty log comes with a result |
| QueryHandler.ExecuteStoresTables | app/query_handler.py:20-30 | The stored result is always `None` or a table |
| QueryHandler.SuccessesAreExclusive | app/query_handler.py:18-39 | After every successful outcome (a mutation, a read with rows, a read without rows) at most one of a result and a DDL/DML output is present |
| QueryHandler.FailedMutationKeepsResult | app/query_handler.py:17-44 | A failed mutation after a read keeps the result and sets the error output, so both are present |
| QueryHandler.QueryHandler.HandleEmptyQuery | app/query_handler.py:46-53 | Metadata is shown exactly when a table name is found, a connection exists and the lookup succeeds; otherwise a warning |
| QueryHandler.QueryHandler.CheckContext | app/query_handler.py:55-60 | The context test passes exactly when both slots exist, whatever they hold |
| QueryHandler.QueryHandler.AppendResult | app/query_handler.py:62-67 | `_append_result` yields `Appended`: the existing list, or a new one, with the pair at the end |
| QueryHandler.Appended | app/query_handler.py:62-67 | `_append_result` on the store; stated in `QueryHandler.AppendMeaning` |
| QueryHandler.AppendMeaning | app/query_handler.py:62-67 | Empty content changes nothing. Otherwise exactly one entry is added at the end; older entries stay; nothing else changes |
| QueryHandler.AppendTwice | app/query_handler.py:62-67 | The same kind appended twice gives two entries, in order |
| QueryHandler.Content | app/query_handler.py:84-116 | The recorded text is never empty: the answer when it has text, and the placeholder when it is `None` or empty |
| QueryHandler.AnalysisPromptOf | app/query_handler.py:71-81 | A request builds a prompt exactly when the context exists and the result is a table; it holds the executed statement and every row and column of the result |
| QueryHandler.AfterGenerate | app/query_handler.py:69-116 | The store after a `generate_*` request; stated in `QueryHandler.GenerateAppendsOne` and `QueryHandler.ContextWithoutResult` |
| QueryHandler.GenerateAppendsOne | app/query_handler.py:69-116 | With a stored table, each request adds exactly one entry: its label with the cleaned reply, or the placeholder for a failed or blank reply. No other slot changes |
| QueryHandler.ContextWithoutResult | app/query_handler.py:55-84 | The context test only looks at keys. With a `None` result, `df.to_string()` raises and nothing is appended |
| QueryHandler.GenerateKeepsInvariant | app/query_handler.py:69-116 | Analysis requests keep the session invariants |
| QueryHandler.QueryHandler.Generate | app/query_handler.py:69-116 | The common body of the three `generate_*` methods yields `AfterGenerate`, and returns the prompt it sends: `AnalysisPromptOf` the old store |
| QueryHandler.QueryHandler.GenerateInsights | app/query_handler.py:69-84 | The request with the label `Insights`, returning its prompt |
| QueryHandler.QueryHandler.GenerateSqlQueries | app/query_handler.py:86-100 | The request with the label `Additional SQL Queries`, returning its prompt |
| QueryHandler.QueryHandler.GenerateVisualizations | app/query_handler.py:102-116 | The request with the label `Visualization Suggestions`, returning its prompt |
| ChatAnalyzer.CreateChatPrompt | app/chat_analyzer.py:54-74 | The prompt holds the statement and the question. Its table is `head(200)`: the columns, then the first `min(n, 200)` rows. The size warning, reporting `n`, is given exactly when `n > 200`; at 200 rows or fewer the table is the whole result |
| ChatAnalyzer.PromptSeesFirstRows | app/chat_analyzer.py:56 | Results that agree on their columns and first 200 rows give the same prompt |
| ChatAnalyzer.AfterChat | app/chat_analyzer.py:8-52 | The store after one run of `show_chat_section`; stated in the chat lemmas below |
| ChatAnalyzer.EmptyQuestionChangesNothing | app/chat_analyzer.py:30 | Without a submitted non-empty question nothing changes |
| ChatAnalyzer.AskMeaning | app/chat_analyzer.py:30-41 | A question about a table is always stored. An answer with text is stored and sets the flag; otherwise both response slots keep their values |
| ChatAnalyzer.ClearMeaning | app/chat_analyzer.py:49-51 | Clearing sets the flag to false and the response to `""`, touches nothing else, and hides the response |
| ChatAnalyzer.VisibleMeaning | app/chat_analyzer.py:45 | The response is shown exactly when the flag is set and the response is not all whitespace |
| ChatAnalyzer.SpaceBetweenBackslashesIsHidden | app/chat_analyzer.py:36-45 | A reply of backslash, space, backslash sets the flag with the response `" "`, which is not shown |
| ChatAnalyzer.ChatKeepsInvariant | app/chat_analyzer.py:8-52 | The chat section leaves the result, the statement and the log alone, and keeps the invariants |
| ChatAnalyzer.ChatAnalyzer.ShowChatSection | app/chat_analyzer.py:8-52 | One run yields `AfterChat`. A prompt is built exactly when the context exists, a non-empty question was submitted and the result is a table, and it is `create_chat_prompt` of the stored statement and table |
| Nl2SqlInterface.ResultsShown | app/nl2sql_interface.py:50 | The result-section guard; stated in `Nl2SqlInterface.GuardMeaning` |
| Nl2SqlInterface.GuardMeaning | app/nl2sql_interface.py:50 | Under the invariants the result-section guard means "a result is stored", and it implies the context test |
| Nl2SqlInterface.ShownButtonAddsOne | app/nl2sql_interface.py:50-77 | Under the guard, each analysis button adds exactly one entry and keeps the older ones |
| Nl2SqlInterface.AnalysisSeesRowsChatDoesNot | app/query_handler.py:73-81 | Beside `create_chat_prompt` (app/chat_analyzer.py:54-74): both prompts carry the same statement and columns, the chat rows are the first `min(n, 200)` rows of the analysis rows, and with more than 200 rows the analysis prompt carries the rows the chat prompt leaves out |
| Nl2SqlInterface.AfterGenerateSql | app/nl2sql_interface.py:18-23 | The store after "Generate SQL"; stated in `Nl2SqlInterface.GenerateSqlMeaning` |
| Nl2SqlInterface.GenerateSqlMeaning | app/nl2sql_interface.py:18-23 | With a request, both statement slots get the same value: the cleaned reply, or `None` exactly when the call failed. Nothing else changes |
| Nl2SqlInterface.GenerateSqlKeepsInvariant | app/nl2sql_interface.py:18-23 | Generating a statement keeps the session invariants |
| Nl2SqlInterface.AfterClearAnalysis | app/nl2sql_interface.py:86-88 | The store after "Clear Analysis"; stated in `Nl2SqlInterface.ClearAnalysisMeaning` |
| Nl2SqlInterface.ClearAnalysisMeaning | app/nl2sql_interface.py:86-88 | Clearing empties the log and keeps the invariants; the next request starts a one-entry log |
| Nl2SqlInterface.Nl2SqlInterface.GenerateSql | app/nl2sql_interface.py:18-23 | The button yields `AfterGenerateSql` |
| Nl2SqlInterface.Nl2SqlInterface.ClearAnalysis | app/nl2sql_interface.py:86-88 | The button sets the log to `None` |
| Nl2SqlInterface.Nl2SqlInterface.ResultSectionShown | app/nl2sql_interface.py:50 | The section is shown exactly when a statement and a result are stored |

## Where the intended rules and the code differ

The pipeline is meant to keep a read result and a DDL/DML output from ever
being present together. The code does not guarantee this:

- A failed mutation goes through the `except` branch at app/query_handler.py:41-44.
- That branch sets the DDL/DML output.
- It does not clear a previous read result.

`QueryHandler.FailedMutationKeepsResult` shows this state. `QueryHandler.SuccessesAreExclusive` proves the rule for the successful outcomes only. The model follows the code.

## Findings

| source | as written | input that shows it | evidently intended | confidence | as-written member | corrected member |
|---|---|---|---|---|---|---|
| app/state_manager.py:15-20 | `OracleManager(default_host, default_port, default_service)` passes three arguments, but `OracleManager.__init__` (app/oracle_manager.py:6-8) takes one DSN, so Python raises `TypeError` | any new session (empty store) | build the manager from the DSN `host:port/service_name` joined from the three defaults, which is the form `connect` parses | high; not executed | StateManager.InitStateAsWritten, StateManager.NewSessionInitRaises | StateManager.StateManager.InitState, StateManager.NewSessionManagerParses |

## Left out

- Streamlit rendering is not modelled: `st.error`, `st.warning`, `st.info`, `st.dataframe`, spinners, columns, the download button.
- The fixed wording of the analysis and chat prompts is not modelled. `ChatAnalyzer.ChatPrompt` and `QueryHandler.AnalysisPrompt` record only what each prompt interpolates. The analysis requests and the chat take the model's reply as a parameter.
- The Groq API call is outside the model. Its reply is a parameter, and a missing `groq` slot (an `AttributeError` caught by the chat handler) is not modelled.
- The Oracle driver is a parameter, and so are `cx_Oracle.makedsn`, commits and cursors.
- The service objects are looked up by the source in the store. In the model they are passed as parameters. A store lacking them, where the source raises `AttributeError`, is not modelled.
- `os.getenv` is not modelled: the new session's DSN uses the defaults of the three environment variables.
- PyStr.UpperChar: upper-cases the ASCII letters and the long s `ſ` as Python does, and leaves every other character alone. Python's `upper()` also maps other letters, some of them to several characters. The SELECT test of the gate and of the routing changes only where such a form supplies a letter of `SELECT`: Python upper-cases `ẗ` (U+1E97) to `T` and a combining diaeresis, so `SELECẗ` passes the source's test and not the model's. Under `re.IGNORECASE` the letters E, X, C and P of the patterns match no character outside ASCII, so the pattern test is exact.
- `PyStr.IsSpace` is Python's whitespace set.
- `PyStr.ParseInt` does not accept the underscores and non-ASCII digits that `int()` accepts.
- QueryHandler.FlagReadable: the DDL/DML flag must not hold a data frame. Pandas raises on a data frame's truth value. The slot is written only by `init_state` and a checkbox.
- QueryHandler.LogAppendable: the log slot must hold a list or a false value. A true non-list value makes `append` raise.
- ChatAnalyzer.ChatSlotsReadable: the chat flag must have a truth value, and a set flag needs a text response. Otherwise `.strip()` raises.
- `OracleManager.get_performance_data`, the data visualizer, the health monitor and the optimizer are not part of this model.
- From app/main.py: the model selector, the DDL/DML checkbox write, the connection form's visualizer write and the "Disconnect" button are not modelled. Their effects are single `update_state` calls, covered by `StateManager.StateManager.UpdateState`, and `close`.
- The "Execute Generated SQL" and "Execute Edited SQL" buttons are not modelled separately; both call `execute_query`.
- Security.LowerCaseSelectPasses and Security.DropRejectedWhenDisabled state their examples with an arbitrary suffix instead of the exact sample statements.
- Security.PatternsCheckedWhenEnabled states its example the same way. It covers the sample `UPDATE … WHERE 1=1; --` with `head` holding the text before `;`.
