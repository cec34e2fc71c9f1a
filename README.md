# a2a_mcp orchestration: planner responses, agent-card registry, orchestrator session

A Dafny model of three pieces of the `a2a_mcp` multi-agent travel sample:

- **Planner agent responses** (`Planner`, `Events`). The planner reads back a
  structured result from the language model: a status (`input_required`,
  `completed` or `error`), an optional question and an optional task list.
  `GetAgentResponse` maps that result to the caller-facing record
  `{response_type, is_task_complete, require_user_input, content}`. `Stream` turns
  the graph's state snapshots into one text event per snapshot whose latest
  message is from the model, followed by that record. Everything here is pure functions over datatypes.
- **Agent-card MCP server, with its I/O removed** (`Registry`):
  - the SELECT-only guard of the travel-database tool. Python's `strip` and
    `isspace` are written out in full. `upper` is written out for every code
    point whose upper-case form begins with a letter of SELECT, which decides
    the guard's verdict;
  - `LoadAgentCards`, a method with a loop over an abstract directory listing
    that fills the URI list and the card list in step;
  - the card table, the `get_agent_cards` and `get_agent_card` resources;
  - the mocked places tool.
- **Orchestrator session state** (`Orchestrator`). The orchestrator's own
  source is not part of this model; its unit tests pin down its behaviour.
  `OrchestratorAgent` is a class whose fields are the session:
  - `graph`, a `WorkflowGraph` object that records nodes, edges and attribute
    updates, plus the run state;
  - `results`, `travelContext` and `queryHistory`;
  - `contextId`, the current conversation id.

  Its methods update these fields in place. The workflow run, the summary and
  the question answer are produced by collaborators. They enter the model as
  parameters.

Modules: `Wrappers` (Option, Result), `Json` (JSON values, field lookup,
string-list encode/decode), `Events`, `Planner`, `Registry`, `Orchestrator`.

Choices where the code and its own comments leave room:
- `OrchestratorAgent.Stream` rejects only `""`. The tests pin no other blank query.
- The `get_agent_cards` docstring promises a list of card dicts and `{'agent_cards': []}`
  when nothing is loaded. The code lists the card URIs, and it raises
  (`TypeError` on a `None` table) when no card was loaded. The model follows the code.

## Model

| member | source | states |
|---|---|---|
| Planner.StatusOf | a2a_mcp/src/a2a_mcp/agents/langgraph_planner_agent.py:42-45 | a string read back as a Status is that member's value (the converse is StatusRoundTrip) |
| Planner.StatusRoundTrip | a2a_mcp/src/a2a_mcp/agents/langgraph_planner_agent.py:42-45 | each Status is found again from its string value |
| Planner.StatusValue | a2a_mcp/src/a2a_mcp/agents/langgraph_planner_agent.py:42-45 | a status's value is one of `input_required`, `completed`, `error` |
| Planner.NewTask | a2a_mcp/src/a2a_mcp/agents/langgraph_planner_agent.py:48-50 | a Task keeps its title and is not done unless `done` is given |
| Planner.NewResponseFormat | a2a_mcp/src/a2a_mcp/agents/langgraph_planner_agent.py:53-68 | an omitted field takes its default: status `input_required`, no question, no content; a given field is kept |
| Planner.GetAgentResponse | a2a_mcp/src/a2a_mcp/agents/langgraph_planner_agent.py:135-169 | complete iff the status is `completed`; user input is required iff not complete, so never both; `response_type` is present iff the response is a ResponseFormat, `data` iff complete, `text` iff `input_required`/`error`; the content is the question for those two, decodes back to the task list when completed, and is the fixed "unable to process" text otherwise |
| Planner.ErrorAnsweredAsInputRequired | a2a_mcp/src/a2a_mcp/agents/langgraph_planner_agent.py:141-157 | an `error` result is answered exactly like an `input_required` one with the same question and content |
| Planner.TasksJson | a2a_mcp/src/a2a_mcp/agents/langgraph_planner_agent.py:163 | the dumped task list has one entry per task, and each entry reads back as its task |
| Planner.TaskJson | a2a_mcp/src/a2a_mcp/agents/langgraph_planner_agent.py:163 | a dumped task carries its title under `title` and reads back as the same task |
| Planner.TasksRoundTrip | a2a_mcp/src/a2a_mcp/agents/langgraph_planner_agent.py:158-164 | the dumped task list reads back as the same tasks |
| Planner.GetAgentResponseAsWritten | a2a_mcp/src/a2a_mcp/agents/langgraph_planner_agent.py:158-164 | as written, the completed branch raises on every input, and every other branch agrees with the corrected mapping |
| Planner.CompletedPlanRaisesAsWritten | a2a_mcp/src/a2a_mcp/agents/langgraph_planner_agent.py:163 | one completed plan: AttributeError as written, the dumped task list when corrected |
| Planner.AIContents | a2a_mcp/src/a2a_mcp/agents/langgraph_planner_agent.py:124-126 | the model messages picked from the snapshots are never more than the snapshots |
| Planner.AIContentsOne | a2a_mcp/src/a2a_mcp/agents/langgraph_planner_agent.py:124-126 | one snapshot gives its latest message's content iff that message is from the model, and nothing otherwise |
| Planner.AIContentsAppend | a2a_mcp/src/a2a_mcp/agents/langgraph_planner_agent.py:124-126 | picking model messages commutes with concatenating snapshot sequences, so order is kept |
| Planner.Progress | a2a_mcp/src/a2a_mcp/agents/langgraph_planner_agent.py:124-132 | one text event per snapshot whose latest message is from the model, carrying that message, in order, with both flags false |
| Planner.Stream | a2a_mcp/src/a2a_mcp/agents/langgraph_planner_agent.py:114-133 | the output has one more event than there are snapshots whose latest message is from the model; the earlier events are the progress events in order; the last is the `get_agent_response` record |
| Planner.StreamFlags | a2a_mcp/src/a2a_mcp/agents/langgraph_planner_agent.py:124-133 | no streamed event is both complete and waiting for input; only the last can set either flag |
| Events.Keys | a2a_mcp/src/a2a_mcp/agents/langgraph_planner_agent.py:145-169 | every record carries `content`, `is_task_complete` and `require_user_input`; `response_type` only when it is set |
| Events.ProgressEvent | a2a_mcp/src/a2a_mcp/agents/langgraph_planner_agent.py:127-132 | an intermediate event is text, not complete and not waiting for input, with the message as content |
| Registry.LStrip | a2a_mcp/src/a2a_mcp/mcp/server.py:221 | the result is a suffix of the input; what was removed is all whitespace; the result does not start with whitespace |
| Registry.RStrip | a2a_mcp/src/a2a_mcp/mcp/server.py:221 | the result is a prefix of the input; what was removed is all whitespace; the result does not end with whitespace |
| Registry.Strip | a2a_mcp/src/a2a_mcp/mcp/server.py:221 | the stripped text is what left-stripping keeps, less only trailing whitespace, so with LStrip's contract it is the stretch of the input between its leading and its trailing whitespace; it neither starts nor ends with whitespace, and is empty iff the input is all whitespace |
| Registry.UpperOf | a2a_mcp/src/a2a_mcp/mcp/server.py:221 | one character's upper-case form has one or two characters; a two-character form is SS, ST or T with a diaeresis; whitespace is kept |
| Registry.Upper | a2a_mcp/src/a2a_mcp/mcp/server.py:221 | the upper-cased string is at least as long as the input and at most twice as long |
| Registry.UpperMatchesPrefix | a2a_mcp/src/a2a_mcp/mcp/server.py:221 | the upper-cased string starts with a word iff the input's characters, upper-cased one at a time, spell that word |
| Registry.UpperMatchesStep | a2a_mcp/src/a2a_mcp/mcp/server.py:221 | when no two-character form can start the word, the first character must upper-case to exactly its first letter |
| Registry.MatchCT | a2a_mcp/src/a2a_mcp/mcp/server.py:221 | the upper-cased string starts with `CT` iff the first character upper-cases to C and the second to a form beginning with T |
| Registry.MatchECT | a2a_mcp/src/a2a_mcp/mcp/server.py:221 | the same for `ECT`: E one for one, then the condition for `CT` |
| Registry.MatchLECT | a2a_mcp/src/a2a_mcp/mcp/server.py:221 | the same for `LECT`: L one for one, then the condition for `ECT` |
| Registry.MatchELECT | a2a_mcp/src/a2a_mcp/mcp/server.py:221 | the same for `ELECT`: E one for one, then the condition for `LECT` |
| Registry.UpperStartsWith | a2a_mcp/src/a2a_mcp/mcp/server.py:221 | `t.upper().startswith('SELECT')` holds iff the explicit six-character condition holds |
| Registry.CheckTravelQuery | a2a_mcp/src/a2a_mcp/mcp/server.py:221-222 | a query passes, unchanged, iff, after leading whitespace, its first five characters upper-case one for one to S, E, L, E, C and its sixth to a form beginning with T (so `SELEC` + U+1E97 passes); otherwise it fails with ValueError "In correct query " followed by the query |
| Registry.TrailingSpaceKeepsKeyword | a2a_mcp/src/a2a_mcp/mcp/server.py:221 | removing only trailing whitespace never changes whether the text meets the SELECT condition |
| Registry.SelectAfterStrip | a2a_mcp/src/a2a_mcp/mcp/server.py:221 | stripping trailing whitespace never removes the keyword, so `strip()` and left-strip give the same verdict |
| Registry.EmptyQueryRejected | a2a_mcp/src/a2a_mcp/mcp/server.py:221-222 | the empty query is rejected |
| Registry.LeadingSpaceTolerated | a2a_mcp/src/a2a_mcp/mcp/server.py:221 | prefixing any whitespace never changes the verdict |
| Registry.CaseTolerated | a2a_mcp/src/a2a_mcp/mcp/server.py:221 | lower-casing the query never changes the verdict |
| Registry.LongSExample | a2a_mcp/src/a2a_mcp/mcp/server.py:221 | a query spelled with U+017F (long s) passes, because it upper-cases to S |
| Registry.DiaeresisTExample | a2a_mcp/src/a2a_mcp/mcp/server.py:221 | `SELEC` followed by U+1E97 passes, because U+1E97 upper-cases to T and a combining diaeresis |
| Registry.BlankQueryExample | a2a_mcp/src/a2a_mcp/mcp/server.py:221-222 | an all-blank query is rejected |
| Registry.OtherStatementExample | a2a_mcp/src/a2a_mcp/mcp/server.py:221-222 | a DELETE statement is rejected |
| Registry.LowerChar | a2a_mcp/src/a2a_mcp/mcp/server.py:70 | a character is kept, or is an upper-case ASCII letter and becomes a lower-case one |
| Registry.LowerCharKeeps | a2a_mcp/src/a2a_mcp/mcp/server.py:70 | lower-casing a character keeps whitespace whitespace and does not change its upper-case form |
| Registry.Lower | a2a_mcp/src/a2a_mcp/mcp/server.py:70 | `filename.lower()`: the same length, each character lower-cased |
| Registry.LastDot | a2a_mcp/src/a2a_mcp/mcp/server.py:79 | the index of the last dot, or -1 when there is none |
| Registry.Stem | a2a_mcp/src/a2a_mcp/mcp/server.py:79 | the stem is a prefix of the name; it differs from the name iff the last dot is neither the first nor the last character, and then it is the part before that dot |
| Registry.JsonStem | a2a_mcp/src/a2a_mcp/mcp/server.py:70-80 | a `.json` name (any case) loses exactly its last five characters, except the bare `.json`, which keeps them |
| Registry.CardUri | a2a_mcp/src/a2a_mcp/mcp/server.py:78-80 | a card URI starts with `resource://agent_cards/` and is never longer than the prefix and the file name together |
| Registry.JsonCardUri | a2a_mcp/src/a2a_mcp/mcp/server.py:70-80 | a `.json` file's URI is the prefix followed by the name without its last five characters; the bare `.json` keeps them |
| Registry.LoadEntry | a2a_mcp/src/a2a_mcp/mcp/server.py:70-81 | one listing entry contributes at most one card |
| Registry.Loaded | a2a_mcp/src/a2a_mcp/mcp/server.py:69-90 | the loader never yields more cards than listing entries |
| Registry.LoadedStep | a2a_mcp/src/a2a_mcp/mcp/server.py:69-81 | the cards loaded from the first `i + 1` entries are those from the first `i` followed by entry `i`'s own contribution |
| Registry.Pairs | a2a_mcp/src/a2a_mcp/mcp/server.py:78-81 | reading the URI list and the card list side by side gives one (uri, card) pair per index, the `k`-th pair holding the `k`-th URI and card |
| Registry.PairsAppend | a2a_mcp/src/a2a_mcp/mcp/server.py:78-81 | appending a URI and a card together appends exactly their pair |
| Registry.LoadAgentCards | a2a_mcp/src/a2a_mcp/mcp/server.py:58-94 | the URI list and the card list have equal length and are index-aligned pairs of the loaded (uri, card) sequence |
| Registry.LoadedAppend | a2a_mcp/src/a2a_mcp/mcp/server.py:69-90 | loading a concatenated listing concatenates the results, so listing order is kept |
| Registry.LoadedFrom | a2a_mcp/src/a2a_mcp/mcp/server.py:69-81 | every loaded card comes from a kept entry: a `.json` regular file that parsed, with URI `resource://agent_cards/` + its stem |
| Registry.LoadedSplit | a2a_mcp/src/a2a_mcp/mcp/server.py:69-90 | one entry's contribution lands between those of the entries before and after it |
| Registry.LoadedKeeps | a2a_mcp/src/a2a_mcp/mcp/server.py:69-81 | a kept entry adds exactly its (uri, card) pair at its place |
| Registry.LoadedSkips | a2a_mcp/src/a2a_mcp/mcp/server.py:69-90 | an entry that is not `.json`, not a file, or fails to parse adds to neither list |
| Registry.SharedStemUris | a2a_mcp/src/a2a_mcp/mcp/server.py:70-80 | `travel.json` and `travel.JSON` are both loaded, under the same URI |
| Registry.SharedStemExample | a2a_mcp/src/a2a_mcp/mcp/server.py:69-81 | two files differing only in the case of `.json` share a URI, and the card lookup returns both cards |
| Registry.HiddenJsonExample | a2a_mcp/src/a2a_mcp/mcp/server.py:78-80 | the bare file `.json` is loaded under the URI `resource://agent_cards/.json` |
| Registry.BuildCatalog | a2a_mcp/src/a2a_mcp/mcp/server.py:97-121 | a table exists iff some card was loaded and every embedding succeeded, and it holds the loaded URIs and cards |
| Registry.GetAgentCards | a2a_mcp/src/a2a_mcp/mcp/server.py:242-256 | fails iff there is no table; otherwise `agent_cards` decodes to every card URI in load order |
| Registry.MatchingCards | a2a_mcp/src/a2a_mcp/mcp/server.py:274-279 | never more cards than the table holds; every card returned has the requested URI; none when no URI matches |
| Registry.MatchingOne | a2a_mcp/src/a2a_mcp/mcp/server.py:274-279 | a single row gives its card iff its URI matches, and nothing otherwise |
| Registry.MatchingAppend | a2a_mcp/src/a2a_mcp/mcp/server.py:274-279 | the lookup over two stretches of the table is the first's lookup followed by the second's, so every matching row is returned once, in table order |
| Registry.UniqueMatch | a2a_mcp/src/a2a_mcp/mcp/server.py:274-279 | when exactly one row has the URI, the lookup returns exactly that row's card |
| Registry.GetAgentCard | a2a_mcp/src/a2a_mcp/mcp/server.py:258-281 | fails iff there is no table; otherwise `agent_card` holds the MatchingCards lookup for `resource://agent_cards/` + name, which MatchingOne and MatchingAppend show to be every row with that URI, once each, in table order |
| Registry.QueryPlacesData | a2a_mcp/src/a2a_mcp/mcp/server.py:180-200 | one `places` field holding the same two mocked places, whatever the query |
| Orchestrator.OrchestratorAgent.constructor | a2a_mcp/tests/test_orchestrator_agent.py:37-52 | the agent's name, description and content types; no graph, empty results, travel context and history, no context id |
| Orchestrator.OrchestratorAgent.ClearState | a2a_mcp/tests/test_orchestrator_agent.py:157-172 | graph absent and results, travel context and history empty, whatever they held |
| Orchestrator.SuppliedAttributes | a2a_mcp/tests/test_orchestrator_agent.py:343-347 | each of `task_id`, `context_id`, `query` is present iff it was supplied, with the supplied value, and no other key is present |
| Orchestrator.OrchestratorAgent.SetNodeAttributes | a2a_mcp/tests/test_orchestrator_agent.py:113-133 | the graph receives exactly one attribute update, for the given node, with exactly the supplied attributes; nodes, edges and state untouched |
| Orchestrator.OrchestratorAgent.AddGraphNode | a2a_mcp/tests/test_orchestrator_agent.py:135-155 | the returned node's task is the query; it is added to the graph once; exactly one edge from parent to new node when a parent is given, none otherwise; the call's attributes (with the query) are recorded on the new node; the run state is untouched |
| Orchestrator.WorkflowGraph.constructor | a2a_mcp/tests/test_orchestrator_agent.py:190-193 | a new graph has no nodes, edges or updates and is ready |
| Orchestrator.WorkflowGraph.Finish | a2a_mcp/tests/test_orchestrator_agent.py:222-227 | sets the run state the workflow left the graph in and changes nothing else |
| Orchestrator.WorkflowGraph.AddNode | a2a_mcp/tests/test_orchestrator_agent.py:154 | records the node once, keeping node ids distinct |
| Orchestrator.WorkflowGraph.AddEdge | a2a_mcp/tests/test_orchestrator_agent.py:155 | records the edge once |
| Orchestrator.WorkflowGraph.SetNodeAttributes | a2a_mcp/tests/test_orchestrator_agent.py:133 | records the update; the node's merged attributes become the old ones overwritten by the new; other nodes unchanged |
| Orchestrator.MergedAttributes | a2a_mcp/tests/test_orchestrator_agent.py:133 | a node's merged attributes hold exactly the keys some update for that node supplied |
| Orchestrator.MergeOverwrites | a2a_mcp/tests/test_orchestrator_agent.py:343-347 | the latest update's values win, older keys it does not mention stay, other nodes are unaffected |
| Orchestrator.OrchestratorAgent.Stream | a2a_mcp/tests/test_orchestrator_agent.py:174-239 | an empty query fails with "Query cannot be empty" before any event and changes nothing; otherwise the context id becomes the new one, a graph exists, the history is `[query]` after a context change (old state cleared) or grows by the query, and the events are those of StreamEvents |
| Orchestrator.StreamEvents | a2a_mcp/tests/test_orchestrator_agent.py:220-239 | the run's events in order, then exactly one summary event when the graph completed; with no run events and a completed graph, exactly one event |
| Orchestrator.SummaryEvent | a2a_mcp/tests/test_orchestrator_agent.py:236-239 | the final event carries the summary, is complete and does not ask for input |
| Orchestrator.OrchestratorAgent.AnswerUserQuestion | a2a_mcp/tests/test_orchestrator_agent.py:78-111 | the collaborator's reply as it came, or exactly `{"can_answer": "no", "answer": "Cannot answer based on provided context"}` when it failed |

## Findings

| source | as written | input that shows it | evidently intended | confidence | as-written member | corrected member |
|---|---|---|---|---|---|---|
| a2a_mcp/src/a2a_mcp/agents/langgraph_planner_agent.py:163 | `structured_response.content.model_dump()`, where `content` is `Optional[List[Task]]`, a plain list or None, neither of which has `model_dump` | `ResponseFormat(status='completed', content=[Task(title='Book flight')])`: AttributeError instead of a record | content is the dumped task list, `[{'title': 'Book flight', 'done': False}]` (the commented-out earlier version used a model type that had `model_dump`) | high, not executed | Planner.GetAgentResponseAsWritten | Planner.GetAgentResponse |

## Left out

- Embedding generation and `find_agent`'s best match by float dot products: these are Azure OpenAI calls, numpy and floating point. `BuildCatalog` only takes as input whether every embedding succeeded.
- SQLite execution in `query_travel_data` and its error mapping: database I/O. `CheckTravelQuery` stops where the query would reach the database.
- The directory walk and file reading in `load_agent_cards`: the listing is an input of `DirEntry` values, each saying whether it is a regular file and what it parsed to. Read and parse errors are all the same `None`. When the directory is missing, the function returns a bare list and not a pair, and the caller's unpacking then raises. That path is not modelled.
- FastMCP registration, `serve`, `mcp.run`, `load_dotenv` and logging: server plumbing. The log message asserted by the exception test of `answer_user_question` is not modelled.
- Constructing the language-model client and graph, `invoke`, `graph.stream` and `graph.get_state`: the snapshots and the structured response are inputs of `Stream`/`GetAgentResponse`. The session id and task id, which only reach those calls and the log, are not modelled.
- Registry.UpperOf, Registry.Upper: only the code points whose upper-case form begins with S, E, L, C or T are mapped (a–z, U+017F, U+00DF, U+FB05, U+FB06, U+1E97); every other one is kept as it is. So `Upper` is not Python's `upper` in general, but the SELECT verdict of CheckTravelQuery is the same as Python's on every input.
- Registry.LowerChar, Registry.Lower: map A–Z only. Other Unicode lower-case mappings are not modelled. That is exact for the `.json` suffix test, and CaseTolerated speaks of this lower-casing only.
- Python's `Path.stem` is modelled with the rule of Python 3.12/3.13 (the last dot, neither first nor last).
- Orchestrator.OrchestratorAgent.Stream: `run_workflow` is abstract. Its events enter as `run` and the state it leaves the graph in as `finalState`. Folding artifacts into `results` and `travelContext`, pausing and resuming, building nodes from the planner's task list, and any scheduling are not modelled. So the model keeps `results` and `travelContext` as they were (or cleared) across a call.
- Orchestrator.OrchestratorAgent.Stream: the session after a completed run (graph kept, history kept, reused by the next same-context call) is this model's choice; the tests pin only the events there.
- Orchestrator.OrchestratorAgent.Stream: the summary event's `response_type` is set to text. The tests do not pin it.
- Orchestrator.OrchestratorAgent.SetNodeAttributes: an argument counts as supplied when it is given (`Some`). The tests cannot tell whether the source also drops empty strings, so that case is not modelled. The method requires a graph to be present; the tests only call it with one.
- Orchestrator.OrchestratorAgent.AddGraphNode: the node id a new `WorkflowNode` generates for itself is a parameter, required to be new to the graph. Recording the call's attributes on the new node is this model's choice; the tests neither require nor exclude it.
- Orchestrator.WorkflowGraph: a recorder of calls and not the real graph, whose source is not part of this model. It does not check whether an edge's parent exists, does not detect cycles and does not schedule anything.
- Orchestrator.OrchestratorAgent.constructor: the `init_api_key` call at construction (test_orchestrator_agent.py:40) is not modelled; it only sets up credentials.
- Orchestrator.OrchestratorAgent.AnswerUserQuestion: that the language-model client is called exactly once (test_orchestrator_agent.py:73 and :94) is not modelled; the reply enters as a parameter.
- Planner.Message: a message's content is modelled as a string only. A LangChain message's content can also be a list of content blocks, which the progress event would pass on as it is (langgraph_planner_agent.py:131).
- `generate_summary` and the Q&A prompt: language-model calls. Their results are the `summary` and `reply` parameters.
- The integration tests, which call live APIs, and the test at test_orchestrator_agent.py:241-270, which assigns fields by hand without calling any code.
- `common/utils.py`: logging setup and a constant server configuration.
