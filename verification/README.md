# Legal Council AI: a verified model of the engine control logic

This project is a Dafny model of the control logic of the legal-document assistant
"legal-council-ai". The language-model calls around which that logic is built are
treated as opaque collaborators: each one is a function parameter that either returns
a value or raises. The model covers four pieces:

- **The unified engine** (`unified_engine.dfy`, module `UnifiedEngine`). This is the
  two-path LangGraph application:
  - an entry router node chooses between analysis and chat;
  - the analysis path is `brain` (a single-pass analysis by the unified agent)
    followed by `indexer` (the raw text is written to the retrieval index);
  - the chat path is a `chat_agent` node with a two-attempt retry loop against leaked
    tool-call markup, cycling with the `tools` node while the model requests tool
    calls.

  The state is a record with an appended `messages` list. The other keys are
  overwritten by the patches the nodes return. `Invoke` runs the compiled graph as a
  loop and is proved to follow it. Every node it executes is the one that the edge
  out of the previous node, routed on the state at that point, leads to. Every patch
  is the one that node returns on the state so far. A run that ends normally ends
  because the edge out of its last node leads to END.
- **The sequential pipeline** (`engine.dfy`, module `Engine`). Four stages run in
  order: indexer, extractor, analyzer, translator. The guard `should_continue` ends
  the run as soon as `errors` is non-empty. `Invoke` is proved to execute a prefix
  of the stage list, and to stop exactly where the guard or a raising stage stops it.
- **The unified extractor** (`unified_extractor.dfy`). This is the greedy DOTALL
  `\{.*\}` cleaner `clean_json_text`, and the backend choice on `USE_LOCAL_AI`.
- **The grounding check** (`grounding.dfy`). This is the case-insensitive substring
  test `verify_grounding`.

Supporting modules:
- `Wrappers` holds `Option`, `Upd` and `Outcome`:
  - `Option` also stands for an absent state key;
  - `Upd` is a patch's effect on one key;
  - `Outcome` is a collaborator's answer or the message of its exception.
- `Text` holds the Python string operations used: ASCII `lower`, `in` on strings,
  `strip` with Python's whitespace set, and the prefix slice.
- `Messages` holds the chat message record.
- `Rag` models the retrieval index as the ordered log of documents handed to it.
- `Graphs` holds LangGraph's `StateGraph` builder (a class whose methods update its
  node set, edge table and entry point), the compiled table, and the successor
  function a run follows.

Three behaviours of the code that a reader of its comments and docstrings might not
expect, and that the model follows:
- A failing analysis agent in `engine.py` is not replaced by a degraded placeholder
  record. The analyzer and translator nodes have no exception handling, so the run
  aborts (`Engine.AnalyzerNode`, `Engine.TranslatorNode`). The extractor records
  `"Extraction Error: ..."` and the guard ends the run.
- In `unified_engine.py` the indexer is not a parallel branch. It runs after `brain`
  on the single edge `brain -> indexer -> END`.
- `brain_node` sends the agent the first 15000 characters, and `extractor_node` sends
  the first 100000.

## Model

| member | source | states |
|---|---|---|
| UnifiedEngine.Merge | src/core/unified_engine.py:23-29 | `messages` is appended to (the `add_messages` reducer) and `raw_text` is never touched; each of `is_legal`, `final_summary`, `mode` and `errors` takes the patch's value when the patch sets it and keeps its old value when it does not |
| UnifiedEngine.MergeNoUpdate | src/core/unified_engine.py:46 | merging the empty dict `{}` leaves the state as it is |
| UnifiedEngine.RouteEntry | src/core/unified_engine.py:125-141 | the answer is always "brain" or "chat_agent"; mode "analyze" always gives "brain"; "chat_agent" is returned exactly when mode is "chat", `final_summary` is a non-empty dict and `errors` is empty, so every other input, an unknown mode included, falls back to "brain" |
| UnifiedEngine.RouterPatch | src/core/unified_engine.py:157 | the router node's patch `{"mode": state.get("mode")}` leaves the state unchanged |
| UnifiedEngine.BrainNode | src/core/unified_engine.py:49-74 | a missing `raw_text` raises a KeyError outside the `try`, and that is the only way the modelled node fails (with `raw_text` present it always completes); the agent is given the first 15000 characters; an exception gives exactly `errors=["Brain error: "+msg]`; a result without a true `is_legal` gives exactly `is_legal=False` and `errors=["Not a recognized legal document."]` with no `final_summary`; a legal result gives `is_legal=True`, `final_summary=model_dump()` and `errors=[]`; no message is added |
| UnifiedEngine.BrainGatesChat | src/core/unified_engine.py:61-71 | in chat mode, after the brain's patch the router sends the next request to the chat agent exactly when the agent returned a legal analysis |
| UnifiedEngine.BrainSeesPrefix | src/core/unified_engine.py:52 | two documents that agree on their first 15000 characters get the same brain result |
| UnifiedEngine.IndexerNode | src/core/unified_engine.py:42-46 | the patch is always `{}`; the raw text is indexed, once and under the given fresh id, exactly when `raw_text` is present and non-empty |
| UnifiedEngine.ChatPrompt | src/core/unified_engine.py:81-101 | the prompt list is one system message followed by the state's messages, unchanged |
| UnifiedEngine.Consult | src/core/unified_engine.py:103-119 | the model is called at most `left` times, and the first call is on the initial prompt list |
| UnifiedEngine.ChatStep | src/core/unified_engine.py:76-119 | a completed chat step appends exactly one message, writes nothing to the index, and sets no other key |
| UnifiedEngine.ChatAgent | src/core/unified_engine.py:76-119 | the `for _ in range(2)` loop over a local copy of the prompt list computes `ChatStep`; its patch appends one message and leaves every other key of the state as it was |
| UnifiedEngine.ConsultCalls | src/core/unified_engine.py:101-112 | each call after the first is on the previous list plus the rejected response and one correction message; every call's list starts with the system prompt and the state's own messages, unmodified |
| UnifiedEngine.Settle | src/core/unified_engine.py:108-119 | a model exception propagates; otherwise the answer shows no markup, and is either the response or the fallback text |
| UnifiedEngine.ConsultOutcome | src/core/unified_engine.py:103-119 | the attempts end as the last call's response settles, and a leaking last response means every attempt was used |
| UnifiedEngine.ChatAgentAnswers | src/core/unified_engine.py:103-119 | the chat agent calls the model once or twice, first on the coach prompt, and answers with exactly one markup-free message: the last response or the fallback; a clean first response, including non-string content, is returned unchanged |
| UnifiedEngine.AlwaysLeakingModelFallsBack | src/core/unified_engine.py:104-119 | a model that always leaks `<function_calls>` or `<invoke>` is called exactly twice, and the reply is the fixed fallback message |
| UnifiedEngine.Leaks | src/core/unified_engine.py:108 | a response leaks exactly when its content is a string containing `<function_calls>` or `<invoke>` as a substring; non-string content never leaks |
| UnifiedEngine.Show | src/core/unified_engine.py:85-88 | a string value appears in the f-string as it is; a boolean appears as "True" or "False", according to its value |
| UnifiedEngine.SummaryField | src/core/unified_engine.py:81-83 | `summary.get(key, default)`: the default when there is no summary or the key is absent, and the stored string when the key holds one |
| UnifiedEngine.CoachSeesAnalysis | src/core/unified_engine.py:81-83 | on a `final_summary` produced by the brain's `model_dump()`, the coach reads exactly the analysis's document type and verdict |
| UnifiedEngine.CoachPrompt | src/core/unified_engine.py:85-88 | the coach's system prompt holds the document type and, after the recommendation label, the verdict, each verbatim at a fixed position |
| UnifiedEngine.FallbackDoesNotLeak | src/core/unified_engine.py:118 | the fallback message contains neither `<function_calls>` nor `<invoke>` |
| UnifiedEngine.ToolsCondition | src/core/unified_engine.py:172-176 | `tools_condition` answers "tools" exactly when the last message is an AI message that requests tool calls (only AI messages carry `tool_calls`), and END otherwise; it has no answer (it raises) on an empty message list |
| UnifiedEngine.ToolsNode | src/core/unified_engine.py:154 | the tool node runs exactly when the last message is the model's; it appends one tool message per requested call, in order, and changes nothing else |
| UnifiedEngine.CreateLegalEngine | src/core/unified_engine.py:147-179 | the builder calls produce the edge table router -> brain or chat_agent, brain -> indexer -> END, chat_agent -> tools or END, tools -> chat_agent |
| UnifiedEngine.Successors | src/core/unified_engine.py:157-177 | the successor of each node on any state: the router follows `route_entry`, brain always goes to indexer, indexer always ends, chat_agent goes to tools exactly when the last message is an AI message requesting tool calls, tools always go back to chat_agent |
| UnifiedEngine.ExecuteRoles | src/core/unified_engine.py:151-157 | the node table `add_node` builds: only the indexer writes to the index, only chat_agent and tools add messages, and the router and the indexer never raise |
| UnifiedEngine.RunNode | src/core/unified_engine.py:151-157 | calling a node (the chat agent through its loop) gives the node's specified result |
| UnifiedEngine.ChatPathAlternates | src/core/unified_engine.py:172-177 | after the router, the chat path alternates chat_agent and tools |
| UnifiedEngine.ApplyAppends | src/core/unified_engine.py:24 | along any run, `messages` only grows at its end and `raw_text` stays the same |
| UnifiedEngine.TraceExtends | src/core/unified_engine.py:147-179 | running, on the state so far, the next node that the previous node's edge leads to extends a faithful trace of the run |
| UnifiedEngine.EndIsLast | src/core/unified_engine.py:169-176 | once the edge out of a node of a trace leads to END, that node is the trace's last |
| UnifiedEngine.Iterate | src/core/unified_engine.py:147-179 | each iteration of a run keeps its invariant: the node due either raises, stopping the run, or its patch is merged and the edge out of it, routed on the merged state, leads to the next node or to END |
| UnifiedEngine.Invoke | src/core/unified_engine.py:147-179 | `engine.invoke`: the first node is the router and each later node is the one the previous node's edge, routed on the state after it, leads to; each patch is what its node returned on the state so far; a run without fault ends exactly where the last node's edge leads to END; a run stops with a node fault only when the node that edge leads to raises exactly that fault on the final state, and with the budget fault only when the budget is used up and that edge still leads to a node; a run that reaches END by the analysis path executes router, brain and indexer and indexes exactly the non-empty raw text; an analysis run with `raw_text` present and a budget of at least three nodes always reaches END that way; a chat run whose model never raises and never requests a tool, with a budget of at least two nodes, ends at END after router and chat_agent with exactly one message appended; the caller's messages stay a prefix of the final ones |
| UnifiedEngine.AnalysisRunCompletes | src/core/unified_engine.py:42-74 | a stopped analysis run whose state holds `raw_text` cannot have been stopped by a fault: router, brain and indexer do not raise then, so with a budget of three nodes it reaches END and indexes the non-empty raw text |
| UnifiedEngine.ChatAnswerEnds | src/core/unified_engine.py:104-119 | with a model that never raises and never requests a tool, chat_agent answers with one message that requests no tool, and `tools_condition` then sends the run to END |
| UnifiedEngine.ChatTraceStart | src/core/unified_engine.py:157-176 | with such a model, a chat trace has at most two nodes: the router leaves the state as it is, and after chat_agent's answer the edge leads to END |
| UnifiedEngine.ChatRunCompletes | src/core/unified_engine.py:76-176 | a stopped chat run with such a model and a budget of at least two nodes has no fault, ran router and chat_agent, and appended exactly one message, which requests no tool |
| UnifiedEngine.Superstep | src/core/unified_engine.py:147-179 | one superstep of the run: execute the node, merge its patch and take the edge (the next node is exactly what the edge out of this node gives on the merged state), or stop with the fault the node raised, keeping the run's invariant |
| Engine.Merge | src/core/engine.py:18-24 | `messages` is appended to and `raw_text` is kept; each of `extracted_data`, `analysis`, `final_summary` and `errors` takes the patch's value when the patch sets it (there is no reducer) and keeps its old value when it does not |
| Engine.ShouldContinue | src/core/engine.py:27-33 | the answer is "end" exactly when `errors` is non-empty, and "continue" otherwise |
| Engine.IndexingNode | src/core/engine.py:36-44 | blank or whitespace-only text gives `errors=["No text provided for indexing"]` and no index write; otherwise the stripped text is indexed under the fresh id and `errors=[]`; no other key is set |
| Engine.ExtractorNode | src/core/engine.py:46-56 | empty text gives `errors=["No text provided for extraction"]` without calling the agent; the agent sees the first 100000 characters; `extracted_data` is set exactly when it answers, to its answer; a failure gives `errors=["Extraction Error: "+msg]` |
| Engine.AnalyzerNode | src/core/engine.py:58-61 | a missing `extracted_data` raises a KeyError and an agent exception propagates; when the agent answers, the node completes and sets only `analysis`, to that answer |
| Engine.TranslatorNode | src/core/engine.py:63-66 | a missing `analysis` raises a KeyError and an agent exception propagates; when the agent answers, the node completes and sets only `final_summary`, to that answer |
| Engine.ExecuteRoles | src/core/engine.py:83-87 | the stage table `add_node` builds: only the analyzer and the translator can raise, only the indexer writes to the index, and no stage adds a message |
| Engine.ExtractionFailureRecordsError | src/core/engine.py:55-56 | a failed extraction keeps `extracted_data`, records one error and makes the guard end the run |
| Engine.ExtractorSeesPrefix | src/core/engine.py:53 | two documents with the same first 100000 characters get the same extractor result |
| Engine.IndexingOverwritesErrors | src/core/engine.py:41-44 | successful indexing clears any earlier errors and changes nothing else |
| Engine.LaterStagesPreserveOtherKeys | src/core/engine.py:58-66 | the analyzer and the translator change only their own key |
| Engine.CreateLegalEngine | src/core/engine.py:80-114 | the builder calls produce the table indexer, extractor and analyzer guarded by `should_continue`, translator -> END and chat -> END, with entry indexer |
| Engine.ChatNodeUnreachable | src/core/engine.py:87-111 | the chat node is not the entry point and no edge leads to it, so no run executes it |
| Engine.StageSuccessor | src/core/engine.py:92-110 | after each of the first three stages the run moves to the next stage exactly when `errors` is empty, and the translator always ends the run |
| Engine.TraceExtends | src/core/engine.py:90-110 | running the next stage after a passing guard extends the trace of stages executed in order |
| Engine.Advance | src/core/engine.py:36-110 | one stage of a run: only the analyzer or the translator can raise; otherwise the run is ready for the next stage, or finished when the guard stops it or the translator is done |
| Engine.Stops | src/core/engine.py:58-66 | a run whose next stage raises is stopped by that stage's own fault, which only the analyzer or the translator can raise |
| Engine.Superstep | src/core/engine.py:90-110 | one superstep: run the stage, merge its patch and follow the guarded edge, or stop with the fault the stage raised, keeping the run's invariant |
| Engine.CleanTraceKeepsErrorsEmpty | src/core/engine.py:36-66 | with agents that always answer and a document that is not blank, no stage of a run records an error |
| Engine.CleanRunCompletes | src/core/engine.py:36-110 | with agents that always answer and a document that is not blank, the run neither raises nor is stopped by the guard, so all four stages run |
| Engine.Invoke | src/core/engine.py:80-114 | `engine.invoke`: the executed stages are a non-empty prefix of indexer, extractor, analyzer, translator; each patch is what its stage returned; every stage after the first ran with `errors` empty; a run that stops early without a fault has non-empty `errors`; a run stopped by a fault is stopped by the next stage raising exactly that fault on the final state, and only the analyzer or translator can do so; with agents that always answer and a document that is not blank all four stages run; the stripped text is indexed exactly when it is not blank; a blank document stops after the indexer |
| Graphs.Next | src/core/unified_engine.py:161-177 | a node without an outgoing edge has no successor; a plain edge leads to its fixed target; a conditional edge leads to the branch the router's answer names, and to no successor when the router raises or answers a label without a branch |
| Graphs.NextAvoidsUnreachable | src/core/engine.py:87-111 | a node that is not the entry and not the target of any edge is never the successor of another node |
| Graphs.StateGraph.constructor | src/core/unified_engine.py:148 | a new builder has no nodes, no edges and no entry point |
| Graphs.StateGraph.AddNode | src/core/unified_engine.py:151-157 | `add_node` adds one new node and changes nothing else |
| Graphs.StateGraph.SetEntryPoint | src/core/unified_engine.py:158 | `set_entry_point` sets the entry point and changes nothing else |
| Graphs.StateGraph.AddEdge | src/core/unified_engine.py:168-169 | `add_edge` gives a node its one fixed successor and changes nothing else |
| Graphs.StateGraph.AddConditionalEdges | src/core/unified_engine.py:161-165 | `add_conditional_edges` gives a node a router and a branch map and changes nothing else |
| Graphs.StateGraph.Compile | src/core/unified_engine.py:179 | `compile` freezes the entry point, nodes and edges that were built |
| UnifiedExtractor.ModelDump | src/agents/unified_extractor.py:10-20 | `model_dump()` is a non-empty dict holding `is_legal`, `doc_type` and `verdict` as the response's values |
| UnifiedExtractor.SearchBraces | src/agents/unified_extractor.py:29 | the bounds found are those of the regex match: the leftmost `{`, and the longest span closing with `}`; none is found exactly when no `{` has a `}` after it |
| UnifiedExtractor.CleanJsonText | src/agents/unified_extractor.py:23-32 | the result is always a contiguous substring of the input; when a brace span exists it starts with `{` and ends with `}`; otherwise it is the input unchanged |
| UnifiedExtractor.CleanIsSearchMatch | src/agents/unified_extractor.py:29-30 | when a match exists the result is exactly the greedy DOTALL match of `\{.*\}` |
| UnifiedExtractor.CleanSpansFirstOpenToLastClose | src/agents/unified_extractor.py:23-30 | the result is the slice from the first `{` through the last `}` inclusive, newlines included |
| UnifiedExtractor.CleanIdempotent | src/agents/unified_extractor.py:29-30 | cleaning an already-cleaned text returns it unchanged |
| UnifiedExtractor.CleanDropsFiller | src/agents/unified_extractor.py:24-26 | a JSON object with filler before it that has no `{` and filler after it that has no `}` cleans to the object alone |
| UnifiedExtractor.SelectBackend | src/agents/unified_extractor.py:52 | only the exact value "true" of `USE_LOCAL_AI` selects the local backend |
| UnifiedExtractor.LocalChain | src/agents/unified_extractor.py:58-63 | a model exception propagates and a parsed record or a parse error comes back; the local chain never returns a record-less value |
| UnifiedExtractor.InvokeUnifiedAgent | src/agents/unified_extractor.py:52-71 | the cloud backend returns the structured-output chain's result; the local backend cleans the model text and then parses it |
| UnifiedExtractor.LocalIgnoresFiller | src/agents/unified_extractor.py:58-63 | on the local backend, filler around the model's JSON object does not change the parsed outcome |
| Grounding.VerifyGrounding | src/utils/grounding.py:4-11 | true exactly when the lower-cased reference occurs as a substring of the lower-cased text |
| Grounding.EmptyReferenceGrounded | src/utils/grounding.py:11 | the empty reference is grounded in every text |
| Grounding.CaseInsensitive | src/utils/grounding.py:11 | changing the letter case of either argument does not change the result |
| Grounding.ExcerptGrounded | src/utils/grounding.py:11 | any verbatim substring of the text is grounded |
| Grounding.TextGroundsItself | src/utils/grounding.py:11 | the text is grounded in itself |
| Grounding.PartOfGroundedIsGrounded | src/utils/grounding.py:11 | every substring of a grounded reference is grounded |
| Text.Contains | src/utils/grounding.py:11 | Python's `a in b` on strings holds exactly when `a` occurs contiguously in `b` |
| Text.Lower | src/utils/grounding.py:11 | `lower()` keeps the length and lower-cases each character |
| Text.IsSpace | src/core/engine.py:37 | the whitespace `str.strip()` removes: space, tab, newline and carriage return are whitespace, and no printable ASCII character is |
| Text.Strip | src/core/engine.py:37-38 | `strip()` removes a whitespace-only prefix and a whitespace-only suffix and returns what lies between, which has no whitespace at either end and is empty exactly when the text is all whitespace |
| Text.Prefix | src/core/unified_engine.py:52 | the slice `s[:n]` is the first `min(n, len(s))` characters |

## Left out

- `chat_node` in `engine.py` is not modelled: it has no incoming edge and is not the entry point, so no run reaches it (`Engine.ChatNodeUnreachable`).
- The retrieval index is not modelled beyond the log of `index_document` calls. `src/core/rag_pipeline.py` chunking, embeddings, Chroma persistence and similarity search are library and floating-point code.
- Engine.IndexingNode: the index write cannot fail in the model. `index_document` (src/core/engine.py:43) has no `try` around it, so an embedding or store failure would abort the run at the indexer.
- UnifiedEngine.IndexerNode: the index write cannot fail in the model either. `index_document` (src/core/unified_engine.py:45) has no `try` around it.
- Engine.ExtractorNode: building the agent with `get_extraction_agent()` (src/core/engine.py:51) happens before the `try` and is not modelled as failing. A structured-output chain that returns None is not modelled: the extraction agent either answers with a record or raises.
- UnifiedEngine.BrainNode: building the agent with `get_unified_agent()` (src/core/unified_engine.py:51) happens before the `try` and is not modelled as failing.
- UnifiedEngine.ChatAgent: `get_model` and `bind_tools` (src/core/unified_engine.py:78-79) are not modelled as failing.
- The retrieval tool is a parameter (`Env.runTool`). As written, `LegalRAG` (src/core/rag_pipeline.py:5-38) defines no `as_tool`, so the call `rag_engine.as_tool()` at src/core/unified_engine.py:36 would raise AttributeError when the module loads; the model assumes that a working tool exists.
- The retrieval tool's answers are given by that parameter. `UnifiedEngine.ToolsNode` does not carry the `tool_call_id` that LangGraph's `ToolNode` puts on each tool message.
- Prompt construction and model clients are parameters: the agents of `extractor.py`, `analyzer.py` and `translator.py`, the unified agent's model and parser, and the chat model with the tool bound.
- The `callable(agent)` versus `agent.invoke(...)` dispatch in `brain_node` is not modelled. Both forms are the one `InvokeUnifiedAgent` call on the same prefix.
- UnifiedEngine.CoachPrompt: only the opening lines of the coach's system prompt are modelled, with the document type and the verdict filled in. The tool-use and output-format guidance after them is fixed prose that no decision depends on.
- UnifiedEngine.SummaryField: a `final_summary` key that is present but holds None is the same as an absent one. Python's `summary.get` would raise on None there.
- UnifiedEngine.Invoke: a caller-given step budget stops the run with `RecursionLimit`, in place of LangGraph's default `recursion_limit` of 25 supersteps.
- Checkpointing with `InMemorySaver` and thread ids is not modelled. Each `Invoke` starts from the state it is given.
- `add_messages` replacing a message with the same id is not modelled. Messages are always appended.
- Graphs.StateGraph.AddNode: adding a node whose name is already taken is excluded by its precondition, where LangGraph raises. Neither engine does it.
- Graphs.StateGraph.AddConditionalEdges: a node that already has an outgoing edge is excluded by its precondition, where LangGraph would add a second, parallel edge. Neither engine does it.
- Graphs.StateGraph.AddEdge: a second edge out of the same node, which LangGraph would fan out in parallel, is excluded. Neither engine adds one.
- `uuid.uuid4()` is not modelled. The fresh document id is a parameter.
- Grounding.VerifyGrounding: only ASCII letters are lower-cased, not Python's full Unicode `lower()`.
- UnifiedExtractor.CleanJsonText: the bare `except` guards only against non-string input, which the typed model cannot receive.
- The HTTP and streaming layers (`src/unified_main.py`, `src/main.py`), the document parser and the PII scrubber are not part of this model.
