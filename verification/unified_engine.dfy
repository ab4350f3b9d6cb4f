/**
 * src/core/unified_engine.py: the two-path engine. A router node sends a run either
 * down the analysis path (brain -> indexer -> END) or, once an analysis has succeeded,
 * into the chat loop (chat_agent <-> tools).
 */
module UnifiedEngine {
  import opened Wrappers
  import opened Messages
  import opened Graphs
  import opened UnifiedExtractor
  import Text
  import Rag

  /**
   * `AgentState`. An absent `raw_text`, `is_legal`, `final_summary` or `mode` is None;
   * an absent `errors` is [], which every read of it treats alike.
   */
  datatype State = State(
    messages: seq<Message>,
    rawText: Option<string>,
    isLegal: Option<bool>,
    finalSummary: Option<Dict>,
    mode: Option<string>,
    errors: seq<string>)

  /** The dict a node returns: the keys it sets (no node sets `raw_text`). */
  datatype Patch = Patch(
    messages: seq<Message>,
    isLegal: Upd<bool>,
    finalSummary: Upd<Dict>,
    mode: Upd<Option<string>>,
    errors: Upd<seq<string>>)

  /** The empty dict `{}`. */
  const NoUpdate: Patch := Patch([], Keep, Keep, Keep, Keep)

  /**
   * How LangGraph applies a patch to `AgentState`: `messages` has the `add_messages`
   * reducer and is appended to; every other key present overwrites; absent keys are kept.
   */
  function Merge(s: State, p: Patch): (r: State)
    ensures r.messages == s.messages + p.messages && r.rawText == s.rawText
    ensures r.isLegal == if p.isLegal.Put? then Some(p.isLegal.value) else s.isLegal
    ensures r.finalSummary == if p.finalSummary.Put? then Some(p.finalSummary.value) else s.finalSummary
    ensures r.mode == if p.mode.Put? then p.mode.value else s.mode
    ensures r.errors == if p.errors.Put? then p.errors.value else s.errors
    ensures p.isLegal.Keep? && p.finalSummary.Keep? && p.mode.Keep? && p.errors.Keep? ==>
      r == s.(messages := s.messages + p.messages)
  {
    State(
      s.messages + p.messages,
      s.rawText,
      p.isLegal.Onto(s.isLegal),
      p.finalSummary.Onto(s.finalSummary),
      p.mode.Or(s.mode),
      p.errors.Or(s.errors))
  }

  /** The empty patch leaves the state as it is. */
  lemma MergeNoUpdate(s: State)
    ensures Merge(s, NoUpdate) == s
  {
  }

  // ---------------------------------------------------------------------------
  // route_entry
  // ---------------------------------------------------------------------------

  /** Python truthiness of `final_summary`: present and a non-empty dict. */
  predicate Truthy(summary: Option<Dict>) {
    summary.Some? && summary.value != map[]
  }

  /**
   * `route_entry`: "analyze" always analyses; "chat" reaches the chat agent only after a
   * successful analysis; anything else falls back to analysis.
   */
  function RouteEntry(s: State): (r: string)
    ensures r == "brain" || r == "chat_agent"
    ensures s.mode == Some("analyze") ==> r == "brain"
    ensures r == "chat_agent" <==> s.mode == Some("chat") && Truthy(s.finalSummary) && s.errors == []
  {
    if s.mode == Some("analyze") then "brain"
    else if s.mode == Some("chat") then
      if Truthy(s.finalSummary) && s.errors == [] then "chat_agent" else "brain"
    else "brain"
  }

  /** The router node's patch `{"mode": state.get("mode")}`. */
  function RouterPatch(s: State): (p: Patch)
    ensures Merge(s, p) == s
  {
    NoUpdate.(mode := Put(s.mode))
  }

  // ---------------------------------------------------------------------------
  // brain_node and indexer_node
  // ---------------------------------------------------------------------------

  /** A node's result: its patch and what it wrote to the index, or the fault it raised. */
  datatype Step = Done(patch: Patch, indexed: seq<Rag.Entry>) | Failed(fault: Fault)

  const NOT_LEGAL: string := "Not a recognized legal document."
  const BRAIN_ERROR: string := "Brain error: "
  /** The brain sees at most this many characters of the document. */
  const BRAIN_LIMIT: nat := 15000

  /**
   * `brain_node`: run the unified agent on the first 15000 characters. A missing
   * `raw_text` raises before the `try`; a result without a true `is_legal` marks the
   * document as not legal; an exception becomes an error entry and nothing else.
   */
  function BrainNode(s: State, useLocalAi: Option<string>, agent: Collaborators): (r: Step)
    ensures s.rawText.None? <==> r == Failed(MissingKey("raw_text"))
    ensures s.rawText.Some? ==> r.Done?
    ensures r.Done? ==> r.patch.messages == [] && r.patch.mode.Keep? && r.indexed == []
    ensures r.Done? ==>
      var result := InvokeUnifiedAgent(useLocalAi, agent, Text.Prefix(s.rawText.value, BRAIN_LIMIT));
      match result
      case Raised(e) => r.patch == NoUpdate.(errors := Put([BRAIN_ERROR + e]))
      case NoRecord => r.patch == NoUpdate.(isLegal := Put(false), errors := Put([NOT_LEGAL]))
      case Response(v) =>
        if v.isLegal then r.patch == NoUpdate.(isLegal := Put(true), finalSummary := Put(ModelDump(v)), errors := Put([]))
        else r.patch == NoUpdate.(isLegal := Put(false), errors := Put([NOT_LEGAL]))
  {
    match s.rawText
    case None => Failed(MissingKey("raw_text"))
    case Some(rawText) =>
      var patch :=
        match InvokeUnifiedAgent(useLocalAi, agent, Text.Prefix(rawText, BRAIN_LIMIT))
        case Raised(e) => NoUpdate.(errors := Put([BRAIN_ERROR + e]))
        case NoRecord => NoUpdate.(isLegal := Put(false), errors := Put([NOT_LEGAL]))
        case Response(v) =>
          if v.isLegal then NoUpdate.(isLegal := Put(true), finalSummary := Put(ModelDump(v)), errors := Put([]))
          else NoUpdate.(isLegal := Put(false), errors := Put([NOT_LEGAL]));
      Done(patch, [])
  }

  /** The agent's answer counts as a legal analysis. */
  predicate IsLegalResult(result: AgentResult) {
    result.Response? && result.response.isLegal
  }

  /**
   * The brain's patch is what opens the chat path: in chat mode, after merging it the
   * router sends the next request to the chat agent exactly when the agent answered
   * with a legal analysis.
   */
  lemma BrainGatesChat(s: State, useLocalAi: Option<string>, agent: Collaborators)
    requires s.rawText.Some? && s.mode == Some("chat")
    ensures var step := BrainNode(s, useLocalAi, agent);
      var result := InvokeUnifiedAgent(useLocalAi, agent, Text.Prefix(s.rawText.value, BRAIN_LIMIT));
      && step.Done?
      && (RouteEntry(Merge(s, step.patch)) == "chat_agent" <==> IsLegalResult(result))
  {
    var step := BrainNode(s, useLocalAi, agent);
    var result := InvokeUnifiedAgent(useLocalAi, agent, Text.Prefix(s.rawText.value, BRAIN_LIMIT));
    if IsLegalResult(result) {
      assert Merge(s, step.patch).finalSummary == Some(ModelDump(result.response));
    }
  }

  /** Only the first 15000 characters of the document reach the agent. */
  lemma BrainSeesPrefix(s: State, t: State, useLocalAi: Option<string>, agent: Collaborators)
    requires s.rawText.Some? && t.rawText.Some?
    requires |s.rawText.value| >= BRAIN_LIMIT && |t.rawText.value| >= BRAIN_LIMIT
    requires s.rawText.value[..BRAIN_LIMIT] == t.rawText.value[..BRAIN_LIMIT]
    ensures BrainNode(s, useLocalAi, agent) == BrainNode(t, useLocalAi, agent)
  {
    assert Text.Prefix(s.rawText.value, BRAIN_LIMIT) == Text.Prefix(t.rawText.value, BRAIN_LIMIT);
  }

  /** What `indexer_node` writes to the index: the raw text, when it is present and non-empty. */
  function IndexedRaw(rawText: Option<string>, docId: string): seq<Rag.Entry> {
    if rawText.Some? && rawText.value != "" then [Rag.Entry(docId, rawText.value)] else []
  }

  /** `indexer_node`: index the raw text under a fresh id and return `{}`. */
  function IndexerNode(s: State, docId: string): (r: Step)
    ensures r.Done? && r.patch == NoUpdate
    ensures |r.indexed| <= 1
    ensures r.indexed != [] <==> s.rawText.Some? && s.rawText.value != ""
    ensures r.indexed != [] ==> r.indexed[0] == Rag.Entry(docId, s.rawText.value)
  {
    Done(NoUpdate, IndexedRaw(s.rawText, docId))
  }

  // ---------------------------------------------------------------------------
  // chat_agent
  // ---------------------------------------------------------------------------

  const FALLBACK: string := "Sorry, I'm having trouble " + "thinking clearly. " + "Let's try that question again?"
  const CORRECTION: string :=
    "Your last response had invalid XML. Respond in plain text only, no tags. Use tools internally if needed."
  /** `for _ in range(2)`. */
  const MAX_ATTEMPTS: nat := 2

  /** A response whose string content shows tool-call markup. */
  predicate Leaks(m: Message): (b: bool)
    ensures b <==> (m.content.Text? &&
                    (Text.IsInfix("<function_calls>", m.content.text) || Text.IsInfix("<invoke>", m.content.text)))
  {
    m.content.Text? &&
    (Text.Contains("<function_calls>", m.content.text) || Text.Contains("<invoke>", m.content.text))
  }

  /** The fallback answer shows no markup. */
  lemma FallbackDoesNotLeak()
    ensures !Leaks(AIMessage(FALLBACK))
  {
    assert '<' !in "Sorry, I'm having trouble ";
    assert '<' !in "thinking clearly. ";
    assert '<' !in "Let's try that question again?";
    NoAngleNoTag("<function_calls>", FALLBACK);
    NoAngleNoTag("<invoke>", FALLBACK);
  }

  /** A text without '<' contains no tag. */
  lemma NoAngleNoTag(tag: string, s: string)
    requires tag != [] && tag[0] == '<' && '<' !in s
    ensures !Text.IsInfix(tag, s)
  {
  }

  /** How a summary value reads inside the f-string. */
  function Show(v: Value): (r: string)
    ensures v.Str? ==> r == v.s
    ensures v.Bool? ==> (r == "True" <==> v.b) && (r == "False" <==> !v.b)
  {
    match v
    case Bool(b) => if b then "True" else "False"
    case Str(t) => t
  }

  /** `summary.get(key, default)` on `state.get("final_summary", {})`. */
  function SummaryField(summary: Option<Dict>, key: string, default: string): (r: string)
    ensures summary.None? ==> r == default
    ensures summary.Some? && key !in summary.value ==> r == default
    ensures summary.Some? && key in summary.value && summary.value[key].Str? ==> r == summary.value[key].s
  {
    if summary.Some? && key in summary.value then Show(summary.value[key]) else default
  }

  /**
   * The coach's system prompt: its opening lines with the document type and the verdict
   * filled in; the guidance on tool use and output format that follows them is left out.
   */
  function CoachPrompt(docType: string, verdict: string): (r: string)
    ensures Text.OccursAt(docType, r, |COACH_OPENING|)
    ensures Text.OccursAt(verdict, r, |COACH_OPENING| + |docType| + |COACH_VERDICT|)
  {
    var r := COACH_OPENING + docType + COACH_VERDICT + verdict + "\n";
    assert r[|COACH_OPENING|..|COACH_OPENING| + |docType|] == docType;
    assert r[|COACH_OPENING| + |docType| + |COACH_VERDICT|..][..|verdict|] == verdict;
    r
  }

  /** The prompt's lines up to the document type, and between it and the verdict. */
  const COACH_OPENING: string :=
    "You are a supportive Legal Career Coach.\n"
    + "        Background (reference only, do NOT repeat):\n"
    + "        - Document: "
  const COACH_VERDICT: string := "\n        - Recommendation: "

  /** The coach prompt reads the document type and the verdict from the brain's `model_dump()`. */
  lemma CoachSeesAnalysis(v: UnifiedLegalResponse)
    ensures SummaryField(Some(ModelDump(v)), "doc_type", "the agreement") == v.docType
    ensures SummaryField(Some(ModelDump(v)), "verdict", "N/A") == v.verdict
  {
  }

  /** The prompt list: one system message, then the conversation so far. */
  function ChatPrompt(s: State): (prompt: seq<Message>)
    ensures |prompt| == |s.messages| + 1 && prompt[1..] == s.messages
    ensures prompt[0].role == System
  {
    [SystemMessage(CoachPrompt(
      SummaryField(s.finalSummary, "doc_type", "the agreement"),
      SummaryField(s.finalSummary, "verdict", "N/A")))]
    + s.messages
  }

  /** The prompt lists the model was called with, and how the attempts ended. */
  datatype Consultation = Consultation(calls: seq<seq<Message>>, outcome: Outcome<Message>)

  /**
   * Up to `left` attempts on the prompt list `prompt`: a leaking response is appended
   * with a correction and the model is asked again; a clean one is the answer; when
   * no attempt is left the answer is the fallback. An exception from the model ends it.
   */
  function Consult(prompt: seq<Message>, llm: seq<Message> -> Outcome<Message>, left: nat): (c: Consultation)
    ensures |c.calls| <= left
    ensures left > 0 ==> |c.calls| >= 1 && c.calls[0] == prompt
    decreases left
  {
    if left == 0 then Consultation([], Ok(AIMessage(FALLBACK)))
    else
      match llm(prompt)
      case Raise(e) => Consultation([prompt], Raise(e))
      case Ok(response) =>
        if Leaks(response) then
          var rest := Consult(prompt + [response, SystemMessage(CORRECTION)], llm, left - 1);
          Consultation([prompt] + rest.calls, rest.outcome)
        else Consultation([prompt], Ok(response))
  }

  /** The chat node's result, specified through `Consult`: one message appended, nothing else touched. */
  function ChatStep(s: State, llm: seq<Message> -> Outcome<Message>): (r: Step)
    ensures r.Done? ==> |r.patch.messages| == 1 && r.indexed == [] && r.patch == NoUpdate.(messages := r.patch.messages)
  {
    match Consult(ChatPrompt(s), llm, MAX_ATTEMPTS).outcome
    case Raise(e) => Failed(NodeError(e))
    case Ok(reply) => Done(NoUpdate.(messages := [reply]), [])
  }

  /** `chat_agent`: the retry loop over a local copy of the prompt list. */
  method ChatAgent(s: State, llm: seq<Message> -> Outcome<Message>) returns (r: Step)
    ensures r == ChatStep(s, llm)
    ensures r.Done? ==> |r.patch.messages| == 1 && r.indexed == []
    ensures r.Done? ==> Merge(s, r.patch) == s.(messages := s.messages + r.patch.messages)
  {
    var messages := ChatPrompt(s);
    for i := 0 to MAX_ATTEMPTS
      invariant Consult(messages, llm, MAX_ATTEMPTS - i).outcome == Consult(ChatPrompt(s), llm, MAX_ATTEMPTS).outcome
    {
      var response := llm(messages);
      if response.Raise? {
        return Failed(NodeError(response.error));
      }
      if Leaks(response.value) {
        messages := messages + [response.value, SystemMessage(CORRECTION)];
      } else {
        return Done(NoUpdate.(messages := [response.value]), []);
      }
    }
    r := Done(NoUpdate.(messages := [AIMessage(FALLBACK)]), []);
  }

  /**
   * The prompt lists of successive calls: each one after the first repeats the
   * previous list plus the rejected response and one correction, and every one starts
   * with `prompt`.
   */
  ghost predicate Chained(prompt: seq<Message>, llm: seq<Message> -> Outcome<Message>, calls: seq<seq<Message>>) {
    && (forall i :: 0 <= i < |calls| ==> |calls[i]| == |prompt| + 2 * i && calls[i][..|prompt|] == prompt)
    && (forall i :: 0 <= i < |calls| - 1 ==>
          llm(calls[i]).Ok? && Leaks(llm(calls[i]).value)
          && calls[i + 1] == calls[i] + [llm(calls[i]).value, SystemMessage(CORRECTION)])
  }

  /** The calls `Consult` makes are chained, so the state's own messages are passed on unchanged. */
  lemma {:induction false} ConsultCalls(prompt: seq<Message>, llm: seq<Message> -> Outcome<Message>, left: nat)
    ensures Chained(prompt, llm, Consult(prompt, llm, left).calls)
    decreases left
  {
    var c := Consult(prompt, llm, left);
    if left > 0 && llm(prompt).Ok? && Leaks(llm(prompt).value) {
      var next := prompt + [llm(prompt).value, SystemMessage(CORRECTION)];
      ConsultCalls(next, llm, left - 1);
      var rest := Consult(next, llm, left - 1);
      assert c.calls == [prompt] + rest.calls;
      forall i | 0 <= i < |c.calls|
        ensures |c.calls[i]| == |prompt| + 2 * i && c.calls[i][..|prompt|] == prompt
      {
        if i > 0 {
          assert c.calls[i] == rest.calls[i - 1];
          assert next[..|prompt|] == prompt;
          assert c.calls[i][..|prompt|] == rest.calls[i - 1][..|next|][..|prompt|];
        }
      }
      forall i | 0 <= i < |c.calls| - 1
        ensures llm(c.calls[i]).Ok? && Leaks(llm(c.calls[i]).value)
        ensures c.calls[i + 1] == c.calls[i] + [llm(c.calls[i]).value, SystemMessage(CORRECTION)]
      {
        if i > 0 {
          assert c.calls[i] == rest.calls[i - 1] && c.calls[i + 1] == rest.calls[i];
        } else {
          assert c.calls[1] == rest.calls[0] == next;
        }
      }
    }
  }

  /** What becomes of the model's last response: a clean one is the answer, a leaking one gives way to the fallback. */
  function Settle(response: Outcome<Message>): (r: Outcome<Message>)
    ensures r.Raise? <==> response.Raise?
    ensures r.Ok? ==> !Leaks(r.value)
    ensures r.Ok? ==> r.value == response.value || r.value == AIMessage(FALLBACK)
  {
    FallbackDoesNotLeak();
    match response
    case Raise(e) => Raise(e)
    case Ok(m) => if Leaks(m) then Ok(AIMessage(FALLBACK)) else Ok(m)
  }

  /**
   * How the attempts end: as the last call's response settles, and when that response
   * leaked too, only after every attempt was used.
   */
  lemma {:induction false} ConsultOutcome(prompt: seq<Message>, llm: seq<Message> -> Outcome<Message>, left: nat)
    requires left > 0
    ensures var c := Consult(prompt, llm, left);
      && c.outcome == Settle(llm(c.calls[|c.calls| - 1]))
      && (llm(c.calls[|c.calls| - 1]).Ok? && Leaks(llm(c.calls[|c.calls| - 1]).value) ==> |c.calls| == left)
    decreases left
  {
    var c := Consult(prompt, llm, left);
    if llm(prompt).Ok? && Leaks(llm(prompt).value) && left > 1 {
      var next := prompt + [llm(prompt).value, SystemMessage(CORRECTION)];
      ConsultOutcome(next, llm, left - 1);
      var rest := Consult(next, llm, left - 1);
      assert c.calls[|c.calls| - 1] == rest.calls[|rest.calls| - 1];
    }
  }

  /**
   * `chat_agent` calls the model at most twice, first on the coach prompt, and answers
   * with exactly one message that shows no markup: the response to its last call, or
   * the fallback once both attempts leaked. A clean first response is returned as it is.
   */
  lemma ChatAgentAnswers(s: State, llm: seq<Message> -> Outcome<Message>)
    ensures var c := Consult(ChatPrompt(s), llm, MAX_ATTEMPTS);
      && 1 <= |c.calls| <= MAX_ATTEMPTS
      && c.calls[0] == ChatPrompt(s)
      && (ChatStep(s, llm).Done? ==>
            var reply := ChatStep(s, llm).patch.messages;
            |reply| == 1 && !Leaks(reply[0])
            && (reply[0] == AIMessage(FALLBACK) || reply[0] == llm(c.calls[|c.calls| - 1]).value))
      && (llm(ChatPrompt(s)).Ok? && !Leaks(llm(ChatPrompt(s)).value) ==>
            ChatStep(s, llm) == Done(NoUpdate.(messages := [llm(ChatPrompt(s)).value]), []))
  {
    ConsultOutcome(ChatPrompt(s), llm, MAX_ATTEMPTS);
  }

  /** A model that always leaks markup gets two tries, and the user gets the fallback. */
  lemma AlwaysLeakingModelFallsBack(s: State, llm: seq<Message> -> Outcome<Message>)
    requires forall p :: llm(p).Ok? && Leaks(llm(p).value)
    ensures |Consult(ChatPrompt(s), llm, MAX_ATTEMPTS).calls| == MAX_ATTEMPTS
    ensures ChatStep(s, llm) == Done(NoUpdate.(messages := [AIMessage(FALLBACK)]), [])
  {
    var c := Consult(ChatPrompt(s), llm, MAX_ATTEMPTS);
    ConsultOutcome(ChatPrompt(s), llm, MAX_ATTEMPTS);
    assert llm(c.calls[|c.calls| - 1]).Ok?;
  }

  // ---------------------------------------------------------------------------
  // The tool loop
  // ---------------------------------------------------------------------------

  /** A tool result message. */
  function ToolMessage(content: string): Message {
    Message(Tool, Text(content), [])
  }

  /**
   * `tools_condition`: "tools" when the last message is the model's and asks for tool
   * calls (only an AI message carries `tool_calls`), END when it does not; with no
   * message at all it raises (None).
   */
  function ToolsCondition(s: State): (r: Option<string>)
    ensures r.None? <==> s.messages == []
    ensures r == Some("tools") <==> s.messages != [] && CallsTools(s.messages[|s.messages| - 1])
    ensures r.Some? ==> r.value == "tools" || r.value == END
  {
    if s.messages == [] then None
    else if CallsTools(s.messages[|s.messages| - 1]) then Some("tools")
    else Some(END)
  }

  /** `m` is a model message that requests tool calls. */
  predicate CallsTools(m: Message) {
    m.role == AI && m.toolCalls != []
  }

  /**
   * `ToolNode`: run each tool call of the last message, which must be the model's,
   * and answer with one tool message per call, in order.
   */
  function ToolsNode(s: State, runTool: ToolCall -> string): (r: Step)
    ensures r.Done? <==> s.messages != [] && s.messages[|s.messages| - 1].role == AI
    ensures r.Done? ==>
      var calls := s.messages[|s.messages| - 1].toolCalls;
      && Merge(s, r.patch) == s.(messages := s.messages + r.patch.messages)
      && |r.patch.messages| == |calls| && r.indexed == []
      && forall i :: 0 <= i < |calls| ==> r.patch.messages[i] == ToolMessage(runTool(calls[i]))
  {
    if s.messages == [] || s.messages[|s.messages| - 1].role != AI then
      Failed(NodeError("No AIMessage found in input"))
    else
      var calls := s.messages[|s.messages| - 1].toolCalls;
      Done(NoUpdate.(messages := seq(|calls|, i requires 0 <= i < |calls| => ToolMessage(runTool(calls[i])))), [])
  }

  // ---------------------------------------------------------------------------
  // The graph
  // ---------------------------------------------------------------------------

  datatype NodeId = EntryRouter | Brain | Indexer | Chat | Tools

  /** The two conditional edges' routers: `route_entry` and `tools_condition`. */
  datatype Condition = ByRouteEntry | ByToolsCondition

  /** The graph `create_legal_engine` compiles. */
  function EngineGraph(): Compiled<NodeId, Condition> {
    Compiled(
      EntryRouter,
      {Brain, Indexer, Chat, Tools, EntryRouter},
      map[
        EntryRouter := Conditional(ByRouteEntry, map["brain" := To(Brain), "chat_agent" := To(Chat)]),
        Brain := Direct(To(Indexer)),
        Indexer := Direct(End),
        Chat := Conditional(ByToolsCondition, map["tools" := To(Tools), END := End]),
        Tools := Direct(To(Chat))])
  }

  /** `create_legal_engine`: the graph built by successive builder calls. */
  method CreateLegalEngine() returns (g: Compiled<NodeId, Condition>)
    ensures g == EngineGraph()
  {
    var workflow := new StateGraph<NodeId, Condition>();
    workflow.AddNode(Brain);
    workflow.AddNode(Indexer);
    workflow.AddNode(Chat);
    workflow.AddNode(Tools);
    workflow.AddNode(EntryRouter);
    workflow.SetEntryPoint(EntryRouter);
    workflow.AddConditionalEdges(EntryRouter, ByRouteEntry, map["brain" := To(Brain), "chat_agent" := To(Chat)]);
    workflow.AddEdge(Brain, To(Indexer));
    workflow.AddEdge(Indexer, End);
    workflow.AddConditionalEdges(Chat, ByToolsCondition, map["tools" := To(Tools), END := End]);
    workflow.AddEdge(Tools, To(Chat));
    g := workflow.Compile();
  }

  /** The routers' answers on state `s`. */
  function Route(s: State): Condition -> Option<string> {
    (c: Condition) => match c
      case ByRouteEntry => Some(RouteEntry(s))
      case ByToolsCondition => ToolsCondition(s)
  }

  /**
   * The edges: the router picks brain or chat_agent by `route_entry`; brain leads to
   * the indexer and the indexer to END; chat_agent leads to tools while the model asks
   * for tools and to END otherwise; tools lead back to chat_agent.
   */
  lemma Successors(s: State)
    ensures Next(EngineGraph(), EntryRouter, Route(s)) ==
      Some(if RouteEntry(s) == "brain" then To(Brain) else To(Chat))
    ensures Next(EngineGraph(), Brain, Route(s)) == Some(To(Indexer))
    ensures Next(EngineGraph(), Indexer, Route(s)) == Some(End)
    ensures Next(EngineGraph(), Chat, Route(s)) ==
      if s.messages == [] then None
      else if CallsTools(s.messages[|s.messages| - 1]) then Some(To(Tools)) else Some(End)
    ensures Next(EngineGraph(), Tools, Route(s)) == Some(To(Chat))
  {
    assert END != "tools";
  }

  // ---------------------------------------------------------------------------
  // A run
  // ---------------------------------------------------------------------------

  /** Everything outside the graph that a run calls. */
  datatype Env = Env(
    /** the `USE_LOCAL_AI` environment variable */
    useLocalAi: Option<string>,
    /** the unified agent's model calls */
    agent: Collaborators,
    /** the chat model with the retrieval tool bound */
    llm: seq<Message> -> Outcome<Message>,
    /** the retrieval tool */
    runTool: ToolCall -> string,
    /** the id the indexer draws */
    docId: string)

  /** Runs the node `n`: the functions `add_node` registers under the node names. */
  function Execute(n: NodeId, s: State, env: Env): Step {
    match n
    case EntryRouter => Done(RouterPatch(s), [])
    case Brain => BrainNode(s, env.useLocalAi, env.agent)
    case Indexer => IndexerNode(s, env.docId)
    case Chat => ChatStep(s, env.llm)
    case Tools => ToolsNode(s, env.runTool)
  }

  /**
   * What the nodes do to a run: only the indexer writes to the index, only chat_agent
   * and tools add messages, and the router and the indexer never raise.
   */
  lemma ExecuteRoles(n: NodeId, s: State, env: Env)
    ensures var r := Execute(n, s, env);
      && (r.Done? && r.indexed != [] ==> n == Indexer)
      && (r.Done? && r.patch.messages != [] ==> n == Chat || n == Tools)
      && (n == EntryRouter || n == Indexer ==> r.Done?)
  {
  }

  /** Calls the node `n`: the chat agent through its retry loop, the others directly. */
  method RunNode(n: NodeId, s: State, env: Env) returns (step: Step)
    ensures step == Execute(n, s, env)
  {
    if n == Chat {
      step := ChatAgent(s, env.llm);
    } else {
      step := Execute(n, s, env);
    }
  }

  /** One completed node and the patch it returned. */
  datatype Event = Event(node: NodeId, patch: Patch)

  /** The events of a run, the fault that aborted it if any, and what it wrote to the index. */
  datatype Run = Run(events: seq<Event>, fault: Option<Fault>, indexed: seq<Rag.Entry>)

  /** The state after applying the patches of `events` in order. */
  function Apply(s: State, events: seq<Event>): State
    decreases |events|
  {
    if events == [] then s
    else Merge(Apply(s, events[..|events| - 1]), events[|events| - 1].patch)
  }

  /** The nodes of the analysis path. */
  const ANALYSIS: seq<NodeId> := [EntryRouter, Brain, Indexer]

  /** The `k`th node of the chat path: the router, then chat_agent and tools in turn. */
  function ChatPath(k: nat): NodeId {
    if k == 0 then EntryRouter else if k % 2 == 1 then Chat else Tools
  }

  /** After the router, chat_agent and tools take turns. */
  lemma ChatPathAlternates(k: nat)
    requires k >= 1
    ensures ChatPath(k + 1) == if ChatPath(k) == Chat then Tools else Chat
  {
  }

  /** The node a run starting from `init` executes `k`th, if it gets that far. */
  function Planned(init: State, k: nat): Option<NodeId> {
    if RouteEntry(init) == "chat_agent" then Some(ChatPath(k))
    else if k < |ANALYSIS| then Some(ANALYSIS[k])
    else None
  }

  /**
   * `events` is how a run starting from `init` begins: each node the planned one and
   * the one the graph's edges lead to, each patch the one that node returns on the
   * state so far.
   */
  ghost predicate IsTrace(init: State, env: Env, events: seq<Event>) {
    && (forall k :: 0 <= k < |events| ==> Planned(init, k) == Some(events[k].node))
    && (forall k :: 0 <= k < |events| ==>
          Produced(init, env, events[..k], events[k]) && Reached(init, events[..k], events[k].node))
  }

  /**
   * The graph leads to node `n` after `prefix`: `n` is the entry point, or the edge out
   * of the last node, routed on the state after `prefix`, leads to `n`.
   */
  ghost predicate Reached(init: State, prefix: seq<Event>, n: NodeId) {
    if prefix == [] then n == EngineGraph().entry
    else Next(EngineGraph(), prefix[|prefix| - 1].node, Route(Apply(init, prefix))) == Some(To(n))
  }

  /** The edge out of the last node of `events`, routed on `s`, leads to END. */
  ghost predicate ReachedEnd(events: seq<Event>, s: State) {
    events != [] && Next(EngineGraph(), events[|events| - 1].node, Route(s)) == Some(End)
  }

  /** Event `e` is what its node returns on the state after `prefix`. */
  ghost predicate Produced(init: State, env: Env, prefix: seq<Event>, e: Event) {
    var step := Execute(e.node, Apply(init, prefix), env);
    step.Done? && step.patch == e.patch
  }

  /** The patches only add messages at the end and never touch `raw_text`. */
  lemma {:induction false} ApplyAppends(s: State, events: seq<Event>)
    ensures |Apply(s, events).messages| >= |s.messages|
    ensures Apply(s, events).messages[..|s.messages|] == s.messages
    ensures Apply(s, events).rawText == s.rawText
    decreases |events|
  {
    if events != [] {
      ApplyAppends(s, events[..|events| - 1]);
    }
  }

  /** Applying one more event merges its patch. */
  lemma ApplyExtends(init: State, events: seq<Event>, e: Event)
    ensures Apply(init, events + [e]) == Merge(Apply(init, events), e.patch)
  {
    assert (events + [e])[..|events|] == events;
  }

  /** Running the planned node the edges lead to extends a trace. */
  lemma {:induction false} TraceExtends(init: State, env: Env, events: seq<Event>, e: Event)
    requires IsTrace(init, env, events)
    requires Planned(init, |events|) == Some(e.node) && Reached(init, events, e.node)
    requires Produced(init, env, events, e)
    ensures IsTrace(init, env, events + [e])
  {
    var events' := events + [e];
    assert events'[..|events|] == events;
    forall k | 0 <= k < |events'|
      ensures Planned(init, k) == Some(events'[k].node)
      ensures Produced(init, env, events'[..k], events'[k]) && Reached(init, events'[..k], events'[k].node)
    {
      if k < |events| {
        assert events'[..k] == events[..k] && events'[k] == events[k];
      } else {
        assert events'[..k] == events && events'[k] == e;
      }
    }
  }

  /** Once the edge out of its `k`th node leads to END, a trace has no further node. */
  lemma EndIsLast(init: State, env: Env, events: seq<Event>, k: nat)
    requires IsTrace(init, env, events) && 0 < k <= |events|
    requires Next(EngineGraph(), events[k - 1].node, Route(Apply(init, events[..k]))) == Some(End)
    ensures |events| == k
  {
  }

  /** A run that has completed `events` and will run `node` next. */
  ghost predicate Ready(init: State, env: Env, events: seq<Event>, s: State, indexed: seq<Rag.Entry>, node: NodeId) {
    && s == Apply(init, events)
    && Planned(init, |events|) == Some(node)
    && Reached(init, events, node)
    && s.rawText == init.rawText
    && indexed == []
  }

  /** A run that has reached END after `events`. */
  ghost predicate Finished(init: State, env: Env, events: seq<Event>, s: State, indexed: seq<Rag.Entry>) {
    && s == Apply(init, events)
    && ReachedEnd(events, s)
    && (RouteEntry(init) == "brain" ==> |events| == |ANALYSIS| && indexed == IndexedRaw(init.rawText, env.docId))
    && (RouteEntry(init) == "chat_agent" ==> |events| >= 2 && events[|events| - 1].node == Chat && indexed == [])
  }

  /**
   * What one iteration of a run from a ready state achieves: the planned node either
   * raises, or its patch leaves the run ready for the next planned node or finished.
   */
  ghost predicate Advanced(init: State, env: Env, events: seq<Event>, s: State, indexed: seq<Rag.Entry>, n: NodeId) {
    var step := Execute(n, s, env);
    && (step.Failed? ==> !step.fault.RecursionLimit?)
    && (step.Done? ==>
          var events' := events + [Event(n, step.patch)];
          var s' := Merge(s, step.patch);
          var next := Next(EngineGraph(), n, Route(s'));
          && next.Some?
          && (next.value == End ==> Finished(init, env, events', s', indexed + step.indexed))
          && (next.value != End ==> Ready(init, env, events', s', indexed + step.indexed, next.value.node)))
  }

  /** After node `n` has run, the edge taken from it is the one `Reached` and `ReachedEnd` speak of. */
  lemma Linked(init: State, events: seq<Event>, e: Event)
    ensures var s' := Apply(init, events + [e]);
      var next := Next(EngineGraph(), e.node, Route(s'));
      && (next == Some(End) ==> ReachedEnd(events + [e], s'))
      && (next.Some? && next.value != End ==> Reached(init, events + [e], next.value.node))
  {
  }

  lemma AdvanceRouter(init: State, env: Env, events: seq<Event>, s: State, indexed: seq<Rag.Entry>)
    requires Ready(init, env, events, s, indexed, EntryRouter)
    ensures Advanced(init, env, events, s, indexed, EntryRouter)
  {
    var step := Execute(EntryRouter, s, env);
    assert |events| == 0 && s == init;
    ApplyExtends(init, events, Event(EntryRouter, step.patch));
    Linked(init, events, Event(EntryRouter, step.patch));
    Successors(init);
  }

  lemma AdvanceBrain(init: State, env: Env, events: seq<Event>, s: State, indexed: seq<Rag.Entry>)
    requires Ready(init, env, events, s, indexed, Brain)
    ensures Advanced(init, env, events, s, indexed, Brain)
  {
    var step := Execute(Brain, s, env);
    assert |events| == 1 && RouteEntry(init) == "brain";
    if step.Done? {
      ApplyExtends(init, events, Event(Brain, step.patch));
      Linked(init, events, Event(Brain, step.patch));
      Successors(Merge(s, step.patch));
    }
  }

  lemma AdvanceIndexer(init: State, env: Env, events: seq<Event>, s: State, indexed: seq<Rag.Entry>)
    requires Ready(init, env, events, s, indexed, Indexer)
    ensures Advanced(init, env, events, s, indexed, Indexer)
  {
    var step := Execute(Indexer, s, env);
    assert |events| == 2 && RouteEntry(init) == "brain";
    ApplyExtends(init, events, Event(Indexer, step.patch));
    Linked(init, events, Event(Indexer, step.patch));
    Successors(Merge(s, step.patch));
  }

  lemma AdvanceChat(init: State, env: Env, events: seq<Event>, s: State, indexed: seq<Rag.Entry>)
    requires Ready(init, env, events, s, indexed, Chat)
    ensures Advanced(init, env, events, s, indexed, Chat)
  {
    var step := Execute(Chat, s, env);
    if step.Done? {
      assert indexed + step.indexed == indexed;
      ChatContinues(init, env, events, s, indexed, step.patch);
    }
  }

  /** After chat_agent appends its one message, the run goes on to tools or ends. */
  lemma ChatContinues(init: State, env: Env, events: seq<Event>, s: State, indexed: seq<Rag.Entry>, patch: Patch)
    requires Ready(init, env, events, s, indexed, Chat)
    requires |patch.messages| == 1 && patch == NoUpdate.(messages := patch.messages)
    ensures var events' := events + [Event(Chat, patch)];
      var s' := Merge(s, patch);
      var next := Next(EngineGraph(), Chat, Route(s'));
      && next.Some?
      && (next.value == End ==> Finished(init, env, events', s', indexed))
      && (next.value != End ==> Ready(init, env, events', s', indexed, next.value.node))
  {
    assert |events| >= 1 && RouteEntry(init) == "chat_agent";
    var events' := events + [Event(Chat, patch)];
    var s' := Merge(s, patch);
    ApplyExtends(init, events, Event(Chat, patch));
    Linked(init, events, Event(Chat, patch));
    assert s'.messages != [];
    Successors(s');
    ChatPathAlternates(|events|);
  }

  lemma AdvanceTools(init: State, env: Env, events: seq<Event>, s: State, indexed: seq<Rag.Entry>)
    requires Ready(init, env, events, s, indexed, Tools)
    ensures Advanced(init, env, events, s, indexed, Tools)
  {
    var step := Execute(Tools, s, env);
    if step.Done? {
      assert indexed + step.indexed == indexed;
      ToolsContinue(init, env, events, s, indexed, step.patch);
    }
  }

  /** After tools append their results, the run goes back to chat_agent. */
  lemma ToolsContinue(init: State, env: Env, events: seq<Event>, s: State, indexed: seq<Rag.Entry>, patch: Patch)
    requires Ready(init, env, events, s, indexed, Tools)
    requires patch == NoUpdate.(messages := patch.messages)
    ensures var events' := events + [Event(Tools, patch)];
      var s' := Merge(s, patch);
      && Next(EngineGraph(), Tools, Route(s')) == Some(To(Chat))
      && Ready(init, env, events', s', indexed, Chat)
  {
    assert |events| >= 1 && RouteEntry(init) == "chat_agent";
    var events' := events + [Event(Tools, patch)];
    var s' := Merge(s, patch);
    ApplyExtends(init, events, Event(Tools, patch));
    Linked(init, events, Event(Tools, patch));
    Successors(s');
    ChatPathAlternates(|events|);
    assert Planned(init, |events'|) == Some(Chat);
    assert Reached(init, events', Chat);
  }

  /** Every iteration of a run from a ready state advances it. */
  lemma Advance(init: State, env: Env, events: seq<Event>, s: State, indexed: seq<Rag.Entry>, n: NodeId)
    requires Ready(init, env, events, s, indexed, n)
    ensures Advanced(init, env, events, s, indexed, n)
  {
    match n
    case EntryRouter => AdvanceRouter(init, env, events, s, indexed);
    case Brain => AdvanceBrain(init, env, events, s, indexed);
    case Indexer => AdvanceIndexer(init, env, events, s, indexed);
    case Chat => AdvanceChat(init, env, events, s, indexed);
    case Tools => AdvanceTools(init, env, events, s, indexed);
  }

  /** What a run that stopped after `run.events`, in state `final`, has done. */
  ghost predicate Accounted(init: State, env: Env, run: Run, final: State) {
    && IsTrace(init, env, run.events) && final == Apply(init, run.events)
    && (run.fault.None? && RouteEntry(init) == "brain" ==>
          |run.events| == |ANALYSIS| && run.indexed == IndexedRaw(init.rawText, env.docId))
    && (run.fault.None? ==> ReachedEnd(run.events, final))
    && (run.fault.None? && RouteEntry(init) == "chat_agent" ==>
          |run.events| >= 2 && run.events[|run.events| - 1].node == Chat && run.indexed == [])
    && (run.fault.Some? ==>
          && run.indexed == [] && Planned(init, |run.events|).Some?
          && Reached(init, run.events, Planned(init, |run.events|).value))
    && (run.fault.Some? && run.fault.value != RecursionLimit ==>
          Execute(Planned(init, |run.events|).value, final, env) == Failed(run.fault.value))
    && |final.messages| >= |init.messages| && final.messages[..|init.messages|] == init.messages
    && final.rawText == init.rawText
  }

  /**
   * The loop of a run: at most `limit` nodes done, and either ready for `node`,
   * finished at END, or stopped by `fault` and accounted for.
   */
  ghost predicate Looping(init: State, env: Env, limit: nat, events: seq<Event>, s: State,
                          indexed: seq<Rag.Entry>, node: Target<NodeId>, fault: Option<Fault>) {
    && |events| <= limit
    && IsTrace(init, env, events)
    && (fault.None? && node != End ==> Ready(init, env, events, s, indexed, node.node))
    && (fault.None? && node == End ==> Finished(init, env, events, s, indexed))
    && (fault.Some? ==> Accounted(init, env, Run(events, fault, indexed), s))
    && (fault == Some(RecursionLimit) ==> |events| == limit)
  }

  /** Running out of budget before the next node stops the run with RecursionLimit. */
  lemma Exhausted(init: State, env: Env, limit: nat, events: seq<Event>, s: State, indexed: seq<Rag.Entry>, n: NodeId)
    requires Looping(init, env, limit, events, s, indexed, To(n), None) && |events| == limit
    ensures Looping(init, env, limit, events, s, indexed, To(n), Some(RecursionLimit))
  {
    ApplyAppends(init, events);
  }

  /** One iteration keeps the loop's invariant, whether the node raises or not. */
  lemma Iterate(init: State, env: Env, limit: nat, events: seq<Event>, s: State, indexed: seq<Rag.Entry>, n: NodeId)
    requires Looping(init, env, limit, events, s, indexed, To(n), None) && |events| < limit
    ensures var step := Execute(n, s, env);
      && (step.Failed? ==> Looping(init, env, limit, events, s, indexed, To(n), Some(step.fault)))
      && (step.Done? ==>
            && Next(EngineGraph(), n, Route(Merge(s, step.patch))).Some?
            && Looping(init, env, limit, events + [Event(n, step.patch)], Merge(s, step.patch),
                       indexed + step.indexed, Next(EngineGraph(), n, Route(Merge(s, step.patch))).value, None))
  {
    Advance(init, env, events, s, indexed, n);
    var step := Execute(n, s, env);
    if step.Failed? {
      ApplyAppends(init, events);
    } else {
      TraceExtends(init, env, events, Event(n, step.patch));
      var events' := events + [Event(n, step.patch)];
      var s' := Merge(s, step.patch);
      var next := Next(EngineGraph(), n, Route(s'));
      if next.value == End {
        ApplyAppends(init, events');
      }
    }
  }

  /** A run that reached END is accounted for. */
  lemma Ended(init: State, env: Env, events: seq<Event>, s: State, indexed: seq<Rag.Entry>)
    requires IsTrace(init, env, events) && Finished(init, env, events, s, indexed)
    ensures Accounted(init, env, Run(events, None, indexed), s)
  {
    ApplyAppends(init, events);
  }

  /**
   * An analysis run whose state holds `raw_text` and whose budget covers its three
   * nodes always completes: none of router, brain and indexer can raise then, so it
   * ends at END having indexed exactly the non-empty raw text.
   */
  lemma AnalysisRunCompletes(init: State, env: Env, limit: nat, run: Run, final: State)
    requires Accounted(init, env, run, final)
    requires |run.events| <= limit && (run.fault == Some(RecursionLimit) ==> |run.events| == limit)
    requires RouteEntry(init) == "brain" && init.rawText.Some? && limit >= |ANALYSIS|
    ensures run.fault.None? && |run.events| == |ANALYSIS|
    ensures run.indexed == IndexedRaw(init.rawText, env.docId)
  {
  }

  /** The chat model never raises and never asks for a tool. */
  ghost predicate AnswersWithoutTools(llm: seq<Message> -> Outcome<Message>) {
    forall p :: llm(p).Ok? && !CallsTools(llm(p).value)
  }

  /** With such a model, chat_agent answers, and its answer sends the run to END. */
  lemma ChatAnswerEnds(s: State, llm: seq<Message> -> Outcome<Message>)
    requires AnswersWithoutTools(llm)
    ensures ChatStep(s, llm).Done?
    ensures var s' := Merge(s, ChatStep(s, llm).patch);
      && |s'.messages| == |s.messages| + 1 && !CallsTools(s'.messages[|s.messages|])
      && Next(EngineGraph(), Chat, Route(s')) == Some(End)
  {
    var c := Consult(ChatPrompt(s), llm, MAX_ATTEMPTS);
    ConsultOutcome(ChatPrompt(s), llm, MAX_ATTEMPTS);
    assert llm(c.calls[|c.calls| - 1]).Ok?;
    ChatAgentAnswers(s, llm);
    Successors(Merge(s, ChatStep(s, llm).patch));
  }

  /**
   * A chat run whose model never raises and never asks for a tool, with a budget of
   * two nodes, always completes: the router, then one chat_agent answer, then END,
   * with exactly one message appended and that message asking for no tool.
   */
  lemma ChatRunCompletes(init: State, env: Env, limit: nat, run: Run, final: State)
    requires Accounted(init, env, run, final)
    requires |run.events| <= limit && (run.fault == Some(RecursionLimit) ==> |run.events| == limit)
    requires RouteEntry(init) == "chat_agent" && AnswersWithoutTools(env.llm) && limit >= 2
    ensures run.fault.None? && |run.events| == 2
    ensures |final.messages| == |init.messages| + 1 && !CallsTools(final.messages[|init.messages|])
  {
    ChatTraceStart(init, env, run.events);
  }

  /**
   * How a chat trace with such a model goes: the router leaves the state as it is,
   * chat_agent answers with one message that asks for no tool, and the edge out of
   * chat_agent then leads to END, so no trace has a third node.
   */
  lemma ChatTraceStart(init: State, env: Env, e: seq<Event>)
    requires IsTrace(init, env, e)
    requires RouteEntry(init) == "chat_agent" && AnswersWithoutTools(env.llm)
    ensures |e| <= 2
    ensures |e| == 1 ==> Apply(init, e) == init && Execute(Chat, init, env).Done?
    ensures |e| == 2 ==>
      var s2 := Apply(init, e);
      && e[1].node == Chat
      && |s2.messages| == |init.messages| + 1 && !CallsTools(s2.messages[|init.messages|])
      && Next(EngineGraph(), Chat, Route(s2)) == Some(End)
  {
    if |e| >= 1 {
      RouterFirst(init, env, e);
      if |e| == 1 {
        assert e[..1] == e;
      }
      ChatAnswerEnds(init, env.llm);
      if |e| >= 2 {
        ChatSecond(init, env, e);
        EndIsLast(init, env, e, 2);
        if |e| == 2 {
          assert e[..2] == e;
        }
      }
    }
  }

  /** A chat trace starts with the router, which leaves the state as it is. */
  lemma RouterFirst(init: State, env: Env, e: seq<Event>)
    requires IsTrace(init, env, e) && |e| >= 1 && RouteEntry(init) == "chat_agent"
    ensures e[0].node == EntryRouter && Apply(init, e[..1]) == init
  {
    assert Planned(init, 0) == Some(e[0].node);
    assert Produced(init, env, e[..0], e[0]);
    assert e[..1][..0] == e[..0];
  }

  /** With a model that never asks for a tool, the second node of a chat trace answers and leads to END. */
  lemma ChatSecond(init: State, env: Env, e: seq<Event>)
    requires IsTrace(init, env, e) && |e| >= 2
    requires RouteEntry(init) == "chat_agent" && AnswersWithoutTools(env.llm)
    ensures var s2 := Apply(init, e[..2]);
      && e[1].node == Chat
      && |s2.messages| == |init.messages| + 1 && !CallsTools(s2.messages[|init.messages|])
      && Next(EngineGraph(), Chat, Route(s2)) == Some(End)
  {
    RouterFirst(init, env, e);
    ChatAnswerEnds(init, env.llm);
    assert Planned(init, 1) == Some(e[1].node);
    assert Produced(init, env, e[..1], e[1]);
    assert e[..2][..1] == e[..1];
  }

  /**
   * `engine.invoke(state)`: follow the compiled graph from the router, merging each
   * node's patch, until END, until a node raises, or until `limit` nodes have run.
   */
  method Invoke(init: State, env: Env, limit: nat) returns (run: Run, final: State)
    ensures Accounted(init, env, run, final)
    ensures |run.events| <= limit
    ensures run.fault == Some(RecursionLimit) ==> |run.events| == limit
    ensures RouteEntry(init) == "brain" && init.rawText.Some? && limit >= |ANALYSIS| ==>
      run.fault.None? && |run.events| == |ANALYSIS| && run.indexed == IndexedRaw(init.rawText, env.docId)
    ensures RouteEntry(init) == "chat_agent" && AnswersWithoutTools(env.llm) && limit >= 2 ==>
      run.fault.None? && |run.events| == 2 && |final.messages| == |init.messages| + 1
  {
    var g := CreateLegalEngine();
    var node: Target<NodeId> := To(g.entry);
    var s := init;
    var events: seq<Event> := [];
    var indexed: seq<Rag.Entry> := [];
    var fault: Option<Fault> := None;
    while node != End && fault.None?
      invariant Looping(init, env, limit, events, s, indexed, node, fault)
      decreases if node == End || fault.Some? then 0 else limit - |events| + 1
    {
      var n := node.node;
      if |events| == limit {
        Exhausted(init, env, limit, events, s, indexed, n);
        fault := Some(RecursionLimit);
      } else {
        events, s, indexed, node, fault := Superstep(init, env, limit, g, events, s, indexed, n);
      }
    }
    if fault.None? {
      Ended(init, env, events, s, indexed);
    }
    run, final := Run(events, fault, indexed), s;
    if RouteEntry(init) == "brain" && init.rawText.Some? && limit >= |ANALYSIS| {
      AnalysisRunCompletes(init, env, limit, run, final);
    }
    if RouteEntry(init) == "chat_agent" && AnswersWithoutTools(env.llm) && limit >= 2 {
      ChatRunCompletes(init, env, limit, run, final);
    }
  }

  /**
   * One superstep of a run: run node `n` on the state so far, merge its patch and take
   * the outgoing edge, or stop with the fault it raised.
   */
  method Superstep(ghost init: State, env: Env, ghost limit: nat, g: Compiled<NodeId, Condition>,
                   events: seq<Event>, s: State, indexed: seq<Rag.Entry>, n: NodeId)
    returns (events': seq<Event>, s': State, indexed': seq<Rag.Entry>, node': Target<NodeId>, fault': Option<Fault>)
    requires g == EngineGraph()
    requires Looping(init, env, limit, events, s, indexed, To(n), None) && |events| < limit
    ensures Looping(init, env, limit, events', s', indexed', node', fault')
    ensures fault'.None? ==> |events'| == |events| + 1 && Next(g, n, Route(s')) == Some(node')
  {
    Iterate(init, env, limit, events, s, indexed, n);
    var step := RunNode(n, s, env);
    if step.Failed? {
      events', s', indexed', node', fault' := events, s, indexed, To(n), Some(step.fault);
    } else {
      events' := events + [Event(n, step.patch)];
      s' := Merge(s, step.patch);
      indexed' := indexed + step.indexed;
      node' := Next(g, n, Route(s')).value;
      fault' := None;
    }
  }
}
