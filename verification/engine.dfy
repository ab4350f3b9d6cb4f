/**
 * src/core/engine.py: the sequential pipeline indexer -> extractor -> analyzer ->
 * translator, where each stage returns a patch of the shared state and the guard
 * `should_continue` ends the run as soon as `errors` is non-empty.
 */
module Engine {
  import opened Wrappers
  import opened Messages
  import opened Graphs
  import Text
  import Rag

  /** A structured record an agent returns; its fields play no part in the control flow. */
  datatype Record = Record(fields: map<string, string>)

  /** `AgentState`; an absent optional key is None, absent `raw_text` is "" and absent `errors` is []. */
  datatype State = State(
    messages: seq<Message>,
    rawText: string,
    extractedData: Option<Record>,
    analysis: Option<Record>,
    finalSummary: Option<Record>,
    errors: seq<string>)

  /** The dict a node returns: the keys it sets (no node sets `raw_text`). */
  datatype Patch = Patch(
    messages: seq<Message>,
    extractedData: Upd<Record>,
    analysis: Upd<Record>,
    finalSummary: Upd<Record>,
    errors: Upd<seq<string>>)

  /** The empty dict `{}`. */
  const NoUpdate: Patch := Patch([], Keep, Keep, Keep, Keep)

  /**
   * How LangGraph applies a patch: `messages` has the `add_messages` reducer and is
   * appended to; every other key present overwrites; absent keys are kept.
   */
  function Merge(s: State, p: Patch): (r: State)
    ensures r.messages == s.messages + p.messages && r.rawText == s.rawText
    ensures r.extractedData == if p.extractedData.Put? then Some(p.extractedData.value) else s.extractedData
    ensures r.analysis == if p.analysis.Put? then Some(p.analysis.value) else s.analysis
    ensures r.finalSummary == if p.finalSummary.Put? then Some(p.finalSummary.value) else s.finalSummary
    ensures r.errors == if p.errors.Put? then p.errors.value else s.errors
  {
    State(
      s.messages + p.messages,
      s.rawText,
      p.extractedData.Onto(s.extractedData),
      p.analysis.Onto(s.analysis),
      p.finalSummary.Onto(s.finalSummary),
      p.errors.Or(s.errors))
  }

  // ---------------------------------------------------------------------------
  // Guard and nodes
  // ---------------------------------------------------------------------------

  const NO_TEXT_FOR_INDEXING: string := "No text provided for indexing"
  const NO_TEXT_FOR_EXTRACTION: string := "No text provided for extraction"
  const EXTRACTION_ERROR: string := "Extraction Error: "
  /** The extractor sees at most this many characters of the document. */
  const EXTRACTION_LIMIT: nat := 100000

  /** `should_continue`. */
  function ShouldContinue(s: State): (r: string)
    ensures r == "end" || r == "continue"
    ensures r == "end" <==> s.errors != []
  {
    if s.errors != [] then "end" else "continue"
  }

  /** What running a node gives: its patch and the index writes it made, or the fault it raised. */
  datatype Step = Done(patch: Patch, indexed: seq<Rag.Entry>) | Failed(fault: Fault)

  /** `indexing_node`, with `doc_id` the fresh identifier `uuid4` would draw. */
  function IndexingNode(s: State, docId: string): (r: Step)
    ensures r.Done? && r.patch == NoUpdate.(errors := r.patch.errors)
    ensures Text.IsBlank(s.rawText) ==> r.patch.errors == Put([NO_TEXT_FOR_INDEXING]) && r.indexed == []
    ensures !Text.IsBlank(s.rawText) ==>
      r.patch.errors == Put([]) && r.indexed == [Rag.Entry(docId, Text.Strip(s.rawText))]
  {
    var text := Text.Strip(s.rawText);
    if text == [] then Done(NoUpdate.(errors := Put([NO_TEXT_FOR_INDEXING])), [])
    else Done(NoUpdate.(errors := Put([])), [Rag.Entry(docId, text)])
  }

  /** `extractor_node`; `extract` is the extraction agent. */
  function ExtractorNode(s: State, extract: string -> Outcome<Record>): (r: Step)
    ensures r.Done? && r.indexed == []
    ensures r.patch.messages == [] && r.patch.analysis == Keep && r.patch.finalSummary == Keep
    ensures s.rawText == [] ==> r.patch == NoUpdate.(errors := Put([NO_TEXT_FOR_EXTRACTION]))
    ensures r.patch.extractedData.Put? <==> s.rawText != [] && extract(Text.Prefix(s.rawText, EXTRACTION_LIMIT)).Ok?
    ensures r.patch.extractedData.Put? ==>
      r.patch.errors == Keep && r.patch.extractedData.value == extract(Text.Prefix(s.rawText, EXTRACTION_LIMIT)).value
    ensures r.patch.errors.Put? ==> r.patch.errors.value != []
    ensures s.rawText != [] && extract(Text.Prefix(s.rawText, EXTRACTION_LIMIT)).Raise? ==>
      r.patch.errors == Put([EXTRACTION_ERROR + extract(Text.Prefix(s.rawText, EXTRACTION_LIMIT)).error])
  {
    if s.rawText == [] then Done(NoUpdate.(errors := Put([NO_TEXT_FOR_EXTRACTION])), [])
    else
      match extract(Text.Prefix(s.rawText, EXTRACTION_LIMIT))
      case Ok(v) => Done(NoUpdate.(extractedData := Put(v)), [])
      case Raise(e) => Done(NoUpdate.(errors := Put([EXTRACTION_ERROR + e])), [])
  }

  /** `analyzer_node`: no exception handling, so a raising agent aborts the run. */
  function AnalyzerNode(s: State, analyze: Record -> Outcome<Record>): (r: Step)
    ensures s.extractedData.None? ==> r == Failed(MissingKey("extracted_data"))
    ensures s.extractedData.Some? && analyze(s.extractedData.value).Raise? ==>
      r == Failed(NodeError(analyze(s.extractedData.value).error))
    ensures r.Done? ==> r.indexed == [] && r.patch.analysis.Put? && r.patch == NoUpdate.(analysis := r.patch.analysis)
    ensures s.extractedData.Some? && analyze(s.extractedData.value).Ok? ==>
      r == Done(NoUpdate.(analysis := Put(analyze(s.extractedData.value).value)), [])
  {
    match s.extractedData
    case None => Failed(MissingKey("extracted_data"))
    case Some(data) =>
      match analyze(data)
      case Ok(v) => Done(NoUpdate.(analysis := Put(v)), [])
      case Raise(e) => Failed(NodeError(e))
  }

  /** `translator_node`: no exception handling either. */
  function TranslatorNode(s: State, translate: Record -> Outcome<Record>): (r: Step)
    ensures s.analysis.None? ==> r == Failed(MissingKey("analysis"))
    ensures s.analysis.Some? && translate(s.analysis.value).Raise? ==>
      r == Failed(NodeError(translate(s.analysis.value).error))
    ensures r.Done? ==> r.indexed == [] && r.patch.finalSummary.Put? && r.patch == NoUpdate.(finalSummary := r.patch.finalSummary)
    ensures s.analysis.Some? && translate(s.analysis.value).Ok? ==>
      r == Done(NoUpdate.(finalSummary := Put(translate(s.analysis.value).value)), [])
  {
    match s.analysis
    case None => Failed(MissingKey("analysis"))
    case Some(a) =>
      match translate(a)
      case Ok(v) => Done(NoUpdate.(finalSummary := Put(v)), [])
      case Raise(e) => Failed(NodeError(e))
  }

  /** Failing extraction leaves `extracted_data` as it was and records one error. */
  lemma ExtractionFailureRecordsError(s: State, extract: string -> Outcome<Record>)
    requires s.rawText != [] && extract(Text.Prefix(s.rawText, EXTRACTION_LIMIT)).Raise?
    ensures var s' := Merge(s, ExtractorNode(s, extract).patch);
      s'.extractedData == s.extractedData && |s'.errors| == 1 && ShouldContinue(s') == "end"
  {
  }

  /** The extractor's outcome depends on the first EXTRACTION_LIMIT characters only. */
  lemma ExtractorSeesPrefix(s: State, t: State, extract: string -> Outcome<Record>)
    requires Text.Prefix(s.rawText, EXTRACTION_LIMIT) == Text.Prefix(t.rawText, EXTRACTION_LIMIT)
    ensures ExtractorNode(s, extract) == ExtractorNode(t, extract)
  {
    assert s.rawText == [] <==> Text.Prefix(s.rawText, EXTRACTION_LIMIT) == [];
    assert t.rawText == [] <==> Text.Prefix(t.rawText, EXTRACTION_LIMIT) == [];
  }

  /** Successful indexing clears errors left in the state, since `errors` has no reducer. */
  lemma IndexingOverwritesErrors(s: State, docId: string)
    requires !Text.IsBlank(s.rawText)
    ensures Merge(s, IndexingNode(s, docId).patch).errors == []
    ensures Merge(s, IndexingNode(s, docId).patch) == s.(errors := [])
  {
  }

  /** The analyzer and the translator change their own key and nothing else. */
  lemma LaterStagesPreserveOtherKeys(s: State, analyze: Record -> Outcome<Record>, translate: Record -> Outcome<Record>)
    ensures AnalyzerNode(s, analyze).Done? ==>
      Merge(s, AnalyzerNode(s, analyze).patch) == s.(analysis := Some(analyze(s.extractedData.value).value))
    ensures TranslatorNode(s, translate).Done? ==>
      Merge(s, TranslatorNode(s, translate).patch) == s.(finalSummary := Some(translate(s.analysis.value).value))
  {
  }

  // ---------------------------------------------------------------------------
  // The graph of create_legal_engine
  // ---------------------------------------------------------------------------

  datatype NodeId = Indexer | Extractor | Analyzer | Translator | Chat

  /** The one router of this graph, `should_continue`. */
  datatype Router = ShouldContinueRouter

  /** The stages of an analysis run, in order. */
  const STAGES: seq<NodeId> := [Indexer, Extractor, Analyzer, Translator]

  /** `{"continue": next, "end": END}`. */
  function ContinueTo(next: NodeId): map<string, Target<NodeId>> {
    map["continue" := To(next), "end" := End]
  }

  /** The graph `create_legal_engine` compiles. */
  function PipelineGraph(): Compiled<NodeId, Router> {
    Compiled(
      Indexer,
      {Indexer, Extractor, Analyzer, Translator, Chat},
      map[
        Indexer := Conditional(ShouldContinueRouter, ContinueTo(Extractor)),
        Extractor := Conditional(ShouldContinueRouter, ContinueTo(Analyzer)),
        Analyzer := Conditional(ShouldContinueRouter, ContinueTo(Translator)),
        Translator := Direct(End),
        Chat := Direct(End)])
  }

  /** `create_legal_engine`: the graph built by successive builder calls. */
  method CreateLegalEngine() returns (g: Compiled<NodeId, Router>)
    ensures g == PipelineGraph()
  {
    var workflow := new StateGraph<NodeId, Router>();
    workflow.AddNode(Indexer);
    workflow.AddNode(Extractor);
    workflow.AddNode(Analyzer);
    workflow.AddNode(Translator);
    workflow.AddNode(Chat);
    workflow.SetEntryPoint(Indexer);
    workflow.AddConditionalEdges(Indexer, ShouldContinueRouter, ContinueTo(Extractor));
    workflow.AddConditionalEdges(Extractor, ShouldContinueRouter, ContinueTo(Analyzer));
    workflow.AddConditionalEdges(Analyzer, ShouldContinueRouter, ContinueTo(Translator));
    workflow.AddEdge(Translator, End);
    workflow.AddEdge(Chat, End);
    g := workflow.Compile();
  }

  /** The routers' answers on state `s`. */
  function Route(s: State): Router -> Option<string> {
    (r: Router) => Some(ShouldContinue(s))
  }

  /** No edge leads to the chat node and it is not the entry point. */
  lemma ChatNodeUnreachable()
    ensures Unreachable(PipelineGraph(), Chat)
  {
    var g := PipelineGraph();
    forall m | m in g.edges ensures To(Chat) !in Targets(g.edges[m]) {
      if m in {Indexer, Extractor, Analyzer} {
        var next := if m == Indexer then Extractor else if m == Extractor then Analyzer else Translator;
        assert ContinueTo(next).Values == {To(next), End} by {
          assert To(next) == ContinueTo(next)["continue"];
          assert End == ContinueTo(next)["end"];
        }
      }
    }
  }

  /**
   * The guarded stage order: after each of the first three stages the run moves to the
   * next stage exactly when `errors` is empty, and the translator always ends the run.
   */
  lemma StageSuccessor(k: nat, s: State)
    requires k < |STAGES|
    ensures Next(PipelineGraph(), STAGES[k], Route(s)) ==
      if k == |STAGES| - 1 || s.errors != [] then Some(End) else Some(To(STAGES[k + 1]))
  {
  }

  // ---------------------------------------------------------------------------
  // A run
  // ---------------------------------------------------------------------------

  /** The three agents, each a collaborator that answers or raises. */
  datatype Agents = Agents(
    extract: string -> Outcome<Record>,
    analyze: Record -> Outcome<Record>,
    translate: Record -> Outcome<Record>)

  /** Runs the node `n` of the pipeline. */
  function Execute(n: NodeId, s: State, agents: Agents, docId: string): Step
    requires n != Chat
  {
    match n
    case Indexer => IndexingNode(s, docId)
    case Extractor => ExtractorNode(s, agents.extract)
    case Analyzer => AnalyzerNode(s, agents.analyze)
    case Translator => TranslatorNode(s, agents.translate)
  }

  /**
   * What the stages do to a run: only the analyzer and the translator can raise, only
   * the indexer writes to the index, and no stage adds a message.
   */
  lemma ExecuteRoles(n: NodeId, s: State, agents: Agents, docId: string)
    requires n != Chat
    ensures var r := Execute(n, s, agents, docId);
      && (r.Failed? ==> n == Analyzer || n == Translator)
      && (r.Done? && r.indexed != [] ==> n == Indexer)
      && (r.Done? ==> r.patch.messages == [])
  {
  }

  /** One completed node and the patch it returned (what `stream_mode="updates"` yields). */
  datatype Event = Event(node: NodeId, patch: Patch)

  /** The events of a run, the fault that aborted it if any, and what it wrote to the index. */
  datatype Run = Run(events: seq<Event>, fault: Option<Fault>, indexed: seq<Rag.Entry>)

  /** The state after applying the patches of `events` in order. */
  function Apply(s: State, events: seq<Event>): State
    decreases |events|
  {
    if events == [] then s
    else Merge(Apply(s, events[..|events| - 1]), events[|events| - 1].patch)
  }

  /** The text a run writes to the index. */
  function IndexedText(rawText: string, docId: string): seq<Rag.Entry> {
    if Text.IsBlank(rawText) then [] else [Rag.Entry(docId, Text.Strip(rawText))]
  }

  /**
   * `events` is how a run starting from `init` begins: the first stages in order, each
   * patch the one its node returns on the state so far, and the guard letting every
   * stage but the last one through.
   */
  ghost predicate IsTrace(init: State, agents: Agents, docId: string, events: seq<Event>) {
    && |events| <= |STAGES|
    && (forall k :: 0 <= k < |events| ==> events[k].node == STAGES[k])
    && (forall k :: 0 <= k < |events| ==> Produced(init, agents, docId, events[..k], events[k]))
    && (forall k :: 1 <= k < |events| ==> Apply(init, events[..k]).errors == [])
  }

  /** Event `e` is what its stage returns on the state after `prefix`. */
  ghost predicate Produced(init: State, agents: Agents, docId: string, prefix: seq<Event>, e: Event) {
    && e.node != Chat
    && var step := Execute(e.node, Apply(init, prefix), agents, docId);
    step.Done? && step.patch == e.patch
  }

  /** Running the next stage after a passing guard extends a trace. */
  lemma {:induction false} TraceExtends(init: State, agents: Agents, docId: string, events: seq<Event>, step: Step)
    requires IsTrace(init, agents, docId, events)
    requires |events| < |STAGES|
    requires |events| > 0 ==> Apply(init, events).errors == []
    requires step == Execute(STAGES[|events|], Apply(init, events), agents, docId) && step.Done?
    ensures var events' := events + [Event(STAGES[|events|], step.patch)];
      IsTrace(init, agents, docId, events') && Apply(init, events') == Merge(Apply(init, events), step.patch)
  {
    var events' := events + [Event(STAGES[|events|], step.patch)];
    assert events'[..|events|] == events;
    forall k | 0 <= k < |events'|
      ensures events'[k].node == STAGES[k]
      ensures Produced(init, agents, docId, events'[..k], events'[k])
      ensures k >= 1 ==> Apply(init, events'[..k]).errors == []
    {
      if k < |events| {
        assert events'[..k] == events[..k] && events'[k] == events[k];
      }
    }
  }

  /** What each stage's outcome means for the guard and for the stages after it. */
  ghost predicate StageOutcome(k: nat, s: State, step: Step, docId: string)
    requires k < |STAGES|
  {
    && (k < 2 ==> step.Done?)
    && (step.Failed? ==> step.fault.NodeError?)
    && (step.Done? ==>
          var s' := Merge(s, step.patch);
          && step.indexed == (if k == 0 then IndexedText(s.rawText, docId) else [])
          && (k == 0 ==> (s'.errors == [] <==> !Text.IsBlank(s.rawText)))
          && (k >= 1 && s'.errors == [] ==> s'.extractedData.Some?)
          && (k >= 2 ==> s'.errors == [] && s'.analysis.Some?))
  }

  lemma IndexerOutcome(s: State, agents: Agents, docId: string)
    ensures StageOutcome(0, s, Execute(Indexer, s, agents, docId), docId)
  {
  }

  lemma ExtractorOutcome(s: State, agents: Agents, docId: string)
    requires !Text.IsBlank(s.rawText) && s.errors == []
    ensures StageOutcome(1, s, Execute(Extractor, s, agents, docId), docId)
  {
  }

  lemma AnalyzerOutcome(s: State, agents: Agents, docId: string)
    requires s.errors == [] && s.extractedData.Some?
    ensures StageOutcome(2, s, Execute(Analyzer, s, agents, docId), docId)
  {
  }

  lemma TranslatorOutcome(s: State, agents: Agents, docId: string)
    requires s.errors == [] && s.extractedData.Some? && s.analysis.Some?
    ensures StageOutcome(3, s, Execute(Translator, s, agents, docId), docId)
  {
  }

  /** A run that has completed `events` and will run stage `|events|` next. */
  ghost predicate Ready(init: State, agents: Agents, docId: string, events: seq<Event>, s: State, indexed: seq<Rag.Entry>) {
    && IsTrace(init, agents, docId, events) && s == Apply(init, events)
    && s.rawText == init.rawText
    && |events| < |STAGES|
    && (|events| > 0 ==> s.errors == [] && !Text.IsBlank(init.rawText))
    && (|events| >= 2 ==> s.extractedData.Some?)
    && (|events| >= 3 ==> s.analysis.Some?)
    && indexed == (if |events| == 0 then [] else IndexedText(init.rawText, docId))
  }

  /** A run that has reached END after `events`. */
  ghost predicate Finished(init: State, agents: Agents, docId: string, events: seq<Event>, s: State, indexed: seq<Rag.Entry>) {
    && IsTrace(init, agents, docId, events) && s == Apply(init, events)
    && 1 <= |events|
    && (|events| < |STAGES| ==> s.errors != [])
    && indexed == IndexedText(init.rawText, docId)
    && (Text.IsBlank(init.rawText) <==> |events| == 1)
  }

  /**
   * One iteration of a run: the next stage either raises (only the analyzer or the
   * translator can), or its patch leaves the run ready for the following stage or,
   * when the guard stops it or the translator is done, finished.
   */
  lemma Advance(init: State, agents: Agents, docId: string, events: seq<Event>, s: State, indexed: seq<Rag.Entry>)
    requires Ready(init, agents, docId, events, s, indexed)
    ensures var step := Execute(STAGES[|events|], s, agents, docId);
      && (step.Failed? ==> step.fault.NodeError? && 2 <= |events| <= 3)
      && (step.Done? ==>
            var events' := events + [Event(STAGES[|events|], step.patch)];
            var s' := Merge(s, step.patch);
            if |events'| == |STAGES| || s'.errors != []
            then Finished(init, agents, docId, events', s', indexed + step.indexed)
            else Ready(init, agents, docId, events', s', indexed + step.indexed))
  {
    var k := |events|;
    var step := Execute(STAGES[k], s, agents, docId);
    if k == 0 {
      IndexerOutcome(s, agents, docId);
    } else if k == 1 {
      ExtractorOutcome(s, agents, docId);
    } else if k == 2 {
      AnalyzerOutcome(s, agents, docId);
    } else {
      TranslatorOutcome(s, agents, docId);
    }
    assert StageOutcome(k, s, step, docId);
    if step.Done? {
      TraceExtends(init, agents, docId, events, step);
      assert step.indexed == (if k == 0 then IndexedText(init.rawText, docId) else []);
    }
  }

  /**
   * `engine.invoke(initial_state)`: follow the compiled graph from the entry point,
   * merging each node's patch, until END or until a node raises.
   */
  method Invoke(init: State, agents: Agents, docId: string) returns (run: Run, final: State)
    ensures 1 <= |run.events| && IsTrace(init, agents, docId, run.events)
    ensures final == Apply(init, run.events)
    ensures run.fault.None? && |run.events| < |STAGES| ==> final.errors != []
    ensures run.fault.Some? ==> run.fault.value.NodeError? && 2 <= |run.events| <= 3
    ensures run.indexed == IndexedText(init.rawText, docId)
    ensures Text.IsBlank(init.rawText) <==> |run.events| == 1
    ensures run.fault.Some? ==> Execute(STAGES[|run.events|], final, agents, docId) == Failed(run.fault.value)
    ensures AlwaysAnswer(agents) && !Text.IsBlank(init.rawText) ==> run.fault.None? && |run.events| == |STAGES|
  {
    var g := CreateLegalEngine();
    var node: Target<NodeId> := To(g.entry);
    var s := init;
    var events: seq<Event> := [];
    var indexed: seq<Rag.Entry> := [];
    var fault: Option<Fault> := None;
    while node != End && fault.None?
      invariant fault.None? && node != End ==> Ready(init, agents, docId, events, s, indexed) && node == To(STAGES[|events|])
      invariant fault.None? && node == End ==> Finished(init, agents, docId, events, s, indexed)
      invariant fault.Some? ==> Stopped(init, agents, docId, events, s, indexed, fault.value)
      decreases |STAGES| - |events|, if fault.None? then 1 else 0
    {
      events, s, indexed, node, fault := Superstep(init, agents, docId, g, events, s, indexed, node.node);
    }
    run := Run(events, fault, indexed);
    final := s;
    if AlwaysAnswer(agents) && !Text.IsBlank(init.rawText) {
      CleanRunCompletes(init, agents, docId, events, s, indexed, fault);
    }
  }

  /** A run that a raising node stopped after `events`. */
  ghost predicate Stopped(init: State, agents: Agents, docId: string, events: seq<Event>, s: State, indexed: seq<Rag.Entry>, fault: Fault) {
    && IsTrace(init, agents, docId, events) && s == Apply(init, events)
    && fault.NodeError? && 2 <= |events| <= 3
    && Execute(STAGES[|events|], s, agents, docId) == Failed(fault)
    && indexed == IndexedText(init.rawText, docId)
    && !Text.IsBlank(init.rawText) && s.errors == []
    && s.extractedData.Some? && (|events| >= 3 ==> s.analysis.Some?)
  }

  /** A ready run whose next stage raises is stopped by it. */
  lemma Stops(init: State, agents: Agents, docId: string, events: seq<Event>, s: State, indexed: seq<Rag.Entry>)
    requires Ready(init, agents, docId, events, s, indexed)
    requires Execute(STAGES[|events|], s, agents, docId).Failed?
    ensures Stopped(init, agents, docId, events, s, indexed, Execute(STAGES[|events|], s, agents, docId).fault)
  {
    Advance(init, agents, docId, events, s, indexed);
  }

  /** A stage that completes leaves the run ready for the stage its edge leads to, or finished at END. */
  lemma Proceeds(init: State, agents: Agents, docId: string, events: seq<Event>, s: State, indexed: seq<Rag.Entry>, step: Step)
    requires Ready(init, agents, docId, events, s, indexed) && step.Done?
    requires var events' := events + [Event(STAGES[|events|], step.patch)];
      var s' := Merge(s, step.patch);
      if |events'| == |STAGES| || s'.errors != []
      then Finished(init, agents, docId, events', s', indexed + step.indexed)
      else Ready(init, agents, docId, events', s', indexed + step.indexed)
    ensures var events' := events + [Event(STAGES[|events|], step.patch)];
      var s' := Merge(s, step.patch);
      var next := Next(PipelineGraph(), STAGES[|events|], Route(s'));
      && next.Some?
      && (next.value != End ==> Ready(init, agents, docId, events', s', indexed + step.indexed) && next.value == To(STAGES[|events'|]))
      && (next.value == End ==> Finished(init, agents, docId, events', s', indexed + step.indexed))
  {
    StageSuccessor(|events|, Merge(s, step.patch));
  }

  /** Every agent answers every request. */
  ghost predicate AlwaysAnswer(agents: Agents) {
    && (forall text :: agents.extract(text).Ok?)
    && (forall r :: agents.analyze(r).Ok?)
    && (forall r :: agents.translate(r).Ok?)
  }

  /** The patches never touch `raw_text`. */
  lemma {:induction false} ApplyKeepsRawText(init: State, events: seq<Event>)
    ensures Apply(init, events).rawText == init.rawText
    decreases |events|
  {
    if events != [] {
      ApplyKeepsRawText(init, events[..|events| - 1]);
    }
  }

  /**
   * With agents that always answer and a document that is not blank, nothing raises
   * and the guard lets every stage through: the run executes all four stages.
   */
  lemma CleanRunCompletes(init: State, agents: Agents, docId: string, events: seq<Event>, s: State,
                          indexed: seq<Rag.Entry>, fault: Option<Fault>)
    requires AlwaysAnswer(agents) && !Text.IsBlank(init.rawText)
    requires fault.None? ==> Finished(init, agents, docId, events, s, indexed)
    requires fault.Some? ==> Stopped(init, agents, docId, events, s, indexed, fault.value)
    ensures fault.None? && |events| == |STAGES|
  {
    AnsweringStagesDoNotRaise(s, agents, docId);
    if fault.None? {
      CleanTraceKeepsErrorsEmpty(init, agents, docId, events);
    }
  }

  /** The analyzer and the translator raise only when their agent does, or when their input is missing. */
  lemma AnsweringStagesDoNotRaise(s: State, agents: Agents, docId: string)
    requires AlwaysAnswer(agents)
    ensures s.extractedData.Some? ==> Execute(Analyzer, s, agents, docId).Done?
    ensures s.analysis.Some? ==> Execute(Translator, s, agents, docId).Done?
  {
    if s.extractedData.Some? {
      assert agents.analyze(s.extractedData.value).Ok?;
    }
    if s.analysis.Some? {
      assert agents.translate(s.analysis.value).Ok?;
    }
  }

  /** With agents that always answer and a document that is not blank, no stage records an error. */
  lemma CleanTraceKeepsErrorsEmpty(init: State, agents: Agents, docId: string, events: seq<Event>)
    requires AlwaysAnswer(agents) && !Text.IsBlank(init.rawText)
    requires IsTrace(init, agents, docId, events) && 1 <= |events|
    ensures Apply(init, events).errors == []
  {
    var n := |events|;
    var before := Apply(init, events[..n - 1]);
    assert events[..n - 1][..n - 1] == events[..n - 1];
    assert Produced(init, agents, docId, events[..n - 1], events[n - 1]);
    assert Apply(init, events) == Merge(before, events[n - 1].patch);
    ApplyKeepsRawText(init, events[..n - 1]);
    assert before.rawText != [] by {
      assert !Text.IsBlank(before.rawText);
    }
    if n == 1 {
      assert before == init;
    }
  }

  /** One superstep of `Invoke`: run the next stage and follow the edge out of it. */
  method Superstep(ghost init: State, agents: Agents, docId: string, g: Compiled<NodeId, Router>,
                   events: seq<Event>, s: State, indexed: seq<Rag.Entry>, n: NodeId)
    returns (events': seq<Event>, s': State, indexed': seq<Rag.Entry>, node': Target<NodeId>, fault': Option<Fault>)
    requires g == PipelineGraph()
    requires Ready(init, agents, docId, events, s, indexed) && n == STAGES[|events|]
    ensures fault'.None? && node' != End ==> Ready(init, agents, docId, events', s', indexed') && node' == To(STAGES[|events'|])
    ensures fault'.None? && node' == End ==> Finished(init, agents, docId, events', s', indexed')
    ensures fault'.Some? ==> Stopped(init, agents, docId, events', s', indexed', fault'.value)
    ensures |events'| == |events| + (if fault'.None? then 1 else 0)
  {
    var step := Execute(n, s, agents, docId);
    if step.Failed? {
      Stops(init, agents, docId, events, s, indexed);
      events', s', indexed', node', fault' := events, s, indexed, End, Some(step.fault);
    } else {
      Advance(init, agents, docId, events, s, indexed);
      Proceeds(init, agents, docId, events, s, indexed, step);
      events' := events + [Event(n, step.patch)];
      s' := Merge(s, step.patch);
      indexed' := indexed + step.indexed;
      node' := Next(g, n, Route(s')).value;
      fault' := None;
    }
  }
}
