/** Laws of the pipeline graph: every completed node leaves a consistent checkpoint, triage is
    never reached empty-handed, and what reaching auto-approval implies. */
module GraphLaws {
  import opened Common
  import opened Extraction
  import opened Graph
  import Validation
  import Matching
  import MatchingLaws
  import Policy
  import Gate
  import Triage
  import Taxonomy
  import NearDup

  lemma DepthBelowLast(trace: seq<Node>, m: Node)
    requires IsPath(trace) && m in trace
    ensures m == trace[|trace| - 1] || Depth(m) < Depth(trace[|trace| - 1])
  {
    var j :| 0 <= j < |trace| && trace[j] == m;
    if j < |trace| - 1 { PathDeepens(trace, j, |trace| - 1); }
  }

  /** Nodes at least as deep as one that can follow are still ahead. */
  lemma DeeperIsAhead(trace: seq<Node>, n: Node, m: Node)
    requires IsPath(trace) && Edge(trace[|trace| - 1], n) && Depth(m) >= Depth(n)
    ensures m !in trace
  {
    if m in trace { DepthBelowLast(trace, m); }
  }

  lemma SuccessorIsEdge(v: GraphState, n: Node)
    requires v.trace != [] && Successor(LastNode(v), v) == Some(n)
    ensures Edge(LastNode(v), n)
    ensures n == RejectNode ==> v.duplicate
  {
    hide PolicyFindings, Validation.HasErrors, HasHigh;
  }

  lemma ExtendedPath(trace: seq<Node>, n: Node)
    requires IsPath(trace) && Edge(trace[|trace| - 1], n)
    ensures IsPath(trace + [n])
  {
    var t := trace + [n];
    forall k | 0 <= k < |t| - 1 ensures Edge(t[k], t[k + 1]) {
      if k < |trace| - 1 { assert Edge(trace[k], trace[k + 1]); }
    }
  }

  // ------------------------------------------------------------------ triage always has something to say

  lemma FindingsAreHigh(v: GraphState)
    requires Checkpointed(v)
    ensures HasHigh(PolicyFindings(v)) <==> PolicyFindings(v) != []
    ensures Policy.AllHigh(PolicyFindings(v))
  {
    if v.policy.Some? {
      Policy.FindingsAreHigh(v.policy.value.context);
      if PolicyFindings(v) != [] { assert PolicyFindings(v)[0].severity == Taxonomy.High; }
    }
  }

  /** In every checkpoint from which the graph routes to triage, a draft can be built: the
      "routing bug" and the severity error cannot be raised. */
  lemma TriageNeverEmptyHanded(v: GraphState)
    requires Checkpointed(v) && Successor(LastNode(v), v) == Some(TriageNode)
    ensures DraftOf(v).Ok?
  {
    Triage.DraftExistsIff(v.validation, MatchFindings(v), PolicyFindings(v), v.gate);
    FindingsAreHigh(v);
    if LastNode(v) == MatchNode {
      var m := v.matched.value;
      MatchingLaws.VerdictMeaning(Matching.InvoiceOf(v.extraction.value), m.po, m.gr);
    }
  }

  /** The edge function after the gate and the gate's own recorded route never disagree. */
  lemma GateRouteAgrees(v: GraphState)
    requires Checkpointed(v) && GateNode in v.trace
    ensures RouteAfterGate(v) == AutoApproveNode <==> v.gate.value.route == Gate.Auto
  {}

  // ------------------------------------------------------------------ every node keeps the checkpoint sound

  /** The state the ingest node leaves on a fresh thread. */
  function IngestedState(i: nat, run: nat): GraphState {
    InitialState(i).(runDbId := Some(run), trace := [IngestNode])
  }

  lemma IngestChecks(i: nat, input: NodeInput, run: nat, hits: seq<NearDup.NearDupHit>, e: nat)
    ensures Stage(IngestNode, InitialState(i), input, Some(run), hits, e) == Ok(IngestedState(i, run))
    ensures Checkpointed(IngestedState(i, run))
  {
    assert InitialState(i).trace + [IngestNode] == [IngestNode];
  }

  /** Fields no later node touches, and the trace grows by exactly the node. */
  predicate Extends(v: GraphState, n: Node, w: GraphState) {
    && w.trace == v.trace + [n]
    && w.invoiceId == v.invoiceId && w.humanDecision == v.humanDecision
    && (n != IngestNode ==> w.runDbId == v.runDbId && w.duplicate == v.duplicate)
    && (n != ExtractNode ==> w.extraction == v.extraction)
    && (n != ValidateNode ==> w.validation == v.validation)
    && (n != MatchNode ==> w.matched == v.matched)
    && (n != PolicyNode ==> w.policy == v.policy)
    && (n != GateNode ==> w.gate == v.gate && w.confidence == v.confidence)
    && (n != TriageNode ==> w.exceptionId == v.exceptionId)
  }

  lemma StageExtends(
    n: Node, v: GraphState, input: NodeInput, run: Option<nat>, hits: seq<NearDup.NearDupHit>, exceptionId: nat)
    requires Stage(n, v, input, run, hits, exceptionId).Ok?
    ensures Extends(v, n, Stage(n, v, input, run, hits, exceptionId).value)
  {
    hide Validation.Report, Gate.Decide, Policy.Evaluate, Matching.Matched, Triage.Draft;
  }

  /** Only the ingest node looks at the run picked. */
  lemma StageIgnoresRun(
    n: Node, v: GraphState, input: NodeInput, r: Option<nat>, s: Option<nat>, hits: seq<NearDup.NearDupHit>, e: nat)
    requires n != IngestNode
    ensures Stage(n, v, input, r, hits, e) == Stage(n, v, input, s, hits, e)
  {}

  /** What is still ahead of a thread about to run node `n`. */
  lemma AheadOf(v: GraphState, n: Node)
    requires Checkpointed(v) && Successor(LastNode(v), v) == Some(n)
    ensures n != IngestNode && n != RejectNode
    ensures forall m :: Depth(m) >= Depth(n) ==> m !in v.trace
    ensures IsPath(v.trace + [n])
    ensures n in [ValidateNode, MatchNode, PolicyNode, GateNode] ==> v.extraction.Some?
  {
    hide StagesDone, Routed;
    SuccessorIsEdge(v, n);
    ExtendedPath(v.trace, n);
    forall m | Depth(m) >= Depth(n) ensures m !in v.trace { DeeperIsAhead(v.trace, n, m); }
    if n in [ValidateNode, MatchNode, PolicyNode, GateNode] { PathVisitsExtract(v); }
  }

  lemma PathVisitsExtract(v: GraphState)
    requires Checkpointed(v) && Depth(LastNode(v)) >= 1
    ensures v.extraction.Some?
  {
    hide Routed, MatchRight, PolicyRight, Validation.Report, Gate.Decide;
    assert |v.trace| > 1 && Edge(v.trace[0], v.trace[1]);
    assert v.trace[1] in v.trace;
  }

  lemma StageRecordsAreRight(x: InvoiceExtraction, input: NodeInput, hits: seq<NearDup.NearDupHit>)
    ensures MatchRight(x, MatchStage(x, input)) && PolicyRight(x, PolicyStage(x, input, hits))
  {
    hide Policy.Evaluate, Matching.Matched;
  }

  lemma StageKeepsStages(
    n: Node, v: GraphState, input: NodeInput, hits: seq<NearDup.NearDupHit>, exceptionId: nat, w: GraphState)
    requires Checkpointed(v) && Successor(LastNode(v), v) == Some(n)
    requires Stage(n, v, input, v.runDbId, hits, exceptionId) == Ok(w)
    ensures StagesDone(w)
  {
    hide Routed, RouteRecorded, Validation.Report, Gate.Decide, MatchStage, PolicyStage, MatchRight, PolicyRight,
         DraftOf, IsPath, Successor;
    AheadOf(v, n);
    StageExtends(n, v, input, v.runDbId, hits, exceptionId);
    if v.extraction.Some? { StageRecordsAreRight(v.extraction.value, input, hits); }
    assert forall m :: m in w.trace <==> m in v.trace || m == n;
    if n == GateNode || GateNode in v.trace {
      assert GateInputsOf(w.extraction.value, w) == GateInputsOf(v.extraction.value, v);
    }
  }

  predicate ComputesFindings(n: Node) {
    n == ValidateNode || n == MatchNode || n == PolicyNode || n == GateNode
  }

  lemma SameDraft(v: GraphState, n: Node, w: GraphState)
    requires Extends(v, n, w) && !ComputesFindings(n)
    ensures DraftOf(w) == DraftOf(v)
  {}

  lemma EarlyStageKeepsRouted(n: Node, v: GraphState, w: GraphState)
    requires Checkpointed(v) && Successor(LastNode(v), v) == Some(n) && Extends(v, n, w)
    requires n == ExtractNode || ComputesFindings(n)
    requires n == GateNode ==> w.gate.Some?
    ensures Routed(w)
  {
    hide RouteRecorded, Validation.Report, Gate.Decide, MatchRight, PolicyRight, DraftOf;
    AheadOf(v, n);
    assert forall m :: m in w.trace <==> m in v.trace || m == n;
    assert AutoApproveNode !in w.trace && TriageNode !in w.trace;
    if n == GateNode { FindingsAreHigh(v); }
  }

  lemma LateStageKeepsRouted(n: Node, v: GraphState, w: GraphState)
    requires Checkpointed(v) && Successor(LastNode(v), v) == Some(n) && Extends(v, n, w)
    requires n != ExtractNode && !ComputesFindings(n)
    ensures Routed(w)
  {
    hide RouteRecorded, Validation.Report, Gate.Decide, MatchRight, PolicyRight, DraftOf;
    AheadOf(v, n);
    assert forall m :: m in w.trace <==> m in v.trace || m == n;
    SameDraft(v, n, w);
    if n == TriageNode {
      TriageNeverEmptyHanded(v);
    } else if n == AutoApproveNode {
      GateIsLast(v);
    }
  }

  lemma GateIsLast(v: GraphState)
    requires Checkpointed(v) && Successor(LastNode(v), v) == Some(AutoApproveNode)
    ensures v.gate.Some? && v.gate.value.route == Gate.Auto
  {
    hide Routed;
    SuccessorIsEdge(v, AutoApproveNode);
    assert LastNode(v) in v.trace;
    GateRouteAgrees(v);
  }

  lemma GateStageDecides(
    n: Node, v: GraphState, input: NodeInput, hits: seq<NearDup.NearDupHit>, exceptionId: nat, w: GraphState)
    requires Stage(n, v, input, v.runDbId, hits, exceptionId) == Ok(w)
    ensures n == GateNode ==> w.gate.Some?
  {
    hide Validation.Report, Gate.Decide, Policy.Evaluate, Matching.Matched, Triage.Draft;
  }

  lemma StageKeepsRoute(
    n: Node, v: GraphState, input: NodeInput, hits: seq<NearDup.NearDupHit>, exceptionId: nat, w: GraphState)
    requires Checkpointed(v) && Successor(LastNode(v), v) == Some(n)
    requires Stage(n, v, input, v.runDbId, hits, exceptionId) == Ok(w)
    ensures RouteRecorded(w)
  {
    hide StagesDone, Routed, Successor, Validation.Report, Gate.Decide, Policy.Evaluate, Matching.Matched,
         Triage.Draft;
    AheadOf(v, n);
    StageExtends(n, v, input, v.runDbId, hits, exceptionId);
    assert forall m :: m in w.trace <==> m in v.trace || m == n;
  }

  /** Any node that completes where the graph scheduled it leaves a sound checkpoint. */
  lemma StageKeepsCheckpointed(
    n: Node, v: GraphState, input: NodeInput, hits: seq<NearDup.NearDupHit>, exceptionId: nat, w: GraphState)
    requires Checkpointed(v) && Successor(LastNode(v), v) == Some(n)
    requires Stage(n, v, input, v.runDbId, hits, exceptionId) == Ok(w)
    ensures Checkpointed(w)
  {
    hide StagesDone, Routed, RouteRecorded, Stage, Successor;
    AheadOf(v, n);
    StageKeepsRoute(n, v, input, hits, exceptionId, w);
    StageExtends(n, v, input, v.runDbId, hits, exceptionId);
    StageKeepsStages(n, v, input, hits, exceptionId, w);
    if n == ExtractNode || ComputesFindings(n) {
      GateStageDecides(n, v, input, hits, exceptionId, w);
      EarlyStageKeepsRouted(n, v, w);
    } else {
      LateStageKeepsRouted(n, v, w);
    }
  }
}
