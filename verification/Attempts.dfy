/** What the outside world does to node attempts, exactly when an attempt fails, and the operations a
    run of attempts amounts to. */
module Attempts {
  import opened Common
  import opened Graph
  import opened Records
  import opened Cases
  import opened Tables
  import opened Projection
  import opened TableLaws
  import opened Histories
  import GraphLaws
  import Progress
  import Retries
  import NearDup

  /** What the outside world does to one attempt of a node: nothing, raise before anything is
      committed, or raise after the first of its transactions. */
  datatype Fault = Healthy | Early(kind: Retries.FailureKind) | Late(kind: Retries.FailureKind)

  datatype NodeTry = NodeTry(input: NodeInput, fault: Fault)

  /** The k-th attempt of each node, counted from one. */
  type World = (Node, nat) -> NodeTry

  /** What an attempt of node `n` of invoice `i` must come to: a fault is passed on with its kind; left
      alone, the node fails only for an invoice that does not exist or a vector of the wrong length. */
  function Dictated(invoices: nat, i: nat, n: Node, t: NodeTry): Retries.Attempt {
    match t.fault
    case Early(kind) => Retries.Failure(kind)
    case Late(kind) => Retries.Failure(kind)
    case Healthy =>
      if i >= invoices || (n == PolicyNode && |t.input.vector| != 768) then Retries.Failure(Retries.Business)
      else Retries.Success
  }

  /** The first `calls - 1` attempts fail for infrastructure reasons and the last one comes to `last`. */
  predicate Comes(world: World, invoices: nat, i: nat, n: Node, calls: nat, last: Retries.Attempt) {
    && calls >= 1 && Dictated(invoices, i, n, world(n, calls)) == last
    && forall k :: 1 <= k < calls ==> Dictated(invoices, i, n, world(n, k)) == Retries.Failure(Retries.Infra)
  }

  /** The whole budget is spent on infrastructure failures. */
  predicate Spent(world: World, invoices: nat, i: nat, n: Node, attempts: int) {
    forall k :: 1 <= k <= attempts ==> Dictated(invoices, i, n, world(n, k)) == Retries.Failure(Retries.Infra)
  }

  /** What failing attempts leave in the history: only the match and policy nodes commit something before
      they can raise. */
  function FailedTries(i: nat, n: Node, world: World, calls: nat): seq<Op> {
    if calls == 0 then []
    else
      FailedTries(i, n, world, calls - 1)
      + if world(n, calls).fault.Late? && (n == MatchNode || n == PolicyNode)
        then [NodeBreaks(i, world(n, calls).input)] else []
  }

  /** A node the thread got past, and the number of attempts it took. */
  datatype Step = Step(node: Node, calls: nat)

  /** The operations of the steps, each ending in its completion with the input of its last attempt. */
  function Course(i: nat, world: World, steps: seq<Step>): seq<Op> {
    if steps == [] then []
    else
      var last := steps[|steps| - 1];
      Course(i, world, steps[..|steps| - 1])
      + FailedTries(i, last.node, world, last.calls) + [NodeCompletes(i, world(last.node, last.calls).input)]
  }

  function NodesIn(steps: seq<Step>): seq<Node> {
    seq(|steps|, k requires 0 <= k < |steps| => steps[k].node)
  }

  lemma CourseOfAppended(i: nat, world: World, steps: seq<Step>, last: Step)
    ensures Course(i, world, steps + [last])
         == Course(i, world, steps)
            + FailedTries(i, last.node, world, last.calls) + [NodeCompletes(i, world(last.node, last.calls).input)]
    ensures NodesIn(steps + [last]) == NodesIn(steps) + [last.node]
  {
    assert (steps + [last])[..|steps|] == steps;
  }

  // ------------------------------------------------------------------ when a node computes an error

  lemma FreshThreadPicks(db: Db, i: nat)
    requires Invariant(db) && Exists(db, i) && IsExecuting(db, i) && Untouched(CaseOf(db, i))
    ensures db.threads[i].next == Some(IngestNode) && PickRun(db.runs, i).Some?
  {
    hide LiveRun, PickRun, EventsOf, ExceptionsOf, DlqOf, DecisionsOn, Sound;
    assert CaseHolds(db, i);
    IngestPicksTheLiveRun(db, i);
  }

  /** Where the graph scheduled a node, its inputs are there and triage has something to report. */
  lemma ScheduledNodeComputes(
    v: GraphState, n: Node, input: NodeInput, run: Option<nat>, hits: seq<NearDup.NearDupHit>, e: nat)
    requires Checkpointed(v) && Successor(LastNode(v), v) == Some(n)
    ensures n != IngestNode
    ensures Stage(n, v, input, run, hits, e).Err? <==> n == PolicyNode && |input.vector| != 768
    ensures n == MatchNode || n == PolicyNode ==> v.extraction.Some?
  {
    hide StagesDone, Routed, RouteRecorded, Successor, DraftOf;
    GraphLaws.AheadOf(v, n);
    if n == TriageNode { GraphLaws.TriageNeverEmptyHanded(v); }
  }

  lemma ExecutingStandsScheduled(db: Db, i: nat)
    requires Invariant(db) && Exists(db, i) && IsExecuting(db, i)
    ensures Visible(db, i)
    ensures !Untouched(CaseOf(db, i)) ==>
              var t := db.threads[i];
              Checkpointed(t.values) && t.next == Successor(LastNode(t.values), t.values)
  {
    hide LiveRun, EventsOf, ExceptionsOf, DlqOf, DecisionsOn, Sound, OutcomeSound, DlqConserved, TraceWitnessed,
         ColumnsShown, ExceptionsQuoted, Checkpointed, Successor;
    assert CaseHolds(db, i);
  }

  /** In a lawful database a scheduled node computes an error in two cases only. */
  lemma AttemptErrsIff(db: Db, i: nat, input: NodeInput)
    requires Invariant(db) && IsExecuting(db, i)
    ensures Attempted(db, i, input).Err?
       <==> i >= |db.invoices| || (db.threads[i].next == Some(PolicyNode) && |input.vector| != 768)
    ensures db.threads[i].next == Some(MatchNode) || db.threads[i].next == Some(PolicyNode) ==>
              i < |db.invoices| && db.threads[i].values.extraction.Some?
  {
    hide Stage, PickRun, HitsFor, CaseHolds, Checkpointed, Successor;
    if i < |db.invoices| {
      ExecutingStandsScheduled(db, i);
      if Untouched(CaseOf(db, i)) {
        FreshThreadPicks(db, i);
        IngestComputes(db, i, input);
      } else {
        var t := db.threads[i];
        ScheduledNodeComputes(
          t.values, t.next.value, input, PickRun(db.runs, i), HitsFor(db, i, t.next.value, input), |db.exceptions|);
      }
    }
  }

  lemma IngestComputes(db: Db, i: nat, input: NodeInput)
    requires IsExecuting(db, i) && Exists(db, i) && db.threads[i].next == Some(IngestNode)
    requires PickRun(db.runs, i).Some? && Visible(db, i) && Untouched(CaseOf(db, i))
    ensures Attempted(db, i, input).Ok?
  {
    hide PickRun, HitsFor, LiveRun, EventsOf, ExceptionsOf, DlqOf, DecisionsOn;
  }

  lemma RunningIsNotPaused(db: Db, i: nat)
    requires Invariant(db) && IsExecuting(db, i)
    ensures !db.threads[i].paused
  {
    hide LiveRun, EventsOf, ExceptionsOf, DlqOf, DecisionsOn, OutcomeSound, DlqConserved, TraceWitnessed,
         ColumnsShown, ExceptionsQuoted, Checkpointed, Successor;
    if i < |db.invoices| { assert CaseHolds(db, i); }
  }

  // ------------------------------------------------------------------ what a completed attempt leaves

  /** The checkpoint moved on by the scheduled node, and pauses after triage only. */
  predicate Advanced(before: Thread, after: Thread)
    requires before.next.Some?
  {
    var n := before.next.value;
    && after.values.trace == before.values.trace + [n] && after.next == Successor(n, after.values)
    && after.paused == (n == TriageNode) && after.executing == (after.next.Some? && n != TriageNode)
  }

  lemma CheckpointAdvances(db: Db, i: nat, input: NodeInput)
    requires IsExecuting(db, i) && Attempted(db, i, input).Ok?
    ensures Advanced(db.threads[i], CheckpointAfter(db.threads[i].next.value, Attempted(db, i, input).value))
  {
    hide Stage, PickRun, HitsFor, Successor;
    var t := db.threads[i];
    GraphLaws.StageExtends(
      t.next.value, t.values, input, PickRun(db.runs, i), HitsFor(db, i, t.next.value, input), |db.exceptions|);
  }

  /** The ledger entries a completed node leaves, in order; triage notes the agent's answer if there was one. */
  function EntriesOf(n: Node, exceptionId: nat, classified: bool): seq<Event> {
    match n
    case IngestNode => [RunStarted]
    case ExtractNode => [ExtractCompleted]
    case ValidateNode => [ValidateCompleted]
    case MatchNode => [MatchCompleted]
    case PolicyNode => [PolicyEvaluated]
    case GateNode => [GateDecided]
    case AutoApproveNode => [InvoiceAutoApproved]
    case TriageNode =>
      [ExceptionOpened(exceptionId)] + if classified then [TriageCompleted(exceptionId)] else []
    case HumanReviewNode => [HumanReviewCompleted]
    case ArchiveNode => [RunArchived]
    case RejectNode => [RunRejected]
  }

  lemma CompletionIsLogged(db: Db, i: nat, input: NodeInput)
    requires Invariant(db) && Exists(db, i) && IsExecuting(db, i) && Attempted(db, i, input).Ok?
    ensures EventsFor(Apply(db, NodeCompletes(i, input)), i)
         == EventsFor(db, i) + EntriesOf(db.threads[i].next.value, |db.exceptions|, input.classified)
  {
    hide Sound, CaseInv, LiveRun, EventsOf, ExceptionsOf, DlqOf, DecisionsOn, Stage, PickRun, HitsFor;
    var op := NodeCompletes(i, input);
    OpShows(db, op, i);
    AttemptIsStage(db, i, input);
    hide Apply, Attempted;
    assert CaseHolds(db, i);
  }

  /** What is committed by an attempt that raises late: the extracted columns, or the embedding. */
  lemma LateAttemptCommits(db: Db, i: nat, input: NodeInput)
    requires Invariant(db) && Exists(db, i) && IsExecuting(db, i)
    ensures var after := Apply(db, NodeBreaks(i, input)); var v := db.threads[i].values;
            && Exists(after, i)
            && (db.threads[i].next == Some(MatchNode) ==>
                  v.extraction.Some? && after.invoices[i].shown.amount == v.extraction.value.totalAmount
                  && after.invoices[i].shown.invoiceNumber == v.extraction.value.invoiceNumber)
            && (db.threads[i].next == Some(PolicyNode) && |input.vector| == 768 ==>
                  after.invoices[i].embedding == Some(input.vector))
            && after.ledger == db.ledger && after.threads == db.threads && after.runs == db.runs
  {
    hide Invariant, Attempted, StatusAfter;
    AttemptErrsIff(db, i, input);
  }

  /** A thread that was launched either runs or has nothing to run. */
  predicate AtRest(threads: map<nat, Thread>, i: nat) {
    i in threads && !threads[i].executing && (threads[i].next.None? || threads[i].paused)
  }

  lemma LaunchedRunsOrRests(db: Db, i: nat)
    requires Invariant(db)
    ensures IsExecuting(RunInvoked(db, i), i) || AtRest(RunInvoked(db, i).threads, i)
  {
    hide LiveRun, EventsOf, ExceptionsOf, DlqOf, DecisionsOn, OutcomeSound, DlqConserved, TraceWitnessed,
         ColumnsShown, ExceptionsQuoted, Checkpointed, Successor;
    if i < |db.invoices| { assert CaseHolds(db, i); }
  }

  // ------------------------------------------------------------------ getting through

  /** Within the budget some attempt of the node succeeds, all before it failing transiently. */
  predicate GetsThrough(world: World, invoices: nat, i: nat, n: Node, attempts: int) {
    exists calls: nat :: calls <= attempts && Comes(world, invoices, i, n, calls, Retries.Success)
  }

  /** Why a run was raised at node `n`: the budget is spent on infrastructure failures, or the last of
      `made` attempts failed for a business reason. */
  predicate RaisedFor(
    world: World, invoices: nat, i: nat, n: Node, attempts: int, kind: Retries.FailureKind, made: nat)
  {
    match kind
    case Infra => Spent(world, invoices, i, n, attempts) && made == if attempts > 0 then attempts else 0
    case Business => made <= attempts && Comes(world, invoices, i, n, made, Retries.Failure(Retries.Business))
  }

  /** A node at which a run is raised does not get through. */
  lemma RaisedMeansStuck(
    world: World, invoices: nat, i: nat, n: Node, attempts: int, kind: Retries.FailureKind, made: nat)
    requires RaisedFor(world, invoices, i, n, attempts, kind, made)
    ensures !GetsThrough(world, invoices, i, n, attempts)
  {
    forall calls: nat | calls <= attempts ensures !Comes(world, invoices, i, n, calls, Retries.Success) {
      if kind == Retries.Business && calls > made {
        assert Dictated(invoices, i, n, world(n, made)) == Retries.Failure(Retries.Business);
      }
    }
  }

  /** In a world without faults every node gets through at the first attempt. */
  lemma FaultlessGetsThrough(world: World, invoices: nat, i: nat, n: Node, attempts: int)
    requires i < invoices && attempts >= 1
    requires world(n, 1).fault == Healthy && |world(n, 1).input.vector| == 768
    ensures GetsThrough(world, invoices, i, n, attempts)
  {
    assert Comes(world, invoices, i, n, 1, Retries.Success);
  }

  // ------------------------------------------------------------------ a course works on one invoice

  predicate NodeOp(op: Op, i: nat) {
    (op.NodeCompletes? && op.invoiceId == i) || (op.NodeBreaks? && op.invoiceId == i)
    || (op.NodeFails? && op.invoiceId == i)
  }

  predicate NodeOps(ops: seq<Op>, i: nat) {
    forall k :: 0 <= k < |ops| ==> NodeOp(ops[k], i)
  }

  lemma {:induction false} FailedTriesAreNodeOps(i: nat, n: Node, world: World, calls: nat)
    ensures NodeOps(FailedTries(i, n, world, calls), i)
  {
    if calls > 0 { FailedTriesAreNodeOps(i, n, world, calls - 1); }
  }

  lemma {:induction false} CourseIsNodeOps(i: nat, world: World, steps: seq<Step>)
    ensures NodeOps(Course(i, world, steps), i)
  {
    if steps != [] {
      var last := steps[|steps| - 1];
      CourseIsNodeOps(i, world, steps[..|steps| - 1]);
      FailedTriesAreNodeOps(i, last.node, world, last.calls);
    }
  }
}
