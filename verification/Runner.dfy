/** Executing a thread: retries around every node, the checkpoint after it, the dead-letter record
    when it fails for good, and the services that start, replay and resume it. */
module Runner {
  import opened Common
  import opened Graph
  import opened Records
  import opened Cases
  import opened Tables
  import opened Store
  import opened Pipeline
  import opened Attempts
  import TableLaws
  import Retries

  datatype Outcome = Returned | Raised(kind: Retries.FailureKind, attempts: int)

  /** `later` continues `earlier` with node operations of invoice `i` only. */
  predicate Continued(earlier: seq<Op>, later: seq<Op>, i: nat) {
    earlier <= later && forall k :: |earlier| <= k < |later| ==> NodeOp(later[k], i)
  }

  /** The next node lies strictly deeper in the graph, so a thread cannot run for ever. */
  lemma SuccessorDeepens(n: Node, w: GraphState)
    ensures Successor(n, w).Some? ==> Depth(Successor(n, w).value) > Depth(n)
  {
    hide HasHigh, PolicyFindings;
  }

  function Remaining(threads: map<nat, Thread>, i: nat): nat {
    if i in threads && threads[i].executing && threads[i].next.Some? then 10 - Depth(threads[i].next.value) else 0
  }

  /** A raised outcome was recorded last, with its own kind and attempts. */
  predicate FailedLast(history: seq<Op>, i: nat, outcome: Outcome)
    requires outcome.Raised?
  {
    history != [] && history[|history| - 1] == NodeFails(i, outcome.kind, outcome.attempts)
  }

  class GraphRunner {
    const nodes: PipelineNodes
    const dlq: DlqService

    constructor () {
      nodes := new PipelineNodes();
      dlq := new DlqService();
    }

    method Call(db: Database, i: nat, n: Node, v: GraphState, input: NodeInput)
      returns (r: Result<GraphState, NodeError>)
      modifies db`invoices, db`runs, db`exceptions, db`ledger
      ensures r == Computed(old(db.View()), i, n, v, input)
      ensures db.View() == if r.Ok? then RowsWritten(old(db.View()), i, n, v, r.value, input) else old(db.View())
    {
      hide Computed, RowsWritten;
      match n
      case IngestNode => r := nodes.Ingest(db, i, v, input);
      case ExtractNode => r := nodes.Extract(db, i, v, input);
      case ValidateNode => r := nodes.Validate(db, i, v, input);
      case MatchNode => r := nodes.Match3Way(db, i, v, input);
      case PolicyNode => r := nodes.PolicyCheck(db, i, v, input);
      case GateNode => r := nodes.DecideGate(db, i, v, input);
      case AutoApproveNode => r := nodes.AutoApprove(db, i, v, input);
      case TriageNode => r := nodes.ExceptionTriage(db, i, v, input);
      case HumanReviewNode => r := nodes.HumanReview(db, i, v, input);
      case ArchiveNode => r := nodes.Archive(db, i, v, input);
      case RejectNode => r := nodes.Reject(db, i, v, input);
    }

    lemma CompletionIsWritten(before: Db, i: nat, input: NodeInput, after: Db)
      requires IsExecuting(before, i) && Attempted(before, i, input).Ok?
      requires var n, v, w := before.threads[i].next.value, before.threads[i].values, Attempted(before, i, input).value;
               after == WithThread(RowsWritten(before, i, n, v, w, input), i, CheckpointAfter(n, w))
      ensures after == Apply(before, NodeCompletes(i, input))
    {
      hide RowsWritten, Attempted;
    }

    /** Runs the scheduled node undisturbed; the checkpointer saves what it returns. */
    method CallAndCheckpoint(db: Database, i: nat, input: NodeInput) returns (a: Retries.Attempt)
      requires db.Valid() && IsExecuting(db.View(), i)
      modifies db
      ensures db.Valid() && |db.invoices| == |old(db.invoices)|
      ensures a == if Attempted(old(db.View()), i, input).Ok? then Retries.Success
                   else Retries.Failure(Retries.Business)
      ensures db.history == old(db.history) + if a == Retries.Success then [NodeCompletes(i, input)] else []
      ensures a != Retries.Success ==> db.threads == old(db.threads)
      ensures a == Retries.Success ==> i in db.threads && Advanced(old(db.threads[i]), db.threads[i])
    {
      hide RowsWritten, Computed, Apply, CheckpointAfter, Advanced;
      ghost var before := db.View();
      var n, v := db.threads[i].next.value, db.threads[i].values;
      var r := Call(db, i, n, v, input);
      if r.Err? {
        return Retries.Failure(Retries.Business);
      }
      db.threads := db.threads[i := CheckpointAfter(n, r.value)];
      CompletionIsWritten(before, i, input, db.View());
      db.Happened(NodeCompletes(i, input));
      CheckpointAdvances(before, i, input);
      TableLaws.OpKeepsInvoiceCount(before, NodeCompletes(i, input));
      a := Retries.Success;
    }

    /** One attempt of the scheduled node comes to what the world and the node dictate. A deterministic
        node error is a business failure; a late fault leaves the node's first transaction behind. */
    method Attempt(db: Database, i: nat, t: NodeTry) returns (a: Retries.Attempt)
      requires db.Valid() && IsExecuting(db.View(), i)
      modifies db
      ensures db.Valid() && |db.invoices| == |old(db.invoices)|
      ensures t.fault != Healthy ==> a == Retries.Failure(t.fault.kind)
      ensures t.fault == Healthy ==>
                a == if i >= |db.invoices| || (old(db.threads[i].next) == Some(PolicyNode) && |t.input.vector| != 768)
                     then Retries.Failure(Retries.Business) else Retries.Success
      ensures db.history == old(db.history)
                + if a == Retries.Success then [NodeCompletes(i, t.input)]
                  else if t.fault.Late? && (old(db.threads[i].next) == Some(MatchNode)
                                            || old(db.threads[i].next) == Some(PolicyNode))
                  then [NodeBreaks(i, t.input)] else []
      ensures a != Retries.Success ==> db.threads == old(db.threads)
      ensures a == Retries.Success ==> i in db.threads && Advanced(old(db.threads[i]), db.threads[i])
    {
      hide Attempted, Advanced, Apply;
      ghost var before := db.View();
      db.ValidIsLawful();
      AttemptErrsIff(before, i, t.input);
      var n, v := db.threads[i].next.value, db.threads[i].values;
      match t.fault
      case Early(kind) =>
        a := Retries.Failure(kind);
      case Late(kind) =>
        if (n == MatchNode || n == PolicyNode) && v.extraction.Some? {
          nodes.FirstTransaction(db, i, n, v, t.input);
          FirstTransactionBreaks(before, i, t.input);
          TableLaws.OpKeepsInvoiceCount(before, NodeBreaks(i, t.input));
          db.Happened(NodeBreaks(i, t.input));
        }
        a := Retries.Failure(kind);
      case Healthy =>
        a := CallAndCheckpoint(db, i, t.input);
    }

    lemma FirstTransactionBreaks(before: Db, i: nat, input: NodeInput)
      requires IsExecuting(before, i) && before.threads[i].values.extraction.Some?
      requires before.threads[i].next == Some(MatchNode) || before.threads[i].next == Some(PolicyNode)
      ensures Apply(before, NodeBreaks(i, input))
           == InvoiceMoved(before, i, before.threads[i].next.value, before.threads[i].values, input)
    {
      hide InvoiceMoved;
    }

    /** The retry loop around one node: infrastructure failures are retried within the budget,
        anything else ends it. */
    method RunNode(db: Database, i: nat, policy: Retries.RetryPolicy, world: World)
      returns (verdict: Retries.Verdict, ghost outcomes: seq<Retries.Attempt>)
      requires db.Valid() && IsExecuting(db.View(), i)
      modifies db
      ensures db.Valid() && |db.invoices| == |old(db.invoices)|
      ensures Retries.Trail(policy, outcomes, verdict) && verdict != Retries.RaisedNested
      ensures var n := old(db.threads[i].next.value);
              && (forall k :: 0 <= k < |outcomes| ==>
                    outcomes[k] == Dictated(|db.invoices|, i, n, world(n, k + 1)))
              && db.history == old(db.history) + FailedTries(i, n, world, |outcomes|)
                   + if verdict == Retries.Completed then [NodeCompletes(i, world(n, |outcomes|).input)] else []
      ensures verdict == Retries.Completed ==> i in db.threads && Advanced(old(db.threads[i]), db.threads[i])
      ensures verdict != Retries.Completed ==> db.threads == old(db.threads)
    {
      hide Advanced, Dictated, Retries.Trail, Run;
      var n := db.threads[i].next.value;
      var attempt := 1;
      outcomes := [];
      while attempt <= policy.attempts
        invariant |outcomes| == attempt - 1
        invariant if policy.attempts >= 1 then attempt <= policy.attempts else attempt == 1
        invariant forall k :: 0 <= k < |outcomes| ==>
                    outcomes[k] == Retries.Failure(Retries.Infra)
                    && outcomes[k] == Dictated(|db.invoices|, i, n, world(n, k + 1))
        invariant db.Valid() && |db.invoices| == |old(db.invoices)|
        invariant db.history == old(db.history) + FailedTries(i, n, world, |outcomes|)
        invariant db.threads == old(db.threads)
      {
        var outcome := Attempt(db, i, world(n, attempt));
        outcomes := outcomes + [outcome];
        AttemptIsDictated(|db.invoices|, i, n, world(n, attempt), outcome);
        OneMoreTry(i, n, world, attempt, outcome);
        var settled := Retries.Settles(policy, attempt, outcome);
        if settled.Some? {
          verdict := settled.value;
          TrailEnds(policy, outcomes, verdict);
          return;
        }
        attempt := attempt + 1;
      }
      verdict := Retries.Exhausted;
      TrailEnds(policy, outcomes, verdict);
    }

    lemma AttemptIsDictated(invoices: nat, i: nat, n: Node, t: NodeTry, outcome: Retries.Attempt)
      requires t.fault != Healthy ==> outcome == Retries.Failure(t.fault.kind)
      requires t.fault == Healthy ==>
                 outcome == if i >= invoices || (n == PolicyNode && |t.input.vector| != 768)
                            then Retries.Failure(Retries.Business) else Retries.Success
      ensures outcome == Dictated(invoices, i, n, t)
      ensures outcome == Retries.Success ==> t.fault == Healthy
    {}

    lemma OneMoreTry(i: nat, n: Node, world: World, attempt: nat, outcome: Retries.Attempt)
      requires attempt >= 1 && (outcome == Retries.Success ==> world(n, attempt).fault == Healthy)
      ensures FailedTries(i, n, world, attempt)
           == FailedTries(i, n, world, attempt - 1)
              + if world(n, attempt).fault.Late? && (n == MatchNode || n == PolicyNode)
                then [NodeBreaks(i, world(n, attempt).input)] else []
      ensures outcome == Retries.Success ==> FailedTries(i, n, world, attempt) == FailedTries(i, n, world, attempt - 1)
    {}

    lemma TrailEnds(policy: Retries.RetryPolicy, outcomes: seq<Retries.Attempt>, verdict: Retries.Verdict)
      requires forall k :: 0 <= k < |outcomes| - 1 ==> outcomes[k] == Retries.Failure(Retries.Infra)
      requires |outcomes| <= if policy.attempts >= 0 then policy.attempts else 0
      requires if outcomes == [] then policy.attempts <= 0 && verdict == Retries.Exhausted
               else if outcomes[|outcomes| - 1] != Retries.Failure(Retries.Infra)
               then verdict == Retries.VerdictOf(outcomes[|outcomes| - 1])
               else verdict == Retries.Exhausted && policy.attempts <= |outcomes|
      ensures Retries.Trail(policy, outcomes, verdict)
    {}

    /** The failure kind and attempt count the dead-letter record gets. */
    function FailureMeta(verdict: Retries.Verdict, policy: Retries.RetryPolicy): (Retries.FailureKind, int) {
      if verdict == Retries.Exhausted then (Retries.Infra, policy.attempts) else (Retries.Business, 1)
    }

    /** Why the retry loop stopped, in terms of the world alone. */
    lemma TrailMeans(
      policy: Retries.RetryPolicy, outcomes: seq<Retries.Attempt>, verdict: Retries.Verdict,
      world: World, invoices: nat, i: nat, n: Node)
      requires Retries.Trail(policy, outcomes, verdict) && verdict != Retries.RaisedNested
      requires forall k :: 0 <= k < |outcomes| ==> outcomes[k] == Dictated(invoices, i, n, world(n, k + 1))
      ensures verdict == Retries.Completed ==>
                |outcomes| <= policy.attempts && Comes(world, invoices, i, n, |outcomes|, Retries.Success)
      ensures verdict != Retries.Completed ==>
                RaisedFor(world, invoices, i, n, policy.attempts, FailureMeta(verdict, policy).0, |outcomes|)
    {
      hide Dictated;
      assert forall k :: 1 <= k <= |outcomes| ==>
        outcomes[k - 1] == Dictated(invoices, i, n, world(n, k));
    }

    /** One node of the walk: got past after `calls` attempts, or given up and recorded. */
    method RunOrRecord(db: Database, i: nat, policy: Retries.RetryPolicy, world: World)
      returns (failure: Option<Outcome>, ghost calls: nat)
      requires db.Valid() && IsExecuting(db.View(), i)
      modifies db
      ensures db.Valid() && |db.invoices| == |old(db.invoices)| && i in db.threads
      ensures failure.None? ==>
                && Advanced(old(db.threads[i]), db.threads[i]) && calls <= policy.attempts
                && var n := old(db.threads[i].next.value);
                && Comes(world, |db.invoices|, i, n, calls, Retries.Success)
                && db.history == old(db.history) + FailedTries(i, n, world, calls)
                                 + [NodeCompletes(i, world(n, calls).input)]
      ensures failure.Some? ==>
                && db.threads[i] == old(db.threads[i]).(executing := false, paused := false)
                && var n, outcome := old(db.threads[i].next.value), failure.value;
                && outcome.Raised? && RaisedFor(world, |db.invoices|, i, n, policy.attempts, outcome.kind, calls)
                && outcome.attempts == (if outcome.kind == Retries.Business then 1 else policy.attempts)
                && db.history == old(db.history) + FailedTries(i, n, world, calls)
                                 + [NodeFails(i, outcome.kind, outcome.attempts)]
    {
      hide Comes, Dictated, RaisedFor, Run, FailedTries, Retries.Trail, TableLaws.Invariant, Advanced;
      ghost var n := db.threads[i].next.value;
      db.ValidIsLawful();
      RunningIsNotPaused(db.View(), i);
      var verdict, outcomes := RunNode(db, i, policy, world);
      calls := |outcomes|;
      TrailMeans(policy, outcomes, verdict, world, |db.invoices|, i, n);
      if verdict == Retries.Completed {
        return None, calls;
      }
      assert db.history == old(db.history) + FailedTries(i, n, world, calls);
      var meta := FailureMeta(verdict, policy);
      dlq.RecordFailure(db, i, meta.0, meta.1);
      failure := Some(Raised(meta.0, meta.1));
    }

    /** Runs the thread until it ends, pauses, or fails for good; a failure is recorded and raised. `steps`
        are the nodes got past, `made` the attempts of the node that failed. */
    method Execute(db: Database, i: nat, policy: Retries.RetryPolicy, world: World)
      returns (outcome: Outcome, ghost steps: seq<Step>, ghost made: nat)
      requires db.Valid()
      modifies db
      ensures db.Valid() && |db.invoices| == |old(db.invoices)| && !IsExecuting(db.View(), i)
      ensures !IsExecuting(old(db.View()), i) ==> outcome == Returned && steps == [] && db.View() == old(db.View())
      ensures forall k :: 0 <= k < |steps| ==>
                steps[k].calls <= policy.attempts
                && Comes(world, |db.invoices|, i, steps[k].node, steps[k].calls, Retries.Success)
      ensures i in old(db.threads) ==>
                i in db.threads && db.threads[i].values.trace == old(db.threads[i].values.trace) + NodesIn(steps)
      ensures outcome.Returned? ==> db.history == old(db.history) + Course(i, world, steps)
      ensures outcome.Returned? && IsExecuting(old(db.View()), i) ==> steps != [] && AtRest(db.threads, i)
      ensures outcome.Raised? ==>
                && i in db.threads && db.threads[i].next.Some? && !AtRest(db.threads, i)
                && var n := db.threads[i].next.value;
                && RaisedFor(world, |db.invoices|, i, n, policy.attempts, outcome.kind, made)
                && !GetsThrough(world, |db.invoices|, i, n, policy.attempts)
                && outcome.attempts == (if outcome.kind == Retries.Business then 1 else policy.attempts)
                && db.history == old(db.history) + Course(i, world, steps) + FailedTries(i, n, world, made)
                                 + [NodeFails(i, outcome.kind, outcome.attempts)]
    {
      hide Comes, RaisedFor, GetsThrough, Run, Course, FailedTries;
      steps, made := [], 0;
      NoCourse(i, world);
      while i in db.threads && db.threads[i].executing && db.threads[i].next.Some?
        invariant db.Valid() && |db.invoices| == |old(db.invoices)|
        invariant steps == [] ==> db.View() == old(db.View())
        invariant !IsExecuting(old(db.View()), i) ==> steps == []
        invariant forall k :: 0 <= k < |steps| ==>
                    steps[k].calls <= policy.attempts
                    && Comes(world, |db.invoices|, i, steps[k].node, steps[k].calls, Retries.Success)
        invariant i in old(db.threads) ==>
                    i in db.threads && db.threads[i].values.trace == old(db.threads[i].values.trace) + NodesIn(steps)
        invariant db.history == old(db.history) + Course(i, world, steps)
        invariant steps != [] ==> IsExecuting(db.View(), i) || AtRest(db.threads, i)
        decreases Remaining(db.threads, i)
      {
        ghost var n := db.threads[i].next.value;
        var failure, calls := RunOrRecord(db, i, policy, world);
        if failure.Some? {
          RaisedMeansStuck(world, |db.invoices|, i, n, policy.attempts, failure.value.kind, calls);
          return failure.value, steps, calls;
        }
        SuccessorDeepens(n, db.threads[i].values);
        CourseOfAppended(i, world, steps, Step(n, calls));
        steps := steps + [Step(n, calls)];
      }
      outcome := Returned;
    }

    lemma NoCourse(i: nat, world: World)
      ensures Course(i, world, []) == [] && NodesIn([]) == []
    {}

    /** Start, resume, or merely read the run of one invoice. It comes back finished or waiting for a
        decision, unless some node does not get through its attempts. */
    method RunInvoice(db: Database, i: nat, policy: Retries.RetryPolicy, world: World)
      returns (outcome: Outcome, ghost steps: seq<Step>)
      requires db.Valid()
      modifies db
      ensures db.Valid() && Continued(old(db.history) + [Tables.RunInvoice(i)], db.history, i)
      ensures |db.invoices| == |old(db.invoices)|
      ensures !IsExecuting(db.View(), i)
      ensures AtRest(old(db.threads), i) ==> outcome == Returned && db.View() == old(db.View())
      ensures outcome.Returned? <==> AtRest(db.threads, i)
      ensures outcome.Returned? ==> db.history == old(db.history) + [Tables.RunInvoice(i)] + Course(i, world, steps)
      ensures forall k :: 0 <= k < |steps| ==>
                Comes(world, |db.invoices|, i, steps[k].node, steps[k].calls, Retries.Success)
      ensures outcome.Raised? ==>
                i in db.threads && db.threads[i].next.Some? && FailedLast(db.history, i, outcome)
                && !GetsThrough(world, |db.invoices|, i, db.threads[i].next.value, policy.attempts)
      ensures (forall n :: GetsThrough(world, |db.invoices|, i, n, policy.attempts)) ==> outcome == Returned
    {
      hide Comes, GetsThrough, RaisedFor, Course, FailedTries, Run, TableLaws.Invariant, FailedLast, Continued;
      db.ValidIsLawful();
      LaunchedRunsOrRests(db.View(), i);
      Launch(db, i);
      db.Happened(Tables.RunInvoice(i));
      ghost var made;
      ghost var launched := db.history;
      outcome, steps, made := Execute(db, i, policy, world);
      ExecutedOnlyNodes(launched, db.history, i, world, steps, made, outcome, db.threads);
    }

    /** What an execution enters into the history are operations of its own invoice. */
    lemma ExecutedOnlyNodes(
      earlier: seq<Op>, later: seq<Op>, i: nat, world: World, steps: seq<Step>, made: nat, outcome: Outcome,
      threads: map<nat, Thread>)
      requires outcome.Returned? ==> later == earlier + Course(i, world, steps)
      requires outcome.Raised? ==>
                 i in threads && threads[i].next.Some?
                 && later == earlier + Course(i, world, steps) + FailedTries(i, threads[i].next.value, world, made)
                             + [NodeFails(i, outcome.kind, outcome.attempts)]
      ensures Continued(earlier, later, i)
      ensures outcome.Raised? ==> FailedLast(later, i, outcome)
    {
      hide Course, FailedTries;
      CourseIsNodeOps(i, world, steps);
      if outcome.Raised? { FailedTriesAreNodeOps(i, threads[i].next.value, world, made); }
    }

    method Launch(db: Database, i: nat)
      modifies db`threads
      ensures db.View() == RunInvoked(old(db.View()), i)
    {
      if i !in db.threads {
        db.threads := db.threads[i := Thread(InitialState(i), Some(IngestNode), false, true)];
      } else if db.threads[i].next.Some? && !db.threads[i].paused {
        db.threads := db.threads[i := db.threads[i].(executing := true)];
      } else {
        assert db.threads[i := db.threads[i]] == db.threads;
      }
    }

    /** Puts the decision into the paused thread and releases it. */
    method SubmitDecision(db: Database, i: nat, d: DecisionRow)
      modifies db`threads
      ensures db.View() == GraphResumed(old(db.View()), i, d)
    {
      if i in db.threads {
        var t := db.threads[i];
        var decided := t.values.(humanDecision := Some(HumanDecision(d.decisionId, d.actor, d.action, d.reasonCode)));
        db.threads := db.threads[i := Thread(decided, t.next, false, t.next.Some?)];
      }
    }
  }

  class DlqService {
    const writer: LedgerWriter

    constructor () {
      writer := new LedgerWriter();
    }

    method MarkRun(db: Database, r: nat, status: RunStatus)
      modifies db`runs
      ensures db.View() == RunMarked(old(db.View()), r, status)
    {
      if r < |db.runs| {
        db.runs := db.runs[r := db.runs[r].(status := status)];
      }
    }

    /** The run key comes from the last checkpoint. Without one the insert violates its foreign key
        and the whole record is rolled back. */
    method RecordFailure(db: Database, i: nat, kind: Retries.FailureKind, attempts: int)
      requires db.Valid() && IsExecuting(db.View(), i)
      modifies db
      ensures db.Valid() && db.history == old(db.history) + [NodeFails(i, kind, attempts)]
      ensures db.threads == old(db.threads)[i := old(db.threads[i]).(executing := false)]
      ensures db.invoices == old(db.invoices)
    {
      var t := db.threads[i];
      db.threads := db.threads[i := Halted(t)];
      if t.values.runDbId.Some? {
        var r := t.values.runDbId.value;
        var d := |db.dlq|;
        db.dlq := db.dlq + [DlqRow(r, i, kind, attempts, Pending)];
        MarkRun(db, r, Failed);
        writer.Append(db, Some(r), RunFailed(d));
      }
      db.Happened(NodeFails(i, kind, attempts));
    }

    lemma ReplayedRunsOrRests(before: Db, d: nat)
      requires TableLaws.Invariant(before) && d < |before.dlq| && before.dlq[d].status == Pending
      ensures var after, i := Apply(before, ReplayEntry(d)), before.dlq[d].invoiceId;
              IsExecuting(after, i) || AtRest(after.threads, i)
    {
      hide TableLaws.Invariant;
      LaunchedRunsOrRests(before, before.dlq[d].invoiceId);
    }

    lemma NodeOpsKeepEntries(db: Db, op: Op, i: nat)
      requires NodeOp(op, i)
      ensures db.dlq <= Apply(db, op).dlq
    {
      hide Attempted, RowsWritten, InvoiceMoved, CheckpointAfter, AllLogged;
      if op.NodeCompletes? && IsExecuting(db, op.invoiceId) && Attempted(db, op.invoiceId, op.input).Ok? {
        RowsKeepEntries(db, op.invoiceId, db.threads[op.invoiceId].next.value,
                        db.threads[op.invoiceId].values, Attempted(db, op.invoiceId, op.input).value, op.input);
      }
      if op.NodeBreaks? { BreakKeepsEntries(db, op.invoiceId, op.input); }
    }

    lemma RowsKeepEntries(db: Db, i: nat, n: Node, v: GraphState, w: GraphState, input: NodeInput)
      ensures RowsWritten(db, i, n, v, w, input).dlq == db.dlq
    {
      hide InvoiceAfter, RunAfter, EventsWritten, NewException, AllLogged;
      var run := w.runDbId;
      var row := if n == TriageNode then NewException(i, run, v) else None;
      var c := WithNewException(RunMoved(InvoiceMoved(db, i, n, w, input), run, n, w), row);
      TableLaws.LoggingTouchesLedgerOnly(c, run, EventsWritten(n, run, |db.exceptions|, input.classified));
    }

    lemma BreakKeepsEntries(db: Db, i: nat, input: NodeInput)
      ensures NodeBroken(db, i, input).dlq == db.dlq
    {
      hide InvoiceAfter;
    }

    /** What the resumed run goes on to do leaves the claimed entry as it is. */
    lemma {:induction false} ClaimStands(ops: seq<Op>, d: nat, later: seq<Op>)
      requires d < |Run(ops).dlq| && Run(ops).dlq[d].status == Pending
      requires Continued(ops + [ReplayEntry(d)], later, Run(ops).dlq[d].invoiceId)
      ensures d < |Run(later).dlq| && Run(later).dlq[d] == Run(ops).dlq[d].(status := Replayed)
      decreases |later|
    {
      hide Apply;
      var i, n := Run(ops).dlq[d].invoiceId, |later| - 1;
      if later == ops + [ReplayEntry(d)] {
        TableLaws.RunOfAppended(ops, ReplayEntry(d));
        ReplayClaims(Run(ops), d);
      } else {
        assert Continued(ops + [ReplayEntry(d)], later[..n], i) by {
          assert forall k :: |ops| + 1 <= k < n ==> later[..n][k] == later[k];
        }
        ClaimStands(ops, d, later[..n]);
        assert NodeOp(later[n], i);
        NodeOpsKeepEntries(Run(later[..n]), later[n], i);
      }
    }

    lemma ReplayClaims(db: Db, d: nat)
      requires d < |db.dlq| && db.dlq[d].status == Pending
      ensures Apply(db, ReplayEntry(d)).dlq == db.dlq[d := db.dlq[d].(status := Replayed)]
    {}

    /** Claims a waiting entry, then hands the invoice back to the runner; anything else is refused
        and changes nothing. */
    method Replay(db: Database, runner: GraphRunner, d: nat, policy: Retries.RetryPolicy, world: World)
      returns (r: Result<Outcome, string>)
      requires db.Valid()
      modifies db
      ensures db.Valid()
      ensures r.Ok? <==> d < |old(db.dlq)| && old(db.dlq)[d].status == Pending
      ensures r.Err? ==> db.View() == old(db.View())
      ensures r.Ok? ==>
                var i := old(db.dlq)[d].invoiceId;
                && Continued(old(db.history) + [ReplayEntry(d)], db.history, i) && !IsExecuting(db.View(), i)
                && d < |db.dlq| && db.dlq[d] == old(db.dlq)[d].(status := Replayed)
                && (r.value.Returned? <==> AtRest(db.threads, i))
                && (r.value.Raised? ==>
                      i in db.threads && db.threads[i].next.Some? && FailedLast(db.history, i, r.value)
                      && !GetsThrough(world, |db.invoices|, i, db.threads[i].next.value, policy.attempts))
    {
      hide TableLaws.Invariant, GetsThrough, RaisedFor, Comes, Course, FailedTries, Run, Continued, FailedLast;
      db.ValidIsLawful();
      ghost var before := db.View();
      if d >= |db.dlq| {
        return Err("not found");
      }
      var entry := db.dlq[d];
      if entry.status != Pending {
        return Err("not pending");
      }
      db.dlq := db.dlq[d := entry.(status := Replayed)];
      MarkRun(db, entry.runId, Running);
      writer.Append(db, Some(entry.runId), DlqReplayed(d));
      runner.Launch(db, entry.invoiceId);
      db.Happened(ReplayEntry(d));
      ReplayedRunsOrRests(before, d);
      ghost var replayed := db.history;
      var outcome, steps, made := runner.Execute(db, entry.invoiceId, policy, world);
      runner.ExecutedOnlyNodes(replayed, db.history, entry.invoiceId, world, steps, made, outcome, db.threads);
      ClaimStands(old(db.history), d, db.history);
      r := Ok(outcome);
    }
  }
}
