/** The dead-letter queue over whole histories: failures and replays are conserved, and when failed
    threads are resumed only by replay a run never has two entries waiting and its status tells
    where it stands. */
module DeadLetters {
  import opened Common
  import opened Graph
  import opened Records
  import opened Cases
  import opened Tables
  import opened Projection
  import opened TableLaws
  import opened Histories
  import GraphLaws
  import Ledger
  import Retries

  // ------------------------------------------------------------------ conservation

  /** The `run.failed` events of a run name each of its dead-letter rows exactly once, and the
      `dlq.replayed` events each of its replayed rows exactly once: nothing is lost or replayed twice. */
  lemma FailuresAreConserved(ops: seq<Op>, i: nat)
    requires Exists(Run(ops), i)
    ensures var entries := DlqOf(Run(ops).dlq, i);
            && FailuresIn(EventsFor(Run(ops), i)) == multiset(entries.Keys)
            && ReplaysIn(EventsFor(Run(ops), i)) == multiset(ReplayedKeys(entries))
    ensures forall d :: 0 <= d < |Run(ops).dlq| && Run(ops).dlq[d].invoiceId == i ==>
              Some(Run(ops).dlq[d].runId) == LiveRun(Run(ops).runs, i)
  {
    hide Run, LiveRun, EventsFor, EventsOf, ExceptionsOf, DecisionsOn, OutcomeSound, ThreadSound, TraceWitnessed,
         ColumnsShown, FailuresIn, ReplaysIn, Sound;
    Lawful(ops, i);
    var c := CaseOf(Run(ops), i);
    if Untouched(c) { QuietStart(c); }
    forall d | 0 <= d < |Run(ops).dlq| && Run(ops).dlq[d].invoiceId == i
      ensures Some(Run(ops).dlq[d].runId) == LiveRun(Run(ops).runs, i)
    {
      assert d in c.dlq && c.dlq[d] == Run(ops).dlq[d];
    }
  }

  lemma QuietStart(c: Case)
    requires Untouched(c)
    ensures FailuresIn(c.events) == multiset{} && ReplaysIn(c.events) == multiset{} && ReplayedKeys(c.dlq) == {}
  {
    ViewsOfAppended([], IngestAccepted);
    assert [] + [IngestAccepted] == [IngestAccepted];
  }

  /** The runner promises that every ultimate failure reaches the queue. It does exactly when the ingest
      checkpoint exists: before it the run key is missing, the insert violates its foreign key, and
      the failure leaves no row, no status and no event. */
  lemma FailureIsRecordedIff(ops: seq<Op>, i: nat, kind: Retries.FailureKind, attempts: int)
    requires IsExecuting(Run(ops), i)
    ensures var db, after := Run(ops), Apply(Run(ops), NodeFails(i, kind, attempts));
            && (|after.dlq| == |db.dlq| + 1 <==> Entered(db, i))
            && (|after.ledger| == |db.ledger| + 1 <==> Entered(db, i))
            && (!Entered(db, i) ==> after == db.(threads := after.threads))
            && (Entered(db, i) ==>
                  && LiveRun(db.runs, i).Some?
                  && var r, d := LiveRun(db.runs, i).value, |db.dlq|;
                  && after.dlq == db.dlq + [DlqRow(r, i, kind, attempts, Pending)]
                  && r < |after.runs| && after.runs[r].status == Failed
                  && after.ledger[|db.ledger|].run == Some(r) && after.ledger[|db.ledger|].event == RunFailed(d))
  {
    hide Run, LiveRun, EventsFor, ThreadSound, TraceWitnessed, OutcomeSound, ColumnsShown, DlqConserved,
         ExceptionsQuoted;
    EnteredIffRunKnown(ops, i);
    InvariantAlways(ops);
    FailureNamesRun(Run(ops), i);
    hide CaseInv, Ledger.NextSeq, Sound, Invariant;
  }

  lemma EnteredIffRunKnown(ops: seq<Op>, i: nat)
    requires IsExecuting(Run(ops), i)
    ensures Entered(Run(ops), i) <==> Run(ops).threads[i].values.runDbId.Some?
  {
    hide Run, LiveRun, EventsFor, EventsOf, ExceptionsOf, DecisionsOn, DlqOf, TraceWitnessed, OutcomeSound,
         ColumnsShown, DlqConserved, ExceptionsQuoted, Checkpointed, Successor;
    InvariantAlways(ops);
    if Exists(Run(ops), i) { Lawful(ops, i); }
  }

  // ------------------------------------------------------------------ at most one waiting entry

  /** At most one entry waits, and while it does the thread is stopped and not at the human gate. */
  ghost predicate OneWaiting(c: Case) {
    && (forall d, k :: Replayable(c, d) && Replayable(c, k) ==> d == k)
    && (forall d :: Replayable(c, d) ==> c.thread.Some? && !c.thread.value.executing && !c.thread.value.paused)
  }

  /** The discipline: a thread that failed is not started directly. */
  predicate Disciplined(c: Case, a: CaseAction) {
    a == Start ==> forall d :: d in c.dlq ==> !Replayable(c, d)
  }

  lemma CompletionKeepsWaiting(c: Case, a: CaseAction)
    requires OneWaiting(c) && (a.Complete? || a.Break? || a.Crash? || a.Start?)
    requires Disciplined(c, a)
    ensures OneWaiting(CaseStep(c, a))
  {
    hide StageOf, NewException, RunAfter, CheckpointAfter, ShownAfter, StatusAfter, EventsAfter;
    assert CaseStep(c, a).dlq == c.dlq;
    assert forall d :: Replayable(CaseStep(c, a), d) <==> Replayable(c, d);
  }

  lemma FailureKeepsWaiting(c: Case, a: CaseAction)
    requires OneWaiting(c) && a.Fail? && Fresh(c, a) && (Executing(c) ==> !c.thread.value.paused)
    ensures OneWaiting(CaseStep(c, a))
  {
    var after := CaseStep(c, a);
    assert forall d :: Replayable(after, d) ==> Replayable(c, d) || (d == a.newDlqId && Executing(c));
  }

  lemma ReplayKeepsWaiting(c: Case, a: CaseAction)
    requires OneWaiting(c) && a.Replay?
    ensures OneWaiting(CaseStep(c, a))
  {
    var after, claimed := CaseStep(c, a), a.dlqId;
    assert forall d :: Replayable(after, d) ==> Replayable(c, d) && d != claimed;
  }

  lemma DecisionKeepsWaiting(c: Case, a: CaseAction)
    requires OneWaiting(c) && a.Decide?
    requires a.exceptionId in c.exceptions && c.exceptions[a.exceptionId].status == Open ==>
               c.thread.Some? && c.thread.value.paused
    ensures OneWaiting(CaseStep(c, a))
  {
    hide Decided, Claimed, FourEyesRefuses, StatusDecided;
    var after := CaseStep(c, a);
    assert after.dlq == c.dlq;
    assert forall d :: Replayable(after, d) <==> Replayable(c, d);
  }

  lemma ExecutingIsNotPaused(c: Case)
    requires CaseInv(c) && Executing(c)
    ensures !c.thread.value.paused
  {
    hide Checkpointed, Successor, TraceWitnessed, OutcomeSound, DlqConserved, ColumnsShown;
  }

  lemma OpenIsPaused(c: Case, e: nat)
    requires CaseInv(c) && e in c.exceptions && c.exceptions[e].status == Open
    ensures c.thread.Some? && c.thread.value.paused
  {
    hide Checkpointed, Successor, TraceWitnessed, DlqConserved, ColumnsShown, ThreadSound, ExceptionSound;
  }

  lemma StepKeepsOneWaiting(c: Case, a: CaseAction)
    requires CaseInv(c) && OneWaiting(c) && Fresh(c, a) && Disciplined(c, a)
    ensures OneWaiting(CaseStep(c, a))
  {
    hide CaseInv, CaseStep, OneWaiting;
    match a
    case Fail(_, _, _) =>
      if Executing(c) { ExecutingIsNotPaused(c); }
      FailureKeepsWaiting(c, a);
    case Replay(_) => ReplayKeepsWaiting(c, a);
    case Decide(e, _, _, _, _) =>
      if e in c.exceptions && c.exceptions[e].status == Open { OpenIsPaused(c, e); }
      DecisionKeepsWaiting(c, a);
    case _ => CompletionKeepsWaiting(c, a);
  }

  // ------------------------------------------------------------------ the run status under the discipline

  /** COMPLETED exactly when the thread has ended, FAILED exactly while an entry waits, and
      AWAITING_DECISION while the thread is paused. */
  ghost predicate StatusTells(c: Case) {
    c.thread.Some? && ValuesOf(c).trace != [] ==>
      && (c.run.status == Completed <==> c.thread.value.next.None?)
      && (c.run.status == Failed <==> exists d :: Replayable(c, d))
      && (c.thread.value.paused ==> c.run.status == AwaitingDecision)
      && (TriageNode !in ValuesOf(c).trace && c.run.status != Completed && c.run.status != Failed ==>
            c.run.status == Running)
  }

  lemma SameStatus(c: Case, after: Case)
    requires StatusTells(c) && after.run.status == c.run.status && after.dlq == c.dlq
    requires c.thread.Some? && after.thread.Some?
    requires ValuesOf(after).trace == ValuesOf(c).trace && after.thread.value.next == c.thread.value.next
    requires after.thread.value.paused ==> c.thread.value.paused
    ensures StatusTells(after)
  {
    assert forall d :: Replayable(after, d) <==> Replayable(c, d);
  }

  lemma LandedStatus(c: Case, n: Node, w: GraphState, e: nat, input: NodeInput)
    requires Executing(c) && c.thread.value.next == Some(n) && n != RejectNode
    requires OneWaiting(c) && StatusTells(c) && (n == IngestNode || ValuesOf(c).trace != [])
    requires w.trace == ValuesOf(c).trace + [n]
    ensures StatusTells(Landed(c, n, w, e, input))
  {
    hide NewException, ShownAfter, StatusAfter, EventsAfter, RouteAfterIngest, RouteAfterValidate, RouteAfterMatch,
         RouteAfterPolicy, RouteAfterGate;
    var after := Landed(c, n, w, e, input);
    assert w.trace[|ValuesOf(c).trace|] == n && forall m :: m in ValuesOf(c).trace ==> m in w.trace;
    assert forall d :: !Replayable(c, d);
    assert forall d :: Replayable(after, d) ==> Replayable(c, d);
  }

  lemma CompletionKeepsStatus(c: Case, a: CaseAction)
    requires CaseInv(c) && OneWaiting(c) && StatusTells(c) && a.Complete?
    ensures StatusTells(CaseStep(c, a))
  {
    hide Underway, OneWaiting, StatusTells, Landed, Stage;
    if Executing(c) && StageOf(c, a.input, a.hits, a.newExceptionId).Ok? {
      if Underway(c) {
        NextIsAhead(c);
        EntersNonEmpty(c);
      }
      GraphLaws.StageExtends(
        c.thread.value.next.value, ValuesOf(c), a.input, PickedRun(c), a.hits, a.newExceptionId);
      LandedStatus(c, c.thread.value.next.value, StageOf(c, a.input, a.hits, a.newExceptionId).value,
                   a.newExceptionId, a.input);
    }
  }

  lemma EntersNonEmpty(c: Case)
    requires Underway(c)
    ensures c.thread.Some? && ValuesOf(c).trace != [] && ValuesOf(c).runDbId.Some?
  {
    hide TraceWitnessed, OutcomeSound, DlqConserved, ColumnsShown, ExceptionsQuoted, Checkpointed, Successor;
    assert Checkpointed(ValuesOf(c));
    TraceStarts(ValuesOf(c));
  }

  lemma FailureKeepsStatus(c: Case, a: CaseAction)
    requires CaseInv(c) && StatusTells(c) && a.Fail?
    ensures StatusTells(CaseStep(c, a))
  {
    if Executing(c) { ExecutingIsNotPaused(c); }
    if Underway(c) { EntersNonEmpty(c); }
    hide Underway;
    var after := CaseStep(c, a);
    if Executing(c) && ValuesOf(c).runDbId.Some? {
      assert Replayable(after, a.newDlqId);
    } else if c.thread.Some? {
      SameStatus(c, after);
    }
  }

  lemma ReplayKeepsStatus(c: Case, a: CaseAction)
    requires OneWaiting(c) && StatusTells(c) && a.Replay?
    ensures StatusTells(CaseStep(c, a))
  {
    var after, claimed := CaseStep(c, a), a.dlqId;
    if Replayable(c, claimed) {
      assert forall d :: Replayable(after, d) ==> Replayable(c, d) && d != claimed;
      assert forall d :: Replayable(after, d) ==> d == claimed;
    }
  }

  lemma QuietStepKeepsStatus(c: Case, a: CaseAction)
    requires StatusTells(c) && (a.Start? || a.Break? || a.Crash?)
    ensures StatusTells(CaseStep(c, a))
  {
    hide StatusTells;
    if c.thread.Some? { SameStatus(c, CaseStep(c, a)); } else { NotBegun(CaseStep(c, a)); }
  }

  lemma NotBegun(c: Case)
    requires c.thread.Some? ==> ValuesOf(c).trace == []
    ensures StatusTells(c)
  {}

  lemma DecisionKeepsStatus(c: Case, a: CaseAction)
    requires StatusTells(c) && a.Decide? && (a.exceptionId in c.exceptions ==> c.thread.Some?)
    ensures StatusTells(CaseStep(c, a))
  {
    hide StatusTells, Decided, Claimed, FourEyesRefuses, StatusDecided;
    if a.exceptionId in c.exceptions { SameStatus(c, CaseStep(c, a)); }
  }

  lemma ExceptionHasThread(c: Case, e: nat)
    requires CaseInv(c) && e in c.exceptions
    ensures c.thread.Some?
  {
    hide ThreadSound, TraceWitnessed, ColumnsShown, DlqConserved, ExceptionsQuoted;
  }

  /** Both facts the discipline buys. */
  ghost predicate Orderly(c: Case) {
    OneWaiting(c) && StatusTells(c)
  }

  lemma StepKeepsOrderly(c: Case, a: CaseAction)
    requires CaseInv(c) && Orderly(c) && Fresh(c, a) && Disciplined(c, a)
    ensures Orderly(CaseStep(c, a))
  {
    hide CaseInv, CaseStep, OneWaiting, StatusTells, Fresh, Disciplined;
    StepKeepsOneWaiting(c, a);
    match a
    case Complete(_, _, _) => CompletionKeepsStatus(c, a);
    case Fail(_, _, _) => FailureKeepsStatus(c, a);
    case Replay(_) => ReplayKeepsStatus(c, a);
    case Decide(e, _, _, _, _) =>
      if e in c.exceptions { ExceptionHasThread(c, e); }
      DecisionKeepsStatus(c, a);
    case _ => QuietStepKeepsStatus(c, a);
  }

  // ------------------------------------------------------------------ disciplined histories

  predicate WaitsFor(row: DlqRow, i: nat) {
    row.invoiceId == i && row.status == Pending
  }

  /** No step of the history starts a thread directly while one of its entries waits. */
  predicate DisciplinedHistory(ops: seq<Op>) {
    ops == [] ||
    var n := |ops| - 1;
    DisciplinedHistory(ops[..n]) &&
    (ops[n].RunInvoice? ==>
       forall d :: 0 <= d < |Run(ops[..n]).dlq| ==> !WaitsFor(Run(ops[..n]).dlq[d], ops[n].invoiceId))
  }

  predicate AtMostOneWaiting(db: Db, i: nat) {
    forall d, k :: 0 <= d < k < |db.dlq| ==> !(WaitsFor(db.dlq[d], i) && WaitsFor(db.dlq[k], i))
  }

  lemma DisciplineReachesCase(db: Db, op: Op, i: nat)
    requires Visible(db, i) && !op.Upload? && TargetOf(db, op) == Some(i)
    requires op.RunInvoice? ==> forall d :: 0 <= d < |db.dlq| ==> !WaitsFor(db.dlq[d], i)
    ensures Disciplined(CaseOf(db, i), ActionOf(db, op)) && Fresh(CaseOf(db, i), ActionOf(db, op))
  {
    hide LiveRun, EventsOf, DecisionsOn, HitsFor;
    ExceptionShown(db, |db.exceptions|, i);
  }

  lemma OrderlyStep(db: Db, op: Op, i: nat)
    requires Invariant(db) && Exists(db, i) && Visible(db, i) && Orderly(CaseOf(db, i))
    requires op.RunInvoice? ==> forall d :: 0 <= d < |db.dlq| ==> !WaitsFor(db.dlq[d], op.invoiceId)
    ensures Exists(Apply(db, op), i) && Visible(Apply(db, op), i) && Orderly(CaseOf(Apply(db, op), i))
  {
    hide Apply, LiveRun, CaseOf, Orderly, Sound, CaseInv, ActionOf, Disciplined, CaseStep, Fresh, Uploaded, TargetOf;
    assert CaseHolds(db, i);
    if op.Upload? {
      UploadIsApplied(db, op.hash);
      UploadKeepsThreads(db, op.hash);
      UploadShows(db, op.hash, i);
    } else {
      OpKeepsInvoiceCount(db, op);
      OpShows(db, op, i);
      if TargetOf(db, op) == Some(i) {
        StartTargets(db, op);
        DisciplineReachesCase(db, op, i);
        StepKeepsOrderly(CaseOf(db, i), ActionOf(db, op));
      }
    }
  }

  lemma StartTargets(db: Db, op: Op)
    ensures op.RunInvoice? ==> TargetOf(db, op) == Some(op.invoiceId)
  {}

  lemma UntouchedIsOrderly(c: Case)
    requires Untouched(c)
    ensures Orderly(c)
  {}

  lemma {:induction false} OrderlyAlways(ops: seq<Op>, i: nat)
    requires DisciplinedHistory(ops) && Exists(Run(ops), i)
    ensures Visible(Run(ops), i) && Orderly(CaseOf(Run(ops), i))
  {
    hide Apply, LiveRun, CaseOf, Orderly, Underway, Untouched, EventsFor, Sound;
    Lawful(ops, i);
    if ops != [] {
      var n := |ops| - 1;
      if Exists(Run(ops[..n]), i) {
        OrderlyAlways(ops[..n], i);
        InvariantAlways(ops[..n]);
        OrderlyStep(Run(ops[..n]), ops[n], i);
      } else {
        NewInvoiceUntouched(ops, i);
        UntouchedIsOrderly(CaseOf(Run(ops), i));
      }
    }
  }

  lemma NewInvoiceUntouched(ops: seq<Op>, i: nat)
    requires ops != [] && Exists(Run(ops), i) && !Exists(Run(ops[..|ops| - 1]), i)
    ensures Visible(Run(ops), i) && Untouched(CaseOf(Run(ops), i))
  {
    hide Apply, LiveRun, CaseOf, EventsFor, Sound, Underway, Untouched;
    var n := |ops| - 1;
    var db, op := Run(ops[..n]), ops[n];
    InvariantAlways(ops[..n]);
    Lawful(ops, i);
    if op.Upload? {
      UploadKeepsStray(db, op.hash, i);
    } else {
      OpKeepsInvoiceCount(db, op);
    }
  }

  lemma UploadKeepsStray(db: Db, hash: string, i: nat)
    requires Sound(db) && i >= |db.invoices|
    ensures !Entered(Apply(db, Upload(hash)), i)
  {
    hide Ledger.Dense, Ledger.NextSeq, FindByHash, LiveRun, OneLiveRunEach, EachHasLiveRun;
  }

  /** Resumed only by replay, no run ever has two entries waiting. */
  lemma AtMostOneEntryWaits(ops: seq<Op>, i: nat)
    requires DisciplinedHistory(ops) && Exists(Run(ops), i)
    ensures AtMostOneWaiting(Run(ops), i)
  {
    hide Run, LiveRun, EventsOf, ExceptionsOf, DecisionsOn, DisciplinedHistory;
    OrderlyAlways(ops, i);
    var c := CaseOf(Run(ops), i);
    assert forall d :: 0 <= d < |Run(ops).dlq| && WaitsFor(Run(ops).dlq[d], i) ==> Replayable(c, d);
  }

  /** Resumed only by replay, the run row tells the truth: COMPLETED exactly when the thread has ended,
      FAILED exactly while an entry waits, AWAITING_DECISION while it is paused, and before triage RUNNING
      otherwise. */
  lemma RunStatusTells(ops: seq<Op>, i: nat)
    requires DisciplinedHistory(ops) && Exists(Run(ops), i) && Entered(Run(ops), i)
    ensures var db := Run(ops);
            && LiveRun(db.runs, i).Some?
            && var status := db.runs[LiveRun(db.runs, i).value].status;
            && (status == Completed <==> db.threads[i].next.None?)
            && (status == Failed <==> exists d :: 0 <= d < |db.dlq| && WaitsFor(db.dlq[d], i))
            && (db.threads[i].paused ==> status == AwaitingDecision)
            && (TriageNode !in db.threads[i].values.trace && status != Completed && status != Failed ==>
                  status == Running)
  {
    hide Run, LiveRun, EventsOf, ExceptionsOf, DecisionsOn, DisciplinedHistory, OneWaiting;
    OrderlyAlways(ops, i);
    var c := CaseOf(Run(ops), i);
    assert forall d :: 0 <= d < |Run(ops).dlq| && WaitsFor(Run(ops).dlq[d], i) ==> Replayable(c, d);
    assert forall d: nat :: Replayable(c, d) ==> d < |Run(ops).dlq| && WaitsFor(Run(ops).dlq[d], i);
  }

  predicate NoneWaits(db: Db, i: nat) {
    forall d :: 0 <= d < |db.dlq| ==> !WaitsFor(db.dlq[d], i)
  }

  lemma WaitingCaseRestarts(c: Case, d: nat)
    requires CaseInv(c) && Orderly(c) && Replayable(c, d)
    ensures var started := CaseStep(c, Start);
            Executing(started) && started.dlq == c.dlq && ValuesOf(started).runDbId.Some?
  {
    assert Underway(c);
    EntersNonEmpty(c);
    hide CaseInv, Underway;
    assert c.run.status == Failed;
  }

  lemma FailureAddsEntry(c: Case, k: nat, kind: Retries.FailureKind, attempts: int)
    requires Executing(c) && ValuesOf(c).runDbId.Some?
    ensures CaseStep(c, Fail(k, kind, attempts)).dlq
         == c.dlq[k := DlqRow(c.runId, c.invoiceId, kind, attempts, Pending)]
  {}

  /** A case with a waiting entry that is started directly and fails again has two. */
  lemma DirectRestartLeavesTwo(c: Case, d: nat, k: nat, kind: Retries.FailureKind, attempts: int)
    requires CaseInv(c) && Orderly(c) && Replayable(c, d) && k !in c.dlq
    ensures var again := CaseStep(CaseStep(c, Start), Fail(k, kind, attempts));
            Replayable(again, d) && Replayable(again, k) && d != k
  {
    hide CaseInv, Orderly, CaseStep, Executing;
    WaitingCaseRestarts(c, d);
    FailureAddsEntry(CaseStep(c, Start), k, kind, attempts);
  }

  /** The two operations, seen from the invoice they work on. */
  lemma RestartAndFailShow(db: Db, i: nat, kind: Retries.FailureKind, attempts: int)
    requires Invariant(db) && Exists(db, i)
    ensures Visible(db, i)
    ensures var after := Apply(Apply(db, RunInvoice(i)), NodeFails(i, kind, attempts));
            && Visible(after, i)
            && CaseOf(after, i) == CaseStep(CaseStep(CaseOf(db, i), Start), Fail(|db.dlq|, kind, attempts))
  {
    hide Invariant, CaseStep, Apply, CaseOf, Sound;
    var started := Apply(db, RunInvoice(i));
    OpShows(db, RunInvoice(i), i);
    OpKeeps(db, RunInvoice(i));
    OpKeepsInvoiceCount(db, RunInvoice(i));
    OpShows(started, NodeFails(i, kind, attempts), i);
    StartKeepsDlq(db, i);
  }

  lemma StartKeepsDlq(db: Db, i: nat)
    ensures Apply(db, RunInvoice(i)).dlq == db.dlq
  {}

  lemma WaitingIsReplayable(db: Db, i: nat, d: nat)
    requires Visible(db, i)
    ensures Replayable(CaseOf(db, i), d) <==> d < |db.dlq| && WaitsFor(db.dlq[d], i)
  {
    hide CaseOf;
    DlqEntryShown(db, d, i);
  }

  lemma DisciplineExtends(ops: seq<Op>, op: Op)
    requires DisciplinedHistory(ops) && (op.RunInvoice? ==> NoneWaits(Run(ops), op.invoiceId))
    ensures DisciplinedHistory(ops + [op])
  {
    hide Apply;
    assert (ops + [op])[..|ops|] == ops;
  }

  /** The exact condition: starting a thread directly, after which it fails, keeps the bound if and only
      if none of its entries was waiting. */
  lemma DirectStartIsSafeIff(ops: seq<Op>, i: nat, kind: Retries.FailureKind, attempts: int)
    requires DisciplinedHistory(ops) && Exists(Run(ops), i)
    ensures AtMostOneWaiting(Run(ops + [RunInvoice(i)] + [NodeFails(i, kind, attempts)]), i)
       <==> NoneWaits(Run(ops), i)
  {
    hide Run, Apply, CaseStep, CaseOf, Orderly, CaseInv, Invariant, Replayable;
    var db, after := Run(ops), Run(ops + [RunInvoice(i)] + [NodeFails(i, kind, attempts)]);
    InvariantAlways(ops);
    RunOfAppended(ops, RunInvoice(i));
    RunOfAppended(ops + [RunInvoice(i)], NodeFails(i, kind, attempts));
    RestartAndFailShow(db, i, kind, attempts);
    if NoneWaits(db, i) {
      OpKeepsInvoiceCount(db, RunInvoice(i));
      DisciplineExtends(ops, RunInvoice(i));
      DisciplineExtends(ops + [RunInvoice(i)], NodeFails(i, kind, attempts));
      OpKeepsInvoiceCount(Run(ops + [RunInvoice(i)]), NodeFails(i, kind, attempts));
      AtMostOneEntryWaits(ops + [RunInvoice(i)] + [NodeFails(i, kind, attempts)], i);
    } else {
      var d :| 0 <= d < |db.dlq| && WaitsFor(db.dlq[d], i);
      OrderlyAlways(ops, i);
      Lawful(ops, i);
      WaitingIsReplayable(db, i, d);
      DlqEntryShown(db, |db.dlq|, i);
      DirectRestartLeavesTwo(CaseOf(db, i), d, |db.dlq|, kind, attempts);
      WaitingIsReplayable(after, i, d);
      WaitingIsReplayable(after, i, |db.dlq|);
    }
  }

  /** A concrete unrecorded failure: the very first node of the very first invoice. */
  lemma IngestFailureLeavesNothing(hash: string, kind: Retries.FailureKind, attempts: int)
    ensures var db := Run([Upload(hash), RunInvoice(0)]);
            var after := Apply(db, NodeFails(0, kind, attempts));
            IsExecuting(db, 0) && after.dlq == db.dlq && after.ledger == db.ledger && !IsExecuting(after, 0)
  {
    assert [Upload(hash), RunInvoice(0)][..1] == [Upload(hash)] && [Upload(hash)][..0] == [];
    assert Run([Upload(hash)]).threads == map[];
  }
}
