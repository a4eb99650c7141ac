/** Every transaction on the tables is one transition of one case and leaves all other cases alone. */
module TableLaws {
  import opened Common
  import opened Graph
  import opened Records
  import opened Cases
  import opened Tables
  import opened Projection
  import GraphLaws
  import CaseLaws
  import Ledger
  import Retries

  ghost predicate Invariant(db: Db) {
    Sound(db) && forall i :: 0 <= i < |db.invoices| ==> CaseHolds(db, i)
  }

  predicate CaseHolds(db: Db, i: nat)
    requires i < |db.invoices|
  {
    Visible(db, i) && CaseInv(CaseOf(db, i))
  }

  /** The case an operation works on, if the invoice exists, and the transition it makes there. */
  function TargetOf(db: Db, op: Op): Option<nat> {
    match op
    case Upload(_) => None
    case RunInvoice(i) => Some(i)
    case NodeCompletes(i, _) => Some(i)
    case NodeBreaks(i, _) => Some(i)
    case NodeFails(i, _, _) => Some(i)
    case ProcessDies(i) => Some(i)
    case ReplayEntry(d) => if d < |db.dlq| then Some(db.dlq[d].invoiceId) else None
    case SubmitDecision(e, _, _, _) => if e < |db.exceptions| then Some(db.exceptions[e].invoiceId) else None
  }

  function ActionOf(db: Db, op: Op): CaseAction
    requires !op.Upload?
  {
    match op
    case RunInvoice(i) => Start
    case NodeCompletes(i, input) =>
      Complete(input, if IsExecuting(db, i) then HitsFor(db, i, db.threads[i].next.value, input) else [],
               |db.exceptions|)
    case NodeBreaks(i, input) => Break(input)
    case NodeFails(i, kind, attempts) => Fail(|db.dlq|, kind, attempts)
    case ProcessDies(i) => Crash
    case ReplayEntry(d) => Replay(d)
    case SubmitDecision(e, request, user, resumed) => Decide(e, request, user, resumed, |db.decisions|)
  }

  /** The case of invoice `j` after the operation. */
  function Expected(db: Db, op: Op, j: nat): Case
    requires Visible(db, j) && !op.Upload?
  {
    if TargetOf(db, op) == Some(j) then CaseStep(CaseOf(db, j), ActionOf(db, op)) else CaseOf(db, j)
  }

  // ------------------------------------------------------------------ uploads

  lemma {:induction false} HashIsFound(invoices: seq<InvoiceRow>, hash: string)
    ensures match FindByHash(invoices, hash)
            case Some(i) => i < |invoices| && invoices[i].contentHash == hash
            case None => forall k :: 0 <= k < |invoices| ==> invoices[k].contentHash != hash
  {
    if invoices != [] && invoices[|invoices| - 1].contentHash != hash {
      var n := |invoices| - 1;
      HashIsFound(invoices[..n], hash);
      assert forall k :: 0 <= k < n ==> invoices[..n][k] == invoices[k];
    }
  }

  lemma {:induction false} NoDecisionsOnNone(decisions: seq<DecisionRow>)
    ensures DecisionsOn(decisions, {}) == []
  {
    if decisions != [] { NoDecisionsOnNone(decisions[..|decisions| - 1]); }
  }

  function WithUploadRows(db: Db, hash: string): Db {
    db.(invoices := db.invoices + [InvoiceRow(hash, Received, BLANK, None)],
        runs := db.runs + [RunRow(|db.invoices|, Queued, None, None)])
  }

  lemma NewRowsAreSound(db: Db, hash: string)
    requires Sound(db) && FindByHash(db.invoices, hash).None?
    ensures Sound(WithUploadRows(db, hash))
    ensures LiveRun(WithUploadRows(db, hash).runs, |db.invoices|) == Some(|db.runs|)
    ensures forall j :: 0 <= j < |db.invoices| ==>
              LiveRun(WithUploadRows(db, hash).runs, j) == LiveRun(db.runs, j)
  {
    hide Ledger.Dense;
    var after := WithUploadRows(db, hash);
    HashIsFound(db.invoices, hash);
    forall j: nat
      ensures LiveRun(after.runs, j) == if j == |db.invoices| then Some(|db.runs|) else LiveRun(db.runs, j)
    {
      LiveRunOfAppended(db.runs, RunRow(|db.invoices|, Queued, None, None), j);
    }
    forall i, r: nat, s: nat | IsLive(after.runs, i, r) && IsLive(after.runs, i, s) ensures r == s {
      if r < |db.runs| && s < |db.runs| {
        assert IsLive(db.runs, i, r) && IsLive(db.runs, i, s);
      }
    }
  }

  lemma DuplicateRunIsSound(db: Db, original: nat)
    requires Sound(db) && original < |db.invoices|
    ensures var after := db.(runs := db.runs + [RunRow(original, Rejected, Some(RouteReject), None)]);
            Sound(after) && forall j :: 0 <= j < |db.invoices| ==> LiveRun(after.runs, j) == LiveRun(db.runs, j)
  {
    hide Ledger.Dense;
    var row := RunRow(original, Rejected, Some(RouteReject), None);
    var after := db.(runs := db.runs + [row]);
    forall j: nat ensures LiveRun(after.runs, j) == LiveRun(db.runs, j) {
      LiveRunOfAppended(db.runs, row, j);
    }
    assert forall i, r :: IsLive(after.runs, i, r) ==> IsLive(db.runs, i, r);
  }

  /** An upload changes no existing case, and a new invoice starts untouched. */
  lemma UploadShows(db: Db, hash: string, j: nat)
    requires Invariant(db) && j < |Uploaded(db, hash).invoices|
    ensures Sound(Uploaded(db, hash)) && CaseHolds(Uploaded(db, hash), j)
    ensures j < |db.invoices| ==> CaseOf(Uploaded(db, hash), j) == CaseOf(db, j)
  {
    hide Sound, CaseHolds, CaseOf, LiveRun, FindByHash;
    HashIsFound(db.invoices, hash);
    match FindByHash(db.invoices, hash) {
      case None =>
        NewRowsAreSound(db, hash);
        if j < |db.invoices| {
          OldCaseStays(db, WithUploadRows(db, hash), IngestAccepted, j);
        } else {
          NewCaseUntouched(db, hash);
        }
      case Some(original) =>
        DuplicateRunIsSound(db, original);
        var row := RunRow(original, Rejected, Some(RouteReject), None);
        OldCaseStays(db, db.(runs := db.runs + [row]), IngestDuplicate, j);
    }
  }

  lemma OldCaseStays(db: Db, after: Db, e: Event, j: nat)
    requires Invariant(db) && Sound(after) && j < |db.invoices|
    requires after == db.(invoices := after.invoices, runs := after.runs)
    requires |after.runs| == |db.runs| + 1 && after.runs[..|db.runs|] == db.runs
    requires db.invoices <= after.invoices
    requires LiveRun(after.runs, j) == LiveRun(db.runs, j)
    ensures var logged := Logged(after, Some(|db.runs|), e);
            Sound(logged) && CaseHolds(logged, j) && CaseOf(logged, j) == CaseOf(db, j)
  {
    hide CaseInv, OneLiveRunEach, EachHasLiveRun, EventsOf, DecisionsOn, Ledger.Dense;
    assert CaseHolds(db, j);
    var r := LiveRun(db.runs, j).value;
    assert after.runs[r] == after.runs[..|db.runs|][r];
    assert CaseOf(after, j) == CaseOf(db, j);
    LoggedShows(after, |db.runs|, e, j);
  }

  lemma NewCaseUntouched(db: Db, hash: string)
    requires Sound(db) && FindByHash(db.invoices, hash).None?
    ensures Sound(Uploaded(db, hash)) && CaseHolds(Uploaded(db, hash), |db.invoices|)
  {
    hide OneLiveRunEach, EachHasLiveRun, Ledger.Dense, Underway, DistinctHashes;
    var j := |db.invoices|;
    var after := WithUploadRows(db, hash);
    NewRowsAreSound(db, hash);
    LoggedShows(after, |db.runs|, IngestAccepted, j);
    NoEventsBeyond(db.ledger, |db.runs|);
    assert ExceptionsOf(db.exceptions, j) == map[];
    assert DlqOf(db.dlq, j) == map[];
    NoDecisionsOnNone(db.decisions);
    var c := CaseOf(Logged(after, Some(|db.runs|), IngestAccepted), j);
    assert c.events == [IngestAccepted];
    assert c.exceptions.Keys == {};
    assert c.run == RunRow(j, Queued, None, None);
  }

  // ------------------------------------------------------------------ threads

  lemma RunInvokedShows(db: Db, i: nat, j: nat)
    requires Sound(db) && Visible(db, j)
    ensures Sound(RunInvoked(db, i)) && Visible(RunInvoked(db, i), j)
    ensures CaseOf(RunInvoked(db, i), j) == if i == j then Started(CaseOf(db, j)) else CaseOf(db, j)
  {
    assert i >= |db.invoices| && i in db.threads ==> db.threads[i].values == InitialState(i);
    ThreadShows(db, i, Launched(i, ThreadOf(db, i)), j);
    hide LiveRun, Ledger.Dense, EventsOf, ExceptionsOf, DecisionsOn, DlqOf;
  }

  lemma ProcessDiedShows(db: Db, i: nat, j: nat)
    requires Sound(db) && Visible(db, j)
    ensures Sound(ProcessDied(db, i)) && Visible(ProcessDied(db, i), j)
    ensures CaseOf(ProcessDied(db, i), j) == if i == j then Crashed(CaseOf(db, j)) else CaseOf(db, j)
  {
    if i in db.threads { ThreadShows(db, i, Halted(db.threads[i]), j); }
    hide LiveRun, Ledger.Dense, EventsOf, ExceptionsOf, DecisionsOn, DlqOf;
  }

  // ------------------------------------------------------------------ node attempts

  lemma {:induction false} NewestRunFound(runs: seq<RunRow>, i: nat, status: RunStatus)
    ensures match NewestRun(runs, i, status)
            case Some(r) => r < |runs| && runs[r].invoiceId == i && runs[r].status == status
            case None => forall r :: 0 <= r < |runs| ==> runs[r].invoiceId != i || runs[r].status != status
  {
    if runs != [] {
      var n := |runs| - 1;
      NewestRunFound(runs[..n], i, status);
      assert forall k :: 0 <= k < n ==> runs[..n][k] == runs[k];
    }
  }

  /** However many duplicates were rejected meanwhile, ingest picks the one live run. */
  lemma IngestPicksTheLiveRun(db: Db, i: nat)
    requires Sound(db) && Visible(db, i)
    ensures PickRun(db.runs, i) == PickedRun(CaseOf(db, i))
  {
    var live := LiveRun(db.runs, i).value;
    NewestRunFound(db.runs, i, Queued);
    NewestRunFound(db.runs, i, Running);
    var queued, running := NewestRun(db.runs, i, Queued), NewestRun(db.runs, i, Running);
    if queued.Some? { LiveIsUnique(db.runs, i, queued.value); }
    if running.Some? { LiveIsUnique(db.runs, i, running.value); }
  }

  lemma AttemptIsStage(db: Db, i: nat, input: NodeInput)
    requires Sound(db) && Visible(db, i) && IsExecuting(db, i)
    ensures Executing(CaseOf(db, i))
    ensures Attempted(db, i, input)
         == StageOf(CaseOf(db, i), input, HitsFor(db, i, db.threads[i].next.value, input), |db.exceptions|)
  {
    hide Stage, LiveRun, Sound, PickRun, PickedRun, HitsFor;
    IngestPicksTheLiveRun(db, i);
  }

  lemma StrayNeverCompletes(db: Db, i: nat, input: NodeInput)
    requires Sound(db) && i >= |db.invoices| && IsExecuting(db, i)
    ensures Attempted(db, i, input).Err? && db.threads[i].values == InitialState(i)
  {}

  /** A node that completes works on the live run. */
  lemma StageNamesRun(db: Db, i: nat, input: NodeInput)
    requires Invariant(db) && i < |db.invoices| && IsExecuting(db, i) && Attempted(db, i, input).Ok?
    ensures Visible(db, i) && Attempted(db, i, input).value.runDbId == LiveRun(db.runs, i)
    ensures db.threads[i].next != Some(RejectNode)
  {
    hide Stage, LiveRun, Checkpointed, Sound, Successor;
    assert CaseHolds(db, i);
    AttemptIsStage(db, i, input);
    var c := CaseOf(db, i);
    var hits := HitsFor(db, i, db.threads[i].next.value, input);
    if Untouched(c) {
      GraphLaws.IngestChecks(i, input, c.runId, hits, |db.exceptions|);
    } else {
      assert Underway(c);
      NextIsAhead(c);
      GraphLaws.StageIgnoresRun(
        c.thread.value.next.value, ValuesOf(c), input, PickedRun(c), ValuesOf(c).runDbId, hits, |db.exceptions|);
      GraphLaws.StageExtends(
        c.thread.value.next.value, ValuesOf(c), input, ValuesOf(c).runDbId, hits, |db.exceptions|);
    }
  }

  lemma NextIsAhead(c: Case)
    requires Underway(c) && Executing(c)
    ensures c.thread.value.next != Some(IngestNode) && c.thread.value.next != Some(RejectNode)
  {
    hide Checkpointed, Successor, TraceWitnessed, OutcomeSound, DlqConserved, ColumnsShown;
    assert ThreadSound(c) && ValuesOf(c).trace != [] by { assert Checkpointed(ValuesOf(c)); TraceStarts(ValuesOf(c)); }
    GraphLaws.AheadOf(ValuesOf(c), c.thread.value.next.value);
  }

  lemma TraceStarts(v: GraphState)
    requires Checkpointed(v)
    ensures v.trace != []
  {
    hide StagesDone, Routed, RouteRecorded;
  }

  lemma NodeWrittenShows(db: Db, i: nat, n: Node, w: GraphState, input: NodeInput, j: nat)
    requires Sound(db) && Visible(db, i) && Visible(db, j) && i in db.threads
    requires w.runDbId == LiveRun(db.runs, i) && n != RejectNode
    ensures var after := NodeWritten(db, i, n, w, input);
            && Sound(after) && Visible(after, j)
            && CaseOf(after, j) == if i == j then Landed(CaseOf(db, j), n, w, |db.exceptions|, input)
                                   else CaseOf(db, j)
  {
    hide Sound, StatusAfter, ShownAfter, EmbeddingAfter, EventsAfter, CheckpointAfter, DraftOf, EventsOf, ExceptionsOf,
         DlqOf, DecisionsOn;
    var run := w.runDbId;
    var r := run.value;
    var row := if n == TriageNode then NewException(i, run, db.threads[i].values) else None;
    var a := InvoiceMoved(db, i, n, w, input);
    InvoiceShows(db, i, InvoiceAfter(n, w, input, db.invoices[i]), j);
    var b := RunMoved(a, run, n, w);
    RunShows(a, r, RunAfter(n, w, a.runs[r]), j);
    var c := WithNewException(b, row);
    if row.Some? { NewExceptionShows(b, row.value, j); }
    var events := EventsAfter(n, |db.exceptions|, input.classified);
    AllLoggedShows(c, r, events, j);
    ThreadShows(AllLogged(c, run, events), i, CheckpointAfter(n, w), j);
  }

  lemma CompletionShows(db: Db, i: nat, input: NodeInput, j: nat)
    requires Invariant(db) && j < |db.invoices|
    ensures var op, after := NodeCompletes(i, input), NodeCompleted(db, i, input);
            && Sound(after) && Visible(db, j) && Visible(after, j)
            && CaseOf(after, j) == Expected(db, op, j)
  {
    hide Sound, LiveRun, Attempted, NodeWritten, Landed, StageOf, HitsFor, CaseInv;
    assert CaseHolds(db, j);
    if IsExecuting(db, i) {
      if i >= |db.invoices| {
        StrayNeverCompletes(db, i, input);
      } else {
        assert CaseHolds(db, i);
        AttemptIsStage(db, i, input);
        if Attempted(db, i, input).Ok? {
          StageNamesRun(db, i, input);
          NodeWrittenShows(db, i, db.threads[i].next.value, Attempted(db, i, input).value, input, j);
        }
      }
    }
  }

  lemma BreakShows(db: Db, i: nat, input: NodeInput, j: nat)
    requires Invariant(db) && j < |db.invoices|
    ensures var op, after := NodeBreaks(i, input), NodeBroken(db, i, input);
            && Sound(after) && Visible(db, j) && Visible(after, j)
            && CaseOf(after, j) == Expected(db, op, j)
  {
    hide Sound, LiveRun, EmbeddingAfter, CaseInv;
    assert CaseHolds(db, j);
    if i < |db.invoices| && IsExecuting(db, i) {
      InvoiceShows(
        db, i, InvoiceAfter(db.threads[i].next.value, db.threads[i].values, input, db.invoices[i]), j);
    }
  }

  /** A checkpointed run key is the live run's; a stray or fresh thread has none. */
  lemma FailureNamesRun(db: Db, i: nat)
    requires Invariant(db) && IsExecuting(db, i)
    ensures i >= |db.invoices| ==> db.threads[i].values == InitialState(i)
                                   && db.threads[i].next == Some(IngestNode) && !db.threads[i].paused
    ensures i < |db.invoices| ==> Visible(db, i)
    ensures i < |db.invoices| && db.threads[i].values.runDbId.Some? ==>
              db.threads[i].values.runDbId == LiveRun(db.runs, i)
  {
    hide Checkpointed, LiveRun, Successor;
    if i < |db.invoices| { assert CaseHolds(db, i); }
  }

  lemma RecordedFailureShows(db: Db, i: nat, kind: Retries.FailureKind, attempts: int, j: nat)
    requires Sound(db) && Visible(db, j) && IsExecuting(db, i)
    requires i >= |db.invoices| ==> db.threads[i].values == InitialState(i)
                                    && db.threads[i].next == Some(IngestNode) && !db.threads[i].paused
    requires i < |db.invoices| ==> Visible(db, i)
    requires i < |db.invoices| && db.threads[i].values.runDbId.Some? ==>
               db.threads[i].values.runDbId == LiveRun(db.runs, i)
    ensures var after := NodeFailed(db, i, kind, attempts);
            && Sound(after) && Visible(after, j)
            && CaseOf(after, j) == if i == j then FailedAs(CaseOf(db, j), |db.dlq|, kind, attempts) else CaseOf(db, j)
  {
    hide Sound, LiveRun, EventsOf, ExceptionsOf, DecisionsOn, DlqOf, Ledger.Appended;
    var t := db.threads[i];
    var halted := WithThread(db, i, Halted(t));
    ThreadShows(db, i, Halted(t), j);
    if t.values.runDbId.Some? {
      var r := t.values.runDbId.value;
      var row := DlqRow(r, i, kind, attempts, Pending);
      NewDlqShows(halted, row, j);
      var listed := WithNewDlq(halted, row);
      RunShows(listed, r, listed.runs[r].(status := Failed), j);
      LoggedShows(RunMarked(listed, r, Failed), r, RunFailed(|db.dlq|), j);
    }
  }

  lemma IdleStays(c: Case, d: nat, kind: Retries.FailureKind, attempts: int)
    requires !Executing(c)
    ensures FailedAs(c, d, kind, attempts) == c
  {}

  lemma ExecutingShown(db: Db, j: nat)
    requires Visible(db, j)
    ensures Executing(CaseOf(db, j)) <==> IsExecuting(db, j)
  {
    hide LiveRun, EventsOf, ExceptionsOf, DecisionsOn, DlqOf;
  }

  lemma FailureShows(db: Db, i: nat, kind: Retries.FailureKind, attempts: int, j: nat)
    requires Invariant(db) && j < |db.invoices|
    ensures var op, after := NodeFails(i, kind, attempts), NodeFailed(db, i, kind, attempts);
            && Sound(after) && Visible(db, j) && Visible(after, j)
            && CaseOf(after, j) == Expected(db, op, j)
  {
    hide Sound, CaseInv, LiveRun, CaseOf, FailedAs, Executing;
    assert CaseHolds(db, j);
    ExecutingShown(db, j);
    if IsExecuting(db, i) {
      FailureNamesRun(db, i);
      RecordedFailureShows(db, i, kind, attempts, j);
    } else if i == j {
      IdleStays(CaseOf(db, j), |db.dlq|, kind, attempts);
    }
  }

  // ------------------------------------------------------------------ replays and decisions

  lemma ReplayNamesRun(db: Db, d: nat)
    requires Invariant(db) && d < |db.dlq|
    ensures db.dlq[d].invoiceId < |db.invoices| && Visible(db, db.dlq[d].invoiceId)
    ensures LiveRun(db.runs, db.dlq[d].invoiceId) == Some(db.dlq[d].runId)
  {
    hide LiveRun, ThreadSound, TraceWitnessed, OutcomeSound, ColumnsShown, ExceptionsQuoted;
    var i := db.dlq[d].invoiceId;
    assert CaseHolds(db, i);
    var c := CaseOf(db, i);
    assert d in c.dlq && c.dlq[d] == db.dlq[d];
    assert Underway(c);
    assert LiveRun(db.runs, i) == Some(c.runId);
  }

  lemma ClaimShows(db: Db, d: nat, j: nat)
    requires Sound(db) && Visible(db, j) && d < |db.dlq| && db.dlq[d].status == Pending
    requires db.dlq[d].invoiceId < |db.invoices|
    requires LiveRun(db.runs, db.dlq[d].invoiceId) == Some(db.dlq[d].runId)
    ensures var after := DlqReplayedIn(db, d);
            && Sound(after) && Visible(after, j)
            && CaseOf(after, j) == if db.dlq[d].invoiceId == j then ReplayedAs(CaseOf(db, j), d) else CaseOf(db, j)
  {
    assert db.dlq[d].invoiceId == j ==> d in CaseOf(db, j).dlq && CaseOf(db, j).dlq[d] == db.dlq[d];
    hide Sound, LiveRun, DlqOf, RunInvoked;
    var entry := db.dlq[d];
    var r := entry.runId;
    var claimed := WithDlq(db, d, entry.(status := Replayed));
    DlqShows(db, d, entry.(status := Replayed), j);
    RunShows(claimed, r, claimed.runs[r].(status := Running), j);
    var marked := RunMarked(claimed, r, Running);
    LoggedShows(marked, r, DlqReplayed(d), j);
    RunInvokedShows(Logged(marked, Some(r), DlqReplayed(d)), entry.invoiceId, j);
  }

  lemma DlqEntryShown(db: Db, d: nat, j: nat)
    requires Visible(db, j)
    ensures d in CaseOf(db, j).dlq <==> d < |db.dlq| && db.dlq[d].invoiceId == j
    ensures d in CaseOf(db, j).dlq ==> CaseOf(db, j).dlq[d] == db.dlq[d]
  {
    hide LiveRun, EventsOf, ExceptionsOf, DecisionsOn;
  }

  lemma UnclaimedStays(c: Case, d: nat)
    requires !Replayable(c, d)
    ensures ReplayedAs(c, d) == c
  {}

  lemma ReplayShows(db: Db, d: nat, j: nat)
    requires Invariant(db) && j < |db.invoices|
    ensures var op, after := ReplayEntry(d), DlqReplayedIn(db, d);
            && Sound(after) && Visible(db, j) && Visible(after, j)
            && CaseOf(after, j) == Expected(db, op, j)
  {
    hide Sound, CaseInv, CaseOf, ReplayedAs, LiveRun;
    assert CaseHolds(db, j);
    DlqEntryShown(db, d, j);
    if d < |db.dlq| && db.dlq[d].status == Pending {
      ReplayNamesRun(db, d);
      ClaimShows(db, d, j);
    } else {
      UnclaimedStays(CaseOf(db, j), d);
    }
  }

  lemma ExceptionNamesRun(db: Db, e: nat)
    requires Invariant(db) && e < |db.exceptions|
    ensures db.exceptions[e].invoiceId < |db.invoices| && Visible(db, db.exceptions[e].invoiceId)
    ensures LiveRun(db.runs, db.exceptions[e].invoiceId) == db.exceptions[e].runId
    ensures db.exceptions[e].invoiceId in db.threads
  {
    hide LiveRun, Checkpointed, TraceWitnessed, DlqConserved, ColumnsShown, LogShape, ExceptionsQuoted, Successor;
    var i := db.exceptions[e].invoiceId;
    assert CaseHolds(db, i);
    var c := CaseOf(db, i);
    assert e in c.exceptions && c.exceptions[e] == db.exceptions[e];
    assert Underway(c);
    assert LiveRun(db.runs, i) == Some(c.runId);
  }

  lemma ExceptionShown(db: Db, e: nat, j: nat)
    requires Visible(db, j)
    ensures e in CaseOf(db, j).exceptions <==> e < |db.exceptions| && db.exceptions[e].invoiceId == j
    ensures e in CaseOf(db, j).exceptions ==> CaseOf(db, j).exceptions[e] == db.exceptions[e]
  {
    hide LiveRun, EventsOf, DlqOf, DecisionsOn;
  }

  lemma DecisionShows(db: Db, e: nat, request: DecisionRequest, user: string, resumed: bool, j: nat)
    requires Invariant(db) && j < |db.invoices|
    ensures var op, after := SubmitDecision(e, request, user, resumed), DecisionMade(db, e, request, user, resumed);
            && Sound(after) && Visible(db, j) && Visible(after, j)
            && CaseOf(after, j) == Expected(db, op, j)
  {
    hide Sound, CaseInv, CaseOf, Visible, Recorded, LiveRun;
    assert CaseHolds(db, j);
    ExceptionShown(db, e, j);
    if e < |db.exceptions| && db.exceptions[e].status == Open {
      if FourEyesRefuses(db.exceptions[e], request.action, user) {
        ExceptionShows(db, e, Claimed(db.exceptions[e], user), j);
      } else {
        ExceptionNamesRun(db, e);
        RecordShows(db, e, request, user, resumed, j);
      }
    }
  }

  lemma RecordShows(db: Db, e: nat, request: DecisionRequest, user: string, resumed: bool, j: nat)
    requires Sound(db) && Visible(db, j) && e < |db.exceptions| && db.exceptions[e].status == Open
    requires !FourEyesRefuses(db.exceptions[e], request.action, user)
    requires db.exceptions[e].invoiceId < |db.invoices| && Visible(db, db.exceptions[e].invoiceId)
    requires LiveRun(db.runs, db.exceptions[e].invoiceId) == db.exceptions[e].runId
    requires db.exceptions[e].invoiceId in db.threads
    requires db.exceptions[e].invoiceId == j ==>
               e in CaseOf(db, j).exceptions && CaseOf(db, j).exceptions[e] == db.exceptions[e]
    ensures var after := DecisionMade(db, e, request, user, resumed);
            && Sound(after) && Visible(after, j)
            && CaseOf(after, j) == if db.exceptions[e].invoiceId == j
                                   then Recorded(CaseOf(db, j), e, request, user, resumed, |db.decisions|)
                                   else CaseOf(db, j)
  {
    hide Sound, LiveRun, ExceptionsOf, StatusDecided;
    var row := db.exceptions[e];
    var d := DecisionRow(|db.decisions|, e, user, request.action, request.reasonCode);
    var revised := WithException(db, e, Decided(row, request, user));
    ExceptionShows(db, e, Decided(row, request, user), j);
    NewDecisionShows(revised, d, j);
    var recorded := WithNewDecision(revised, d);
    InvoiceShows(
      recorded, row.invoiceId,
      recorded.invoices[row.invoiceId].(
        status := StatusDecided(request.action, recorded.invoices[row.invoiceId].status)),
      j);
    var stamped := InvoiceStamped(recorded, row.invoiceId, request.action);
    LoggedShows(stamped, row.runId.value, DecisionRecorded(d, request.escalateTo), j);
    var logged := Logged(stamped, row.runId, DecisionRecorded(d, request.escalateTo));
    ThreadShows(logged, row.invoiceId, ResumedWith(db.threads[row.invoiceId], d), j);
  }

  // ------------------------------------------------------------------ all operations

  lemma StartShows(db: Db, i: nat, j: nat)
    requires Invariant(db) && j < |db.invoices|
    ensures var after := RunInvoked(db, i);
            && Sound(after) && Visible(db, j) && Visible(after, j)
            && CaseOf(after, j) == Expected(db, RunInvoice(i), j)
  {
    hide Sound, CaseInv, LiveRun;
    assert CaseHolds(db, j);
    RunInvokedShows(db, i, j);
  }

  lemma DeathShows(db: Db, i: nat, j: nat)
    requires Invariant(db) && j < |db.invoices|
    ensures var after := ProcessDied(db, i);
            && Sound(after) && Visible(db, j) && Visible(after, j)
            && CaseOf(after, j) == Expected(db, ProcessDies(i), j)
  {
    hide Sound, CaseInv, LiveRun;
    assert CaseHolds(db, j);
    ProcessDiedShows(db, i, j);
  }

  /** Every operation is one transition of the case it works on, and invisible to all others. */
  lemma OpShows(db: Db, op: Op, j: nat)
    requires Invariant(db) && j < |db.invoices| && !op.Upload?
    ensures var after := Apply(db, op);
            && Sound(after) && Visible(db, j) && Visible(after, j)
            && CaseOf(after, j) == Expected(db, op, j)
  {
    hide Sound, CaseInv, CaseStep, CaseOf, Visible;
    assert CaseHolds(db, j);
    match op
    case RunInvoice(i) => StartShows(db, i, j);
    case NodeCompletes(i, input) => CompletionShows(db, i, input, j);
    case NodeBreaks(i, input) => BreakShows(db, i, input, j);
    case NodeFails(i, kind, attempts) => FailureShows(db, i, kind, attempts, j);
    case ProcessDies(i) => DeathShows(db, i, j);
    case ReplayEntry(d) => ReplayShows(db, d, j);
    case SubmitDecision(e, request, user, resumed) => DecisionShows(db, e, request, user, resumed, j);
  }

  lemma TransitionKeeps(db: Db, op: Op, j: nat)
    requires Invariant(db) && j < |db.invoices| && !op.Upload?
    ensures Visible(db, j) && CaseInv(Expected(db, op, j))
  {
    hide Sound, CaseInv, CaseStep, CaseOf, LiveRun;
    assert CaseHolds(db, j);
    if TargetOf(db, op) == Some(j) {
      ExceptionShown(db, |db.exceptions|, j);
      DlqEntryShown(db, |db.dlq|, j);
      CaseLaws.CaseStepKeeps(CaseOf(db, j), ActionOf(db, op));
    }
  }

  function Hashes(invoices: seq<InvoiceRow>): seq<string> {
    seq(|invoices|, k requires 0 <= k < |invoices| => invoices[k].contentHash)
  }

  lemma {:induction false} LoggingTouchesLedgerOnly(db: Db, r: Option<nat>, events: seq<Event>)
    ensures AllLogged(db, r, events) == db.(ledger := AllLogged(db, r, events).ledger)
    ensures db.ledger <= AllLogged(db, r, events).ledger
  {
    hide Ledger.NextSeq;
    if events != [] { LoggingTouchesLedgerOnly(db, r, events[..|events| - 1]); }
  }

  lemma NodeWrittenKeepsKeys(db: Db, i: nat, n: Node, w: GraphState, input: NodeInput)
    requires i in db.threads
    ensures var after := NodeWritten(db, i, n, w, input);
            && Hashes(after.invoices) == Hashes(db.invoices) && |after.runs| == |db.runs|
            && db.ledger <= after.ledger
  {
    hide StatusAfter, ShownAfter, EmbeddingAfter, EventsWritten, RunAfter, CheckpointAfter, NewException, AllLogged;
    var run := w.runDbId;
    var row := if n == TriageNode then NewException(i, run, db.threads[i].values) else None;
    var c := WithNewException(RunMoved(InvoiceMoved(db, i, n, w, input), run, n, w), row);
    LoggingTouchesLedgerOnly(c, run, EventsWritten(n, run, |db.exceptions|, input.classified));
  }

  /** Only uploads add invoices and runs, nothing changes a content hash, and the ledger only grows. */
  lemma OpKeepsKeys(db: Db, op: Op)
    ensures var after := Apply(db, op);
            && (!op.Upload? ==> Hashes(after.invoices) == Hashes(db.invoices))
            && |after.runs| == |db.runs| + (if op.Upload? then 1 else 0)
            && db.ledger <= after.ledger
  {
    hide StatusAfter, ShownAfter, EmbeddingAfter, Attempted, RunAfter, CheckpointAfter, Launched, Halted, ResumedWith,
         NodeWritten, Ledger.NextSeq, Decided, Claimed, FourEyesRefuses, FindByHash;
    if op.NodeCompletes? && IsExecuting(db, op.invoiceId) && Attempted(db, op.invoiceId, op.input).Ok? {
      NodeWrittenKeepsKeys(
        db, op.invoiceId, db.threads[op.invoiceId].next.value, Attempted(db, op.invoiceId, op.input).value, op.input);
    }
  }

  lemma UploadAddsHash(db: Db, hash: string)
    ensures Hashes(Uploaded(db, hash).invoices)
         == Hashes(db.invoices) + if FindByHash(db.invoices, hash).None? then [hash] else []
    ensures |Uploaded(db, hash).invoices| >= 1
  {
    HashIsFound(db.invoices, hash);
    hide Ledger.NextSeq, FindByHash;
  }

  lemma KeptAt(db: Db, op: Op, j: nat)
    requires Invariant(db) && j < |Apply(db, op).invoices|
    requires !op.Upload? ==> j < |db.invoices|
    ensures Sound(Apply(db, op)) && CaseHolds(Apply(db, op), j)
  {
    hide Sound, CaseInv, CaseOf, Visible, TargetOf, ActionOf, Expected, Uploaded;
    if op.Upload? {
      UploadShows(db, op.hash, j);
    } else {
      OpShows(db, op, j);
      TransitionKeeps(db, op, j);
    }
  }

  lemma NoExceptionWithoutInvoice(db: Db)
    requires RowsRefer(db) && db.invoices == []
    ensures db.exceptions == []
  {
    if db.exceptions != [] && db.exceptions[0].invoiceId >= 0 { assert false; }
  }

  lemma NoEntryWithoutInvoice(db: Db)
    requires RowsRefer(db) && db.invoices == []
    ensures db.dlq == []
  {
    if db.dlq != [] && db.dlq[0].invoiceId >= 0 { assert false; }
  }

  /** Without invoices only stray threads come and go. */
  lemma EmptyStaysSound(db: Db, op: Op)
    requires Invariant(db) && db.invoices == [] && !op.Upload?
    ensures Sound(Apply(db, op)) && Apply(db, op).invoices == []
  {
    hide Ledger.Dense, OneLiveRunEach, EachHasLiveRun, Stage, PickRun, HitsFor, RunAfter, CheckpointAfter, AllLogged,
         NodeWritten, InvoiceAfter, Decided, FourEyesRefuses, DecisionEntered, ResumedWith;
    NoExceptionWithoutInvoice(db);
    NoEntryWithoutInvoice(db);
  }

  lemma OpKeepsInvoiceCount(db: Db, op: Op)
    requires !op.Upload?
    ensures |Apply(db, op).invoices| == |db.invoices|
  {
    hide Apply;
    OpKeepsKeys(db, op);
    assert |Hashes(db.invoices)| == |db.invoices| && |Hashes(Apply(db, op).invoices)| == |Apply(db, op).invoices|;
  }

  lemma UploadKeepsThreads(db: Db, hash: string)
    ensures Apply(db, Upload(hash)).threads == db.threads
    ensures |Apply(db, Upload(hash)).invoices| >= |db.invoices|
  {
    hide Ledger.Appended, FindByHash;
  }

  lemma UploadIsApplied(db: Db, hash: string)
    ensures Apply(db, Upload(hash)) == Uploaded(db, hash)
  {}

  /** Every operation keeps the database sound and every case lawful. */
  lemma OpKeeps(db: Db, op: Op)
    requires Invariant(db)
    ensures Invariant(Apply(db, op))
  {
    hide Sound, CaseHolds, Apply, Uploaded;
    var after := Apply(db, op);
    OpKeepsKeys(db, op);
    assert |Hashes(after.invoices)| == |after.invoices| && |Hashes(db.invoices)| == |db.invoices|;
    if !op.Upload? {
      if db.invoices == [] {
        EmptyStaysSound(db, op);
      } else {
        KeptAt(db, op, 0);
      }
    } else {
      UploadAddsHash(db, op.hash);
      UploadIsApplied(db, op.hash);
      KeptAt(db, op, 0);
    }
    forall j | 0 <= j < |after.invoices| ensures CaseHolds(after, j) {
      KeptAt(db, op, j);
    }
  }

  lemma RunOfAppended(ops: seq<Op>, op: Op)
    ensures Run(ops + [op]) == Apply(Run(ops), op)
  {
    hide Apply;
    assert (ops + [op])[..|ops|] == ops;
  }

  /** Whatever the interleaving of uploads, runs, node attempts, faults, replays and decisions. */
  lemma {:induction false} InvariantAlways(ops: seq<Op>)
    ensures Invariant(Run(ops))
  {
    hide Apply, CaseHolds, Sound;
    if ops == [] {
      EmptyIsSound();
    } else {
      InvariantAlways(ops[..|ops| - 1]);
      OpKeeps(Run(ops[..|ops| - 1]), ops[|ops| - 1]);
    }
  }

  lemma EmptyIsSound()
    ensures Sound(EmptyDb())
  {}
}
