/** The human decision service over whole histories: the shape of the decision log, four eyes, and
    what happens after a resolution. */
module Oversight {
  import opened Common
  import opened Graph
  import opened Records
  import opened Cases
  import opened Tables
  import opened Projection
  import opened TableLaws
  import opened Histories
  import Ledger

  /** The decision rows of one exception, oldest first. */
  function DecisionsFor(db: Db, e: nat): seq<DecisionRow> {
    DecisionsOn(db.decisions, {e})
  }

  predicate OnlyEscalations(decisions: seq<DecisionRow>) {
    forall k :: 0 <= k < |decisions| ==> decisions[k].action == EscalateUp
  }

  /** Some escalations, then exactly one decision that is not. */
  predicate EscalationsThenOne(decisions: seq<DecisionRow>) {
    decisions != [] && OnlyEscalations(decisions[..|decisions| - 1])
    && decisions[|decisions| - 1].action != EscalateUp
  }

  function Last(decisions: seq<DecisionRow>): DecisionRow
    requires decisions != []
  {
    decisions[|decisions| - 1]
  }

  // ------------------------------------------------------------------ the log of one exception

  /** An exception row belongs to a case under way, and the case's log is the exception's. */
  lemma ExceptionCase(ops: seq<Op>, e: nat)
    requires e < |Run(ops).exceptions|
    ensures var db := Run(ops); var i := db.exceptions[e].invoiceId;
            && Exists(db, i) && Visible(db, i)
            && var c := CaseOf(db, i);
            && Underway(c) && e in c.exceptions && c.exceptions[e] == db.exceptions[e]
            && c.exceptions.Keys == {e} && c.decisions == DecisionsFor(db, e)
            && c.events == EventsFor(db, i)
            && ExceptionSound(c, e, db.exceptions[e])
  {
    hide Run, EventsFor, DecisionsOn, LiveRun, EventsOf, DlqOf, ThreadSound, TraceWitnessed, ColumnsShown,
         DlqConserved, ExceptionSound, GateHeld;
    InvariantAlways(ops);
    var i := Run(ops).exceptions[e].invoiceId;
    Lawful(ops, i);
    ExceptionShown(Run(ops), e, i);
    assert Underway(CaseOf(Run(ops), i));
  }

  /** The log's shape and the invoice's status, said of one case. */
  lemma CaseLogShape(c: Case, e: nat)
    requires Underway(c) && e in c.exceptions
    ensures DecisionsIn(c.events) == c.decisions
    ensures c.exceptions[e].status == Open <==> OnlyEscalations(c.decisions)
    ensures c.exceptions[e].status == Resolved <==> EscalationsThenOne(c.decisions)
    ensures c.exceptions[e].status == Open ==> c.status == InException
    ensures c.exceptions[e].status == Resolved && Last(c.decisions).action == Approve ==> c.status == DecisionApproved
    ensures c.exceptions[e].status == Resolved && Last(c.decisions).action == ReturnToVendor ==>
              c.status == ReturnedToVendor
  {
    hide ThreadSound, TraceWitnessed, ColumnsShown, DlqConserved, GateHeld, ExceptionsQuoted, DecisionsIn;
    assert ExceptionSound(c, e, c.exceptions[e]);
  }

  /** An exception is open exactly while all its decisions are escalations, and resolved exactly when
      the last one, and no other, is not. The log is what the ledger recorded, and the invoice's
      status says which way the exception went. */
  lemma DecisionLogShape(ops: seq<Op>, e: nat)
    requires e < |Run(ops).exceptions|
    ensures var db := Run(ops); var row, log := db.exceptions[e], DecisionsFor(db, e);
            && (row.status == Open <==> OnlyEscalations(log))
            && (row.status == Resolved <==> EscalationsThenOne(log))
            && Exists(db, row.invoiceId) && DecisionsIn(EventsFor(db, row.invoiceId)) == log
            && (row.status == Open ==> db.invoices[row.invoiceId].status == InException)
            && (row.status == Resolved && Last(log).action == Approve ==>
                  db.invoices[row.invoiceId].status == DecisionApproved)
            && (row.status == Resolved && Last(log).action == ReturnToVendor ==>
                  db.invoices[row.invoiceId].status == ReturnedToVendor)
  {
    hide Run, EventsFor, DecisionsFor, LiveRun, EventsOf, ExceptionsOf, DlqOf, DecisionsOn, Underway, ExceptionSound,
         OnlyEscalations, DecisionsIn;
    ExceptionCase(ops, e);
    CaseLogShape(CaseOf(Run(ops), Run(ops).exceptions[e].invoiceId), e);
  }

  // ------------------------------------------------------------------ four eyes

  /** Every approval was given by somebody other than the exception's assignee. */
  lemma ApproverIsNotAssignee(ops: seq<Op>, e: nat, k: nat)
    requires e < |Run(ops).exceptions| && k < |DecisionsFor(Run(ops), e)|
    requires DecisionsFor(Run(ops), e)[k].action == Approve
    ensures var row := Run(ops).exceptions[e];
            row.assignee.Some? && row.assignee.value != DecisionsFor(Run(ops), e)[k].actor
  {
    hide Run, EventsFor, DecisionsFor, LiveRun, EventsOf, ExceptionsOf, DlqOf, DecisionsOn, ThreadSound,
         TraceWitnessed, ColumnsShown, DlqConserved, OutcomeSound, DecisionsIn;
    ExceptionCase(ops, e);
  }

  predicate Touches(op: Op, e: nat) {
    op.SubmitDecision? && op.exceptionId == e
  }

  /** The user of the earliest decide call on an existing exception, accepted or refused. */
  function FirstTouch(ops: seq<Op>, e: nat): Option<string> {
    if ops == [] then None
    else
      var n := |ops| - 1;
      var before := FirstTouch(ops[..n], e);
      if before.Some? then before
      else if Touches(ops[n], e) && e < |Run(ops[..n]).exceptions| then Some(ops[n].user)
      else None
  }

  lemma NodeWrittenLeavesExceptions(db: Db, i: nat, n: Node, w: GraphState, input: NodeInput)
    requires i in db.threads
    ensures db.exceptions <= NodeWritten(db, i, n, w, input).exceptions
    ensures forall e :: |db.exceptions| <= e < |NodeWritten(db, i, n, w, input).exceptions| ==>
              NodeWritten(db, i, n, w, input).exceptions[e].assignee.None?
    ensures NodeWritten(db, i, n, w, input).decisions == db.decisions
  {
    hide StatusAfter, ShownAfter, EmbeddingAfter, EventsWritten, RunAfter, CheckpointAfter, DraftOf, AllLogged;
    var run := w.runDbId;
    var row := if n == TriageNode then NewException(i, run, db.threads[i].values) else None;
    var c := WithNewException(RunMoved(InvoiceMoved(db, i, n, w, input), run, n, w), row);
    LoggingTouchesLedgerOnly(c, run, EventsWritten(n, run, |db.exceptions|, input.classified));
  }

  /** Only decide calls touch exceptions and decisions; triage opens exceptions without an assignee. */
  lemma OtherOpsLeaveExceptions(db: Db, op: Op)
    requires !op.SubmitDecision?
    ensures var after := Apply(db, op);
            && after.decisions == db.decisions && db.exceptions <= after.exceptions
            && forall e :: |db.exceptions| <= e < |after.exceptions| ==> after.exceptions[e].assignee.None?
  {
    hide StatusAfter, ShownAfter, EmbeddingAfter, Attempted, RunAfter, CheckpointAfter, Launched, Halted, ResumedWith,
         NodeWritten, Ledger.NextSeq, FindByHash;
    if op.NodeCompletes? && IsExecuting(db, op.invoiceId) && Attempted(db, op.invoiceId, op.input).Ok? {
      NodeWrittenLeavesExceptions(
        db, op.invoiceId, db.threads[op.invoiceId].next.value, Attempted(db, op.invoiceId, op.input).value, op.input);
    }
  }

  /** What one decide call does to the rows of any exception `e`. */
  lemma DecisionTouches(db: Db, op: Op, e: nat)
    requires op.SubmitDecision? && e < |db.exceptions|
    ensures var after := Apply(db, op);
            && |after.exceptions| == |db.exceptions|
            && (op.exceptionId != e || db.exceptions[e].status != Open ==>
                  after.exceptions[e] == db.exceptions[e] && DecisionsFor(after, e) == DecisionsFor(db, e)
                  && LatestDecision(after.decisions, e) == LatestDecision(db.decisions, e))
            && (op.exceptionId == e && db.exceptions[e].status == Open ==>
                  if FourEyesRefuses(db.exceptions[e], op.request.action, op.user) then
                    after.exceptions[e] == Claimed(db.exceptions[e], op.user)
                    && DecisionsFor(after, e) == DecisionsFor(db, e)
                  else
                    after.exceptions[e] == Decided(db.exceptions[e], op.request, op.user)
                    && DecisionsFor(after, e) == DecisionsFor(db, e) + [
                         DecisionRow(|db.decisions|, e, op.user, op.request.action, op.request.reasonCode)])
  {
    hide Decided, Claimed, Ledger.Appended, ResumedWith, StatusDecided, DecisionsOn, FourEyesRefuses;
    var d := DecisionRow(|db.decisions|, op.exceptionId, op.user, op.request.action, op.request.reasonCode);
    DecisionsOnAppended(db.decisions, d, {e});
    assert (db.decisions + [d])[..|db.decisions|] == db.decisions;
  }

  lemma {:induction false} NoTouchBeforeOpening(ops: seq<Op>, e: nat)
    requires e >= |Run(ops).exceptions|
    ensures FirstTouch(ops, e).None?
  {
    hide Apply;
    if ops != [] {
      var n := |ops| - 1;
      ExceptionsOnlyGrow(Run(ops[..n]), ops[n]);
      NoTouchBeforeOpening(ops[..n], e);
    }
  }

  lemma ExceptionsOnlyGrow(db: Db, op: Op)
    ensures |Apply(db, op).exceptions| >= |db.exceptions|
  {
    hide Apply, DecisionsFor;
    if !op.SubmitDecision? {
      OtherOpsLeaveExceptions(db, op);
    } else if |db.exceptions| > 0 {
      DecisionTouches(db, op, 0);
    }
  }

  lemma AssigneeAfterTouch(ops: seq<Op>, e: nat)
    requires ops != [] && e < |Run(ops[..|ops| - 1]).exceptions| && Touches(ops[|ops| - 1], e)
    requires OnlyApproveOrReturn(DecisionsFor(Run(ops), e))
    requires OnlyApproveOrReturn(DecisionsFor(Run(ops[..|ops| - 1]), e)) ==>
               Run(ops[..|ops| - 1]).exceptions[e].assignee == FirstTouch(ops[..|ops| - 1], e)
    ensures e < |Run(ops).exceptions| && Run(ops).exceptions[e].assignee == FirstTouch(ops, e)
  {
    hide Apply, DecisionsFor;
    var n := |ops| - 1;
    var db := Run(ops[..n]);
    DecisionTouches(db, ops[n], e);
    var before, after := DecisionsFor(db, e), DecisionsFor(Run(ops), e);
    assert forall k :: 0 <= k < |before| ==> after[k] == before[k];
    if db.exceptions[e].status == Open && !FourEyesRefuses(db.exceptions[e], ops[n].request.action, ops[n].user) {
      assert after[|before|].action == ops[n].request.action;
    }
    if db.exceptions[e].status != Open { ResolvedIsAssigned(ops[..n], e); }
  }

  lemma ResolvedIsAssigned(ops: seq<Op>, e: nat)
    requires e < |Run(ops).exceptions| && Run(ops).exceptions[e].status == Resolved
    ensures Run(ops).exceptions[e].assignee.Some?
  {
    hide Run, EventsFor, DecisionsFor, LiveRun, EventsOf, ExceptionsOf, DlqOf, DecisionsOn, ThreadSound,
         TraceWitnessed, ColumnsShown, DlqConserved, OutcomeSound, DecisionsIn;
    ExceptionCase(ops, e);
  }

  predicate OnlyApproveOrReturn(decisions: seq<DecisionRow>) {
    forall k :: 0 <= k < |decisions| ==> decisions[k].action != EscalateUp
  }

  /** Without escalations the assignee is whoever touched the exception first. */
  lemma {:induction false} AssigneeIsFirstTouch(ops: seq<Op>, e: nat)
    requires e < |Run(ops).exceptions| && OnlyApproveOrReturn(DecisionsFor(Run(ops), e))
    ensures Run(ops).exceptions[e].assignee == FirstTouch(ops, e)
  {
    hide Apply, DecisionsFor;
    if ops != [] {
      var n := |ops| - 1;
      var db := Run(ops[..n]);
      if e >= |db.exceptions| {
        NoTouchBeforeOpening(ops[..n], e);
        if ops[n].SubmitDecision? { DecisionAddsNoException(db, ops[n]); } else { OtherOpsLeaveExceptions(db, ops[n]); }
      } else {
        if OnlyApproveOrReturn(DecisionsFor(db, e)) { AssigneeIsFirstTouch(ops[..n], e); }
        if Touches(ops[n], e) {
          AssigneeAfterTouch(ops, e);
        } else {
          UntouchedStays(db, ops[n], e);
        }
      }
    }
  }

  lemma DecisionAddsNoException(db: Db, op: Op)
    requires op.SubmitDecision?
    ensures |Apply(db, op).exceptions| == |db.exceptions|
  {
    hide Decided, Claimed, Ledger.Appended, ResumedWith;
  }

  lemma UntouchedStays(db: Db, op: Op, e: nat)
    requires e < |db.exceptions| && !Touches(op, e)
    ensures e < |Apply(db, op).exceptions| && Apply(db, op).exceptions[e] == db.exceptions[e]
    ensures DecisionsFor(Apply(db, op), e) == DecisionsFor(db, e)
    ensures LatestDecision(Apply(db, op).decisions, e) == LatestDecision(db.decisions, e)
  {
    hide Apply;
    if op.SubmitDecision? { DecisionTouches(db, op, e); } else { OtherOpsLeaveExceptions(db, op); }
  }

  /** Four eyes over the whole history: without an escalation, the approver is not the first user who
      ever touched the exception, even when that first touch was refused. */
  lemma ApproverIsNotFirstTouch(ops: seq<Op>, e: nat, k: nat)
    requires e < |Run(ops).exceptions| && OnlyApproveOrReturn(DecisionsFor(Run(ops), e))
    requires k < |DecisionsFor(Run(ops), e)| && DecisionsFor(Run(ops), e)[k].action == Approve
    ensures FirstTouch(ops, e).Some? && FirstTouch(ops, e).value != DecisionsFor(Run(ops), e)[k].actor
  {
    hide Run, DecisionsFor, FirstTouch;
    AssigneeIsFirstTouch(ops, e);
    ApproverIsNotAssignee(ops, e, k);
  }

  // ------------------------------------------------------------------ after resolution

  /** A resolved exception keeps its row and its latest decision for good. */
  lemma {:induction false} ResolutionIsFinal(ops: seq<Op>, more: seq<Op>, e: nat)
    requires e < |Run(ops).exceptions| && Run(ops).exceptions[e].status == Resolved
    ensures e < |Run(ops + more).exceptions| && Run(ops + more).exceptions[e] == Run(ops).exceptions[e]
    ensures LatestDecision(Run(ops + more).decisions, e) == LatestDecision(Run(ops).decisions, e)
  {
    hide Apply, LatestDecision, DecisionsFor;
    if more == [] {
      assert ops + more == ops;
    } else {
      var n := |more| - 1;
      assert (ops + more)[..|ops + more| - 1] == ops + more[..n];
      ResolutionIsFinal(ops, more[..n], e);
      if Touches(more[n], e) {
        DecisionTouches(Run(ops + more[..n]), more[n], e);
      } else {
        UntouchedStays(Run(ops + more[..n]), more[n], e);
      }
    }
  }

  lemma {:induction false} LatestIsLast(decisions: seq<DecisionRow>, e: nat)
    ensures DecisionsOn(decisions, {e}) == [] ==> LatestDecision(decisions, e).None?
    ensures DecisionsOn(decisions, {e}) != [] ==>
              LatestDecision(decisions, e) == Some(Last(DecisionsOn(decisions, {e})))
  {
    if decisions != [] { LatestIsLast(decisions[..|decisions| - 1], e); }
  }

  /** One decide call on an open exception, said of the row as it was. It is refused exactly when it would
      approve and nobody, or the caller, holds the row; the caller then holds it. Otherwise it is accepted:
      an approval or return resolves the row and stamps the invoice, an escalation hands the row on and
      leaves it open. Every accepted call adds its own decision row and one ledger entry. */
  lemma DecideMeans(db: Db, e: nat, request: DecisionRequest, user: string, resumed: bool)
    requires Invariant(db) && e < |db.exceptions| && db.exceptions[e].status == Open
    ensures var row, answer := db.exceptions[e], AnswerTo(db, e, request, user);
            var after := Apply(db, SubmitDecision(e, request, user, resumed));
            var holder := if row.assignee.None? then user else row.assignee.value;
            var d := DecisionRow(|db.decisions|, e, user, request.action, request.reasonCode);
            && (answer == FourEyes
                <==> request.action == Approve && (row.assignee.None? || row.assignee == Some(user)))
            && (answer == FourEyes ==>
                  after == db.(exceptions := db.exceptions[e := row.(assignee := Some(user))]))
            && (answer != FourEyes ==>
                  && answer == Accepted(|db.decisions|, if request.action == EscalateUp then Open else Resolved,
                                        request.action != EscalateUp)
                  && after.decisions == db.decisions + [d]
                  && |after.ledger| == |db.ledger| + 1 && db.ledger <= after.ledger
                  && after.ledger[|db.ledger|].run == row.runId
                  && after.ledger[|db.ledger|].event == DecisionRecorded(d, request.escalateTo)
                  && row.invoiceId < |db.invoices| && |after.invoices| == |db.invoices|
                  && after.exceptions == db.exceptions[e :=
                       if request.action != EscalateUp then row.(assignee := Some(holder), status := Resolved)
                       else row.(assignee := Some(
                         if request.escalateTo.None? || request.escalateTo.value == "" then "manager-queue"
                         else request.escalateTo.value))]
                  && after.invoices[row.invoiceId].status
                     == (match request.action
                         case Approve => DecisionApproved
                         case ReturnToVendor => ReturnedToVendor
                         case EscalateUp => db.invoices[row.invoiceId].status))
            && (answer == FourEyes || request.action == EscalateUp ==> after.threads == db.threads)
  {
    hide Invariant, Ledger.NextSeq, ResumedWith;
    ExceptionNamesRun(db, e);
  }

  /** A resolution stands: whatever follows, the row keeps its holder, the invoice says which way it
      went, and the deciding row stays the latest. */
  lemma ResolutionStands(
    ops: seq<Op>, e: nat, request: DecisionRequest, user: string, resumed: bool, more: seq<Op>)
    requires e < |Run(ops).exceptions| && Run(ops).exceptions[e].status == Open && request.action != EscalateUp
    requires request.action == Approve ==>
               Run(ops).exceptions[e].assignee.Some? && Run(ops).exceptions[e].assignee != Some(user)
    ensures var db, row := Run(ops + [SubmitDecision(e, request, user, resumed)] + more), Run(ops).exceptions[e];
            && e < |db.exceptions|
            && db.exceptions[e] == row.(status := Resolved,
                                        assignee := if row.assignee.None? then Some(user) else row.assignee)
            && Exists(db, row.invoiceId)
            && db.invoices[row.invoiceId].status
               == (if request.action == Approve then DecisionApproved else ReturnedToVendor)
            && LatestDecision(db.decisions, e)
               == Some(DecisionRow(|Run(ops).decisions|, e, user, request.action, request.reasonCode))
  {
    hide Run, Apply, AnswerTo, Invariant, DecisionsOn, EscalationsThenOne, OnlyEscalations, EventsFor, LatestDecision;
    var op := SubmitDecision(e, request, user, resumed);
    InvariantAlways(ops);
    DecideMeans(Run(ops), e, request, user, resumed);
    RunOfAppended(ops, op);
    ResolutionIsFinal(ops + [op], more, e);
    LatestOfAppended(
      Run(ops).decisions, DecisionRow(|Run(ops).decisions|, e, user, request.action, request.reasonCode));
    DecisionLogShape(ops + [op] + more, e);
    LatestIsLast(Run(ops + [op] + more).decisions, e);
    ResolvedHasLog(DecisionsFor(Run(ops + [op] + more), e));
  }

  lemma LatestOfAppended(decisions: seq<DecisionRow>, d: DecisionRow)
    ensures LatestDecision(decisions + [d], d.exceptionId) == Some(d)
  {}

  lemma ResolvedHasLog(log: seq<DecisionRow>)
    ensures EscalationsThenOne(log) ==> log != []
  {}

  /** What a caller sees of a decide call on an exception that was open, all told: who is refused, who
      holds the row afterwards, what an accepted call leaves on the row and on the invoice. `after` may lie
      behind the run the decision released. */
  predicate DecidedFrom(before: Db, after: Db, e: nat, request: DecisionRequest, user: string, answer: Answer)
    requires e < |before.exceptions|
  {
    var row := before.exceptions[e];
    && (answer == FourEyes
        <==> request.action == Approve && (row.assignee.None? || row.assignee == Some(user)))
    && (answer == FourEyes ==>
          after == before.(exceptions := before.exceptions[e := row.(assignee := Some(user))]))
    && (answer != FourEyes ==>
          && answer == Accepted(|before.decisions|, if request.action == EscalateUp then Open else Resolved,
                                request.action != EscalateUp)
          && e < |after.exceptions| && Exists(after, row.invoiceId))
    && (answer != FourEyes && request.action != EscalateUp ==>
          && after.exceptions[e] == row.(
               status := Resolved, assignee := if row.assignee.None? then Some(user) else row.assignee)
          && after.invoices[row.invoiceId].status
             == if request.action == Approve then DecisionApproved else ReturnedToVendor)
    && (answer != FourEyes && request.action == EscalateUp ==>
          && after.threads == before.threads
          && after.exceptions[e] == row.(
               assignee := Some(if request.escalateTo.None? || request.escalateTo.value == ""
                                then "manager-queue" else request.escalateTo.value)))
  }

  lemma DecidedAtOnce(db: Db, e: nat, request: DecisionRequest, user: string, resumed: bool)
    requires Invariant(db) && e < |db.exceptions| && db.exceptions[e].status == Open
    ensures DecidedFrom(db, Apply(db, SubmitDecision(e, request, user, resumed)), e, request, user,
                        AnswerTo(db, e, request, user))
  {
    hide Apply, AnswerTo, Invariant;
    DecideMeans(db, e, request, user, resumed);
  }

  lemma DecidedForGood(
    ops: seq<Op>, e: nat, request: DecisionRequest, user: string, resumed: bool, more: seq<Op>)
    requires e < |Run(ops).exceptions| && Run(ops).exceptions[e].status == Open && request.action != EscalateUp
    requires AnswerTo(Run(ops), e, request, user) != FourEyes
    ensures DecidedFrom(Run(ops), Run(ops + [SubmitDecision(e, request, user, resumed)] + more), e, request, user,
                        AnswerTo(Run(ops), e, request, user))
  {
    hide Run, Apply, AnswerTo, Invariant, LatestDecision;
    InvariantAlways(ops);
    DecideMeans(Run(ops), e, request, user, resumed);
    ResolutionStands(ops, e, request, user, resumed, more);
  }

  /** After resolution no decide call changes any table, now or later: the same decision again is
      answered with the recorded row's key, any other conflicts. */
  lemma ResolvedAnswers(
    ops: seq<Op>, more: seq<Op>, e: nat, request: DecisionRequest, user: string, resumed: bool)
    requires e < |Run(ops).exceptions| && Run(ops).exceptions[e].status == Resolved
    ensures DecisionsFor(Run(ops), e) != []
    ensures var db, d := Run(ops + more), Last(DecisionsFor(Run(ops), e));
            && Apply(db, SubmitDecision(e, request, user, resumed)) == db
            && AnswerTo(db, e, request, user)
               == (if d.actor == user && d.action == request.action && d.reasonCode == request.reasonCode
                   then SameAgain(d.decisionId) else AlreadyDecided)
  {
    hide Run, DecisionsOn, OnlyEscalations, EventsFor, LatestDecision;
    ResolutionIsFinal(ops, more, e);
    DecisionLogShape(ops, e);
    LatestIsLast(Run(ops).decisions, e);
  }
}
