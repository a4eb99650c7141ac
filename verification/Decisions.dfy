/** The human decision service. */
module Decisions {
  import opened Common
  import opened Graph
  import opened Records
  import opened Cases
  import opened Tables
  import opened Store
  import opened Runner
  import opened Attempts
  import opened Histories
  import opened Projection
  import opened Oversight
  import TableLaws
  import Retries

  class DecisionService {
    const writer: LedgerWriter

    constructor () {
      writer := new LedgerWriter();
    }

    method StampInvoice(db: Database, i: nat, action: Action)
      modifies db`invoices
      ensures db.View() == InvoiceStamped(old(db.View()), i, action)
    {
      if i < |db.invoices| {
        if action == Approve {
          db.invoices := db.invoices[i := db.invoices[i].(status := DecisionApproved)];
        } else if action == ReturnToVendor {
          db.invoices := db.invoices[i := db.invoices[i].(status := ReturnedToVendor)];
        } else {
          assert db.invoices[i := db.invoices[i]] == db.invoices;
        }
      }
    }

    /** The decision row, the exception's new state, the invoice's status and the ledger entry. */
    method Enter(db: Database, e: nat, request: DecisionRequest, user: string) returns (d: DecisionRow)
      requires e < |db.exceptions|
      modifies db`exceptions, db`decisions, db`invoices, db`ledger
      ensures db.View() == DecisionEntered(old(db.View()), e, request, user)
      ensures d == NewDecision(old(db.View()), e, request, user)
    {
      hide Cases.StatusDecided;
      d := DecisionRow(|db.decisions|, e, user, request.action, request.reasonCode);
      var exc := Claimed(db.exceptions[e], user);
      db.decisions := db.decisions + [d];
      if request.action == EscalateUp {
        exc := exc.(assignee := Some(EscalationTarget(request)));
      } else {
        exc := exc.(status := Resolved);
      }
      db.exceptions := db.exceptions[e := exc];
      StampInvoice(db, exc.invoiceId, request.action);
      writer.Append(db, exc.runId, DecisionRecorded(d, request.escalateTo));
    }

    /** The row an accepted decision finds is already claimed; claiming twice changes nothing. */
    lemma ClaimThenEnter(before: Db, e: nat, request: DecisionRequest, user: string)
      requires e < |before.exceptions|
      ensures var claimed := WithException(before, e, Claimed(before.exceptions[e], user));
              && DecisionEntered(claimed, e, request, user) == DecisionEntered(before, e, request, user)
              && NewDecision(claimed, e, request, user) == NewDecision(before, e, request, user)
    {
      hide Logged, InvoiceStamped;
      var row := before.exceptions[e];
      assert before.exceptions[e := Claimed(row, user)][e := Decided(row, request, user)]
          == before.exceptions[e := Decided(row, request, user)];
    }

    /** What one call amounts to, branch by branch. */
    lemma CallCases(before: Db, e: nat, request: DecisionRequest, user: string, resumed: bool)
      requires e < |before.exceptions|
      ensures var row := before.exceptions[e];
              var after := Apply(before, Tables.SubmitDecision(e, request, user, resumed));
              if row.status != Open then
                after == before
                && AnswerTo(before, e, request, user)
                   == ReplayOrConflict(LatestDecision(before.decisions, e), request, user)
              else if FourEyesRefuses(row, request.action, user) then
                after == WithException(before, e, Claimed(row, user)) && AnswerTo(before, e, request, user) == FourEyes
              else
                (var entered := DecisionEntered(before, e, request, user);
                 after == if request.action != EscalateUp && resumed
                          then GraphResumed(entered, row.invoiceId, NewDecision(before, e, request, user)) else entered)
                && AnswerTo(before, e, request, user)
                   == Accepted(|before.decisions|, if request.action == EscalateUp then Open else Resolved,
                               request.action != EscalateUp)
    {
      hide DecisionEntered, GraphResumed, WithException;
    }

    /** Records the decision on a claimed exception and, if it resolves, runs the graph on. */
    method Settle(
      db: Database, e: nat, request: DecisionRequest, user: string, runner: GraphRunner?,
      policy: Retries.RetryPolicy, world: World)
      returns (d: DecisionRow, outcome: Outcome)
      requires e < |db.exceptions| && e < |Run(db.history).exceptions|
      requires var row := Run(db.history).exceptions[e];
               row.status == Open && !FourEyesRefuses(row, request.action, user)
               && db.View() == WithException(Run(db.history), e, Claimed(row, user))
      modifies db
      ensures db.Valid() && d.decisionId == |old(db.decisions)|
      ensures Continued(old(db.history) + [Tables.SubmitDecision(e, request, user, runner != null)], db.history,
                        old(db.exceptions)[e].invoiceId)
      ensures request.action == EscalateUp || runner == null ==>
                outcome == Returned
                && db.history == old(db.history) + [Tables.SubmitDecision(e, request, user, runner != null)]
      ensures request.action != EscalateUp && runner != null ==>
                RunsToTheEnd(db.threads, old(db.exceptions)[e].invoiceId, outcome, |db.invoices|, policy, world)
      ensures outcome.Raised? ==> FailedLast(db.history, old(db.exceptions)[e].invoiceId, outcome)
    {
      hide Apply, DecisionEntered, NewDecision, GraphResumed, FourEyesRefuses, RunsToTheEnd, GetsThrough, RaisedFor,
           Comes, TableLaws.Invariant;
      var i := db.exceptions[e].invoiceId;
      ghost var before := Run(db.history);
      TableLaws.InvariantAlways(db.history);
      CallCases(before, e, request, user, runner != null);
      ClaimThenEnter(before, e, request, user);
      d := Enter(db, e, request, user);
      DecisionKey(before, e, request, user);
      if request.action != EscalateUp && runner != null {
        runner.SubmitDecision(db, i, d);
        ghost var op := Tables.SubmitDecision(e, request, user, runner != null);
        db.Happened(op);
        DecisionReleases(before, e, request, user);
        ghost var decided, trace := db.history, db.threads[i].values.trace;
        ghost var steps, made;
        outcome, steps, made := runner.Execute(db, i, policy, world);
        runner.ExecutedOnlyNodes(decided, db.history, i, world, steps, made, outcome, db.threads);
        if outcome.Returned? { ReleasedRunEnds(db.history, i, trace, steps); }
        EndOfRun(db.threads, i, outcome, |db.invoices|, policy, world);
      } else {
        outcome := Returned;
        db.Happened(Tables.SubmitDecision(e, request, user, runner != null));
      }
    }

    lemma DecisionKey(before: Db, e: nat, request: DecisionRequest, user: string)
      ensures NewDecision(before, e, request, user).decisionId == |before.decisions|
    {}

    /** A released run ends, unless some node does not get through its attempts. */
    predicate RunsToTheEnd(
      threads: map<nat, Thread>, i: nat, outcome: Outcome, invoices: nat, policy: Retries.RetryPolicy, world: World)
    {
      && i in threads
      && (outcome.Returned? <==> threads[i].next.None?)
      && (outcome.Raised? ==> threads[i].next.Some?
                              && !GetsThrough(world, invoices, i, threads[i].next.value, policy.attempts))
    }

    lemma EndOfRun(
      threads: map<nat, Thread>, i: nat, outcome: Outcome, invoices: nat, policy: Retries.RetryPolicy, world: World)
      requires i in threads && (outcome.Returned? ==> threads[i].next.None?)
      requires outcome.Raised? ==> threads[i].next.Some?
                                   && !GetsThrough(world, invoices, i, threads[i].next.value, policy.attempts)
      ensures RunsToTheEnd(threads, i, outcome, invoices, policy, world)
    {}

    /** An accepted resolution sets the thread of its exception, which stood behind triage, going. */
    lemma DecisionReleases(before: Db, e: nat, request: DecisionRequest, user: string)
      requires TableLaws.Invariant(before) && e < |before.exceptions| && before.exceptions[e].status == Open
      requires !FourEyesRefuses(before.exceptions[e], request.action, user) && request.action != EscalateUp
      ensures var i, after := before.exceptions[e].invoiceId,
                              Apply(before, Tables.SubmitDecision(e, request, user, true));
              IsExecuting(after, i) && i < |after.invoices| && TriageNode in after.threads[i].values.trace
    {
      hide TableLaws.Invariant, FourEyesRefuses, Apply;
      OpenExceptionHolds(before, e);
      CallCases(before, e, request, user, true);
      hide Logged, Decided;
    }

    lemma OpenExceptionHolds(db: Db, e: nat)
      requires TableLaws.Invariant(db) && e < |db.exceptions| && db.exceptions[e].status == Open
      ensures var i := db.exceptions[e].invoiceId;
              && i < |db.invoices| && i in db.threads && db.threads[i].next.Some?
              && TriageNode in db.threads[i].values.trace
    {
      hide LiveRun, EventsOf, DlqOf, DecisionsOn, TraceWitnessed, ColumnsShown, DlqConserved, ExceptionsQuoted,
           ExceptionSound, Checkpointed, RunRecorded;
      TableLaws.ExceptionNamesRun(db, e);
      var i := db.exceptions[e].invoiceId;
      TableLaws.ExceptionShown(db, e, i);
      assert TableLaws.CaseHolds(db, i);
    }

    /** Behind triage nothing pauses any more: a run that comes back is over. */
    lemma ReleasedRunEnds(ops: seq<Op>, i: nat, trace: seq<Node>, steps: seq<Step>)
      requires Exists(Run(ops), i) && i in Run(ops).threads && AtRest(Run(ops).threads, i)
      requires TriageNode in trace && steps != []
      requires Run(ops).threads[i].values.trace == trace + NodesIn(steps)
      ensures Run(ops).threads[i].next.None?
    {
      hide Run, LiveRun, EventsOf, ExceptionsOf, DlqOf, DecisionsOn, TraceWitnessed, OutcomeSound, DlqConserved,
           ColumnsShown, ExceptionsQuoted, Checkpointed, Successor;
      Lawful(ops, i);
      ExactlyOnce(ops, i);
      var whole := trace + NodesIn(steps);
      var j :| 0 <= j < |trace| && trace[j] == TriageNode;
      assert whole[j] == TriageNode && j < |whole| - 1;
    }

    /** The branches behind the status check: claim, refuse or settle. */
    method DecideOpen(
      db: Database, e: nat, request: DecisionRequest, user: string, runner: GraphRunner?,
      policy: Retries.RetryPolicy, world: World)
      returns (answer: Answer, outcome: Outcome)
      requires db.Valid() && e < |db.exceptions| && db.exceptions[e].status == Open
      modifies db
      ensures db.Valid() && answer == AnswerTo(old(db.View()), e, request, user)
      ensures DecidedFrom(old(db.View()), db.View(), e, request, user, answer)
      ensures Continued(old(db.history) + [Tables.SubmitDecision(e, request, user, runner != null)], db.history,
                        old(db.exceptions)[e].invoiceId)
      ensures answer.Accepted? && answer.resumed && runner != null ==>
                RunsToTheEnd(db.threads, old(db.exceptions)[e].invoiceId, outcome, |db.invoices|, policy, world)
      ensures outcome.Raised? ==> answer.Accepted? && answer.resumed && runner != null
                                  && FailedLast(db.history, old(db.exceptions)[e].invoiceId, outcome)
      ensures !answer.Accepted? || !answer.resumed || runner == null ==>
                outcome == Returned
                && db.View() == Apply(old(db.View()), Tables.SubmitDecision(e, request, user, runner != null))
    {
      hide Apply, AnswerTo, DecisionEntered, NewDecision, GraphResumed, RunsToTheEnd, TableLaws.Invariant, DecidedFrom,
           Run, FourEyesRefuses, Claimed, WithException, FailedLast;
      ghost var before, ops := db.View(), db.history;
      db.ValidIsLawful();
      var exc := db.exceptions[e];
      var op := Tables.SubmitDecision(e, request, user, runner != null);
      ContinuedByItself(ops + [op], exc.invoiceId);
      DecidedAtOnce(before, e, request, user, runner != null);
      if exc.assignee.None? {
        exc := exc.(assignee := Some(user));
        db.exceptions := db.exceptions[e := exc];
      }
      ClaimIsWritten(before, e, user);
      if request.action == Approve && exc.assignee == Some(user) {
        RefusedAnswer(before, e, request, user, runner != null);
        db.Happened(op);
        return FourEyes, Returned;
      }
      AcceptedAnswer(before, e, request, user);
      var d;
      d, outcome := Settle(db, e, request, user, runner, policy, world);
      answer := Accepted(d.decisionId, if request.action == EscalateUp then Open else Resolved,
                         request.action != EscalateUp);
      DecidedInTheEnd(ops, e, request, user, runner != null, db.history, answer);
    }

    /** One decide call. The claim on an unassigned exception persists even when the decision itself
        is refused; a resolution releases the graph and runs it on. When that run raises, the caller
        sees the failure instead of the answer, although the decision is committed. */
    method Decide(
      db: Database, e: nat, request: DecisionRequest, user: string, runner: GraphRunner?,
      policy: Retries.RetryPolicy, world: World)
      returns (answer: Answer, outcome: Outcome)
      requires db.Valid()
      modifies db
      ensures db.Valid() && answer == AnswerTo(old(db.View()), e, request, user)
      ensures e < |old(db.exceptions)| && old(db.exceptions)[e].status == Open ==>
                DecidedFrom(old(db.View()), db.View(), e, request, user, answer)
      ensures e < |old(db.exceptions)| ==>
                Continued(old(db.history) + [Tables.SubmitDecision(e, request, user, runner != null)], db.history,
                          old(db.exceptions)[e].invoiceId)
      ensures answer.Accepted? && answer.resumed && runner != null ==>
                e < |old(db.exceptions)|
                && RunsToTheEnd(db.threads, old(db.exceptions)[e].invoiceId, outcome, |db.invoices|, policy, world)
      ensures outcome.Raised? ==> answer.Accepted? && answer.resumed && runner != null
                                  && FailedLast(db.history, old(db.exceptions)[e].invoiceId, outcome)
      ensures !answer.Accepted? || !answer.resumed || runner == null ==>
                outcome == Returned
                && db.View() == Apply(old(db.View()), Tables.SubmitDecision(e, request, user, runner != null))
    {
      if e >= |db.exceptions| {
        return UnknownException, Returned;
      }
      hide Apply, AnswerTo, RunsToTheEnd, DecidedFrom, Run, ReplayOrConflict, LatestDecision, Continued, FailedLast;
      if db.exceptions[e].status != Open {
        ghost var i := db.exceptions[e].invoiceId;
        ClosedAnswer(db.View(), e, request, user, runner != null);
        db.Happened(Tables.SubmitDecision(e, request, user, runner != null));
        ContinuedByItself(db.history, i);
        return ReplayOrConflict(LatestDecision(db.decisions, e), request, user), Returned;
      }
      answer, outcome := DecideOpen(db, e, request, user, runner, policy, world);
    }

    lemma ContinuedByItself(ops: seq<Op>, i: nat)
      ensures Continued(ops, ops, i)
    {}

    lemma ClosedAnswer(before: Db, e: nat, request: DecisionRequest, user: string, resumed: bool)
      requires e < |before.exceptions| && before.exceptions[e].status != Open
      ensures Apply(before, Tables.SubmitDecision(e, request, user, resumed)) == before
      ensures AnswerTo(before, e, request, user)
           == ReplayOrConflict(LatestDecision(before.decisions, e), request, user)
      ensures !AnswerTo(before, e, request, user).Accepted?
    {}

    lemma ClaimIsWritten(before: Db, e: nat, user: string)
      requires e < |before.exceptions|
      ensures WithException(before, e, Claimed(before.exceptions[e], user))
           == if before.exceptions[e].assignee.None?
              then before.(exceptions := before.exceptions[e := before.exceptions[e].(assignee := Some(user))])
              else before
    {
      assert before.exceptions[e := before.exceptions[e]] == before.exceptions;
    }

    lemma RefusedAnswer(before: Db, e: nat, request: DecisionRequest, user: string, resumed: bool)
      requires e < |before.exceptions| && before.exceptions[e].status == Open && request.action == Approve
      requires before.exceptions[e].assignee.None? || before.exceptions[e].assignee == Some(user)
      ensures Apply(before, Tables.SubmitDecision(e, request, user, resumed))
           == WithException(before, e, Claimed(before.exceptions[e], user))
      ensures AnswerTo(before, e, request, user) == FourEyes
    {}

    lemma AcceptedAnswer(before: Db, e: nat, request: DecisionRequest, user: string)
      requires e < |before.exceptions| && before.exceptions[e].status == Open
      requires request.action == Approve ==>
                 before.exceptions[e].assignee.Some? && before.exceptions[e].assignee != Some(user)
      ensures !FourEyesRefuses(before.exceptions[e], request.action, user)
      ensures AnswerTo(before, e, request, user)
           == Accepted(|before.decisions|, if request.action == EscalateUp then Open else Resolved,
                       request.action != EscalateUp)
    {}

    /** The effect a caller sees, once the released run has come back too. */
    lemma DecidedInTheEnd(
      ops: seq<Op>, e: nat, request: DecisionRequest, user: string, resumed: bool, later: seq<Op>, answer: Answer)
      requires e < |Run(ops).exceptions| && Run(ops).exceptions[e].status == Open
      requires answer == AnswerTo(Run(ops), e, request, user) && answer != FourEyes
      requires ops + [Tables.SubmitDecision(e, request, user, resumed)] <= later
      requires request.action == EscalateUp ==> later == ops + [Tables.SubmitDecision(e, request, user, resumed)]
      ensures DecidedFrom(Run(ops), Run(later), e, request, user, answer)
      ensures later == ops + [Tables.SubmitDecision(e, request, user, resumed)] ==>
                Run(later) == Apply(Run(ops), Tables.SubmitDecision(e, request, user, resumed))
    {
      hide Run, Apply, AnswerTo, DecidedFrom, TableLaws.Invariant;
      var op := Tables.SubmitDecision(e, request, user, resumed);
      TableLaws.InvariantAlways(ops);
      TableLaws.RunOfAppended(ops, op);
      if request.action == EscalateUp {
        DecidedAtOnce(Run(ops), e, request, user, resumed);
      } else {
        var more := later[|ops| + 1..];
        assert later == ops + [op] + more;
        DecidedForGood(ops, e, request, user, resumed, more);
      }
    }
  }
}
