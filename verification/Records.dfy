/** The rows the services write and the events they append to the ledger. */
module Records {
  import opened Common
  import opened Graph
  import Retries
  import Taxonomy
  import Triage

  datatype InvoiceStatus = Received | AutoApproved | InException | DecisionApproved | ReturnedToVendor

  datatype RunStatus = Queued | Running | AwaitingDecision | Completed | Failed | Rejected

  datatype RunRow = RunRow(invoiceId: nat, status: RunStatus, route: Option<Route>, confidence: Option<real>)

  /** The columns of an invoice row that the match node backfills for the queue. */
  datatype ReadModel = ReadModel(
    invoiceNumber: Option<string>, currency: Option<string>, amount: Option<real>, issueDate: Option<int>,
    poNumber: Option<string>)

  const BLANK := ReadModel(None, None, None, None, None)

  datatype ExceptionStatus = Open | Resolved

  datatype ExceptionRow = ExceptionRow(
    invoiceId: nat,
    runId: Option<nat>,
    code: Taxonomy.ExceptionCode,
    severity: Taxonomy.ExceptionSeverity,
    findings: seq<Triage.TriageFinding>,
    assignee: Option<string>,
    status: ExceptionStatus)

  datatype DecisionRow = DecisionRow(
    decisionId: nat, exceptionId: nat, actor: string, action: Action, reasonCode: string)

  datatype DlqStatus = Pending | Replayed

  datatype DlqRow = DlqRow(runId: nat, invoiceId: nat, kind: Retries.FailureKind, attempts: int, status: DlqStatus)

  datatype Event =
    | IngestAccepted
    | IngestDuplicate
    | RunStarted
    | ExtractCompleted
    | ValidateCompleted
    | MatchCompleted
    | PolicyEvaluated
    | GateDecided
    | InvoiceAutoApproved
    | ExceptionOpened(exceptionId: nat)
    | TriageCompleted(exceptionId: nat)
    | HumanReviewCompleted
    | RunArchived
    | RunRejected
    | RunFailed(dlqId: nat)
    | DlqReplayed(dlqId: nat)
    | DecisionRecorded(decision: DecisionRow, escalatedTo: Option<string>)

  /** The event a node appends when it completes. */
  function EventOf(n: Node, exceptionId: nat): Event {
    match n
    case IngestNode => RunStarted
    case ExtractNode => ExtractCompleted
    case ValidateNode => ValidateCompleted
    case MatchNode => MatchCompleted
    case PolicyNode => PolicyEvaluated
    case GateNode => GateDecided
    case AutoApproveNode => InvoiceAutoApproved
    case TriageNode => ExceptionOpened(exceptionId)
    case HumanReviewNode => HumanReviewCompleted
    case ArchiveNode => RunArchived
    case RejectNode => RunRejected
  }

  /** The node an event witnesses, if it is a node event. */
  function NodeOf(e: Event): Option<Node> {
    match e
    case RunStarted => Some(IngestNode)
    case ExtractCompleted => Some(ExtractNode)
    case ValidateCompleted => Some(ValidateNode)
    case MatchCompleted => Some(MatchNode)
    case PolicyEvaluated => Some(PolicyNode)
    case GateDecided => Some(GateNode)
    case InvoiceAutoApproved => Some(AutoApproveNode)
    case ExceptionOpened(_) => Some(TriageNode)
    case HumanReviewCompleted => Some(HumanReviewNode)
    case RunArchived => Some(ArchiveNode)
    case RunRejected => Some(RejectNode)
    case _ => None
  }

  // ------------------------------------------------------------------ views of a run's events

  function NodesOf(events: seq<Event>): seq<Node> {
    if events == [] then []
    else
      var n := |events| - 1;
      var before := NodesOf(events[..n]);
      if NodeOf(events[n]).Some? then before + [NodeOf(events[n]).value] else before
  }

  function DecisionsIn(events: seq<Event>): seq<DecisionRow> {
    if events == [] then []
    else
      var n := |events| - 1;
      var before := DecisionsIn(events[..n]);
      if events[n].DecisionRecorded? then before + [events[n].decision] else before
  }

  /** Dead-letter keys announced as failed, with multiplicity. */
  function FailuresIn(events: seq<Event>): multiset<nat> {
    if events == [] then multiset{}
    else
      var n := |events| - 1;
      FailuresIn(events[..n]) + if events[n].RunFailed? then multiset{events[n].dlqId} else multiset{}
  }

  /** Dead-letter keys announced as replayed, with multiplicity. */
  function ReplaysIn(events: seq<Event>): multiset<nat> {
    if events == [] then multiset{}
    else
      var n := |events| - 1;
      ReplaysIn(events[..n]) + if events[n].DlqReplayed? then multiset{events[n].dlqId} else multiset{}
  }

  predicate Resolves(e: Event) {
    e.DecisionRecorded? && e.decision.action != EscalateUp
  }

  /** Some decision among the events was not an escalation. */
  predicate ResolvedIn(events: seq<Event>) {
    exists k :: 0 <= k < |events| && Resolves(events[k])
  }

  predicate OpenedIn(events: seq<Event>) {
    exists k :: 0 <= k < |events| && events[k].ExceptionOpened?
  }

  /** Past an opened exception, review and archiving only happen after a resolving decision. */
  predicate HumanGated(events: seq<Event>) {
    forall k :: 0 <= k < |events| && NeedsDecision(events, k) ==> ResolvedIn(events[..k])
  }

  predicate NeedsDecision(events: seq<Event>, k: nat)
    requires k < |events|
  {
    events[k] == HumanReviewCompleted || (events[k] == RunArchived && OpenedIn(events[..k]))
  }

  lemma ViewsOfAppended(events: seq<Event>, e: Event)
    ensures NodesOf(events + [e]) == NodesOf(events) + (if NodeOf(e).Some? then [NodeOf(e).value] else [])
    ensures DecisionsIn(events + [e]) == DecisionsIn(events) + (if e.DecisionRecorded? then [e.decision] else [])
    ensures FailuresIn(events + [e]) == FailuresIn(events) + (if e.RunFailed? then multiset{e.dlqId} else multiset{})
    ensures ReplaysIn(events + [e]) == ReplaysIn(events) + (if e.DlqReplayed? then multiset{e.dlqId} else multiset{})
  {
    assert (events + [e])[..|events|] == events;
  }

  lemma ResolvedOfAppended(events: seq<Event>, e: Event)
    ensures ResolvedIn(events + [e]) <==> ResolvedIn(events) || Resolves(e)
  {
    var all := events + [e];
    assert all[|events|] == e;
    assert forall k :: 0 <= k < |events| ==> all[k] == events[k];
  }

  lemma HumanGatedOfAppended(events: seq<Event>, e: Event)
    requires HumanGated(events)
    requires e == HumanReviewCompleted || (e == RunArchived && OpenedIn(events)) ==> ResolvedIn(events)
    ensures HumanGated(events + [e])
  {
    var all := events + [e];
    forall k | 0 <= k < |all| && NeedsDecision(all, k)
      ensures ResolvedIn(all[..k])
    {
      if k < |events| {
        assert all[..k] == events[..k];
      } else {
        assert all[..k] == events;
      }
    }
  }

  lemma {:induction false} NodeIsWitnessed(events: seq<Event>, n: Node)
    ensures n in NodesOf(events) <==> exists k :: 0 <= k < |events| && NodeOf(events[k]) == Some(n)
  {
    if events != [] {
      var last := |events| - 1;
      NodeIsWitnessed(events[..last], n);
      if k :| 0 <= k < |events| && NodeOf(events[k]) == Some(n) {
        if k < last { assert NodeOf(events[..last][k]) == Some(n); }
      }
      if k :| 0 <= k < last && NodeOf(events[..last][k]) == Some(n) {
        assert NodeOf(events[k]) == Some(n);
      }
    }
  }

  lemma OpenedIffTriaged(events: seq<Event>)
    ensures OpenedIn(events) <==> TriageNode in NodesOf(events)
  {
    NodeIsWitnessed(events, TriageNode);
    if k :| 0 <= k < |events| && events[k].ExceptionOpened? {
      assert NodeOf(events[k]) == Some(TriageNode);
    }
  }

  lemma {:induction false} ResolvedIffDecided(events: seq<Event>)
    ensures ResolvedIn(events) <==> exists d :: d in DecisionsIn(events) && d.action != EscalateUp
  {
    if events != [] {
      var n := |events| - 1;
      ResolvedIffDecided(events[..n]);
      assert events == events[..n] + [events[n]];
      ResolvedOfAppended(events[..n], events[n]);
      ViewsOfAppended(events[..n], events[n]);
    }
  }
}
