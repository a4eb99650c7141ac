/** Every transition of a case keeps its invariant. */
module CaseLaws {
  import opened Common
  import opened Graph
  import opened Records
  import opened Cases
  import GraphLaws
  import NearDup
  import Retries
  import Triage
  import Validation
  import Gate

  // ------------------------------------------------------------------ a node completes

  lemma IngestEvents()
    ensures var events := [IngestAccepted] + [RunStarted];
            && NodesOf(events) == [IngestNode] && DecisionsIn(events) == [] && HumanGated(events)
            && FailuresIn(events) == multiset{} && ReplaysIn(events) == multiset{}
  {
    ViewsOfAppended([], IngestAccepted);
    ViewsOfAppended([IngestAccepted], RunStarted);
    assert [] + [IngestAccepted] == [IngestAccepted];
  }

  lemma IngestLands(c: Case, input: NodeInput, hits: seq<NearDup.NearDupHit>, e: nat)
    requires Untouched(c) && Executing(c)
    ensures Underway(Completion(c, input, hits, e))
  {
    hide Stage, Checkpointed, InitialState;
    var w := GraphLaws.IngestedState(c.invoiceId, c.runId);
    GraphLaws.IngestChecks(c.invoiceId, input, c.runId, hits, e);
    IngestedIsUnderway(c, w, e, input);
  }

  lemma IngestedIsUnderway(c: Case, w: GraphState, e: nat, input: NodeInput)
    requires Untouched(c) && c.thread.Some?
    requires w == GraphLaws.IngestedState(c.invoiceId, c.runId) && Checkpointed(w)
    ensures Underway(Landed(c, IngestNode, w, e, input))
  {
    hide Checkpointed, NodesOf, DecisionsIn, FailuresIn, ReplaysIn, HumanGated;
    IngestEvents();
    var d := Landed(c, IngestNode, w, e, input);
    assert d.events == [IngestAccepted] + [RunStarted];
    assert ReplayedKeys(d.dlq) == {};
  }

  /** Past triage, a thread that runs has its resolving decision on record. */
  lemma DecisionPrecedes(c: Case)
    requires Underway(c) && Reached(c, TriageNode) && !c.thread.value.paused
    ensures ResolvedIn(c.events)
    ensures c.exceptions[ValuesOf(c).exceptionId.value].status == Resolved
  {
    ResolvedIffDecided(c.events);
    assert LastDecision(c) in c.decisions;
  }

  lemma QuietEvent(events: seq<Event>, e: Event)
    requires HumanGated(events) && (NodeOf(e).None? || e.ExceptionOpened?)
    ensures HumanGated(events + [e])
  {
    HumanGatedOfAppended(events, e);
  }

  lemma EventGrows(events: seq<Event>, e: Event, n: Option<Node>)
    requires NodeOf(e) == n && !e.DecisionRecorded? && !e.RunFailed? && !e.DlqReplayed?
    ensures NodesOf(events + [e]) == NodesOf(events) + if n.Some? then [n.value] else []
    ensures DecisionsIn(events + [e]) == DecisionsIn(events)
    ensures FailuresIn(events + [e]) == FailuresIn(events) && ReplaysIn(events + [e]) == ReplaysIn(events)
  {
    hide NodesOf, DecisionsIn, FailuresIn, ReplaysIn;
    ViewsOfAppended(events, e);
  }

  lemma EventsGrow(events: seq<Event>, n: Node, e: nat, classified: bool)
    requires HumanGated(events)
    requires n == HumanReviewNode || (n == ArchiveNode && OpenedIn(events)) ==> ResolvedIn(events)
    ensures var grown := events + EventsAfter(n, e, classified);
            && NodesOf(grown) == NodesOf(events) + [n] && HumanGated(grown)
            && DecisionsIn(grown) == DecisionsIn(events)
            && FailuresIn(grown) == FailuresIn(events) && ReplaysIn(grown) == ReplaysIn(events)
  {
    hide HumanGated, OpenedIn, ResolvedIn, NodesOf, DecisionsIn, FailuresIn, ReplaysIn;
    var first := EventOf(n, e);
    HumanGatedOfAppended(events, first);
    EventGrows(events, first, Some(n));
    if n == TriageNode && classified {
      QuietEvent(events + [first], TriageCompleted(e));
      EventGrows(events + [first], TriageCompleted(e), None);
      assert events + EventsAfter(n, e, classified) == events + [first] + [TriageCompleted(e)];
    } else {
      assert events + EventsAfter(n, e, classified) == events + [first];
    }
  }

  lemma DecisionPrecedesReview(c: Case, n: Node)
    requires Underway(c) && Executing(c) && c.thread.value.next == Some(n)
    requires n == HumanReviewNode || (n == ArchiveNode && OpenedIn(c.events))
    ensures ResolvedIn(c.events)
  {
    hide StagesDone, Routed, RouteRecorded, DlqConserved, ColumnsShown, OutcomeSound, ResolvedIn, HumanGated, NodesOf;
    var v := ValuesOf(c);
    assert LastNode(v) in v.trace;
    GraphLaws.SuccessorIsEdge(v, n);
    hide Successor;
    OpenedIffTriaged(c.events);
    DecisionPrecedes(c);
  }

  lemma EventsLand(c: Case, n: Node, w: GraphState, e: nat, input: NodeInput)
    requires Underway(c) && Executing(c) && c.thread.value.next == Some(n)
    requires w.trace == ValuesOf(c).trace + [n]
    ensures var d := Landed(c, n, w, e, input);
            TraceWitnessed(d) && DecisionsIn(d.events) == d.decisions && DlqConserved(d)
  {
    hide ThreadSound, ColumnsShown, OutcomeSound, ExceptionsQuoted, NewException, StatusAfter, RunAfter, ShownAfter,
         EventsAfter, HumanGated, OpenedIn, ResolvedIn, NodesOf, DecisionsIn, FailuresIn, ReplaysIn;
    if n == HumanReviewNode || (n == ArchiveNode && OpenedIn(c.events)) { DecisionPrecedesReview(c, n); }
    EventsGrow(c.events, n, e, input.classified);
  }

  lemma TriageLands(c: Case, w: GraphState, e: nat, input: NodeInput)
    requires Underway(c) && Executing(c) && c.thread.value.next == Some(TriageNode)
    requires GraphLaws.Extends(ValuesOf(c), TriageNode, w) && w.exceptionId == Some(e)
    ensures OutcomeSound(Landed(c, TriageNode, w, e, input))
  {
    hide StagesDone, Routed, RouteRecorded, TraceWitnessed, DlqConserved, ColumnsShown, ExceptionsQuoted, Successor,
         DraftOf;
    var v := ValuesOf(c);
    GraphLaws.AheadOf(v, TriageNode);
    GraphLaws.TriageNeverEmptyHanded(v);
    var d := Landed(c, TriageNode, w, e, input);
    assert w.trace[|v.trace|] == TriageNode;
    assert d.exceptions == map[e := NewException(c.invoiceId, Some(c.runId), v).value];
    assert d.decisions == [];
  }

  lemma OtherNodeLands(c: Case, n: Node, w: GraphState, e: nat, input: NodeInput)
    requires Underway(c) && Executing(c) && c.thread.value.next == Some(n) && n != TriageNode
    requires GraphLaws.Extends(ValuesOf(c), n, w)
    ensures OutcomeSound(Landed(c, n, w, e, input))
  {
    hide StagesDone, Routed, RouteRecorded, TraceWitnessed, DlqConserved, ColumnsShown, ExceptionsQuoted, Successor,
         LogShape, RunAfter, EventsAfter, CheckpointAfter, RunRecorded, ShownAfter, IsPath;
    var v := ValuesOf(c);
    GraphLaws.AheadOf(v, n);
    assert forall m :: m in w.trace <==> m in v.trace || m == n;
    if TriageNode in v.trace { DecisionPrecedes(c); }
    LandedThread(c, n, w, e, input);
  }

  lemma LandedThread(c: Case, n: Node, w: GraphState, e: nat, input: NodeInput)
    requires c.thread.Some?
    ensures var d := Landed(c, n, w, e, input);
            d.thread.Some? && ValuesOf(d) == w && d.thread.value.paused == (n == TriageNode)
  {}

  lemma RunLands(c: Case, n: Node, w: GraphState, e: nat, input: NodeInput)
    requires Underway(c) && Executing(c) && c.thread.value.next == Some(n) && n != RejectNode
    requires GraphLaws.Extends(ValuesOf(c), n, w) && RouteRecorded(w)
    ensures var d := Landed(c, n, w, e, input);
            RunRecorded(d) && d.run.status != Queued && d.run.status != Rejected
  {
    hide StagesDone, Routed, TraceWitnessed, DlqConserved, ColumnsShown, ExceptionsQuoted, OutcomeSound, Successor,
         NewException, ShownAfter, StatusAfter, EventsAfter;
    GraphLaws.AheadOf(ValuesOf(c), n);
    assert forall m :: m in w.trace <==> m in ValuesOf(c).trace || m == n;
  }

  lemma MatchKeepsItsDocuments(
    n: Node, v: GraphState, input: NodeInput, hits: seq<NearDup.NearDupHit>, e: nat, w: GraphState)
    requires Stage(n, v, input, v.runDbId, hits, e) == Ok(w)
    ensures n == MatchNode ==> w.extraction.Some? && w.matched == Some(MatchStage(w.extraction.value, input))
  {
    hide MatchStage, Validation.Report, Gate.Decide, Triage.Draft;
  }

  lemma ColumnsLand(c: Case, n: Node, w: GraphState, e: nat, input: NodeInput)
    requires Underway(c) && Executing(c) && c.thread.value.next == Some(n)
    requires GraphLaws.Extends(ValuesOf(c), n, w)
    requires n == MatchNode ==> w.extraction.Some? && w.matched == Some(MatchStage(w.extraction.value, input))
    ensures ColumnsShown(Landed(c, n, w, e, input))
  {
    hide Checkpointed, OutcomeSound, TraceWitnessed, Successor, DlqConserved, ExceptionsQuoted, RunRecorded,
         NewException, RunAfter, StatusAfter, EventsAfter, PoRead, GrRead, Matching.Matched;
    GraphLaws.AheadOf(ValuesOf(c), n);
    assert forall m :: m in w.trace <==> m in ValuesOf(c).trace || m == n;
  }

  lemma QuotesLand(c: Case, n: Node, w: GraphState, e: nat, input: NodeInput)
    requires Underway(c) && Executing(c) && c.thread.value.next == Some(n)
    requires GraphLaws.Extends(ValuesOf(c), n, w)
    ensures ExceptionsQuoted(Landed(c, n, w, e, input))
  {
    hide StagesDone, Routed, RouteRecorded, TraceWitnessed, DlqConserved, ColumnsShown, Successor, DraftOf, GateHeld,
         ExceptionSound;
    GraphLaws.AheadOf(ValuesOf(c), n);
    if n == TriageNode || TriageNode in ValuesOf(c).trace { GraphLaws.SameDraft(ValuesOf(c), n, w); }
  }

  /** A node that completes where the graph scheduled it. */
  lemma NodeLands(c: Case, input: NodeInput, hits: seq<NearDup.NearDupHit>, e: nat)
    requires Underway(c) && Executing(c) && StageOf(c, input, hits, e).Ok?
    ensures Underway(Completion(c, input, hits, e))
  {
    var n, w := c.thread.value.next.value, StageOf(c, input, hits, e).value;
    var v := ValuesOf(c);
    assert v.trace != [] && Successor(LastNode(v), v) == Some(n) && Checkpointed(v);
    hide StagesDone, Routed, RouteRecorded, OutcomeSound, TraceWitnessed, Successor, Stage, DlqConserved,
         ExceptionsQuoted, ColumnsShown, ThreadSound, RunRecorded, Landed;
    GraphLaws.AheadOf(v, n);
    GraphLaws.StageIgnoresRun(n, v, input, PickedRun(c), v.runDbId, hits, e);
    GraphLaws.StageKeepsCheckpointed(n, v, input, hits, e, w);
    GraphLaws.StageExtends(n, v, input, v.runDbId, hits, e);
    TriageNamesException(n, v, input, hits, e, w);
    EventsLand(c, n, w, e, input);
    if n == TriageNode {
      TriageLands(c, w, e, input);
    } else {
      OtherNodeLands(c, n, w, e, input);
    }
    RunLands(c, n, w, e, input);
    MatchKeepsItsDocuments(n, v, input, hits, e, w);
    ColumnsLand(c, n, w, e, input);
    ThreadLands(c, n, w, e, input);
    QuotesLand(c, n, w, e, input);
  }

  lemma ThreadLands(c: Case, n: Node, w: GraphState, e: nat, input: NodeInput)
    requires Underway(c) && Executing(c) && c.thread.value.next == Some(n)
    requires GraphLaws.Extends(ValuesOf(c), n, w) && Checkpointed(w) && n != IngestNode
    ensures ThreadSound(Landed(c, n, w, e, input))
  {
    hide Checkpointed, OutcomeSound, TraceWitnessed, Successor, DlqConserved, ExceptionsQuoted, RunRecorded,
         ColumnsShown, NewException, ShownAfter, RunAfter, StatusAfter, EventsAfter;
    assert w.trace != [] && LastNode(w) == n;
  }

  lemma TriageNamesException(
    n: Node, v: GraphState, input: NodeInput, hits: seq<NearDup.NearDupHit>, e: nat, w: GraphState)
    requires Stage(n, v, input, v.runDbId, hits, e) == Ok(w)
    ensures n == TriageNode ==> w.exceptionId == Some(e)
  {}

  lemma CompletionKeeps(c: Case, input: NodeInput, hits: seq<NearDup.NearDupHit>, e: nat)
    requires CaseInv(c)
    ensures CaseInv(Completion(c, input, hits, e))
  {
    hide Underway, Untouched, Stage;
    if Executing(c) && StageOf(c, input, hits, e).Ok? {
      if Underway(c) { NodeLands(c, input, hits, e); } else { IngestLands(c, input, hits, e); }
    }
  }

  // ------------------------------------------------------------------ the other transitions

  lemma StartKeeps(c: Case)
    requires CaseInv(c)
    ensures CaseInv(Started(c))
    ensures Underway(c) ==> Underway(Started(c))
  {
    hide Checkpointed, NodesOf, DecisionsIn, FailuresIn, ReplaysIn, HumanGated, LogShape, Successor, QuotesDraft;
  }

  lemma CrashKeeps(c: Case)
    requires CaseInv(c)
    ensures CaseInv(Crashed(c))
    ensures Underway(c) ==> Underway(Crashed(c))
  {
    hide Checkpointed, NodesOf, DecisionsIn, FailuresIn, ReplaysIn, HumanGated, LogShape, Successor, QuotesDraft;
  }

  /** A half-finished attempt at the match node touches columns nobody vouches for yet. */
  lemma BreakKeeps(c: Case, input: NodeInput)
    requires CaseInv(c)
    ensures CaseInv(Broken(c, input))
  {
    hide StagesDone, Routed, RouteRecorded, NodesOf, DecisionsIn, FailuresIn, ReplaysIn, HumanGated, LogShape,
         Successor, QuotesDraft, ShownAfter;
    if Underway(c) && Executing(c) && c.thread.value.next == Some(MatchNode) {
      GraphLaws.AheadOf(ValuesOf(c), MatchNode);
    }
  }

  lemma BookkeepingEvent(events: seq<Event>, e: Event)
    requires e.RunFailed? || e.DlqReplayed?
    requires HumanGated(events)
    ensures HumanGated(events + [e]) && NodesOf(events + [e]) == NodesOf(events)
    ensures DecisionsIn(events + [e]) == DecisionsIn(events)
    ensures FailuresIn(events + [e]) == FailuresIn(events) + (if e.RunFailed? then multiset{e.dlqId} else multiset{})
    ensures ReplaysIn(events + [e]) == ReplaysIn(events) + (if e.DlqReplayed? then multiset{e.dlqId} else multiset{})
  {
    hide HumanGated, NodesOf, DecisionsIn, FailuresIn, ReplaysIn;
    QuietEvent(events, e);
    ViewsOfAppended(events, e);
  }

  /** Bookkeeping that neither moves the thread nor touches the exception keeps everything. */
  lemma BookkeepingKeeps(c: Case, e: Event, dlq: map<nat, DlqRow>, run: RunRow, d: Case)
    requires Underway(c) && (e.RunFailed? || e.DlqReplayed?)
    requires d == c.(events := c.events + [e], dlq := dlq, run := run)
    requires run == c.run.(status := run.status) && run.status != Queued && run.status != Rejected
    requires DlqConserved(d)
    ensures Underway(d)
  {
    hide Checkpointed, NodesOf, DecisionsIn, FailuresIn, ReplaysIn, HumanGated, LogShape, Successor, DlqConserved,
         QuotesDraft;
    BookkeepingEvent(c.events, e);
  }

  lemma KeysGrow(dlq: map<nat, DlqRow>, k: nat, row: DlqRow)
    requires k !in dlq && row.status == Pending
    ensures multiset(dlq[k := row].Keys) == multiset(dlq.Keys) + multiset{k}
    ensures ReplayedKeys(dlq[k := row]) == ReplayedKeys(dlq)
  {
    assert dlq[k := row].Keys == dlq.Keys + {k};
  }

  lemma KeyIsReplayed(dlq: map<nat, DlqRow>, k: nat)
    requires k in dlq && dlq[k].status == Pending
    ensures var after := dlq[k := dlq[k].(status := Replayed)];
            && after.Keys == dlq.Keys
            && multiset(ReplayedKeys(after)) == multiset(ReplayedKeys(dlq)) + multiset{k}
  {
    var after := dlq[k := dlq[k].(status := Replayed)];
    assert ReplayedKeys(after) == ReplayedKeys(dlq) + {k};
  }

  lemma FailureConserved(c: Case, newDlqId: nat, row: DlqRow, d: Case)
    requires DlqConserved(c) && newDlqId !in c.dlq && HumanGated(c.events)
    requires row.runId == c.runId && row.invoiceId == c.invoiceId && row.status == Pending
    requires d.events == c.events + [RunFailed(newDlqId)] && d.dlq == c.dlq[newDlqId := row]
    requires d.runId == c.runId && d.invoiceId == c.invoiceId
    ensures DlqConserved(d)
  {
    hide FailuresIn, ReplaysIn, HumanGated, ReplayedKeys;
    BookkeepingEvent(c.events, RunFailed(newDlqId));
    KeysGrow(c.dlq, newDlqId, row);
  }

  lemma ReplayConserved(c: Case, k: nat, d: Case)
    requires DlqConserved(c) && Replayable(c, k) && HumanGated(c.events)
    requires d.events == c.events + [DlqReplayed(k)] && d.dlq == c.dlq[k := c.dlq[k].(status := Replayed)]
    requires d.runId == c.runId && d.invoiceId == c.invoiceId
    ensures DlqConserved(d)
  {
    hide FailuresIn, ReplaysIn, HumanGated, ReplayedKeys;
    BookkeepingEvent(c.events, DlqReplayed(k));
    KeyIsReplayed(c.dlq, k);
  }

  lemma FailKeeps(c: Case, newDlqId: nat, kind: Retries.FailureKind, attempts: int)
    requires CaseInv(c) && newDlqId !in c.dlq
    ensures CaseInv(FailedAs(c, newDlqId, kind, attempts))
  {
    hide Checkpointed, NodesOf, DecisionsIn, FailuresIn, ReplaysIn, HumanGated, OutcomeSound, ColumnsShown, Successor,
         DlqConserved;
    if Underway(c) && Executing(c) {
      var halted := Crashed(c);
      CrashKeeps(c);
      var row := DlqRow(c.runId, c.invoiceId, kind, attempts, Pending);
      var d := FailedAs(c, newDlqId, kind, attempts);
      FailureConserved(halted, newDlqId, row, d);
      BookkeepingKeeps(halted, RunFailed(newDlqId), d.dlq, d.run, d);
    }
  }

  lemma ReplayKeeps(c: Case, d: nat)
    requires CaseInv(c)
    ensures CaseInv(ReplayedAs(c, d))
  {
    hide Checkpointed, NodesOf, DecisionsIn, FailuresIn, ReplaysIn, HumanGated, OutcomeSound, ColumnsShown, Successor,
         DlqConserved;
    if Underway(c) && Replayable(c, d) {
      var claimed := c.(run := c.run.(status := Running), events := c.events + [DlqReplayed(d)],
                        dlq := c.dlq[d := c.dlq[d].(status := Replayed)]);
      ReplayConserved(c, d, claimed);
      BookkeepingKeeps(c, DlqReplayed(d), claimed.dlq, claimed.run, claimed);
      StartKeeps(claimed);
    }
  }

  lemma DraftIgnoresDecision(v: GraphState, h: Option<HumanDecision>)
    ensures DraftOf(v.(humanDecision := h)) == DraftOf(v)
    ensures v.extraction.Some? ==>
              GateInputsOf(v.extraction.value, v.(humanDecision := h)) == GateInputsOf(v.extraction.value, v)
  {
    hide Triage.Draft, SeverityNames;
  }

  lemma SuccessorIgnoresDecision(n: Node, v: GraphState, h: Option<HumanDecision>)
    ensures Successor(n, v.(humanDecision := h)) == Successor(n, v)
  {
    hide Validation.HasErrors, HasHigh;
  }

  lemma CheckpointIgnoresDecision(v: GraphState, h: Option<HumanDecision>)
    requires Checkpointed(v)
    ensures var w := v.(humanDecision := h);
            Checkpointed(w) && Successor(LastNode(w), w) == Successor(LastNode(v), v)
  {
    hide Successor, Validation.Report, Validation.HasErrors, Gate.Decide, MatchRight, PolicyRight, DraftOf,
         GateInputsOf;
    DraftIgnoresDecision(v, h);
    SuccessorIgnoresDecision(LastNode(v), v, h);
  }

  lemma DecisionEvent(events: seq<Event>, e: Event)
    requires e.DecisionRecorded? && HumanGated(events)
    ensures HumanGated(events + [e]) && NodesOf(events + [e]) == NodesOf(events)
    ensures DecisionsIn(events + [e]) == DecisionsIn(events) + [e.decision]
    ensures FailuresIn(events + [e]) == FailuresIn(events) && ReplaysIn(events + [e]) == ReplaysIn(events)
  {
    hide HumanGated, NodesOf, DecisionsIn, FailuresIn, ReplaysIn;
    QuietEvent(events, e);
    ViewsOfAppended(events, e);
  }

  /** The log stays "escalations, then at most one resolution". */
  lemma LogGrows(decisions: seq<DecisionRow>, d: DecisionRow)
    requires LogShape(Open, decisions)
    ensures LogShape(if d.action == EscalateUp then Open else Resolved, decisions + [d])
  {}

  lemma OpenExceptionHolds(c: Case, e: nat)
    requires Underway(c) && e in c.exceptions && c.exceptions[e].status == Open
    ensures Reached(c, TriageNode) && ValuesOf(c).exceptionId == Some(e)
    ensures ExceptionSound(c, e, c.exceptions[e]) && c.exceptions.Keys == {e}
    ensures c.thread.value.paused && c.thread.value.next == Some(HumanReviewNode) && c.status == InException
  {
    hide Checkpointed, ExceptionSound, NodesOf, DecisionsIn, FailuresIn, ReplaysIn, HumanGated;
  }

  lemma RecordedOutcome(c: Case, e: nat, request: DecisionRequest, user: string, resumed: bool, d: nat)
    requires Underway(c) && e in c.exceptions && c.exceptions[e].status == Open
    requires !FourEyesRefuses(c.exceptions[e], request.action, user)
    ensures OutcomeSound(Recorded(c, e, request, user, resumed, d))
  {
    hide Checkpointed, NodesOf, DecisionsIn, FailuresIn, ReplaysIn, HumanGated, LogShape, Successor, QuotesDraft;
    OpenExceptionHolds(c, e);
    var row := DecisionRow(d, e, user, request.action, request.reasonCode);
    LogGrows(c.decisions, row);
    var after := Recorded(c, e, request, user, resumed, d);
    assert LastDecision(after) == row;
    assert after.exceptions.Keys == {e};
  }

  lemma RecordedThread(c: Case, e: nat, request: DecisionRequest, user: string, resumed: bool, d: nat)
    requires Underway(c) && e in c.exceptions && c.exceptions[e].status == Open
    ensures ThreadSound(Recorded(c, e, request, user, resumed, d))
  {
    hide Checkpointed, OutcomeSound, NodesOf, DecisionsIn, FailuresIn, ReplaysIn, HumanGated, LogShape, Successor,
         QuotesDraft;
    OpenExceptionHolds(c, e);
    var row := DecisionRow(d, e, user, request.action, request.reasonCode);
    CheckpointIgnoresDecision(ValuesOf(c), Some(HumanDecisionOf(row)));
  }

  lemma RecordedQuotes(c: Case, e: nat, request: DecisionRequest, user: string, resumed: bool, d: nat)
    requires ExceptionsQuoted(c) && e in c.exceptions
    ensures ExceptionsQuoted(Recorded(c, e, request, user, resumed, d))
  {
    hide DraftOf;
    var row := DecisionRow(d, e, user, request.action, request.reasonCode);
    DraftIgnoresDecision(ValuesOf(c), Some(HumanDecisionOf(row)));
  }

  lemma DecideKeeps(c: Case, e: nat, request: DecisionRequest, user: string, resumed: bool, d: nat)
    requires CaseInv(c)
    ensures CaseInv(DecidedAs(c, e, request, user, resumed, d))
  {
    hide Checkpointed, NodesOf, DecisionsIn, FailuresIn, ReplaysIn, HumanGated, LogShape, Successor, ThreadSound,
         OutcomeSound;
    if Underway(c) && e in c.exceptions && c.exceptions[e].status == Open {
      if FourEyesRefuses(c.exceptions[e], request.action, user) {
        ClaimKeeps(c, e, user);
      } else {
        var row := DecisionRow(d, e, user, request.action, request.reasonCode);
        RecordedOutcome(c, e, request, user, resumed, d);
        RecordedThread(c, e, request, user, resumed, d);
        DecisionEvent(c.events, DecisionRecorded(row, request.escalateTo));
        RecordedRest(c, e, request, user, resumed, d);
        RecordedQuotes(c, e, request, user, resumed, d);
      }
    }
  }

  lemma RecordedRest(c: Case, e: nat, request: DecisionRequest, user: string, resumed: bool, d: nat)
    requires Underway(c) && e in c.exceptions
    ensures ColumnsShown(Recorded(c, e, request, user, resumed, d))
    ensures var after := Recorded(c, e, request, user, resumed, d);
            && after.thread.Some? && ValuesOf(after).trace == ValuesOf(c).trace
            && ValuesOf(after).route == ValuesOf(c).route
  {
    hide Checkpointed, OutcomeSound, NodesOf, DecisionsIn, FailuresIn, ReplaysIn, HumanGated, DlqConserved;
  }

  lemma ClaimKeeps(c: Case, e: nat, user: string)
    requires Underway(c) && e in c.exceptions && c.exceptions[e].status == Open
    ensures Underway(c.(exceptions := c.exceptions[e := Claimed(c.exceptions[e], user)]))
  {
    hide Checkpointed, NodesOf, DecisionsIn, FailuresIn, ReplaysIn, HumanGated, LogShape, Successor, DraftOf;
    OpenExceptionHolds(c, e);
    assert c.exceptions[e := Claimed(c.exceptions[e], user)].Keys == c.exceptions.Keys;
  }

  /** The invariant is kept by every transition, in whatever order they come. */
  lemma CaseStepKeeps(c: Case, a: CaseAction)
    requires CaseInv(c) && Fresh(c, a)
    ensures CaseInv(CaseStep(c, a))
  {
    hide CaseInv, Started, Completion, Broken, FailedAs, Crashed, ReplayedAs, DecidedAs;
    match a
    case Start => StartKeeps(c);
    case Complete(input, hits, e) => CompletionKeeps(c, input, hits, e);
    case Break(input) => BreakKeeps(c, input);
    case Fail(d, kind, attempts) => FailKeeps(c, d, kind, attempts);
    case Crash => CrashKeeps(c);
    case Replay(d) => ReplayKeeps(c, d);
    case Decide(e, request, user, resumed, d) => DecideKeeps(c, e, request, user, resumed, d);
  }
}
