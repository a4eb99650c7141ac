/** The life of one invoice: its rows, the events of its run and its graph thread, and how each
    service call, completed node and fault changes them. */
module Cases {
  import opened Common
  import opened Graph
  import opened Records
  import opened Extraction
  import Matching
  import Retries
  import NearDup

  /** What the checkpointer holds for a thread. `executing` is the one executor a thread may have. */
  datatype Thread = Thread(values: GraphState, next: Option<Node>, paused: bool, executing: bool)

  datatype Case = Case(
    invoiceId: nat,
    status: InvoiceStatus,
    shown: ReadModel,
    runId: nat,
    run: RunRow,
    events: seq<Event>,
    thread: Option<Thread>,
    exceptions: map<nat, ExceptionRow>,
    decisions: seq<DecisionRow>,
    dlq: map<nat, DlqRow>)

  datatype DecisionRequest = DecisionRequest(action: Action, reasonCode: string, escalateTo: Option<string>)

  // ------------------------------------------------------------------ the runner

  /** `run_invoice`: a fresh thread starts, an unfinished one resumes, a paused or finished one is
      only read. */
  function Launched(invoiceId: nat, thread: Option<Thread>): Thread {
    if thread.None? then Thread(InitialState(invoiceId), Some(IngestNode), false, true)
    else if thread.value.next.Some? && !thread.value.paused then thread.value.(executing := true)
    else thread.value
  }

  /** The checkpoint left by node `n` with state `w`; the graph interrupts after triage. */
  function CheckpointAfter(n: Node, w: GraphState): Thread {
    var next := Successor(n, w);
    Thread(w, next, n == TriageNode, next.Some? && n != TriageNode)
  }

  function Halted(t: Thread): Thread {
    t.(executing := false)
  }

  /** `submit_decision`: the decision enters the paused thread, which then continues. */
  function ResumedWith(t: Thread, d: DecisionRow): Thread {
    t.(values := t.values.(humanDecision := Some(HumanDecision(d.decisionId, d.actor, d.action, d.reasonCode))),
       paused := false,
       executing := t.next.Some?)
  }

  // ------------------------------------------------------------------ what a node writes

  function RunAfter(n: Node, w: GraphState, run: RunRow): RunRow {
    match n
    case IngestNode => run.(status := Running)
    case AutoApproveNode => run.(route := Some(RouteAuto))
    case TriageNode => run.(route := Some(RouteException), status := AwaitingDecision)
    case ArchiveNode =>
      run.(status := Completed,
           route := if w.route.Some? then w.route else run.route,
           confidence := if w.confidence.Some? then w.confidence else run.confidence)
    case RejectNode => run.(status := Rejected, route := Some(RouteReject))
    case _ => run
  }

  function StatusAfter(n: Node, status: InvoiceStatus): InvoiceStatus {
    if n == AutoApproveNode then AutoApproved else if n == TriageNode then InException else status
  }

  /** What the match node backfills before it computes its verdict: the extracted columns always, the
      order only when one was found. */
  function Backfill(x: InvoiceExtraction, po: Option<Matching.PoForMatch>, shown: ReadModel): ReadModel {
    ReadModel(x.invoiceNumber, x.currency, x.totalAmount, x.issueDate,
              if po.Some? then Some(po.value.poNumber) else shown.poNumber)
  }

  function ShownAfter(n: Node, w: GraphState, input: NodeInput, shown: ReadModel): ReadModel {
    if n == MatchNode && w.extraction.Some?
    then Backfill(w.extraction.value, PoRead(w.extraction.value, input), shown) else shown
  }

  function EventsAfter(n: Node, exceptionId: nat, classified: bool): seq<Event> {
    [EventOf(n, exceptionId)] + if n == TriageNode && classified then [TriageCompleted(exceptionId)] else []
  }

  /** The row triage inserts; triage only runs where a draft exists. */
  function NewException(invoiceId: nat, runId: Option<nat>, v: GraphState): Option<ExceptionRow> {
    var draft := DraftOf(v);
    if draft.Err? then None
    else Some(ExceptionRow(invoiceId, runId, draft.value.code, draft.value.severity, draft.value.findings, None, Open))
  }

  // ------------------------------------------------------------------ the decision service

  function Claimed(row: ExceptionRow, user: string): ExceptionRow {
    if row.assignee.None? then row.(assignee := Some(user)) else row
  }

  predicate FourEyesRefuses(row: ExceptionRow, action: Action, user: string) {
    action == Approve && Claimed(row, user).assignee == Some(user)
  }

  function EscalationTarget(request: DecisionRequest): string {
    if request.escalateTo.None? || request.escalateTo.value == "" then "manager-queue"
    else request.escalateTo.value
  }

  function Decided(row: ExceptionRow, request: DecisionRequest, user: string): ExceptionRow {
    if request.action == EscalateUp then Claimed(row, user).(assignee := Some(EscalationTarget(request)))
    else Claimed(row, user).(status := Resolved)
  }

  function StatusDecided(action: Action, status: InvoiceStatus): InvoiceStatus {
    match action
    case Approve => DecisionApproved
    case ReturnToVendor => ReturnedToVendor
    case EscalateUp => status
  }

  // ------------------------------------------------------------------ the transitions

  datatype CaseAction =
    | Start
    | Complete(input: NodeInput, hits: seq<NearDup.NearDupHit>, newExceptionId: nat)
    | Break(input: NodeInput)
    | Fail(newDlqId: nat, kind: Retries.FailureKind, attempts: int)
    | Crash
    | Replay(dlqId: nat)
    | Decide(exceptionId: nat, request: DecisionRequest, user: string, resumed: bool, newDecisionId: nat)

  /** Keys handed out by the database are new. */
  predicate Fresh(c: Case, a: CaseAction) {
    match a
    case Complete(_, _, e) => e !in c.exceptions
    case Fail(d, _, _) => d !in c.dlq
    case _ => true
  }

  predicate Executing(c: Case) {
    c.thread.Some? && c.thread.value.executing && c.thread.value.next.Some?
  }

  /** The run the ingest node picks: the queued one, else the running one. */
  function PickedRun(c: Case): Option<nat> {
    if c.run.status == Queued || c.run.status == Running then Some(c.runId) else None
  }

  function StageOf(c: Case, input: NodeInput, hits: seq<NearDup.NearDupHit>, newExceptionId: nat)
    : Result<GraphState, NodeError>
    requires Executing(c)
  {
    Stage(c.thread.value.next.value, c.thread.value.values, input, PickedRun(c), hits, newExceptionId)
  }

  function Started(c: Case): Case {
    c.(thread := Some(Launched(c.invoiceId, c.thread)))
  }

  /** Node `n` of the thread completes with state `w`. */
  function Landed(c: Case, n: Node, w: GraphState, newExceptionId: nat, input: NodeInput): Case
    requires c.thread.Some?
  {
    var row := if n == TriageNode then NewException(c.invoiceId, Some(c.runId), c.thread.value.values) else None;
    c.(status := StatusAfter(n, c.status),
       shown := ShownAfter(n, w, input, c.shown),
       run := RunAfter(n, w, c.run),
       events := c.events + EventsAfter(n, newExceptionId, input.classified),
       thread := Some(CheckpointAfter(n, w)),
       exceptions := if row.Some? then c.exceptions[newExceptionId := row.value] else c.exceptions)
  }

  function Completion(c: Case, input: NodeInput, hits: seq<NearDup.NearDupHit>, newExceptionId: nat): Case {
    if !Executing(c) || StageOf(c, input, hits, newExceptionId).Err? then c
    else Landed(c, c.thread.value.next.value, StageOf(c, input, hits, newExceptionId).value, newExceptionId,
                input)
  }

  function Broken(c: Case, input: NodeInput): Case {
    if !Executing(c) || c.thread.value.next != Some(MatchNode) then c
    else c.(shown := ShownAfter(MatchNode, c.thread.value.values, input, c.shown))
  }

  /** An ultimate failure stops the thread; before the ingest checkpoint the dead-letter insert
      itself is refused by its foreign key and leaves nothing behind. */
  function FailedAs(c: Case, newDlqId: nat, kind: Retries.FailureKind, attempts: int): Case {
    if !Executing(c) then c
    else
      var t := c.thread.value;
      var halted := c.(thread := Some(Halted(t)));
      if t.values.runDbId.None? then halted
      else
        halted.(run := c.run.(status := Failed),
                events := c.events + [RunFailed(newDlqId)],
                dlq := c.dlq[newDlqId := DlqRow(c.runId, c.invoiceId, kind, attempts, Pending)])
  }

  function Crashed(c: Case): Case {
    if c.thread.None? then c else c.(thread := Some(Halted(c.thread.value)))
  }

  predicate Replayable(c: Case, d: nat) {
    d in c.dlq && c.dlq[d].status == Pending
  }

  function ReplayedAs(c: Case, d: nat): Case {
    if !Replayable(c, d) then c
    else
      Started(c.(run := c.run.(status := Running),
                 events := c.events + [DlqReplayed(d)],
                 dlq := c.dlq[d := c.dlq[d].(status := Replayed)]))
  }

  function Recorded(c: Case, e: nat, request: DecisionRequest, user: string, resumed: bool, newDecisionId: nat): Case
    requires e in c.exceptions
  {
    var d := DecisionRow(newDecisionId, e, user, request.action, request.reasonCode);
    c.(status := StatusDecided(request.action, c.status),
       events := c.events + [DecisionRecorded(d, request.escalateTo)],
       exceptions := c.exceptions[e := Decided(c.exceptions[e], request, user)],
       decisions := c.decisions + [d],
       thread := if request.action != EscalateUp && resumed && c.thread.Some?
                 then Some(ResumedWith(c.thread.value, d)) else c.thread)
  }

  function DecidedAs(c: Case, e: nat, request: DecisionRequest, user: string, resumed: bool, newDecisionId: nat): Case {
    if e !in c.exceptions || c.exceptions[e].status != Open then c
    else if FourEyesRefuses(c.exceptions[e], request.action, user) then
      c.(exceptions := c.exceptions[e := Claimed(c.exceptions[e], user)])
    else Recorded(c, e, request, user, resumed, newDecisionId)
  }

  function CaseStep(c: Case, a: CaseAction): Case {
    match a
    case Start => Started(c)
    case Complete(input, hits, e) => Completion(c, input, hits, e)
    case Break(input) => Broken(c, input)
    case Fail(d, kind, attempts) => FailedAs(c, d, kind, attempts)
    case Crash => Crashed(c)
    case Replay(d) => ReplayedAs(c, d)
    case Decide(e, request, user, resumed, d) => DecidedAs(c, e, request, user, resumed, d)
  }

  // ------------------------------------------------------------------ the invariant

  /** Nothing has run yet; at most the initial state is checkpointed. */
  predicate Untouched(c: Case) {
    && c.status == Received && c.shown == BLANK && c.run == RunRow(c.invoiceId, Queued, None, None)
    && c.events == [IngestAccepted]
    && c.exceptions == map[] && c.decisions == [] && c.dlq == map[]
    && (c.thread.Some? ==> c.thread.value.values == InitialState(c.invoiceId)
                           && c.thread.value.next == Some(IngestNode) && !c.thread.value.paused)
  }

  function ValuesOf(c: Case): GraphState
    requires c.thread.Some?
  {
    c.thread.value.values
  }

  predicate Reached(c: Case, n: Node) {
    c.thread.Some? && n in ValuesOf(c).trace
  }

  /** The checkpoint is sound and the thread stands where the routing put it. */
  predicate ThreadSound(c: Case) {
    && c.thread.Some? && Checkpointed(ValuesOf(c))
    && ValuesOf(c).invoiceId == c.invoiceId && ValuesOf(c).runDbId == Some(c.runId)
    && c.thread.value.next == Successor(LastNode(ValuesOf(c)), ValuesOf(c))
    && (c.thread.value.paused ==> LastNode(ValuesOf(c)) == TriageNode)
    && (c.thread.value.executing ==> c.thread.value.next.Some? && !c.thread.value.paused)
  }

  /** The run's node events are the image of the trace, and review waits for a decision. */
  predicate TraceWitnessed(c: Case) {
    c.thread.Some? && NodesOf(c.events) == ValuesOf(c).trace && HumanGated(c.events)
  }

  /** The queue's columns are the extraction's, and the order is the one matched against. */
  predicate ColumnsShown(c: Case) {
    Reached(c, MatchNode) && ValuesOf(c).extraction.Some? && ValuesOf(c).matched.Some? ==>
      c.shown == Backfill(ValuesOf(c).extraction.value, ValuesOf(c).matched.value.po, c.shown)
  }

  /** The run row carries the route of the branch taken and, once archived, the gate's confidence. */
  predicate RunRecorded(c: Case) {
    && c.thread.Some? && c.run.invoiceId == c.invoiceId
    && c.run.route == ValuesOf(c).route
    && c.run.confidence == if ArchiveNode in ValuesOf(c).trace then ValuesOf(c).confidence else None
  }

  /** Open until the first decision that is not an escalation, which is then the last. */
  predicate LogShape(status: ExceptionStatus, decisions: seq<DecisionRow>) {
    && (forall k :: 0 <= k < |decisions| - 1 ==> decisions[k].action == EscalateUp)
    && (status == Open ==> forall k :: 0 <= k < |decisions| ==> decisions[k].action == EscalateUp)
    && (status == Resolved ==> decisions != [] && decisions[|decisions| - 1].action != EscalateUp)
  }

  function LastDecision(c: Case): DecisionRow
    requires c.decisions != []
  {
    c.decisions[|c.decisions| - 1]
  }

  /** The exception row triage opened, and its decision log. */
  predicate ExceptionSound(c: Case, e: nat, row: ExceptionRow) {
    && row.invoiceId == c.invoiceId && row.runId == Some(c.runId)
    && (forall k :: 0 <= k < |c.decisions| ==> c.decisions[k].exceptionId == e)
    && LogShape(row.status, c.decisions)
    && (c.decisions != [] ==> row.assignee.Some?)
    && (row.status == Resolved && LastDecision(c).action == Approve ==> row.assignee != Some(LastDecision(c).actor))
  }

  function HumanDecisionOf(d: DecisionRow): HumanDecision {
    HumanDecision(d.decisionId, d.actor, d.action, d.reasonCode)
  }

  /** An open exception holds the thread; a released thread carries the resolving decision. */
  predicate GateHeld(c: Case, row: ExceptionRow) {
    && c.thread.Some?
    && (row.status == Open ==> c.thread.value.paused)
    && (!c.thread.value.paused ==> c.decisions != []
                                   && ValuesOf(c).humanDecision == Some(HumanDecisionOf(LastDecision(c))))
  }

  /** The invoice's status and its exception agree with the path taken. */
  predicate OutcomeSound(c: Case) {
    c.thread.Some? &&
    if TriageNode in ValuesOf(c).trace then
      && ValuesOf(c).exceptionId.Some?
      && var e := ValuesOf(c).exceptionId.value;
      && c.exceptions.Keys == {e}
      && ExceptionSound(c, e, c.exceptions[e])
      && GateHeld(c, c.exceptions[e])
      && c.status == if c.exceptions[e].status == Open then InException
                     else StatusDecided(LastDecision(c).action, c.status)
    else
      && c.exceptions == map[] && c.decisions == []
      && c.status == if AutoApproveNode in ValuesOf(c).trace then AutoApproved else Received
  }

  /** An exception row quotes the draft the run's findings determine. */
  predicate QuotesDraft(v: GraphState, row: ExceptionRow) {
    DraftOf(v).Ok? && row.code == DraftOf(v).value.code && row.severity == DraftOf(v).value.severity
    && row.findings == DraftOf(v).value.findings
  }

  predicate ExceptionsQuoted(c: Case) {
    c.thread.Some? && forall e :: e in c.exceptions ==> QuotesDraft(ValuesOf(c), c.exceptions[e])
  }

  function ReplayedKeys(dlq: map<nat, DlqRow>): set<nat> {
    set d | d in dlq && dlq[d].status == Replayed
  }

  /** Failures and replays are announced exactly once per dead-letter row. */
  predicate DlqConserved(c: Case) {
    && FailuresIn(c.events) == multiset(c.dlq.Keys)
    && ReplaysIn(c.events) == multiset(ReplayedKeys(c.dlq))
    && (forall d :: d in c.dlq ==> c.dlq[d].runId == c.runId && c.dlq[d].invoiceId == c.invoiceId)
  }

  predicate Underway(c: Case) {
    && ThreadSound(c) && TraceWitnessed(c) && ColumnsShown(c) && OutcomeSound(c) && DlqConserved(c)
    && ExceptionsQuoted(c) && DecisionsIn(c.events) == c.decisions
    && RunRecorded(c) && c.run.status != Queued && c.run.status != Rejected
  }

  predicate CaseInv(c: Case) {
    Untouched(c) || Underway(c)
  }
}
