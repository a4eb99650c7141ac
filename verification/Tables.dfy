/** The database: its tables, the checkpoint store, and what each service transaction writes. */
module Tables {
  import opened Common
  import opened Graph
  import opened Records
  import opened Cases
  import Ledger
  import NearDup
  import Retries

  datatype InvoiceRow = InvoiceRow(
    contentHash: string, status: InvoiceStatus, shown: ReadModel, embedding: Option<NearDup.Embedding>)

  /** Keys are row positions. */
  datatype Db = Db(
    invoices: seq<InvoiceRow>,
    runs: seq<RunRow>,
    exceptions: seq<ExceptionRow>,
    decisions: seq<DecisionRow>,
    dlq: seq<DlqRow>,
    ledger: seq<Ledger.Row<Event>>,
    threads: map<nat, Thread>)

  function EmptyDb(): Db {
    Db([], [], [], [], [], [], map[])
  }

  function ThreadOf(db: Db, i: nat): Option<Thread> {
    if i in db.threads then Some(db.threads[i]) else None
  }

  function Corpus(db: Db): seq<Option<NearDup.Embedding>> {
    seq(|db.invoices|, k requires 0 <= k < |db.invoices| => db.invoices[k].embedding)
  }

  // ------------------------------------------------------------------ queries

  function FindByHash(invoices: seq<InvoiceRow>, hash: string): Option<nat> {
    if invoices == [] then None
    else
      var n := |invoices| - 1;
      if invoices[n].contentHash == hash then Some(n) else FindByHash(invoices[..n], hash)
  }

  /** The newest run of an invoice in the given status. */
  function NewestRun(runs: seq<RunRow>, i: nat, status: RunStatus): Option<nat> {
    if runs == [] then None
    else
      var n := |runs| - 1;
      if runs[n].invoiceId == i && runs[n].status == status then Some(n) else NewestRun(runs[..n], i, status)
  }

  /** The ingest node's choice: the newest queued run, else the newest running one. */
  function PickRun(runs: seq<RunRow>, i: nat): Option<nat> {
    var queued := NewestRun(runs, i, Queued);
    if queued.Some? then queued else NewestRun(runs, i, Running)
  }

  // ------------------------------------------------------------------ single writes

  function Logged(db: Db, run: Option<nat>, e: Event): Db {
    db.(ledger := Ledger.Appended(db.ledger, run, e))
  }

  function AllLogged(db: Db, run: Option<nat>, events: seq<Event>): Db {
    if events == [] then db else Logged(AllLogged(db, run, events[..|events| - 1]), run, events[|events| - 1])
  }

  function WithInvoice(db: Db, i: nat, row: InvoiceRow): Db {
    if i < |db.invoices| then db.(invoices := db.invoices[i := row]) else db
  }

  function WithRun(db: Db, r: nat, row: RunRow): Db {
    if r < |db.runs| then db.(runs := db.runs[r := row]) else db
  }

  function WithThread(db: Db, i: nat, t: Thread): Db {
    db.(threads := db.threads[i := t])
  }

  function WithNewException(db: Db, row: Option<ExceptionRow>): Db {
    if row.Some? then db.(exceptions := db.exceptions + [row.value]) else db
  }

  function WithException(db: Db, e: nat, row: ExceptionRow): Db {
    if e < |db.exceptions| then db.(exceptions := db.exceptions[e := row]) else db
  }

  function WithNewDecision(db: Db, row: DecisionRow): Db {
    db.(decisions := db.decisions + [row])
  }

  function WithNewDlq(db: Db, row: DlqRow): Db {
    db.(dlq := db.dlq + [row])
  }

  function WithDlq(db: Db, d: nat, row: DlqRow): Db {
    if d < |db.dlq| then db.(dlq := db.dlq[d := row]) else db
  }

  // ------------------------------------------------------------------ the transactions

  /** `ingest`: a new hash gets an invoice and a queued run, a known one a rejected run on the original. */
  function Uploaded(db: Db, hash: string): Db {
    var r := |db.runs|;
    match FindByHash(db.invoices, hash)
    case None =>
      Logged(db.(invoices := db.invoices + [InvoiceRow(hash, Received, BLANK, None)],
                 runs := db.runs + [RunRow(|db.invoices|, Queued, None, None)]),
             Some(r), IngestAccepted)
    case Some(original) =>
      Logged(db.(runs := db.runs + [RunRow(original, Rejected, Some(RouteReject), None)]), Some(r), IngestDuplicate)
  }

  function RunInvoked(db: Db, i: nat): Db {
    WithThread(db, i, Launched(i, ThreadOf(db, i)))
  }

  predicate IsExecuting(db: Db, i: nat) {
    i in db.threads && db.threads[i].executing && db.threads[i].next.Some?
  }

  function HitsFor(db: Db, i: nat, n: Node, input: NodeInput): seq<NearDup.NearDupHit> {
    if n == PolicyNode && |input.vector| == NearDup.EMBEDDING_DIM
    then NearDup.FindSimilar(Corpus(db), i, input.vector) else []
  }

  /** What node `n` computes for invoice `i` from the state and the tables. */
  function Computed(db: Db, i: nat, n: Node, v: GraphState, input: NodeInput): Result<GraphState, NodeError> {
    if n == IngestNode && i >= |db.invoices| then Err(NotFound)
    else Stage(n, v, input, PickRun(db.runs, i), HitsFor(db, i, n, input), |db.exceptions|)
  }

  function Attempted(db: Db, i: nat, input: NodeInput): Result<GraphState, NodeError>
    requires IsExecuting(db, i)
  {
    Computed(db, i, db.threads[i].next.value, db.threads[i].values, input)
  }

  function EmbeddingAfter(n: Node, input: NodeInput, embedding: Option<NearDup.Embedding>): Option<NearDup.Embedding> {
    if n == PolicyNode && |input.vector| == NearDup.EMBEDDING_DIM then Some(input.vector) else embedding
  }

  function InvoiceAfter(n: Node, w: GraphState, input: NodeInput, row: InvoiceRow): InvoiceRow {
    row.(status := StatusAfter(n, row.status),
         shown := ShownAfter(n, w, input, row.shown),
         embedding := EmbeddingAfter(n, input, row.embedding))
  }

  /** A row that is not there is not updated. */
  function InvoiceMoved(db: Db, i: nat, n: Node, w: GraphState, input: NodeInput): Db {
    if i < |db.invoices| then WithInvoice(db, i, InvoiceAfter(n, w, input, db.invoices[i])) else db
  }

  function InvoiceStamped(db: Db, i: nat, action: Action): Db {
    if i < |db.invoices|
    then WithInvoice(db, i, db.invoices[i].(status := StatusDecided(action, db.invoices[i].status))) else db
  }

  function RunMoved(db: Db, r: Option<nat>, n: Node, w: GraphState): Db {
    if r.Some? && r.value < |db.runs| then WithRun(db, r.value, RunAfter(n, w, db.runs[r.value])) else db
  }

  function RunMarked(db: Db, r: nat, status: RunStatus): Db {
    if r < |db.runs| then WithRun(db, r, db.runs[r].(status := status)) else db
  }

  /** Rejecting without a run key writes nothing at all. */
  function EventsWritten(n: Node, run: Option<nat>, exceptionId: nat, classified: bool): seq<Event> {
    if n == RejectNode && run.None? then [] else EventsAfter(n, exceptionId, classified)
  }

  /** The rows and ledger entries node `n` writes in leaving state `v` for `w`. */
  function RowsWritten(db: Db, i: nat, n: Node, v: GraphState, w: GraphState, input: NodeInput): Db {
    var run := w.runDbId;
    var row := if n == TriageNode then NewException(i, run, v) else None;
    var a := InvoiceMoved(db, i, n, w, input);
    var b := RunMoved(a, run, n, w);
    var c := WithNewException(b, row);
    AllLogged(c, run, EventsWritten(n, run, |db.exceptions|, input.classified))
  }

  /** One node's transactions and the checkpoint that follows them. */
  function NodeWritten(db: Db, i: nat, n: Node, w: GraphState, input: NodeInput): Db
    requires i in db.threads
  {
    WithThread(RowsWritten(db, i, n, db.threads[i].values, w, input), i, CheckpointAfter(n, w))
  }

  function NodeCompleted(db: Db, i: nat, input: NodeInput): Db {
    if !IsExecuting(db, i) || Attempted(db, i, input).Err? then db
    else NodeWritten(db, i, db.threads[i].next.value, Attempted(db, i, input).value, input)
  }

  /** An attempt that committed its first transaction and then raised: the match node's read-model
      backfill, or the embedding the policy node stores. */
  function NodeBroken(db: Db, i: nat, input: NodeInput): Db {
    if !IsExecuting(db, i) || db.threads[i].values.extraction.None? then db
    else
      var n := db.threads[i].next.value;
      if n == MatchNode || n == PolicyNode then InvoiceMoved(db, i, n, db.threads[i].values, input) else db
  }

  /** `record_failure` after the retry budget is spent. */
  function NodeFailed(db: Db, i: nat, kind: Retries.FailureKind, attempts: int): Db {
    if !IsExecuting(db, i) then db
    else
      var t := db.threads[i];
      var halted := WithThread(db, i, Halted(t));
      if t.values.runDbId.None? then halted
      else
        var r := t.values.runDbId.value;
        var listed := WithNewDlq(halted, DlqRow(r, i, kind, attempts, Pending));
        var marked := RunMarked(listed, r, Failed);
        Logged(marked, Some(r), RunFailed(|db.dlq|))
  }

  function ProcessDied(db: Db, i: nat): Db {
    if i in db.threads then WithThread(db, i, Halted(db.threads[i])) else db
  }

  function DlqReplayedIn(db: Db, d: nat): Db {
    if d >= |db.dlq| || db.dlq[d].status != Pending then db
    else
      var entry := db.dlq[d];
      var claimed := WithDlq(db, d, entry.(status := Replayed));
      var marked := RunMarked(claimed, entry.runId, Running);
      RunInvoked(Logged(marked, Some(entry.runId), DlqReplayed(d)), entry.invoiceId)
  }

  function GraphResumed(db: Db, i: nat, d: DecisionRow): Db {
    if i in db.threads then WithThread(db, i, ResumedWith(db.threads[i], d)) else db
  }

  function NewDecision(db: Db, e: nat, request: DecisionRequest, user: string): DecisionRow {
    DecisionRow(|db.decisions|, e, user, request.action, request.reasonCode)
  }

  /** The rows and the ledger entry of an accepted decision. */
  function DecisionEntered(db: Db, e: nat, request: DecisionRequest, user: string): Db
    requires e < |db.exceptions|
  {
    var row := db.exceptions[e];
    var d := NewDecision(db, e, request, user);
    var recorded := WithNewDecision(WithException(db, e, Decided(row, request, user)), d);
    var stamped := InvoiceStamped(recorded, row.invoiceId, request.action);
    Logged(stamped, row.runId, DecisionRecorded(d, request.escalateTo))
  }

  function DecisionMade(db: Db, e: nat, request: DecisionRequest, user: string, resumed: bool): Db {
    if e >= |db.exceptions| || db.exceptions[e].status != Open then db
    else if FourEyesRefuses(db.exceptions[e], request.action, user)
    then WithException(db, e, Claimed(db.exceptions[e], user))
    else
      var entered := DecisionEntered(db, e, request, user);
      if request.action != EscalateUp && resumed
      then GraphResumed(entered, db.exceptions[e].invoiceId, NewDecision(db, e, request, user)) else entered
  }

  /** The decision service's answers. */
  datatype Answer =
    | UnknownException
    | Accepted(decisionId: nat, status: ExceptionStatus, resumed: bool)
    | SameAgain(decisionId: nat)
    | FourEyes
    | AlreadyDecided

  /** The newest decision row of an exception. */
  function LatestDecision(decisions: seq<DecisionRow>, e: nat): Option<DecisionRow> {
    if decisions == [] then None
    else
      var n := |decisions| - 1;
      if decisions[n].exceptionId == e then Some(decisions[n]) else LatestDecision(decisions[..n], e)
  }

  predicate SameDecision(d: DecisionRow, request: DecisionRequest, user: string) {
    d.actor == user && d.action == request.action && d.reasonCode == request.reasonCode
  }

  function ReplayOrConflict(latest: Option<DecisionRow>, request: DecisionRequest, user: string): Answer {
    if latest.Some? && SameDecision(latest.value, request, user) then SameAgain(latest.value.decisionId)
    else AlreadyDecided
  }

  function AnswerTo(db: Db, e: nat, request: DecisionRequest, user: string): Answer {
    if e >= |db.exceptions| then UnknownException
    else if db.exceptions[e].status != Open then ReplayOrConflict(LatestDecision(db.decisions, e), request, user)
    else if FourEyesRefuses(db.exceptions[e], request.action, user) then FourEyes
    else Accepted(|db.decisions|, Decided(db.exceptions[e], request, user).status, request.action != EscalateUp)
  }

  datatype Op =
    | Upload(hash: string)
    | RunInvoice(invoiceId: nat)
    | NodeCompletes(invoiceId: nat, input: NodeInput)
    | NodeBreaks(invoiceId: nat, input: NodeInput)
    | NodeFails(invoiceId: nat, kind: Retries.FailureKind, attempts: int)
    | ProcessDies(invoiceId: nat)
    | ReplayEntry(dlqId: nat)
    | SubmitDecision(exceptionId: nat, request: DecisionRequest, user: string, resumed: bool)

  function Apply(db: Db, op: Op): Db {
    match op
    case Upload(hash) => Uploaded(db, hash)
    case RunInvoice(i) => RunInvoked(db, i)
    case NodeCompletes(i, input) => NodeCompleted(db, i, input)
    case NodeBreaks(i, input) => NodeBroken(db, i, input)
    case NodeFails(i, kind, attempts) => NodeFailed(db, i, kind, attempts)
    case ProcessDies(i) => ProcessDied(db, i)
    case ReplayEntry(d) => DlqReplayedIn(db, d)
    case SubmitDecision(e, request, user, resumed) => DecisionMade(db, e, request, user, resumed)
  }

  /** The database after any interleaving of API calls, node attempts and faults. */
  function Run(ops: seq<Op>): Db {
    if ops == [] then EmptyDb() else Apply(Run(ops[..|ops| - 1]), ops[|ops| - 1])
  }
}
