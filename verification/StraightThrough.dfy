/** Clean data goes straight through: a generated order's own invoice, run without faults, ends
    auto-approved. */
module StraightThrough {
  import opened Common
  import opened Extraction
  import opened Graph
  import opened Records
  import opened Cases
  import opened Tables
  import opened Projection
  import opened TableLaws
  import opened Histories
  import opened Attempts
  import opened Store
  import opened Runner
  import GraphLaws
  import Progress
  import Erp
  import Gate
  import Iban
  import Matching
  import NearDup
  import Policy
  import Retries
  import Text
  import Validation

  const PATH: seq<Node> :=
    [IngestNode, ExtractNode, ValidateNode, MatchNode, PolicyNode, GateNode, AutoApproveNode, ArchiveNode]

  /** An order, its receipt, its vendor, and the invoice sent for it. */
  datatype Deal = Deal(
    po: Erp.ErpPurchaseOrder, gr: Erp.ErpGoodsReceipt, vendor: Erp.ErpVendor, bban: string,
    invoiceNumber: string, issueDate: int, confidences: seq<Confidence>)

  function InvoiceIn(d: Deal): InvoiceExtraction {
    Erp.CleanInvoiceFor(d.po, d.vendor, d.invoiceNumber, d.issueDate, d.confidences)
  }

  /** Ground truth, within the automatic limits, read with enough confidence. */
  predicate Eligible(d: Deal, referenceDate: int) {
    && Erp.GroundTruth(d.po, d.gr, d.vendor, referenceDate)
    && |d.bban| == 18 && Iban.AllDigits(d.bban) && d.vendor.iban == Iban.GermanIban(d.bban)
    && d.po.status == "OPEN" && d.issueDate - d.po.orderedAt <= 90
    && d.vendor.currency == "EUR" && Erp.NetTotal(d.po.lines) <= 2500.0
    && Gate.MinCriticalConfidence(d.confidences) >= 0.625
  }

  /** What the extractor and the ERP lookups supply for the deal. */
  predicate Supplies(input: NodeInput, d: Deal) {
    && input.extraction == InvoiceIn(d)
    && input.po == Some(Erp.ForMatch(d.po)) && input.gr == Some(Erp.ReceiptForMatch(d.gr))
    && input.poFacts == Some(Policy.PoFacts(d.po.poNumber, d.po.status, Some(d.po.orderedAt)))
    && input.vendor == Some(Policy.VendorFacts(d.vendor.name, Some(d.vendor.iban)))
    && |input.vector| == NearDup.EMBEDDING_DIM
  }

  function MatchOf(d: Deal): MatchRecord {
    MatchRecord(
      Some(Erp.ForMatch(d.po)), Some(Erp.ReceiptForMatch(d.gr)), Matching.MatchResult(Matching.Match, [], 0.0))
  }

  function PolicyOf(d: Deal): PolicyRecord {
    PolicyRecord(
      Policy.PolicyContext(
        FactsOf(InvoiceIn(d)),
        Some(Policy.PoFacts(d.po.poNumber, d.po.status, Some(d.po.orderedAt))),
        Some(Policy.VendorFacts(d.vendor.name, Some(d.vendor.iban))),
        []),
      [])
  }

  function GateOf(d: Deal): Gate.GateDecision {
    Gate.Decide(Gate.GateInputs(d.confidences, Some(0.0), []))
  }

  /** The state after the first `k` nodes of the path. */
  function CleanState(d: Deal, i: nat, run: nat, k: nat): GraphState
    requires k <= |PATH|
  {
    GraphState(
      i,
      if k >= 1 then Some(run) else None,
      false,
      if k >= 2 then Some(InvoiceIn(d)) else None,
      [],
      if k >= 4 then Some(MatchOf(d)) else None,
      if k >= 5 then Some(PolicyOf(d)) else None,
      if k >= 6 then Some(GateOf(d).confidence) else None,
      if k >= 6 then Some(GateOf(d)) else None,
      if k >= 7 then Some(RouteAuto) else None,
      None,
      None,
      PATH[..k])
  }

  // ------------------------------------------------------------------ each stage on clean data

  lemma CleanPolicy(d: Deal, referenceDate: int)
    requires Eligible(d, referenceDate)
    ensures Policy.Evaluate(PolicyOf(d).context) == []
  {
    hide Erp.GroundTruth, Erp.NetTotal, Erp.TaxTotal, Erp.CleanLines, Gate.MinCriticalConfidence, Iban.GermanIban,
         Policy.SameAccount, Policy.Evaluate;
    assert d.po.currency == "EUR" by { CurrencyOfOrder(d, referenceDate); }
    assert |PolicyOf(d).context.po.value.status| == 4;
    SameAccountAsItself(d.vendor.iban);
    Text.NameIsItself("EUR");
    Policy.CleanIffWithinPolicy(PolicyOf(d).context);
  }

  lemma SameAccountAsItself(iban: string)
    ensures Policy.SameAccount(iban, iban)
  {}

  lemma CurrencyOfOrder(d: Deal, referenceDate: int)
    requires Erp.GroundTruth(d.po, d.gr, d.vendor, referenceDate)
    ensures d.po.currency == d.vendor.currency && d.po.poNumber != ""
  {}

  lemma CleanGate(d: Deal, referenceDate: int)
    requires Eligible(d, referenceDate)
    ensures GateOf(d).confidence >= Gate.TAU
  {
    hide Erp.GroundTruth, Erp.NetTotal, Gate.MinCriticalConfidence, Iban.GermanIban;
    Gate.AutoIffLinear(Gate.GateInputs(d.confidences, Some(0.0), []));
  }

  /** Each node turns the clean state into the next one and leads on along the path. */
  lemma CleanStage(
    d: Deal, referenceDate: int, input: NodeInput, i: nat, run: nat, e: nat, k: nat)
    requires Eligible(d, referenceDate) && Supplies(input, d) && k < |PATH|
    ensures Stage(PATH[k], CleanState(d, i, run, k), input, Some(run), [], e) == Ok(CleanState(d, i, run, k + 1))
    ensures Successor(PATH[k], CleanState(d, i, run, k + 1)) == if k + 1 < |PATH| then Some(PATH[k + 1]) else None
  {
    hide Erp.GroundTruth, Erp.NetTotal, Erp.TaxTotal, Erp.CleanLines, Gate.MinCriticalConfidence, Iban.GermanIban,
         Validation.Report, Matching.Matched, Policy.Evaluate, Gate.Decide, Matching.InvoiceOf, Erp.ForMatch,
         Erp.ReceiptForMatch;
    assert PATH[..k] + [PATH[k]] == PATH[..k + 1];
    CurrencyOfOrder(d, referenceDate);
    if k == 2 {
      Erp.CleanInvoiceValidates(
        d.po, d.gr, d.vendor, referenceDate, d.bban, d.invoiceNumber, d.issueDate, d.confidences);
    } else if k == 3 {
      Erp.CleanInvoiceMatches(d.po, d.gr, d.vendor, referenceDate, d.invoiceNumber, d.issueDate, d.confidences);
    } else if k == 4 {
      CleanPolicy(d, referenceDate);
    } else if k == 5 {
      CleanGate(d, referenceDate);
      assert GateInputsOf(InvoiceIn(d), CleanState(d, i, run, 5)) == Gate.GateInputs(d.confidences, Some(0.0), []);
    }
  }

  // ------------------------------------------------------------------ the whole run

  /** The database after `k` fault-free completions of the invoice's scheduled nodes. */
  function Completions(db: Db, i: nat, input: NodeInput, k: nat): Db {
    if k == 0 then db else Apply(Completions(db, i, input, k - 1), NodeCompletes(i, input))
  }

  /** One completion moves the checkpoint on and, before the policy check, leaves the corpus alone. */
  lemma Advance(db: Db, i: nat, input: NodeInput, n: Node, w: GraphState)
    requires Invariant(db) && Exists(db, i) && IsExecuting(db, i) && db.threads[i].next == Some(n)
    requires Attempted(db, i, input) == Ok(w)
    ensures var after := Apply(db, NodeCompletes(i, input));
            && Invariant(after) && Exists(after, i)
            && i in after.threads && after.threads[i] == CheckpointAfter(n, w)
            && (n != PolicyNode ==> Corpus(after) == Corpus(db))
  {
    hide Invariant, Attempted, CheckpointAfter;
    OpKeeps(db, NodeCompletes(i, input));
    OpKeepsInvoiceCount(db, NodeCompletes(i, input));
    CorpusAfter(db, i, n, w, input);
  }

  lemma CorpusAfter(db: Db, i: nat, n: Node, w: GraphState, input: NodeInput)
    requires i in db.threads
    ensures NodeWritten(db, i, n, w, input).threads == db.threads[i := CheckpointAfter(n, w)]
    ensures n != PolicyNode ==> Corpus(NodeWritten(db, i, n, w, input)) == Corpus(db)
  {
    hide StatusAfter, ShownAfter, EventsWritten, RunAfter, CheckpointAfter, NewException, AllLogged;
    var run := w.runDbId;
    var row := if n == TriageNode then NewException(i, run, db.threads[i].values) else None;
    var c := WithNewException(RunMoved(InvoiceMoved(db, i, n, w, input), run, n, w), row);
    LoggingTouchesLedgerOnly(c, run, EventsWritten(n, run, |db.exceptions|, input.classified));
  }

  /** A thread just started, before its first node. */
  predicate JustStarted(db: Db, i: nat) {
    i in db.threads && db.threads[i] == Thread(InitialState(i), Some(IngestNode), false, true)
  }

  lemma StartedIsQueued(db: Db, i: nat)
    requires Invariant(db) && Exists(db, i) && JustStarted(db, i)
    ensures LiveRun(db.runs, i).Some? && PickRun(db.runs, i) == LiveRun(db.runs, i)
  {
    hide LiveRun, PickRun, EventsOf, ExceptionsOf, DlqOf, DecisionsOn, Sound, ThreadSound, OutcomeSound;
    assert CaseHolds(db, i);
    if Underway(CaseOf(db, i)) { Progress.UnderwayEntered(CaseOf(db, i)); }
    IngestPicksTheLiveRun(db, i);
    hide CaseInv, CaseHolds;
  }

  function StandsAt(d: Deal, i: nat, run: nat, k: nat): Thread
    requires k <= |PATH|
  {
    Thread(CleanState(d, i, run, k), if k < |PATH| then Some(PATH[k]) else None, false, k < |PATH|)
  }

  lemma {:induction false} CleanRunReaches(d: Deal, referenceDate: int, db: Db, i: nat, input: NodeInput, k: nat)
    requires Eligible(d, referenceDate) && Supplies(input, d) && k <= |PATH|
    requires Invariant(db) && Exists(db, i) && JustStarted(db, i)
    requires NearDup.FindSimilar(Corpus(db), i, input.vector) == []
    ensures LiveRun(db.runs, i).Some?
    ensures var now := Completions(db, i, input, k);
            && Invariant(now) && Exists(now, i)
            && i in now.threads && now.threads[i] == StandsAt(d, i, LiveRun(db.runs, i).value, k)
            && (k <= 4 ==> Corpus(now) == Corpus(db))
  {
    hide Invariant, Eligible, Supplies, Apply, CleanState, Stage, NearDup.FindSimilar, Corpus, PickRun, LiveRun;
    StartedIsQueued(db, i);
    var run := LiveRun(db.runs, i).value;
    if k == 0 {
      CleanStart(d, i, run);
    } else {
      CleanRunReaches(d, referenceDate, db, i, input, k - 1);
      var before := Completions(db, i, input, k - 1);
      var n, w := PATH[k - 1], CleanState(d, i, run, k);
      CleanStage(d, referenceDate, input, i, run, |before.exceptions|, k - 1);
      VectorFits(input, d);
      assert HitsFor(before, i, n, input) == [];
      if k > 1 {
        GraphLaws.StageIgnoresRun(
          n, CleanState(d, i, run, k - 1), input, PickRun(before.runs, i), Some(run), [], |before.exceptions|);
      }
      Advance(before, i, input, n, w);
    }
  }

  lemma VectorFits(input: NodeInput, d: Deal)
    requires Supplies(input, d)
    ensures |input.vector| == NearDup.EMBEDDING_DIM
  {}

  lemma CleanStart(d: Deal, i: nat, run: nat)
    ensures CleanState(d, i, run, 0) == InitialState(i)
  {}

  /** The fault-free run of a clean, eligible invoice ends auto-approved and archived, having opened no
      exception. */
  lemma CleanInvoiceEndsAuto(d: Deal, referenceDate: int, db: Db, i: nat, input: NodeInput)
    requires Eligible(d, referenceDate) && Supplies(input, d)
    requires Invariant(db) && Exists(db, i) && JustStarted(db, i)
    requires NearDup.FindSimilar(Corpus(db), i, input.vector) == []
    ensures var done := Completions(db, i, input, |PATH|);
            && Exists(done, i) && done.invoices[i].status == AutoApproved
            && done.invoices[i].shown.amount == Some(Erp.NetTotal(d.po.lines))
            && i in done.threads && done.threads[i].next.None?
            && done.threads[i].values.route == Some(RouteAuto) && done.threads[i].values.trace == PATH
            && forall e :: 0 <= e < |done.exceptions| ==> done.exceptions[e].invoiceId != i
  {
    hide Invariant, Eligible, Supplies, Apply, NearDup.FindSimilar, Corpus, LiveRun, Completions, Erp.NetTotal;
    CleanRunReaches(d, referenceDate, db, i, input, |PATH|);
    var done := Completions(db, i, input, |PATH|);
    assert PATH[..|PATH|] == PATH;
    assert PATH[6] == AutoApproveNode && PATH[3] == MatchNode;
    Progress.EnteredIsUnderway(done, i);
    EndedAuto(CaseOf(done, i));
    forall e | 0 <= e < |done.exceptions| ensures done.exceptions[e].invoiceId != i { ExceptionShown(done, e, i); }
  }

  lemma EndedAuto(c: Case)
    requires Underway(c) && ValuesOf(c).trace == PATH
    ensures c.status == AutoApproved && c.exceptions == map[] && ValuesOf(c).extraction.Some?
    ensures c.shown.amount == ValuesOf(c).extraction.value.totalAmount
  {
    hide TraceWitnessed, DlqConserved, Routed, RouteRecorded, MatchRight, PolicyRight, ExceptionsQuoted, Successor,
         ExceptionSound, GateHeld;
    assert TriageNode !in PATH && PATH[1] == ExtractNode && PATH[3] == MatchNode && PATH[6] == AutoApproveNode;
  }

  // ------------------------------------------------------------------ the service call

  /** Each node is supplied with the deal and left alone within its attempts; before that it may be
      struck by infrastructure faults that precede its first commit. */
  predicate Weathered(world: World, n: Node, input: NodeInput, attempts: int) {
    exists calls: nat :: calls <= attempts && SettlesAt(world, n, input, calls)
  }

  predicate SettlesAt(world: World, n: Node, input: NodeInput, calls: nat) {
    && calls >= 1 && world(n, calls) == NodeTry(input, Healthy)
    && forall k :: 1 <= k < calls ==> world(n, k).fault == Early(Retries.Infra)
  }

  lemma WeatheredGetsThrough(world: World, invoices: nat, i: nat, n: Node, input: NodeInput, attempts: int)
    requires i < invoices && |input.vector| == 768 && Weathered(world, n, input, attempts)
    ensures GetsThrough(world, invoices, i, n, attempts)
  {
    var calls: nat :| calls <= attempts && SettlesAt(world, n, input, calls);
    assert Comes(world, invoices, i, n, calls, Retries.Success);
  }

  lemma {:induction false} EarlyFaultsLeaveNothing(i: nat, world: World, n: Node, calls: nat)
    requires forall k :: 1 <= k <= calls ==> !world(n, k).fault.Late?
    ensures FailedTries(i, n, world, calls) == []
  {
    if calls > 0 { EarlyFaultsLeaveNothing(i, world, n, calls - 1); }
  }

  /** The attempt that succeeds is the one the node was left alone in. */
  lemma SuccessIsWhereItSettles(
    world: World, invoices: nat, i: nat, n: Node, input: NodeInput, attempts: int, calls: nat)
    requires i < invoices && |input.vector| == 768 && Weathered(world, n, input, attempts)
    requires Comes(world, invoices, i, n, calls, Retries.Success)
    ensures world(n, calls).input == input && FailedTries(i, n, world, calls) == []
  {
    var c: nat :| c <= attempts && SettlesAt(world, n, input, c);
    assert Dictated(invoices, i, n, world(n, c)) == Retries.Success;
    assert forall k :: 1 <= k < c ==> Dictated(invoices, i, n, world(n, k)) == Retries.Failure(Retries.Infra);
    assert calls == c;
    EarlyFaultsLeaveNothing(i, world, n, calls);
  }

  /** The input of each step is the deal's, and its failed attempts left nothing. */
  predicate Undisturbed(i: nat, world: World, steps: seq<Step>, input: NodeInput) {
    forall k :: 0 <= k < |steps| ==>
      world(steps[k].node, steps[k].calls).input == input
      && FailedTries(i, steps[k].node, world, steps[k].calls) == []
  }

  lemma {:induction false} UndisturbedCourse(ops: seq<Op>, i: nat, world: World, steps: seq<Step>, input: NodeInput)
    requires Undisturbed(i, world, steps, input)
    ensures Run(ops + Course(i, world, steps)) == Completions(Run(ops), i, input, |steps|)
  {
    hide Apply;
    if steps == [] {
      assert ops + Course(i, world, steps) == ops;
    } else {
      var n := |steps| - 1;
      UndisturbedCourse(ops, i, world, steps[..n], input);
      assert ops + Course(i, world, steps) == ops + Course(i, world, steps[..n]) + [NodeCompletes(i, input)];
      RunOfAppended(ops + Course(i, world, steps[..n]), NodeCompletes(i, input));
    }
  }

  /** Where nothing is scheduled, completions change nothing. */
  lemma {:induction false} CompletionsStop(db: Db, i: nat, input: NodeInput, k: nat, more: nat)
    requires !IsExecuting(Completions(db, i, input, k), i)
    ensures Completions(db, i, input, k + more) == Completions(db, i, input, k)
  {
    if more > 0 { CompletionsStop(db, i, input, k, more - 1); }
  }

  /** A clean run that has stopped has walked the whole path. */
  lemma StoppedAtTheEnd(d: Deal, referenceDate: int, db: Db, i: nat, input: NodeInput, k: nat)
    requires Eligible(d, referenceDate) && Supplies(input, d)
    requires Invariant(db) && Exists(db, i) && JustStarted(db, i)
    requires NearDup.FindSimilar(Corpus(db), i, input.vector) == []
    requires !IsExecuting(Completions(db, i, input, k), i)
    ensures Completions(db, i, input, k) == Completions(db, i, input, |PATH|)
  {
    hide Invariant, Eligible, Supplies, Completions, CleanState, NearDup.FindSimilar, Corpus, LiveRun;
    if k < |PATH| {
      CleanRunReaches(d, referenceDate, db, i, input, k);
      assert false;
    } else {
      CleanRunReaches(d, referenceDate, db, i, input, |PATH|);
      CompletionsStop(db, i, input, |PATH|, k - |PATH|);
    }
  }

  lemma LaunchStartsFresh(db: Db, i: nat)
    requires i !in db.threads
    ensures JustStarted(RunInvoked(db, i), i) && Corpus(RunInvoked(db, i)) == Corpus(db)
    ensures RunInvoked(db, i).invoices == db.invoices
  {}

  /** One call runs a fresh, clean and eligible upload straight through to its auto-approval. */
  method RunCleanInvoice(
    db: Database, runner: GraphRunner, i: nat, policy: Retries.RetryPolicy, world: World,
    ghost d: Deal, ghost referenceDate: int, ghost input: NodeInput)
    returns (outcome: Outcome)
    requires db.Valid() && i < |db.invoices| && i !in db.threads
    requires Eligible(d, referenceDate) && Supplies(input, d)
    requires NearDup.FindSimilar(Corpus(db.View()), i, input.vector) == []
    requires forall n :: Weathered(world, n, input, policy.attempts)
    modifies db
    ensures db.Valid() && outcome == Returned
    ensures i < |db.invoices| && db.invoices[i].status == AutoApproved
    ensures db.invoices[i].shown.amount == Some(Erp.NetTotal(d.po.lines))
    ensures i in db.threads && db.threads[i].next.None? && db.threads[i].values.trace == PATH
    ensures forall e :: 0 <= e < |db.exceptions| ==> db.exceptions[e].invoiceId != i
  {
    hide Invariant, Eligible, Supplies, NearDup.FindSimilar, Corpus, Weathered, GetsThrough, Comes, Completions, Course,
         Run, JustStarted, Erp.NetTotal;
    ghost var ops, before := db.history, db.View();
    VectorFits(input, d);
    LaunchStartsFresh(before, i);
    InvariantAlways(ops + [Tables.RunInvoice(i)]);
    RunOfAppended(ops, Tables.RunInvoice(i));
    ghost var steps;
    outcome, steps := runner.RunInvoice(db, i, policy, world);
    forall n ensures GetsThrough(world, |db.invoices|, i, n, policy.attempts) {
      WeatheredGetsThrough(world, |db.invoices|, i, n, input, policy.attempts);
    }
    forall k | 0 <= k < |steps|
      ensures world(steps[k].node, steps[k].calls).input == input
              && FailedTries(i, steps[k].node, world, steps[k].calls) == []
    {
      SuccessIsWhereItSettles(
        world, |db.invoices|, i, steps[k].node, input, policy.attempts, steps[k].calls);
    }
    UndisturbedCourse(ops + [Tables.RunInvoice(i)], i, world, steps, input);
    StoppedAtTheEnd(d, referenceDate, RunInvoked(before, i), i, input, |steps|);
    CleanInvoiceEndsAuto(d, referenceDate, RunInvoked(before, i), i, input);
  }
}
