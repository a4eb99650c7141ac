/** What holds of every history: any interleaving of uploads, runs, node attempts, retries, faults,
    dead-letter replays and human decisions, on any number of invoices. */
module Histories {
  import opened Common
  import opened Graph
  import opened Records
  import opened Cases
  import opened Tables
  import opened Projection
  import opened TableLaws
  import AutoApproval
  import Matching
  import MatchingLaws
  import Policy
  import Gate
  import Ledger
  import Taxonomy
  import Triage

  predicate Exists(db: Db, i: nat) {
    i < |db.invoices|
  }

  /** The invoice's thread has got past its first node. */
  predicate Entered(db: Db, i: nat) {
    i in db.threads && db.threads[i].values.trace != []
  }

  function TraceOf(db: Db, i: nat): seq<Node> {
    if i in db.threads then db.threads[i].values.trace else []
  }

  /** The events of an invoice's live run. */
  function EventsFor(db: Db, i: nat): seq<Event> {
    var run := LiveRun(db.runs, i);
    if run.Some? then EventsOf(db.ledger, run.value) else []
  }

  /** Every invoice of every history is lawful. */
  lemma Lawful(ops: seq<Op>, i: nat)
    requires Exists(Run(ops), i)
    ensures Sound(Run(ops)) && Visible(Run(ops), i) && CaseInv(CaseOf(Run(ops), i))
    ensures CaseOf(Run(ops), i).events == EventsFor(Run(ops), i)
    ensures Entered(Run(ops), i) ==> Underway(CaseOf(Run(ops), i))
    ensures !Entered(Run(ops), i) ==> Untouched(CaseOf(Run(ops), i))
  {
    hide Run, Sound, LiveRun, EventsOf, ExceptionsOf, DlqOf, DecisionsOn, OutcomeSound, DlqConserved, ColumnsShown;
    InvariantAlways(ops);
    assert CaseHolds(Run(ops), i);
    var c := CaseOf(Run(ops), i);
    if Underway(c) { TraceStarts(ValuesOf(c)); }
  }

  // ------------------------------------------------------------------ exactly once

  /** However often nodes fail, are retried, resumed or replayed, the run's node events are exactly the
      image of the trace, and the trace is a path of the graph on which no node occurs twice. */
  lemma ExactlyOnce(ops: seq<Op>, i: nat)
    requires Exists(Run(ops), i)
    ensures NodesOf(EventsFor(Run(ops), i)) == TraceOf(Run(ops), i)
    ensures TraceOf(Run(ops), i) == [] || IsPath(TraceOf(Run(ops), i))
    ensures NoRepeats(TraceOf(Run(ops), i))
  {
    hide Run, LiveRun, EventsFor, ExceptionsOf, DlqOf, DecisionsOn, OutcomeSound, DlqConserved, ColumnsShown, Sound,
         StagesDone, Routed, RouteRecorded;
    Lawful(ops, i);
    if Entered(Run(ops), i) { PathHasNoRepeats(TraceOf(Run(ops), i)); }
    if !Entered(Run(ops), i) { ViewsOfAppended([], IngestAccepted); assert [] + [IngestAccepted] == [IngestAccepted]; }
  }

  // ------------------------------------------------------------------ the human gate

  /** Review, and archiving after an exception was opened, only happen behind a decision that was
      not an escalation. */
  lemma HumanGateHolds(ops: seq<Op>, i: nat)
    requires Exists(Run(ops), i)
    ensures HumanGated(EventsFor(Run(ops), i))
  {
    hide Run, LiveRun, EventsFor, ExceptionsOf, DlqOf, DecisionsOn, OutcomeSound, DlqConserved, ColumnsShown, Sound,
         ThreadSound;
    Lawful(ops, i);
  }

  lemma CaseWithExceptionNotApproved(c: Case)
    requires CaseInv(c) && c.exceptions != map[]
    ensures Underway(c) && c.status != AutoApproved
  {
    hide DlqConserved, ColumnsShown, ThreadSound, TraceWitnessed, ExceptionsQuoted, GateHeld;
  }

  /** An invoice with an exception record is never auto-approved. */
  lemma ExceptionNeverAutoApproved(ops: seq<Op>, e: nat)
    requires e < |Run(ops).exceptions|
    ensures Exists(Run(ops), Run(ops).exceptions[e].invoiceId)
    ensures Run(ops).invoices[Run(ops).exceptions[e].invoiceId].status != AutoApproved
  {
    hide Run, LiveRun, EventsFor, EventsOf, DlqOf, DecisionsOn, ExceptionsOf, CaseInv, Untouched, Underway;
    InvariantAlways(ops);
    var i := Run(ops).exceptions[e].invoiceId;
    Lawful(ops, i);
    ExceptionShown(Run(ops), e, i);
    assert e in CaseOf(Run(ops), i).exceptions;
    CaseWithExceptionNotApproved(CaseOf(Run(ops), i));
  }

  /** Every exception row carries exactly the hard findings of its run, or the gate's abstention where there
      is none; its code is the queue of the most urgent of them, and its severity goes with the code. */
  lemma ExceptionsQuoteTheirFindings(ops: seq<Op>, e: nat, p: Triage.TriageFinding)
    requires e < |Run(ops).exceptions|
    ensures var row := Run(ops).exceptions[e];
            && row.invoiceId in Run(ops).threads
            && var v := Run(ops).threads[row.invoiceId].values;
            && (p in row.findings
                <==> Triage.IsHard(
                       v.validation, if v.matched.Some? then v.matched.value.result.findings else [],
                       if v.policy.Some? then v.policy.value.findings else [], p)
                     || (p.FromGate? && v.gate == Some(p.decision) && p.decision.route == Gate.Escalate
                         && row.findings == [p]))
            && (exists q :: q in row.findings && Triage.QueueOf(q) == row.code)
            && (p in row.findings ==> Triage.Urgency(row.code) <= Triage.Urgency(Triage.QueueOf(p)))
            && row.severity == Triage.Gravity(row.code)
  {
    hide Run, LiveRun, EventsFor, EventsOf, DlqOf, DecisionsOn, ExceptionsOf, Untouched, ThreadSound, TraceWitnessed,
         OutcomeSound, DlqConserved, ColumnsShown, Triage.IsHard, Triage.Draft, Triage.QueueOf, Triage.Urgency,
         Triage.Gravity;
    InvariantAlways(ops);
    var i := Run(ops).exceptions[e].invoiceId;
    Lawful(ops, i);
    ExceptionShown(Run(ops), e, i);
    var c := CaseOf(Run(ops), i);
    if Entered(Run(ops), i) {
      var v := ValuesOf(c);
      assert QuotesDraft(v, c.exceptions[e]);
      Triage.DraftMeans(v.validation, MatchFindings(v), PolicyFindings(v), v.gate, p);
    } else {
      UntouchedHasNoException(c, e);
    }
  }

  lemma UntouchedHasNoException(c: Case, e: nat)
    requires Untouched(c)
    ensures e !in c.exceptions
  {}

  /** The run row reports the branch taken and, once archived, the gate's confidence; after the match
      the invoice row shows the extracted columns and the order matched against. */
  lemma RowsReportTheRun(ops: seq<Op>, i: nat)
    requires Exists(Run(ops), i) && Entered(Run(ops), i)
    ensures var db := Run(ops);
            && LiveRun(db.runs, i).Some?
            && var v, run := db.threads[i].values, db.runs[LiveRun(db.runs, i).value];
            && run.route == (if TriageNode in v.trace then Some(RouteException)
                             else if AutoApproveNode in v.trace then Some(RouteAuto) else None)
            && run.confidence == (if ArchiveNode in v.trace then v.confidence else None)
            && (MatchNode in v.trace ==>
                  && v.extraction.Some? && v.matched.Some?
                  && var x, shown := v.extraction.value, db.invoices[i].shown;
                  && shown.invoiceNumber == x.invoiceNumber && shown.currency == x.currency
                  && shown.amount == x.totalAmount && shown.issueDate == x.issueDate
                  && (v.matched.value.po.Some? ==> shown.poNumber == Some(v.matched.value.po.value.poNumber)))
  {
    hide Run, LiveRun, EventsFor, EventsOf, ExceptionsOf, DlqOf, DecisionsOn, TraceWitnessed, OutcomeSound,
         DlqConserved, ExceptionsQuoted, Sound, Routed, MatchRight, PolicyRight, Successor;
    Lawful(ops, i);
  }

  // ------------------------------------------------------------------ what auto-approval means

  lemma AutoApprovedPath(ops: seq<Op>, i: nat)
    requires Exists(Run(ops), i) && Run(ops).invoices[i].status == AutoApproved
    ensures i in Run(ops).threads && Checkpointed(Run(ops).threads[i].values)
    ensures AutoApproveNode in TraceOf(Run(ops), i)
    ensures var x := Run(ops).threads[i].values.extraction;
            x.Some? && Run(ops).invoices[i].shown.amount == x.value.totalAmount
  {
    hide Run, LiveRun, EventsFor, ExceptionsOf, DlqOf, DecisionsOn, DlqConserved, TraceWitnessed, Sound, Checkpointed;
    Lawful(ops, i);
    ApprovedWasMatched(CaseOf(Run(ops), i));
  }

  lemma ApprovedWasMatched(c: Case)
    requires Underway(c) && c.status == AutoApproved
    ensures Reached(c, AutoApproveNode) && Reached(c, MatchNode)
    ensures ValuesOf(c).extraction.Some? && ValuesOf(c).matched.Some?
  {
    hide DlqConserved, TraceWitnessed, ColumnsShown, RouteRecorded, MatchRight, PolicyRight, IsPath;
  }

  /** The amount an auto-approved invoice shows is within what was received, at the order's prices
      plus the share of the tolerance bands the gate's arithmetic leaves. */
  lemma AutoApprovedMoneyIsBounded(ops: seq<Op>, i: nat)
    requires Exists(Run(ops), i) && Run(ops).invoices[i].status == AutoApproved
    requires i in Run(ops).threads && Run(ops).threads[i].values.extraction.Some?
    requires var x := Run(ops).threads[i].values.extraction.value;
             x.lines != [] && AutoApproval.AllCharged(x.lines)
    ensures var v := Run(ops).threads[i].values;
            && v.matched.Some? && v.matched.value.po.Some? && Run(ops).invoices[i].shown.amount.Some?
            && var x, m := v.extraction.value, v.matched.value;
            && var lines, b := Matching.InvoiceLinesOf(x.lines), MatchingLaws.BasisOf(m.po.value, m.gr);
            && AutoApproval.OnDocuments(lines, b)
            && Run(ops).invoices[i].shown.amount.value
               <= AutoApproval.Ceiling(lines, b, AutoApproval.DriftAllowance(x.confidences))
            && (Gate.UnitConfidences(x.confidences) ==>
                  Run(ops).invoices[i].shown.amount.value <= AutoApproval.Ceiling(lines, b, 0.375))
  {
    hide Run, Checkpointed, AutoApproval.Ceiling, AutoApproval.DriftAllowance, AutoApproval.AllCharged,
         AutoApproval.OnDocuments, MatchingLaws.BasisOf;
    AutoApprovedPath(ops, i);
    var v := Run(ops).threads[i].values;
    AutoApproval.MoneyBound(v);
    if Gate.UnitConfidences(v.extraction.value.confidences) { AutoApproval.MoneyBoundThreeEighths(v); }
  }

  /** No auto-approved invoice states more than the limit, in another currency, or outside policy. */
  lemma AutoApprovedIsWithinPolicy(ops: seq<Op>, i: nat)
    requires Exists(Run(ops), i) && Run(ops).invoices[i].status == AutoApproved
    ensures Run(ops).invoices[i].shown.amount.Some? && Run(ops).invoices[i].shown.amount.value <= 2500.0
    ensures i in Run(ops).threads && Run(ops).threads[i].values.policy.Some?
    ensures Policy.WithinPolicy(Run(ops).threads[i].values.policy.value.context)
    ensures Run(ops).threads[i].values.policy.value.context.nearDupHits == []
  {
    hide Run, Checkpointed, AutoApproval.DriftAllowance;
    AutoApprovedPath(ops, i);
    AutoApproval.AutoApprovedMeans(Run(ops).threads[i].values);
    hide MatchingLaws.LinesAgree, MatchingLaws.HeaderAgrees;
  }

  // ------------------------------------------------------------------ the ledger

  /** The numbers of every run are 1, 2, ..., n without gaps. */
  lemma LedgerIsGapFree(ops: seq<Op>, r: nat)
    ensures Ledger.GapFree(Run(ops).ledger, r)
  {
    hide Run, Ledger.Dense;
    InvariantAlways(ops);
    Ledger.DenseNumbers(Run(ops).ledger, r);
  }

  // ------------------------------------------------------------------ deduplication

  function Uploads(ops: seq<Op>): nat {
    if ops == [] then 0 else Uploads(ops[..|ops| - 1]) + if ops[|ops| - 1].Upload? then 1 else 0
  }

  predicate WasUploaded(ops: seq<Op>, hash: string) {
    exists k :: 0 <= k < |ops| && ops[k] == Upload(hash)
  }

  lemma OpAddsUploadedHash(db: Db, op: Op, hash: string)
    ensures hash in Hashes(Apply(db, op).invoices) <==> hash in Hashes(db.invoices) || op == Upload(hash)
  {
    hide Apply, Hashes, Uploaded;
    if op.Upload? {
      UploadIsApplied(db, op.hash);
      UploadAddsHash(db, op.hash);
      KnownHashIsListed(db, op.hash);
    } else {
      OpKeepsKeys(db, op);
    }
  }

  lemma KnownHashIsListed(db: Db, hash: string)
    ensures FindByHash(db.invoices, hash).Some? ==> hash in Hashes(db.invoices)
  {
    HashIsFound(db.invoices, hash);
    if i :| FindByHash(db.invoices, hash) == Some(i) { assert Hashes(db.invoices)[i] == hash; }
  }

  /** Invoices correspond one to one with the distinct hashes uploaded, and runs with the uploads. */
  lemma {:induction false} Deduplicated(ops: seq<Op>)
    ensures |Run(ops).runs| == Uploads(ops)
    ensures DistinctHashes(Run(ops).invoices)
    ensures forall hash :: hash in Hashes(Run(ops).invoices) <==> WasUploaded(ops, hash)
  {
    hide Apply, Ledger.Dense, CaseHolds, WasUploaded, Hashes;
    InvariantAlways(ops);
    if ops == [] {
      NothingUploaded();
    } else {
      var n := |ops| - 1;
      Deduplicated(ops[..n]);
      OpKeepsKeys(Run(ops[..n]), ops[n]);
      forall hash ensures hash in Hashes(Run(ops).invoices) <==> WasUploaded(ops, hash) {
        OpAddsUploadedHash(Run(ops[..n]), ops[n], hash);
        UploadedBeforeOrNow(ops, hash);
      }
    }
  }

  lemma NothingUploaded()
    ensures forall hash :: hash !in Hashes(EmptyDb().invoices) && !WasUploaded([], hash)
  {}

  lemma UploadedBeforeOrNow(ops: seq<Op>, hash: string)
    requires ops != []
    ensures WasUploaded(ops, hash) <==> WasUploaded(ops[..|ops| - 1], hash) || ops[|ops| - 1] == Upload(hash)
  {
    var n := |ops| - 1;
    if k :| 0 <= k < n && ops[..n][k] == Upload(hash) { assert ops[k] == Upload(hash); }
    if k :| 0 <= k <= n && ops[k] == Upload(hash) { assert k < n ==> ops[..n][k] == Upload(hash); }
  }

  /** Each invoice has exactly one run that is not a rejected duplicate, and while that run waits or
      runs it is the one the ingest node picks. */
  lemma OneLiveRun(ops: seq<Op>, i: nat) returns (r: nat)
    requires Exists(Run(ops), i)
    ensures r < |Run(ops).runs| && Run(ops).runs[r].invoiceId == i && Run(ops).runs[r].status != Rejected
    ensures forall s :: 0 <= s < |Run(ops).runs| && s != r && Run(ops).runs[s].invoiceId == i ==>
              Run(ops).runs[s].status == Rejected
    ensures Run(ops).runs[r].status == Queued || Run(ops).runs[r].status == Running ==>
              PickRun(Run(ops).runs, i) == Some(r)
    ensures LiveRun(Run(ops).runs, i) == Some(r)
  {
    hide Run, CaseInv;
    Lawful(ops, i);
    r := LiveRun(Run(ops).runs, i).value;
    forall s | 0 <= s < |Run(ops).runs| && s != r && Run(ops).runs[s].invoiceId == i
      ensures Run(ops).runs[s].status == Rejected
    {
      assert IsLive(Run(ops).runs, i, s) ==> s == r;
    }
    IngestPicksTheLiveRun(Run(ops), i);
  }
}
