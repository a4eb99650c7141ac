/** The tables seen from one invoice, and how each single write changes that view. */
module Projection {
  import opened Common
  import opened Graph
  import opened Records
  import opened Cases
  import opened Tables
  import Ledger

  // ------------------------------------------------------------------ the parts of the view

  predicate IsLive(runs: seq<RunRow>, i: nat, r: nat) {
    r < |runs| && runs[r].invoiceId == i && runs[r].status != Rejected
  }

  /** The newest run of an invoice that is not a rejected duplicate. */
  function LiveRun(runs: seq<RunRow>, i: nat): (r: Option<nat>)
    ensures r.Some? ==> IsLive(runs, i, r.value)
    ensures r.None? ==> forall k :: !IsLive(runs, i, k)
  {
    if runs == [] then None
    else
      var n := |runs| - 1;
      var before := LiveRun(runs[..n], i);
      assert forall k :: IsLive(runs, i, k) <==> IsLive(runs[..n], i, k) || (k == n && IsLive(runs, i, n));
      if runs[n].invoiceId == i && runs[n].status != Rejected then Some(n) else before
  }

  ghost predicate OneLiveRunEach(runs: seq<RunRow>) {
    forall i, r, s :: IsLive(runs, i, r) && IsLive(runs, i, s) ==> r == s
  }

  /** The events of one run in ledger order. */
  function EventsOf(ledger: seq<Ledger.Row<Event>>, r: nat): seq<Event> {
    if ledger == [] then []
    else
      var n := |ledger| - 1;
      var before := EventsOf(ledger[..n], r);
      if ledger[n].run == Some(r) then before + [ledger[n].event] else before
  }

  function ExceptionsOf(exceptions: seq<ExceptionRow>, i: nat): map<nat, ExceptionRow> {
    map e: nat | e < |exceptions| && exceptions[e].invoiceId == i :: exceptions[e]
  }

  function DlqOf(dlq: seq<DlqRow>, i: nat): map<nat, DlqRow> {
    map d: nat | d < |dlq| && dlq[d].invoiceId == i :: dlq[d]
  }

  /** The decisions on any of the given exceptions, oldest first. */
  function DecisionsOn(decisions: seq<DecisionRow>, own: set<nat>): seq<DecisionRow> {
    if decisions == [] then []
    else
      var n := |decisions| - 1;
      var before := DecisionsOn(decisions[..n], own);
      if decisions[n].exceptionId in own then before + [decisions[n]] else before
  }

  function CaseOf(db: Db, i: nat): Case
    requires i < |db.invoices| && LiveRun(db.runs, i).Some?
  {
    var r := LiveRun(db.runs, i).value;
    var exceptions := ExceptionsOf(db.exceptions, i);
    Case(i, db.invoices[i].status, db.invoices[i].shown, r, db.runs[r], EventsOf(db.ledger, r), ThreadOf(db, i),
         exceptions, DecisionsOn(db.decisions, exceptions.Keys), DlqOf(db.dlq, i))
  }

  // ------------------------------------------------------------------ referential integrity

  predicate DistinctHashes(invoices: seq<InvoiceRow>) {
    forall j, k :: 0 <= j < k < |invoices| ==> invoices[j].contentHash != invoices[k].contentHash
  }

  predicate LedgerRefers(ledger: seq<Ledger.Row<Event>>, runs: nat) {
    forall k :: 0 <= k < |ledger| ==> ledger[k].run.Some? && ledger[k].run.value < runs
  }

  predicate DecisionsRefer(decisions: seq<DecisionRow>, exceptions: nat) {
    forall k :: 0 <= k < |decisions| ==> decisions[k].decisionId == k && decisions[k].exceptionId < exceptions
  }

  /** A thread opened for an invoice that does not exist never gets past its first node. */
  predicate StrayThreads(threads: map<nat, Thread>, invoices: nat) {
    forall t :: t in threads && t >= invoices ==>
      threads[t].values == InitialState(t) && threads[t].next == Some(IngestNode) && !threads[t].paused
  }

  predicate EachHasLiveRun(runs: seq<RunRow>, invoices: nat) {
    forall i :: 0 <= i < invoices ==> LiveRun(runs, i).Some?
  }

  predicate RowsRefer(db: Db) {
    && (forall r :: 0 <= r < |db.runs| ==> db.runs[r].invoiceId < |db.invoices|)
    && (forall e :: 0 <= e < |db.exceptions| ==> db.exceptions[e].invoiceId < |db.invoices|)
    && (forall d :: 0 <= d < |db.dlq| ==> db.dlq[d].invoiceId < |db.invoices|)
  }

  /** Keys refer to rows, hashes are unique, each invoice has exactly one live run, and the ledger is
      numbered without gaps. */
  ghost predicate Sound(db: Db) {
    && RowsRefer(db)
    && DistinctHashes(db.invoices)
    && OneLiveRunEach(db.runs) && EachHasLiveRun(db.runs, |db.invoices|)
    && DecisionsRefer(db.decisions, |db.exceptions|)
    && LedgerRefers(db.ledger, |db.runs|) && Ledger.Dense(db.ledger)
    && StrayThreads(db.threads, |db.invoices|)
  }

  // ------------------------------------------------------------------ single writes, seen from invoice j

  lemma LiveIsUnique(runs: seq<RunRow>, i: nat, r: nat)
    requires OneLiveRunEach(runs) && IsLive(runs, i, r)
    ensures LiveRun(runs, i) == Some(r)
  {}

  lemma LiveRunOfUpdated(runs: seq<RunRow>, r: nat, row: RunRow, j: nat)
    requires OneLiveRunEach(runs) && r < |runs|
    requires row.invoiceId == runs[r].invoiceId && (row.status == Rejected <==> runs[r].status == Rejected)
    ensures LiveRun(runs[r := row], j) == LiveRun(runs, j) && OneLiveRunEach(runs[r := row])
  {
    var next := runs[r := row];
    assert forall i, k :: IsLive(next, i, k) <==> IsLive(runs, i, k);
    assert OneLiveRunEach(next);
  }

  lemma EachKeepsLiveRun(runs: seq<RunRow>, r: nat, row: RunRow, invoices: nat)
    requires OneLiveRunEach(runs) && r < |runs| && EachHasLiveRun(runs, invoices)
    requires row.invoiceId == runs[r].invoiceId && (row.status == Rejected <==> runs[r].status == Rejected)
    ensures EachHasLiveRun(runs[r := row], invoices)
  {
    var next := runs[r := row];
    forall i | 0 <= i < invoices ensures LiveRun(next, i).Some? {
      LiveRunOfUpdated(runs, r, row, i);
    }
  }

  lemma LiveRunOfAppended(runs: seq<RunRow>, row: RunRow, j: nat)
    ensures LiveRun(runs + [row], j)
         == if row.invoiceId == j && row.status != Rejected then Some(|runs|) else LiveRun(runs, j)
  {
    assert (runs + [row])[..|runs|] == runs;
  }

  lemma EventsOfAppended(ledger: seq<Ledger.Row<Event>>, r: Option<nat>, e: Event, s: nat)
    ensures EventsOf(Ledger.Appended(ledger, r, e), s)
         == if r == Some(s) then EventsOf(ledger, s) + [e] else EventsOf(ledger, s)
  {
    assert Ledger.Appended(ledger, r, e)[..|ledger|] == ledger;
  }

  lemma {:induction false} NoEventsBeyond(ledger: seq<Ledger.Row<Event>>, r: nat)
    requires LedgerRefers(ledger, r)
    ensures EventsOf(ledger, r) == []
  {
    if ledger != [] { NoEventsBeyond(ledger[..|ledger| - 1], r); }
  }

  lemma DecisionsOnAppended(decisions: seq<DecisionRow>, d: DecisionRow, own: set<nat>)
    ensures DecisionsOn(decisions + [d], own)
         == if d.exceptionId in own then DecisionsOn(decisions, own) + [d] else DecisionsOn(decisions, own)
  {
    assert (decisions + [d])[..|decisions|] == decisions;
  }

  lemma {:induction false} DecisionsOnOld(decisions: seq<DecisionRow>, own: set<nat>, e: nat)
    requires DecisionsRefer(decisions, e)
    ensures DecisionsOn(decisions, own + {e}) == DecisionsOn(decisions, own)
  {
    if decisions != [] { DecisionsOnOld(decisions[..|decisions| - 1], own, e); }
  }

  predicate Visible(db: Db, j: nat) {
    j < |db.invoices| && LiveRun(db.runs, j).Some?
  }

  lemma LoggedShows(db: Db, r: nat, e: Event, j: nat)
    requires Sound(db) && Visible(db, j) && r < |db.runs|
    ensures Sound(Logged(db, Some(r), e)) && Visible(Logged(db, Some(r), e), j)
    ensures CaseOf(Logged(db, Some(r), e), j)
         == if CaseOf(db, j).runId == r then CaseOf(db, j).(events := CaseOf(db, j).events + [e]) else CaseOf(db, j)
  {
    hide LiveRun, OneLiveRunEach, ExceptionsOf, DlqOf, DecisionsOn, Ledger.NextSeq;
    EventsOfAppended(db.ledger, Some(r), e, CaseOf(db, j).runId);
    Ledger.AppendKeepsDense(db.ledger, Some(r), e);
  }

  lemma {:induction false} AllLoggedShows(db: Db, r: nat, events: seq<Event>, j: nat)
    requires Sound(db) && Visible(db, j) && r < |db.runs|
    ensures var after := AllLogged(db, Some(r), events);
            && Sound(after) && Visible(after, j) && after == db.(ledger := after.ledger)
            && CaseOf(after, j) == if CaseOf(db, j).runId == r
                                   then CaseOf(db, j).(events := CaseOf(db, j).events + events) else CaseOf(db, j)
  {
    hide Sound, CaseOf;
    if events == [] {
      assert CaseOf(db, j).events + [] == CaseOf(db, j).events;
    } else {
      var n := |events| - 1;
      AllLoggedShows(db, r, events[..n], j);
      LoggedShows(AllLogged(db, Some(r), events[..n]), r, events[n], j);
      assert events == events[..n] + [events[n]];
    }
  }

  lemma InvoiceShows(db: Db, i: nat, row: InvoiceRow, j: nat)
    requires Sound(db) && Visible(db, j) && i < |db.invoices| && row.contentHash == db.invoices[i].contentHash
    ensures var after := WithInvoice(db, i, row);
            && Sound(after) && Visible(after, j)
            && CaseOf(after, j) == if i == j then CaseOf(db, j).(status := row.status, shown := row.shown)
                                   else CaseOf(db, j)
  {
    hide LiveRun, OneLiveRunEach, EventsOf, ExceptionsOf, DlqOf, DecisionsOn, Ledger.Dense;
  }

  lemma RunShows(db: Db, r: nat, row: RunRow, j: nat)
    requires Sound(db) && Visible(db, j) && r < |db.runs|
    requires row.invoiceId == db.runs[r].invoiceId && (row.status == Rejected <==> db.runs[r].status == Rejected)
    ensures var after := WithRun(db, r, row);
            && Sound(after) && Visible(after, j)
            && CaseOf(after, j) == if CaseOf(db, j).runId == r then CaseOf(db, j).(run := row) else CaseOf(db, j)
  {
    hide EventsOf, ExceptionsOf, DlqOf, DecisionsOn, Ledger.Dense, LiveRun, OneLiveRunEach, EachHasLiveRun;
    LiveRunOfUpdated(db.runs, r, row, j);
    EachKeepsLiveRun(db.runs, r, row, |db.invoices|);
  }

  lemma ThreadShows(db: Db, i: nat, t: Thread, j: nat)
    requires Sound(db) && Visible(db, j)
    requires i >= |db.invoices| ==> t.values == InitialState(i) && t.next == Some(IngestNode) && !t.paused
    ensures var after := WithThread(db, i, t);
            && Sound(after) && Visible(after, j)
            && CaseOf(after, j) == if i == j then CaseOf(db, j).(thread := Some(t)) else CaseOf(db, j)
  {
    hide LiveRun, OneLiveRunEach, EventsOf, ExceptionsOf, DlqOf, DecisionsOn, Ledger.Dense;
  }

  lemma NewExceptionShows(db: Db, row: ExceptionRow, j: nat)
    requires Sound(db) && Visible(db, j) && row.invoiceId < |db.invoices|
    ensures var after := WithNewException(db, Some(row));
            && Sound(after) && Visible(after, j)
            && CaseOf(after, j) == if row.invoiceId == j
                                   then CaseOf(db, j).(exceptions := CaseOf(db, j).exceptions[|db.exceptions| := row])
                                   else CaseOf(db, j)
  {
    hide LiveRun, OneLiveRunEach, EventsOf, DlqOf, Ledger.Dense;
    var after := WithNewException(db, Some(row));
    var own := ExceptionsOf(db.exceptions, j);
    if row.invoiceId == j {
      assert ExceptionsOf(after.exceptions, j) == own[|db.exceptions| := row];
      DecisionsOnOld(db.decisions, own.Keys, |db.exceptions|);
      assert ExceptionsOf(after.exceptions, j).Keys == own.Keys + {|db.exceptions|};
    } else {
      assert ExceptionsOf(after.exceptions, j) == own;
    }
  }

  lemma ExceptionShows(db: Db, e: nat, row: ExceptionRow, j: nat)
    requires Sound(db) && Visible(db, j) && e < |db.exceptions| && row.invoiceId == db.exceptions[e].invoiceId
    ensures var after := WithException(db, e, row);
            && Sound(after) && Visible(after, j)
            && CaseOf(after, j) == if row.invoiceId == j
                                   then CaseOf(db, j).(exceptions := CaseOf(db, j).exceptions[e := row])
                                   else CaseOf(db, j)
  {
    hide LiveRun, OneLiveRunEach, EventsOf, DlqOf, Ledger.Dense;
    var after := WithException(db, e, row);
    var own := ExceptionsOf(db.exceptions, j);
    assert ExceptionsOf(after.exceptions, j) == if row.invoiceId == j then own[e := row] else own;
    assert ExceptionsOf(after.exceptions, j).Keys == own.Keys;
  }

  lemma NewDecisionShows(db: Db, d: DecisionRow, j: nat)
    requires Sound(db) && Visible(db, j) && d.exceptionId < |db.exceptions| && d.decisionId == |db.decisions|
    ensures var after := WithNewDecision(db, d);
            && Sound(after) && Visible(after, j)
            && CaseOf(after, j) == if db.exceptions[d.exceptionId].invoiceId == j
                                   then CaseOf(db, j).(decisions := CaseOf(db, j).decisions + [d])
                                   else CaseOf(db, j)
  {
    hide LiveRun, OneLiveRunEach, EventsOf, DlqOf, Ledger.Dense;
    DecisionsOnAppended(db.decisions, d, ExceptionsOf(db.exceptions, j).Keys);
  }

  lemma NewDlqShows(db: Db, row: DlqRow, j: nat)
    requires Sound(db) && Visible(db, j) && row.invoiceId < |db.invoices|
    ensures var after := WithNewDlq(db, row);
            && Sound(after) && Visible(after, j)
            && CaseOf(after, j) == if row.invoiceId == j
                                   then CaseOf(db, j).(dlq := CaseOf(db, j).dlq[|db.dlq| := row])
                                   else CaseOf(db, j)
  {
    hide LiveRun, OneLiveRunEach, EventsOf, ExceptionsOf, DecisionsOn, Ledger.Dense;
    var own := DlqOf(db.dlq, j);
    assert DlqOf(WithNewDlq(db, row).dlq, j) == if row.invoiceId == j then own[|db.dlq| := row] else own;
  }

  lemma DlqShows(db: Db, d: nat, row: DlqRow, j: nat)
    requires Sound(db) && Visible(db, j) && d < |db.dlq| && row.invoiceId == db.dlq[d].invoiceId
    ensures var after := WithDlq(db, d, row);
            && Sound(after) && Visible(after, j)
            && CaseOf(after, j) == if row.invoiceId == j then CaseOf(db, j).(dlq := CaseOf(db, j).dlq[d := row])
                                   else CaseOf(db, j)
  {
    hide LiveRun, OneLiveRunEach, EventsOf, ExceptionsOf, DecisionsOn, Ledger.Dense;
    var own := DlqOf(db.dlq, j);
    assert DlqOf(WithDlq(db, d, row).dlq, j) == if row.invoiceId == j then own[d := row] else own;
  }
}
