/** The node callables: each runs its deterministic engine, writes its rows, and appends its event. */
module Pipeline {
  import opened Common
  import opened Extraction
  import opened Graph
  import opened Records
  import opened Cases
  import opened Tables
  import opened Store
  import Ledger
  import Validation
  import Matching
  import NearDup
  import Gate
  import Triage

  class PipelineNodes {
    const writer: LedgerWriter

    constructor () {
      writer := new LedgerWriter();
    }

    lemma LoggedInTurn(view: Db, run: Option<nat>, a: Event, b: Event)
      ensures AllLogged(view, run, [a]) == Logged(view, run, a)
      ensures AllLogged(view, run, [a, b]) == Logged(Logged(view, run, a), run, b)
    {
      hide Ledger.Appended;
      assert [a][..0] == [] && [a, b][..1] == [a];
      assert AllLogged(view, run, [a, b]) == Logged(AllLogged(view, run, [a]), run, b);
    }

    method Log(db: Database, v: GraphState, n: Node)
      requires n != TriageNode
      modifies db`ledger
      ensures db.View() == AllLogged(old(db.View()), v.runDbId, EventsAfter(n, 0, false))
    {
      LoggedInTurn(db.View(), v.runDbId, EventOf(n, 0), EventOf(n, 0));
      writer.Append(db, v.runDbId, EventOf(n, 0));
      assert EventsAfter(n, 0, false) == [EventOf(n, 0)];
    }

    /** Nodes that write nothing to the invoice row, and nodes that write nothing to the run row. */
    lemma RowsStay(view: Db, i: nat, n: Node, w: GraphState, input: NodeInput)
      ensures n !in [MatchNode, PolicyNode, AutoApproveNode, TriageNode] ==>
                InvoiceMoved(view, i, n, w, input) == view
      ensures n !in [IngestNode, AutoApproveNode, TriageNode, ArchiveNode, RejectNode] ==>
                RunMoved(view, w.runDbId, n, w) == view
    {
      if i < |view.invoices| { assert view.invoices[i := view.invoices[i]] == view.invoices; }
      if w.runDbId.Some? && w.runDbId.value < |view.runs| {
        assert view.runs[w.runDbId.value := view.runs[w.runDbId.value]] == view.runs;
      }
    }

    method MarkInvoice(db: Database, i: nat, status: InvoiceStatus)
      modifies db`invoices
      ensures db.invoices == if i < |old(db.invoices)|
                             then old(db.invoices)[i := old(db.invoices)[i].(status := status)]
                             else old(db.invoices)
    {
      if i < |db.invoices| {
        db.invoices := db.invoices[i := db.invoices[i].(status := status)];
      }
    }

    /** The match node's first transaction: the columns the queue filters and sorts on. */
    method BackfillInvoice(db: Database, i: nat, x: InvoiceExtraction, po: Option<Matching.PoForMatch>)
      modifies db`invoices
      ensures db.invoices == if i < |old(db.invoices)|
                             then old(db.invoices)[i := old(db.invoices)[i].(
                               shown := Cases.Backfill(x, po, old(db.invoices)[i].shown))]
                             else old(db.invoices)
    {
      if i < |db.invoices| {
        var row := db.invoices[i].shown;
        row := row.(invoiceNumber := x.invoiceNumber);
        row := row.(currency := x.currency);
        row := row.(amount := x.totalAmount);
        row := row.(issueDate := x.issueDate);
        if po.Some? {
          row := row.(poNumber := Some(po.value.poNumber));
        }
        db.invoices := db.invoices[i := db.invoices[i].(shown := row)];
      }
    }

    /** Search first, store after: the invoice never matches itself. */
    method CheckAndStore(db: Database, i: nat, vector: NearDup.Embedding) returns (hits: seq<NearDup.NearDupHit>)
      modifies db`invoices
      ensures hits == NearDup.FindSimilar(Corpus(old(db.View())), i, vector)
      ensures db.invoices == if i < |old(db.invoices)|
                             then old(db.invoices)[i := old(db.invoices)[i].(embedding := Some(vector))]
                             else old(db.invoices)
    {
      hits := NearDup.FindSimilar(Corpus(db.View()), i, vector);
      if i < |db.invoices| {
        db.invoices := db.invoices[i := db.invoices[i].(embedding := Some(vector))];
      }
    }

    method MarkRun(db: Database, r: Option<nat>, status: Option<RunStatus>, route: Option<Route>,
      confidence: Option<real>)
      modifies db`runs
      ensures db.runs == if r.Some? && r.value < |old(db.runs)|
                         then var row := old(db.runs)[r.value];
                              old(db.runs)[r.value := RunRow(
                                row.invoiceId,
                                if status.Some? then status.value else row.status,
                                if route.Some? then route else row.route,
                                if confidence.Some? then confidence else row.confidence)]
                         else old(db.runs)
    {
      if r.Some? && r.value < |db.runs| {
        var row := db.runs[r.value];
        if status.Some? {
          row := row.(status := status.value);
        }
        if route.Some? {
          row := row.(route := route);
        }
        if confidence.Some? {
          row := row.(confidence := confidence);
        }
        db.runs := db.runs[r.value := row];
      }
    }

    /** Ingest: load the invoice and its queued (or already running) run, mark it running. */
    method Ingest(db: Database, i: nat, v: GraphState, input: NodeInput) returns (r: Result<GraphState, NodeError>)
      modifies db`runs, db`ledger
      ensures r == Computed(old(db.View()), i, IngestNode, v, input)
      ensures db.View() == if r.Ok? then RowsWritten(old(db.View()), i, IngestNode, v, r.value, input)
                           else old(db.View())
    {
      if i >= |db.invoices| {
        return Err(NotFound);
      }
      var run := NewestRun(db.runs, i, Queued);
      if run.None? {
        run := NewestRun(db.runs, i, Running);
      }
      if run.None? {
        return Err(NoRun);
      }
      var w := v.(runDbId := run, duplicate := false, trace := v.trace + [IngestNode]);
      RowsStay(db.View(), i, IngestNode, w, input);
      MarkRun(db, run, Some(Running), None, None);
      Log(db, w, IngestNode);
      r := Ok(w);
    }

    method Extract(db: Database, i: nat, v: GraphState, input: NodeInput) returns (r: Result<GraphState, NodeError>)
      modifies db`ledger
      ensures r == Computed(old(db.View()), i, ExtractNode, v, input)
      ensures db.View() == if r.Ok? then RowsWritten(old(db.View()), i, ExtractNode, v, r.value, input)
                           else old(db.View())
    {
      var w := v.(extraction := Some(input.extraction), trace := v.trace + [ExtractNode]);
      RowsStay(db.View(), i, ExtractNode, w, input);
      Log(db, w, ExtractNode);
      r := Ok(w);
    }

    method Validate(db: Database, i: nat, v: GraphState, input: NodeInput) returns (r: Result<GraphState, NodeError>)
      modifies db`ledger
      ensures r == Computed(old(db.View()), i, ValidateNode, v, input)
      ensures db.View() == if r.Ok? then RowsWritten(old(db.View()), i, ValidateNode, v, r.value, input)
                           else old(db.View())
    {
      if v.extraction.None? {
        return Err(ExtractionMissing);
      }
      var checks := Validation.ValidateExtraction(v.extraction.value);
      var w := v.(validation := checks, trace := v.trace + [ValidateNode]);
      RowsStay(db.View(), i, ValidateNode, w, input);
      Log(db, w, ValidateNode);
      r := Ok(w);
    }

    /** Match: backfill the read model in one transaction, then match and log in another. */
    method Match3Way(db: Database, i: nat, v: GraphState, input: NodeInput) returns (r: Result<GraphState, NodeError>)
      modifies db`invoices, db`ledger
      ensures r == Computed(old(db.View()), i, MatchNode, v, input)
      ensures db.View() == if r.Ok? then RowsWritten(old(db.View()), i, MatchNode, v, r.value, input)
                           else old(db.View())
    {
      if v.extraction.None? {
        return Err(ExtractionMissing);
      }
      var x := v.extraction.value;
      var po, gr := PoRead(x, input), GrRead(x, input);
      BackfillInvoice(db, i, x, po);
      var result := Matching.Match3Way(Matching.InvoiceOf(x), po, gr);
      var w := v.(matched := Some(MatchRecord(po, gr, result)), trace := v.trace + [MatchNode]);
      RowsStay(db.View(), i, MatchNode, w, input);
      Log(db, w, MatchNode);
      r := Ok(w);
    }

    /** Policy: search the corpus, store the embedding, evaluate, then log. */
    method PolicyCheck(db: Database, i: nat, v: GraphState, input: NodeInput) returns (r: Result<GraphState, NodeError>)
      modifies db`invoices, db`ledger
      ensures r == Computed(old(db.View()), i, PolicyNode, v, input)
      ensures db.View() == if r.Ok? then RowsWritten(old(db.View()), i, PolicyNode, v, r.value, input)
                           else old(db.View())
    {
      hide AllLogged, PolicyStage, NearDup.FindSimilar, Corpus;
      if v.extraction.None? {
        return Err(ExtractionMissing);
      }
      if |input.vector| != NearDup.EMBEDDING_DIM {
        return Err(BadEmbedding);
      }
      var hits := CheckAndStore(db, i, input.vector);
      var w := v.(policy := Some(PolicyStage(v.extraction.value, input, hits)), trace := v.trace + [PolicyNode]);
      RowsStay(db.View(), i, PolicyNode, w, input);
      Log(db, w, PolicyNode);
      r := Ok(w);
    }

    /** What an attempt has committed when it raises after its first transaction. */
    method FirstTransaction(db: Database, i: nat, n: Node, v: GraphState, input: NodeInput)
      requires (n == MatchNode || n == PolicyNode) && v.extraction.Some?
      modifies db`invoices
      ensures db.View() == InvoiceMoved(old(db.View()), i, n, v, input)
    {
      if n == MatchNode {
        BackfillInvoice(db, i, v.extraction.value, PoRead(v.extraction.value, input));
      } else if |input.vector| == NearDup.EMBEDDING_DIM {
        var _ := CheckAndStore(db, i, input.vector);
      } else if i < |db.invoices| {
        assert db.invoices[i := db.invoices[i]] == db.invoices;
      }
    }

    method DecideGate(db: Database, i: nat, v: GraphState, input: NodeInput) returns (r: Result<GraphState, NodeError>)
      modifies db`ledger
      ensures r == Computed(old(db.View()), i, GateNode, v, input)
      ensures db.View() == if r.Ok? then RowsWritten(old(db.View()), i, GateNode, v, r.value, input)
                           else old(db.View())
    {
      if v.extraction.None? {
        return Err(ExtractionMissing);
      }
      var decision := Gate.Decide(GateInputsOf(v.extraction.value, v));
      var w := v.(confidence := Some(decision.confidence), gate := Some(decision), trace := v.trace + [GateNode]);
      RowsStay(db.View(), i, GateNode, w, input);
      Log(db, w, GateNode);
      r := Ok(w);
    }

    method AutoApprove(db: Database, i: nat, v: GraphState, input: NodeInput) returns (r: Result<GraphState, NodeError>)
      modifies db`invoices, db`runs, db`ledger
      ensures r == Computed(old(db.View()), i, AutoApproveNode, v, input)
      ensures db.View() == if r.Ok? then RowsWritten(old(db.View()), i, AutoApproveNode, v, r.value, input)
                           else old(db.View())
    {
      var w := v.(route := Some(RouteAuto), trace := v.trace + [AutoApproveNode]);
      MarkInvoice(db, i, AutoApproved);
      MarkRun(db, v.runDbId, None, Some(RouteAuto), None);
      Log(db, w, AutoApproveNode);
      r := Ok(w);
    }

    method LogTriage(db: Database, run: Option<nat>, e: nat, classified: bool)
      modifies db`ledger
      ensures db.View() == AllLogged(old(db.View()), run, EventsAfter(TriageNode, e, classified))
    {
      LoggedInTurn(db.View(), run, ExceptionOpened(e), TriageCompleted(e));
      writer.Append(db, run, ExceptionOpened(e));
      if classified {
        writer.Append(db, run, TriageCompleted(e));
      }
      assert EventsAfter(TriageNode, e, classified)
          == if classified then [ExceptionOpened(e), TriageCompleted(e)] else [ExceptionOpened(e)];
    }

    /** Triage: draft the exception from the typed findings, insert it, mark invoice and run, log. */
    method ExceptionTriage(db: Database, i: nat, v: GraphState, input: NodeInput)
      returns (r: Result<GraphState, NodeError>)
      modifies db`invoices, db`runs, db`exceptions, db`ledger
      ensures r == Computed(old(db.View()), i, TriageNode, v, input)
      ensures db.View() == if r.Ok? then RowsWritten(old(db.View()), i, TriageNode, v, r.value, input)
                           else old(db.View())
    {
      hide AllLogged, EventsAfter, Triage.Draft;
      var draft := Triage.BuildDraft(v.validation, MatchFindings(v), PolicyFindings(v), v.gate);
      if draft.Err? {
        return Err(TriageFailed(draft.error));
      }
      var e := |db.exceptions|;
      var w := v.(route := Some(RouteException), exceptionId := Some(e), trace := v.trace + [TriageNode]);
      var row := ExceptionRow(
        i, v.runDbId, draft.value.code, draft.value.severity, draft.value.findings, None, Open);
      db.exceptions := db.exceptions + [row];
      MarkInvoice(db, i, InException);
      MarkRun(db, v.runDbId, Some(AwaitingDecision), Some(RouteException), None);
      LogTriage(db, v.runDbId, e, input.classified);
      r := Ok(w);
    }

    method HumanReview(db: Database, i: nat, v: GraphState, input: NodeInput) returns (r: Result<GraphState, NodeError>)
      modifies db`ledger
      ensures r == Computed(old(db.View()), i, HumanReviewNode, v, input)
      ensures db.View() == if r.Ok? then RowsWritten(old(db.View()), i, HumanReviewNode, v, r.value, input)
                           else old(db.View())
    {
      var w := v.(trace := v.trace + [HumanReviewNode]);
      RowsStay(db.View(), i, HumanReviewNode, w, input);
      Log(db, w, HumanReviewNode);
      r := Ok(w);
    }

    method Archive(db: Database, i: nat, v: GraphState, input: NodeInput) returns (r: Result<GraphState, NodeError>)
      modifies db`runs, db`ledger
      ensures r == Computed(old(db.View()), i, ArchiveNode, v, input)
      ensures db.View() == if r.Ok? then RowsWritten(old(db.View()), i, ArchiveNode, v, r.value, input)
                           else old(db.View())
    {
      var w := v.(trace := v.trace + [ArchiveNode]);
      RowsStay(db.View(), i, ArchiveNode, w, input);
      MarkRun(db, v.runDbId, Some(Completed), v.route, v.confidence);
      Log(db, w, ArchiveNode);
      r := Ok(w);
    }

    method Reject(db: Database, i: nat, v: GraphState, input: NodeInput) returns (r: Result<GraphState, NodeError>)
      modifies db`runs, db`ledger
      ensures r == Computed(old(db.View()), i, RejectNode, v, input)
      ensures db.View() == if r.Ok? then RowsWritten(old(db.View()), i, RejectNode, v, r.value, input)
                           else old(db.View())
    {
      var w := v.(route := Some(RouteReject), trace := v.trace + [RejectNode]);
      RowsStay(db.View(), i, RejectNode, w, input);
      if v.runDbId.Some? {
        MarkRun(db, v.runDbId, Some(Rejected), Some(RouteReject), None);
        Log(db, w, RejectNode);
      }
      r := Ok(w);
    }
  }
}
