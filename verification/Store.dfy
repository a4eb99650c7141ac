/** The shared database object, and the ledger writer every service appends through. */
module Store {
  import opened Common
  import opened Records
  import opened Cases
  import opened Tables
  import opened TableLaws
  import Ledger

  /** The tables and the checkpoint store. `history` remembers the operations that led here. */
  class Database {
    var invoices: seq<InvoiceRow>
    var runs: seq<RunRow>
    var exceptions: seq<ExceptionRow>
    var decisions: seq<DecisionRow>
    var dlq: seq<DlqRow>
    var ledger: seq<Ledger.Row<Event>>
    var threads: map<nat, Thread>
    ghost var history: seq<Op>

    constructor ()
      ensures Valid() && history == []
    {
      invoices, runs, exceptions, decisions, dlq, ledger, threads := [], [], [], [], [], [], map[];
      history := [];
    }

    function View(): Db
      reads this
    {
      Db(invoices, runs, exceptions, decisions, dlq, ledger, threads)
    }

    /** The rows are those of a history of operations. */
    ghost predicate Valid()
      reads this
    {
      View() == Run(history)
    }

    /** Hence everything proved of histories holds of the rows. */
    lemma ValidIsLawful()
      requires Valid()
      ensures Invariant(View())
    {
      InvariantAlways(history);
    }

    /** Every service transaction ends by entering its operation into the history. */
    ghost method Happened(op: Op)
      requires View() == Apply(Run(history), op)
      modifies this`history
      ensures Valid() && history == old(history) + [op]
    {
      history := history + [op];
      assert history[..|history| - 1] == old(history);
    }
  }

  class LedgerWriter {
    constructor () {}

    method NextSeq(db: Database, run: Option<nat>) returns (seqNo: nat)
      ensures seqNo == Ledger.NextSeq(db.ledger, run)
    {
      if run.None? {
        return 1;
      }
      var current := Ledger.MaxSeq(db.ledger, run.value);
      seqNo := current + 1;
    }

    method Append(db: Database, run: Option<nat>, event: Event)
      modifies db`ledger
      ensures db.View() == Logged(old(db.View()), run, event)
    {
      var seqNo := NextSeq(db, run);
      db.ledger := db.ledger + [Ledger.Row(run, seqNo, event)];
    }
  }
}
