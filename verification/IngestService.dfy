/** Uploads: a new content hash is accepted, a known one is recorded as a rejected duplicate. */
module IngestService {
  import opened Common
  import opened Graph
  import opened Records
  import opened Tables
  import opened Projection
  import opened TableLaws
  import opened Store
  import Ledger

  datatype IngestResult = IngestResult(invoiceId: nat, runId: nat, duplicate: bool)

  class Service {
    const writer: LedgerWriter

    constructor () {
      writer := new LedgerWriter();
    }

    /** The inserts of a fresh upload; the unique hash constraint may refuse them. */
    method CreateRows(db: Database, hash: string) returns (created: Option<(nat, nat)>)
      modifies db`invoices, db`runs
      ensures created.None? <==> FindByHash(old(db.invoices), hash).Some?
      ensures created.None? ==> db.View() == old(db.View())
      ensures created.Some? ==> created.value == (|old(db.invoices)|, |old(db.runs)|)
                                && db.View() == WithUploadRows(old(db.View()), hash)
    {
      if FindByHash(db.invoices, hash).Some? {
        return None;
      }
      var invoiceId := |db.invoices|;
      db.invoices := db.invoices + [InvoiceRow(hash, Received, BLANK, None)];
      var runId := |db.runs|;
      db.runs := db.runs + [RunRow(invoiceId, Queued, None, None)];
      created := Some((invoiceId, runId));
    }

    method RecordDuplicate(db: Database, original: nat) returns (runId: nat)
      modifies db`runs, db`ledger
      ensures runId == |old(db.runs)|
      ensures db.View() == Logged(
        old(db.View()).(runs := old(db.runs) + [RunRow(original, Rejected, Some(RouteReject), None)]),
        Some(runId), IngestDuplicate)
    {
      runId := |db.runs|;
      db.runs := db.runs + [RunRow(original, Rejected, Some(RouteReject), None)];
      writer.Append(db, Some(runId), IngestDuplicate);
    }

    lemma FreshUpload(before: Db, hash: string)
      requires Sound(before) && FindByHash(before.invoices, hash).None?
      ensures var after := Uploaded(before, hash); var i, r := |before.invoices|, |before.runs|;
              && hash !in Hashes(before.invoices)
              && i < |after.invoices| && after.invoices[i].contentHash == hash
              && r < |after.runs| && after.runs[r].invoiceId == i && LiveRun(after.runs, i) == Some(r)
    {
      hide Sound, Ledger.Appended;
      HashIsFound(before.invoices, hash);
      NewRowsAreSound(before, hash);
    }

    lemma RepeatedUpload(before: Db, hash: string, i: nat)
      requires Sound(before) && FindByHash(before.invoices, hash) == Some(i)
      ensures var after := Uploaded(before, hash); var r := |before.runs|;
              && hash in Hashes(before.invoices)
              && i < |after.invoices| && after.invoices[i].contentHash == hash
              && r < |after.runs| && after.runs[r].invoiceId == i && LiveRun(after.runs, i) != Some(r)
    {
      hide Sound, Ledger.Appended;
      HashIsFound(before.invoices, hash);
      assert Hashes(before.invoices)[i] == hash;
      DuplicateRunIsSound(before, i);
    }

    /** Whatever the outcome, the returned invoice holds the hash, and the returned run is its live run
        exactly when the upload was not a duplicate. */
    method Ingest(db: Database, hash: string) returns (r: IngestResult)
      requires db.Valid()
      modifies db
      ensures db.Valid() && db.history == old(db.history) + [Upload(hash)]
      ensures r.duplicate <==> hash in Hashes(old(db.invoices))
      ensures r.invoiceId < |db.invoices| && db.invoices[r.invoiceId].contentHash == hash
      ensures r.runId == |old(db.runs)| && r.runId < |db.runs| && db.runs[r.runId].invoiceId == r.invoiceId
      ensures LiveRun(db.runs, r.invoiceId) == Some(r.runId) <==> !r.duplicate
      ensures |db.ledger| == |old(db.ledger)| + 1 && db.ledger[|old(db.ledger)|].run == Some(r.runId)
      ensures if r.duplicate then
                db.invoices == old(db.invoices)
                && db.runs == old(db.runs) + [RunRow(r.invoiceId, Rejected, Some(RouteReject), None)]
                && db.ledger[|old(db.ledger)|].event == IngestDuplicate
              else
                db.invoices == old(db.invoices)
                  + [InvoiceRow(hash, Received, ReadModel(None, None, None, None, None), None)]
                && db.runs == old(db.runs) + [RunRow(r.invoiceId, Queued, None, None)]
                && db.ledger[|old(db.ledger)|].event == IngestAccepted
    {
      hide Sound, LiveRun, Hashes;
      ghost var before := db.View();
      db.ValidIsLawful();
      var created := CreateRows(db, hash);
      match created {
        case Some(ids) =>
          writer.Append(db, Some(ids.1), IngestAccepted);
          r := IngestResult(ids.0, ids.1, false);
          FreshUpload(before, hash);
        case None =>
          var existing := FindByHash(db.invoices, hash).value;
          var runId := RecordDuplicate(db, existing);
          r := IngestResult(existing, runId, true);
          RepeatedUpload(before, hash, existing);
      }
      db.Happened(Upload(hash));
    }
  }
}
