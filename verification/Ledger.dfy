/** The append-only ledger: per-run sequence numbers allocated as max + 1, and why they stay
    gap-free when transactions interleave. */
module Ledger {
  import opened Common

  datatype Row<E> = Row(run: Option<nat>, seqNo: nat, event: E)

  predicate Concerns<E>(row: Row<E>, run: nat) {
    row.run == Some(run)
  }

  /** The entries of one run, in ledger order. */
  function RowsOf<E>(rows: seq<Row<E>>, run: nat): seq<Row<E>> {
    if rows == [] then []
    else
      var n := |rows| - 1;
      var before := RowsOf(rows[..n], run);
      if Concerns(rows[n], run) then before + [rows[n]] else before
  }

  function Count<E>(rows: seq<Row<E>>, run: nat): nat {
    |RowsOf(rows, run)|
  }

  /** `coalesce(max(seq), 0)` over the rows of one run. */
  function MaxSeq<E>(rows: seq<Row<E>>, run: nat): nat {
    if rows == [] then 0
    else
      var n := |rows| - 1;
      var before := MaxSeq(rows[..n], run);
      if Concerns(rows[n], run) && rows[n].seqNo > before then rows[n].seqNo else before
  }

  /** Entries without a run are not sequenced. */
  function NextSeq<E>(rows: seq<Row<E>>, run: Option<nat>): nat {
    if run.None? then 1 else MaxSeq(rows, run.value) + 1
  }

  function Appended<E>(rows: seq<Row<E>>, run: Option<nat>, event: E): seq<Row<E>> {
    rows + [Row(run, NextSeq(rows, run), event)]
  }

  // ------------------------------------------------------------------ dense numbering

  /** Every entry of a run is numbered one above the number of earlier entries of that run. */
  predicate Dense<E>(rows: seq<Row<E>>) {
    rows == [] ||
    var n := |rows| - 1;
    Dense(rows[..n]) && (rows[n].run.Some? ==> rows[n].seqNo == Count(rows[..n], rows[n].run.value) + 1)
  }

  /** The numbers of each run are exactly 1, 2, ..., n in ledger order. */
  predicate GapFree<E>(rows: seq<Row<E>>, run: nat) {
    forall k :: 0 <= k < Count(rows, run) ==> RowsOf(rows, run)[k].seqNo == k + 1
  }

  lemma {:induction false} RowsOfConcat<E>(a: seq<Row<E>>, b: seq<Row<E>>, run: nat)
    ensures RowsOf(a + b, run) == RowsOf(a, run) + RowsOf(b, run)
    ensures MaxSeq(a + b, run) == if MaxSeq(a, run) >= MaxSeq(b, run) then MaxSeq(a, run) else MaxSeq(b, run)
  {
    if b == [] {
      assert a + b == a;
    } else {
      var n := |b| - 1;
      assert (a + b)[..|a + b| - 1] == a + b[..n];
      RowsOfConcat(a, b[..n], run);
    }
  }

  lemma {:induction false} DenseNumbers<E>(rows: seq<Row<E>>, run: nat)
    requires Dense(rows)
    ensures GapFree(rows, run) && MaxSeq(rows, run) == Count(rows, run)
  {
    if rows != [] {
      DenseNumbers(rows[..|rows| - 1], run);
    }
  }

  /** A single uncontended append keeps the numbering dense. */
  lemma AppendKeepsDense<E>(rows: seq<Row<E>>, run: Option<nat>, event: E)
    requires Dense(rows)
    ensures Dense(Appended(rows, run, event))
  {
    var next := Appended(rows, run, event);
    assert next[..|rows|] == rows;
    if run.Some? { DenseNumbers(rows, run.value); }
  }

  // ------------------------------------------------------------------ interleaved transactions

  /** Committed rows, and the rows each open transaction has flushed but not committed. */
  datatype System<E> = System(committed: seq<Row<E>>, open: map<nat, seq<Row<E>>>)

  /** One statement of one transaction. An append reads its maximum from any prefix of the committed
      rows (`seen` rows of it) together with the transaction's own rows, so every isolation level is covered. */
  datatype Action<E> =
    | Begin(t: nat)
    | Append(t: nat, run: Option<nat>, event: E, seen: nat)
    | Commit(t: nat)
    | Rollback(t: nat)

  /** The unique constraint on (run, seq): rows without a run never clash. */
  predicate Violates<E>(committed: seq<Row<E>>, row: Row<E>) {
    row.run.Some? &&
    exists k :: 0 <= k < |committed| && committed[k].run == row.run && committed[k].seqNo == row.seqNo
  }

  predicate AnyViolates<E>(committed: seq<Row<E>>, pending: seq<Row<E>>) {
    exists k :: 0 <= k < |pending| && Violates(committed, pending[k])
  }

  function Visible<E>(s: System<E>, t: nat, seen: nat): seq<Row<E>>
    requires t in s.open
  {
    s.committed[..if seen <= |s.committed| then seen else |s.committed|] + s.open[t]
  }

  ghost function Next<E>(s: System<E>, a: Action<E>): System<E> {
    match a
    case Begin(t) => if t in s.open then s else s.(open := s.open[t := []])
    case Append(t, run, event, seen) =>
      if t !in s.open then s
      else s.(open := s.open[t := s.open[t] + [Row(run, NextSeq(Visible(s, t, seen), run), event)]])
    case Commit(t) =>
      if t !in s.open then s
      else if AnyViolates(s.committed, s.open[t]) then s.(open := s.open - {t})
      else System(s.committed + s.open[t], s.open - {t})
    case Rollback(t) => s.(open := s.open - {t})
  }

  ghost function After<E>(history: seq<Action<E>>): System<E> {
    if history == [] then System([], map[])
    else Next(After(history[..|history| - 1]), history[|history| - 1])
  }

  /** A pending row whose number some committed entry of its run already has. */
  predicate Stale<E>(committed: seq<Row<E>>, row: Row<E>) {
    row.run.Some? && 1 <= row.seqNo <= Count(committed, row.run.value)
  }

  predicate AnyStale<E>(committed: seq<Row<E>>, pending: seq<Row<E>>) {
    exists k :: 0 <= k < |pending| && Stale(committed, pending[k])
  }

  /** A transaction is either doomed to fail the constraint, or would extend the ledger densely. */
  predicate Sound<E>(committed: seq<Row<E>>, pending: seq<Row<E>>) {
    AnyStale(committed, pending) || Dense(committed + pending)
  }

  ghost predicate Invariant<E>(s: System<E>) {
    Dense(s.committed) && forall t :: t in s.open ==> Sound(s.committed, s.open[t])
  }

  lemma {:induction false} NumberIsTaken<E>(rows: seq<Row<E>>, run: nat, n: nat)
    requires Dense(rows) && 1 <= n <= Count(rows, run)
    ensures exists k :: 0 <= k < |rows| && rows[k].run == Some(run) && rows[k].seqNo == n
  {
    var last := |rows| - 1;
    if n <= Count(rows[..last], run) {
      NumberIsTaken(rows[..last], run, n);
      var k :| 0 <= k < last && rows[..last][k].run == Some(run) && rows[..last][k].seqNo == n;
      assert rows[k].run == Some(run) && rows[k].seqNo == n;
    } else {
      assert rows[last].run == Some(run) && rows[last].seqNo == n;
    }
  }

  lemma {:induction false} MaxSeqBoundsPrefix<E>(rows: seq<Row<E>>, n: nat, run: nat)
    requires n <= |rows| && Dense(rows)
    ensures MaxSeq(rows[..n], run) <= Count(rows, run)
  {
    if n == |rows| {
      assert rows[..n] == rows;
      DenseNumbers(rows, run);
    } else {
      var last := |rows| - 1;
      assert rows[..last][..n] == rows[..n];
      MaxSeqBoundsPrefix(rows[..last], n, run);
    }
  }

  lemma AppendKeepsSound<E>(committed: seq<Row<E>>, pending: seq<Row<E>>, n: nat, run: Option<nat>, event: E)
    requires n <= |committed| && Dense(committed) && Sound(committed, pending)
    ensures Sound(committed, pending + [Row(run, NextSeq(committed[..n] + pending, run), event)])
  {
    var row := Row(run, NextSeq(committed[..n] + pending, run), event);
    var grown := pending + [row];
    if AnyStale(committed, pending) {
      var k :| 0 <= k < |pending| && Stale(committed, pending[k]);
      assert grown[k] == pending[k];
    } else {
      var whole := committed + pending;
      assert committed + grown == whole + [row];
      assert (whole + [row])[..|whole|] == whole;
      if run.Some? {
        var r := run.value;
        MaxSeqBoundsPrefix(committed, n, r);
        RowsOfConcat(committed[..n], pending, r);
        RowsOfConcat(committed, pending, r);
        DenseNumbers(committed, r);
        DenseNumbers(whole, r);
        if RowsOf(pending, r) == [] {
          NoRowsNoMax(pending, r);
          if row.seqNo <= Count(committed, r) {
            assert Stale(committed, grown[|pending|]);
          }
        } else {
          DensePendingMax(committed, pending, r);
        }
      }
    }
  }

  lemma {:induction false} NoRowsNoMax<E>(rows: seq<Row<E>>, run: nat)
    requires RowsOf(rows, run) == []
    ensures MaxSeq(rows, run) == 0
  {
    if rows != [] { NoRowsNoMax(rows[..|rows| - 1], run); }
  }

  lemma DensePendingMax<E>(committed: seq<Row<E>>, pending: seq<Row<E>>, run: nat)
    requires Dense(committed) && Dense(committed + pending) && RowsOf(pending, run) != []
    ensures MaxSeq(pending, run) == Count(committed + pending, run)
  {
    RowsOfConcat(committed, pending, run);
    DenseNumbers(committed, run);
    DenseNumbers(committed + pending, run);
  }

  /** Two dense continuations either touch disjoint runs, and compose, or the later one is stale. */
  lemma {:induction false} OtherCommit<E>(committed: seq<Row<E>>, first: seq<Row<E>>, second: seq<Row<E>>)
    requires Dense(committed) && Dense(committed + first) && Dense(committed + second)
    ensures Sound(committed + first, second)
  {
    if second == [] {
      assert committed + first + second == committed + first;
    } else {
      var n := |second| - 1;
      var init, row := second[..n], second[n];
      assert (committed + second)[..|committed| + n] == committed + init;
      OtherCommit(committed, first, init);
      if AnyStale(committed + first, init) {
        var k :| 0 <= k < n && Stale(committed + first, init[k]);
        assert second[k] == init[k];
      } else {
        var whole := committed + first + init;
        assert committed + first + second == whole + [row];
        assert (whole + [row])[..|whole|] == whole;
        if row.run.Some? {
          var r := row.run.value;
          RowsOfConcat(committed, init, r);
          RowsOfConcat(committed, first, r);
          RowsOfConcat(committed + first, init, r);
          if RowsOf(first, r) != [] {
            StaleFirstRow(committed, first, second, r);
          }
        }
      }
    }
  }

  lemma StaleFirstRow<E>(committed: seq<Row<E>>, first: seq<Row<E>>, second: seq<Row<E>>, run: nat)
    requires Dense(committed) && Dense(committed + second)
    requires RowsOf(first, run) != [] && RowsOf(second, run) != []
    ensures AnyStale(committed + first, second)
  {
    RowsOfConcat(committed, first, run);
    var k := FirstRowOf(committed, second, run);
    assert Stale(committed + first, second[k]);
  }

  lemma {:induction false} FirstRowOf<E>(committed: seq<Row<E>>, rows: seq<Row<E>>, run: nat) returns (k: nat)
    requires Dense(committed + rows) && RowsOf(rows, run) != []
    ensures k < |rows| && rows[k].run == Some(run) && rows[k].seqNo == Count(committed, run) + 1
  {
    var n := |rows| - 1;
    assert (committed + rows)[..|committed| + n] == committed + rows[..n];
    if RowsOf(rows[..n], run) != [] {
      k := FirstRowOf(committed, rows[..n], run);
    } else {
      k := n;
      RowsOfConcat(committed, rows[..n], run);
    }
  }

  lemma StaleStaysStale<E>(committed: seq<Row<E>>, more: seq<Row<E>>, pending: seq<Row<E>>)
    requires AnyStale(committed, pending)
    ensures AnyStale(committed + more, pending)
  {
    var k :| 0 <= k < |pending| && Stale(committed, pending[k]);
    RowsOfConcat(committed, more, pending[k].run.value);
    assert Stale(committed + more, pending[k]);
  }

  lemma StaleViolates<E>(committed: seq<Row<E>>, pending: seq<Row<E>>)
    requires Dense(committed) && AnyStale(committed, pending)
    ensures AnyViolates(committed, pending)
  {
    var k :| 0 <= k < |pending| && Stale(committed, pending[k]);
    NumberIsTaken(committed, pending[k].run.value, pending[k].seqNo);
    assert Violates(committed, pending[k]);
  }

  lemma CommitKeepsInvariant<E>(s: System<E>, t: nat)
    requires Invariant(s) && t in s.open && !AnyViolates(s.committed, s.open[t])
    ensures Invariant(Next(s, Commit(t)))
  {
    var first := s.open[t];
    if AnyStale(s.committed, first) { StaleViolates(s.committed, first); }
    forall u | u in s.open && u != t ensures Sound(s.committed + first, s.open[u]) {
      if AnyStale(s.committed, s.open[u]) {
        StaleStaysStale(s.committed, first, s.open[u]);
      } else {
        OtherCommit(s.committed, first, s.open[u]);
      }
    }
  }

  lemma NextKeepsInvariant<E>(s: System<E>, a: Action<E>)
    requires Invariant(s)
    ensures Invariant(Next(s, a))
    ensures s.committed <= Next(s, a).committed
  {
    match a
    case Begin(t) =>
      assert s.committed + [] == s.committed;
    case Append(t, run, event, seen) =>
      if t in s.open {
        AppendKeepsSound(
          s.committed, s.open[t], if seen <= |s.committed| then seen else |s.committed|, run, event);
      }
    case Commit(t) =>
      if t in s.open && !AnyViolates(s.committed, s.open[t]) { CommitKeepsInvariant(s, t); }
    case Rollback(t) =>
  }

  lemma {:induction false} InvariantAlways<E>(history: seq<Action<E>>)
    ensures Invariant(After(history))
  {
    if history != [] {
      InvariantAlways(history[..|history| - 1]);
      NextKeepsInvariant(After(history[..|history| - 1]), history[|history| - 1]);
    }
  }

  /** Whatever transactions interleave, the committed numbers of every run are exactly 1..n. */
  lemma CommittedIsGapFree<E>(history: seq<Action<E>>, run: nat)
    ensures GapFree(After(history).committed, run)
  {
    InvariantAlways(history);
    DenseNumbers(After(history).committed, run);
  }

  /** Committed entries never change: later histories only extend the committed rows. */
  lemma {:induction false} CommittedOnlyGrows<E>(history: seq<Action<E>>, more: seq<Action<E>>)
    ensures After(history).committed <= After(history + more).committed
  {
    if more == [] {
      assert history + more == history;
    } else {
      var n := |more| - 1;
      assert (history + more)[..|history + more| - 1] == history + more[..n];
      CommittedOnlyGrows(history, more[..n]);
      InvariantAlways(history + more[..n]);
      NextKeepsInvariant(After(history + more[..n]), more[n]);
    }
  }
}
