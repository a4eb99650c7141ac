/** Shared vocabulary: optional values, results, and the exact-number helpers. */
module Common {
  datatype Option<+T> = None | Some(value: T)

  datatype Result<+T, +E> = Ok(value: T) | Err(error: E)

  function Max(a: real, b: real): real {
    if a >= b then a else b
  }

  function Min(a: real, b: real): real {
    if a <= b then a else b
  }

  function Abs(a: real): real {
    if a >= 0.0 then a else -a
  }

  function OrZero(x: Option<real>): real {
    if x.Some? then x.value else 0.0
  }

  function Listed<T>(x: Option<T>): seq<T> {
    if x.Some? then [x.value] else []
  }

  /** Concatenation of a list of lists. */
  function Flat<T>(parts: seq<seq<T>>): seq<T> {
    if parts == [] then [] else Flat(parts[..|parts| - 1]) + parts[|parts| - 1]
  }

  lemma FlatOfAppended<T>(parts: seq<seq<T>>, last: seq<T>)
    ensures Flat(parts + [last]) == Flat(parts) + last
  {
    assert (parts + [last])[..|parts|] == parts;
  }

  lemma {:induction false} FlatOfConcat<T>(p: seq<seq<T>>, q: seq<seq<T>>)
    ensures Flat(p + q) == Flat(p) + Flat(q)
  {
    if q == [] {
      assert p + q == p;
    } else {
      var n := |q| - 1;
      assert (p + q)[..|p + q| - 1] == p + q[..n];
      FlatOfConcat(p, q[..n]);
    }
  }

  function Without<T>(s: seq<T>, k: nat): seq<T>
    requires k < |s|
  {
    s[..k] + s[k + 1..]
  }

  lemma BagWithout<T>(s: seq<T>, k: nat)
    requires k < |s|
    ensures multiset(s) == multiset(Without(s, k)) + multiset{s[k]}
  {
    assert s == s[..k] + [s[k]] + s[k + 1..];
  }

  /** Two lists with the same bag agree on the rest once an equal element is dropped from each. */
  lemma MatchingElement<T>(p: seq<T>, q: seq<T>) returns (k: nat)
    requires multiset(p) == multiset(q) && p != []
    ensures k < |q| && q[k] == p[|p| - 1]
    ensures multiset(p[..|p| - 1]) == multiset(Without(q, k))
  {
    var n := |p| - 1;
    assert p[n] in multiset(q);
    k :| 0 <= k < |q| && q[k] == p[n];
    BagWithout(p, n);
    BagWithout(q, k);
    assert Without(p, n) == p[..n];
    assert multiset(p[..n]) == multiset(p) - multiset{p[n]};
    assert multiset(Without(q, k)) == multiset(q) - multiset{p[n]};
  }

  lemma FlatAround<T>(before: seq<seq<T>>, x: seq<T>, after: seq<seq<T>>)
    ensures Flat(before + [x] + after) == Flat(before) + x + Flat(after)
  {
    FlatOfConcat(before + [x], after);
    FlatOfAppended(before, x);
  }

  lemma FlatBagAround<T>(before: seq<seq<T>>, x: seq<T>, after: seq<seq<T>>)
    ensures multiset(Flat(before + [x] + after)) == multiset(Flat(before + after)) + multiset(x)
  {
    FlatAround(before, x, after);
    FlatOfConcat(before, after);
    BagOfInserted(Flat(before), x, Flat(after));
  }

  lemma SplitAt<T>(s: seq<T>, k: nat) returns (before: seq<T>, after: seq<T>)
    requires k < |s|
    ensures s == before + [s[k]] + after && Without(s, k) == before + after
  {
    before, after := s[..k], s[k + 1..];
  }

  lemma FlatWithout<T>(parts: seq<seq<T>>, k: nat)
    requires k < |parts|
    ensures multiset(Flat(parts)) == multiset(Flat(Without(parts, k))) + multiset(parts[k])
  {
    var before, after := SplitAt(parts, k);
    FlatBagAround(before, parts[k], after);
  }

  lemma BagOfInserted<T>(a: seq<T>, x: seq<T>, b: seq<T>)
    ensures multiset(a + x + b) == multiset(a + b) + multiset(x)
  {}

  /** Concatenating the same parts in another order yields the same bag. */
  lemma {:induction false} FlatOfSameBag<T>(p: seq<seq<T>>, q: seq<seq<T>>)
    requires multiset(p) == multiset(q)
    ensures multiset(Flat(p)) == multiset(Flat(q))
    decreases |p|
  {
    if p == [] {
      assert |multiset(q)| == 0;
    } else {
      var k := MatchingElement(p, q);
      FlatOfSameBag(p[..|p| - 1], Without(q, k));
      FlatWithout(q, k);
      FlatWithout(p, |p| - 1);
      assert Without(p, |p| - 1) == p[..|p| - 1];
    }
  }
}
