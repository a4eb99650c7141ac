/** Near-duplicate detection: the feature-hashing embedder, the salient text it is
    fed, and the ranked similarity search. */
module NearDup {
  import opened Common
  import opened Text
  import opened Vectors

  const EMBEDDING_DIM: nat := 768
  const SIMILARITY_THRESHOLD := 0.90
  const TOP_K := 5

  // ------------------------------------------------------------------ the embedder

  function Tokens(text: string): seq<string> {
    Words(Casefold(text))
  }

  /** The tokens of a text are its words in lower case. */
  lemma TokensAreTheWords(text: string, parts: seq<string>, k: nat)
    requires LaidOut(text, parts)
    ensures |Tokens(text)| == |parts|
    ensures k < |parts| ==>
              SameLetters(parts[k], Tokens(text)[k])
              && forall j :: 0 <= j < |Tokens(text)[k]| ==> !('A' <= Tokens(text)[k][j] <= 'Z')
  {
    WordsAreTheParts(text, parts);
    WordsOfCasefold(text);
    if k < |parts| { assert Tokens(text)[k] == Casefold(parts[k]); }
    hide Words, LaidOut;
  }

  function BucketOf(hash: string -> nat, token: string, dim: nat): (b: nat)
    requires dim > 0
    ensures b < dim
  {
    hash(token) % dim
  }

  /** Token counts per bucket, before normalisation. */
  function Counts(hash: string -> nat, tokens: seq<string>, dim: nat): (v: seq<real>)
    requires dim > 0
    ensures |v| == dim
  {
    if tokens == [] then seq(dim, i => 0.0)
    else
      var v := Counts(hash, tokens[..|tokens| - 1], dim);
      var b := BucketOf(hash, tokens[|tokens| - 1], dim);
      v[b := v[b] + 1.0]
  }

  ghost predicate IsSquareRoot(sqrt: real -> real) {
    forall x: real :: x >= 0.0 ==> sqrt(x) >= 0.0 && sqrt(x) * sqrt(x) == x
  }

  /** `v` is the embedding of the tokens: their counts, scaled by a positive factor. */
  predicate Embeds(hash: string -> nat, tokens: seq<string>, c: real, v: seq<real>) {
    c > 0.0 && v == Scale(c, Counts(hash, tokens, EMBEDDING_DIM))
  }

  /** The counting loop of the embedder. */
  method CountTokens(hash: string -> nat, tokens: seq<string>, dim: nat) returns (vec: array<real>)
    requires dim > 0
    ensures fresh(vec) && vec[..] == Counts(hash, tokens, dim)
  {
    vec := new real[dim](i => 0.0);
    assert vec[..] == Counts(hash, [], dim);
    for i := 0 to |tokens|
      invariant vec[..] == Counts(hash, tokens[..i], dim)
    {
      assert tokens[..i + 1][..i] == tokens[..i];
      var bucket := BucketOf(hash, tokens[i], dim);
      vec[bucket] := vec[bucket] + 1.0;
    }
    assert tokens[..|tokens|] == tokens;
  }

  /** The embedder: counts, then every entry divided by the norm. An empty text is refused, and so is
      a dimension that is not positive. */
  method Embed(hash: string -> nat, sqrt: real -> real, text: string, dim: int) returns (r: Result<array<real>, string>)
    requires IsSquareRoot(sqrt)
    ensures r.Err? <==> dim <= 0 || Tokens(text) == []
    ensures r.Ok? ==> fresh(r.value) && NormSq(r.value[..]) == 1.0
    ensures r.Ok? ==> var norm := sqrt(NormSq(Counts(hash, Tokens(text), dim)));
                      norm > 0.0 && 1.0 / norm > 0.0
                      && r.value[..] == Scale(1.0 / norm, Counts(hash, Tokens(text), dim))
  {
    if dim <= 0 {
      return Err("embedding dimension must be positive");
    }
    var tokens := Tokens(text);
    var vec := CountTokens(hash, tokens, dim);
    ghost var counts := vec[..];
    NormSqNonNegative(counts);
    var norm := sqrt(NormSq(vec[..]));
    NormIsZeroIffEmpty(hash, tokens, dim, norm);
    if norm == 0.0 {
      return Err("cannot embed empty text");
    }
    DivisionScales(1.0, norm);
    UnitNorm(counts, norm);
    hide NormSq, Counts, Scale, Tokens;
    DivideByNorm(vec, norm);
    r := Ok(vec);
  }

  method DivideByNorm(vec: array<real>, norm: real)
    requires norm > 0.0
    modifies vec
    ensures vec[..] == Scale(1.0 / norm, old(vec[..]))
  {
    for i := 0 to vec.Length
      invariant forall k :: 0 <= k < i ==> vec[k] == Times(1.0 / norm, old(vec[k]))
      invariant forall k :: i <= k < vec.Length ==> vec[k] == old(vec[k])
    {
      DivisionScales(vec[i], norm);
      vec[i] := vec[i] / norm;
    }
  }

  lemma DivisionScales(x: real, norm: real)
    requires norm > 0.0
    ensures x / norm == Times(1.0 / norm, x) && 1.0 / norm > 0.0
  {}

  lemma SquareIsZero(x: real)
    requires x >= 0.0
    ensures x * x == 0.0 <==> x == 0.0
  {
    if x > 0.0 {
      var square := ProductOf(x, x);
      assert square != 0.0;
    }
  }

  lemma NormIsZeroIffEmpty(hash: string -> nat, tokens: seq<string>, dim: nat, norm: real)
    requires dim > 0 && norm >= 0.0 && norm * norm == NormSq(Counts(hash, tokens, dim))
    ensures norm == 0.0 <==> tokens == []
  {
    CountsNorm(hash, tokens, dim);
    ZeroTotals(dim);
    SquareIsZero(norm);
    hide NormSq;
  }

  predicate WholeCounts(v: seq<real>) {
    forall i :: 0 <= i < |v| ==> v[i] == 0.0 || v[i] >= 1.0
  }

  lemma {:induction false} ZeroTotals(dim: nat)
    ensures Total(seq(dim, i => 0.0)) == 0.0 && NormSq(seq(dim, i => 0.0)) == 0.0
  {
    if dim > 0 {
      assert seq(dim, i => 0.0)[..dim - 1] == seq(dim - 1, i => 0.0);
      ZeroTotals(dim - 1);
    }
  }

  lemma {:induction false} TotalBelowNorm(v: seq<real>)
    requires WholeCounts(v)
    ensures Total(v) <= NormSq(v)
  {
    if v != [] {
      var n := |v| - 1;
      TotalBelowNorm(v[..n]);
      if v[n] >= 1.0 { Monotone(v[n], 1.0, v[n]); }
    }
  }

  lemma {:induction false} CountsTotal(hash: string -> nat, tokens: seq<string>, dim: nat)
    requires dim > 0
    ensures WholeCounts(Counts(hash, tokens, dim))
    ensures Total(Counts(hash, tokens, dim)) == |tokens| as real
  {
    if tokens == [] {
      ZeroTotals(dim);
    } else {
      var init := tokens[..|tokens| - 1];
      CountsTotal(hash, init, dim);
      var v := Counts(hash, init, dim);
      var b := BucketOf(hash, tokens[|tokens| - 1], dim);
      NormSqOfUpdate(v, b, v[b] + 1.0);
    }
  }

  /** n tokens give a vector whose squared norm is at least n, whatever collides. */
  lemma CountsNorm(hash: string -> nat, tokens: seq<string>, dim: nat)
    requires dim > 0
    ensures NormSq(Counts(hash, tokens, dim)) >= |tokens| as real
  {
    CountsTotal(hash, tokens, dim);
    TotalBelowNorm(Counts(hash, tokens, dim));
  }

  function InBucket(hash: string -> nat, tokens: seq<string>, dim: nat, b: nat): set<nat>
    requires dim > 0
  {
    set k: nat | k < |tokens| && hash(tokens[k]) % dim == b
  }

  lemma BucketGrows(hash: string -> nat, tokens: seq<string>, dim: nat, b: nat)
    requires dim > 0 && tokens != []
    ensures |InBucket(hash, tokens, dim, b)|
         == |InBucket(hash, tokens[..|tokens| - 1], dim, b)|
            + if hash(tokens[|tokens| - 1]) % dim == b then 1 else 0
  {
    var n := |tokens| - 1;
    var before, now := InBucket(hash, tokens[..n], dim, b), InBucket(hash, tokens, dim, b);
    assert now == before + if hash(tokens[n]) % dim == b then {n} else {};
  }

  /** Each bucket holds the number of tokens whose hash falls into it. */
  lemma {:induction false} CountsAreBucketSizes(hash: string -> nat, tokens: seq<string>, dim: nat, b: nat)
    requires b < dim
    ensures Counts(hash, tokens, dim)[b] == |InBucket(hash, tokens, dim, b)| as real
  {
    if tokens == [] {
      assert InBucket(hash, tokens, dim, b) == {};
    } else {
      CountsAreBucketSizes(hash, tokens[..|tokens| - 1], dim, b);
      BucketGrows(hash, tokens, dim, b);
      hide InBucket;
    }
  }

  // ------------------------------------------------------------------ locality

  /** How many positions of two equally long token lists differ. */
  function Substitutions(p: seq<string>, q: seq<string>): nat
    requires |p| == |q|
  {
    if p == [] then 0
    else
      var n := |p| - 1;
      Substitutions(p[..n], q[..n]) + (if p[n] == q[n] then 0 else 1)
  }

  predicate EntriesWithin(d: seq<real>, k: real) {
    forall i :: 0 <= i < |d| ==> -k <= d[i] <= k
  }

  /** 2 k^2, the squared distance that k substitutions can cause at most. */
  function DistanceBound(k: nat): real {
    2.0 * (k * k) as real
  }

  lemma DistanceBoundGrows(k: nat)
    ensures DistanceBound(k + 1) == DistanceBound(k) + 4.0 * k as real + 2.0
  {
    assert (k + 1) * (k + 1) == k * k + 2 * k + 1;
  }

  lemma ShiftEntry(d: seq<real>, i: nat, s: real)
    requires i < |d| && (s == 1.0 || s == -1.0)
    ensures NormSq(d[i := d[i] + s]) == NormSq(d) + 2.0 * s * d[i] + 1.0
  {
    NormSqOfUpdate(d, i, d[i] + s);
    ExpandSquare(d[i], s);
  }

  lemma ExpandSquare(x: real, s: real)
    requires s == 1.0 || s == -1.0
    ensures (x + s) * (x + s) == x * x + 2.0 * s * x + 1.0
  {}

  /** Moving one count from bucket b to bucket a. */
  function Moved(d: seq<real>, a: nat, b: nat): seq<real>
    requires a < |d| && b < |d|
  {
    var e := d[a := d[a] + 1.0];
    e[b := e[b] - 1.0]
  }

  lemma MoveOneCount(d: seq<real>, a: nat, b: nat, k: nat)
    requires a < |d| && b < |d|
    requires EntriesWithin(d, k as real) && NormSq(d) <= DistanceBound(k)
    ensures EntriesWithin(Moved(d, a, b), (k + 1) as real) && NormSq(Moved(d, a, b)) <= DistanceBound(k + 1)
  {
    var e := d[a := d[a] + 1.0];
    ShiftEntry(d, a, 1.0);
    ShiftEntry(e, b, -1.0);
    assert Moved(d, a, b) == e[b := e[b] + -1.0];
    DistanceBoundGrows(k);
  }

  lemma DifferenceAfterTokens(u: seq<real>, v: seq<real>, a: nat, b: nat)
    requires |u| == |v| && a < |u| && b < |u|
    ensures Difference(u[a := u[a] + 1.0], v[b := v[b] + 1.0]) == Moved(Difference(u, v), a, b)
    ensures a == b ==> Moved(Difference(u, v), a, b) == Difference(u, v)
  {}

  lemma {:induction false} SubstitutionDistance(hash: string -> nat, p: seq<string>, q: seq<string>, dim: nat)
    requires |p| == |q| && dim > 0
    ensures var d := Difference(Counts(hash, p, dim), Counts(hash, q, dim));
            EntriesWithin(d, Substitutions(p, q) as real) && NormSq(d) <= DistanceBound(Substitutions(p, q))
  {
    if p == [] {
      assert Difference(Counts(hash, p, dim), Counts(hash, q, dim)) == seq(dim, i => 0.0);
      ZeroTotals(dim);
    } else {
      var n := |p| - 1;
      SubstitutionDistance(hash, p[..n], q[..n], dim);
      var u, v := Counts(hash, p[..n], dim), Counts(hash, q[..n], dim);
      var a, b := BucketOf(hash, p[n], dim), BucketOf(hash, q[n], dim);
      DifferenceAfterTokens(u, v, a, b);
      if p[n] != q[n] {
        MoveOneCount(Difference(u, v), a, b, Substitutions(p[..n], q[..n]));
      }
    }
  }

  function Squared(k: nat): real {
    (k * k) as real
  }

  /** (n * dot)^2 >= (n - m)^2 * a * b: the cosine is at least 1 - m/n, on squares. */
  predicate CosineAtLeast(n: real, m: real, dot: real, a: real, b: real) {
    dot > 0.0 && (n * dot) * (n * dot) >= ((n - m) * (n - m)) * (a * b)
  }

  /** Two texts of n tokens that differ in k tokens with k * k < n have cosine at least 1 - k*k/n. */
  lemma Locality(hash: string -> nat, p: seq<string>, q: seq<string>, dim: nat)
    requires |p| == |q| && dim > 0
    requires Substitutions(p, q) * Substitutions(p, q) < |p|
    ensures CosineAtLeast(
              |p| as real, Squared(Substitutions(p, q)),
              Dot(Counts(hash, p, dim), Counts(hash, q, dim)),
              NormSq(Counts(hash, p, dim)), NormSq(Counts(hash, q, dim)))
  {
    var u, v := Counts(hash, p, dim), Counts(hash, q, dim);
    CountsNorm(hash, p, dim);
    CountsNorm(hash, q, dim);
    SubstitutionDistance(hash, p, q, dim);
    DotFromNorms(u, v);
    NormSqNonNegative(Difference(u, v));
    CosineFromSubstitutions(NormSq(u), NormSq(v), Dot(u, v), NormSq(Difference(u, v)), |p|, Substitutions(p, q));
  }

  lemma CosineFromSubstitutions(a: real, b: real, dot: real, dist: real, n: nat, k: nat)
    requires a >= n as real && b >= n as real && k * k < n
    requires 0.0 <= dist <= DistanceBound(k) && 2.0 * dot == a + b - dist
    ensures CosineAtLeast(n as real, Squared(k), dot, a, b)
  {
    var m := k * k;
    SquareNonNegative(k as real);
    CosineFromDistance(a, b, dot, dist, n as real, m as real);
  }

  lemma {:induction false} NormSqNonNegative(u: seq<real>)
    ensures NormSq(u) >= 0.0
  {
    if u != [] {
      NormSqNonNegative(u[..|u| - 1]);
      SquareNonNegative(u[|u| - 1]);
    }
  }

  /** k of n tokens changed, with ten times k squared still below n. */
  predicate FewChanges(p: seq<string>, q: seq<string>) {
    |p| == |q| && 10 * (Substitutions(p, q) * Substitutions(p, q)) < |p|
  }

  /** The cosine is strictly above nine tenths, on squares. */
  predicate Close(u: seq<real>, v: seq<real>)
    requires |u| == |v|
  {
    Dot(u, v) > 0.0 && Dot(u, v) * Dot(u, v) > 0.81 * (NormSq(u) * NormSq(v))
  }

  lemma CloserIsClose(u: seq<real>, v: seq<real>)
    requires |u| == |v|
    ensures CloserThan(u, v, SIMILARITY_THRESHOLD) <==> Close(u, v)
  {
    hide Dot, NormSq;
  }

  lemma FewIsFarBelow(k: nat, n: nat)
    requires 10 * (k * k) < n
    ensures k * k < n && 0.0 <= 10.0 * Squared(k) < n as real
  {
    SquareNonNegative(k as real);
  }

  /** Few changed tokens stay strictly above the threshold. */
  lemma FewChangesAreNear(hash: string -> nat, p: seq<string>, q: seq<string>)
    requires FewChanges(p, q)
    ensures Close(Counts(hash, p, EMBEDDING_DIM), Counts(hash, q, EMBEDDING_DIM))
  {
    FewIsFarBelow(Substitutions(p, q), |p|);
    Locality(hash, p, q, EMBEDDING_DIM);
    CountsNorm(hash, p, EMBEDDING_DIM);
    CountsNorm(hash, q, EMBEDDING_DIM);
    hide Counts, Dot, NormSq, Squared, CosineAtLeast, Substitutions, RatioAbove, Close;
    var u, v := Counts(hash, p, EMBEDDING_DIM), Counts(hash, q, EMBEDDING_DIM);
    CloserIsClose(u, v);
    AboveNineTenths(|p| as real, Squared(Substitutions(p, q)), Dot(u, v), NormSq(u), NormSq(v));
  }

  lemma AboveNineTenths(n: real, m: real, p: real, a: real, b: real)
    requires 0.0 <= 10.0 * m < n && a > 0.0 && b > 0.0
    requires CosineAtLeast(n, m, p, a, b)
    ensures RatioAbove(p, a, b, 0.90)
  {
    var ab := ProductOf(a, b);
    var nn := ProductOf(n, n);
    var x := SquareAbove(n, n - m, nn);
    StrictMonotone(ab, 0.81 * nn, x);
    SquareOfProduct(n, nn, p);
    var y := p * p;
    assert nn * y > 0.81 * nn * ab;
    if y <= 0.81 * ab { Monotone(nn, y, 0.81 * ab); }
  }

  lemma SquareAbove(n: real, w: real, nn: real) returns (x: real)
    requires n > 0.0 && w > 0.9 * n && nn == n * n
    ensures x == w * w && x > 0.81 * nn
  {
    x := w * w;
    var v := 0.9 * n;
    assert v * v == 0.81 * nn;
    Monotone(v, v, w);
    StrictMonotone(w, v, w);
  }

  lemma StrictMonotone(k: real, x: real, y: real)
    requires k > 0.0 && x < y
    ensures k * x < k * y
  {}

  // ------------------------------------------------------------------ salient text

  /** The string renderings of the identity fields; None where the extraction has nothing. */
  datatype SalientLine = SalientLine(
    description: Option<string>, qty: Option<string>, unitPrice: Option<string>, lineTotal: Option<string>)

  datatype SalientInvoice = SalientInvoice(
    vendorName: Option<string>, invoiceNumber: Option<string>, issueDate: Option<string>,
    dueDate: Option<string>, currency: Option<string>, totalAmount: Option<string>,
    taxTotal: Option<string>, iban: Option<string>,
    lines: seq<SalientLine>)

  function NormValue(value: Option<string>): string {
    if value.None? then "unknown" else JoinWords(Words(Casefold(value.value)))
  }

  function NatString(n: nat): string {
    var digit := [('0' as int + n % 10) as char];
    if n < 10 then digit else NatString(n / 10) + digit
  }

  function HeaderParts(x: SalientInvoice): seq<string> {
    ["vendor_name:" + NormValue(x.vendorName),
     "invoice_number:" + NormValue(x.invoiceNumber),
     "issue_date:" + NormValue(x.issueDate),
     "due_date:" + NormValue(x.dueDate),
     "currency:" + NormValue(x.currency),
     "total_amount:" + NormValue(x.totalAmount),
     "tax_total:" + NormValue(x.taxTotal),
     "iban:" + NormValue(x.iban)]
  }

  function LineParts(i: nat, line: SalientLine): seq<string> {
    var prefix := "line" + NatString(i);
    [prefix + ".description:" + NormValue(line.description),
     prefix + ".qty:" + NormValue(line.qty),
     prefix + ".unit_price:" + NormValue(line.unitPrice),
     prefix + ".line_total:" + NormValue(line.lineTotal)]
  }

  function SalientParts(x: SalientInvoice, n: nat): seq<string>
    requires n <= |x.lines|
  {
    if n == 0 then HeaderParts(x) else SalientParts(x, n - 1) + LineParts(n - 1, x.lines[n - 1])
  }

  method SalientText(x: SalientInvoice) returns (text: string)
    ensures text == JoinWords(SalientParts(x, |x.lines|))
  {
    var parts := HeaderParts(x);
    for i := 0 to |x.lines|
      invariant parts == SalientParts(x, i)
    {
      parts := parts + LineParts(i, x.lines[i]);
    }
    text := JoinWords(parts);
  }

  /** The parts by name: the eight header fields, then four for each line, numbered from zero. */
  lemma {:induction false} SalientPartsByName(x: SalientInvoice, n: nat, i: nat)
    requires i < n <= |x.lines|
    ensures |SalientParts(x, n)| == 8 + 4 * n
    ensures SalientParts(x, n)[..8]
         == ["vendor_name:" + NormValue(x.vendorName), "invoice_number:" + NormValue(x.invoiceNumber),
             "issue_date:" + NormValue(x.issueDate), "due_date:" + NormValue(x.dueDate),
             "currency:" + NormValue(x.currency), "total_amount:" + NormValue(x.totalAmount),
             "tax_total:" + NormValue(x.taxTotal), "iban:" + NormValue(x.iban)]
    ensures SalientParts(x, n)[8 + 4 * i..12 + 4 * i]
         == ["line" + NatString(i) + ".description:" + NormValue(x.lines[i].description),
             "line" + NatString(i) + ".qty:" + NormValue(x.lines[i].qty),
             "line" + NatString(i) + ".unit_price:" + NormValue(x.lines[i].unitPrice),
             "line" + NatString(i) + ".line_total:" + NormValue(x.lines[i].lineTotal)]
  {
    hide NormValue, NatString;
    var before := SalientParts(x, n - 1);
    SalientPartsStart(x, n - 1);
    SalientPartsStart(x, n);
    if i < n - 1 {
      SalientPartsByName(x, n - 1, i);
      assert SalientParts(x, n)[8 + 4 * i..12 + 4 * i] == before[8 + 4 * i..12 + 4 * i];
    } else {
      assert SalientParts(x, n)[8 + 4 * i..12 + 4 * i] == LineParts(i, x.lines[i]);
    }
  }

  lemma {:induction false} SalientPartsStart(x: SalientInvoice, n: nat)
    requires n <= |x.lines|
    ensures |SalientParts(x, n)| == 8 + 4 * n && SalientParts(x, n)[..8] == HeaderParts(x)
  {
    hide HeaderParts, LineParts;
    HeaderHasEight(x);
    if n > 0 {
      SalientPartsStart(x, n - 1);
      LineHasFour(n - 1, x.lines[n - 1]);
      assert SalientParts(x, n)[..8] == SalientParts(x, n - 1)[..8];
    }
  }

  lemma HeaderHasEight(x: SalientInvoice)
    ensures |HeaderParts(x)| == 8
  {}

  lemma LineHasFour(i: nat, line: SalientLine)
    ensures |LineParts(i, line)| == 4
  {}

  lemma WordsAreSolid(s: string)
    ensures forall k :: 0 <= k < |Words(s)| ==> Solid(Words(s)[k])
  {
    var gaps := EveryStringIsLaid(s);
  }

  /** A value that is there is rendered the same exactly when its words agree but for letter case; one that
      is not there reads "unknown". */
  lemma NormValueForgetsSpelling(a: string, b: string)
    ensures NormValue(Some(a)) == NormValue(Some(b)) <==> SameName(a, b)
    ensures NormValue(None) == "unknown"
  {
    hide Casefold, Words, JoinWords, SameName, Solid;
    SameNameIff(a, b);
    WordsAreSolid(Casefold(a));
    WordsAreSolid(Casefold(b));
    WordsOfJoinedWords(Words(Casefold(a)));
    WordsOfJoinedWords(Words(Casefold(b)));
  }

  predicate StartsVisibly(s: string) {
    s != "" && !IsSpace(s[0])
  }

  predicate AllStartVisibly(parts: seq<string>) {
    forall i :: 0 <= i < |parts| ==> StartsVisibly(parts[i])
  }

  lemma LinePartsStartVisibly(i: nat, line: SalientLine)
    ensures AllStartVisibly(LineParts(i, line))
  {
    var prefix := "line" + NatString(i);
    assert prefix[0] == 'l';
    forall k | 0 <= k < 4 ensures StartsVisibly(LineParts(i, line)[k]) {
      assert LineParts(i, line)[k][0] == 'l';
    }
  }

  lemma {:induction false} SalientPartsCount(x: SalientInvoice, n: nat)
    requires n <= |x.lines|
    ensures |SalientParts(x, n)| == 8 + 4 * n && AllStartVisibly(SalientParts(x, n))
  {
    if n > 0 {
      SalientPartsCount(x, n - 1);
      LinePartsStartVisibly(n - 1, x.lines[n - 1]);
    }
  }

  /** Every identity field contributes at least one token: eight, plus four per invoice line. */
  lemma SalientTokenCount(x: SalientInvoice, text: string)
    requires text == JoinWords(SalientParts(x, |x.lines|))
    ensures |Tokens(text)| >= 8 + 4 * |x.lines|
  {
    SalientPartsCount(x, |x.lines|);
    var parts := SalientParts(x, |x.lines|);
    assert forall i :: 0 <= i < |parts| ==> StartsVisibly(parts[i]);
    JoinKeepsParts(parts);
    WordsOfCasefold(text);
  }

  // ------------------------------------------------------------------ similarity search

  /** A hit keeps the square of its similarity, which ranks hits as the similarity does. */
  datatype NearDupHit = NearDupHit(invoiceId: nat, similaritySq: real)

  type Embedding = v: seq<real> | |v| == EMBEDDING_DIM witness seq(EMBEDDING_DIM, i => 0.0)

  predicate IsNear(stored: Option<Embedding>, query: Embedding) {
    stored.Some? && CloserThan(stored.value, query, SIMILARITY_THRESHOLD)
  }

  function SimilaritySq(u: Embedding, v: Embedding): real {
    var scale := NormSq(u) * NormSq(v);
    if scale == 0.0 then 0.0 else Dot(u, v) * Dot(u, v) / scale
  }

  function HitFor(corpus: seq<Option<Embedding>>, i: nat, query: Embedding): NearDupHit
    requires i < |corpus| && corpus[i].Some?
  {
    NearDupHit(i, SimilaritySq(corpus[i].value, query))
  }

  function InsertByRank(hits: seq<NearDupHit>, h: NearDupHit): seq<NearDupHit> {
    if hits == [] || hits[|hits| - 1].similaritySq >= h.similaritySq then hits + [h]
    else InsertByRank(hits[..|hits| - 1], h) + [hits[|hits| - 1]]
  }

  /** The rows the query keeps, best first. */
  function Candidates(corpus: seq<Option<Embedding>>, self: nat, query: Embedding): seq<NearDupHit> {
    if corpus == [] then []
    else
      var n := |corpus| - 1;
      var before := Candidates(corpus[..n], self, query);
      if n != self && IsNear(corpus[n], query) then InsertByRank(before, HitFor(corpus, n, query)) else before
  }

  function FindSimilar(corpus: seq<Option<Embedding>>, self: nat, query: Embedding): seq<NearDupHit> {
    var all := Candidates(corpus, self, query);
    if |all| <= TOP_K then all else all[..TOP_K]
  }

  predicate Ranked(hits: seq<NearDupHit>) {
    forall i, j :: 0 <= i < j < |hits| ==> hits[i].similaritySq >= hits[j].similaritySq
  }

  lemma {:induction false} InsertedMembers(hits: seq<NearDupHit>, h: NearDupHit, x: NearDupHit)
    ensures x in InsertByRank(hits, h) <==> x in hits || x == h
  {
    if hits != [] && hits[|hits| - 1].similaritySq < h.similaritySq {
      var n := |hits| - 1;
      InsertedMembers(hits[..n], h, x);
      assert hits == hits[..n] + [hits[n]];
    }
  }

  predicate AllAtLeast(hits: seq<NearDupHit>, bound: real) {
    forall i :: 0 <= i < |hits| ==> hits[i].similaritySq >= bound
  }

  lemma RankedAppend(hits: seq<NearDupHit>, last: NearDupHit)
    requires Ranked(hits) && AllAtLeast(hits, last.similaritySq)
    ensures Ranked(hits + [last])
  {}

  lemma {:induction false} InsertKeepsRank(hits: seq<NearDupHit>, h: NearDupHit)
    requires Ranked(hits)
    ensures Ranked(InsertByRank(hits, h))
  {
    if hits == [] || hits[|hits| - 1].similaritySq >= h.similaritySq {
      RankedAppend(hits, h);
    } else {
      var n := |hits| - 1;
      var init, last := hits[..n], hits[n];
      InsertKeepsRank(init, h);
      var placed := InsertByRank(init, h);
      forall i | 0 <= i < |placed| ensures placed[i].similaritySq >= last.similaritySq {
        InsertedMembers(init, h, placed[i]);
      }
      RankedAppend(placed, last);
    }
  }

  predicate QualifiesAs(corpus: seq<Option<Embedding>>, self: nat, query: Embedding, h: NearDupHit) {
    h.invoiceId < |corpus| && h.invoiceId != self
    && IsNear(corpus[h.invoiceId], query) && h == HitFor(corpus, h.invoiceId, query)
  }

  lemma {:induction false} CandidatesAreTheNearRows(corpus: seq<Option<Embedding>>, self: nat, query: Embedding)
    ensures Ranked(Candidates(corpus, self, query))
    ensures forall h :: h in Candidates(corpus, self, query) <==> QualifiesAs(corpus, self, query, h)
  {
    if corpus != [] {
      var n := |corpus| - 1;
      var init := corpus[..n];
      CandidatesAreTheNearRows(init, self, query);
      var before, now := Candidates(init, self, query), Candidates(corpus, self, query);
      if n != self && IsNear(corpus[n], query) {
        InsertKeepsRank(before, HitFor(corpus, n, query));
        forall h ensures h in now <==> h in before || h == HitFor(corpus, n, query) {
          InsertedMembers(before, HitFor(corpus, n, query), h);
        }
      }
      forall h ensures h in now <==> QualifiesAs(corpus, self, query, h) {
        if h.invoiceId < n {
          assert init[h.invoiceId] == corpus[h.invoiceId];
        }
      }
    }
  }

  lemma {:induction false} ZeroNormZeroDot(u: seq<real>, v: seq<real>)
    requires |u| == |v| && NormSq(u) == 0.0
    ensures Dot(u, v) == 0.0
  {
    if u != [] {
      var n := |u| - 1;
      NormSqNonNegative(u[..n]);
      SquareNonNegative(u[n]);
      assert u[n] == 0.0 by {
        if u[n] != 0.0 { var square := ProductOf(Abs(u[n]), Abs(u[n])); }
      }
      ZeroNormZeroDot(u[..n], v[..n]);
    }
  }

  /** A vector close to another is not zero, and neither is the other. */
  lemma CloseIsNotZero(u: Embedding, v: Embedding)
    requires Close(u, v)
    ensures NormSq(u) * NormSq(v) > 0.0
    ensures SimilaritySq(u, v) == Dot(u, v) * Dot(u, v) / (NormSq(u) * NormSq(v))
  {
    NormSqNonNegative(u);
    NormSqNonNegative(v);
    if NormSq(u) == 0.0 { ZeroNormZeroDot(u, v); }
    if NormSq(v) == 0.0 { ZeroNormZeroDot(v, u); DotCommutes(u, v); }
    hide Dot, NormSq;
    var product := ProductOf(NormSq(u), NormSq(v));
  }

  /** Row `i` is somebody else's stored vector, close to the query. */
  predicate CloseRow(corpus: seq<Option<Embedding>>, self: nat, query: Embedding, i: nat) {
    i < |corpus| && i != self && corpus[i].Some? && Close(corpus[i].value, query)
  }

  lemma QualifyingIsClose(corpus: seq<Option<Embedding>>, self: nat, query: Embedding, h: NearDupHit)
    ensures QualifiesAs(corpus, self, query, h)
       <==> CloseRow(corpus, self, query, h.invoiceId) && h == HitFor(corpus, h.invoiceId, query)
  {
    hide Close, CloserThan, SimilaritySq;
    if h.invoiceId < |corpus| && corpus[h.invoiceId].Some? { CloserIsClose(corpus[h.invoiceId].value, query); }
  }

  /** There is a hit exactly when somebody else's stored vector is close. */
  lemma SomeHitIffSomeClose(corpus: seq<Option<Embedding>>, self: nat, query: Embedding)
    ensures FindSimilar(corpus, self, query) != [] <==> exists i: nat :: CloseRow(corpus, self, query, i)
  {
    hide CloseRow, QualifiesAs, SimilaritySq;
    var all := Candidates(corpus, self, query);
    CandidatesAreTheNearRows(corpus, self, query);
    if all != [] {
      assert all[0] in all;
      QualifyingIsClose(corpus, self, query, all[0]);
    }
    if i: nat :| CloseRow(corpus, self, query, i) {
      CloseRowIsStored(corpus, self, query, i);
      QualifyingIsClose(corpus, self, query, HitFor(corpus, i, query));
    }
  }

  lemma CloseRowIsStored(corpus: seq<Option<Embedding>>, self: nat, query: Embedding, i: nat)
    requires CloseRow(corpus, self, query, i)
    ensures i < |corpus| && corpus[i].Some? && HitFor(corpus, i, query).invoiceId == i
  {}

  /** A query at right angles to everything stored finds nothing. */
  lemma UnrelatedFindsNothing(corpus: seq<Option<Embedding>>, self: nat, query: Embedding)
    requires forall i :: 0 <= i < |corpus| && corpus[i].Some? ==> Dot(corpus[i].value, query) == 0.0
    ensures FindSimilar(corpus, self, query) == []
  {
    hide Dot, NormSq;
    SomeHitIffSomeClose(corpus, self, query);
  }

  lemma LeftOutIsBehind(all: seq<NearDupHit>, n: nat, h: NearDupHit)
    requires Ranked(all) && n <= |all| && h in all && h !in all[..n]
    ensures forall k :: 0 <= k < n ==> all[k].similaritySq >= h.similaritySq
  {
    var j :| 0 <= j < |all| && all[j] == h;
    assert forall k :: 0 <= k < n ==> all[k] in all[..n];
  }

  predicate OnePerInvoice(hits: seq<NearDupHit>) {
    forall j, k :: 0 <= j < k < |hits| ==> hits[j].invoiceId != hits[k].invoiceId
  }

  lemma {:induction false} InsertKeepsOnePerInvoice(hits: seq<NearDupHit>, h: NearDupHit)
    requires OnePerInvoice(hits) && forall x :: x in hits ==> x.invoiceId != h.invoiceId
    ensures OnePerInvoice(InsertByRank(hits, h))
  {
    if hits != [] && hits[|hits| - 1].similaritySq < h.similaritySq {
      var n := |hits| - 1;
      InsertKeepsOnePerInvoice(hits[..n], h);
      var placed := InsertByRank(hits[..n], h);
      forall j | 0 <= j < |placed| ensures placed[j].invoiceId != hits[n].invoiceId {
        InsertedMembers(hits[..n], h, placed[j]);
        assert placed[j] in hits[..n] || placed[j] == h;
      }
    }
  }

  lemma {:induction false} CandidatesOncePerInvoice(corpus: seq<Option<Embedding>>, self: nat, query: Embedding)
    ensures OnePerInvoice(Candidates(corpus, self, query))
  {
    if corpus != [] {
      var n := |corpus| - 1;
      CandidatesOncePerInvoice(corpus[..n], self, query);
      if n != self && IsNear(corpus[n], query) {
        CandidatesAreTheNearRows(corpus[..n], self, query);
        InsertKeepsOnePerInvoice(Candidates(corpus[..n], self, query), HitFor(corpus, n, query));
      }
    }
  }

  /** Every hit is somebody else's stored vector whose cosine with the query is strictly above nine tenths,
      quoted with the square of that cosine. Hits come best first, one for each invoice, at most five. */
  lemma SearchIsExact(corpus: seq<Option<Embedding>>, self: nat, query: Embedding, k: nat)
    ensures var hits := FindSimilar(corpus, self, query);
            && Ranked(hits) && OnePerInvoice(hits) && |hits| <= 5
            && (k < |hits| ==>
                  var h := hits[k];
                  && h.invoiceId < |corpus| && h.invoiceId != self && corpus[h.invoiceId].Some?
                  && var u := corpus[h.invoiceId].value;
                  && Dot(u, query) > 0.0
                  && Dot(u, query) * Dot(u, query) > 0.81 * (NormSq(u) * NormSq(query))
                  && NormSq(u) * NormSq(query) > 0.0
                  && h.similaritySq == Dot(u, query) * Dot(u, query) / (NormSq(u) * NormSq(query)))
  {
    hide Candidates, Dot, NormSq, QualifiesAs, SimilaritySq;
    CandidatesOncePerInvoice(corpus, self, query);
    var all, hits := Candidates(corpus, self, query), FindSimilar(corpus, self, query);
    CandidatesAreTheNearRows(corpus, self, query);
    if k < |hits| {
      assert hits[k] in all;
      QualifyingIsClose(corpus, self, query, hits[k]);
      CloseIsNotZero(corpus[hits[k].invoiceId].value, query);
    }
  }

  /** Nothing close is missed: a stored row of another invoice strictly above nine tenths is a hit or
      stands behind five at least as close. */
  lemma CloseRowIsFound(corpus: seq<Option<Embedding>>, self: nat, query: Embedding, i: nat)
    requires i < |corpus| && i != self && corpus[i].Some? && Dot(corpus[i].value, query) > 0.0
    requires Dot(corpus[i].value, query) * Dot(corpus[i].value, query)
             > 0.81 * (NormSq(corpus[i].value) * NormSq(query))
    ensures var hits := FindSimilar(corpus, self, query);
            || (exists j :: 0 <= j < |hits| && hits[j].invoiceId == i)
            || (|hits| == 5 && forall j :: 0 <= j < 5 ==> Behind(corpus[i].value, query, hits[j].similaritySq))
  {
    hide Candidates, Dot, NormSq, QualifiesAs, SimilaritySq;
    var all, hits := Candidates(corpus, self, query), FindSimilar(corpus, self, query);
    var h := HitFor(corpus, i, query);
    CandidatesAreTheNearRows(corpus, self, query);
    QualifyingIsClose(corpus, self, query, h);
    CloseIsNotZero(corpus[i].value, query);
    if h in hits {
      var j :| 0 <= j < |hits| && hits[j] == h;
    } else {
      LeftOutIsBehind(all, |hits|, h);
      assert forall j :: 0 <= j < |hits| ==> all[j] == hits[j];
    }
  }

  /** The squared cosine of `u` with the query is at most `bound`. */
  predicate Behind(u: Embedding, query: Embedding, bound: real) {
    NormSq(u) * NormSq(query) > 0.0 && Dot(u, query) * Dot(u, query) / (NormSq(u) * NormSq(query)) <= bound
  }

  /** What the embedder counts for an invoice. */
  function SalientTokens(x: SalientInvoice): seq<string> {
    Tokens(JoinWords(SalientParts(x, |x.lines|)))
  }

  lemma SmallSquare(k: nat)
    requires k <= 1
    ensures k * k <= 1
  {
    if k == 0 { assert k * k == 0; }
  }

  /** One changed token is always few, once the invoice has a line. */
  lemma OneTokenIsFew(original: SalientInvoice, altered: SalientInvoice)
    requires |original.lines| >= 1 && |SalientTokens(original)| == |SalientTokens(altered)|
    requires Substitutions(SalientTokens(original), SalientTokens(altered)) <= 1
    ensures FewChanges(SalientTokens(original), SalientTokens(altered))
  {
    SalientTokenCount(original, JoinWords(SalientParts(original, |original.lines|)));
    hide SalientTokens, Substitutions;
    SmallSquare(Substitutions(SalientTokens(original), SalientTokens(altered)));
  }

  /** Resubmitting a stored invoice with few changed tokens is always reported, whatever positive
      factors the two vectors were scaled by. */
  lemma AlteredResubmissionIsFound(
    hash: string -> nat, p: seq<string>, q: seq<string>, c: real, d: real,
    corpus: seq<Option<Embedding>>, i: nat, self: nat, query: Embedding)
    requires i < |corpus| && i != self && corpus[i].Some? && FewChanges(p, q)
    requires Embeds(hash, p, c, corpus[i].value) && Embeds(hash, q, d, query)
    ensures FindSimilar(corpus, self, query) != []
  {
    FewChangesAreNear(hash, p, q);
    CloserIsClose(Counts(hash, p, EMBEDDING_DIM), Counts(hash, q, EMBEDDING_DIM));
    RescalingBothKeepsCloseness(
      c, Counts(hash, p, EMBEDDING_DIM), d, Counts(hash, q, EMBEDDING_DIM), SIMILARITY_THRESHOLD);
    CloserIsClose(corpus[i].value, query);
    SomeHitIffSomeClose(corpus, self, query);
    assert CloseRow(corpus, self, query, i);
  }
}
