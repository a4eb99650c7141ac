/** String normalisation as the pipeline uses it, over ASCII letters. */
module Text {
  predicate IsSpace(c: char) {
    c == ' ' || c == '\t' || c == '\n' || c == '\r'
  }

  predicate IsDigit(c: char) {
    '0' <= c <= '9'
  }

  predicate IsUpperLetter(c: char) {
    'A' <= c <= 'Z'
  }

  function UpperChar(c: char): char {
    if 'a' <= c <= 'z' then ((c as int) - 32) as char else c
  }

  function LowerChar(c: char): char {
    if 'A' <= c <= 'Z' then ((c as int) + 32) as char else c
  }

  function Upper(s: string): string {
    seq(|s|, i requires 0 <= i < |s| => UpperChar(s[i]))
  }

  function Casefold(s: string): string {
    seq(|s|, i requires 0 <= i < |s| => LowerChar(s[i]))
  }

  /** `s.replace(" ", "")`. */
  function DropBlanks(s: string): (r: string)
    ensures |r| <= |s|
  {
    if s == "" then "" else (if s[0] == ' ' then "" else [s[0]]) + DropBlanks(s[1..])
  }

  /** Length of the longest prefix without white space. */
  function WordLength(s: string): (n: nat)
    ensures n <= |s|
    ensures n < |s| ==> IsSpace(s[n])
    ensures n == 0 <==> s == "" || IsSpace(s[0])
  {
    if s == "" || IsSpace(s[0]) then 0 else 1 + WordLength(s[1..])
  }

  /** `s.split()`: the maximal runs of characters that are not white space. */
  function Words(s: string): seq<string>
    decreases |s|
  {
    if s == "" then []
    else if IsSpace(s[0]) then Words(s[1..])
    else var n := WordLength(s); [s[..n]] + Words(s[n..])
  }

  function JoinWords(parts: seq<string>): string {
    if parts == [] then ""
    else if |parts| == 1 then parts[0]
    else parts[0] + " " + JoinWords(parts[1..])
  }

  lemma {:induction false} WordLengthStopsAtBlank(a: string, b: string)
    ensures WordLength(a + " " + b) == WordLength(a)
  {
    if a == "" {
      assert a + " " + b == " " + b;
    } else if !IsSpace(a[0]) {
      assert (a + " " + b)[1..] == a[1..] + " " + b;
      WordLengthStopsAtBlank(a[1..], b);
    }
  }

  /** Splitting distributes over joining with one blank. */
  lemma {:induction false} WordsOfJoin(a: string, b: string)
    ensures Words(a + " " + b) == Words(a) + Words(b)
    decreases |a|
  {
    var s := a + " " + b;
    if a == "" {
      assert s == " " + b && s[1..] == b;
    } else if IsSpace(a[0]) {
      assert s[1..] == a[1..] + " " + b;
      WordsOfJoin(a[1..], b);
    } else {
      WordLengthStopsAtBlank(a, b);
      var n := WordLength(a);
      assert s[..n] == a[..n] && s[n..] == a[n..] + " " + b;
      WordsOfJoin(a[n..], b);
    }
  }

  /** Joining parts that do not start with a blank yields at least one word per part. */
  lemma {:induction false} JoinKeepsParts(parts: seq<string>)
    requires forall i :: 0 <= i < |parts| ==> parts[i] != "" && !IsSpace(parts[i][0])
    ensures |Words(JoinWords(parts))| >= |parts|
  {
    if |parts| > 1 {
      JoinKeepsParts(parts[1..]);
      WordsOfJoin(parts[0], JoinWords(parts[1..]));
    }
  }

  // ------------------------------------------------------------------ what normalising means

  /** The same letter but for its case, or the same character. */
  predicate SameLetter(c: char, d: char) {
    c == d || ('a' <= c <= 'z' && c as int == d as int + 32) || ('A' <= c <= 'Z' && c as int + 32 == d as int)
  }

  predicate SameLetters(a: string, b: string) {
    |a| == |b| && forall i :: 0 <= i < |a| ==> SameLetter(a[i], b[i])
  }

  /** Both foldings identify exactly the strings that differ in letter case only. */
  lemma FoldingForgetsCase(a: string, b: string)
    ensures Upper(a) == Upper(b) <==> SameLetters(a, b)
    ensures Casefold(a) == Casefold(b) <==> SameLetters(a, b)
  {
    if |a| == |b| {
      forall i | 0 <= i < |a|
        ensures Upper(a)[i] == Upper(b)[i] <==> SameLetter(a[i], b[i])
        ensures Casefold(a)[i] == Casefold(b)[i] <==> SameLetter(a[i], b[i])
      {}
      if SameLetters(a, b) { assert Upper(a) == Upper(b) && Casefold(a) == Casefold(b); }
    } else {
      assert |Upper(a)| == |a| && |Upper(b)| == |b| && |Casefold(a)| == |a| && |Casefold(b)| == |b|;
    }
  }

  /** Dropping blanks works character by character: a blank goes, anything else stays. */
  lemma {:induction false} DropBlanksPiecewise(a: string, b: string, c: char)
    ensures DropBlanks(a + b) == DropBlanks(a) + DropBlanks(b)
    ensures DropBlanks([c]) == if c == ' ' then "" else [c]
  {
    assert [c][1..] == [];
    if a == "" {
      assert a + b == b;
    } else {
      assert (a + b)[1..] == a[1..] + b;
      DropBlanksPiecewise(a[1..], b, c);
    }
  }

  /** A string of nothing but white space. */
  predicate Blank(s: string) {
    forall i :: 0 <= i < |s| ==> s[i] == ' ' || s[i] == '\t' || s[i] == '\n' || s[i] == '\r'
  }

  predicate Solid(s: string) {
    s != "" && forall i :: 0 <= i < |s| ==> s[i] != ' ' && s[i] != '\t' && s[i] != '\n' && s[i] != '\r'
  }

  /** The parts with a gap before, between and after them. */
  function Laid(gaps: seq<string>, parts: seq<string>): string
    requires |gaps| == |parts| + 1
  {
    if parts == [] then gaps[0] else gaps[0] + parts[0] + Laid(gaps[1..], parts[1..])
  }

  /** Solid parts, blank gaps, and at least one blank between two parts. */
  predicate Separates(gaps: seq<string>, parts: seq<string>) {
    && |gaps| == |parts| + 1
    && (forall i :: 0 <= i < |gaps| ==> Blank(gaps[i]))
    && (forall i :: 0 < i < |gaps| - 1 ==> gaps[i] != "")
    && (forall i :: 0 <= i < |parts| ==> Solid(parts[i]))
  }

  /** The string consists of these parts, apart from white space around and between them. */
  ghost predicate LaidOut(s: string, parts: seq<string>) {
    exists gaps :: Separates(gaps, parts) && s == Laid(gaps, parts)
  }

  lemma {:induction false} WordsSkipBlanks(gap: string, s: string)
    requires Blank(gap)
    ensures Words(gap + s) == Words(s)
  {
    if gap == "" {
      assert gap + s == s;
    } else {
      assert (gap + s)[1..] == gap[1..] + s;
      WordsSkipBlanks(gap[1..], s);
    }
  }

  lemma {:induction false} WordLengthOfSolid(part: string, s: string)
    requires Solid(part) && (s == "" || IsSpace(s[0]))
    ensures WordLength(part + s) == |part|
  {
    assert (part + s)[1..] == part[1..] + s;
    if |part| == 1 {
      assert part[1..] + s == s;
    } else {
      WordLengthOfSolid(part[1..], s);
    }
  }

  lemma {:induction false} WordsOfLaid(gaps: seq<string>, parts: seq<string>)
    requires Separates(gaps, parts)
    ensures Words(Laid(gaps, parts)) == parts
    decreases |parts|
  {
    if parts == [] {
      assert Laid(gaps, parts) == gaps[0] + "";
      WordsSkipBlanks(gaps[0], "");
    } else {
      var rest := Laid(gaps[1..], parts[1..]);
      WordsOfLaid(gaps[1..], parts[1..]);
      assert Laid(gaps, parts) == gaps[0] + (parts[0] + rest);
      WordsSkipBlanks(gaps[0], parts[0] + rest);
      LaidStartsWithItsGap(gaps[1..], parts[1..]);
      assert parts[1..] != [] ==> gaps[1] != "";
      WordLengthOfSolid(parts[0], rest);
      assert (parts[0] + rest)[..|parts[0]|] == parts[0] && (parts[0] + rest)[|parts[0]|..] == rest;
    }
  }

  lemma LaidStartsWithItsGap(gaps: seq<string>, parts: seq<string>)
    requires Separates(gaps, parts)
    ensures gaps[0] <= Laid(gaps, parts)
    ensures parts == [] ==> Laid(gaps, parts) == gaps[0]
    ensures parts != [] ==> |Laid(gaps, parts)| > |gaps[0]| && Laid(gaps, parts)[|gaps[0]|] == parts[0][0]
  {}

  lemma {:induction false} WordLengthIsSolid(s: string)
    ensures forall i :: 0 <= i < WordLength(s) ==> !IsSpace(s[i])
  {
    if s != "" && !IsSpace(s[0]) { WordLengthIsSolid(s[1..]); }
  }

  lemma BlankInFront(c: char, gaps: seq<string>, parts: seq<string>)
    requires Separates(gaps, parts) && Blank([c])
    ensures Separates([[c] + gaps[0]] + gaps[1..], parts)
    ensures Laid([[c] + gaps[0]] + gaps[1..], parts) == [c] + Laid(gaps, parts)
  {
    var wider := [[c] + gaps[0]] + gaps[1..];
    assert [c][0] == c && forall i :: 0 < i < |gaps| ==> wider[i] == gaps[i];
    assert wider[1..] == gaps[1..];
  }

  lemma PartInFront(part: string, gaps: seq<string>, parts: seq<string>)
    requires Separates(gaps, parts) && Solid(part) && (parts != [] ==> gaps[0] != "")
    ensures Separates([""] + gaps, [part] + parts)
    ensures Laid([""] + gaps, [part] + parts) == part + Laid(gaps, parts)
  {
    var wider := [""] + gaps;
    assert forall i :: 0 < i < |wider| ==> wider[i] == gaps[i - 1];
    assert wider[1..] == gaps && ([part] + parts)[1..] == parts;
    assert "" + part == part;
  }

  lemma {:induction false} EveryStringIsLaid(s: string) returns (gaps: seq<string>)
    ensures Separates(gaps, Words(s)) && s == Laid(gaps, Words(s))
    decreases |s|
  {
    hide Separates, Laid;
    if s == "" {
      gaps := [""];
      NothingLaid();
    } else if IsSpace(s[0]) {
      gaps := EveryStringIsLaid(s[1..]);
      assert Blank([s[0]]) && s == [s[0]] + s[1..];
      BlankInFront(s[0], gaps, Words(s));
      gaps := AsManyGaps(gaps, Words(s), s[0]);
    } else {
      var n := WordLength(s);
      WordLengthIsSolid(s);
      gaps := EveryStringIsLaid(s[n..]);
      GapBeforeWords(gaps, Words(s[n..]), s[n..]);
      assert s == s[..n] + s[n..];
      PartInFront(s[..n], gaps, Words(s[n..]));
      gaps := [""] + gaps;
    }
  }

  lemma NothingLaid()
    ensures Separates([""], []) && Laid([""], []) == ""
  {}

  lemma AsManyGaps(gaps: seq<string>, parts: seq<string>, c: char) returns (wider: seq<string>)
    requires Separates(gaps, parts)
    ensures gaps != [] && wider == [[c] + gaps[0]] + gaps[1..]
  {
    wider := [[c] + gaps[0]] + gaps[1..];
  }

  lemma GapBeforeWords(gaps: seq<string>, parts: seq<string>, s: string)
    requires Separates(gaps, parts) && s == Laid(gaps, parts) && (s == "" || IsSpace(s[0]))
    ensures parts != [] ==> gaps[0] != ""
  {
    LaidStartsWithItsGap(gaps, parts);
  }

  /** Splitting into words is exactly taking the solid parts out of their white space. */
  lemma WordsAreTheParts(s: string, parts: seq<string>)
    ensures LaidOut(s, parts) <==> parts == Words(s)
  {
    var gaps := EveryStringIsLaid(s);
    forall other | Separates(other, parts) && s == Laid(other, parts) ensures parts == Words(s) {
      WordsOfLaid(other, parts);
    }
  }

  /** The same words in the same order, whatever their case and the white space around them. */
  ghost predicate SameName(a: string, b: string) {
    exists p, q :: LaidOut(a, p) && LaidOut(b, q) && SameWords(p, q)
  }

  predicate SameWords(p: seq<string>, q: seq<string>) {
    |p| == |q| && forall k :: 0 <= k < |p| ==> SameLetters(p[k], q[k])
  }

  lemma {:induction false} CasefoldKeepsWordLength(s: string)
    ensures WordLength(Casefold(s)) == WordLength(s)
  {
    if s != "" && !IsSpace(s[0]) {
      assert Casefold(s)[1..] == Casefold(s[1..]);
      CasefoldKeepsWordLength(s[1..]);
    }
  }

  lemma {:induction false} WordsOfCasefold(s: string)
    ensures |Words(Casefold(s))| == |Words(s)|
    ensures forall k :: 0 <= k < |Words(s)| ==> Words(Casefold(s))[k] == Casefold(Words(s)[k])
    decreases |s|
  {
    if s != "" {
      if IsSpace(s[0]) {
        assert Casefold(s)[1..] == Casefold(s[1..]);
        WordsOfCasefold(s[1..]);
      } else {
        CasefoldKeepsWordLength(s);
        var n := WordLength(s);
        assert Casefold(s)[n..] == Casefold(s[n..]) && Casefold(s)[..n] == Casefold(s[..n]);
        WordsOfCasefold(s[n..]);
      }
    }
  }

  /** Names agree after folding and splitting exactly when their words differ in case only. */
  lemma SameNameIff(a: string, b: string)
    ensures SameName(a, b) <==> Words(Casefold(a)) == Words(Casefold(b))
  {
    hide Words, Casefold, SameLetters, LaidOut;
    forall s, parts ensures LaidOut(s, parts) <==> parts == Words(s) { WordsAreTheParts(s, parts); }
    WordsOfCasefold(a);
    WordsOfCasefold(b);
    forall v: string, w: string ensures Casefold(v) == Casefold(w) <==> SameLetters(v, w) { FoldingForgetsCase(v, w); }
    assert SameName(a, b) <==> SameWords(Words(a), Words(b));
  }

  lemma NameIsItself(a: string)
    ensures SameName(a, a) && SameLetters(a, a)
  {
    SameNameIff(a, a);
  }

  /** Joining solid words with single blanks can be undone. */
  lemma {:induction false} WordsOfJoinedWords(words: seq<string>)
    requires forall k :: 0 <= k < |words| ==> Solid(words[k])
    ensures Words(JoinWords(words)) == words
  {
    if |words| == 1 {
      WordLengthOfSolid(words[0], "");
      assert words[0] + "" == words[0];
    } else if |words| > 1 {
      WordsOfJoinedWords(words[1..]);
      WordsOfJoin(words[0], JoinWords(words[1..]));
      WordLengthOfSolid(words[0], "");
      assert words[0] + "" == words[0];
      assert words == [words[0]] + words[1..];
    }
  }
}
