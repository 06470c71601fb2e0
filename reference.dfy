/**
 * Reference-code extraction (`extract_reference` in recon/matcher.py): the
 * upper-cased text is searched for `\b[A-Z]{2,}-\d{1,}\b` and, only when
 * that pattern occurs nowhere, for `\b[A-Z]{2,}\d{2,}\b`; the leftmost
 * occurrence of the first pattern that occurs is the reference.
 */
module Reference {
  import opened Wrappers
  import opened Chars

  /** The two patterns of REF_PATTERNS. */
  datatype Pattern =
    | Hyphenated  // [A-Z]{2,}-\d{1,}
    | Bare        // [A-Z]{2,}\d{2,}

  /** The patterns in the order they are tried. */
  const RefPatterns: seq<Pattern> := [Hyphenated, Bare]

  predicate AllUpper(s: string) { forall i :: 0 <= i < |s| ==> IsUpper(s[i]) }

  predicate AllDigits(s: string) { forall i :: 0 <= i < |s| ==> IsDigit(s[i]) }

  /** w is, in full, a word of pattern p whose letters are w[..j]. */
  predicate ShapeAt(w: string, p: Pattern, j: int)
  {
    2 <= j <= |w| && AllUpper(w[..j]) &&
    match p
    case Hyphenated => j + 2 <= |w| && w[j] == '-' && AllDigits(w[j + 1..])
    case Bare => j + 2 <= |w| && AllDigits(w[j..])
  }

  /** The regular expression of p, with its two `\b`, matches u[i..k]. */
  ghost predicate Occurs(u: string, p: Pattern, i: int, k: int)
  {
    0 <= i < k <= |u| && Boundary(u, i) && Boundary(u, k) && exists j :: ShapeAt(u[i..k], p, j)
  }

  /** u[i..k] is the leftmost occurrence of p in u. */
  ghost predicate Leftmost(u: string, p: Pattern, i: int, k: int)
  {
    Occurs(u, p, i, k) && forall i', k' :: 0 <= i' < i ==> !Occurs(u, p, i', k')
  }

  ghost predicate OccursSomewhere(u: string, p: Pattern)
  {
    exists i, k :: Occurs(u, p, i, k)
  }

  /** End of the run of upper-case letters starting at i. */
  function UpperRun(u: string, i: nat): (j: nat)
    requires i <= |u|
    ensures i <= j <= |u|
    ensures forall m :: i <= m < j ==> IsUpper(u[m])
    ensures j == |u| || !IsUpper(u[j])
    decreases |u| - i
  {
    if i < |u| && IsUpper(u[i]) then UpperRun(u, i + 1) else i
  }

  /** End of the run of digits starting at i. */
  function DigitRun(u: string, i: nat): (j: nat)
    requires i <= |u|
    ensures i <= j <= |u|
    ensures forall m :: i <= m < j ==> IsDigit(u[m])
    ensures j == |u| || !IsDigit(u[j])
    decreases |u| - i
  {
    if i < |u| && IsDigit(u[i]) then DigitRun(u, i + 1) else i
  }

  /**
   * What the regex engine does at start position i: both quantifiers are
   * greedy and backtracking cannot help, because a shorter letter run is
   * followed by a letter and a shorter digit run by a digit.
   */
  function MatchAt(u: string, p: Pattern, i: nat): Option<nat>
    requires i <= |u|
  {
    if !Boundary(u, i) then None
    else
      var j := UpperRun(u, i);
      if j - i < 2 then None
      else
        match p
        case Hyphenated =>
          if j < |u| && u[j] == '-' then
            var k := DigitRun(u, j + 1);
            if k - (j + 1) >= 1 && Boundary(u, k) then Some(k) else None
          else None
        case Bare =>
          var k := DigitRun(u, j);
          if k - j >= 2 && Boundary(u, k) then Some(k) else None
  }

  /** `re.search`: the first start position, from `from` on, where p matches. */
  function Search(u: string, p: Pattern, from: nat): Option<(nat, nat)>
    requires from <= |u|
    decreases |u| - from
  {
    match MatchAt(u, p, from)
    case Some(k) => Some((from, k))
    case None => if from < |u| then Search(u, p, from + 1) else None
  }

  /** The loop over REF_PATTERNS: the first pattern that occurs gives the code. */
  function FirstPatternMatch(u: string, pats: seq<Pattern>): string
  {
    if pats == [] then ""
    else
      match Search(u, pats[0], 0)
      case Some((i, k)) => if i <= k <= |u| then u[i..k] else ""
      case None => FirstPatternMatch(u, pats[1..])
  }

  function ExtractReference(text: string): (r: string)
    ensures r == "" || IsUpper(r[0])
  {
    if text == "" then ""
    else
      CodeStartsUpper(Upper(text), RefPatterns);
      FirstPatternMatch(Upper(text), RefPatterns)
  }

  /** A code found by any of the patterns starts with a capital letter. */
  lemma {:induction false} CodeStartsUpper(u: string, pats: seq<Pattern>)
    ensures var r := FirstPatternMatch(u, pats); r == "" || IsUpper(r[0])
  {
    if pats != [] {
      match Search(u, pats[0], 0)
      case Some((i, k)) =>
        SearchLeftmost(u, pats[0], 0);
        var j :| ShapeAt(u[i..k], pats[0], j);
        assert u[i..k][..j][0] == u[i..k][0];
      case None =>
        CodeStartsUpper(u, pats[1..]);
    }
  }

  /** What a successful MatchAt says about the runs it scanned. */
  lemma MatchAtRuns(u: string, p: Pattern, i: nat, k: int)
    requires i <= |u| && MatchAt(u, p, i) == Some(k)
    ensures Boundary(u, i) && k <= |u| && Boundary(u, k)
    ensures var j := UpperRun(u, i);
            i + 2 <= j && j + 2 <= k &&
            match p
            case Hyphenated => u[j] == '-' && k == DigitRun(u, j + 1)
            case Bare => k == DigitRun(u, j)
  {
  }

  /** Letters on [i, j) and digits on [d, k) make u[i..k] a word of pattern p. */
  lemma ShapeFromRuns(u: string, p: Pattern, i: nat, j: nat, d: nat, k: nat)
    requires i + 2 <= j && j + 2 <= k <= |u| && j <= d < k
    requires d == if p.Hyphenated? then j + 1 else j
    requires p.Hyphenated? ==> u[j] == '-'
    requires forall m :: i <= m < j ==> IsUpper(u[m])
    requires forall m :: d <= m < k ==> IsDigit(u[m])
    ensures ShapeAt(u[i..k], p, j - i)
  {
    var w := u[i..k];
    var letters := w[..j - i];
    forall m | 0 <= m < |letters| ensures IsUpper(letters[m]) {
      assert letters[m] == u[i + m];
    }
    var digits := w[d - i..];
    forall m | 0 <= m < |digits| ensures IsDigit(digits[m]) {
      assert digits[m] == u[d + m];
    }
    assert w[j - i] == u[j];
  }

  lemma MatchAtSound(u: string, p: Pattern, i: nat, k: int)
    requires i <= |u|
    requires MatchAt(u, p, i) == Some(k)
    ensures Occurs(u, p, i, k)
  {
    MatchAtRuns(u, p, i, k);
    var j := UpperRun(u, i);
    var d := if p.Hyphenated? then j + 1 else j;
    ShapeFromRuns(u, p, i, j, d, k);
  }

  /** Letters of an occurrence run exactly to its split point. */
  lemma OccurrenceLetters(u: string, p: Pattern, i: nat, k: int, j: int)
    requires 0 <= i < k <= |u| && ShapeAt(u[i..k], p, j)
    ensures UpperRun(u, i) == i + j
  {
    var w := u[i..k];
    forall m | i <= m < i + j ensures IsUpper(u[m]) {
      assert u[m] == w[..j][m - i];
    }
    assert u[i + j] == w[j] && !IsUpper(w[j]);
  }

  /** Digits of an occurrence run exactly to its end. */
  lemma OccurrenceDigits(u: string, d: nat, k: int)
    requires d < k <= |u| && Boundary(u, k)
    requires forall m :: d <= m < k ==> IsDigit(u[m])
    ensures DigitRun(u, d) == k
  {
    assert IsDigit(u[k - 1]);
  }

  /** The digits of an occurrence, read in u. */
  lemma OccurrenceDigitsIn(u: string, p: Pattern, i: nat, k: int, j: int)
    requires 0 <= i < k <= |u| && ShapeAt(u[i..k], p, j)
    ensures p.Hyphenated? ==> u[i + j] == '-'
    ensures var d := if p.Hyphenated? then i + j + 1 else i + j;
            forall m :: d <= m < k ==> IsDigit(u[m])
  {
    var w := u[i..k];
    var d := if p.Hyphenated? then i + j + 1 else i + j;
    var digits := w[d - i..];
    assert AllDigits(digits);
    forall m | d <= m < k ensures IsDigit(u[m]) {
      assert u[m] == digits[m - d];
    }
    assert u[i + j] == w[j];
  }

  /** Runs of the right lengths and boundaries at both ends make MatchAt succeed. */
  lemma MatchAtFromRuns(u: string, p: Pattern, i: nat, k: int)
    requires i <= |u| && Boundary(u, i) && 0 <= k <= |u| && Boundary(u, k)
    requires var j := UpperRun(u, i);
             i + 2 <= j && j + 2 <= k &&
             match p
             case Hyphenated => u[j] == '-' && k == DigitRun(u, j + 1)
             case Bare => k == DigitRun(u, j)
    ensures MatchAt(u, p, i) == Some(k)
  {
  }

  lemma MatchAtComplete(u: string, p: Pattern, i: nat, k: int)
    requires i <= |u|
    requires Occurs(u, p, i, k)
    ensures MatchAt(u, p, i) == Some(k)
  {
    var j :| ShapeAt(u[i..k], p, j);
    OccurrenceLetters(u, p, i, k, j);
    OccurrenceDigitsIn(u, p, i, k, j);
    var d := if p.Hyphenated? then i + j + 1 else i + j;
    OccurrenceDigits(u, d, k);
    MatchAtFromRuns(u, p, i, k);
  }

  /** The engine's answer at a start position is exactly the occurrence there. */
  lemma MatchAtExact(u: string, p: Pattern, i: nat, k: int)
    requires i <= |u|
    ensures MatchAt(u, p, i) == Some(k) <==> Occurs(u, p, i, k)
  {
    if MatchAt(u, p, i) == Some(k) { MatchAtSound(u, p, i, k); }
    if Occurs(u, p, i, k) { MatchAtComplete(u, p, i, k); }
  }

  lemma {:induction false} SearchLeftmost(u: string, p: Pattern, from: nat)
    requires from <= |u|
    ensures match Search(u, p, from)
            case Some((i, k)) =>
              from <= i && Occurs(u, p, i, k) &&
              forall i', k' :: from <= i' < i ==> !Occurs(u, p, i', k')
            case None => forall i', k' :: from <= i' ==> !Occurs(u, p, i', k')
    decreases |u| - from
  {
    forall k' ensures MatchAt(u, p, from) == Some(k') <==> Occurs(u, p, from, k') {
      MatchAtExact(u, p, from, k');
    }
    if MatchAt(u, p, from).None? && from < |u| {
      SearchLeftmost(u, p, from + 1);
    }
  }

  lemma SearchFromStart(u: string, p: Pattern)
    ensures match Search(u, p, 0)
            case Some((i, k)) => Leftmost(u, p, i, k)
            case None => !OccursSomewhere(u, p)
  {
    SearchLeftmost(u, p, 0);
  }

  /**
   * The reference is empty exactly when the text is empty or neither
   * pattern occurs in it; otherwise it is the leftmost hyphenated code of
   * the upper-cased text, or, when there is none, its leftmost bare code.
   */
  lemma ExtractReferenceSpec(text: string)
    ensures var u := Upper(text);
            var r := ExtractReference(text);
            && (r == "" <==> text == "" || (!OccursSomewhere(u, Hyphenated) && !OccursSomewhere(u, Bare)))
            && (text != "" && OccursSomewhere(u, Hyphenated) ==>
                  exists i, k :: Leftmost(u, Hyphenated, i, k) && r == u[i..k])
            && (text != "" && !OccursSomewhere(u, Hyphenated) && OccursSomewhere(u, Bare) ==>
                  exists i, k :: Leftmost(u, Bare, i, k) && r == u[i..k])
  {
    var u := Upper(text);
    if text != "" {
      SearchFromStart(u, Hyphenated);
      SearchFromStart(u, Bare);
      assert RefPatterns[1..] == [Bare];
      assert [Bare][1..] == [];
      assert FirstPatternMatch(u, []) == "";
      var r := ExtractReference(text);
      match Search(u, Hyphenated, 0)
      case Some((i, k)) =>
        assert r == u[i..k] && |r| > 0;
      case None =>
        assert r == FirstPatternMatch(u, [Bare]);
        match Search(u, Bare, 0)
        case Some((i, k)) =>
          assert r == u[i..k] && |r| > 0;
        case None =>
          assert r == "";
    }
  }
}
