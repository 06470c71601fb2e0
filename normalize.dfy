/**
 * Free-text normalisation (`normalize_text` in recon/matcher.py): noise
 * words are replaced by a space, every character that is neither a letter,
 * a digit nor white space becomes a space, letters are lower-cased, white
 * space runs collapse to one space and the ends are stripped.
 */
module Normalize {
  import opened Wrappers
  import opened Chars

  /** The alternatives of NOISE_WORDS_RE, in order. */
  const NoiseWords: seq<string> :=
    ["payment", "eft", "incoming", "debit order", "txn", "ref:", "paid"]

  /** Alternative w is at position i of s, in any case, followed by `\b`. */
  predicate AltMatches(s: string, i: nat, w: string)
    requires i <= |s|
  {
    i + |w| <= |s| && Lower(s[i..i + |w|]) == w && Boundary(s, i + |w|)
  }

  /** Alternative n is the first of `words` that matches s at i. */
  predicate FirstAlt(s: string, i: nat, words: seq<string>, n: nat)
    requires i <= |s|
  {
    n < |words| && AltMatches(s, i, words[n]) && forall m :: 0 <= m < n ==> !AltMatches(s, i, words[m])
  }

  /**
   * The end of the first alternative of `words` that matches s at i,
   * ignoring case, and is followed by `\b`: there is one exactly when some
   * alternative matches, and it is the end of the first one that does.
   */
  function WordEndAt(s: string, i: nat, words: seq<string>): (e: Option<nat>)
    requires i <= |s|
    requires forall n :: 0 <= n < |words| ==> |words[n]| > 0
    ensures e.Some? ==> i < e.value <= |s| && Boundary(s, e.value)
    ensures e.Some? <==> exists n :: 0 <= n < |words| && AltMatches(s, i, words[n])
    ensures e.Some? ==> exists n: nat :: FirstAlt(s, i, words, n) && e.value == i + |words[n]|
  {
    if words == [] then None
    else if AltMatches(s, i, words[0]) then
      assert FirstAlt(s, i, words, 0);
      Some(i + |words[0]|)
    else
      var e := WordEndAt(s, i, words[1..]);
      ShiftAlternatives(s, i, words);
      if e.Some? then
        var n: nat :| FirstAlt(s, i, words[1..], n) && e.value == i + |words[1..][n]|;
        ShiftFirst(s, i, words, n);
        e
      else e
  }

  /** Past a first alternative that does not match, some alternative matches exactly when one of the rest does. */
  lemma ShiftAlternatives(s: string, i: nat, words: seq<string>)
    requires i <= |s| && words != [] && !AltMatches(s, i, words[0])
    ensures (exists n :: 0 <= n < |words| && AltMatches(s, i, words[n])) <==>
            (exists n :: 0 <= n < |words[1..]| && AltMatches(s, i, words[1..][n]))
  {
    if exists n :: 0 <= n < |words| && AltMatches(s, i, words[n]) {
      var n :| 0 <= n < |words| && AltMatches(s, i, words[n]);
      assert n > 0 && words[n] == words[1..][n - 1];
    }
  }

  /** The first matching alternative among the rest is the first one overall, one place on. */
  lemma ShiftFirst(s: string, i: nat, words: seq<string>, n: nat)
    requires i <= |s| && words != [] && !AltMatches(s, i, words[0]) && FirstAlt(s, i, words[1..], n)
    ensures FirstAlt(s, i, words, n + 1) && words[n + 1] == words[1..][n]
  {
    forall m | 0 <= m < n + 1 ensures !AltMatches(s, i, words[m]) {
      if m > 0 {
        assert words[m] == words[1..][m - 1];
      }
    }
  }

  /** `\b(payment|...|paid)\b` at position i, ignoring case: the end of the match. */
  function NoiseAt(s: string, i: nat): (e: Option<nat>)
    requires i <= |s|
    ensures e.Some? ==> i < e.value <= |s|
  {
    if Boundary(s, i) then WordEndAt(s, i, NoiseWords) else None
  }

  /** `NOISE_WORDS_RE.sub(' ', s)` from position i on: a left-to-right scan. */
  function ReplaceNoise(s: string, i: nat): string
    requires i <= |s|
    decreases |s| - i
  {
    if i == |s| then ""
    else
      match NoiseAt(s, i)
      case Some(e) => " " + ReplaceNoise(s, e)
      case None => [s[i]] + ReplaceNoise(s, i + 1)
  }

  /** `re.sub(r'[^A-Za-z0-9\s]', ' ', s).lower()`. */
  function Scrub(s: string): (r: string)
    ensures |r| == |s|
    ensures forall i :: 0 <= i < |r| ==> IsLower(r[i]) || IsDigit(r[i]) || IsSpace(r[i])
  {
    seq(|s|, i requires 0 <= i < |s| =>
      if IsAlnum(s[i]) || IsSpace(s[i]) then ToLower(s[i]) else ' ')
  }

  /**
   * `re.sub(r'\s+', ' ', s)`: each white-space character that is followed
   * by another is dropped, and the last one of a run becomes a space.
   */
  function CollapseSpaces(s: string): (r: string)
    ensures forall i :: 0 <= i < |r| ==> r[i] == ' ' || (r[i] in s && !IsSpace(r[i]))
    ensures forall i :: 0 <= i < |r| - 1 ==> !(IsSpace(r[i]) && IsSpace(r[i + 1]))
    ensures s != [] ==> r != [] && r[0] == (if IsSpace(s[0]) then ' ' else s[0])
  {
    if s == [] then []
    else if IsSpace(s[0]) then
      if |s| > 1 && IsSpace(s[1]) then CollapseSpaces(s[1..]) else " " + CollapseSpaces(s[1..])
    else [s[0]] + CollapseSpaces(s[1..])
  }

  function NormalizeText(s: string): string
  {
    if s == "" then "" else Strip(CollapseSpaces(Scrub(ReplaceNoise(s, 0))))
  }

  /** Only lower-case letters, digits and single spaces. */
  predicate Tidy(r: string)
  {
    && (forall i :: 0 <= i < |r| ==> IsLower(r[i]) || IsDigit(r[i]) || r[i] == ' ')
    && (forall i :: 0 <= i < |r| - 1 ==> !(r[i] == ' ' && r[i + 1] == ' '))
  }

  lemma CollapsedScrubIsTidy(s: string)
    ensures Tidy(CollapseSpaces(Scrub(s)))
  {
    var t := Scrub(s);
    var c := CollapseSpaces(t);
    forall i | 0 <= i < |c| ensures IsLower(c[i]) || IsDigit(c[i]) || c[i] == ' ' {
      if c[i] != ' ' {
        var j :| 0 <= j < |t| && t[j] == c[i];
      }
    }
  }

  /** Any slice of tidy text is tidy. */
  lemma TidySlice(c: string, a: nat, b: nat)
    requires Tidy(c) && a <= b <= |c|
    ensures Tidy(c[a..b])
  {
    var r := c[a..b];
    forall i | 0 <= i < |r| ensures IsLower(r[i]) || IsDigit(r[i]) || r[i] == ' ' {
      assert r[i] == c[a + i];
    }
    forall i | 0 <= i < |r| - 1 ensures !(r[i] == ' ' && r[i + 1] == ' ') {
      assert r[i] == c[a + i] && r[i + 1] == c[a + i + 1];
    }
  }

  lemma StripKeepsTidy(c: string)
    requires Tidy(c)
    ensures Tidy(Strip(c))
  {
    var l := StripLeft(c);
    TidySlice(c, |c| - |l|, |c|);
    TidySlice(l, 0, |StripRight(l)|);
  }

  /**
   * The normalised text holds only lower-case letters, digits and single
   * spaces, and neither starts nor ends with a space.
   */
  lemma NormalizedShape(s: string)
    ensures Tidy(NormalizeText(s))
    ensures var r := NormalizeText(s); r != [] ==> r[0] != ' ' && r[|r| - 1] != ' '
  {
    if s != "" {
      var t := ReplaceNoise(s, 0);
      CollapsedScrubIsTidy(t);
      StripKeepsTidy(CollapseSpaces(Scrub(t)));
    }
  }

  lemma EmptyNormalizesToEmpty()
    ensures NormalizeText("") == ""
  {
  }
}

module NormalizeExamples {
  import opened Wrappers
  import opened Chars
  import opened Normalize

  /** An alternative longer than the text, or not starting with its first letter, cannot match at 0. */
  lemma NoMatchAtStart(s: string, w: string)
    requires s != [] && w != [] && (|w| > |s| || ToLower(s[0]) != w[0])
    ensures !AltMatches(s, 0, w)
  {
    if |w| <= |s| {
      assert Lower(s[0..|w|])[0] == ToLower(s[0]);
    }
  }

  /** When none of the first six of seven alternatives matches, the search hinges on the seventh. */
  lemma SeventhAlternative(s: string, words: seq<string>)
    requires |words| == 7 && forall n :: 0 <= n < 7 ==> |words[n]| > 0
    requires forall n :: 0 <= n < 6 ==> !AltMatches(s, 0, words[n])
    ensures WordEndAt(s, 0, words) == if AltMatches(s, 0, words[6]) then Some(|words[6]|) else None
  {
    var e := WordEndAt(s, 0, words);
    if e.Some? {
      var n: nat :| FirstAlt(s, 0, words, n) && e.value == |words[n]|;
      assert n == 6;
    }
  }

  /** None of the first six noise words can match a short text starting with 'p'. */
  lemma EarlyNoiseWordsFail(s: string)
    requires 0 < |s| < 7 && s[0] == 'p'
    ensures forall n :: 0 <= n < 6 ==> !AltMatches(s, 0, NoiseWords[n])
  {
    NoMatchAtStart(s, NoiseWords[0]);
    NoMatchAtStart(s, NoiseWords[1]);
    NoMatchAtStart(s, NoiseWords[2]);
    NoMatchAtStart(s, NoiseWords[3]);
    NoMatchAtStart(s, NoiseWords[4]);
    NoMatchAtStart(s, NoiseWords[5]);
  }

  /** Only the last alternative, "paid", can match a short text starting with 'p'. */
  lemma OnlyPaidCanMatch(s: string)
    requires 0 < |s| < 7 && s[0] == 'p'
    ensures WordEndAt(s, 0, NoiseWords) ==
              if 4 <= |s| && Lower(s[0..4]) == "paid" && Boundary(s, 4) then Some(4) else None
  {
    EarlyNoiseWordsFail(s);
    SeventhAlternative(s, NoiseWords);
  }

  /** Lower-casing leaves a text without upper-case letters as it is. */
  lemma LowerKeeps(s: string)
    requires forall k :: 0 <= k < |s| ==> !IsUpper(s[k])
    ensures Lower(s) == s
  {
  }

  /** Where no noise word starts, the replacement leaves the text as it is. */
  lemma {:induction false} ReplaceNothing(s: string, i: nat)
    requires i <= |s|
    requires forall j :: i <= j < |s| ==> NoiseAt(s, j) == None
    ensures ReplaceNoise(s, i) == s[i..]
    decreases |s| - i
  {
    if i < |s| {
      ReplaceNothing(s, i + 1);
      assert s[i..] == [s[i]] + s[i + 1..];
    }
  }

  /** Text whose only white space is single spaces is left as it is by the collapse. */
  lemma {:induction false} CollapseNothing(s: string)
    requires forall i :: 0 <= i < |s| ==> s[i] == ' ' || !IsSpace(s[i])
    requires forall i :: 0 <= i < |s| - 1 ==> !(s[i] == ' ' && s[i + 1] == ' ')
    ensures CollapseSpaces(s) == s
  {
    if s != [] {
      CollapseNothing(s[1..]);
      assert s == [s[0]] + s[1..];
    }
  }

  lemma NoNoiseInPaidUnderscore(s: string)
    requires s == "paid_"
    ensures ReplaceNoise(s, 0) == s
  {
    OnlyPaidCanMatch(s);
    assert !Boundary(s, 4);
    assert NoiseAt(s, 0) == None;
    assert !Boundary(s, 1) && !Boundary(s, 2) && !Boundary(s, 3);
    ReplaceNothing(s, 0);
    assert s[0..] == s;
  }

  lemma CollapsePaidSpace()
    ensures CollapseSpaces("paid ") == "paid "
  {
    var s := "paid ";
    assert !IsSpace(s[0]) && !IsSpace(s[1]) && !IsSpace(s[2]) && !IsSpace(s[3]) && s[4] == ' ';
    CollapseNothing(s);
  }

  /** A noise word from i to e is replaced by one space. */
  lemma ReplaceWord(s: string, i: nat, e: nat)
    requires i < |s| && NoiseAt(s, i) == Some(e)
    ensures ReplaceNoise(s, i) == " " + ReplaceNoise(s, e)
  {
  }

  /** "paid" alone is a whole noise word. */
  lemma PaidMatches(s: string)
    requires s == "paid"
    ensures NoiseAt(s, 0) == Some(4)
  {
    OnlyPaidCanMatch(s);
    LowerPaid(s);
  }

  lemma LowerPaid(s: string)
    requires s == "paid"
    ensures Lower(s[0..4]) == "paid"
  {
    assert s[0..4] == s;
    LowerKeeps(s);
  }

  lemma PaidIsNoise(s: string)
    requires s == "paid"
    ensures ReplaceNoise(s, 0) == " "
  {
    PaidMatches(s);
    ReplaceWord(s, 0, 4);
  }

  lemma ScrubPaidUnderscore()
    ensures Scrub("paid_") == "paid "
  {
  }

  lemma StripPaidSpace()
    ensures Strip("paid ") == "paid"
  {
    assert StripLeft("paid ") == "paid ";
    assert StripRight("paid ") == "paid";
  }

  lemma NormalizePaidUnderscore()
    ensures NormalizeText("paid_") == "paid"
  {
    NoNoiseInPaidUnderscore("paid_");
    ScrubPaidUnderscore();
    CollapsePaidSpace();
    StripPaidSpace();
  }

  lemma NormalizePaid(s: string)
    requires s == "paid"
    ensures NormalizeText(s) == ""
  {
    PaidIsNoise(s);
    SpaceNormalizesToEmpty(" ");
  }

  /** A lone space survives scrubbing and collapsing, and stripping removes it. */
  lemma SpaceNormalizesToEmpty(s: string)
    requires s == " "
    ensures Strip(CollapseSpaces(Scrub(s))) == ""
  {
    assert Scrub(s) == s;
    assert CollapseSpaces(s) == s;
    assert StripLeft(s) == "";
  }

  /**
   * Normalisation is not idempotent: the underscore keeps "paid" from
   * being a whole word on the first pass, and becomes a space that lets
   * the second pass remove it.
   */
  lemma NormalizeNotIdempotent()
    ensures NormalizeText(NormalizeText("paid_")) != NormalizeText("paid_")
  {
    NormalizePaidUnderscore();
    NormalizePaid("paid");
  }
}
