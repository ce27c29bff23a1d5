/** The severity scale of the service: the fixed lookup table from labels to
    ranks, and the upper-casing applied to an incoming label before it is
    looked up. */
module Severity {

  /** The recognised labels, lowest first. */
  const Labels: seq<string> := ["LOW", "MEDIUM", "HIGH", "CRITICAL"]

  /** The lookup table, as the service declares it. */
  const SeverityLevels: map<string, nat> :=
    map["LOW" := 1, "MEDIUM" := 2, "HIGH" := 3, "CRITICAL" := 4]

  /** Reading the table; a label that is not a key yields the zero value 0,
      as reading a missing key of a Go map does. */
  function Rank(name: string): (r: nat)
    ensures r <= |Labels|
    ensures r > 0 <==> name in Labels
    ensures r > 0 ==> Labels[r - 1] == name
  {
    if name in SeverityLevels then SeverityLevels[name] else 0
  }

  /** The k-th label of the scale ranks k + 1. */
  lemma RankOfLabel(k: nat)
    requires k < |Labels|
    ensures Rank(Labels[k]) == k + 1
  {
  }

  /** The ranks follow the order of the scale: LOW < MEDIUM < HIGH < CRITICAL. */
  lemma RankOrdersScale(i: nat, j: nat)
    requires i < |Labels| && j < |Labels|
    ensures Rank(Labels[i]) <= Rank(Labels[j]) <==> i <= j
  {
    RankOfLabel(i);
    RankOfLabel(j);
  }

  predicate IsUpperAscii(c: char) { 'A' <= c <= 'Z' }

  predicate IsLowerAscii(c: char) { 'a' <= c <= 'z' }

  /** The two runes outside ASCII whose upper case is an ASCII letter:
      LATIN SMALL LETTER DOTLESS I and LATIN SMALL LETTER LONG S. */
  const DotlessI: char := '\U{0131}'
  const LongS: char := '\U{017F}'

  /** Upper case of one rune, as far as it can decide a rank: ASCII lower-case
      letters, dotless i (to 'I') and long s (to 'S'). Every other rune is kept;
      the upper case of a rune outside ASCII is, apart from these two, again
      outside ASCII, so it can never complete a label of the scale. */
  function UpperChar(c: char): (u: char)
    ensures IsUpperAscii(u) <==> IsUpperAscii(c) || IsLowerAscii(c) || c == DotlessI || c == LongS
    ensures IsLowerAscii(c) ==> u as int == c as int - 32
    ensures c == DotlessI ==> u == 'I'
    ensures c == LongS ==> u == 'S'
    ensures !IsLowerAscii(c) && c != DotlessI && c != LongS ==> u == c
    ensures UpperChar(u) == u
  {
    if IsLowerAscii(c) then (c as int - 32) as char
    else if c == DotlessI then 'I'
    else if c == LongS then 'S'
    else c
  }

  /** Upper case of a string, rune by rune. */
  function ToUpper(s: string): (r: string)
    ensures |r| == |s|
    ensures forall i :: 0 <= i < |s| ==> r[i] == UpperChar(s[i])
  {
    if s == [] then [] else [UpperChar(s[0])] + ToUpper(s[1..])
  }

  /** Upper-casing twice is upper-casing once. */
  lemma ToUpperIdempotent(s: string)
    ensures ToUpper(ToUpper(s)) == ToUpper(s)
  {
    var t := ToUpper(s);
    assert forall i :: 0 <= i < |t| ==> ToUpper(t)[i] == t[i];
  }

  /** The rank of an incoming severity: upper-cased, then looked up. */
  function IncomingRank(severity: string): (r: nat)
    ensures r <= |Labels|
    ensures r > 0 ==> MatchesIgnoringCase(severity, Labels[r - 1])
  {
    Rank(ToUpper(severity))
  }

  /** `s` spells `name` up to case, `name` taken as upper case. */
  predicate MatchesIgnoringCase(s: string, name: string)
  {
    |s| == |name| && forall i :: 0 <= i < |s| ==> UpperChar(s[i]) == name[i]
  }

  /** Every label of the scale consists of upper-case ASCII letters. */
  lemma LabelsAreUpperAscii(k: nat)
    requires k < |Labels|
    ensures forall i :: 0 <= i < |Labels[k]| ==> IsUpperAscii(Labels[k][i])
  {
  }

  /** An incoming severity ranks k (1 to 4) exactly when it spells the k-th
      label in any mix of case. */
  lemma IncomingRankIs(s: string, k: nat)
    requires 1 <= k <= |Labels|
    ensures IncomingRank(s) == k <==> MatchesIgnoringCase(s, Labels[k - 1])
  {
    RankOfLabel(k - 1);
    if MatchesIgnoringCase(s, Labels[k - 1]) {
      assert ToUpper(s) == Labels[k - 1];
    }
  }

  /** A label of the scale, already in upper case, ranks as itself. */
  lemma UpperLabelRank(k: nat)
    requires k < |Labels|
    ensures IncomingRank(Labels[k]) == k + 1
  {
    LabelsAreUpperAscii(k);
    assert MatchesIgnoringCase(Labels[k], Labels[k]);
    IncomingRankIs(Labels[k], k + 1);
  }

  /** An incoming severity ranks 0 exactly when it spells no label of the
      scale, in whatever case. */
  lemma IncomingRankZero(s: string)
    ensures IncomingRank(s) == 0 <==> forall k :: 0 <= k < |Labels| ==> !MatchesIgnoringCase(s, Labels[k])
  {
    forall k | 0 <= k < |Labels|
      ensures IncomingRank(s) == k + 1 <==> MatchesIgnoringCase(s, Labels[k])
    {
      IncomingRankIs(s, k + 1);
    }
  }

  /** Dotless i upper-cases to 'I', so "cr\U{0131}t\U{0131}cal" ranks as CRITICAL. */
  lemma DotlessIRanksAsI()
    ensures IncomingRank("cr\U{0131}t\U{0131}cal") == 4
  {
    assert MatchesIgnoringCase("cr\U{0131}t\U{0131}cal", Labels[3]);
    IncomingRankIs("cr\U{0131}t\U{0131}cal", 4);
  }

  /** Two severities that differ only in case rank the same. */
  lemma IncomingRankIgnoresCase(a: string, b: string)
    requires |a| == |b|
    requires forall i :: 0 <= i < |a| ==> UpperChar(a[i]) == UpperChar(b[i])
    ensures IncomingRank(a) == IncomingRank(b)
  {
    assert ToUpper(a) == ToUpper(b);
  }

  /** A threshold is not upper-cased before the lookup, so one holding any
      rune other than an upper-case ASCII letter (a lower-case "medium", an
      empty string counts too) ranks 0. */
  lemma ThresholdRankZero(t: string)
    requires t == [] || exists i :: 0 <= i < |t| && !IsUpperAscii(t[i])
    ensures Rank(t) == 0
  {
    if Rank(t) > 0 {
      LabelsAreUpperAscii(Rank(t) - 1);
    }
  }
}
