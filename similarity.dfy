/**
 * Word similarity (app.js:724-800): a fallback chain of exact equality,
 * pronunciation-normalised equality, containment, a table of known
 * recogniser confusions, and a boosted edit-distance similarity that the
 * phonetic similarity can only raise. Scores are reals; the source's
 * floating-point rounding is not modelled.
 */
module Similarity {
  import opened Text
  import opened EditDistance
  import opened Numbers

  /** `s.includes(t)`: `t` occurs in `s` as a contiguous substring. */
  function Contains(s: string, t: string): (b: bool)
    ensures b && |t| > 0 ==> |s| > 0
  {
    if |t| <= |s| && s[..|t|] == t then true
    else if s == [] then false
    else Contains(s[1..], t)
  }

  /** `n / m` over a positive denominator, bounded by where `n` lies. */
  function Ratio(n: int, m: int): (r: real)
    requires m > 0
    ensures n <= m ==> r <= 1.0
    ensures n < m ==> r < 1.0
    ensures n >= 0 ==> r >= 0.0
  {
    n as real / m as real
  }

  /** The recogniser confusions of app.js:768-777, in the source's order. */
  const Substitutions: seq<(string, string)> := [
    ("bano", "vano"), ("bano", "baho"), ("bano", "pano"), ("bano", "albano"), ("bano", "abano"),
    ("esta", "esta"), ("donde", "onde"), ("donde", "don"),
    ("el", "al"), ("el", "el"), ("baño", "bano"),
    ("al", "el"), ("la", "ya"), ("de", "del"), ("en", "an"),
    ("para", "pa"), ("porque", "por"), ("esta", "ta")
  ]

  /** The pair `(w1, w2)` is in the table, in either order. */
  ghost predicate InTable(w1: string, w2: string)
  {
    exists k :: 0 <= k < |Substitutions| && (Substitutions[k] == (w1, w2) || Substitutions[k] == (w2, w1))
  }

  /** The loop of app.js:779-783 from entry `k` on. */
  function ScanSubstitutions(w1: string, w2: string, k: nat): (r: real)
    requires k <= |Substitutions|
    ensures r == 0.95 || r == 0.0
    ensures r == 0.95 <==> exists k' :: k <= k' < |Substitutions| && (Substitutions[k'] == (w1, w2) || Substitutions[k'] == (w2, w1))
    decreases |Substitutions| - k
  {
    if k == |Substitutions| then 0.0
    else
      var (a, b) := Substitutions[k];
      if (w1 == a && w2 == b) || (w1 == b && w2 == a) then 0.95
      else ScanSubstitutions(w1, w2, k + 1)
  }

  /** `checkCommonSubstitutions`: 0.95 for a pair of the table in either order, otherwise 0. */
  function CheckCommonSubstitutions(w1: string, w2: string): (r: real)
    ensures r == 0.95 || r == 0.0
    ensures r == 0.95 <==> InTable(w1, w2)
  {
    ScanSubstitutions(w1, w2, 0)
  }

  /** `calculatePhoneticSimilarity`: 0.9 for equal patterns, otherwise the scaled edit similarity of the patterns. */
  function PhoneticSimilarity(w1: string, w2: string): (r: real)
    ensures r == 0.9 <==> ToPhoneticPattern(w1) == ToPhoneticPattern(w2)
    ensures r != 0.9 ==> 0.0 <= r < 0.8
  {
    PatternSimilarity(ToPhoneticPattern(w1), ToPhoneticPattern(w2))
  }

  /** The body of `calculatePhoneticSimilarity` once both patterns are known. */
  function PatternSimilarity(p1: string, p2: string): (r: real)
    ensures r == 0.9 <==> p1 == p2
    ensures r != 0.9 ==> 0.0 <= r < 0.8
  {
    if p1 == p2 then 0.9
    else
      var maxLen := IMax(|p1|, |p2|);
      if maxLen == 0 then 0.0
      else
        var distance := Dist(p1, p2);
        DistZeroIff(p1, p2);
        RMax(0.0, Ratio(maxLen - distance, maxLen) * 0.8)
  }

  lemma PatternSimilaritySymmetric(p1: string, p2: string)
    ensures PatternSimilarity(p1, p2) == PatternSimilarity(p2, p1)
  {
    DistSymmetric(p1, p2);
  }

  /** The phonetic similarity does not depend on the order of the words. */
  lemma PhoneticSimilaritySymmetric(w1: string, w2: string)
    ensures PhoneticSimilarity(w1, w2) == PhoneticSimilarity(w2, w1)
  {
    PatternSimilaritySymmetric(ToPhoneticPattern(w1), ToPhoneticPattern(w2));
  }

  /**
   * app.js:751-757: at most one boost, the first whose guard holds.
   * A boost never lowers the similarity and never lifts it above 1.
   */
  function Boost(maxLength: nat, similarity: real): (r: real)
    requires similarity <= 1.0
    ensures r <= 1.0
    ensures r >= similarity
    ensures similarity < 0.3 ==> r == similarity
  {
    if maxLength <= 3 && similarity >= 0.3 then RMin(1.0, similarity + 0.4)
    else if maxLength <= 5 && similarity >= 0.4 then RMin(1.0, similarity + 0.3)
    else if similarity >= 0.5 then RMin(1.0, similarity + 0.2)
    else similarity
  }

  /**
   * app.js:743-763, once the words are known to differ: `maxLength` is the
   * longer length of the words as given, `n1` and `n2` their
   * pronunciation-normalised forms. The edit similarity of app.js:748 is
   * `Ratio(maxLength - Dist(n1, n2), maxLength)`; it can be negative when
   * normalisation lengthens a word (`ExpandSharpS`), and the phonetic
   * similarity, never negative, lifts the maximum back to 0 or more.
   */
  function NormalizedSimilarity(maxLength: nat, n1: string, n2: string): (r: real)
    requires maxLength > 0
    ensures 0.0 <= r <= 1.0
    ensures n1 == n2 ==> r == 1.0
    // containment is tried before the table, so a table pair where one word contains the other scores 0.9
    ensures n1 != n2 && (Contains(n1, n2) || Contains(n2, n1)) ==> r == 0.9
    ensures n1 != n2 && !Contains(n1, n2) && !Contains(n2, n1) && InTable(n1, n2) ==> r == 0.95
    // otherwise the phonetic similarity is a floor
    ensures n1 != n2 && !Contains(n1, n2) && !Contains(n2, n1) && !InTable(n1, n2) ==> r >= PhoneticSimilarity(n1, n2)
  {
    if n1 == n2 then 1.0
    else if Contains(n1, n2) || Contains(n2, n1) then 0.9
    else
      var s1 := CheckCommonSubstitutions(n1, n2);
      if s1 > 0.8 then s1
      else EditOrPhonetic(maxLength, n1, n2)
  }

  /** `calculateWordSimilarity`. */
  function WordSimilarity(w1: string, w2: string): (r: real)
    ensures 0.0 <= r <= 1.0
    ensures w1 == w2 ==> r == 1.0
  {
    if w1 == w2 then 1.0
    else
      var maxLength := IMax(|w1|, |w2|);
      if maxLength == 0 then 1.0
      else NormalizedSimilarity(maxLength, NormalizeForPronunciation(w1), NormalizeForPronunciation(w2))
  }

  lemma NormalizedSimilaritySymmetric(maxLength: nat, n1: string, n2: string)
    requires maxLength > 0
    ensures NormalizedSimilarity(maxLength, n1, n2) == NormalizedSimilarity(maxLength, n2, n1)
  {
    if n1 != n2 && !Contains(n1, n2) && !Contains(n2, n1) {
      CheckCommonSubstitutionsSymmetric(n1, n2);
      if CheckCommonSubstitutions(n1, n2) <= 0.8 {
        TailSymmetric(maxLength, n1, n2);
      }
    }
  }

  /** The last step of app.js:748-763 on normalised words. */
  function EditOrPhonetic(maxLength: nat, n1: string, n2: string): (r: real)
    requires maxLength > 0
    ensures r >= PhoneticSimilarity(n1, n2)
    ensures r >= 0.0 && r <= 1.0
  {
    BoostedOrPhonetic(maxLength, Dist(n1, n2), PhoneticSimilarity(n1, n2))
  }

  /** The boosted edit similarity for an edit distance, with the phonetic similarity as a floor. */
  function BoostedOrPhonetic(maxLength: nat, distance: nat, phonetic: real): (r: real)
    requires maxLength > 0
    ensures r >= phonetic
    ensures phonetic <= 1.0 ==> r <= 1.0
  {
    RMax(Boost(maxLength, Ratio(maxLength - distance, maxLength)), phonetic)
  }

  lemma TailSymmetric(maxLength: nat, n1: string, n2: string)
    requires maxLength > 0
    ensures EditOrPhonetic(maxLength, n1, n2) == EditOrPhonetic(maxLength, n2, n1)
  {
    DistSymmetric(n1, n2);
    PhoneticSimilaritySymmetric(n1, n2);
  }

  lemma CheckCommonSubstitutionsSymmetric(w1: string, w2: string)
    ensures CheckCommonSubstitutions(w1, w2) == CheckCommonSubstitutions(w2, w1)
  {
    assert InTable(w1, w2) <==> InTable(w2, w1);
  }

  /** The similarity does not depend on the order of the words. */
  lemma WordSimilaritySymmetric(w1: string, w2: string)
    ensures WordSimilarity(w1, w2) == WordSimilarity(w2, w1)
  {
    if w1 != w2 && IMax(|w1|, |w2|) > 0 {
      NormalizedSimilaritySymmetric(IMax(|w1|, |w2|), NormalizeForPronunciation(w1), NormalizeForPronunciation(w2));
    }
  }

  /** A prefix is contained. */
  lemma PrefixContained(s: string, t: string)
    requires |t| <= |s| && s[..|t|] == t
    ensures Contains(s, t)
  {
  }

  /**
   * Two different words that normalisation leaves as they are, one
   * containing the other, score 0.9, whatever the table says about them.
   */
  lemma ContainmentScores(w1: string, w2: string)
    requires w1 != w2
    requires NormalizeForPronunciation(w1) == w1 && NormalizeForPronunciation(w2) == w2
    requires Contains(w1, w2)
    ensures WordSimilarity(w1, w2) == 0.9
  {
  }

  /** `para`/`pa` is a table pair, but `para` contains `pa`: the score is 0.9. */
  lemma ParaPaScoresContainment()
    ensures WordSimilarity("para", "pa") == 0.9
  {
    ParaPaFixed();
    assert "para"[..|"pa"|] == "pa";
    PrefixContained("para", "pa");
    ContainmentScores("para", "pa");
  }

  lemma ParaPaFixed()
    ensures NormalizeForPronunciation("para") == "para" && NormalizeForPronunciation("pa") == "pa"
  {
    PlainFixed("para");
    PlainFixed("pa");
  }

  lemma PlainFixed(w: string)
    requires w == "para" || w == "pa"
    ensures NormalizeForPronunciation(w) == w
  {
    PronunciationFixed(w);
  }
}
