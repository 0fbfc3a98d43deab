/**
 * `calculateWordAccuracy` and `generateWordFeedback` (app.js:507-588,
 * 653-665): every expected word is matched against its most similar spoken
 * word, graded into correct, partial or incorrect, and the credits are turned
 * into a score out of 100 with a penalty for extra words and a bonus for good
 * attempts.
 */
module WordAccuracy {
  import opened Text
  import opened Similarity
  import opened Numbers

  datatype Status = Correct | Partial | Incorrect

  /** One entry of `details`: the expected word, the spoken word it was matched with and the grade. */
  datatype Detail = Detail(expected: string, actual: string, status: Status)

  /** `bestMatch`: the best similarity seen so far and the spoken word that gave it. */
  datatype Match = Match(score: real, word: string)

  /** The state of the outer loop of app.js:517-546. */
  datatype Tally = Tally(correct: nat, partial: real, anyMatch: bool, details: seq<Detail>)

  datatype WordAccuracyResult = WordAccuracyResult(
    score: int,
    correctWords: nat,
    totalWords: nat,
    extraWords: nat,
    details: seq<Detail>,
    feedback: string)

  // ---------------------------------------------------------------------
  // Best match (app.js:522-527)
  // ---------------------------------------------------------------------

  /**
   * The inner loop over `spoken`: a later word replaces the best only when it
   * is strictly more similar, starting from score 0 and the empty word. The
   * similarity `sim` is a parameter here; the scorer uses `WordSimilarity`.
   */
  function BestOf(sim: (string, string) -> real, expected: string, spoken: seq<string>): (m: Match)
    ensures m.score >= 0.0
    ensures m.score == 0.0 ==> m.word == []
  {
    if spoken == [] then Match(0.0, [])
    else
      var m := BestOf(sim, expected, spoken[..|spoken| - 1]);
      var similarity := sim(expected, spoken[|spoken| - 1]);
      if similarity > m.score then Match(similarity, spoken[|spoken| - 1]) else m
  }

  /** The best score is at least the similarity of every spoken word. */
  lemma {:induction false} BestIsMaximal(sim: (string, string) -> real, expected: string, spoken: seq<string>)
    ensures forall j :: 0 <= j < |spoken| ==> sim(expected, spoken[j]) <= BestOf(sim, expected, spoken).score
  {
    if spoken != [] {
      var p := spoken[..|spoken| - 1];
      BestIsMaximal(sim, expected, p);
      assert forall j :: 0 <= j < |p| ==> p[j] == spoken[j];
    }
  }

  /**
   * A non-zero best comes from the first spoken word reaching it: every
   * earlier word is strictly less similar.
   */
  lemma {:induction false} BestIsFirst(sim: (string, string) -> real, expected: string, spoken: seq<string>)
    ensures BestOf(sim, expected, spoken).score > 0.0 ==>
      exists j :: 0 <= j < |spoken| && spoken[j] == BestOf(sim, expected, spoken).word &&
        sim(expected, spoken[j]) == BestOf(sim, expected, spoken).score &&
        forall j' :: 0 <= j' < j ==> sim(expected, spoken[j']) < BestOf(sim, expected, spoken).score
  {
    if spoken != [] {
      var p := spoken[..|spoken| - 1];
      var m := BestOf(sim, expected, p);
      BestIsFirst(sim, expected, p);
      BestIsMaximal(sim, expected, p);
      assert forall j :: 0 <= j < |p| ==> p[j] == spoken[j];
      if sim(expected, spoken[|spoken| - 1]) > m.score {
        var j := |spoken| - 1;
        assert forall j' :: 0 <= j' < j ==> sim(expected, spoken[j']) <= m.score;
      } else if m.score > 0.0 {
        var j :| 0 <= j < |p| && p[j] == m.word && sim(expected, p[j]) == m.score &&
          forall j' :: 0 <= j' < j ==> sim(expected, p[j']) < m.score;
        assert spoken[j] == m.word;
      }
    }
  }

  // ---------------------------------------------------------------------
  // Grading (app.js:530-545)
  // ---------------------------------------------------------------------

  /** The grade of a best score: 0.85 and above correct, 0.55 and above partial, otherwise incorrect. */
  function Grade(score: real): (s: Status)
    ensures s == Correct <==> score >= 0.85
    ensures s == Partial <==> 0.55 <= score < 0.85
  {
    if score >= 0.85 then Correct else if score >= 0.55 then Partial else Incorrect
  }

  /** One pass of the outer loop body for expected word `e` with best match `m`. */
  function Step(t: Tally, e: string, m: Match): (r: Tally)
  {
    var d := Detail(e, m.word, Grade(m.score));
    if m.score >= 0.85 then Tally(t.correct + 1, t.partial, true, t.details + [d])
    else if m.score >= 0.55 then Tally(t.correct, t.partial + 0.8, true, t.details + [d])
    else if m.score >= 0.3 then Tally(t.correct, t.partial + 0.2, t.anyMatch || m.score > 0.3, t.details + [d])
    else Tally(t.correct, t.partial, t.anyMatch, t.details + [d])
  }

  /** The partial credit of a best score. */
  function PartialCredit(score: real): (c: real)
    ensures 0.0 <= c <= 0.8
  {
    if score >= 0.85 then 0.0 else if score >= 0.55 then 0.8 else if score >= 0.3 then 0.2 else 0.0
  }

  /**
   * Step by step: every expected word adds one detail, a correct word adds one
   * to `correct`, a partial or weak grade adds its partial credit, and a best
   * score above 0.3 (and only that) marks a match.
   */
  lemma StepEffect(t: Tally, e: string, m: Match)
    ensures Step(t, e, m).details == t.details + [Detail(e, m.word, Grade(m.score))]
    ensures Step(t, e, m).correct == t.correct + (if m.score >= 0.85 then 1 else 0)
    ensures Step(t, e, m).partial == t.partial + PartialCredit(m.score)
    ensures Step(t, e, m).anyMatch <==> t.anyMatch || m.score > 0.3
  {
  }

  /** The outer loop over the first expected words. */
  function TallyOf(sim: (string, string) -> real, expected: seq<string>, spoken: seq<string>): (t: Tally)
  {
    if expected == [] then Tally(0, 0.0, false, [])
    else
      var e := expected[|expected| - 1];
      Step(TallyOf(sim, expected[..|expected| - 1], spoken), e, BestOf(sim, e, spoken))
  }

  /** The tally of one more expected word is one more step. */
  lemma TallyOfPrefix(sim: (string, string) -> real, expected: seq<string>, spoken: seq<string>, i: nat)
    requires i < |expected|
    ensures TallyOf(sim, expected[..i + 1], spoken) == Step(TallyOf(sim, expected[..i], spoken), expected[i], BestOf(sim, expected[i], spoken))
  {
    assert expected[..i + 1][..i] == expected[..i];
  }

  /** The number of details graded correct. */
  function CountCorrect(details: seq<Detail>): (n: nat)
    ensures n <= |details|
  {
    if details == [] then 0
    else CountCorrect(details[..|details| - 1]) + (if details[|details| - 1].status == Correct then 1 else 0)
  }

  /**
   * What the outer loop computes: one detail per expected word, in order and
   * graded by its best match; `correct` counts the correct details; the credits
   * add up to at most one per word; a match is recorded exactly when some
   * expected word's best score exceeds 0.3.
   */
  lemma TallyShape(sim: (string, string) -> real, expected: seq<string>, spoken: seq<string>)
    ensures |TallyOf(sim, expected, spoken).details| == |expected|
    ensures forall i :: 0 <= i < |expected| ==>
      TallyOf(sim, expected, spoken).details[i] ==
        Detail(expected[i], BestOf(sim, expected[i], spoken).word, Grade(BestOf(sim, expected[i], spoken).score))
    ensures TallyOf(sim, expected, spoken).correct == CountCorrect(TallyOf(sim, expected, spoken).details)
    ensures 0.0 <= TallyOf(sim, expected, spoken).partial
    ensures TallyOf(sim, expected, spoken).correct as real + TallyOf(sim, expected, spoken).partial <= |expected| as real
    ensures TallyOf(sim, expected, spoken).anyMatch <==> exists i :: 0 <= i < |expected| && BestOf(sim, expected[i], spoken).score > 0.3
    ensures TallyOf(sim, expected, spoken).correct > 0 ==> TallyOf(sim, expected, spoken).anyMatch
  {
    TallyDetails(sim, expected, spoken);
    TallyCredits(sim, expected, spoken);
  }

  /** One detail per expected word, in order, graded by its best match; `correct` counts the correct ones. */
  lemma {:induction false} TallyDetails(sim: (string, string) -> real, expected: seq<string>, spoken: seq<string>)
    ensures |TallyOf(sim, expected, spoken).details| == |expected|
    ensures forall i :: 0 <= i < |expected| ==>
      TallyOf(sim, expected, spoken).details[i] ==
        Detail(expected[i], BestOf(sim, expected[i], spoken).word, Grade(BestOf(sim, expected[i], spoken).score))
    ensures TallyOf(sim, expected, spoken).correct == CountCorrect(TallyOf(sim, expected, spoken).details)
  {
    if expected != [] {
      var p := expected[..|expected| - 1];
      var e := expected[|expected| - 1];
      var t := TallyOf(sim, p, spoken);
      var m := BestOf(sim, e, spoken);
      TallyDetails(sim, p, spoken);
      StepEffect(t, e, m);
      var t' := TallyOf(sim, expected, spoken);
      assert t'.details[..|p|] == t.details;
      assert forall i :: 0 <= i < |p| ==> p[i] == expected[i];
    }
  }

  /** The credits add up to at most one per word; a match is recorded exactly when some best score exceeds 0.3. */
  lemma {:induction false} TallyCredits(sim: (string, string) -> real, expected: seq<string>, spoken: seq<string>)
    ensures 0.0 <= TallyOf(sim, expected, spoken).partial
    ensures TallyOf(sim, expected, spoken).correct as real + TallyOf(sim, expected, spoken).partial <= |expected| as real
    ensures TallyOf(sim, expected, spoken).anyMatch <==> exists i :: 0 <= i < |expected| && BestOf(sim, expected[i], spoken).score > 0.3
    ensures TallyOf(sim, expected, spoken).correct > 0 ==> TallyOf(sim, expected, spoken).anyMatch
  {
    if expected != [] {
      var p := expected[..|expected| - 1];
      var e := expected[|expected| - 1];
      var t := TallyOf(sim, p, spoken);
      var m := BestOf(sim, e, spoken);
      TallyCredits(sim, p, spoken);
      StepEffect(t, e, m);
      var t' := TallyOf(sim, expected, spoken);
      if t'.anyMatch && !(m.score > 0.3) {
        var i :| 0 <= i < |p| && BestOf(sim, p[i], spoken).score > 0.3;
        assert expected[i] == p[i];
      }
      if !t'.anyMatch {
        forall i | 0 <= i < |expected| ensures BestOf(sim, expected[i], spoken).score <= 0.3 {
          if i < |p| {
            assert expected[i] == p[i];
          }
        }
      }
    }
  }

  /** When every expected word is matched with a best score of 0.85 or more, every word is correct and no partial credit is given. */
  lemma {:induction false} TallyAllCorrect(sim: (string, string) -> real, expected: seq<string>, spoken: seq<string>)
    requires forall i :: 0 <= i < |expected| ==> BestOf(sim, expected[i], spoken).score >= 0.85
    ensures TallyOf(sim, expected, spoken).correct == |expected|
    ensures TallyOf(sim, expected, spoken).partial == 0.0
    ensures |expected| > 0 ==> TallyOf(sim, expected, spoken).anyMatch
  {
    if expected != [] {
      var p := expected[..|expected| - 1];
      assert forall i :: 0 <= i < |p| ==> p[i] == expected[i];
      TallyAllCorrect(sim, p, spoken);
    }
  }

  // ---------------------------------------------------------------------
  // Score (app.js:561-578)
  // ---------------------------------------------------------------------

  /** app.js:566-571: more than two extra words cost 10 points each, one or two cost 5 each, never below 0. */
  function Penalize(score: int, extra: nat): (r: int)
    ensures extra == 0 ==> r == score
    ensures extra > 0 ==> r >= 0
    ensures score >= 0 ==> 0 <= r <= score
  {
    if extra > 2 then IMax(0, score - extra * 10)
    else if extra > 0 then IMax(0, score - extra * 5)
    else score
  }

  /** app.js:573-578: 8 points from 70 on, 5 points from 50 on, never above 100. */
  function Bonus(score: int): (r: int)
    ensures score < 50 ==> r == score
    ensures score <= 100 ==> score <= r <= 100
  {
    if score >= 70 then IMin(100, score + 8)
    else if score >= 50 then IMin(100, score + 5)
    else score
  }

  /** The score of app.js:561-578 for the fraction `raw` of credited words and `extra` extra words. */
  function AccuracyScore(raw: real, extra: nat): (score: int)
    ensures 0 <= score <= 100
  {
    IMax(0, IMin(100, Bonus(Penalize(Round(raw * 100.0), extra))))
  }

  /** A penalty grows with the number of extra words. */
  lemma PenalizeMonotone(score: int, score': int, extra: nat, extra': nat)
    requires 0 <= score <= score' && extra' <= extra
    ensures Penalize(score, extra) <= Penalize(score', extra')
  {
  }

  /** The bonus keeps order: a better score before the bonus is never a worse one after it. */
  lemma BonusMonotone(score: int, score': int)
    requires score <= score'
    ensures Bonus(score) <= Bonus(score')
  {
  }

  /** More credit never lowers the score; more extra words never raise it. */
  lemma AccuracyScoreMonotone(raw: real, raw': real, extra: nat, extra': nat)
    requires 0.0 <= raw <= raw' && extra' <= extra
    ensures AccuracyScore(raw, extra) <= AccuracyScore(raw', extra')
  {
    RoundMonotone(raw * 100.0, raw' * 100.0);
    PenalizeMonotone(Round(raw * 100.0), Round(raw' * 100.0), extra, extra');
    BonusMonotone(Penalize(Round(raw * 100.0), extra), Penalize(Round(raw' * 100.0), extra'));
  }

  /** Full credit with no extra words scores 100. */
  lemma AccuracyScoreFull()
    ensures AccuracyScore(1.0, 0) == 100
  {
    RoundInt(100);
  }

  // ---------------------------------------------------------------------
  // Feedback (app.js:653-665)
  // ---------------------------------------------------------------------

  /**
   * The band of `generateWordFeedback`: by the rounded percentage of correct
   * words, 3 for 90 and above, 2 from 75, 1 from 60, else 0. With no words at
   * all the percentage is `NaN`, every comparison fails and the band is 0.
   */
  function WordFeedbackTier(correct: nat, total: nat): (n: nat)
    ensures n <= 3
  {
    if total == 0 then 0
    else
      var percentage := Round(correct as real / total as real * 100.0);
      if percentage >= 90 then 3
      else if percentage >= 75 then 2
      else if percentage >= 60 then 1
      else 0
  }

  /** `generateWordFeedback`: one message per band; the extra-word count is not used. */
  function WordFeedback(correct: nat, total: nat, extra: nat): (f: string)
  {
    match WordFeedbackTier(correct, total)
    case 3 => "Excellent word accuracy!"
    case 2 => "Good pronunciation, keep practicing!"
    case 1 => "Getting better, focus on unclear words"
    case _ => "Keep practicing, you're improving!"
  }

  /** More correct words out of the same total never fall in a lower band; all words correct is the top band. */
  lemma WordFeedbackMonotone(correct: nat, correct': nat, total: nat)
    requires correct <= correct'
    ensures WordFeedbackTier(correct, total) <= WordFeedbackTier(correct', total)
    ensures total > 0 ==> WordFeedbackTier(total, total) == 3
  {
    if total > 0 {
      assert correct as real / total as real * 100.0 <= correct' as real / total as real * 100.0 by {
        DivideMonotone(correct as real, correct' as real, total as real);
      }
      RoundMonotone(correct as real / total as real * 100.0, correct' as real / total as real * 100.0);
      assert total as real / total as real * 100.0 == 100.0;
      RoundInt(100);
    }
  }

  lemma DivideMonotone(x: real, y: real, d: real)
    requires x <= y && d > 0.0
    ensures x / d * 100.0 <= y / d * 100.0
  {
  }

  // ---------------------------------------------------------------------
  // The whole computation
  // ---------------------------------------------------------------------

  /** app.js:548-587 once the outer loop is done; `total` and `spokenCount` are the word counts. */
  function Finish(t: Tally, total: nat, spokenCount: nat): (r: WordAccuracyResult)
    requires t.anyMatch ==> total > 0
  {
    if !t.anyMatch then
      WordAccuracyResult(0, 0, total, spokenCount, t.details, "Try saying the phrase in the target language")
    else
      var extra := if spokenCount > total then spokenCount - total else 0;
      var raw := (t.correct as real + t.partial) / total as real;
      WordAccuracyResult(AccuracyScore(raw, extra), t.correct, total, extra, t.details, WordFeedback(t.correct, total, extra))
  }

  /** `calculateWordAccuracy` as a function of the two phrases. */
  function WordAccuracyOf(original: string, spoken: string): (r: WordAccuracyResult)
  {
    AccuracyOfWords(WordSimilarity, Words(original), Words(spoken))
  }

  /** The result for the expected words `expected` and the spoken words `heard` under the similarity `sim`. */
  function AccuracyOfWords(sim: (string, string) -> real, expected: seq<string>, heard: seq<string>): (r: WordAccuracyResult)
  {
    TallyShape(sim, expected, heard);
    Finish(TallyOf(sim, expected, heard), |expected|, |heard|)
  }

  /** `calculateWordAccuracy`: the word lists, the loops of app.js:517-546, then the scoring of app.js:548-587. */
  method CalculateWordAccuracy(original: string, spoken: string) returns (r: WordAccuracyResult)
    ensures r == WordAccuracyOf(original, spoken)
  {
    var originalWords := Words(original);
    var spokenWords := Words(spoken);
    var t := MatchWords(originalWords, spokenWords);
    r := ScoreTally(t, |originalWords|, |spokenWords|);
  }

  /** The loops of app.js:517-546: every expected word graded by its best spoken match. */
  method MatchWords(originalWords: seq<string>, spokenWords: seq<string>) returns (t: Tally)
    ensures t == TallyOf(WordSimilarity, originalWords, spokenWords)
  {
    // correctWords, partialMatches, hasAnyMatch and wordDetails of app.js:511-514
    t := Tally(0, 0.0, false, []);
    for i := 0 to |originalWords|
      invariant t == TallyOf(WordSimilarity, originalWords[..i], spokenWords)
    {
      var expectedWord := originalWords[i];
      var bestMatch := FindBestMatch(expectedWord, spokenWords);
      t := GradeWord(t, expectedWord, bestMatch);
      TallyOfPrefix(WordSimilarity, originalWords, spokenWords, i);
    }
    assert originalWords[..|originalWords|] == originalWords;
  }

  /** app.js:530-545: the counters and the detail for one expected word and its best match. */
  method GradeWord(t: Tally, expectedWord: string, bestMatch: Match) returns (r: Tally)
    ensures r == Step(t, expectedWord, bestMatch)
  {
    var correctWords, partialMatches, hasAnyMatch, details := t.correct, t.partial, t.anyMatch, t.details;
    if bestMatch.score >= 0.85 {
      correctWords := correctWords + 1;
      hasAnyMatch := true;
      details := details + [Detail(expectedWord, bestMatch.word, Correct)];
    } else if bestMatch.score >= 0.55 {
      partialMatches := partialMatches + 0.8;
      hasAnyMatch := true;
      details := details + [Detail(expectedWord, bestMatch.word, Partial)];
    } else if bestMatch.score >= 0.3 {
      partialMatches := partialMatches + 0.2;
      if bestMatch.score > 0.3 {
        hasAnyMatch := true;
      }
      details := details + [Detail(expectedWord, bestMatch.word, Incorrect)];
    } else {
      details := details + [Detail(expectedWord, bestMatch.word, Incorrect)];
    }
    r := Tally(correctWords, partialMatches, hasAnyMatch, details);
  }

  /** The inner loop of app.js:522-527 over the spoken words, in order. */
  method FindBestMatch(expectedWord: string, spokenWords: seq<string>) returns (bestMatch: Match)
    ensures bestMatch == BestOf(WordSimilarity, expectedWord, spokenWords)
  {
    bestMatch := Match(0.0, []);
    for j := 0 to |spokenWords|
      invariant bestMatch == BestOf(WordSimilarity, expectedWord, spokenWords[..j])
    {
      var spokenWord := spokenWords[j];
      var similarity := WordSimilarity(expectedWord, spokenWord);
      if similarity > bestMatch.score {
        bestMatch := Match(similarity, spokenWord);
      }
      assert spokenWords[..j + 1][..j] == spokenWords[..j];
    }
    assert spokenWords[..|spokenWords|] == spokenWords;
  }

  /** app.js:548-587: the zero result when nothing matched, otherwise the penalised and boosted score. */
  method ScoreTally(t: Tally, total: nat, spokenCount: nat) returns (r: WordAccuracyResult)
    requires t.anyMatch ==> total > 0
    ensures r == Finish(t, total, spokenCount)
  {
    if !t.anyMatch {
      return WordAccuracyResult(0, 0, total, spokenCount, t.details, "Try saying the phrase in the target language");
    }
    var extraWords := if spokenCount > total then spokenCount - total else 0;
    var rawScore := (t.correct as real + t.partial) / total as real;
    var score := Round(rawScore * 100.0);
    if extraWords > 2 {
      score := IMax(0, score - extraWords * 10);
    } else if extraWords > 0 {
      score := IMax(0, score - extraWords * 5);
    }
    if score >= 70 {
      score := IMin(100, score + 8);
    } else if score >= 50 {
      score := IMin(100, score + 5);
    }
    r := WordAccuracyResult(IMax(0, IMin(100, score)), t.correct, total, extraWords, t.details,
      WordFeedback(t.correct, total, extraWords));
  }

  // ---------------------------------------------------------------------
  // Properties of the result
  // ---------------------------------------------------------------------

  /**
   * One detail per expected word, in order; the score is an integer from 0 to
   * 100; `correctWords` counts the details graded correct.
   */
  lemma AccuracyOfWordsShape(sim: (string, string) -> real, expected: seq<string>, heard: seq<string>)
    ensures |AccuracyOfWords(sim, expected, heard).details| == |expected| == AccuracyOfWords(sim, expected, heard).totalWords
    ensures forall i :: 0 <= i < |expected| ==> AccuracyOfWords(sim, expected, heard).details[i].expected == expected[i]
    ensures 0 <= AccuracyOfWords(sim, expected, heard).score <= 100
    ensures AccuracyOfWords(sim, expected, heard).correctWords == CountCorrect(AccuracyOfWords(sim, expected, heard).details)
    ensures (forall i :: 0 <= i < |expected| ==> BestOf(sim, expected[i], heard).score <= 0.3) ==>
      AccuracyOfWords(sim, expected, heard).score == 0 && AccuracyOfWords(sim, expected, heard).correctWords == 0 &&
      AccuracyOfWords(sim, expected, heard).extraWords == |heard|
  {
    var t := TallyOf(sim, expected, heard);
    TallyShape(sim, expected, heard);
    FinishShape(t, |expected|, |heard|);
  }

  /** The result keeps the tally's details and correct count, and is 0 with no extra-word cut when nothing matched. */
  lemma FinishShape(t: Tally, total: nat, spokenCount: nat)
    requires t.anyMatch ==> total > 0
    ensures Finish(t, total, spokenCount).details == t.details
    ensures Finish(t, total, spokenCount).totalWords == total
    ensures 0 <= Finish(t, total, spokenCount).score <= 100
    ensures t.anyMatch ==> Finish(t, total, spokenCount).correctWords == t.correct
    ensures !t.anyMatch ==>
      Finish(t, total, spokenCount).score == 0 && Finish(t, total, spokenCount).correctWords == 0 &&
      Finish(t, total, spokenCount).extraWords == spokenCount
  {
  }

  /**
   * One detail per expected word, in order; the score is an integer from 0 to
   * 100; `correctWords` counts the details graded correct. When no expected
   * word has a best match above 0.3 (in particular for an empty phrase) the
   * score is 0, no word counts as correct and every spoken word counts as
   * extra.
   */
  lemma WordAccuracyShape(original: string, spoken: string)
    ensures |WordAccuracyOf(original, spoken).details| == |Words(original)| == WordAccuracyOf(original, spoken).totalWords
    ensures forall i :: 0 <= i < |Words(original)| ==> WordAccuracyOf(original, spoken).details[i].expected == Words(original)[i]
    ensures 0 <= WordAccuracyOf(original, spoken).score <= 100
    ensures WordAccuracyOf(original, spoken).correctWords == CountCorrect(WordAccuracyOf(original, spoken).details)
    ensures (forall i :: 0 <= i < |Words(original)| ==> BestOf(WordSimilarity, Words(original)[i], Words(spoken)).score <= 0.3) ==>
      WordAccuracyOf(original, spoken).score == 0 && WordAccuracyOf(original, spoken).correctWords == 0 &&
      WordAccuracyOf(original, spoken).extraWords == |Words(spoken)|
  {
    AccuracyOfWordsShape(WordSimilarity, Words(original), Words(spoken));
  }

  /** Matching a list of words against itself scores 100 with every word correct, when each word is similar enough to itself. */
  lemma SelfMatchWords(sim: (string, string) -> real, ws: seq<string>)
    requires |ws| > 0
    requires forall i :: 0 <= i < |ws| ==> sim(ws[i], ws[i]) >= 0.85
    ensures AccuracyOfWords(sim, ws, ws).score == 100
    ensures AccuracyOfWords(sim, ws, ws).correctWords == |ws|
    ensures AccuracyOfWords(sim, ws, ws).extraWords == 0
  {
    forall i | 0 <= i < |ws| ensures BestOf(sim, ws[i], ws).score >= 0.85 {
      BestIsMaximal(sim, ws[i], ws);
    }
    TallyAllCorrect(sim, ws, ws);
    var t := TallyOf(sim, ws, ws);
    assert (t.correct as real + t.partial) / |ws| as real == 1.0;
    AccuracyScoreFull();
  }

  /** Saying exactly the phrase scores 100 with every word correct, whenever the phrase has a word. */
  lemma SelfMatchScoresFull(phrase: string)
    requires |Words(phrase)| > 0
    ensures WordAccuracyOf(phrase, phrase).score == 100
    ensures WordAccuracyOf(phrase, phrase).correctWords == |Words(phrase)|
    ensures WordAccuracyOf(phrase, phrase).extraWords == 0
  {
    var ws := Words(phrase);
    forall i | 0 <= i < |ws| ensures WordSimilarity(ws[i], ws[i]) >= 0.85 {
    }
    SelfMatchWords(WordSimilarity, ws);
  }
}
