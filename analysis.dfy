/**
 * `analyzeSpeech` and `generateOverallFeedback` (app.js:464-505, 928-942):
 * the three component scores and their weighted overall score, with word
 * accuracy dominating: a word-accuracy score of 0 zeroes every other score.
 */
module Analysis {
  import opened Numbers
  import opened WordAccuracy
  import opened TimingFluency

  datatype SpeechAnalysis = SpeechAnalysis(
    wordAccuracy: WordAccuracyResult,
    timing: TimingResult,
    fluency: FluencyResult,
    overall: int,
    duration: int,
    expectedDuration: real)

  /** The weighted average of app.js:490-494. */
  function Weighted(words: int, timing: int, fluency: int): (overall: int)
  {
    Round(words as real * 0.6 + timing as real * 0.2 + fluency as real * 0.2)
  }

  /** The overall score lies between the lowest and the highest component score. */
  lemma WeightedBetween(words: int, timing: int, fluency: int)
    ensures IMin(words, IMin(timing, fluency)) <= Weighted(words, timing, fluency) <= IMax(words, IMax(timing, fluency))
  {
    var lo := IMin(words, IMin(timing, fluency));
    var hi := IMax(words, IMax(timing, fluency));
    RoundBetween(words as real * 0.6 + timing as real * 0.2 + fluency as real * 0.2, lo, hi);
  }

  /** A better component never lowers the overall score. */
  lemma WeightedMonotone(words: int, timing: int, fluency: int, words': int, timing': int, fluency': int)
    requires words <= words' && timing <= timing' && fluency <= fluency'
    ensures Weighted(words, timing, fluency) <= Weighted(words', timing', fluency')
  {
    RoundMonotone(words as real * 0.6 + timing as real * 0.2 + fluency as real * 0.2,
      words' as real * 0.6 + timing' as real * 0.2 + fluency' as real * 0.2);
  }

  /** app.js:472-504 once the three component results are known. */
  function Combine(wordAccuracy: WordAccuracyResult, timing: TimingResult, fluency: FluencyResult, actualDuration: int, expectedDuration: real): (a: SpeechAnalysis)
  {
    if wordAccuracy.score == 0 then
      SpeechAnalysis(wordAccuracy,
        timing.(score := 0, feedback := "Please try the target phrase"),
        fluency.(score := 0, feedback := "Focus on saying the correct words"),
        0, actualDuration, expectedDuration)
    else
      SpeechAnalysis(wordAccuracy, timing, fluency,
        Weighted(wordAccuracy.score, timing.score, fluency.score), actualDuration, expectedDuration)
  }

  /**
   * `analyzeSpeech` for a duration of `actualDuration` milliseconds, the
   * session's expected duration and its number of interim results.
   */
  function Analyze(original: string, spoken: string, actualDuration: int, expectedDuration: real, interimCount: nat): (a: SpeechAnalysis)
    requires expectedDuration > 0.0
  {
    Combine(WordAccuracyOf(original, spoken), TimingScore(actualDuration, expectedDuration),
      FluencyScore(interimCount, actualDuration, expectedDuration), actualDuration, expectedDuration)
  }

  /** The body of `analyzeSpeech` (app.js:470-504) once the duration is known: word accuracy first, then the scores. */
  method AnalyzeOver(original: string, spoken: string, actualDuration: int, expectedDuration: real, interimCount: nat) returns (a: SpeechAnalysis)
    requires expectedDuration > 0.0
    ensures a == Analyze(original, spoken, actualDuration, expectedDuration, interimCount)
  {
    var wordAccuracy := CalculateWordAccuracy(original, spoken);
    a := ScoreAnalysis(wordAccuracy, actualDuration, expectedDuration, interimCount);
    AnalyzeOfParts(original, spoken, actualDuration, expectedDuration, interimCount, wordAccuracy);
  }

  /** app.js:472-504: the timing and fluency scores, zeroed when no word matched, and the overall score. */
  method ScoreAnalysis(wordAccuracy: WordAccuracyResult, actualDuration: int, expectedDuration: real, interimCount: nat) returns (a: SpeechAnalysis)
    requires expectedDuration > 0.0
    ensures a == Combine(wordAccuracy, TimingScore(actualDuration, expectedDuration), FluencyScore(interimCount, actualDuration, expectedDuration), actualDuration, expectedDuration)
  {
    var timingScore := TimingScore(actualDuration, expectedDuration);
    if wordAccuracy.score == 0 {
      timingScore := timingScore.(score := 0, feedback := "Please try the target phrase");
    }
    var fluencyScore := FluencyScore(interimCount, actualDuration, expectedDuration);
    if wordAccuracy.score == 0 {
      fluencyScore := fluencyScore.(score := 0, feedback := "Focus on saying the correct words");
    }
    var overallScore;
    if wordAccuracy.score == 0 {
      overallScore := 0;
    } else {
      overallScore := Weighted(wordAccuracy.score, timingScore.score, fluencyScore.score);
    }
    a := SpeechAnalysis(wordAccuracy, timingScore, fluencyScore, overallScore, actualDuration, expectedDuration);
  }

  /** The analysis once the word-accuracy result is known. */
  lemma AnalyzeOfParts(original: string, spoken: string, actualDuration: int, expectedDuration: real, interimCount: nat, wordAccuracy: WordAccuracyResult)
    requires expectedDuration > 0.0 && wordAccuracy == WordAccuracyOf(original, spoken)
    ensures Analyze(original, spoken, actualDuration, expectedDuration, interimCount) ==
      Combine(wordAccuracy, TimingScore(actualDuration, expectedDuration), FluencyScore(interimCount, actualDuration, expectedDuration), actualDuration, expectedDuration)
  {
  }

  /**
   * Word accuracy dominates: a word-accuracy score of 0 zeroes the timing,
   * fluency and overall scores; otherwise every component is kept and the
   * overall score is their weighted average, between the lowest and the
   * highest of them, and so between 0 and 100. The other fields of the
   * timing and fluency results are kept either way.
   */
  lemma CombineDominance(wordAccuracy: WordAccuracyResult, timing: TimingResult, fluency: FluencyResult, actualDuration: int, expectedDuration: real)
    ensures var a := Combine(wordAccuracy, timing, fluency, actualDuration, expectedDuration);
      a.wordAccuracy == wordAccuracy && a.duration == actualDuration && a.expectedDuration == expectedDuration &&
      a.timing.ratio == timing.ratio && a.fluency.wordsPerSecond == fluency.wordsPerSecond
    ensures var a := Combine(wordAccuracy, timing, fluency, actualDuration, expectedDuration);
      wordAccuracy.score == 0 ==> a.timing.score == 0 && a.fluency.score == 0 && a.overall == 0
    ensures var a := Combine(wordAccuracy, timing, fluency, actualDuration, expectedDuration);
      wordAccuracy.score != 0 ==>
        a.timing == timing && a.fluency == fluency &&
        a.overall == Weighted(wordAccuracy.score, timing.score, fluency.score) &&
        IMin(wordAccuracy.score, IMin(timing.score, fluency.score)) <= a.overall <= IMax(wordAccuracy.score, IMax(timing.score, fluency.score))
  {
    WeightedBetween(wordAccuracy.score, timing.score, fluency.score);
  }

  /** Every score of an analysis is between 0 and 100. */
  lemma AnalyzeBounds(original: string, spoken: string, actualDuration: int, expectedDuration: real, interimCount: nat)
    requires expectedDuration > 0.0
    ensures var a := Analyze(original, spoken, actualDuration, expectedDuration, interimCount);
      0 <= a.wordAccuracy.score <= 100 && 0 <= a.timing.score <= 100 && 0 <= a.fluency.score <= 100 && 0 <= a.overall <= 100
    ensures var a := Analyze(original, spoken, actualDuration, expectedDuration, interimCount);
      a.wordAccuracy.score == 0 <==> a.overall == 0
  {
    var w := WordAccuracyOf(original, spoken);
    var t := TimingScore(actualDuration, expectedDuration);
    var f := FluencyScore(interimCount, actualDuration, expectedDuration);
    WordAccuracyShape(original, spoken);
    CombineDominance(w, t, f, actualDuration, expectedDuration);
  }

  /** The band of an overall score, 5 for 95 and above down to 0 below 50. */
  function OverallTier(score: int): (n: nat)
    ensures n <= 5
  {
    if score >= 95 then 5
    else if score >= 85 then 4
    else if score >= 75 then 3
    else if score >= 65 then 2
    else if score >= 50 then 1
    else 0
  }

  /** `generateOverallFeedback`: one message per band. */
  function OverallFeedback(score: int): (f: string)
  {
    match OverallTier(score)
    case 5 => "Outstanding! Your pronunciation is excellent!"
    case 4 => "Excellent work! You're speaking very well!"
    case 3 => "Great job! Keep up the good practice!"
    case 2 => "Good effort! You're making solid progress!"
    case 1 => "Nice try! Focus on the areas that need work!"
    case _ => "Keep practicing! Every attempt helps you improve!"
  }

  /** A higher overall score never falls in a lower band, and the bands start at 50, 65, 75, 85 and 95. */
  lemma OverallTierMonotone(score: int, score': int)
    requires score <= score'
    ensures OverallTier(score) <= OverallTier(score')
    ensures OverallTier(score) == 0 <==> score < 50
    ensures OverallTier(score) == 5 <==> score >= 95
  {
  }
}
