/**
 * `calculateTimingScore` and `calculateFluencyScore` (app.js:590-651): the
 * timing score follows the ratio of the actual to the expected duration, the
 * fluency score the number of interim recogniser results per second.
 */
module TimingFluency {
  import opened Wrappers
  import opened Numbers

  datatype TimingResult = TimingResult(score: int, actualDuration: int, expectedDuration: real, ratio: real, feedback: string)

  /** `wordsPerSecond` is `None` when the duration is 0 and the division gives no finite number. */
  datatype FluencyResult = FluencyResult(score: int, wordsPerSecond: Option<real>, feedback: string)

  /**
   * The unrounded timing score of app.js:595-610 as written. The "too slow"
   * branch restarts from 100 at a ratio of 2, above the 80 the "slightly
   * slow" branch has fallen to there.
   */
  function TimingRawAsWritten(ratio: real): (s: real)
    ensures 60.0 <= s <= 100.0
  {
    if ratio < 0.7 then RMax(60.0, 100.0 - (0.7 - ratio) * 200.0)
    else if ratio > 2.0 then RMax(60.0, 100.0 - (ratio - 2.0) * 150.0)
    else if ratio > 1.5 then RMax(80.0, 100.0 - (ratio - 1.5) * 80.0)
    else 100.0
  }

  /** As written, speaking slower can score higher: a ratio of 2.1 scores 85, a ratio of 1.9 only 80. */
  lemma TimingAsWrittenRewardsSlower()
    ensures Round(TimingRawAsWritten(1.9)) == 80
    ensures Round(TimingRawAsWritten(2.1)) == 85
  {
    RoundInt(80);
    RoundInt(85);
  }

  /**
   * The timing score with the "too slow" branch continuing from the 80 the
   * "slightly slow" branch reaches at a ratio of 2, so the score never rises
   * as the ratio grows past 1.5 (see `TimingSlowMonotone`).
   */
  function TimingRaw(ratio: real): (s: real)
    ensures 60.0 <= s <= 100.0
    ensures ratio < 0.7 || ratio > 1.5 <==> s < 100.0
  {
    if ratio < 0.7 then RMax(60.0, 100.0 - (0.7 - ratio) * 200.0)
    else if ratio > 2.0 then RMax(60.0, 80.0 - (ratio - 2.0) * 150.0)
    else if ratio > 1.5 then RMax(80.0, 100.0 - (ratio - 1.5) * 80.0)
    else 100.0
  }

  function TimingFeedback(ratio: real): string
  {
    if ratio < 0.7 then "Try speaking a bit slower for clearer pronunciation"
    else if ratio > 2.0 then "Try to speak more fluently with fewer pauses"
    else if ratio > 1.5 then "Good pace, try to be a bit more natural"
    else "Great speaking pace!"
  }

  /**
   * `calculateTimingScore`, with the expected duration read from the
   * session passed in. It scores with the formula as written; the
   * corrected `TimingRaw` is the other half of the finding about it.
   */
  function TimingScore(actualDuration: int, expectedDuration: real): (r: TimingResult)
    requires expectedDuration > 0.0
    ensures r.ratio == actualDuration as real / expectedDuration
    ensures r.expectedDuration == expectedDuration && r.actualDuration == actualDuration
    ensures r.score == Round(TimingRawAsWritten(r.ratio))
    ensures 60 <= r.score <= 100
    ensures 0.7 <= r.ratio <= 1.5 ==> r.score == 100
    ensures 1.5 < r.ratio <= 2.0 ==> r.score >= 80
  {
    var ratio := actualDuration as real / expectedDuration;
    var raw := TimingRawAsWritten(ratio);
    RoundBetween(raw, 60, 100);
    RoundBetween(raw, if 1.5 < ratio <= 2.0 then 80 else 60, 100);
    RoundInt(100);
    TimingResult(Round(raw), actualDuration, expectedDuration, ratio, TimingFeedback(ratio))
  }

  /** Speaking too fast: the closer the ratio comes to 0.7 from below, the better the score. */
  lemma TimingFastMonotone(r1: real, r2: real)
    requires r1 <= r2 <= 0.7
    ensures Round(TimingRawAsWritten(r1)) <= Round(TimingRawAsWritten(r2))
  {
    RoundMonotone(TimingRawAsWritten(r1), TimingRawAsWritten(r2));
  }

  /**
   * As written, the score falls as the ratio grows inside each of the two
   * slow bands, (1.5, 2] and above 2; the only rise is the jump at 2.
   */
  lemma TimingAsWrittenSlowBands(r1: real, r2: real)
    requires (1.5 <= r1 <= r2 <= 2.0) || (2.0 < r1 <= r2)
    ensures Round(TimingRawAsWritten(r2)) <= Round(TimingRawAsWritten(r1))
  {
    RoundMonotone(TimingRawAsWritten(r2), TimingRawAsWritten(r1));
  }

  /** The session's timing score: 1900 ms against an expected 1000 ms scores 80, 2100 ms scores 85. */
  lemma TimingScoreRewardsSlower()
    ensures TimingScore(1900, 1000.0).score == 80
    ensures TimingScore(2100, 1000.0).score == 85
  {
    assert 1900 as real / 1000.0 == 1.9;
    assert 2100 as real / 1000.0 == 2.1;
    TimingAsWrittenRewardsSlower();
  }

  /** Speaking too slowly: beyond a ratio of 1.5, a larger ratio never scores better. */
  lemma TimingSlowMonotone(r1: real, r2: real)
    requires 1.5 <= r1 <= r2
    ensures Round(TimingRaw(r2)) <= Round(TimingRaw(r1))
  {
    RoundMonotone(TimingRaw(r2), TimingRaw(r1));
  }

  /**
   * `calculateFluencyScore` for `interimCount` interim results over
   * `actualDuration` milliseconds. With fewer than two interim results the
   * score depends only on whether the speech was shorter than 80% of the
   * expected duration. With a duration of 0 the rate is infinite and counts as
   * too fast.
   */
  function FluencyScore(interimCount: nat, actualDuration: int, expectedDuration: real): (r: FluencyResult)
    ensures r.score in {65, 70, 75, 85, 100}
    ensures interimCount < 2 ==> (r.score == 85 <==> (actualDuration as real) < expectedDuration * 0.8)
    ensures interimCount < 2 ==> r.score == 85 || r.score == 70
    ensures r.score == 100 <==>
      interimCount >= 2 && actualDuration != 0 &&
      1.0 <= interimCount as real * 1000.0 / actualDuration as real <= 5.0
  {
    var wordsPerSecond := if actualDuration == 0 then None else Some(interimCount as real * 1000.0 / actualDuration as real);
    var reported := if wordsPerSecond.None? then None else Some(Round(wordsPerSecond.value * 10.0) as real / 10.0);
    if interimCount < 2 then
      if (actualDuration as real) < expectedDuration * 0.8 then FluencyResult(85, reported, "Good speed, work on clarity")
      else FluencyResult(70, reported, "Try to speak more continuously")
    else if wordsPerSecond.None? || wordsPerSecond.value > 5.0 then
      FluencyResult(75, reported, "Good fluency, try speaking slightly slower")
    else if wordsPerSecond.value < 1.0 then
      FluencyResult(65, reported, "Work on speaking more fluently with fewer pauses")
    else FluencyResult(100, reported, "Smooth and fluent delivery!")
  }
}
