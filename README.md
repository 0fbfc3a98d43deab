# Pronunciation practice: a Dafny model of the scorer and its file tools

A language-learning web app shows phrases in English, Spanish, French or
German. The learner says a phrase aloud, and the browser's speech
recogniser turns the speech into text. The app compares that transcript
with the phrase and rates three things:

- **words**: every expected word is matched with its most similar spoken
  word. Similarity uses containment, a table of common recogniser confusions,
  a boosted edit distance and a phonetic pattern.
- **timing**: the length of the recording against a duration estimated
  from the phrase's syllables.
- **fluency**: the number of interim recogniser results against that
  duration.

The overall score is a weighted average, and feedback messages come from
score bands. Two Node scripts name the phrases' audio files:

- `add_audio_paths.js` records a path for every phrase that has none.
- `generate_audio.js` writes the file for each phrase.

This project models, in Dafny:

- **Text handling:**
  - the phrase normaliser;
  - the pronunciation folding and the phonetic pattern;
  - the similarity measure;
  - the Levenshtein distance, as an imperative dynamic program over a
    two-dimensional array, proved equal to the recursive distance.
- **Scoring:**
  - the word-accuracy loops, as methods proved against a fold over the
    expected words;
  - the timing and fluency scores;
  - the syllable estimate;
  - the combination into one analysis and the feedback bands.
- **The session state of `LanguageLearningApp`:** a class whose handlers
  update the phrase on show, the language, the recording flag, the
  timestamps and the interim results.
- **The two audio scripts:** the file-name and directory helpers of both,
  and the in-place annotation loop, as a class over the parsed categories.

Modules follow the source:

| Module | Models |
|---|---|
| `Chars` | the character classes |
| `Numbers` | `Math.round` |
| `Text` | `normalizeText`, `normalizeForPronunciation`, `toPhoneticPattern` |
| `Decimal` | `parseInt`, `String` |
| `EditDistance` | the Levenshtein distance |
| `Similarity` | the word similarity |
| `Duration` | the syllable estimate and the expected duration |
| `WordAccuracy` | `calculateWordAccuracy`, `generateWordFeedback` |
| `TimingFluency` | the timing and fluency scores |
| `Analysis` | `analyzeSpeech`, `generateOverallFeedback` |
| `App` | the session state |
| `Bonuses` | the three unused bonus helpers |
| `AudioNames` | the naming helpers of both scripts |
| `AddAudioPaths` | the annotation loop |
| `GenerateAudio` | the output path |

JavaScript numbers are modelled as follows:

- Scores are `real`s, so arithmetic is exact.
- `Math.round(x)` is `floor(x + 0.5)`.
- `parseInt(s, 10)` skips leading whitespace and an optional sign, then
  reads the leading digits.
- `String(i)` is the decimal numeral.
- `toLowerCase` covers ASCII and Latin-1. Every character the app's rules
  mention is in that range.
- The regex classes `\s` and `.` follow ECMAScript's WhiteSpace and
  LineTerminator sets. For `.` this holds for text inside the Basic
  Multilingual Plane; see "## Left out" for characters beyond it.

The model follows the code wherever its behaviour is surprising. For
example, one might expect a phrase with no words to score 100 as trivially
correct. In the code it scores 0 words and 0 overall, because nothing
matches. Likewise, the timing score uses the formula as written,
jump included; the corrected formula appears only beside the finding below.

## Model

| member | source | states |
|---|---|---|
| `Chars.LowerCase` | app.js:852 | lower-casing keeps the length and maps each character through `ToLower`, which leaves no upper-case letter |
| `Chars.LowerCaseIdempotent` | app.js:852 | lower-casing twice is lower-casing once |
| `Numbers.Round` | app.js:613 | `Math.round` gives the integer within half a unit, rounding halves up |
| `Numbers.RoundMonotone` | app.js:613 | rounding keeps order |
| `Numbers.RoundBetween` | app.js:613 | a value between two integers rounds to a value between them |
| `Text.Remove` | app.js:853-854 | the characters removed by a regex replace no longer occur; the rest are characters of the input |
| `Text.Trim` | app.js:856 | the trimmed string neither starts nor ends with whitespace |
| `Text.CollapseWhitespace` | app.js:855 | after collapsing, every whitespace character is a single plain space; no other character is new |
| `Text.NormalizeText` | app.js:851-857 | `normalizeText` as its four passes in the source's order; the result is never longer than the input (its shape is `NormalizeTextShape`) |
| `Text.NormalizeTextShape` | app.js:851-857 | a normalised phrase is lower case, has no punctuation or inverted marks, has single plain spaces, and has none at either end |
| `Text.NormalizeTextFixed` | app.js:851-857 | a string already of that shape is left unchanged |
| `Text.NormalizeTextIdempotent` | app.js:851-857 | normalising twice is normalising once |
| `Text.Split` | app.js:508-509 | `split` gives one more piece than there are separators, and no piece holds the separator |
| `Text.SplitJoin` | app.js:508-509 | joining the pieces of a split with the separator gives the string back |
| `Text.JoinSplit` | add_audio_paths.js:34 | splitting a join of separator-free pieces gives the pieces back |
| `Text.WordsShape` | app.js:508-509 | every word of a phrase is non-empty and has no whitespace, punctuation or upper case |
| `Text.ReplaceDoubled` | app.js:833-834 | replacing `ll`/`rr` never lengthens the word, and leaves a word without such a pair unchanged |
| `Text.ExpandSharpS` | app.js:845 | `ß` becomes `ss`, the only rule that lengthens a word; a word without `ß` is unchanged |
| `Text.NormalizeForPronunciation` | app.js:822-849 | `normalizeForPronunciation` as the source's chain of replaces, in order (its properties are `PronunciationFixed` and `UmlautRulesAreDead`) |
| `Text.PronunciationFixed` | app.js:822-849 | a word of plain letters without `ll`/`rr` is its own pronunciation form |
| `Text.UmlautRulesAreDead` | app.js:838-848 | the umlaut rules never fire, because the French rules already folded `ä`, `ö`, `ü`; the result has no upper case, no folded letter and no umlaut |
| `Text.CollapseRuns` | app.js:819 | after collapsing, no two adjacent characters are equal except line terminators; the first character and the other characters come from the input |
| `Text.ToPhoneticPattern` | app.js:802-820 | `toPhoneticPattern`: the pattern is never longer than the word and is empty only for the empty word |
| `Text.PhoneticPatternShape` | app.js:802-820 | every pattern character is lower case, is not a merged-away letter and is its own merge; equal neighbours are line terminators only |
| `Text.PhoneticPatternNoRepeats` | app.js:802-820 | for a word without line terminators, no two adjacent pattern characters are equal |
| `Text.PhoneticPatternIdempotent` | app.js:802-820 | the pattern of a pattern is the pattern |
| `Decimal.ParseInt` | app.js:980 | `parseInt(s, 10)`: leading whitespace, an optional sign, then the leading digits, `None` for `NaN` (its round trip is `ParseIntOfIntToString`) |
| `Decimal.IntToString` | app.js:1000 | `String(i)` is never empty and is digits after an optional leading minus; only digits for `i >= 0` |
| `Decimal.ParseDigits` | app.js:980 | digits are read exactly when the text starts with one, and give a non-negative value |
| `Decimal.ParseIntOfIntToString` | app.js:980 | `parseInt(String(i), 10)` gives `i` back for every integer |
| `Decimal.ParseIntOfNumeral` | app.js:980 | a numeral followed by a non-digit parses to its number |
| `Decimal.ParseIntNoDigit` | app.js:980-981 | a string with no digit gives `NaN`, so the jump is ignored |
| `EditDistance.Dist` | app.js:859-885 | the distance is at most the longer length and at least the difference of the lengths |
| `EditDistance.DistSymmetric` | app.js:859-885 | the distance does not depend on the order of the strings |
| `EditDistance.DistZeroIff` | app.js:859-885 | the distance is 0 exactly when the strings are equal |
| `EditDistance.LevenshteinDistance` | app.js:859-885 | the array dynamic program returns the edit distance `Dist` |
| `EditDistance.FillRow` | app.js:871-881 | the inner loop fills row `i` with the distances of the matching prefixes and keeps the earlier rows |
| `EditDistance.NextCell` | app.js:872-880 | a cell is the recurrence applied to its three filled neighbours |
| `Similarity.Ratio` | app.js:748 | the similarity ratio is within [0, 1] when the numerator is, and below 1 when it is below the denominator |
| `Similarity.ScanSubstitutions` | app.js:779-783 | the scan gives 0.95 exactly when some later table entry is the pair in either order, and 0 otherwise |
| `Similarity.CheckCommonSubstitutions` | app.js:766-786 | 0.95 exactly for the pairs of the table, in either order; 0 otherwise |
| `Similarity.CheckCommonSubstitutionsSymmetric` | app.js:766-786 | the table lookup does not depend on the order of the words |
| `Similarity.PhoneticSimilarity` | app.js:788-800 | 0.9 exactly when the phonetic patterns are equal; otherwise within [0, 0.8) |
| `Similarity.PhoneticSimilaritySymmetric` | app.js:788-800 | the phonetic similarity does not depend on the order of the words |
| `Similarity.Boost` | app.js:751-757 | the length boosts never lower a similarity, never raise it past 1, and leave a similarity under 0.3 alone |
| `Similarity.NormalizedSimilarity` | app.js:734-763 | within [0, 1]; 1 for equal words; 0.9 when one contains the other; 0.95 for a table pair; otherwise at least the phonetic similarity |
| `Similarity.EditOrPhonetic` | app.js:747-763 | the edit-based score, with the phonetic similarity as a floor, stays within [0, 1] |
| `Similarity.WordSimilarity` | app.js:724-764 | every similarity is within [0, 1], and a word is fully similar to itself |
| `Similarity.WordSimilaritySymmetric` | app.js:724-764 | the similarity does not depend on which word is the expected one |
| `Similarity.ContainmentScores` | app.js:738-740 | for distinct words fixed by folding, containment scores 0.9 |
| `Similarity.ParaPaScoresContainment` | app.js:738-744 | `para`/`pa` is a table pair, but containment is checked first, so it scores 0.9, not 0.95 |
| `Duration.VowelGroups` | app.js:415 | the number of vowel runs is at most the length |
| `Duration.VowelGroupsZeroIff` | app.js:415 | the regex finds no vowel runs exactly when the text has no vowel |
| `Duration.VowelGroupsBound` | app.js:415 | a text of length `n` has at most `(n + 1) / 2` vowel runs |
| `Duration.EstimateSyllables` | app.js:413-417 | the estimate is at least 1 |
| `Duration.EstimateSyllablesCases` | app.js:413-417 | with a vowel, the estimate is the number of vowel runs; with none, it is the number of space-separated pieces |
| `Duration.EstimateSyllablesBound` | app.js:413-417 | the estimate is at most the length plus one |
| `Duration.DurationMonotone` | app.js:410 | more syllables never mean less expected time |
| `Duration.ExpectedDuration` | app.js:399-411 | the expected duration is at least the one-syllable value 1000/3.5 + 1000 ms |
| `Duration.HolaDuration` | app.js:410-416 | "Hola" has two syllables and an expected duration of 11000/7 ms |
| `WordAccuracy.WordAccuracyOf` | app.js:507-588 | `calculateWordAccuracy` as a function of the two phrases: the words of each, the fold, then the scoring (its properties are `WordAccuracyShape` and `SelfMatchScoresFull`) |
| `WordAccuracy.TallyOf` | app.js:517-546 | the outer loop as a fold of `Step` over the expected words (its properties are `TallyShape`, `TallyAllCorrect`) |
| `WordAccuracy.Step` | app.js:530-545 | the counters and detail of one expected word (its effect is stated by `StepEffect`) |
| `WordAccuracy.BestOf` | app.js:521-527 | the best score is non-negative, and no word is chosen when it is 0 |
| `WordAccuracy.BestIsMaximal` | app.js:522-527 | the best score is at least the similarity of every spoken word |
| `WordAccuracy.BestIsFirst` | app.js:522-527 | a positive best score is the similarity of the chosen word, the first spoken word that reaches it |
| `WordAccuracy.Grade` | app.js:530-545 | correct exactly from 0.85, partial exactly in [0.55, 0.85), incorrect otherwise |
| `WordAccuracy.StepEffect` | app.js:530-545 | one word adds its detail, counts as correct from 0.85, adds its partial credit, and records a match above 0.3 |
| `WordAccuracy.PartialCredit` | app.js:535-544 | partial credit is within [0, 0.8] |
| `WordAccuracy.TallyOfPrefix` | app.js:517-546 | one more expected word is one more step of the loop |
| `WordAccuracy.TallyShape` | app.js:517-546 | one detail per expected word, in order; `correct` counts the correct details; the credits total at most one per word; a match is recorded exactly when some best score exceeds 0.3 |
| `WordAccuracy.TallyAllCorrect` | app.js:517-546 | when every best score is at least 0.85, every word is correct and no partial credit is given |
| `WordAccuracy.Finish` | app.js:548-587 | the result after the loop: zero when nothing matched, else the penalised and boosted score (its properties are `FinishShape`) |
| `WordAccuracy.Penalize` | app.js:566-571 | no extra words cost nothing; a penalty never takes the score below 0 nor raises it (its monotonicity is `PenalizeMonotone`) |
| `WordAccuracy.Bonus` | app.js:573-578 | below 50 there is no bonus; a score of at most 100 is never lowered nor lifted past 100 (its monotonicity is `BonusMonotone`) |
| `WordAccuracy.AccuracyScore` | app.js:561-578 | the word score is within [0, 100] |
| `WordAccuracy.PenalizeMonotone` | app.js:566-571 | more extra words never lower the penalty, and a better score is never penalised below a worse one |
| `WordAccuracy.BonusMonotone` | app.js:573-578 | the bonus keeps the order of scores |
| `WordAccuracy.AccuracyScoreMonotone` | app.js:561-578 | more credit never lowers the score; more extra words never raise it |
| `WordAccuracy.AccuracyScoreFull` | app.js:561-578 | full credit with no extra words scores 100 |
| `WordAccuracy.WordFeedbackTier` | app.js:653-665 | the feedback bands are numbered 0 to 3 |
| `WordAccuracy.WordFeedback` | app.js:653-665 | `generateWordFeedback`: the message of the band `WordFeedbackTier` gives |
| `WordAccuracy.WordFeedbackMonotone` | app.js:653-665 | more correct words never fall in a lower band, and all words correct is the top band |
| `WordAccuracy.CalculateWordAccuracy` | app.js:507-588 | the method returns `WordAccuracyOf`, the fold-and-score definition of the result |
| `WordAccuracy.MatchWords` | app.js:517-546 | the outer loop returns the tally of the fold over the expected words |
| `WordAccuracy.GradeWord` | app.js:530-545 | the grading of one word is one step of the fold |
| `WordAccuracy.FindBestMatch` | app.js:522-527 | the inner loop returns the first maximal match, `BestOf` |
| `WordAccuracy.ScoreTally` | app.js:548-587 | the scoring after the loop returns `Finish`: the zero result when nothing matched, otherwise the penalised and boosted score |
| `WordAccuracy.AccuracyOfWordsShape` | app.js:507-588 | one detail per expected word, in order; the score is within [0, 100]; the correct count matches the details; no match above 0.3 gives score 0 |
| `WordAccuracy.FinishShape` | app.js:548-587 | the result keeps the details and the total; with no match, the score, the correct count and the extra count are 0 |
| `WordAccuracy.WordAccuracyShape` | app.js:507-588 | one detail per word of the normalised phrase, in order; the score is within [0, 100]; the correct count matches; no match above 0.3 gives 0 |
| `WordAccuracy.SelfMatchWords` | app.js:507-588 | a word list matched against itself scores 100 with every word correct and no extra words, when each word is similar enough to itself |
| `WordAccuracy.SelfMatchScoresFull` | app.js:507-588 | saying exactly a phrase with at least one word scores 100 with every word correct |
| `TimingFluency.TimingRawAsWritten` | app.js:595-610 | the timing score as written stays within [60, 100] |
| `TimingFluency.TimingAsWrittenRewardsSlower` | app.js:599-606 | as written, a ratio of 2.1 scores 85 while 1.9 scores only 80 |
| `TimingFluency.TimingRaw` | app.js:595-610 | the corrected score of the finding below, used nowhere else, is within [60, 100], and is below 100 exactly outside [0.7, 1.5] |
| `TimingFluency.TimingScore` | app.js:590-619 | the ratio is actual over expected; the score is the rounded as-written formula, within [60, 100], 100 on [0.7, 1.5] and at least 80 on (1.5, 2] |
| `TimingFluency.TimingFastMonotone` | app.js:595-598 | when too fast, a ratio closer to 0.7 never scores lower |
| `TimingFluency.TimingSlowMonotone` | app.js:599-606 | beyond 1.5, the corrected score never rises as the ratio grows (the corrected half of the finding) |
| `TimingFluency.TimingFeedback` | app.js:595-610 | the feedback message of each timing band, chosen by the same tests as the score |
| `TimingFluency.TimingAsWrittenSlowBands` | app.js:599-606 | as written, the score falls as the ratio grows inside each slow band, (1.5, 2] and above 2 |
| `TimingFluency.TimingScoreRewardsSlower` | app.js:590-619 | the session's timing score gives 80 for 1900 ms and 85 for 2100 ms against an expected 1000 ms |
| `TimingFluency.FluencyScore` | app.js:621-651 | the score is one of 65, 70, 75, 85, 100; under two interim results it is 85 exactly when the speech was well short of the expected time, else 70; it is 100 exactly in the ideal words-per-second band |
| `Analysis.Weighted` | app.js:490-494 | the 0.6/0.2/0.2 weighted average, rounded (its bounds are `WeightedBetween`) |
| `Analysis.Combine` | app.js:472-504 | the analysis from the three component results: zeroed timing and fluency when no word matched, else the weighted overall score (stated by `CombineDominance`) |
| `Analysis.Analyze` | app.js:464-505 | `analyzeSpeech` for a duration, the expected duration and the interim count (its bounds are `AnalyzeBounds`) |
| `Analysis.WeightedBetween` | app.js:490-494 | the overall score lies between the lowest and the highest component |
| `Analysis.WeightedMonotone` | app.js:490-494 | a better component never lowers the overall score |
| `Analysis.CombineDominance` | app.js:472-504 | with no word matched, timing, fluency and overall are zeroed; otherwise the components are kept, the overall score is `Weighted` of the three scores, and it lies between the lowest and the highest component |
| `Analysis.AnalyzeBounds` | app.js:464-505 | every score of an analysis is within [0, 100] |
| `Analysis.AnalyzeOver` | app.js:464-505 | the method returns the `Analyze` definition of the analysis |
| `Analysis.ScoreAnalysis` | app.js:472-504 | the zeroing and weighting after the word accuracy equal `Combine` of the three component results |
| `Analysis.AnalyzeOfParts` | app.js:470-504 | the analysis is the combination of the word accuracy with the timing and fluency results |
| `Analysis.OverallTier` | app.js:928-942 | the overall feedback bands are numbered 0 to 5 |
| `Analysis.OverallFeedback` | app.js:928-942 | `generateOverallFeedback`: the message of the band `OverallTier` gives |
| `Analysis.OverallTierMonotone` | app.js:928-942 | a higher score never falls in a lower band; band 0 is exactly below 50 and band 5 exactly from 95 |
| `App.Interims` | app.js:433-446 | an event adds at most one interim entry per result |
| `App.ResultsPartition` | app.js:433-446 | every result becomes either an interim entry or an analysis, and interim entries carry the event's time |
| `App.InterimsOfNonFinal` | app.js:438-445 | without a final result, the interim entries are the transcripts, in order |
| `App.InterimProgress` | app.js:440-445 | recording a non-final result extends the processed prefix by one interim entry |
| `App.FinalProgress` | app.js:435-439 | analysing a final result extends the processed prefix by one analysis and stops the recording |
| `App.NextIndex` | app.js:945 | the next index is always within the list |
| `App.NextIndexStep` | app.js:945 | inside the list the index steps up by one; from the last phrase it wraps to 0 |
| `App.NextIndexClimbs` | app.js:944-948 | presses that stay inside the list climb one place each |
| `App.NextIndexCompose` | app.js:944-948 | `a + b` presses are `a` presses then `b` presses |
| `App.NextIndexWraps` | app.js:944-948 | from any phrase, `count - index` presses reach the first one |
| `App.NextPhraseCycles` | app.js:944-948 | one press per phrase brings the same phrase back |
| `App.NextPhraseReachesAll` | app.js:944-948 | every phrase is reached from every other in fewer presses than there are phrases |
| `App.JumpTarget` | app.js:979-986 | a jump selects only an index within the list |
| `App.DropdownValueSelects` | app.js:995-1000 | choosing a dropdown entry, whose value is `String(idx)`, selects phrase `idx` |
| `App.IndexToShow` | app.js:133-141 | a language switch keeps an index that is in range, and falls back to 0 otherwise |
| `App.LanguageLearningApp.constructor` | app.js:4-19 | the initial session: no phrases, index 0, English, not recording, no timestamps, no interim results |
| `App.LanguageLearningApp.LoadLanguage` | app.js:121-158 | the language key is recorded first; a known language whose data loaded replaces the phrases and shows the requested index when it is in range, else 0; a failed load keeps the phrases and the index; the recording state is untouched |
| `App.LanguageLearningApp.HandleLanguageChange` | app.js:236-254 | a language change stops the recording, then loads the language keeping the current index |
| `App.LanguageLearningApp.CalculateExpectedDuration` | app.js:399-411 | with a phrase text, the expected duration becomes that text's estimate; without one nothing changes |
| `App.LanguageLearningApp.StartRecording` | app.js:373-397 | with no phrase text the error handler leaves the session not recording and nothing else changed; otherwise the expected duration is that text's estimate, the timestamps and interim results are reset, and the recording flag is whether the recogniser started |
| `App.LanguageLearningApp.StopRecording` | app.js:419-427 | the recording flag is cleared and nothing else changes |
| `App.LanguageLearningApp.HandleSpeechError` | app.js:667-689 | an error stops the recording and changes nothing else |
| `App.LanguageLearningApp.ToggleRecording` | app.js:365-371 | the phrases, index and language never change; a running recording stops with timestamps, interim results and expected duration kept; otherwise, with no phrase text, nothing starts and nothing else changes, and with one, the expected duration is set, the timing fields are reset and the flag is whether the recogniser started |
| `App.LanguageLearningApp.OnRecognitionStart` | app.js:206-209 | the start time is recorded and the interim results are cleared |
| `App.LanguageLearningApp.OnRecognitionEnd` | app.js:211-214 | the end time is recorded and the recording flag is cleared |
| `App.LanguageLearningApp.AnalyzeSpeech` | app.js:464-505 | the analysis is `Analyze` over the elapsed time since the start (`endTime - null` counting as `endTime`), the expected duration and the interim count |
| `App.LanguageLearningApp.HandleFinalSpeechResult` | app.js:449-462 | the transcript is analysed against the phrase on show, and the recording stops |
| `App.LanguageLearningApp.ProcessSpeechResults` | app.js:429-447 | every non-final result is appended as an interim entry stamped with the event's time; every final one is analysed against the interim results seen so far; without a phrase text, processing stops at the first final result, which throws |
| `App.LanguageLearningApp.ProcessResult` | app.js:434-445 | one result is handled as an interim or a final; the lookup throws exactly for a final result without a phrase text |
| `App.LanguageLearningApp.NextPhrase` | app.js:944-948 | the index steps to the next phrase, wrapping; nothing else changes |
| `App.LanguageLearningApp.HandlePhraseJump` | app.js:979-986 | a value that parses to an index within the list selects it; any other value changes nothing |
| `Bonuses.IsImportantShortWord` | app.js:693-701 | every important short word has two or three letters |
| `Bonuses.LengthBonus` | app.js:703-709 | the bonus is one of 0, 3, 5, 10; it is 0 exactly below three words and 10 exactly from five |
| `Bonuses.LengthBonusMonotone` | app.js:703-709 | a longer phrase never earns a smaller bonus |
| `Bonuses.VowelsAreNotConsonants` | app.js:713 | no character is in both structure classes |
| `Bonuses.MarkVowels` | app.js:713 | the first replace turns every vowel into `v` and keeps everything else |
| `Bonuses.MarkConsonants` | app.js:713 | the second replace turns every consonant, the `v` markers included, into `c` |
| `Bonuses.StructureAsWritten` | app.js:713-714 | the structure string as written: the vowel replace, then the consonant replace (stated by `StructureAsWrittenMergesVowels`) |
| `Bonuses.SpeechPatternBonusAsWritten` | app.js:711-722 | `calculateSpeechPatternBonus` as written: the bonus is one of 0, 3, 5, 8 |
| `Bonuses.StructureAsWrittenMergesVowels` | app.js:713-714 | as written, every vowel and consonant ends up as `c`, and no `v` survives |
| `Bonuses.SpeechPatternAsWrittenIgnoresVowels` | app.js:711-722 | as written, any two letter strings of the same length get the top bonus of 8 |
| `Bonuses.Structure` | app.js:713-714 | the corrected structure marks vowels `v`, consonants `c` and keeps other characters |
| `Bonuses.StructureSeesVowels` | app.js:713-714 | the corrected structure tells a vowel from a consonant at the same position |
| `Bonuses.PatternBonusOf` | app.js:718-721 | the band is one of 0, 3, 5, 8; it is 8 exactly from 0.7 and 0 exactly below 0.3 |
| `Bonuses.SpeechPatternBonus` | app.js:711-722 | over the corrected structure, an equal structure earns the top bonus |
| `Bonuses.SpeechPatternBonusSymmetric` | app.js:711-722 | the bonus does not depend on which text is the original |
| `AudioNames.KeepLetters` | add_audio_paths.js:4-8 | only the letters `a`–`z` remain, and a string of such letters is unchanged |
| `AudioNames.GetCategoryDir` | add_audio_paths.js:4-8 | a category directory is made of the letters `a`–`z` only |
| `AudioNames.CategoryDirIdempotent` | generate_audio.js:81-85 | a directory name is its own directory name |
| `AudioNames.MarkUnkept` | add_audio_paths.js:13 | every character outside the kept class becomes `_` |
| `AudioNames.CollapseUnderscores` | add_audio_paths.js:15 | runs of underscores become one, and the first and last characters are kept |
| `AudioNames.DropWhitespace` | add_audio_paths.js:7 | the category's whitespace pass brings in no character and leaves whitespace-free text unchanged |
| `AudioNames.UnderscoreWhitespace` | add_audio_paths.js:14 | the file name's whitespace pass leaves whitespace-free text unchanged |
| `AudioNames.StripUnderscores` | add_audio_paths.js:16 | at most one underscore comes off each end (its shape is `StripShape`) |
| `AudioNames.Slug` | add_audio_paths.js:12-16 | the slug as the four passes of the source, in order (its shape is `SlugShape`) |
| `AudioNames.GetAudioFileName` | add_audio_paths.js:11-17 | `${id}_${slug}.mp3`, for the `[^a-z]` copy and, with `LettersAndDigits`, the `[^a-z0-9]` copy of generate_audio.js:88-94 (its parts are `AudioFileNameParts`) |
| `AudioNames.WhitespacePassIsDead` | add_audio_paths.js:13-14 | the whitespace pass never finds anything, because the class replace already turned whitespace into `_` |
| `AudioNames.SlugShape` | add_audio_paths.js:11-17 | a slug holds only kept characters and single underscores, and no underscore at either end |
| `AudioNames.AudioFileNameParts` | add_audio_paths.js:11-17 | the id reads back from the front of a file name, and the name ends in `.mp3` |
| `AudioNames.FileNameHasNoSlash` | generate_audio.js:88-94 | a file name is a single path segment |
| `AudioNames.FileNamesAgreeWithoutDigits` | generate_audio.js:88-94 | on text without digits the two scripts name the same file |
| `AudioNames.FileNamesDifferWithDigits` | generate_audio.js:88-94 | on text with a digit the two scripts name different files |
| `AddAudioPaths.LanguageData.constructor` | add_audio_paths.js:24 | the data holds the parsed categories |
| `AddAudioPaths.LanguageData.AddAudioPaths` | add_audio_paths.js:26-38 | the categories become `Annotate` of the old ones, and `modified` is set exactly when some phrase was missing its path |
| `AddAudioPaths.LanguageData.FillCategoryAt` | add_audio_paths.js:29-37 | one category is filled and the others are untouched; the flag says whether any of its phrases was missing a path |
| `AddAudioPaths.LanguageData.FillPhraseAt` | add_audio_paths.js:32-36 | one phrase gets its path exactly when it was missing one, and nothing else changes |
| `AddAudioPaths.FilledUpToStep` | add_audio_paths.js:29-37 | checking the next phrase extends the filled prefix by one |
| `AddAudioPaths.Missing` | add_audio_paths.js:32 | `!phrase.audioFile`: the key is absent, `null` or empty |
| `AddAudioPaths.FillPhrase` | add_audio_paths.js:32-36 | one phrase after the check |
| `AddAudioPaths.FillCategory` | add_audio_paths.js:29-37 | one category after its inner `forEach` |
| `AddAudioPaths.Annotate` | add_audio_paths.js:28-38 | all categories after the outer `forEach` (stated by `AnnotateExactlyMissing`) |
| `AddAudioPaths.AnnotateExactlyMissing` | add_audio_paths.js:28-38 | exactly the phrases missing a path get one, built from their id, their English text and their category; all else, order included, is kept |
| `AddAudioPaths.AnnotateLeavesNoneMissing` | add_audio_paths.js:28-38 | afterwards no phrase is missing its path |
| `AddAudioPaths.ModifiedIffChanged` | add_audio_paths.js:26-47 | the file is written back exactly when the annotation changed the data |
| `AddAudioPaths.AnnotateIdempotent` | add_audio_paths.js:28-38 | a second run changes nothing |
| `AddAudioPaths.AudioPathSegments` | add_audio_paths.js:34 | the recorded path has the segments `""`, `audio`, language, directory and file name |
| `GenerateAudio.OutputPath` | generate_audio.js:116 | the output path template (its segments are `OutputPathSegments`) |
| `GenerateAudio.OutputPathSegments` | generate_audio.js:116 | the output path has the segments `.`, `audio`, language, directory and file name |
| `GenerateAudio.OutputMatchesRecordedPath` | generate_audio.js:116 | for English text without digits, the generator writes the file the annotation records, relative to the current directory |
| `GenerateAudio.OutputMissesRecordedPath` | generate_audio.js:116 | for English text with a digit, the generator writes a file the recorded path does not name |

## Left out

- Floating point: scores and durations are exact `real`s, so IEEE rounding
  of the divisions and of `Math.round` near a half is not modelled.
- The DOM, the Web Speech API, `fetch`, the authentication check, the
  text-to-speech audio and all display code are left out. The model
  receives as parameters what they deliver:
  - the recogniser's results;
  - the clock (`Date.now()`);
  - the loaded phrase list;
  - whether `recognition.start()` succeeded.
- Reading and writing JSON files: the scripts' file I/O, the
  `JSON.stringify` formatting, the logging and the generator's call to the
  speech service are left out. `AddAudioPaths.LanguageData` holds the
  parsed categories. In `GenerateAudio`, the language key derived at
  generate_audio.js:105 is a parameter.
- `loadPhrases` (app.js:166-178) is the data load only. Its result is the
  `loaded` parameter of `LoadLanguage`.
- `App.LanguageLearningApp.NextPhrase` requires a non-empty phrase list.
  With no phrases, `(index + 1) % 0` is `NaN` in JavaScript, and the model
  has no `NaN` index.
- `App.LanguageLearningApp.ProcessSpeechResults` requires an expected
  duration. Results only arrive after `startRecording` has computed one;
  without it, the timing division gives `Infinity` or `NaN`, which the
  model does not represent.
- `EditDistance.Dist`, `EditDistance.LevenshteinDistance`,
  `Similarity.WordSimilarity`, `Text.CollapseRuns` and
  `Text.ToPhoneticPattern` count Unicode characters, because a Dafny
  `string` is a sequence of Unicode scalar values. JavaScript's `length`,
  `charAt`, indexing and non-`u` regexes count UTF-16 code units. The two
  disagree on characters outside the Basic Multilingual Plane, such as
  emoji:
  - `levenshteinDistance("😀", "")` is 2 in JavaScript and `Dist` gives 1;
  - `maxLength` and the similarity ratio differ in the same way;
  - `(.)\1+` leaves "😀😀" unchanged, where `CollapseRuns` gives "😀".

  On text inside the Basic Multilingual Plane, which holds every phrase
  and rule of the app, they agree.
- `Chars.ToLower` covers ASCII and Latin-1 only. Full Unicode case mapping
  is not modelled.
- `handleSpeechError`'s messages and `showError` are display only. The
  model keeps just the state change.
- The feedback strings of `TimingFeedback`, `WordFeedback` and
  `OverallFeedback` are the source's messages. The proofs are about their
  bands, not about the wording.

## Findings

| source | as written | input that shows it | evidently intended | confidence | as-written member | corrected member |
|---|---|---|---|---|---|---|
| app.js:599-606 | the too-slow branch (ratio above 2.0) computes `100 - (ratio - 2.0) * 150`, restarting from 100, while the slightly-slow branch has fallen to its floor of 80 at 2.0 | ratio 1.9 scores 80, ratio 2.1 scores 85 | the too-slow band continues down from 80, so a slower delivery never scores higher | not executed | `TimingFluency.TimingAsWrittenRewardsSlower` | `TimingFluency.TimingSlowMonotone` |
| app.js:713-714 | vowels are first replaced by `v`, then every consonant is replaced by `c`; the consonant class contains `v`, so the vowel markers become `c` too | `calculateSpeechPatternBonus("a", "b")` is 8, the top bonus | vowels stay `v` and consonants become `c`, so the structures of `a` and `b` differ | not executed | `Bonuses.SpeechPatternAsWrittenIgnoresVowels` | `Bonuses.StructureSeesVowels` |
