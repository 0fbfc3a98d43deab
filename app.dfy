/**
 * The session state of `LanguageLearningApp` (app.js:3-1087): the loaded
 * phrases, the phrase on show, the language, and the timing and interim
 * results of a recording, with the handlers that update them. Browser
 * services (the recogniser, the clock, `fetch`) are parameters: the model
 * receives what they deliver.
 */
module App {
  import opened Wrappers
  import opened Decimal
  import opened Duration
  import opened WordAccuracy
  import opened TimingFluency
  import opened Analysis

  /** A phrase of a language file: its text under each language key. */
  type Phrase = map<string, string>

  /** The two parts of an entry of `this.languages` (app.js:22-59) that the logic reads. */
  datatype LanguageConfig = LanguageConfig(dataFile: string, phraseKey: string)

  const Languages: map<string, LanguageConfig> := map[
    "english" := LanguageConfig("/data/english.json", "english"),
    "spanish" := LanguageConfig("/data/spanish.json", "spanish"),
    "french" := LanguageConfig("/data/french.json", "french"),
    "german" := LanguageConfig("/data/german.json", "german")
  ]

  /** An entry of `interimResults` (app.js:441-444). */
  datatype Interim = Interim(transcript: string, timestamp: int)

  /** A result of a recogniser event: whether it is final, and its best transcript. */
  datatype RecognitionResult = RecognitionResult(isFinal: bool, transcript: string)

  /** The interim entries that the non-final results of an event add, in order. */
  function Interims(results: seq<RecognitionResult>, time: int): (r: seq<Interim>)
    ensures |r| <= |results|
  {
    if results == [] then []
    else
      var last := results[|results| - 1];
      Interims(results[..|results| - 1], time) + (if last.isFinal then [] else [Interim(last.transcript, time)])
  }

  /** How many results of an event are final. */
  function Finals(results: seq<RecognitionResult>): (n: nat)
    ensures n <= |results|
  {
    if results == [] then 0
    else Finals(results[..|results| - 1]) + (if results[|results| - 1].isFinal then 1 else 0)
  }

  /** The position of the first final result, or the length when there is none. */
  function FirstFinal(results: seq<RecognitionResult>): (k: nat)
    ensures k <= |results|
    ensures forall j :: 0 <= j < k ==> !results[j].isFinal
    ensures k < |results| ==> results[k].isFinal
  {
    if results == [] then 0
    else if results[0].isFinal then 0
    else 1 + FirstFinal(results[1..])
  }

  /** The analysis of a final transcript against the phrase `text`, given the interim results counted so far. */
  function Analyzer(text: string, start: int, expected: real, time: int): (string, nat) -> SpeechAnalysis
    requires expected > 0.0
  {
    (spoken: string, interimCount: nat) => Analyze(text, spoken, time - start, expected, interimCount)
  }

  /**
   * The analyses of the final results of an event, in order: each one
   * counts the interim results recorded before it, those already in the
   * session (`interimCount`) and those earlier in the same event.
   */
  function AnalysesOf(analyze: (string, nat) -> SpeechAnalysis, interimCount: nat, results: seq<RecognitionResult>, time: int): (r: seq<SpeechAnalysis>)
    ensures |r| == Finals(results)
  {
    if results == [] then []
    else
      var prefix := results[..|results| - 1];
      var last := results[|results| - 1];
      AnalysesOf(analyze, interimCount, prefix, time)
        + (if last.isFinal then [analyze(last.transcript, interimCount + |Interims(prefix, time)|)] else [])
  }

  /** One more result of the event: the interim entries and analyses of the longer prefix. */
  lemma ResultsStep(analyze: (string, nat) -> SpeechAnalysis, interimCount: nat, results: seq<RecognitionResult>, i: nat, time: int)
    requires i < |results|
    ensures Finals(results[..i + 1]) == Finals(results[..i]) + (if results[i].isFinal then 1 else 0)
    ensures Interims(results[..i + 1], time) ==
      Interims(results[..i], time) + (if results[i].isFinal then [] else [Interim(results[i].transcript, time)])
    ensures AnalysesOf(analyze, interimCount, results[..i + 1], time) ==
      AnalysesOf(analyze, interimCount, results[..i], time)
        + (if results[i].isFinal then [analyze(results[i].transcript, interimCount + |Interims(results[..i], time)|)] else [])
  {
    assert results[..i + 1][..i] == results[..i];
  }

  /**
   * After the first `i` results of an event: the interim list holds the
   * non-final ones, the analyses are those of the final ones (none when the
   * phrase text is unknown, where the first final result throws), and
   * recording has stopped once a final result was analysed.
   */
  ghost predicate Progress(results: seq<RecognitionResult>, i: nat, time: int, text: Option<string>, interims0: seq<Interim>,
                           recording0: bool, analyses: seq<SpeechAnalysis>, analyze: (string, nat) -> SpeechAnalysis,
                           interims: seq<Interim>, recording: bool)
    requires i <= |results|
  {
    && interims == interims0 + Interims(results[..i], time)
    && (text.Some? ==> analyses == AnalysesOf(analyze, |interims0|, results[..i], time))
    && (text.None? ==> analyses == [] && i <= FirstFinal(results))
    && recording == (recording0 && (text.None? || Finals(results[..i]) == 0))
  }

  /** A non-final result is appended to the interim list and changes nothing else. */
  lemma InterimProgress(results: seq<RecognitionResult>, i: nat, time: int, text: Option<string>, interims0: seq<Interim>,
                        recording0: bool, analyses: seq<SpeechAnalysis>, analyze: (string, nat) -> SpeechAnalysis,
                        interims: seq<Interim>, recording: bool)
    requires i < |results| && !results[i].isFinal
    requires Progress(results, i, time, text, interims0, recording0, analyses, analyze, interims, recording)
    ensures Progress(results, i + 1, time, text, interims0, recording0, analyses, analyze, interims + [Interim(results[i].transcript, time)], recording)
  {
    ResultsStep(analyze, |interims0|, results, i, time);
  }

  /** A final result with a known phrase text adds its analysis and stops the recording. */
  lemma FinalProgress(results: seq<RecognitionResult>, i: nat, time: int, text: Option<string>, interims0: seq<Interim>,
                      recording0: bool, analyses: seq<SpeechAnalysis>, analyze: (string, nat) -> SpeechAnalysis,
                      interims: seq<Interim>, recording: bool, analysis: SpeechAnalysis)
    requires i < |results| && results[i].isFinal && text.Some?
    requires Progress(results, i, time, text, interims0, recording0, analyses, analyze, interims, recording)
    requires analysis == analyze(results[i].transcript, |interims|)
    ensures Progress(results, i + 1, time, text, interims0, recording0, analyses + [analysis], analyze, interims, false)
  {
    ResultsStep(analyze, |interims0|, results, i, time);
    AnalysesAppend(analyze, |interims0|, results, i, time, analyses, |interims|, analysis);
  }

  /** A final result appends its analysis to those of the results before it. */
  lemma AnalysesAppend(analyze: (string, nat) -> SpeechAnalysis, interimCount: nat, results: seq<RecognitionResult>, i: nat, time: int,
                       analyses: seq<SpeechAnalysis>, count: nat, analysis: SpeechAnalysis)
    requires i < |results| && results[i].isFinal
    requires analyses == AnalysesOf(analyze, interimCount, results[..i], time)
    requires count == interimCount + |Interims(results[..i], time)|
    requires analysis == analyze(results[i].transcript, count)
    ensures analyses + [analysis] == AnalysesOf(analyze, interimCount, results[..i + 1], time)
  {
    ResultsStep(analyze, interimCount, results, i, time);
  }

  /** Every result is either recorded as an interim or analysed as a final. */
  lemma {:induction false} ResultsPartition(analyze: (string, nat) -> SpeechAnalysis, interimCount: nat, results: seq<RecognitionResult>, time: int)
    ensures |Interims(results, time)| + |AnalysesOf(analyze, interimCount, results, time)| == |results|
    ensures forall k :: 0 <= k < |Interims(results, time)| ==> Interims(results, time)[k].timestamp == time
  {
    if results != [] {
      ResultsPartition(analyze, interimCount, results[..|results| - 1], time);
    }
  }

  /** Without a final result, the interim entries are the results' transcripts, in order. */
  lemma {:induction false} InterimsOfNonFinal(results: seq<RecognitionResult>, time: int)
    requires forall k :: 0 <= k < |results| ==> !results[k].isFinal
    ensures |Interims(results, time)| == |results|
    ensures forall k :: 0 <= k < |results| ==> Interims(results, time)[k] == Interim(results[k].transcript, time)
  {
    if results != [] {
      InterimsOfNonFinal(results[..|results| - 1], time);
    }
  }

  /** `nextPhrase`'s index step (app.js:945). */
  function NextIndex(index: int, count: int): (next: int)
    requires count > 0
    ensures 0 <= next < count
  {
    (index + 1) % count
  }

  /** `k` presses of the next button. */
  function NextIndexTimes(index: int, count: int, k: nat): (r: int)
    requires count > 0
  {
    if k == 0 then index else NextIndex(NextIndexTimes(index, count, k - 1), count)
  }

  /** Inside the list the index steps up by one; from the last phrase it wraps to the first. */
  lemma NextIndexStep(index: int, count: int)
    requires 0 <= index < count
    ensures NextIndex(index, count) == if index + 1 < count then index + 1 else 0
  {
  }

  /** Presses that stay inside the list climb one place each. */
  lemma {:induction false} NextIndexClimbs(index: int, count: int, k: nat)
    requires 0 <= index && index + k < count
    ensures NextIndexTimes(index, count, k) == index + k
  {
    if k > 0 {
      NextIndexClimbs(index, count, k - 1);
      NextIndexStep(index + k - 1, count);
    }
  }

  /** `a + b` presses are `a` presses followed by `b` presses. */
  lemma {:induction false} NextIndexCompose(index: int, count: int, a: nat, b: nat)
    requires count > 0
    ensures NextIndexTimes(index, count, a + b) == NextIndexTimes(NextIndexTimes(index, count, a), count, b)
  {
    if b > 0 {
      NextIndexCompose(index, count, a, b - 1);
    }
  }

  /** From any phrase, `count - index` presses reach the first one. */
  lemma NextIndexWraps(index: int, count: int)
    requires 0 <= index < count
    ensures NextIndexTimes(index, count, count - index) == 0
  {
    NextIndexClimbs(index, count, count - 1 - index);
    NextIndexCompose(index, count, count - 1 - index, 1);
    NextIndexStep(count - 1, count);
  }

  /** The next button cycles: after one press per phrase the same phrase is on show again. */
  lemma NextPhraseCycles(index: int, count: int)
    requires 0 <= index < count
    ensures NextIndexTimes(index, count, count) == index
  {
    NextIndexWraps(index, count);
    NextIndexCompose(index, count, count - index, index);
    NextIndexClimbs(0, count, index);
  }

  /** Every phrase is reached from every other, in fewer presses than there are phrases. */
  lemma NextPhraseReachesAll(index: int, count: int, target: int)
    requires 0 <= index < count && 0 <= target < count
    ensures var k := if index <= target then target - index else count - index + target;
      k < count && NextIndexTimes(index, count, k) == target
  {
    if index <= target {
      NextIndexClimbs(index, count, target - index);
    } else {
      NextIndexWraps(index, count);
      NextIndexCompose(index, count, count - index, target);
      NextIndexClimbs(0, count, target);
    }
  }

  /** app.js:980-981: the index a phrase-jump value selects, if any. */
  function JumpTarget(indexStr: string, count: int): (r: Option<int>)
    ensures r.Some? ==> 0 <= r.value < count
  {
    match ParseInt(indexStr)
    case Some(idx) => if 0 <= idx < count then Some(idx) else None
    case None => None
  }

  /** Choosing an entry of the jump dropdown, whose value is `String(idx)` (app.js:995), selects that phrase. */
  lemma DropdownValueSelects(idx: int, count: int)
    requires 0 <= idx < count
    ensures JumpTarget(IntToString(idx), count) == Some(idx)
  {
    ParseIntOfIntToString(idx);
  }

  /** app.js:133-141: the index kept on a language switch, or 0 when it is out of range. */
  function IndexToShow(phraseIndexToShow: Option<int>, count: int): (index: int)
    ensures 0 <= index && (count > 0 ==> index < count) && (count <= 0 ==> index == 0)
    ensures phraseIndexToShow.Some? && 0 <= phraseIndexToShow.value < count ==> index == phraseIndexToShow.value
  {
    match phraseIndexToShow
    case Some(i) => if 0 <= i < count then i else 0
    case None => 0
  }

  class LanguageLearningApp {
    var phrases: seq<Phrase>
    var currentPhraseIndex: int
    var isRecording: bool
    var currentLanguage: string
    var speechStartTime: Option<int>
    var speechEndTime: Option<int>
    var interimResults: seq<Interim>
    var expectedDuration: Option<real>

    /**
     * The index names a phrase whenever there is one (and is 0 otherwise),
     * and a computed expected duration is at least the one-syllable minimum.
     */
    predicate Valid()
      reads this
    {
      && 0 <= currentPhraseIndex
      && (|phrases| > 0 ==> currentPhraseIndex < |phrases|)
      && (|phrases| == 0 ==> currentPhraseIndex == 0)
      && (expectedDuration.Some? ==> expectedDuration.value >= 1000.0 / 3.5 + 1000.0)
    }

    /** `phrase[config.phraseKey]` for the phrase on show, if every lookup succeeds. */
    function CurrentText(): (text: Option<string>)
      reads this
    {
      if 0 <= currentPhraseIndex < |phrases| && currentLanguage in Languages
         && Languages[currentLanguage].phraseKey in phrases[currentPhraseIndex]
      then Some(phrases[currentPhraseIndex][Languages[currentLanguage].phraseKey])
      else None
    }

    /** The state fields set by the constructor (app.js:4-19). */
    constructor ()
      ensures Valid()
      ensures phrases == [] && currentPhraseIndex == 0 && !isRecording && currentLanguage == "english"
      ensures speechStartTime == None && speechEndTime == None && interimResults == [] && expectedDuration == None
    {
      phrases := [];
      currentPhraseIndex := 0;
      isRecording := false;
      currentLanguage := "english";
      speechStartTime := None;
      speechEndTime := None;
      interimResults := [];
      expectedDuration := None;
    }

    /**
     * `loadLanguage` (app.js:121-158). `loaded` is what fetching the
     * language's data file delivered (`None` when it failed); an unknown
     * language key fails the same way. The language is switched first, so
     * it stays switched when loading fails.
     */
    method LoadLanguage(languageKey: string, loaded: Option<seq<Phrase>>, phraseIndexToShow: Option<int>)
      requires Valid()
      modifies this
      ensures Valid()
      ensures currentLanguage == languageKey
      ensures if languageKey in Languages && loaded.Some? then
          phrases == loaded.value && currentPhraseIndex == IndexToShow(phraseIndexToShow, |loaded.value|)
        else
          phrases == old(phrases) && currentPhraseIndex == old(currentPhraseIndex)
      ensures isRecording == old(isRecording) && speechStartTime == old(speechStartTime) && speechEndTime == old(speechEndTime)
      ensures interimResults == old(interimResults) && expectedDuration == old(expectedDuration)
    {
      currentLanguage := languageKey;
      if languageKey !in Languages || loaded.None? {
        return;
      }
      phrases := loaded.value;
      match phraseIndexToShow {
        case Some(i) =>
          if 0 <= i < |phrases| {
            currentPhraseIndex := i;
          } else {
            currentPhraseIndex := 0;
          }
        case None =>
          currentPhraseIndex := 0;
      }
    }

    /** `handleLanguageChange` (app.js:236-254): stop any recording, then load keeping the index. */
    method HandleLanguageChange(languageKey: string, loaded: Option<seq<Phrase>>)
      requires Valid()
      modifies this
      ensures Valid()
      ensures !isRecording && currentLanguage == languageKey
      ensures if languageKey in Languages && loaded.Some? then
          phrases == loaded.value && currentPhraseIndex == IndexToShow(Some(old(currentPhraseIndex)), |loaded.value|)
        else
          phrases == old(phrases) && currentPhraseIndex == old(currentPhraseIndex)
      ensures speechStartTime == old(speechStartTime) && speechEndTime == old(speechEndTime)
      ensures interimResults == old(interimResults) && expectedDuration == old(expectedDuration)
    {
      if isRecording {
        StopRecording();
      }
      var prevIndex := currentPhraseIndex;
      LoadLanguage(languageKey, loaded, Some(prevIndex));
    }

    /**
     * `calculateExpectedDuration` (app.js:399-411). Looking up the text
     * throws when there is no phrase on show, the language is unknown or
     * the phrase has no text in it; then nothing changes and `ok` is false.
     */
    method CalculateExpectedDuration() returns (ok: bool)
      requires Valid()
      modifies this
      ensures Valid()
      ensures ok == old(CurrentText()).Some?
      ensures expectedDuration == if ok then Some(ExpectedDuration(old(CurrentText()).value)) else old(expectedDuration)
      ensures phrases == old(phrases) && currentPhraseIndex == old(currentPhraseIndex) && currentLanguage == old(currentLanguage)
      ensures isRecording == old(isRecording) && speechStartTime == old(speechStartTime) && speechEndTime == old(speechEndTime)
      ensures interimResults == old(interimResults)
    {
      var text := CurrentText();
      if text.None? {
        return false;
      }
      var syllableCount := EstimateSyllables(text.value);
      expectedDuration := Some((syllableCount as real / 3.5) * 1000.0 + 1000.0);
      ok := true;
    }

    /**
     * `startRecording` (app.js:373-397). `recognitionStarts` is whether
     * the recogniser accepted `start()`. When the expected duration cannot
     * be computed the error handler stops the recording before the timing
     * fields are reset; when the recogniser refuses, they are already reset.
     */
    method StartRecording(recognitionStarts: bool)
      requires Valid()
      modifies this
      ensures Valid()
      ensures phrases == old(phrases) && currentPhraseIndex == old(currentPhraseIndex) && currentLanguage == old(currentLanguage)
      ensures old(CurrentText()).None? ==>
        && !isRecording && expectedDuration == old(expectedDuration)
        && speechStartTime == old(speechStartTime) && speechEndTime == old(speechEndTime) && interimResults == old(interimResults)
      ensures old(CurrentText()).Some? ==>
        && isRecording == recognitionStarts
        && expectedDuration == Some(ExpectedDuration(old(CurrentText()).value))
        && speechStartTime == None && speechEndTime == None && interimResults == []
    {
      isRecording := true;
      var ok := CalculateExpectedDuration();
      if !ok {
        HandleSpeechError();
        return;
      }
      speechStartTime := None;
      speechEndTime := None;
      interimResults := [];
      if !recognitionStarts {
        HandleSpeechError();
      }
    }

    /** `stopRecording` (app.js:419-427), without the button and recogniser calls. */
    method StopRecording()
      modifies this
      ensures !isRecording
      ensures phrases == old(phrases) && currentPhraseIndex == old(currentPhraseIndex) && currentLanguage == old(currentLanguage)
      ensures speechStartTime == old(speechStartTime) && speechEndTime == old(speechEndTime)
      ensures interimResults == old(interimResults) && expectedDuration == old(expectedDuration)
    {
      isRecording := false;
    }

    /** `handleSpeechError` (app.js:667-689): the recording stops; the message is display only. */
    method HandleSpeechError()
      modifies this
      ensures !isRecording
      ensures phrases == old(phrases) && currentPhraseIndex == old(currentPhraseIndex) && currentLanguage == old(currentLanguage)
      ensures speechStartTime == old(speechStartTime) && speechEndTime == old(speechEndTime)
      ensures interimResults == old(interimResults) && expectedDuration == old(expectedDuration)
    {
      StopRecording();
    }

    /** `toggleRecording` (app.js:365-371). */
    method ToggleRecording(recognitionStarts: bool)
      requires Valid()
      modifies this
      ensures Valid()
      ensures phrases == old(phrases) && currentPhraseIndex == old(currentPhraseIndex) && currentLanguage == old(currentLanguage)
      ensures old(isRecording) ==>
        && !isRecording && interimResults == old(interimResults)
        && speechStartTime == old(speechStartTime) && speechEndTime == old(speechEndTime) && expectedDuration == old(expectedDuration)
      ensures !old(isRecording) && old(CurrentText()).None? ==>
        && !isRecording && expectedDuration == old(expectedDuration)
        && speechStartTime == old(speechStartTime) && speechEndTime == old(speechEndTime) && interimResults == old(interimResults)
      ensures !old(isRecording) && old(CurrentText()).Some? ==>
        && isRecording == recognitionStarts
        && expectedDuration == Some(ExpectedDuration(old(CurrentText()).value))
        && speechStartTime == None && speechEndTime == None && interimResults == []
    {
      if isRecording {
        StopRecording();
      } else {
        StartRecording(recognitionStarts);
      }
    }

    /** The recogniser's `onstart` (app.js:206-209) at time `now`. */
    method OnRecognitionStart(now: int)
      modifies this
      ensures speechStartTime == Some(now) && interimResults == []
      ensures phrases == old(phrases) && currentPhraseIndex == old(currentPhraseIndex) && currentLanguage == old(currentLanguage)
      ensures isRecording == old(isRecording) && speechEndTime == old(speechEndTime) && expectedDuration == old(expectedDuration)
    {
      speechStartTime := Some(now);
      interimResults := [];
    }

    /** The recogniser's `onend` (app.js:211-214) at time `now`. */
    method OnRecognitionEnd(now: int)
      modifies this
      ensures speechEndTime == Some(now) && !isRecording
      ensures phrases == old(phrases) && currentPhraseIndex == old(currentPhraseIndex) && currentLanguage == old(currentLanguage)
      ensures speechStartTime == old(speechStartTime) && interimResults == old(interimResults) && expectedDuration == old(expectedDuration)
    {
      speechEndTime := Some(now);
      StopRecording();
    }

    /**
     * `analyzeSpeech` (app.js:464-505): the duration runs from the start
     * time (`null` counts as 0) to `endTime`, and the fluency score counts
     * the interim results recorded so far.
     */
    method AnalyzeSpeech(original: string, spoken: string, endTime: int) returns (analysis: SpeechAnalysis)
      requires expectedDuration.Some? && expectedDuration.value > 0.0
      ensures analysis == Analyze(original, spoken, endTime - speechStartTime.GetOr(0), expectedDuration.value, |interimResults|)
    {
      analysis := AnalyzeOver(original, spoken, endTime - speechStartTime.GetOr(0), expectedDuration.value, |interimResults|);
    }

    /** `handleFinalSpeechResult` (app.js:449-462): analyse the transcript against the phrase on show, then stop. */
    method HandleFinalSpeechResult(transcript: string, endTime: int) returns (analysis: SpeechAnalysis)
      requires Valid() && CurrentText().Some? && expectedDuration.Some?
      modifies this
      ensures Valid() && !isRecording
      ensures analysis == Analyzer(old(CurrentText()).value, old(speechStartTime).GetOr(0), old(expectedDuration).value, endTime)(transcript, |old(interimResults)|)
      ensures phrases == old(phrases) && currentPhraseIndex == old(currentPhraseIndex) && currentLanguage == old(currentLanguage)
      ensures speechStartTime == old(speechStartTime) && speechEndTime == old(speechEndTime)
      ensures interimResults == old(interimResults) && expectedDuration == old(expectedDuration)
    {
      var originalPhrase := CurrentText().value;
      analysis := AnalyzeSpeech(originalPhrase, transcript, endTime);
      StopRecording();
    }

    /**
     * `processSpeechResults` (app.js:429-447) for the results of one event
     * at `currentTime`. Non-final results are recorded as interim results;
     * each final one is analysed, counting the interim results recorded
     * before it. When the phrase text cannot be looked up, the first final
     * result throws and the rest of the event is lost. An event only
     * arrives after a recording started, so the expected duration is known.
     */
    method ProcessSpeechResults(results: seq<RecognitionResult>, currentTime: int) returns (analyses: seq<SpeechAnalysis>)
      requires Valid() && expectedDuration.Some?
      modifies this
      ensures Valid()
      ensures var handled := if old(CurrentText()).Some? then |results| else FirstFinal(results);
        interimResults == old(interimResults) + Interims(results[..handled], currentTime)
      ensures analyses == if old(CurrentText()).Some? then
          AnalysesOf(Analyzer(old(CurrentText()).value, old(speechStartTime).GetOr(0), old(expectedDuration).value, currentTime), |old(interimResults)|, results, currentTime)
        else []
      ensures isRecording == (old(isRecording) && (old(CurrentText()).None? || Finals(results) == 0))
      ensures phrases == old(phrases) && currentPhraseIndex == old(currentPhraseIndex) && currentLanguage == old(currentLanguage)
      ensures speechStartTime == old(speechStartTime) && speechEndTime == old(speechEndTime) && expectedDuration == old(expectedDuration)
    {
      ghost var text := CurrentText();
      ghost var interims0 := interimResults;
      ghost var recording0 := isRecording;
      analyses := [];
      var i := 0;
      while i < |results|
        invariant 0 <= i <= |results|
        invariant Valid() && expectedDuration == old(expectedDuration) && CurrentText() == text
        invariant phrases == old(phrases) && currentPhraseIndex == old(currentPhraseIndex) && currentLanguage == old(currentLanguage)
        invariant speechStartTime == old(speechStartTime) && speechEndTime == old(speechEndTime)
        invariant Processed(results, i, currentTime, text, interims0, recording0, analyses)
        decreases |results| - i
      {
        var thrown;
        analyses, thrown := ProcessResult(results, i, currentTime, text, interims0, recording0, analyses);
        if thrown {
          // the lookup in handleFinalSpeechResult throws out of the handler
          break;
        }
        i := i + 1;
      }
      assert results[..|results|] == results;
    }

    /** The effect of the first `i` results of an event on the session. */
    ghost predicate Processed(results: seq<RecognitionResult>, i: nat, time: int, text: Option<string>,
                              interims0: seq<Interim>, recording0: bool, analyses: seq<SpeechAnalysis>)
      reads this
      requires i <= |results| && expectedDuration.Some? && expectedDuration.value > 0.0
    {
      Progress(results, i, time, text, interims0, recording0, analyses,
        Analyzer(text.GetOr(""), speechStartTime.GetOr(0), expectedDuration.value, time), interimResults, isRecording)
    }

    /** The loop body of app.js:433-446 for result `i`; `thrown` when the text lookup fails on a final result. */
    method ProcessResult(results: seq<RecognitionResult>, i: nat, currentTime: int, ghost text: Option<string>,
                         ghost interims0: seq<Interim>, ghost recording0: bool, analyses: seq<SpeechAnalysis>)
      returns (analyses': seq<SpeechAnalysis>, thrown: bool)
      requires i < |results| && Valid() && expectedDuration.Some? && CurrentText() == text
      requires Processed(results, i, currentTime, text, interims0, recording0, analyses)
      modifies this
      ensures thrown <==> text.None? && results[i].isFinal
      ensures Valid() && expectedDuration == old(expectedDuration) && CurrentText() == text
      ensures phrases == old(phrases) && currentPhraseIndex == old(currentPhraseIndex) && currentLanguage == old(currentLanguage)
      ensures speechStartTime == old(speechStartTime) && speechEndTime == old(speechEndTime)
      ensures !thrown ==> Processed(results, i + 1, currentTime, text, interims0, recording0, analyses')
      ensures thrown ==> analyses' == analyses && interimResults == old(interimResults) && isRecording == old(isRecording)
    {
      thrown := false;
      if !results[i].isFinal {
        analyses' := analyses;
        ProcessInterim(results, i, currentTime, text, interims0, recording0, analyses);
      } else if CurrentText().None? {
        analyses' := analyses;
        thrown := true;
      } else {
        analyses' := ProcessFinal(results, i, currentTime, text, interims0, recording0, analyses);
      }
    }

    /** A non-final result: record it as an interim result. */
    method ProcessInterim(results: seq<RecognitionResult>, i: nat, currentTime: int, ghost text: Option<string>,
                          ghost interims0: seq<Interim>, ghost recording0: bool, analyses: seq<SpeechAnalysis>)
      requires i < |results| && !results[i].isFinal && Valid() && expectedDuration.Some? && CurrentText() == text
      requires Processed(results, i, currentTime, text, interims0, recording0, analyses)
      modifies this
      ensures Valid() && expectedDuration == old(expectedDuration) && CurrentText() == text
      ensures phrases == old(phrases) && currentPhraseIndex == old(currentPhraseIndex) && currentLanguage == old(currentLanguage)
      ensures speechStartTime == old(speechStartTime) && speechEndTime == old(speechEndTime)
      ensures Processed(results, i + 1, currentTime, text, interims0, recording0, analyses)
    {
      InterimProgress(results, i, currentTime, text, interims0, recording0, analyses,
        Analyzer(text.GetOr(""), speechStartTime.GetOr(0), expectedDuration.value, currentTime), interimResults, isRecording);
      interimResults := interimResults + [Interim(results[i].transcript, currentTime)];
    }

    /** A final result while the phrase text is known: analyse it. */
    method ProcessFinal(results: seq<RecognitionResult>, i: nat, currentTime: int, ghost text: Option<string>,
                        ghost interims0: seq<Interim>, ghost recording0: bool, analyses: seq<SpeechAnalysis>)
      returns (analyses': seq<SpeechAnalysis>)
      requires i < |results| && results[i].isFinal && Valid() && expectedDuration.Some? && CurrentText() == text && text.Some?
      requires Processed(results, i, currentTime, text, interims0, recording0, analyses)
      modifies this
      ensures Valid() && expectedDuration == old(expectedDuration) && CurrentText() == text
      ensures phrases == old(phrases) && currentPhraseIndex == old(currentPhraseIndex) && currentLanguage == old(currentLanguage)
      ensures speechStartTime == old(speechStartTime) && speechEndTime == old(speechEndTime)
      ensures Processed(results, i + 1, currentTime, text, interims0, recording0, analyses')
    {
      ghost var analyze := Analyzer(text.GetOr(""), speechStartTime.GetOr(0), expectedDuration.value, currentTime);
      ghost var interims := interimResults;
      ghost var recording := isRecording;
      var analysis := HandleFinalSpeechResult(results[i].transcript, currentTime);
      FinalProgress(results, i, currentTime, text, interims0, recording0, analyses, analyze, interims, recording, analysis);
      analyses' := analyses + [analysis];
    }

    /** `nextPhrase` (app.js:944-948). */
    method NextPhrase()
      requires Valid() && |phrases| > 0
      modifies this
      ensures Valid()
      ensures phrases == old(phrases) && currentLanguage == old(currentLanguage) && isRecording == old(isRecording)
      ensures currentPhraseIndex == NextIndex(old(currentPhraseIndex), |phrases|)
      ensures speechStartTime == old(speechStartTime) && speechEndTime == old(speechEndTime)
      ensures interimResults == old(interimResults) && expectedDuration == old(expectedDuration)
    {
      currentPhraseIndex := (currentPhraseIndex + 1) % |phrases|;
    }

    /** `handlePhraseJump` (app.js:979-986): an index in range is selected, anything else is ignored. */
    method HandlePhraseJump(indexStr: string)
      requires Valid()
      modifies this
      ensures Valid()
      ensures currentPhraseIndex == JumpTarget(indexStr, |phrases|).GetOr(old(currentPhraseIndex))
      ensures phrases == old(phrases) && currentLanguage == old(currentLanguage) && isRecording == old(isRecording)
      ensures speechStartTime == old(speechStartTime) && speechEndTime == old(speechEndTime)
      ensures interimResults == old(interimResults) && expectedDuration == old(expectedDuration)
    {
      var idx := ParseInt(indexStr);
      if idx.Some? && idx.value >= 0 && idx.value < |phrases| {
        currentPhraseIndex := idx.value;
      }
    }
  }
}
