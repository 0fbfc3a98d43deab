/**
 * Three helpers of `LanguageLearningApp` that no caller in the app uses
 * (app.js:693-722): the important short words, a bonus by phrase length
 * and a bonus for matching the vowel/consonant structure of a phrase.
 */
module Bonuses {
  import opened Chars
  import opened Similarity

  /** The list of app.js:695-699, duplicates included. */
  const ImportantShortWords: seq<string> := [
    "el", "la", "es", "un", "en", "de", "se",
    "le", "la", "de", "du", "un", "se", "je",
    "der", "die", "das", "ein", "ist", "ich", "zu"
  ]

  /** `isImportantShortWord`: the listed words are all two or three letters long. */
  function IsImportantShortWord(word: string): (b: bool)
    ensures b ==> 2 <= |word| <= 3
  {
    word in ImportantShortWords
  }

  /** `calculateLengthBonus` (app.js:703-709). */
  function LengthBonus(wordCount: int): (bonus: int)
    ensures bonus in {0, 3, 5, 10}
    ensures bonus == 0 <==> wordCount < 3
    ensures bonus == 10 <==> wordCount >= 5
  {
    if wordCount >= 5 then 10
    else if wordCount >= 4 then 5
    else if wordCount >= 3 then 3
    else 0
  }

  /** A longer phrase never earns a smaller length bonus. */
  lemma LengthBonusMonotone(n: int, m: int)
    requires n <= m
    ensures LengthBonus(n) <= LengthBonus(m)
  {
  }

  /** `[aeiouáéíóúàèìòù]` under the `i` flag: the character's lower-case form is in the class. */
  predicate IsStructureVowel(c: char)
  {
    var l := ToLower(c);
    || l == 'a' || l == 'e' || l == 'i' || l == 'o' || l == 'u'
    || l == 'á' || l == 'é' || l == 'í' || l == 'ó' || l == 'ú'
    || l == 'à' || l == 'è' || l == 'ì' || l == 'ò' || l == 'ù'
  }

  /** `[bcdfghjklmnpqrstvwxyzñç]` under the `i` flag. */
  predicate IsStructureConsonant(c: char)
  {
    var l := ToLower(c);
    || ('b' <= l <= 'd') || ('f' <= l <= 'h') || ('j' <= l <= 'n') || ('p' <= l <= 't')
    || ('v' <= l <= 'z') || l == 'ñ' || l == 'ç'
  }

  /** The two classes are disjoint. */
  lemma VowelsAreNotConsonants(c: char)
    ensures !(IsStructureVowel(c) && IsStructureConsonant(c))
  {
  }

  /** The first replace of app.js:713: every vowel becomes the marker `v`. */
  function MarkVowels(s: string): (r: string)
    ensures |r| == |s|
    ensures forall i :: 0 <= i < |s| ==> r[i] == if IsStructureVowel(s[i]) then 'v' else s[i]
  {
    if s == [] then [] else [if IsStructureVowel(s[0]) then 'v' else s[0]] + MarkVowels(s[1..])
  }

  /** The second replace of app.js:713: every consonant becomes `c`, the `v` markers included. */
  function MarkConsonants(s: string): (r: string)
    ensures |r| == |s|
    ensures forall i :: 0 <= i < |s| ==> r[i] == if IsStructureConsonant(s[i]) then 'c' else s[i]
  {
    if s == [] then [] else [if IsStructureConsonant(s[0]) then 'c' else s[0]] + MarkConsonants(s[1..])
  }

  /** The structure string of app.js:713-714 as written. */
  function StructureAsWritten(s: string): (r: string)
  {
    MarkConsonants(MarkVowels(s))
  }

  /** As written, every vowel and every consonant ends up as `c`: no `v` survives. */
  lemma StructureAsWrittenMergesVowels(s: string)
    ensures |StructureAsWritten(s)| == |s|
    ensures forall i :: 0 <= i < |s| && (IsStructureVowel(s[i]) || IsStructureConsonant(s[i])) ==> StructureAsWritten(s)[i] == 'c'
    ensures 'v' !in StructureAsWritten(s)
  {
    var m := MarkVowels(s);
    assert forall i :: 0 <= i < |s| && IsStructureVowel(s[i]) ==> m[i] == 'v' && IsStructureConsonant(m[i]);
    forall i | 0 <= i < |s| ensures StructureAsWritten(s)[i] != 'v' {
      if !IsStructureVowel(s[i]) && !IsStructureConsonant(s[i]) {
        assert s[i] != 'v';
      }
    }
  }

  /**
   * Hence any two texts of the same length made only of letters of the two
   * classes have the same structure, and the as-written bonus is the top
   * one: "a" spoken as "b" earns 8.
   */
  lemma SpeechPatternAsWrittenIgnoresVowels(original: string, spoken: string)
    requires |original| == |spoken|
    requires forall i :: 0 <= i < |original| ==> IsStructureVowel(original[i]) || IsStructureConsonant(original[i])
    requires forall i :: 0 <= i < |spoken| ==> IsStructureVowel(spoken[i]) || IsStructureConsonant(spoken[i])
    ensures SpeechPatternBonusAsWritten(original, spoken) == 8
  {
    StructureAsWrittenMergesVowels(original);
    StructureAsWrittenMergesVowels(spoken);
    assert StructureAsWritten(original) == StructureAsWritten(spoken);
  }

  /** The structure the two markers of app.js:713 evidently aim at: vowels `v`, consonants `c`, in one pass. */
  function Structure(s: string): (r: string)
    ensures |r| == |s|
    ensures forall i :: 0 <= i < |s| ==> r[i] == if IsStructureVowel(s[i]) then 'v' else if IsStructureConsonant(s[i]) then 'c' else s[i]
  {
    if s == [] then []
    else [if IsStructureVowel(s[0]) then 'v' else if IsStructureConsonant(s[0]) then 'c' else s[0]] + Structure(s[1..])
  }

  /** The corrected structure tells a vowel from a consonant at every position. */
  lemma StructureSeesVowels(original: string, spoken: string, i: nat)
    requires i < |original| && i < |spoken|
    requires IsStructureVowel(original[i]) && IsStructureConsonant(spoken[i])
    ensures Structure(original) != Structure(spoken)
  {
    VowelsAreNotConsonants(spoken[i]);
    assert Structure(original)[i] == 'v' && Structure(spoken)[i] == 'c';
  }

  /** The bands of app.js:718-721. */
  function PatternBonusOf(similarity: real): (bonus: int)
    ensures bonus in {0, 3, 5, 8}
    ensures bonus == 8 <==> similarity >= 0.7
    ensures bonus == 0 <==> similarity < 0.3
  {
    if similarity >= 0.7 then 8
    else if similarity >= 0.5 then 5
    else if similarity >= 0.3 then 3
    else 0
  }

  /** `calculateSpeechPatternBonus` as written. */
  function SpeechPatternBonusAsWritten(original: string, spoken: string): (bonus: int)
    ensures bonus in {0, 3, 5, 8}
  {
    PatternBonusOf(WordSimilarity(StructureAsWritten(original), StructureAsWritten(spoken)))
  }

  /** `calculateSpeechPatternBonus` over the corrected structure: a matching structure earns the top bonus. */
  function SpeechPatternBonus(original: string, spoken: string): (bonus: int)
    ensures bonus in {0, 3, 5, 8}
    ensures Structure(original) == Structure(spoken) ==> bonus == 8
  {
    PatternBonusOf(WordSimilarity(Structure(original), Structure(spoken)))
  }

  /** The bonus does not depend on which text is the original. */
  lemma SpeechPatternBonusSymmetric(original: string, spoken: string)
    ensures SpeechPatternBonus(original, spoken) == SpeechPatternBonus(spoken, original)
  {
    WordSimilaritySymmetric(Structure(original), Structure(spoken));
  }
}
