/**
 * `estimateSyllables` and `calculateExpectedDuration` (app.js:399-417): the
 * syllable count of a phrase is the number of maximal vowel runs of its
 * lower-case form, and the expected duration allows 3.5 syllables a second
 * plus one second of buffer.
 */
module Duration {
  import opened Chars
  import opened Text

  /** The class `[aeiouáéíóúàèìòùâêîôûäëïöü]` of app.js:415. */
  predicate IsVowel(c: char)
  {
    || c == 'a' || c == 'e' || c == 'i' || c == 'o' || c == 'u'
    || c == 'á' || c == 'é' || c == 'í' || c == 'ó' || c == 'ú'
    || c == 'à' || c == 'è' || c == 'ì' || c == 'ò' || c == 'ù'
    || c == 'â' || c == 'ê' || c == 'î' || c == 'ô' || c == 'û'
    || c == 'ä' || c == 'ë' || c == 'ï' || c == 'ö' || c == 'ü'
  }

  /** Position `i` begins a maximal run of vowels. */
  predicate GroupStart(s: string, i: nat)
    requires i < |s|
  {
    IsVowel(s[i]) && (i == 0 || !IsVowel(s[i - 1]))
  }

  /** The number of matches of the global vowel-run regex: the run starts, counted from the left. */
  function VowelGroups(s: string): (n: nat)
    ensures n <= |s|
  {
    if s == [] then 0
    else VowelGroups(s[..|s| - 1]) + (if GroupStart(s, |s| - 1) then 1 else 0)
  }

  /** The regex finds no match exactly when the string holds no vowel (`match` then returns `null`). */
  lemma {:induction false} VowelGroupsZeroIff(s: string)
    ensures VowelGroups(s) == 0 <==> forall i :: 0 <= i < |s| ==> !IsVowel(s[i])
  {
    if s != [] {
      var p := s[..|s| - 1];
      VowelGroupsZeroIff(p);
      assert forall i :: 0 <= i < |p| ==> p[i] == s[i];
    }
  }

  /** Runs are separated by at least one other character, so a string of length `n` has at most `(n + 1) / 2` of them. */
  lemma {:induction false} VowelGroupsBound(s: string)
    ensures 2 * VowelGroups(s) <= |s| + 1
    ensures |s| > 0 && !IsVowel(s[|s| - 1]) ==> 2 * VowelGroups(s) <= |s|
  {
    if s != [] {
      var p := s[..|s| - 1];
      VowelGroupsBound(p);
      if |p| > 0 {
        assert p[|p| - 1] == s[|s| - 2];
      }
    }
  }

  /** `estimateSyllables`: the vowel runs of the lower-case text, or else the number of space-separated pieces. */
  function EstimateSyllables(text: string): (n: nat)
    ensures n >= 1
  {
    var groups := VowelGroups(LowerCase(text));
    if groups > 0 then groups else Max1(|Split(text, ' ')|)
  }

  function Max1(n: int): (m: int)
    ensures m >= 1 && m >= n && (m == 1 || m == n)
  {
    if n >= 1 then n else 1
  }

  /** A text with a vowel counts its vowel runs; one with none counts its space-separated pieces. */
  lemma EstimateSyllablesCases(text: string)
    ensures (exists i :: 0 <= i < |text| && IsVowel(ToLower(text[i]))) ==> EstimateSyllables(text) == VowelGroups(LowerCase(text))
    ensures (forall i :: 0 <= i < |text| ==> !IsVowel(ToLower(text[i]))) ==> EstimateSyllables(text) == Count(text, ' ') + 1
  {
    VowelGroupsZeroIff(LowerCase(text));
  }

  /** The syllable estimate never exceeds the count of characters, plus one for the empty text. */
  lemma EstimateSyllablesBound(text: string)
    ensures EstimateSyllables(text) <= |text| + 1
  {
  }

  /** The duration formula of app.js:410, in milliseconds. */
  function DurationForSyllables(syllables: nat): (ms: real)
    ensures syllables >= 1 ==> ms >= 1000.0 / 3.5 + 1000.0
  {
    syllables as real / 3.5 * 1000.0 + 1000.0
  }

  /** More syllables never mean less time. */
  lemma DurationMonotone(a: nat, b: nat)
    requires a <= b
    ensures DurationForSyllables(a) <= DurationForSyllables(b)
  {
  }

  /** The expected duration of a phrase's text. */
  function ExpectedDuration(text: string): (ms: real)
    ensures ms >= 1000.0 / 3.5 + 1000.0
  {
    DurationForSyllables(EstimateSyllables(text))
  }

  /** "Hola" has two vowel runs, `o` and `a`, so it is expected to take 11000/7 ms (about 1571.4 ms). */
  lemma HolaDuration()
    ensures EstimateSyllables("Hola") == 2
    ensures ExpectedDuration("Hola") == 11000.0 / 7.0
  {
    assert LowerCase("Hola") == "hola";
    assert "hola"[..3] == "hol" && "hol"[..2] == "ho" && "ho"[..1] == "h" && "h"[..0] == "";
  }
}
