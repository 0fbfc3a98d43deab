/**
 * The audio naming helpers shared by add_audio_paths.js and
 * generate_audio.js: `getCategoryDir` (identical in both) and
 * `getAudioFileName`, whose two copies differ only in whether digits survive
 * in the slug.
 */
module AudioNames {
  import opened Chars
  import opened Text
  import opened Decimal
  import opened Wrappers

  predicate IsLetter(c: char)
  {
    'a' <= c <= 'z'
  }

  // ---------------------------------------------------------------------
  // getCategoryDir (add_audio_paths.js:4-8, generate_audio.js:81-85)
  // ---------------------------------------------------------------------

  /** `s.replace(/[^a-z]/g, '')`. */
  function KeepLetters(s: string): (r: string)
    ensures forall i :: 0 <= i < |r| ==> IsLetter(r[i])
    ensures (forall i :: 0 <= i < |s| ==> IsLetter(s[i])) ==> r == s
  {
    if s == [] then []
    else if IsLetter(s[0]) then [s[0]] + KeepLetters(s[1..])
    else KeepLetters(s[1..])
  }

  /** `s.replace(/\s+/g, '')`. */
  function DropWhitespace(s: string): (r: string)
    ensures forall i :: 0 <= i < |r| ==> r[i] in s
    ensures (forall i :: 0 <= i < |s| ==> !IsWhitespace(s[i])) ==> r == s
  {
    if s == [] then []
    else if IsWhitespace(s[0]) then DropWhitespace(s[1..])
    else [s[0]] + DropWhitespace(s[1..])
  }

  /** `getCategoryDir`: the lower-case letters of the category name, in order. */
  function GetCategoryDir(name: string): (dir: string)
    ensures forall i :: 0 <= i < |dir| ==> IsLetter(dir[i])
  {
    DropWhitespace(KeepLetters(LowerCase(name)))
  }

  /** A directory name is its own directory name. */
  lemma CategoryDirIdempotent(name: string)
    ensures GetCategoryDir(GetCategoryDir(name)) == GetCategoryDir(name)
  {
    var dir := GetCategoryDir(name);
    LowerCaseOfLower(dir);
  }

  // ---------------------------------------------------------------------
  // getAudioFileName (add_audio_paths.js:11-17, generate_audio.js:88-94)
  // ---------------------------------------------------------------------

  /** Which characters survive in the slug: `[a-z]` (add_audio_paths.js:13) or `[a-z0-9]` (generate_audio.js:90). */
  datatype Keep = Letters | LettersAndDigits

  predicate Kept(keep: Keep, c: char)
  {
    IsLetter(c) || (keep == LettersAndDigits && IsDigit(c))
  }

  /** `s.replace(/[^a-z]/g, '_')` or `s.replace(/[^a-z0-9]/g, '_')`. */
  function MarkUnkept(keep: Keep, s: string): (r: string)
    ensures |r| == |s|
    ensures forall i :: 0 <= i < |s| ==> r[i] == if Kept(keep, s[i]) then s[i] else '_'
  {
    if s == [] then [] else [if Kept(keep, s[0]) then s[0] else '_'] + MarkUnkept(keep, s[1..])
  }

  /** `s.replace(/\s+/g, '_')`: each maximal run of whitespace becomes one underscore. */
  function UnderscoreWhitespace(s: string): (r: string)
    ensures (forall i :: 0 <= i < |s| ==> !IsWhitespace(s[i])) ==> r == s
    decreases |s|
  {
    if s == [] then []
    else if IsWhitespace(s[0]) then ['_'] + UnderscoreWhitespace(s[1..][LeadingWhitespace(s[1..])..])
    else [s[0]] + UnderscoreWhitespace(s[1..])
  }

  /** No underscore is followed by another one. */
  predicate NoDoubleUnderscore(s: string)
  {
    forall i :: 0 <= i < |s| - 1 ==> !(s[i] == '_' && s[i + 1] == '_')
  }

  /** `s.replace(/_{2,}/g, '_')`: each run of underscores becomes one. */
  function CollapseUnderscores(s: string): (r: string)
    ensures NoDoubleUnderscore(r)
    ensures forall i :: 0 <= i < |r| ==> r[i] in s
    ensures |s| > 0 ==> |r| > 0 && r[0] == s[0] && r[|r| - 1] == s[|s| - 1]
  {
    if |s| <= 1 then s
    else if s[0] == '_' && s[1] == '_' then CollapseUnderscores(s[1..])
    else
      var rest := CollapseUnderscores(s[1..]);
      assert rest[0] == s[1];
      [s[0]] + rest
  }

  /** `s.replace(/^_|_$/g, '')`: one underscore removed at each end. */
  function StripUnderscores(s: string): (r: string)
    ensures |s| - 2 <= |r| <= |s|
  {
    var a := if |s| > 0 && s[0] == '_' then s[1..] else s;
    if |a| > 0 && a[|a| - 1] == '_' then a[..|a| - 1] else a
  }

  /** The slug of a text: the middle part of the file name. */
  function Slug(keep: Keep, text: string): (r: string)
  {
    StripUnderscores(CollapseUnderscores(UnderscoreWhitespace(MarkUnkept(keep, LowerCase(text)))))
  }

  /** The whitespace pass finds nothing: every whitespace character was already replaced by an underscore. */
  lemma WhitespacePassIsDead(keep: Keep, text: string)
    ensures UnderscoreWhitespace(MarkUnkept(keep, LowerCase(text))) == MarkUnkept(keep, LowerCase(text))
  {
  }

  /** Stripping keeps the characters and the absence of double underscores, and leaves no underscore at either end. */
  lemma StripShape(c: string)
    requires NoDoubleUnderscore(c)
    ensures forall i :: 0 <= i < |StripUnderscores(c)| ==> StripUnderscores(c)[i] in c
    ensures NoDoubleUnderscore(StripUnderscores(c))
    ensures |StripUnderscores(c)| > 0 ==> StripUnderscores(c)[0] != '_' && StripUnderscores(c)[|StripUnderscores(c)| - 1] != '_'
  {
    var a := if |c| > 0 && c[0] == '_' then c[1..] else c;
    assert forall i :: 0 <= i < |a| ==> a[i] in c;
    assert NoDoubleUnderscore(a);
    if |a| > 1 && c != [] && c[0] == '_' {
      assert a[0] == c[1];
    }
  }

  /** Every character is kept or an underscore. */
  predicate SlugChars(keep: Keep, s: string)
  {
    forall i :: 0 <= i < |s| ==> Kept(keep, s[i]) || s[i] == '_'
  }

  /** The slug is the last two passes applied to the marked lower-case text. */
  lemma SlugIs(keep: Keep, text: string)
    ensures Slug(keep, text) == StripUnderscores(CollapseUnderscores(MarkUnkept(keep, LowerCase(text))))
    ensures SlugChars(keep, MarkUnkept(keep, LowerCase(text)))
  {
    WhitespacePassIsDead(keep, text);
  }

  /** Collapsing and stripping bring in no new character. */
  lemma TailPassesKeepChars(keep: Keep, m: string)
    requires SlugChars(keep, m)
    ensures SlugChars(keep, CollapseUnderscores(m))
    ensures SlugChars(keep, StripUnderscores(CollapseUnderscores(m)))
  {
    var c := CollapseUnderscores(m);
    forall i | 0 <= i < |c| ensures Kept(keep, c[i]) || c[i] == '_' {
      var k :| 0 <= k < |m| && m[k] == c[i];
    }
    StripShape(c);
    var r := StripUnderscores(c);
    forall i | 0 <= i < |r| ensures Kept(keep, r[i]) || r[i] == '_' {
      var k :| 0 <= k < |c| && c[k] == r[i];
    }
  }

  /**
   * The slug is made of kept characters and underscores, never holds two
   * underscores in a row and neither starts nor ends with one.
   */
  lemma SlugShape(keep: Keep, text: string)
    ensures forall i :: 0 <= i < |Slug(keep, text)| ==> Kept(keep, Slug(keep, text)[i]) || Slug(keep, text)[i] == '_'
    ensures NoDoubleUnderscore(Slug(keep, text))
    ensures |Slug(keep, text)| > 0 ==> Slug(keep, text)[0] != '_' && Slug(keep, text)[|Slug(keep, text)| - 1] != '_'
  {
    SlugIs(keep, text);
    var m := MarkUnkept(keep, LowerCase(text));
    var c := CollapseUnderscores(m);
    TailPassesKeepChars(keep, m);
    StripShape(c);
    var r := StripUnderscores(c);
    assert SlugChars(keep, r);
    assert Slug(keep, text) == r;
  }

  /** `getAudioFileName`: the id, an underscore, the slug and `.mp3`. */
  function GetAudioFileName(keep: Keep, id: int, text: string): (name: string)
  {
    IntToString(id) + "_" + Slug(keep, text) + ".mp3"
  }

  /** The id can be read back from the front of a file name, and the name ends in `.mp3`. */
  lemma AudioFileNameParts(keep: Keep, id: int, text: string)
    ensures ParseInt(GetAudioFileName(keep, id, text)) == Some(id)
    ensures var name := GetAudioFileName(keep, id, text); |name| >= 4 && name[|name| - 4..] == ".mp3"
  {
    var slug := Slug(keep, text);
    IdOfFileName(id, slug);
    EndsInMp3(IntToString(id) + "_" + slug);
  }

  lemma IdOfFileName(id: int, slug: string)
    ensures ParseInt(IntToString(id) + "_" + slug + ".mp3") == Some(id)
  {
    var numeral := IntToString(id);
    var rest := "_" + slug + ".mp3";
    assert rest[0] == '_';
    ParseIntOfNumeral(id, rest);
    ConcatAssoc(numeral, "_", slug, ".mp3");
  }

  lemma ConcatAssoc(a: string, b: string, c: string, d: string)
    ensures a + b + c + d == a + (b + c + d)
  {
  }

  lemma EndsInMp3(stem: string)
    ensures var name := stem + ".mp3"; |name| >= 4 && name[|name| - 4..] == ".mp3"
  {
  }

  /** A file name is a single path segment: it holds no `/`. */
  lemma FileNameHasNoSlash(keep: Keep, id: int, text: string)
    ensures '/' !in GetAudioFileName(keep, id, text)
  {
    SlugShape(keep, text);
    NoSlashInName(IntToString(id), Slug(keep, text));
  }

  lemma NoSlashInName(numeral: string, slug: string)
    requires '/' !in numeral && '/' !in slug
    ensures '/' !in numeral + "_" + slug + ".mp3"
  {
    var name := numeral + "_" + slug + ".mp3";
    forall k | 0 <= k < |name| ensures name[k] != '/' {
      if k < |numeral| {
        assert name[k] == numeral[k];
      } else if |numeral| < k < |numeral| + 1 + |slug| {
        assert name[k] == slug[k - |numeral| - 1];
      }
    }
  }

  /** The two copies agree on text without digits. */
  lemma FileNamesAgreeWithoutDigits(id: int, text: string)
    requires forall i :: 0 <= i < |text| ==> !IsDigit(text[i])
    ensures GetAudioFileName(Letters, id, text) == GetAudioFileName(LettersAndDigits, id, text)
  {
    var low := LowerCase(text);
    assert forall i :: 0 <= i < |low| ==> !IsDigit(low[i]);
    assert MarkUnkept(Letters, low) == MarkUnkept(LettersAndDigits, low);
  }

  /** Collapsing runs of underscores keeps every other character. */
  lemma {:induction false} CollapseKeeps(s: string)
    ensures forall i :: 0 <= i < |s| && s[i] != '_' ==> s[i] in CollapseUnderscores(s)
  {
    if |s| > 1 {
      CollapseKeeps(s[1..]);
      assert forall i :: 1 <= i < |s| ==> s[i] == s[1..][i - 1];
    }
  }

  /** Stripping the end underscores keeps every other character. */
  lemma StripKeeps(c: string)
    ensures forall i :: 0 <= i < |c| && c[i] != '_' ==> c[i] in StripUnderscores(c)
  {
    var a := if |c| > 0 && c[0] == '_' then c[1..] else c;
    assert forall i :: 0 <= i < |c| && c[i] != '_' ==> c[i] in a;
  }

  /** Different middles make different framed strings. */
  lemma FramedDiffer(p: string, x: string, y: string, q: string)
    requires x != y
    ensures p + x + q != p + y + q
  {
    if |x| == |y| {
      var k :| 0 <= k < |x| && x[k] != y[k];
      assert (p + x + q)[|p| + k] == x[k];
      assert (p + y + q)[|p| + k] == y[k];
    }
  }

  /** A digit of the text survives in the slug that keeps digits. */
  lemma DigitSurvives(text: string, i: nat)
    requires i < |text| && IsDigit(text[i])
    ensures text[i] in Slug(LettersAndDigits, text)
  {
    SlugIs(LettersAndDigits, text);
    var m := MarkUnkept(LettersAndDigits, LowerCase(text));
    assert m[i] == text[i];
    TailPassesKeep(m, i);
  }

  /** A character other than an underscore survives collapsing and stripping. */
  lemma TailPassesKeep(m: string, i: nat)
    requires i < |m| && m[i] != '_'
    ensures m[i] in StripUnderscores(CollapseUnderscores(m))
  {
    var c := CollapseUnderscores(m);
    CollapseKeeps(m);
    StripKeeps(c);
  }

  /** The slug that keeps only letters holds no digit. */
  lemma NoDigitInLetterSlug(text: string, d: char)
    requires IsDigit(d)
    ensures d !in Slug(Letters, text)
  {
    SlugShape(Letters, text);
  }

  /**
   * They differ on every text with a digit: the slug of generate_audio.js
   * keeps the digit, the one of add_audio_paths.js holds no digit at all
   * ("a1" gives `1_a1.mp3` and `1_a.mp3`).
   */
  lemma FileNamesDifferWithDigits(id: int, text: string)
    requires exists i :: 0 <= i < |text| && IsDigit(text[i])
    ensures GetAudioFileName(Letters, id, text) != GetAudioFileName(LettersAndDigits, id, text)
  {
    var i :| 0 <= i < |text| && IsDigit(text[i]);
    DigitSurvives(text, i);
    NoDigitInLetterSlug(text, text[i]);
    FramedDiffer(IntToString(id) + "_", Slug(Letters, text), Slug(LettersAndDigits, text), ".mp3");
  }
}
