/**
 * The text normalisers of the scoring engine (app.js): `normalizeText`,
 * which canonicalises a phrase before it is split into words;
 * `normalizeForPronunciation`, which folds spelling variants of one word;
 * and `toPhoneticPattern`, which reduces a word to coarse sound classes.
 * Every `.replace(/…/g, …)` of the source is one pass below, in the source's
 * order; consecutive passes that only map single characters to single
 * characters are written as one character map.
 */
module Text {
  import opened Chars

  // ---------------------------------------------------------------------
  // Generic string passes
  // ---------------------------------------------------------------------

  /** `s.replace(/[set]/g, '')`: every character of `drop` removed. */
  function Remove(s: string, drop: set<char>): (r: string)
    ensures |r| <= |s|
    ensures forall i :: 0 <= i < |r| ==> r[i] !in drop && r[i] in s
    ensures (forall i :: 0 <= i < |s| ==> s[i] !in drop) ==> r == s
  {
    if s == [] then []
    else if s[0] in drop then Remove(s[1..], drop)
    else [s[0]] + Remove(s[1..], drop)
  }

  /** Number of whitespace characters at the start of `s`. */
  function LeadingWhitespace(s: string): (n: nat)
    ensures n <= |s|
    ensures forall i :: 0 <= i < n ==> IsWhitespace(s[i])
    ensures n < |s| ==> !IsWhitespace(s[n])
  {
    if s != [] && IsWhitespace(s[0]) then 1 + LeadingWhitespace(s[1..]) else 0
  }

  /** Number of whitespace characters at the end of `s`. */
  function TrailingWhitespace(s: string): (n: nat)
    ensures n <= |s|
    ensures forall i :: |s| - n <= i < |s| ==> IsWhitespace(s[i])
    ensures n < |s| ==> !IsWhitespace(s[|s| - 1 - n])
  {
    if s != [] && IsWhitespace(s[|s| - 1]) then 1 + TrailingWhitespace(s[..|s| - 1]) else 0
  }

  /** `s.trim()`: leading and trailing whitespace removed. */
  function Trim(s: string): (r: string)
    ensures |r| <= |s|
    ensures |r| > 0 ==> !IsWhitespace(r[0]) && !IsWhitespace(r[|r| - 1])
  {
    var t := s[LeadingWhitespace(s)..];
    var r := t[..|t| - TrailingWhitespace(t)];
    assert |r| > 0 ==> r[0] == t[0] && r[|r| - 1] == t[|t| - 1 - TrailingWhitespace(t)];
    r
  }

  /** No whitespace character is followed by another one. */
  ghost predicate NoAdjacentWhitespace(s: string)
  {
    forall i :: 0 <= i < |s| - 1 ==> !(IsWhitespace(s[i]) && IsWhitespace(s[i + 1]))
  }

  /** The only whitespace character in `s` is the plain space. */
  ghost predicate OnlyPlainSpaces(s: string)
  {
    forall i :: 0 <= i < |s| && IsWhitespace(s[i]) ==> s[i] == ' '
  }

  /**
   * `s.replace(/\s+/g, ' ')`: each maximal run of whitespace becomes one
   * plain space; every other character is kept.
   */
  function CollapseWhitespace(s: string): (r: string)
    ensures |r| <= |s|
    ensures |s| > 0 ==> |r| > 0 && (IsWhitespace(r[0]) <==> IsWhitespace(s[0]))
    ensures OnlyPlainSpaces(r) && NoAdjacentWhitespace(r)
    ensures forall i :: 0 <= i < |r| && !IsWhitespace(r[i]) ==> r[i] in s
    decreases |s|
  {
    if s == [] then []
    else if IsWhitespace(s[0]) then
      var rest := s[1..][LeadingWhitespace(s[1..])..];
      assert forall c :: c in rest ==> c in s;
      [' '] + CollapseWhitespace(rest)
    else
      [s[0]] + CollapseWhitespace(s[1..])
  }

  /** On a string whose whitespace is already single plain spaces, collapsing changes nothing. */
  lemma {:induction false} CollapseWhitespaceFixed(s: string)
    requires OnlyPlainSpaces(s) && NoAdjacentWhitespace(s)
    ensures CollapseWhitespace(s) == s
  {
    if s != [] {
      assert OnlyPlainSpaces(s[1..]) && NoAdjacentWhitespace(s[1..]);
      if IsWhitespace(s[0]) {
        assert LeadingWhitespace(s[1..]) == 0;
        assert s[1..][0..] == s[1..];
      }
      CollapseWhitespaceFixed(s[1..]);
    }
  }

  // ---------------------------------------------------------------------
  // normalizeText (app.js:851-857)
  // ---------------------------------------------------------------------

  /** The inverted Spanish marks removed by app.js:853. */
  const InvertedMarks: set<char> := {'\U{00BF}', '\U{00A1}'}

  /** The punctuation removed by app.js:854. */
  const Punctuation: set<char> := {'.', ',', '!', '?', ';', ':'}

  /** `normalizeText`: lower-case, drop punctuation, collapse whitespace, trim. */
  function NormalizeText(s: string): (r: string)
    ensures |r| <= |s|
  {
    Trim(CollapseWhitespace(Remove(Remove(LowerCase(s), InvertedMarks), Punctuation)))
  }

  /** Lower case and free of the characters the normaliser removes. */
  ghost predicate CleanChars(r: string)
  {
    forall i :: 0 <= i < |r| ==> !IsUpper(r[i]) && r[i] !in InvertedMarks && r[i] !in Punctuation
  }

  /** What a normalised phrase looks like. */
  ghost predicate IsNormalText(r: string)
  {
    && CleanChars(r)
    && OnlyPlainSpaces(r)
    && NoAdjacentWhitespace(r)
    && (|r| > 0 ==> !IsWhitespace(r[0]) && !IsWhitespace(r[|r| - 1]))
  }

  /** A contiguous slice keeps the character-wise properties of its string. */
  lemma SliceKeepsShape(c: string, lo: nat, hi: nat)
    requires lo <= hi <= |c|
    requires CleanChars(c) && OnlyPlainSpaces(c) && NoAdjacentWhitespace(c)
    ensures CleanChars(c[lo..hi]) && OnlyPlainSpaces(c[lo..hi]) && NoAdjacentWhitespace(c[lo..hi])
  {
    var r := c[lo..hi];
    assert forall i :: 0 <= i < |r| ==> r[i] == c[lo + i];
  }

  /** Lower-casing and the two removals leave clean characters only. */
  lemma RemovalsClean(s: string)
    ensures CleanChars(Remove(Remove(LowerCase(s), InvertedMarks), Punctuation))
  {
    var l := LowerCase(s);
    var b := Remove(l, InvertedMarks);
    var a := Remove(b, Punctuation);
    forall i | 0 <= i < |a|
      ensures !IsUpper(a[i]) && a[i] !in InvertedMarks && a[i] !in Punctuation
    {
      assert a[i] in b;
      var j :| 0 <= j < |b| && b[j] == a[i];
      assert b[j] in l;
      var k :| 0 <= k < |l| && l[k] == b[j];
      assert l[k] == ToLower(s[k]);
    }
  }

  /** Collapsing whitespace keeps clean characters clean. */
  lemma CollapseKeepsClean(a: string)
    requires CleanChars(a)
    ensures CleanChars(CollapseWhitespace(a))
  {
    var c := CollapseWhitespace(a);
    forall i | 0 <= i < |c|
      ensures !IsUpper(c[i]) && c[i] !in InvertedMarks && c[i] !in Punctuation
    {
      if !IsWhitespace(c[i]) {
        assert c[i] in a;
      }
    }
  }

  /**
   * The output of `normalizeText` is lower case, holds none of `¿¡.,!?;:`,
   * has single plain spaces only, and no leading or trailing whitespace.
   */
  lemma NormalizeTextShape(s: string)
    ensures IsNormalText(NormalizeText(s))
  {
    var a := Remove(Remove(LowerCase(s), InvertedMarks), Punctuation);
    RemovalsClean(s);
    CollapseKeepsClean(a);
    TrimKeepsShape(CollapseWhitespace(a));
  }

  /** Trimming a clean, collapsed string gives the normalised shape. */
  lemma TrimKeepsShape(c: string)
    requires CleanChars(c) && OnlyPlainSpaces(c) && NoAdjacentWhitespace(c)
    ensures IsNormalText(Trim(c))
  {
    var lo := LeadingWhitespace(c);
    var t := c[lo..];
    var hi := lo + |t| - TrailingWhitespace(t);
    assert Trim(c) == c[lo..hi];
    SliceKeepsShape(c, lo, hi);
  }

  /** A string that already has the normalised shape is left alone by `normalizeText`. */
  lemma NormalizeTextFixed(r: string)
    requires IsNormalText(r)
    ensures NormalizeText(r) == r
  {
    LowerCaseOfLower(r);
    assert Remove(r, InvertedMarks) == r;
    assert Remove(r, Punctuation) == r;
    CollapseWhitespaceFixed(r);
    assert LeadingWhitespace(r) == 0;
    assert r[0..] == r;
    assert TrailingWhitespace(r) == 0;
  }

  /** `normalizeText` is idempotent. */
  lemma NormalizeTextIdempotent(s: string)
    ensures NormalizeText(NormalizeText(s)) == NormalizeText(s)
  {
    NormalizeTextShape(s);
    NormalizeTextFixed(NormalizeText(s));
  }

  // ---------------------------------------------------------------------
  // Splitting into words (app.js:416, 508-509)
  // ---------------------------------------------------------------------

  /** `s.split(sep)`: the pieces between separators, always at least one (`"".split(' ')` is `[""]`). */
  function Split(s: string, sep: char): (r: seq<string>)
    ensures |r| == Count(s, sep) + 1
    ensures forall k :: 0 <= k < |r| ==> sep !in r[k]
  {
    if s == [] then [[]]
    else
      var rest := Split(s[1..], sep);
      if s[0] == sep then [[]] + rest else [[s[0]] + rest[0]] + rest[1..]
  }

  /** `pieces.join(sep)`. */
  function Join(pieces: seq<string>, sep: char): (r: string)
    requires |pieces| > 0
  {
    if |pieces| == 1 then pieces[0] else pieces[0] + [sep] + Join(pieces[1..], sep)
  }

  /** Splitting loses nothing: joining the pieces with the separator gives the string back. */
  lemma {:induction false} SplitJoin(s: string, sep: char)
    ensures Join(Split(s, sep), sep) == s
  {
    if s != [] {
      SplitJoin(s[1..], sep);
      var rest := Split(s[1..], sep);
      if s[0] != sep {
        if |rest| > 1 {
          assert Join(rest, sep) == rest[0] + [sep] + Join(rest[1..], sep);
          assert ([s[0]] + rest[0]) + [sep] + Join(rest[1..], sep) == [s[0]] + Join(rest, sep);
        }
        assert s == [s[0]] + s[1..];
      } else {
        assert Split(s, sep)[1..] == rest;
        assert s == [sep] + s[1..];
      }
    }
  }

  /** Five pieces joined by a separator. */
  lemma JoinFive(a: string, b: string, c: string, d: string, e: string, sep: char)
    ensures Join([a, b, c, d, e], sep) == a + [sep] + b + [sep] + c + [sep] + d + [sep] + e
  {
    var p := [a, b, c, d, e];
    assert p[1..] == [b, c, d, e] && p[1..][1..] == [c, d, e] && p[1..][1..][1..] == [d, e] && p[1..][1..][1..][1..] == [e];
    calc {
      Join(p, sep);
      a + [sep] + Join([b, c, d, e], sep);
      a + [sep] + (b + [sep] + Join([c, d, e], sep));
      a + [sep] + (b + [sep] + (c + [sep] + Join([d, e], sep)));
      a + [sep] + (b + [sep] + (c + [sep] + (d + [sep] + e)));
      a + [sep] + b + [sep] + c + [sep] + d + [sep] + e;
    }
  }

  /** A string without the separator splits into itself alone. */
  lemma {:induction false} SplitNoSeparator(x: string, sep: char)
    requires sep !in x
    ensures Split(x, sep) == [x]
  {
    if x != [] {
      SplitNoSeparator(x[1..], sep);
      assert x == [x[0]] + x[1..];
    }
  }

  /** A leading piece without the separator comes off as the first piece. */
  lemma {:induction false} SplitAfterPiece(x: string, t: string, sep: char)
    requires sep !in x
    ensures Split(x + [sep] + t, sep) == [x] + Split(t, sep)
  {
    if x == [] {
      assert (x + [sep] + t)[1..] == t;
    } else {
      SplitAfterPiece(x[1..], t, sep);
      assert (x + [sep] + t)[1..] == x[1..] + [sep] + t;
      assert x == [x[0]] + x[1..];
    }
  }

  /** Joining pieces free of the separator and splitting again gives the pieces back. */
  lemma {:induction false} JoinSplit(pieces: seq<string>, sep: char)
    requires |pieces| > 0
    requires forall k :: 0 <= k < |pieces| ==> sep !in pieces[k]
    ensures Split(Join(pieces, sep), sep) == pieces
  {
    if |pieces| == 1 {
      SplitNoSeparator(pieces[0], sep);
    } else {
      JoinSplit(pieces[1..], sep);
      SplitAfterPiece(pieces[0], Join(pieces[1..], sep), sep);
      assert pieces == [pieces[0]] + pieces[1..];
    }
  }

  /** Number of occurrences of `c` in `s`. */
  function Count(s: string, c: char): (n: nat)
    ensures n <= |s|
  {
    if s == [] then 0 else (if s[0] == c then 1 else 0) + Count(s[1..], c)
  }

  /** `.filter(w => w.length > 0)`. */
  function NonEmpty(ws: seq<string>): (r: seq<string>)
    ensures |r| <= |ws|
    ensures forall k :: 0 <= k < |r| ==> r[k] != [] && r[k] in ws
  {
    if ws == [] then []
    else if ws[0] == [] then NonEmpty(ws[1..])
    else [ws[0]] + NonEmpty(ws[1..])
  }

  /** `normalizeText(s).split(' ').filter(w => w.length > 0)`: the words of a phrase. */
  function Words(s: string): (r: seq<string>)
  {
    NonEmpty(Split(NormalizeText(s), ' '))
  }

  /** Every word is non-empty, holds no whitespace, no punctuation and no upper case. */
  lemma WordsShape(s: string)
    ensures forall k :: 0 <= k < |Words(s)| ==> Words(s)[k] != [] && IsWord(Words(s)[k])
  {
    var n := NormalizeText(s);
    NormalizeTextShape(s);
    var pieces := Split(n, ' ');
    SplitPiecesWithin(n, ' ');
    forall k | 0 <= k < |Words(s)|
      ensures IsWord(Words(s)[k])
    {
      var w := Words(s)[k];
      assert w in pieces;
      forall i | 0 <= i < |w|
        ensures !IsWhitespace(w[i]) && !IsUpper(w[i]) && w[i] !in InvertedMarks && w[i] !in Punctuation
      {
        assert w[i] in n;
        assert w[i] != ' ';
      }
    }
  }

  /** A single word as the scorer sees it. */
  ghost predicate IsWord(w: string)
  {
    forall i :: 0 <= i < |w| ==> !IsWhitespace(w[i]) && !IsUpper(w[i]) && w[i] !in InvertedMarks && w[i] !in Punctuation
  }

  /** Every piece of a split is made of characters of the string. */
  lemma {:induction false} SplitPiecesWithin(s: string, sep: char)
    ensures forall k, c :: 0 <= k < |Split(s, sep)| && c in Split(s, sep)[k] ==> c in s
  {
    if s != [] {
      var rest := Split(s[1..], sep);
      SplitPiecesWithin(s[1..], sep);
      forall k, c | 0 <= k < |Split(s, sep)| && c in Split(s, sep)[k]
        ensures c in s
      {
        if s[0] != sep && k == 0 {
          assert Split(s, sep)[0] == [s[0]] + rest[0];
          assert c == s[0] || c in rest[0];
        } else if s[0] != sep {
          assert Split(s, sep)[k] == rest[k];
        } else if k > 0 {
          assert Split(s, sep)[k] == rest[k - 1];
        }
        assert c in s[1..] || c == s[0];
      }
    }
  }

  // ---------------------------------------------------------------------
  // normalizeForPronunciation (app.js:822-849)
  // ---------------------------------------------------------------------

  /** app.js:825-832: accented vowels to their base, ñ to n, then b/v to b. */
  function SpanishFoldChar(c: char): (r: char)
  {
    if (c == 'á' || c == 'à') then 'a'
    else if (c == 'é' || c == 'è') then 'e'
    else if (c == 'í' || c == 'ì') then 'i'
    else if (c == 'ó' || c == 'ò') then 'o'
    else if (c == 'ú' || c == 'ù') then 'u'
    else if c == 'ñ' then 'n'
    else if (c == 'b' || c == 'v') then 'b'
    else c
  }

  /** app.js:838-843: French (and German) diacritics to their base letter. */
  function FrenchFoldChar(c: char): (r: char)
  {
    if (c == 'ç' || c == 'c') then 'c'
    else if (c == 'à' || c == 'â' || c == 'ä') then 'a'
    else if (c == 'è' || c == 'ê' || c == 'ë') then 'e'
    else if (c == 'î' || c == 'ï') then 'i'
    else if (c == 'ô' || c == 'ö') then 'o'
    else if (c == 'û' || c == 'ü') then 'u'
    else c
  }

  function SpanishFold(s: string): (r: string)
    ensures |r| == |s| && forall i :: 0 <= i < |s| ==> r[i] == SpanishFoldChar(s[i])
  {
    if s == [] then [] else [SpanishFoldChar(s[0])] + SpanishFold(s[1..])
  }

  function FrenchFold(s: string): (r: string)
    ensures |r| == |s| && forall i :: 0 <= i < |s| ==> r[i] == FrenchFoldChar(s[i])
  {
    if s == [] then [] else [FrenchFoldChar(s[0])] + FrenchFold(s[1..])
  }

  /** `s.replace(/cc/g, d)`: doubled `c` replaced by `d`, scanning left to right without overlap. */
  function ReplaceDoubled(s: string, c: char, d: char): (r: string)
    ensures |r| <= |s|
    ensures forall i :: 0 <= i < |r| ==> r[i] in s || r[i] == d
    ensures (forall i :: 0 <= i < |s| - 1 ==> !(s[i] == c && s[i + 1] == c)) ==> r == s
  {
    if |s| >= 2 && s[0] == c && s[1] == c then [d] + ReplaceDoubled(s[2..], c, d)
    else if s == [] then []
    else [s[0]] + ReplaceDoubled(s[1..], c, d)
  }

  /** app.js:845: `ß` becomes `ss`, the one rule that lengthens a word. */
  function ExpandSharpS(s: string): (r: string)
    ensures |r| >= |s|
    ensures forall i :: 0 <= i < |r| ==> (r[i] in s && r[i] != 'ß') || r[i] == 's'
    ensures 'ß' !in s ==> r == s
  {
    if s == [] then []
    else if s[0] == 'ß' then "ss" + ExpandSharpS(s[1..])
    else [s[0]] + ExpandSharpS(s[1..])
  }

  /** app.js:846-848: `ä`, `ö`, `ü` become `ae`, `oe`, `ue`. */
  function ExpandUmlauts(s: string): (r: string)
    ensures 'ä' !in s && 'ö' !in s && 'ü' !in s ==> r == s
  {
    if s == [] then []
    else if s[0] == 'ä' then "ae" + ExpandUmlauts(s[1..])
    else if s[0] == 'ö' then "oe" + ExpandUmlauts(s[1..])
    else if s[0] == 'ü' then "ue" + ExpandUmlauts(s[1..])
    else [s[0]] + ExpandUmlauts(s[1..])
  }

  /** The chain up to and including app.js:845, before the German umlaut rules. */
  function BeforeUmlautRules(w: string): (r: string)
  {
    ExpandSharpS(FrenchFold(Remove(ReplaceDoubled(ReplaceDoubled(SpanishFold(LowerCase(w)), 'l', 'y'), 'r', 'r'), {'h'})))
  }

  /** `normalizeForPronunciation`. */
  function NormalizeForPronunciation(w: string): (r: string)
  {
    ExpandUmlauts(BeforeUmlautRules(w))
  }

  /** A letter every pronunciation rule leaves alone. */
  predicate PlainLetter(c: char)
  {
    'a' <= c <= 'z' && c != 'v' && c != 'h'
  }

  /**
   * A word of plain letters without `ll` or `rr` is its own
   * pronunciation-normalised form.
   */
  lemma PronunciationFixed(w: string)
    requires forall i :: 0 <= i < |w| ==> PlainLetter(w[i])
    requires forall i :: 0 <= i < |w| - 1 ==> !(w[i] == w[i + 1] && (w[i] == 'l' || w[i] == 'r'))
    ensures NormalizeForPronunciation(w) == w
  {
    LowerCaseOfLower(w);
    FoldsFixed(w);
    assert ReplaceDoubled(w, 'l', 'y') == w;
    assert ReplaceDoubled(w, 'r', 'r') == w;
    assert Remove(w, {'h'}) == w;
    assert 'ß' !in w;
    assert ExpandSharpS(w) == w;
    assert BeforeUmlautRules(w) == w;
    assert 'ä' !in w && 'ö' !in w && 'ü' !in w;
  }

  lemma FoldsFixed(w: string)
    requires forall i :: 0 <= i < |w| ==> PlainLetter(w[i])
    ensures SpanishFold(w) == w && FrenchFold(w) == w
  {
    forall i | 0 <= i < |w| ensures SpanishFoldChar(w[i]) == w[i] && FrenchFoldChar(w[i]) == w[i] {
      PlainLetterFixed(w[i]);
    }
  }

  lemma PlainLetterFixed(c: char)
    requires PlainLetter(c)
    ensures SpanishFoldChar(c) == c && FrenchFoldChar(c) == c && c != 'ß'
  {
  }

  /** The characters `normalizeForPronunciation` never leaves in its output. */
  const FoldedAway: set<char> :=
    {'á', 'à', 'é', 'è', 'í', 'ì', 'ó', 'ò', 'ú', 'ù', 'ñ', 'v', 'h',
     'ç', 'â', 'ä', 'ê', 'ë', 'î', 'ï', 'ô', 'ö', 'û', 'ü', 'ß'}

  /** After lower-casing and the Spanish rules: lower case, no Spanish accent, no `ñ`, no `v`. */
  predicate SpanishFolded(c: char)
  {
    !IsUpper(c) && c !in {'á', 'à', 'é', 'è', 'í', 'ì', 'ó', 'ò', 'ú', 'ù', 'ñ', 'v'}
  }

  /** After the French rules as well. */
  predicate FrenchFolded(c: char)
  {
    SpanishFolded(c) && c != 'h' && c !in {'ç', 'â', 'ä', 'ê', 'ë', 'î', 'ï', 'ô', 'ö', 'û', 'ü'}
  }

  lemma SpanishFoldCharClean(c: char)
    ensures SpanishFolded(SpanishFoldChar(ToLower(c)))
  {
  }

  lemma FrenchFoldCharClean(c: char)
    requires SpanishFolded(c) && c != 'h'
    ensures FrenchFolded(FrenchFoldChar(c))
  {
  }

  /** The passes up to the removal of `h` leave Spanish-folded characters without `h`. */
  lemma SpanishStageClean(w: string)
    ensures forall c :: c in Remove(ReplaceDoubled(ReplaceDoubled(SpanishFold(LowerCase(w)), 'l', 'y'), 'r', 'r'), {'h'}) ==>
      SpanishFolded(c) && c != 'h'
  {
    var l := LowerCase(w);
    var a := SpanishFold(l);
    forall c | c in a ensures SpanishFolded(c) {
      var i :| 0 <= i < |a| && a[i] == c;
      SpanishFoldCharClean(w[i]);
    }
    var b1 := ReplaceDoubled(a, 'l', 'y');
    forall c | c in b1 ensures SpanishFolded(c) {
      var i :| 0 <= i < |b1| && b1[i] == c;
    }
    var b2 := ReplaceDoubled(b1, 'r', 'r');
    forall c | c in b2 ensures SpanishFolded(c) {
      var i :| 0 <= i < |b2| && b2[i] == c;
    }
    var b := Remove(b2, {'h'});
    forall c | c in b ensures SpanishFolded(c) && c != 'h' {
      var i :| 0 <= i < |b| && b[i] == c;
    }
  }

  /**
   * The German rules of app.js:846-848 never fire: app.js:839-843 has already
   * folded every `ä`, `ö` and `ü`, so the result is the chain without them.
   * The output is lower case and holds none of the folded-away characters.
   */
  lemma UmlautRulesAreDead(w: string)
    ensures NormalizeForPronunciation(w) == BeforeUmlautRules(w)
    ensures forall i :: 0 <= i < |NormalizeForPronunciation(w)| ==>
      NormalizeForPronunciation(w)[i] !in FoldedAway && !IsUpper(NormalizeForPronunciation(w)[i])
  {
    var b := Remove(ReplaceDoubled(ReplaceDoubled(SpanishFold(LowerCase(w)), 'l', 'y'), 'r', 'r'), {'h'});
    SpanishStageClean(w);
    var d := FrenchFold(b);
    forall c | c in d ensures FrenchFolded(c) {
      var i :| 0 <= i < |d| && d[i] == c;
      assert b[i] in b;
      FrenchFoldCharClean(b[i]);
    }
    var e := ExpandSharpS(d);
    assert e == BeforeUmlautRules(w);
    forall i | 0 <= i < |e| ensures FrenchFolded(e[i]) && e[i] != 'ß' {
      if e[i] != 's' {
        assert e[i] in d && e[i] != 'ß';
      }
    }
    forall i | 0 <= i < |e| ensures e[i] !in FoldedAway && !IsUpper(e[i]) {
      FrenchFoldedNotFoldedAway(e[i]);
    }
  }

  lemma FrenchFoldedNotFoldedAway(c: char)
    requires FrenchFolded(c) && c != 'ß'
    ensures c !in FoldedAway && !IsUpper(c) && c != 'ä' && c != 'ö' && c != 'ü'
  {
  }

  // ---------------------------------------------------------------------
  // toPhoneticPattern (app.js:802-820)
  // ---------------------------------------------------------------------

  /** app.js:806-817: consonant pairs merged, accented vowels reduced. */
  function PhoneticChar(c: char): (r: char)
  {
    if (c == 'b' || c == 'p') then 'p'
    else if (c == 'd' || c == 't') then 't'
    else if (c == 'k' || c == 'g') then 'k'
    else if (c == 's' || c == 'z') then 's'
    else if (c == 'l' || c == 'r') then 'r'
    else if (c == 'm' || c == 'n') then 'n'
    else if (c == 'a' || c == 'á' || c == 'à') then 'a'
    else if (c == 'e' || c == 'é' || c == 'è') then 'e'
    else if (c == 'i' || c == 'í' || c == 'ì') then 'i'
    else if (c == 'o' || c == 'ó' || c == 'ò') then 'o'
    else if (c == 'u' || c == 'ú' || c == 'ù') then 'u'
    else c
  }

  function PhoneticMerge(s: string): (r: string)
    ensures |r| == |s| && forall i :: 0 <= i < |s| ==> r[i] == PhoneticChar(s[i])
  {
    if s == [] then [] else [PhoneticChar(s[0])] + PhoneticMerge(s[1..])
  }

  /**
   * app.js:819, `s.replace(/(.)\1+/g, '$1')`: every run of one repeated
   * character shrinks to a single one. The regex `.` does not match line
   * terminators, so runs of those are kept.
   */
  function CollapseRuns(s: string): (r: string)
    ensures |r| <= |s|
    ensures |s| > 0 ==> |r| > 0 && r[0] == s[0]
    ensures forall i :: 0 <= i < |r| ==> r[i] in s
    ensures forall i :: 0 <= i < |r| - 1 && r[i] == r[i + 1] ==> IsLineTerminator(r[i])
  {
    if |s| <= 1 then s
    else if s[0] == s[1] && !IsLineTerminator(s[0]) then CollapseRuns(s[1..])
    else [s[0]] + CollapseRuns(s[1..])
  }

  /** A string without collapsible runs is its own collapse. */
  lemma {:induction false} CollapseRunsFixed(s: string)
    requires forall i :: 0 <= i < |s| - 1 && s[i] == s[i + 1] ==> IsLineTerminator(s[i])
    ensures CollapseRuns(s) == s
  {
    if |s| > 1 {
      CollapseRunsFixed(s[1..]);
    }
  }

  /** `toPhoneticPattern`. */
  function ToPhoneticPattern(w: string): (r: string)
    ensures |r| <= |w|
    ensures |w| > 0 ==> |r| > 0
  {
    CollapseRuns(PhoneticMerge(LowerCase(w)))
  }

  /** The letters the phonetic merge folds into their partner. */
  const MergedAway: set<char> := {'b', 'd', 'g', 'z', 'l', 'm', 'á', 'à', 'é', 'è', 'í', 'ì', 'ó', 'ò', 'ú', 'ù'}

  lemma PhoneticCharClean(c: char)
    ensures PhoneticChar(ToLower(c)) !in MergedAway && !IsUpper(PhoneticChar(ToLower(c)))
    ensures PhoneticChar(PhoneticChar(ToLower(c))) == PhoneticChar(ToLower(c))
    ensures IsLineTerminator(PhoneticChar(ToLower(c))) == IsLineTerminator(c)
  {
  }

  /** Every character of a phonetic pattern is a fixed point of the merge, lower case and not merged away. */
  lemma PatternChars(w: string)
    ensures forall i :: 0 <= i < |ToPhoneticPattern(w)| ==>
      && ToPhoneticPattern(w)[i] !in MergedAway
      && !IsUpper(ToPhoneticPattern(w)[i])
      && PhoneticChar(ToPhoneticPattern(w)[i]) == ToPhoneticPattern(w)[i]
      && (IsLineTerminator(ToPhoneticPattern(w)[i]) ==> ToPhoneticPattern(w)[i] in w)
  {
    var l := LowerCase(w);
    var m := PhoneticMerge(l);
    var p := CollapseRuns(m);
    assert p == ToPhoneticPattern(w);
    forall i | 0 <= i < |p|
      ensures p[i] !in MergedAway && !IsUpper(p[i]) && PhoneticChar(p[i]) == p[i]
      ensures IsLineTerminator(p[i]) ==> p[i] in w
    {
      var j :| 0 <= j < |m| && m[j] == p[i];
      MergedCharClean(w, m, j);
    }
  }

  lemma MergedCharClean(w: string, m: string, j: nat)
    requires j < |w| && j < |m| && m[j] == PhoneticChar(ToLower(w[j]))
    ensures m[j] !in MergedAway && !IsUpper(m[j]) && PhoneticChar(m[j]) == m[j]
    ensures IsLineTerminator(m[j]) ==> m[j] in w
  {
    PhoneticCharClean(w[j]);
  }

  /**
   * A phonetic pattern holds none of `b d g z l m` (nor an accented vowel the
   * merge reduces), is lower case, and two equal characters are adjacent only
   * when they are line terminators that occur in the word.
   */
  lemma PhoneticPatternShape(w: string)
    ensures forall i :: 0 <= i < |ToPhoneticPattern(w)| ==>
      ToPhoneticPattern(w)[i] !in MergedAway && !IsUpper(ToPhoneticPattern(w)[i])
    ensures forall i :: 0 <= i < |ToPhoneticPattern(w)| - 1 && ToPhoneticPattern(w)[i] == ToPhoneticPattern(w)[i + 1] ==>
      IsLineTerminator(ToPhoneticPattern(w)[i]) && ToPhoneticPattern(w)[i] in w
  {
    PatternChars(w);
  }

  /** For a word without line terminators (every word of a normalised phrase), no two adjacent characters are equal. */
  lemma PhoneticPatternNoRepeats(w: string)
    requires forall i :: 0 <= i < |w| ==> !IsLineTerminator(w[i])
    ensures forall i :: 0 <= i < |ToPhoneticPattern(w)| - 1 ==> ToPhoneticPattern(w)[i] != ToPhoneticPattern(w)[i + 1]
  {
    PhoneticPatternShape(w);
  }

  /** `toPhoneticPattern` is idempotent. */
  lemma PhoneticPatternIdempotent(w: string)
    ensures ToPhoneticPattern(ToPhoneticPattern(w)) == ToPhoneticPattern(w)
  {
    var p := ToPhoneticPattern(w);
    PatternChars(w);
    PhoneticPatternShape(w);
    LowerCaseOfLower(p);
    assert PhoneticMerge(p) == p;
    CollapseRunsFixed(p);
  }
}
