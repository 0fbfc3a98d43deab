/**
 * The in-memory part of `addAudioPathsToFile` (add_audio_paths.js:20-47):
 * every phrase whose `audioFile` is missing or empty gets the path
 * `/audio/<language>/<category dir>/<file name>`, and a flag records
 * whether anything changed. Reading and writing the JSON file is left out.
 */
module AddAudioPaths {
  import opened Wrappers
  import opened Text
  import opened AudioNames

  /**
   * A phrase of a language file: its id, its English text, its `audioFile`
   * (`None` when the key is absent or `null`) and the other keys it carries
   * (the translations), which the annotation never touches.
   */
  datatype Phrase = Phrase(id: int, english: string, audioFile: Option<string>, others: map<string, string>)

  datatype Category = Category(name: string, phrases: seq<Phrase>)

  /** `!phrase.audioFile`: the key is absent, `null` or the empty string. */
  predicate Missing(p: Phrase)
  {
    p.audioFile == None || p.audioFile == Some("")
  }

  /** The template of add_audio_paths.js:34. */
  function AudioPath(languageKey: string, categoryDir: string, fileName: string): (path: string)
  {
    "/audio/" + languageKey + "/" + categoryDir + "/" + fileName
  }

  /** A phrase after the check of add_audio_paths.js:32-36. */
  function FillPhrase(languageKey: string, categoryDir: string, p: Phrase): Phrase
  {
    if Missing(p) then p.(audioFile := Some(AudioPath(languageKey, categoryDir, GetAudioFileName(Letters, p.id, p.english))))
    else p
  }

  /** A category after its inner `forEach`. */
  function FillCategory(languageKey: string, c: Category): Category
  {
    var dir := GetCategoryDir(c.name);
    c.(phrases := seq(|c.phrases|, i requires 0 <= i < |c.phrases| => FillPhrase(languageKey, dir, c.phrases[i])))
  }

  /** All categories after the outer `forEach`. */
  function Annotate(languageKey: string, categories: seq<Category>): seq<Category>
  {
    seq(|categories|, c requires 0 <= c < |categories| => FillCategory(languageKey, categories[c]))
  }

  /** Some phrase of some category is missing its audio file. */
  predicate AnyMissing(categories: seq<Category>)
  {
    exists c, i :: 0 <= c < |categories| && 0 <= i < |categories[c].phrases| && Missing(categories[c].phrases[i])
  }

  /** The parsed contents of one language file, annotated in place. */
  class LanguageData {
    var categories: seq<Category>

    constructor (categories: seq<Category>)
      ensures this.categories == categories
    {
      this.categories := categories;
    }

    /** Lines 26-38: fill every missing path and report whether any was filled. */
    method AddAudioPaths(languageKey: string) returns (modified: bool)
      modifies this
      ensures categories == Annotate(languageKey, old(categories))
      ensures modified <==> AnyMissing(old(categories))
    {
      ghost var original := categories;
      modified := false;
      for c := 0 to |categories|
        invariant |categories| == |original|
        invariant forall c' :: 0 <= c' < c ==> categories[c'] == FillCategory(languageKey, original[c'])
        invariant forall c' :: c <= c' < |categories| ==> categories[c'] == original[c']
        invariant modified <==> exists c', i :: 0 <= c' < c && 0 <= i < |original[c'].phrases| && Missing(original[c'].phrases[i])
      {
        var here := FillCategoryAt(languageKey, c);
        modified := modified || here;
      }
      assert categories == Annotate(languageKey, original);
    }

    /** The inner `forEach` over the phrases of category `c`. */
    method FillCategoryAt(languageKey: string, c: nat) returns (modified: bool)
      requires c < |categories|
      modifies this
      ensures categories == old(categories)[c := FillCategory(languageKey, old(categories)[c])]
      ensures modified <==> exists i :: 0 <= i < |old(categories)[c].phrases| && Missing(old(categories)[c].phrases[i])
    {
      var category := categories[c];
      var categoryDir := GetCategoryDir(category.name);
      modified := false;
      assert FilledUpTo(languageKey, categoryDir, category.phrases, 0) == category.phrases;
      assert categories[c := category] == categories;
      for i := 0 to |category.phrases|
        invariant categories == old(categories)[c := category.(phrases := FilledUpTo(languageKey, categoryDir, category.phrases, i))]
        invariant modified <==> exists i' :: 0 <= i' < i && Missing(category.phrases[i'])
      {
        FilledUpToStep(languageKey, categoryDir, category.phrases, i);
        var filled := FillPhraseAt(languageKey, categoryDir, c, i);
        modified := modified || filled;
      }
      assert FilledUpTo(languageKey, categoryDir, category.phrases, |category.phrases|) == FillCategory(languageKey, category).phrases;
    }

    /** Lines 32-36 for phrase `i` of category `c`: set a missing path and report whether it was set. */
    method FillPhraseAt(languageKey: string, categoryDir: string, c: nat, i: nat) returns (filled: bool)
      requires c < |categories| && i < |categories[c].phrases|
      modifies this
      ensures categories == old(categories)[c := old(categories)[c].(phrases :=
        old(categories)[c].phrases[i := FillPhrase(languageKey, categoryDir, old(categories)[c].phrases[i])])]
      ensures filled <==> Missing(old(categories)[c].phrases[i])
    {
      var phrase := categories[c].phrases[i];
      filled := false;
      if phrase.audioFile == None || phrase.audioFile == Some("") {
        var fileName := GetAudioFileName(Letters, phrase.id, phrase.english);
        var updated := phrase.(audioFile := Some("/audio/" + languageKey + "/" + categoryDir + "/" + fileName));
        categories := categories[c := categories[c].(phrases := categories[c].phrases[i := updated])];
        filled := true;
      } else {
        assert categories[c].phrases[i := phrase] == categories[c].phrases;
        assert categories[c := categories[c]] == categories;
      }
    }
  }

  /** The phrases of a category once the first `i` have been through the check. */
  function FilledUpTo(languageKey: string, categoryDir: string, phrases: seq<Phrase>, i: nat): (r: seq<Phrase>)
    ensures |r| == |phrases|
  {
    seq(|phrases|, k requires 0 <= k < |phrases| => if k < i then FillPhrase(languageKey, categoryDir, phrases[k]) else phrases[k])
  }

  /** Checking phrase `i` extends the filled prefix by one. */
  lemma FilledUpToStep(languageKey: string, categoryDir: string, phrases: seq<Phrase>, i: nat)
    requires i < |phrases|
    ensures FilledUpTo(languageKey, categoryDir, phrases, i)[i] == phrases[i]
    ensures FilledUpTo(languageKey, categoryDir, phrases, i)[i := FillPhrase(languageKey, categoryDir, phrases[i])] ==
      FilledUpTo(languageKey, categoryDir, phrases, i + 1)
  {
  }

  /**
   * Exactly the phrases that were missing a path get one, built from their
   * own id and English text and their category's directory; every other
   * phrase, every category name and the order of everything stay as they were.
   */
  lemma AnnotateExactlyMissing(languageKey: string, categories: seq<Category>)
    ensures var r := Annotate(languageKey, categories);
      && |r| == |categories|
      && (forall c :: 0 <= c < |r| ==> r[c].name == categories[c].name && |r[c].phrases| == |categories[c].phrases|)
      && (forall c, i :: 0 <= c < |r| && 0 <= i < |r[c].phrases| && Missing(categories[c].phrases[i]) ==>
            var p := categories[c].phrases[i];
            r[c].phrases[i] == p.(audioFile := Some(AudioPath(languageKey, GetCategoryDir(categories[c].name), GetAudioFileName(Letters, p.id, p.english)))))
      && (forall c, i :: 0 <= c < |r| && 0 <= i < |r[c].phrases| && !Missing(categories[c].phrases[i]) ==>
            r[c].phrases[i] == categories[c].phrases[i])
  {
  }

  /** After the annotation no phrase is missing its path. */
  lemma AnnotateLeavesNoneMissing(languageKey: string, categories: seq<Category>)
    ensures !AnyMissing(Annotate(languageKey, categories))
  {
    var r := Annotate(languageKey, categories);
    forall c, i | 0 <= c < |r| && 0 <= i < |r[c].phrases| ensures !Missing(r[c].phrases[i]) {
      var p := categories[c].phrases[i];
      if Missing(p) {
        var path := AudioPath(languageKey, GetCategoryDir(categories[c].name), GetAudioFileName(Letters, p.id, p.english));
        assert path[0] == '/';
        assert r[c].phrases[i].audioFile == Some(path);
      }
    }
  }

  /** The file is written back (`modified`) exactly when the annotation changed the data. */
  lemma ModifiedIffChanged(languageKey: string, categories: seq<Category>)
    ensures AnyMissing(categories) <==> Annotate(languageKey, categories) != categories
  {
    var r := Annotate(languageKey, categories);
    AnnotateLeavesNoneMissing(languageKey, categories);
    if !AnyMissing(categories) {
      forall c | 0 <= c < |r| ensures r[c] == categories[c] {
        forall i | 0 <= i < |r[c].phrases| ensures r[c].phrases[i] == categories[c].phrases[i] {
          assert !Missing(categories[c].phrases[i]);
        }
      }
    }
  }

  /** A second pass changes nothing (and so reports `modified == false`). */
  lemma AnnotateIdempotent(languageKey: string, categories: seq<Category>)
    ensures Annotate(languageKey, Annotate(languageKey, categories)) == Annotate(languageKey, categories)
  {
    var r := Annotate(languageKey, categories);
    AnnotateLeavesNoneMissing(languageKey, categories);
    var r2 := Annotate(languageKey, r);
    forall c | 0 <= c < |r| ensures r2[c] == r[c] {
      forall i | 0 <= i < |r[c].phrases| ensures r2[c].phrases[i] == r[c].phrases[i] {
        assert !Missing(r[c].phrases[i]);
      }
    }
  }

  /**
   * The path has the segments `""`, `audio`, the language key, the
   * category directory and the file name, provided the language key holds
   * no `/` (the category directory and the file name never do).
   */
  lemma AudioPathSegments(languageKey: string, categoryName: string, id: int, english: string)
    requires '/' !in languageKey
    ensures var dir := GetCategoryDir(categoryName);
      var file := GetAudioFileName(Letters, id, english);
      Split(AudioPath(languageKey, dir, file), '/') == ["", "audio", languageKey, dir, file]
  {
    FileNameHasNoSlash(Letters, id, english);
    PathSegments(languageKey, GetCategoryDir(categoryName), GetAudioFileName(Letters, id, english));
  }

  lemma PathSegments(languageKey: string, dir: string, file: string)
    requires '/' !in languageKey && '/' !in dir && '/' !in file
    ensures Split(AudioPath(languageKey, dir, file), '/') == ["", "audio", languageKey, dir, file]
  {
    JoinFive("", "audio", languageKey, dir, file, '/');
    assert "/audio/" == "" + ['/'] + "audio" + ['/'];
    JoinSplit(["", "audio", languageKey, dir, file], '/');
  }
}
