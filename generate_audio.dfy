/**
 * The naming part of generate_audio.js: where the generator writes the
 * audio file of a phrase (line 116). Its directory and file-name helpers
 * (lines 81-94) are `AudioNames.GetCategoryDir` and
 * `AudioNames.GetAudioFileName` with `LettersAndDigits`.
 */
module GenerateAudio {
  import opened Text
  import opened Decimal
  import opened AudioNames
  import AddAudioPaths

  /** `./audio/${langKey}/${categoryDir}/${fileName}` for one phrase of one category. */
  function OutputPath(langKey: string, categoryName: string, id: int, english: string): (path: string)
  {
    "./audio/" + langKey + "/" + GetCategoryDir(categoryName) + "/" + GetAudioFileName(LettersAndDigits, id, english)
  }

  /**
   * The path has the segments `.`, `audio`, the language key, the category
   * directory and the file name, provided the language key holds no `/`.
   */
  lemma OutputPathSegments(langKey: string, categoryName: string, id: int, english: string)
    requires '/' !in langKey
    ensures Split(OutputPath(langKey, categoryName, id, english), '/') ==
      [".", "audio", langKey, GetCategoryDir(categoryName), GetAudioFileName(LettersAndDigits, id, english)]
  {
    FileNameHasNoSlash(LettersAndDigits, id, english);
    Segments(langKey, GetCategoryDir(categoryName), GetAudioFileName(LettersAndDigits, id, english));
  }

  lemma Segments(langKey: string, dir: string, file: string)
    requires '/' !in langKey && '/' !in dir && '/' !in file
    ensures Split("./audio/" + langKey + "/" + dir + "/" + file, '/') == [".", "audio", langKey, dir, file]
  {
    JoinFive(".", "audio", langKey, dir, file, '/');
    assert "./audio/" == "." + ['/'] + "audio" + ['/'];
    JoinSplit([".", "audio", langKey, dir, file], '/');
  }

  /**
   * For English text without digits the generator writes the file that
   * add_audio_paths.js records: the output path is that path, relative to
   * the current directory.
   */
  lemma OutputMatchesRecordedPath(langKey: string, categoryName: string, id: int, english: string)
    requires forall i :: 0 <= i < |english| ==> !IsDigit(english[i])
    ensures OutputPath(langKey, categoryName, id, english) ==
      "." + AddAudioPaths.AudioPath(langKey, GetCategoryDir(categoryName), GetAudioFileName(Letters, id, english))
  {
    FileNamesAgreeWithoutDigits(id, english);
    RelativeToCurrent(langKey, GetCategoryDir(categoryName), GetAudioFileName(Letters, id, english));
  }

  lemma RelativeToCurrent(langKey: string, dir: string, file: string)
    ensures "./audio/" + langKey + "/" + dir + "/" + file == "." + AddAudioPaths.AudioPath(langKey, dir, file)
  {
    assert "./audio/" == "." + "/audio/";
  }

  /** With a digit in the English text, the generator writes a file that the recorded path does not name. */
  lemma OutputMissesRecordedPath(langKey: string, categoryName: string, id: int, english: string)
    requires exists i :: 0 <= i < |english| && IsDigit(english[i])
    ensures OutputPath(langKey, categoryName, id, english) !=
      "." + AddAudioPaths.AudioPath(langKey, GetCategoryDir(categoryName), GetAudioFileName(Letters, id, english))
  {
    var dir := GetCategoryDir(categoryName);
    FileNamesDifferWithDigits(id, english);
    RelativeToCurrent(langKey, dir, GetAudioFileName(LettersAndDigits, id, english));
    PathsOfDifferentFiles(langKey, dir, GetAudioFileName(LettersAndDigits, id, english), GetAudioFileName(Letters, id, english));
  }

  lemma PathsOfDifferentFiles(langKey: string, dir: string, file1: string, file2: string)
    requires file1 != file2
    ensures "." + AddAudioPaths.AudioPath(langKey, dir, file1) != "." + AddAudioPaths.AudioPath(langKey, dir, file2)
  {
    FramedDiffer("./audio/" + langKey + "/" + dir + "/", file1, file2, "");
    RelativeToCurrent(langKey, dir, file1);
    RelativeToCurrent(langKey, dir, file2);
    assert "./audio/" + langKey + "/" + dir + "/" + file1 + "" == "./audio/" + langKey + "/" + dir + "/" + file1;
    assert "./audio/" + langKey + "/" + dir + "/" + file2 + "" == "./audio/" + langKey + "/" + dir + "/" + file2;
  }
}
