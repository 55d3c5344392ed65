/** `getFileIcon`: the icon of a listed file, chosen by its extension. The icons are SVG
    path strings in the source; here each distinct path is one constructor. */
module FileIcons {

  datatype Icon = Picture | Document | Audio | Video | Archive | Code | Generic

  /** `toLowerCase` on the ASCII letters. */
  function ToLower(c: char): (d: char)
    ensures c == '.' <==> d == '.'
    ensures 'A' <= c <= 'Z' ==> d as int == c as int + 32
    ensures !('A' <= c <= 'Z') ==> d == c
  {
    if 'A' <= c <= 'Z' then (c as int + 32) as char else c
  }

  function LowerCase(s: string): (r: string)
    ensures |r| == |s|
    ensures forall i :: 0 <= i < |s| ==> r[i] == ToLower(s[i])
  {
    if |s| == 0 then [] else LowerCase(s[..|s| - 1]) + [ToLower(s[|s| - 1])]
  }

  /** `filename.split(".").pop()`: the text after the last dot, or the whole name when
      it has no dot. */
  function AfterLastDot(s: string): (r: string)
    ensures '.' !in r
    ensures |r| <= |s| && s[|s| - |r|..] == r
    ensures |r| < |s| ==> s[|s| - |r| - 1] == '.'
  {
    if |s| == 0 then []
    else if s[|s| - 1] == '.' then []
    else
      var init := s[..|s| - 1];
      var r := AfterLastDot(init) + [s[|s| - 1]];
      assert s[|s| - |r|..] == init[|init| - |r| + 1..] + [s[|s| - 1]];
      r
  }

  /** The lower-cased extension that `getFileIcon` looks up. */
  function Extension(filename: string): string
  {
    LowerCase(AfterLastDot(filename))
  }

  /** `iconMap`: seventeen extensions in six groups, plus the `default` entry. */
  const IconMap: map<string, Icon> := map[
    "jpg" := Picture, "jpeg" := Picture, "png" := Picture, "gif" := Picture,
    "pdf" := Document, "doc" := Document, "docx" := Document, "txt" := Document,
    "mp3" := Audio, "wav" := Audio,
    "mp4" := Video, "mov" := Video,
    "zip" := Archive, "rar" := Archive,
    "js" := Code, "html" := Code, "css" := Code,
    "default" := Generic
  ]

  /** `iconMap[extension] || iconMap.default`. */
  function FileIcon(filename: string): (icon: Icon)
    ensures Extension(filename) in IconMap ==> icon == IconMap[Extension(filename)]
    ensures Extension(filename) !in IconMap ==> icon == Generic
  {
    var ext := Extension(filename);
    if ext in IconMap then IconMap[ext] else Generic
  }

  /** Lower-casing twice is lower-casing once. */
  lemma {:induction false} LowerCaseIdempotent(s: string)
    ensures LowerCase(LowerCase(s)) == LowerCase(s)
  {
    var once := LowerCase(s);
    assert forall i :: 0 <= i < |s| ==> ToLower(once[i]) == once[i];
  }

  /** Lower-casing does not move the dots, so it commutes with taking the extension. */
  lemma {:induction false} AfterLastDotLowerCase(s: string)
    ensures AfterLastDot(LowerCase(s)) == LowerCase(AfterLastDot(s))
  {
    if |s| > 0 {
      var init := s[..|s| - 1];
      assert LowerCase(s)[..|s| - 1] == LowerCase(init);
      AfterLastDotLowerCase(init);
    }
  }

  /** The lookup ignores case: a name and its lower-cased form get the same icon. */
  lemma IconIgnoresCase(filename: string)
    ensures Extension(LowerCase(filename)) == Extension(filename)
    ensures FileIcon(LowerCase(filename)) == FileIcon(filename)
  {
    AfterLastDotLowerCase(filename);
    LowerCaseIdempotent(AfterLastDot(filename));
  }

  /** The extension of `stem.ext` is `ext` whenever `ext` has no dot, whatever `stem` is. */
  lemma {:induction false} AfterLastDotOfDotted(stem: string, ext: string)
    requires '.' !in ext
    ensures AfterLastDot(stem + "." + ext) == ext
  {
    var s := stem + "." + ext;
    if |ext| > 0 {
      var shorter := ext[..|ext| - 1];
      assert s[..|s| - 1] == stem + "." + shorter;
      AfterLastDotOfDotted(stem, shorter);
    }
  }

  /** The icon of `stem.ext` is looked up by `ext` alone, lower-cased. */
  lemma IconOfDotted(stem: string, ext: string)
    requires '.' !in ext
    ensures FileIcon(stem + "." + ext) == if LowerCase(ext) in IconMap then IconMap[LowerCase(ext)] else Generic
  {
    AfterLastDotOfDotted(stem, ext);
  }

  lemma PictureEntries()
    ensures "jpg" in IconMap && IconMap["jpg"] == Picture
    ensures "jpeg" in IconMap && IconMap["jpeg"] == Picture
    ensures "png" in IconMap && IconMap["png"] == Picture
    ensures "gif" in IconMap && IconMap["gif"] == Picture
  {
  }

  /** jpg, jpeg, png and gif files share one icon, in any letter case. */
  lemma PictureExtensions(stem: string, ext: string)
    requires '.' !in ext
    requires var e := LowerCase(ext); e == "jpg" || e == "jpeg" || e == "png" || e == "gif"
    ensures FileIcon(stem + "." + ext) == Picture
  {
    PictureEntries();
    IconOfDotted(stem, ext);
  }

  /** An upper-case picture name gets the picture icon too. */
  lemma UpperCasePicture(stem: string)
    ensures FileIcon(stem + ".JPG") == Picture
  {
    var e := LowerCase("JPG");
    assert e[0] == 'j' && e[1] == 'p' && e[2] == 'g';
    assert e == "jpg";
    assert stem + ".JPG" == stem + "." + "JPG";
    PictureExtensions(stem, "JPG");
  }
}
