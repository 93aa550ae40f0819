/**
 * The pure parts of the request handlers in app/chat.py, app/prompt.py and
 * app/assistant.py: the `FileUpload` properties, and the filename `get_file`
 * falls back to when the provider gives none.
 */
module Uploads {
  import opened Wrappers
  import Text

  /** `FileUpload(file_path, filename)`. */
  datatype FileUpload = FileUpload(filePath: string, filename: string)

  function Last(parts: seq<string>): string
    requires |parts| > 0
  {
    parts[|parts| - 1]
  }

  /** `filename.split('.')[-1].lower()`: the lower-cased longest suffix
    * without a dot, which is the whole name or follows a dot. */
  function Extension(f: FileUpload): (ext: string)
    ensures |ext| <= |f.filename|
    ensures ext == Text.Lower(f.filename[|f.filename| - |ext|..])
  {
    var last := Last(Text.SplitOn(f.filename, '.'));
    LastIsSuffix(f.filename, '.');
    LastLowered(f.filename, last);
    Text.Lower(last)
  }

  /** The extension holds no dot. */
  lemma {:induction false} ExtensionHasNoDot(f: FileUpload)
    ensures '.' !in Extension(f)
  {
    var last := Last(Text.SplitOn(f.filename, '.'));
    assert '.' !in last by {
      LastIsSuffix(f.filename, '.');
    }
    LowerKeepsDots(last);
  }

  /** The extension is the whole name or follows a dot. */
  lemma {:induction false} ExtensionFollowsDot(f: FileUpload)
    ensures |Extension(f)| < |f.filename| ==> f.filename[|f.filename| - |Extension(f)| - 1] == '.'
  {
    LastIsSuffix(f.filename, '.');
  }

  /** Lower-casing a suffix without dots keeps it a suffix without dots. */
  lemma {:induction false} LastLowered(s: string, last: string)
    requires |last| <= |s| && last == s[|s| - |last|..] && '.' !in last
    requires |last| < |s| ==> s[|s| - |last| - 1] == '.'
    ensures var e := Text.Lower(last);
            && |e| <= |s| && e == Text.Lower(s[|s| - |e|..]) && '.' !in e
            && (|e| < |s| ==> s[|s| - |e| - 1] == '.')
  {
    LowerKeepsDots(last);
  }

  /** Lower-casing neither adds nor removes a dot. */
  lemma {:induction false} LowerKeepsDots(s: string)
    requires '.' !in s
    ensures '.' !in Text.Lower(s)
  {
    var l := Text.Lower(s);
    forall i | 0 <= i < |l|
      ensures l[i] != '.'
    {
      assert l[i] == Text.LowerChar(s[i]);
    }
  }

  /** One step of `split`: the piece before the first separator, then the
    * split of the rest. */
  lemma {:induction false} SplitStep(s: string, c: char)
    requires c in s
    ensures Text.IndexOf(s, c) < |s|
    ensures Text.SplitOn(s, c) == [s[..Text.IndexOf(s, c)]] + Text.SplitOn(s[Text.IndexOf(s, c) + 1..], c)
    ensures Last(Text.SplitOn(s, c)) == Last(Text.SplitOn(s[Text.IndexOf(s, c) + 1..], c))
  {
    var rest := Text.SplitOn(s[Text.IndexOf(s, c) + 1..], c);
    LastOfCons(s[..Text.IndexOf(s, c)], rest);
  }

  lemma {:induction false} LastOfCons(x: string, rest: seq<string>)
    requires |rest| > 0
    ensures Last([x] + rest) == Last(rest)
  {
  }

  const ImageExtensions: seq<string> := ["jpg", "jpeg", "png", "gif", "bmp", "tiff"]

  const RetrievalExtensions: seq<string> :=
    ["c", "cs", "cpp", "doc", "docx", "html", "java", "json", "md", "pdf", "php",
     "pptx", "py", "rb", "tex", "txt", "css", "js", "sh", "ts"]

  /** `FileUpload.vision`. */
  predicate Vision(f: FileUpload) {
    Extension(f) in ImageExtensions
  }

  /** `FileUpload.retrieval`. */
  predicate Retrieval(f: FileUpload) {
    Extension(f) in RetrievalExtensions
  }

  /** The last piece of a split is the longest suffix without the
    * separator: the whole string, or what follows the last separator. */
  lemma {:induction false} LastIsSuffix(s: string, c: char)
    ensures var l := Last(Text.SplitOn(s, c));
            && |l| <= |s| && l == s[|s| - |l|..] && c !in l
            && (|l| < |s| ==> s[|s| - |l| - 1] == c)
    decreases |s|
  {
    if c in s {
      var k := Text.IndexOf(s, c);
      var t := s[k + 1..];
      var l := Last(Text.SplitOn(s, c));
      assert l == Last(Text.SplitOn(t, c)) by {
        SplitStep(s, c);
      }
      assert |l| <= |t| && l == t[|t| - |l|..] && c !in l && (|l| < |t| ==> t[|t| - |l| - 1] == c) by {
        LastIsSuffix(t, c);
      }
      SuffixAfter(s, c, k, t, l);
    }
  }

  /** A suffix of what follows a separator is a suffix of the whole. */
  lemma {:induction false} SuffixAfter(s: string, c: char, k: nat, t: string, l: string)
    requires k < |s| && s[k] == c && t == s[k + 1..]
    requires |l| <= |t| && l == t[|t| - |l|..]
    requires |l| < |t| ==> t[|t| - |l| - 1] == c
    ensures |l| <= |s| && l == s[|s| - |l|..]
    ensures |l| < |s| ==> s[|s| - |l| - 1] == c
  {
    assert t[|t| - |l|..] == s[|s| - |l|..];
    if |l| < |t| {
      assert s[|s| - |l| - 1] == t[|t| - |l| - 1];
    }
  }

  /** After the last separator at `j`, the last piece is the rest. */
  lemma {:induction false} LastPiece(s: string, c: char, j: nat)
    requires j < |s| && s[j] == c && c !in s[j + 1..]
    ensures Last(Text.SplitOn(s, c)) == s[j + 1..]
  {
    LastIsSuffix(s, c);
    var l := Last(Text.SplitOn(s, c));
    assert forall i :: |s| - |l| <= i < |s| ==> s[i] == l[i - (|s| - |l|)];
    assert forall i :: j < i < |s| ==> s[i] == s[j + 1..][i - j - 1];
    assert |l| == |s| - j - 1;
  }

  /** The extension is the text after the last dot, lower-cased. */
  lemma {:induction false} ExtensionAfterLastDot(path: string, base: string, ext: string)
    requires '.' !in ext
    ensures Extension(FileUpload(path, base + "." + ext)) == Text.Lower(ext)
  {
    var s := base + "." + ext;
    assert s[|base|] == '.' && s[|base| + 1..] == ext;
    LastPiece(s, '.', |base|);
  }

  /** A name without a dot is its own extension, lower-cased. */
  lemma {:induction false} ExtensionWithoutDot(path: string, name: string)
    requires '.' !in name
    ensures Extension(FileUpload(path, name)) == Text.Lower(name)
  {
  }

  /** A name ending in a dot has the empty extension: neither an image nor
    * a retrieval document. */
  lemma {:induction false} TrailingDot(path: string, base: string)
    ensures Extension(FileUpload(path, base + ".")) == ""
    ensures !Vision(FileUpload(path, base + ".")) && !Retrieval(FileUpload(path, base + "."))
  {
    ExtensionAfterLastDot(path, base, "");
    assert base + "." + "" == base + ".";
  }

  /** No upload is both an image and a retrieval document. */
  lemma {:induction false} VisionExcludesRetrieval(f: FileUpload)
    ensures !(Vision(f) && Retrieval(f))
  {
  }

  /** Upper-case extensions are recognised: `photo.JPG` is an image. */
  lemma {:induction false} UpperCaseImage(path: string, base: string)
    ensures Vision(FileUpload(path, base + ".JPG"))
    ensures !Retrieval(FileUpload(path, base + ".JPG"))
  {
    ExtensionAfterLastDot(path, base, "JPG");
    var f := FileUpload(path, base + ".JPG");
    assert base + ".JPG" == base + "." + "JPG";
    assert Text.Lower("JPG") == "jpg";
    assert Extension(f) == "jpg";
    assert ImageExtensions[0] == "jpg";
  }

  // ---------------------------------------------------------------------
  // The filename `get_file` serves

  type Byte = b: int | 0 <= b < 256

  /** `content.startswith(prefix)` on bytes. */
  predicate HasPrefix(content: seq<Byte>, prefix: seq<Byte>) {
    |prefix| <= |content| && content[..|prefix|] == prefix
  }

  /** `word in content` on bytes. */
  predicate Occurs(content: seq<Byte>, word: seq<Byte>) {
    exists i :: 0 <= i <= |content| && WordAt(content, word, i)
  }

  predicate WordAt(content: seq<Byte>, word: seq<Byte>, i: int) {
    0 <= i && i + |word| <= |content| && content[i..i + |word|] == word
  }

  /** `bytes.lower()`: only the ASCII capitals change. */
  function LowerBytes(content: seq<Byte>): (r: seq<Byte>)
    ensures |r| == |content|
  {
    seq(|content|, i requires 0 <= i < |content| =>
      if 65 <= content[i] <= 90 then content[i] + 32 else content[i])
  }

  /** `content[:1000]`. */
  function Head(content: seq<Byte>): (h: seq<Byte>)
    ensures |h| <= 1000 && HasPrefix(content, h)
    ensures |content| <= 1000 ==> h == content
    ensures |content| > 1000 ==> h == content[..1000]
  {
    if |content| <= 1000 then content else content[..1000]
  }

  const PngMagic: seq<Byte> := [0x89, 0x50, 0x4E, 0x47]
  const JpegMagic: seq<Byte> := [0xFF, 0xD8, 0xFF]
  const GifMagic: seq<Byte> := [0x47, 0x49, 0x46, 0x38]
  /** `b'matplotlib.figure'`. */
  const FigureWord: seq<Byte> :=
    [0x6D, 0x61, 0x74, 0x70, 0x6C, 0x6F, 0x74, 0x6C, 0x69, 0x62, 0x2E, 0x66, 0x69, 0x67, 0x75, 0x72, 0x65]
  /** `b'plot'`. */
  const PlotWord: seq<Byte> := [0x70, 0x6C, 0x6F, 0x74]

  /** The plot heuristic on the first 1000 bytes. */
  predicate LooksLikePlot(content: seq<Byte>) {
    Occurs(Head(content), FigureWord) || Occurs(LowerBytes(Head(content)), PlotWord)
  }

  /** The extension guessed from the bytes, signatures first. */
  function GuessedExtension(content: seq<Byte>): (ext: string)
    ensures ext in [".png", ".jpg", ".gif", ".txt"]
  {
    if HasPrefix(content, PngMagic) then ".png"
    else if HasPrefix(content, JpegMagic) then ".jpg"
    else if HasPrefix(content, GifMagic) then ".gif"
    else if LooksLikePlot(content) then ".png"
    else ".txt"
  }

  /** `getattr(file_info, 'filename', None) or getattr(file_info, 'name', None)`,
    * and the guessed name when both are missing or empty. */
  function ServedName(fileId: string, filename: Option<string>, name: Option<string>,
                      content: seq<Byte>): (served: string)
    ensures filename.Some? && filename.value != "" ==> served == filename.value
    ensures (filename.None? || filename.value == "") && name.Some? && name.value != "" ==> served == name.value
    ensures (filename.None? || filename.value == "") && (name.None? || name.value == "") ==>
              served == fileId + GuessedExtension(content)
  {
    if filename.Some? && filename.value != "" then filename.value
    else if name.Some? && name.value != "" then name.value
    else fileId + GuessedExtension(content)
  }

  /** The three signatures start with different bytes: at most one holds. */
  lemma {:induction false} SignaturesExclusive(content: seq<Byte>)
    ensures !(HasPrefix(content, PngMagic) && HasPrefix(content, JpegMagic))
    ensures !(HasPrefix(content, PngMagic) && HasPrefix(content, GifMagic))
    ensures !(HasPrefix(content, JpegMagic) && HasPrefix(content, GifMagic))
  {
    if HasPrefix(content, PngMagic) {
      assert content[0] == content[..4][0] == 0x89;
    }
    if HasPrefix(content, JpegMagic) {
      assert content[0] == content[..3][0] == 0xFF;
    }
  }

  /** `matplotlib.figure` contains `plot` in lower case, so the first test
    * of the heuristic never decides anything the second would not. */
  lemma {:induction false} FigureImpliesPlot(h: seq<Byte>)
    requires Occurs(h, FigureWord)
    ensures Occurs(LowerBytes(h), PlotWord)
  {
    var i :| 0 <= i <= |h| && WordAt(h, FigureWord, i);
    var l := LowerBytes(h);
    forall k | 0 <= k < 4
      ensures l[i + 3 + k] == PlotWord[k]
    {
      assert h[i + 3 + k] == h[i..i + |FigureWord|][3 + k] == FigureWord[3 + k];
    }
    assert l[i + 3..i + 3 + 4] == PlotWord;
    assert WordAt(l, PlotWord, i + 3);
  }

  /** Each guessed extension, and exactly the bytes that give it. */
  lemma {:induction false} GuessedExtensionCases(content: seq<Byte>)
    ensures GuessedExtension(content) == ".jpg" <==> HasPrefix(content, JpegMagic)
    ensures GuessedExtension(content) == ".gif" <==> HasPrefix(content, GifMagic)
    ensures GuessedExtension(content) == ".png" <==>
              HasPrefix(content, PngMagic) ||
              (!HasPrefix(content, JpegMagic) && !HasPrefix(content, GifMagic) &&
               Occurs(LowerBytes(Head(content)), PlotWord))
    ensures GuessedExtension(content) == ".txt" <==>
              !HasPrefix(content, PngMagic) && !HasPrefix(content, JpegMagic) &&
              !HasPrefix(content, GifMagic) && !Occurs(LowerBytes(Head(content)), PlotWord)
  {
    SignaturesExclusive(content);
    if Occurs(Head(content), FigureWord) {
      FigureImpliesPlot(Head(content));
    }
  }
}
