/** The image matching of `parse_markdown_with_files` in
  * `app/pdf_utils.py`: every match of
  * `<img[^>]*src=["']([^"']+)["'][^>]*>` is handed to `replace_image`,
  * which looks the basename of the `src` up among the output files of the
  * run. A tag whose file is found becomes `[[IMAGE: alt]]` and adds a file
  * reference numbered after the earlier ones; any other tag is kept. */
module ImageRefs {
  import opened Wrappers
  import Text
  import Conversation

  type OutputFile = Conversation.OutputFile

  predicate IsQuote(c: char) {
    c == '"' || c == '\''
  }

  /** The first quote character of `s`: where `[^"']+` (or `[^"']*`) must
    * stop. */
  function FirstQuote(s: string): (k: Option<nat>)
    ensures k.Some? ==> k.value < |s| && IsQuote(s[k.value])
    ensures k.Some? ==> forall j :: 0 <= j < k.value ==> !IsQuote(s[j])
    ensures k.None? ==> forall j :: 0 <= j < |s| ==> !IsQuote(s[j])
    decreases |s|
  {
    if s == [] then None
    else if IsQuote(s[0]) then Some(0)
    else match FirstQuote(s[1..])
      case Some(k) => Some(k + 1)
      case None => None
  }

  /** A match of the image pattern: its length and its `src` group. */
  datatype ImgMatch = ImgMatch(len: nat, src: string)

  /** The pattern with its `src=` at index `a` of `s`: a quote, a non-empty
    * run without quotes, a quote, then everything up to the next `>`. */
  function SrcAt(s: string, a: nat): (m: Option<ImgMatch>)
    requires a <= |s|
    ensures m.Some? ==> a + 7 <= m.value.len <= |s| && m.value.src != []
  {
    if Text.StartsWith(s[a..], "src=") && a + 4 < |s| && IsQuote(s[a + 4]) then
      var t := s[a + 5..];
      match FirstQuote(t)
      case Some(e) =>
        if e > 0 && '>' in t[e + 1..] then
          Some(ImgMatch(a + 5 + e + 1 + Text.IndexOf(t[e + 1..], '>') + 1, t[..e]))
        else None
      case None => None
    else None
  }

  /** `[^>]*` before `src=` is greedy: the last `src=` that completes a
    * match wins, trying `a` downwards from `a` to 4. */
  function LastSrc(s: string, a: nat): (m: Option<ImgMatch>)
    requires a <= |s|
    ensures m.Some? ==> 0 < m.value.len <= |s| && m.value.src != []
    decreases a
  {
    if a < 4 then None
    else match SrcAt(s, a)
      case Some(m) => Some(m)
      case None => LastSrc(s, a - 1)
  }

  /** The image pattern at the start of `s`. The `src=` must come before the
    * first `>` after `<img`. */
  function ImgAt(s: string): (m: Option<ImgMatch>)
    ensures m.Some? ==> 0 < m.value.len <= |s| && m.value.src != []
    ensures m.Some? ==> Text.StartsWith(s, "<img")
  {
    if Text.StartsWith(s, "<img") then
      LastSrc(s, if '>' in s[4..] then 4 + Text.IndexOf(s[4..], '>') else |s|)
    else None
  }

  /** `os.path.basename`: what follows the last `/`. */
  function Basename(path: string): (r: string)
    ensures |r| <= |path| && r == path[|path| - |r|..]
    ensures '/' !in r
    ensures |r| < |path| ==> path[|path| - |r| - 1] == '/'
    decreases |path|
  {
    if path == [] || path[|path| - 1] == '/' then []
    else Basename(path[..|path| - 1]) + [path[|path| - 1]]
  }

  /** The first output file whose name equals `name`. */
  function FirstMatching(files: seq<OutputFile>, name: string): (f: Option<nat>)
    ensures f.Some? ==> f.value < |files| && files[f.value].filename == name
    ensures f.Some? ==> forall j :: 0 <= j < f.value ==> files[j].filename != name
    ensures f.None? ==> forall j :: 0 <= j < |files| ==> files[j].filename != name
    decreases |files|
  {
    if files == [] then None
    else if files[0].filename == name then Some(0)
    else match FirstMatching(files[1..], name)
      case Some(k) => Some(k + 1)
      case None => None
  }

  /** `alt=["']([^"']*)["']` searched in the whole tag: the leftmost match. */
  function FirstAlt(tag: string): Option<string>
    decreases |tag|
  {
    if tag == [] then None
    else if Text.StartsWith(tag, "alt=") && |tag| > 4 && IsQuote(tag[4]) && FirstQuote(tag[5..]).Some? then
      Some(tag[5..][..FirstQuote(tag[5..]).value])
    else FirstAlt(tag[1..])
  }

  /** One entry of `file_references` (its `type` is always `image`). */
  datatype FileRef = FileRef(file: OutputFile, altText: string, placeholderId: string)

  function Placeholder(k: nat): string {
    "FILE_PLACEHOLDER_" + Text.NatToString(k)
  }

  /** What `replace_image` records for a matched tag, `earlier` references
    * having been recorded before it. */
  function Reference(tag: string, src: string, files: seq<OutputFile>, earlier: nat): Option<FileRef> {
    var name := Basename(src);
    match FirstMatching(files, name)
    case Some(k) => Some(FileRef(files[k], FirstAlt(tag).GetOr(name), Placeholder(earlier)))
    case None => None
  }

  function Marker(r: FileRef): string {
    "[[IMAGE: " + r.altText + "]]"
  }

  /** One step of the substitution at the start of `s`: how much it
    * consumes, what it writes, and the references after it. */
  datatype Step = Step(len: nat, out: string, done: seq<FileRef>)

  /** A match is replaced by the callback's result; elsewhere one character
    * is copied. */
  function ScanStep(s: string, files: seq<OutputFile>, done: seq<FileRef>): (st: Step)
    requires s != []
    ensures 0 < st.len <= |s|
  {
    match ImgAt(s)
    case Some(m) =>
      (match Reference(s[..m.len], m.src, files, |done|)
       case Some(r) => Step(m.len, Marker(r), done + [r])
       case None => Step(m.len, s[..m.len], done))
    case None => Step(1, [s[0]], done)
  }

  /** The rewritten HTML and the references. */
  datatype Replaced = Replaced(text: string, refs: seq<FileRef>)

  /** `re.sub(img_pattern, replace_image, html)`, `done` being the
    * references recorded before `s`; `files` is the list of output files,
    * an absent list counting as empty. */
  function ImagesReplaced(s: string, files: seq<OutputFile>, done: seq<FileRef>): Replaced
    decreases |s|
  {
    if s == [] then Replaced([], done)
    else
      var st := ScanStep(s, files, done);
      var rest := ImagesReplaced(s[st.len..], files, st.done);
      Replaced(st.out + rest.text, rest.refs)
  }

  /** One step as written: with no list of output files at all, the warning
    * for an unmatched tag iterates over `None` and raises. */
  function ScanStepAsWritten(s: string, files: Option<seq<OutputFile>>, done: seq<FileRef>): Result<Step, string>
    requires s != []
  {
    match ImgAt(s)
    case Some(m) =>
      if files.None? && Reference(s[..m.len], m.src, [], |done|).None? then
        Failure("TypeError: 'NoneType' object is not iterable")
      else Success(ScanStep(s, files.GetOr([]), done))
    case None => Success(ScanStep(s, files.GetOr([]), done))
  }

  function ImagesReplacedAsWritten(s: string, files: Option<seq<OutputFile>>, done: seq<FileRef>): Result<Replaced, string>
    decreases |s|
  {
    if s == [] then Success(Replaced([], done))
    else match ScanStepAsWritten(s, files, done)
      case Failure(e) => Failure(e)
      case Success(st) =>
        (match ImagesReplacedAsWritten(s[st.len..], files, st.done)
         case Success(rest) => Success(Replaced(st.out + rest.text, rest.refs))
         case Failure(e) => Failure(e))
  }

  /** The callback for one match: the replacement and the references after
    * it. */
  method ReplaceImage(tag: string, src: string, files: seq<OutputFile>, refs: seq<FileRef>)
    returns (repl: string, newRefs: seq<FileRef>)
    ensures Reference(tag, src, files, |refs|).Some? ==>
              repl == Marker(Reference(tag, src, files, |refs|).value) && newRefs == refs + [Reference(tag, src, files, |refs|).value]
    ensures Reference(tag, src, files, |refs|).None? ==> repl == tag && newRefs == refs
  {
    var name := Basename(src);
    var matching := FirstMatching(files, name);
    if matching.Some? {
      var altText := FirstAlt(tag).GetOr(name);
      var r := FileRef(files[matching.value], altText, Placeholder(|refs|));
      newRefs := refs + [r];
      repl := "[[IMAGE: " + altText + "]]";
    } else {
      repl, newRefs := tag, refs;
    }
  }

  /** One step of the scan: the callback where the pattern matches, one
    * character copied elsewhere. */
  method ScanOnce(s: string, files: seq<OutputFile>, refs: seq<FileRef>)
    returns (len: nat, repl: string, newRefs: seq<FileRef>)
    requires s != []
    ensures Step(len, repl, newRefs) == ScanStep(s, files, refs)
  {
    var m := ImgAt(s);
    if m.Some? {
      len := m.value.len;
      repl, newRefs := ReplaceImage(s[..len], m.value.src, files, refs);
    } else {
      len, repl, newRefs := 1, [s[0]], refs;
    }
  }

  /** `re.sub` with a callback: `step` says, at the start of a non-empty
    * text, how much it consumes, what it writes and the references after
    * it. A step that would not advance consumes the rest. */
  function Substituted(step: (string, seq<FileRef>) -> Step, s: string, done: seq<FileRef>): (r: Replaced)
    ensures s == [] ==> r == Replaced([], done)
    decreases |s|
  {
    if s == [] then Replaced([], done)
    else
      var st := step(s, done);
      var n := if 0 < st.len <= |s| then st.len else |s|;
      var rest := Substituted(step, s[n..], st.done);
      Replaced(st.out + rest.text, rest.refs)
  }

  /** The image pattern with `replace_image` as the callback. */
  function ScanWith(files: seq<OutputFile>): (string, seq<FileRef>) -> Step {
    (s: string, d: seq<FileRef>) => if s == [] then Step(1, [], d) else ScanStep(s, files, d)
  }

  /** `re.sub` with `replace_image` is the substitution. */
  lemma {:induction false} SubstitutedImages(s: string, files: seq<OutputFile>, done: seq<FileRef>)
    ensures Substituted(ScanWith(files), s, done) == ImagesReplaced(s, files, done)
    decreases |s|
  {
    if s != [] {
      var st := ScanStep(s, files, done);
      assert ScanWith(files)(s, done) == st;
      SubstitutedImages(s[st.len..], files, st.done);
    }
  }

  /** The loop invariant survives one step at position `i`. */
  lemma {:induction false} SubstitutedAdvances(step: (string, seq<FileRef>) -> Step, html: string, i: nat, done: seq<FileRef>,
                            text: string, whole: Replaced)
    requires i < |html|
    requires text + Substituted(step, html[i..], done).text == whole.text
    requires Substituted(step, html[i..], done).refs == whole.refs
    ensures var st := step(html[i..], done);
            var n := if 0 < st.len <= |html| - i then st.len else |html| - i;
            && (text + st.out) + Substituted(step, html[i + n..], st.done).text == whole.text
            && Substituted(step, html[i + n..], st.done).refs == whole.refs
  {
    var st := step(html[i..], done);
    var n := if 0 < st.len <= |html| - i then st.len else |html| - i;
    assert html[i..][n..] == html[i + n..];
    var later := Substituted(step, html[i + n..], st.done).text;
    assert text + (st.out + later) == (text + st.out) + later;
  }

  /** The substitution loop: the callback at each position, its output
    * appended and its references carried on. */
  method Substitute(step: (string, seq<FileRef>) -> Step, html: string) returns (text: string, refs: seq<FileRef>)
    ensures Replaced(text, refs) == Substituted(step, html, [])
  {
    text, refs := "", [];
    ghost var whole := Substituted(step, html, []);
    var i := 0;
    assert html[i..] == html;
    while i < |html|
      invariant 0 <= i <= |html|
      invariant text + Substituted(step, html[i..], refs).text == whole.text
      invariant Substituted(step, html[i..], refs).refs == whole.refs
      decreases |html| - i
    {
      var st := step(html[i..], refs);
      var n := if 0 < st.len <= |html| - i then st.len else |html| - i;
      SubstitutedAdvances(step, html, i, refs, text, whole);
      text, refs := text + st.out, st.done;
      i := i + n;
    }
    assert html[i..] == [];
  }

  /** `parse_markdown_with_files`' image substitution over the whole HTML. */
  method ReplaceImages(html: string, files: seq<OutputFile>) returns (text: string, refs: seq<FileRef>)
    ensures Replaced(text, refs) == ImagesReplaced(html, files, [])
  {
    text, refs := Substitute(ScanWith(files), html);
    SubstitutedImages(html, files, []);
  }

  // ---------------------------------------------------------------------
  // Properties
  // ---------------------------------------------------------------------

  /** The references so far are numbered in order and refer to output
    * files. */
  predicate WellNumbered(refs: seq<FileRef>, files: seq<OutputFile>) {
    forall k :: 0 <= k < |refs| ==> refs[k].placeholderId == Placeholder(k) && refs[k].file in files
  }

  /** A recorded reference names an output file whose name is exactly the
    * basename of the `src`, and is numbered after the earlier ones. */
  lemma {:induction false} ReferenceNamesFile(tag: string, src: string, files: seq<OutputFile>, earlier: nat)
    requires Reference(tag, src, files, earlier).Some?
    ensures Reference(tag, src, files, earlier).value.file in files
    ensures Reference(tag, src, files, earlier).value.file.filename == Basename(src)
    ensures Reference(tag, src, files, earlier).value.placeholderId == Placeholder(earlier)
  {
  }

  /** A step keeps the earlier references and adds at most one, numbered
    * after them. */
  lemma {:induction false} StepNumbered(s: string, files: seq<OutputFile>, done: seq<FileRef>)
    requires s != [] && WellNumbered(done, files)
    ensures WellNumbered(ScanStep(s, files, done).done, files)
    ensures |done| <= |ScanStep(s, files, done).done| && ScanStep(s, files, done).done[..|done|] == done
  {
    match ImgAt(s) {
      case Some(m) =>
        var r := Reference(s[..m.len], m.src, files, |done|);
        if r.Some? {
          ReferenceNamesFile(s[..m.len], m.src, files, |done|);
          assert (done + [r.value])[..|done|] == done;
        }
      case None =>
    }
  }

  /** The references are those recorded before, followed by new ones, each
    * numbered by its position and naming an output file. */
  lemma {:induction false} ReferencesNumbered(s: string, files: seq<OutputFile>, done: seq<FileRef>)
    requires WellNumbered(done, files)
    ensures WellNumbered(ImagesReplaced(s, files, done).refs, files)
    ensures |done| <= |ImagesReplaced(s, files, done).refs|
    ensures ImagesReplaced(s, files, done).refs[..|done|] == done
    decreases |s|
  {
    if s != [] {
      var st := ScanStep(s, files, done);
      StepNumbered(s, files, done);
      ReferencesNumbered(s[st.len..], files, st.done);
      var out := ImagesReplaced(s[st.len..], files, st.done).refs;
      assert out[..|done|] == out[..|st.done|][..|done|];
    }
  }

  /** With no output file nothing matches: the HTML is unchanged and no
    * reference is added. */
  lemma {:induction false} NoFilesNoChange(s: string, done: seq<FileRef>)
    ensures ImagesReplaced(s, [], done) == Replaced(s, done)
    decreases |s|
  {
    if s != [] {
      var st := ScanStep(s, [], done);
      NoFilesStep(s, done);
      NoFilesNoChange(s[st.len..], done);
      SliceJoin(s, st.len);
    }
  }

  /** With no output file one step copies what it consumes. */
  lemma {:induction false} NoFilesStep(s: string, done: seq<FileRef>)
    requires s != []
    ensures var st := ScanStep(s, [], done); st.out == s[..st.len] && st.done == done
  {
    match ImgAt(s) {
      case Some(m) =>
        assert FirstMatching([], Basename(m.src)).None?;
      case None =>
        assert s[..1] == [s[0]];
    }
  }

  lemma {:induction false} SliceJoin(s: string, n: nat)
    requires n <= |s|
    ensures s[..n] + s[n..] == s
  {
  }

  /** With a list of output files, the code as written agrees with the
    * corrected one. */
  lemma {:induction false} AsWrittenWithFiles(s: string, files: seq<OutputFile>, done: seq<FileRef>)
    ensures ImagesReplacedAsWritten(s, Some(files), done) == Success(ImagesReplaced(s, files, done))
    decreases |s|
  {
    if s != [] {
      var st := ScanStep(s, files, done);
      AsWrittenWithFiles(s[st.len..], files, st.done);
    }
  }

  /** Some position of `s` starts an image tag. */
  predicate HasImage(s: string) {
    exists p :: 0 <= p < |s| && ImgAt(s[p..]).Some?
  }

  /** As written, without a list of output files the substitution raises
    * exactly when the HTML holds an image tag, where the corrected one
    * keeps every tag (`NoFilesNoChange`). */
  lemma {:induction false} AsWrittenFailsWithoutFiles(s: string, done: seq<FileRef>)
    ensures ImagesReplacedAsWritten(s, None, done).Failure? <==> HasImage(s)
    decreases |s|
  {
    if s != [] {
      if ImgAt(s).Some? {
        FailsAtImage(s, done);
      } else {
        AsWrittenFailsWithoutFiles(s[1..], done);
        AsWrittenSkipsChar(s, done);
        HasImageInTail(s);
      }
    }
  }

  lemma {:induction false} FailsAtImage(s: string, done: seq<FileRef>)
    requires s != [] && ImgAt(s).Some?
    ensures ImagesReplacedAsWritten(s, None, done).Failure? && HasImage(s)
  {
    StepFailsAtImage(s, done);
    ImageAtStart(s);
  }

  lemma {:induction false} StepFailsAtImage(s: string, done: seq<FileRef>)
    requires s != [] && ImgAt(s).Some?
    ensures ScanStepAsWritten(s, None, done).Failure?
  {
    var m := ImgAt(s).value;
    assert Reference(s[..m.len], m.src, [], |done|).None? by {
      assert FirstMatching([], Basename(m.src)).None?;
    }
  }

  lemma {:induction false} ImageAtStart(s: string)
    requires ImgAt(s).Some?
    ensures HasImage(s)
  {
    assert s[0..] == s;
  }

  lemma {:induction false} AsWrittenSkipsChar(s: string, done: seq<FileRef>)
    requires s != [] && ImgAt(s).None?
    ensures ImagesReplacedAsWritten(s, None, done).Failure? <==> ImagesReplacedAsWritten(s[1..], None, done).Failure?
  {
    assert ScanStepAsWritten(s, None, done) == Success(Step(1, [s[0]], done));
  }

  lemma {:induction false} HasImageInTail(s: string)
    requires s != [] && ImgAt(s).None?
    ensures HasImage(s) <==> HasImage(s[1..])
  {
    if HasImage(s[1..]) {
      var p :| 0 <= p < |s[1..]| && ImgAt(s[1..][p..]).Some?;
      assert s[1..][p..] == s[p + 1..];
    }
    if HasImage(s) {
      var p :| 0 <= p < |s| && ImgAt(s[p..]).Some?;
      assert p != 0 by { assert s[0..] == s; }
      assert s[1..][p - 1..] == s[p..];
    }
  }

  /** `LastSrc` passes over positions that cannot start `src=`. */
  lemma {:induction false} LastSrcSkips(s: string, a: nat, lo: nat)
    requires lo <= a <= |s|
    requires forall k :: lo < k <= a && k < |s| ==> s[k] != 's'
    requires lo >= 3
    ensures LastSrc(s, a) == LastSrc(s, lo)
    decreases a
  {
    if a > lo {
      if a < |s| {
        assert s[a..][0] == s[a];
      }
      assert SrcAt(s, a).None?;
      LastSrcSkips(s, a - 1, lo);
    }
  }

  /** An image tag for a file named `a.png`. */
  const ExampleTag := "<img src=\"a.png\">"

  lemma {:induction false} ExampleTagEnd()
    ensures '>' in ExampleTag[4..] && Text.IndexOf(ExampleTag[4..], '>') == 12
  {
    var u := ExampleTag[4..];
    assert u[12] == '>';
    assert forall k :: 0 <= k < 12 ==> u[k] != '>';
  }

  lemma {:induction false} ExampleSrc()
    ensures SrcAt(ExampleTag, 5).Some?
  {
    var s := ExampleTag;
    assert s[5..][..4] == "src=";
    var t := s[10..];
    assert t[5] == '"' && forall j :: 0 <= j < 5 ==> !IsQuote(t[j]);
    assert FirstQuote(t) == Some(5);
    assert t[6..][0] == '>';
  }

  lemma {:induction false} ExampleTagMatches()
    ensures ImgAt(ExampleTag).Some?
  {
    ExampleTagEnd();
    assert ExampleTag[..4] == "<img";
    LastSrcSkips(ExampleTag, 16, 5);
    ExampleSrc();
  }

  /** With no list of output files, a page holding one image tag raises as
    * written; corrected, the tag is kept and nothing is referenced. */
  lemma {:induction false} ImageWithoutFilesExample()
    ensures ImagesReplacedAsWritten(ExampleTag, None, []).Failure?
    ensures ImagesReplaced(ExampleTag, [], []) == Replaced(ExampleTag, [])
  {
    ExampleTagMatches();
    assert ExampleTag[0..] == ExampleTag;
    AsWrittenFailsWithoutFiles(ExampleTag, []);
    NoFilesNoChange(ExampleTag, []);
  }
}
