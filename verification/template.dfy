/**
 * The text-level parts of the template engine in app/ai_processor.py:
 * splitting a template file into `@@ name` sections, splitting the `tools`
 * and `handoffs` sections into tokens, rendering `{{ key }}` placeholders
 * (`_apply_variables` with its `SafeDict` default) and splitting a
 * `provider/model` string.
 */
module Template {
  import opened Wrappers
  import Text

  // ---------------------------------------------------------------------
  // Lines: Python's str.splitlines()
  // ---------------------------------------------------------------------

  /** The characters `str.splitlines()` breaks at (`\r\n` counts as one break). */
  predicate IsLineBreak(c: char) {
    || c == '\n' || c == '\r' || c == '\U{B}' || c == '\U{C}'
    || ('\U{1C}' <= c <= '\U{1E}')
    || c == '\U{85}' || c == '\U{2028}' || c == '\U{2029}'
  }

  predicate NoLineBreak(s: string) {
    forall k :: 0 <= k < |s| ==> !IsLineBreak(s[k])
  }

  /** The index of the first line break of `s`, or `|s|`. */
  function BreakIndex(s: string): (k: nat)
    ensures k <= |s|
    ensures k < |s| ==> IsLineBreak(s[k])
    ensures NoLineBreak(s[..k])
  {
    if s == [] || IsLineBreak(s[0]) then 0
    else
      var k := 1 + BreakIndex(s[1..]);
      assert s[..k] == [s[0]] + s[1..][..k - 1];
      k
  }

  /** `content.splitlines()`: no line holds a break, and a final break does
    * not start an empty last line. */
  function SplitLines(s: string): (lines: seq<string>)
    ensures forall k :: 0 <= k < |lines| ==> NoLineBreak(lines[k])
    decreases |s|
  {
    if s == [] then []
    else
      var k := BreakIndex(s);
      if k == |s| then [s]
      else
        var width := if s[k] == '\r' && k + 1 < |s| && s[k + 1] == '\n' then 2 else 1;
        [s[..k]] + SplitLines(s[k + width..])
  }

  /** The body a section accumulates from its lines: each line followed by "\n". */
  function Joined(lines: seq<string>): string {
    if lines == [] then "" else lines[0] + "\n" + Joined(lines[1..])
  }

  /** Splitting a section body into lines gives back the lines it was built from. */
  lemma {:induction false} SplitLinesJoined(lines: seq<string>)
    requires forall k :: 0 <= k < |lines| ==> NoLineBreak(lines[k])
    ensures SplitLines(Joined(lines)) == lines
  {
    if lines != [] {
      var l := lines[0];
      var rest := Joined(lines[1..]);
      var s := l + "\n" + rest;
      assert s == Joined(lines);
      assert s == l + ("\n" + rest);
      assert BreakIndex(s) == |l| by {
        BreakIndexAfter(l, "\n" + rest);
      }
      assert s[..|l|] == l;
      assert s[|l| + 1..] == rest;
      SplitLinesJoined(lines[1..]);
    }
  }

  lemma {:induction false} BreakIndexAfter(l: string, rest: string)
    requires NoLineBreak(l)
    requires rest != [] && IsLineBreak(rest[0])
    ensures BreakIndex(l + rest) == |l|
  {
    if l != [] {
      assert (l + rest)[1..] == l[1..] + rest;
      BreakIndexAfter(l[1..], rest);
    } else {
      assert l + rest == rest;
    }
  }

  // ---------------------------------------------------------------------
  // Section markers and the section scan (app/ai_processor.py:80-90)
  // ---------------------------------------------------------------------

  /** The longest prefix of `s` without white space: the `\S+` of the marker. */
  function TokenPrefix(s: string): (t: string)
    ensures |t| <= |s| && t == s[..|t|]
    ensures forall k :: 0 <= k < |t| ==> !Text.IsSpace(t[k])
    ensures |t| < |s| ==> Text.IsSpace(s[|t|])
  {
    if s == [] || Text.IsSpace(s[0]) then ""
    else [s[0]] + TokenPrefix(s[1..])
  }

  /** The section a line opens when it matches `^@@\s*(\S+)`, lower-cased;
    * the rest of the line is discarded. */
  function MarkerName(line: string): Option<string> {
    if |line| >= 2 && line[0] == '@' && line[1] == '@' then
      var rest := Text.LStrip(line[2..]);
      if rest == [] then None else Some(Text.Lower(TokenPrefix(rest)))
    else None
  }

  /** A line of a template file as the scan loop sees it. */
  datatype LineKind = Heading(name: string) | Body(text: string)

  function Classify(line: string): (k: LineKind)
    ensures k.Body? ==> k.text == line
  {
    match MarkerName(line)
    case Some(n) => Heading(n)
    case None => Body(line)
  }

  function ClassifyAll(lines: seq<string>): (ks: seq<LineKind>)
    ensures |ks| == |lines|
    ensures forall k :: 0 <= k < |lines| ==> ks[k] == Classify(lines[k])
  {
    if lines == [] then [] else [Classify(lines[0])] + ClassifyAll(lines[1..])
  }

  /** `sections` and `current_section` of the scan loop. */
  datatype ScanState = ScanState(sections: map<string, string>, current: Option<string>)

  const ScanStart := ScanState(map[], None)

  /** The open section, if any, has an entry. */
  predicate ScanInv(st: ScanState) {
    st.current.Some? ==> st.current.value in st.sections
  }

  /** One iteration of the scan loop: a marker opens (or reopens, emptying)
    * its section; another line is appended with "\n" to the open section,
    * and dropped when none is open. */
  function ScanLine(st: ScanState, line: LineKind): (st': ScanState)
    requires ScanInv(st)
    ensures ScanInv(st')
  {
    match line
    case Heading(n) => ScanState(st.sections[n := ""], Some(n))
    case Body(t) =>
      if st.current.Some? then
        var c := st.current.value;
        ScanState(st.sections[c := st.sections[c] + t + "\n"], st.current)
      else st
  }

  /** The scan loop run over `lines` from state `st`. */
  function ScanLines(st: ScanState, lines: seq<LineKind>): (st': ScanState)
    requires ScanInv(st)
    ensures ScanInv(st')
    decreases |lines|
  {
    if lines == [] then st else ScanLines(ScanLine(st, lines[0]), lines[1..])
  }

  /** The sections of a template file. */
  function Sections(content: string): map<string, string> {
    ScanLines(ScanStart, ClassifyAll(SplitLines(content))).sections
  }

  /** The scan loop of `Prompt.load`. */
  method ParseSections(content: string) returns (sections: map<string, string>)
    ensures sections == Sections(content)
  {
    var lines := SplitLines(content);
    ghost var kinds := ClassifyAll(lines);
    var current: Option<string> := None;
    sections := map[];
    var i := 0;
    while i < |lines|
      invariant 0 <= i <= |lines|
      invariant ScanInv(ScanState(sections, current))
      invariant ScanLines(ScanState(sections, current), kinds[i..]) == ScanLines(ScanStart, kinds)
    {
      var line := lines[i];
      assert kinds[i..][1..] == kinds[i + 1..];
      var name := MarkerName(line);
      if name.Some? {
        current := name;
        sections := sections[name.value := ""];
      } else if current.Some? {
        sections := sections[current.value := sections[current.value] + line + "\n"];
      }
      i := i + 1;
    }
    assert kinds[i..] == [];
  }

  /** The text a section accumulates from its body lines. */
  function BodyText(lines: seq<LineKind>): string {
    if lines == [] then ""
    else (if lines[0].Body? then lines[0].text + "\n" else "") + BodyText(lines[1..])
  }

  lemma {:induction false} ScanLinesAppend(st: ScanState, a: seq<LineKind>, b: seq<LineKind>)
    requires ScanInv(st)
    ensures ScanLines(st, a + b) == ScanLines(ScanLines(st, a), b)
    decreases |a|
  {
    if a != [] {
      assert (a + b)[1..] == a[1..] + b;
      ScanLinesAppend(ScanLine(st, a[0]), a[1..], b);
    } else {
      assert a + b == b;
    }
  }

  /** A section exists exactly when some line is a marker with its name. */
  lemma {:induction false} SectionNames(st: ScanState, lines: seq<LineKind>, n: string)
    requires ScanInv(st)
    ensures n in ScanLines(st, lines).sections <==>
            (n in st.sections || exists k :: 0 <= k < |lines| && lines[k] == Heading(n))
    decreases |lines|
  {
    if lines != [] {
      SectionNames(ScanLine(st, lines[0]), lines[1..], n);
      if exists k :: 0 <= k < |lines| && lines[k] == Heading(n) {
        var k :| 0 <= k < |lines| && lines[k] == Heading(n);
        if k > 0 {
          assert lines[1..][k - 1] == Heading(n);
        }
      }
      if exists k :: 0 <= k < |lines[1..]| && lines[1..][k] == Heading(n) {
        var k :| 0 <= k < |lines[1..]| && lines[1..][k] == Heading(n);
        assert lines[k + 1] == Heading(n);
      }
    }
  }

  /** The scan over raw lines opens a section for exactly the marker lines. */
  lemma {:induction false} ScanNamesOfLines(lines: seq<string>, n: string)
    ensures n in ScanLines(ScanStart, ClassifyAll(lines)).sections <==>
            exists k :: 0 <= k < |lines| && MarkerName(lines[k]) == Some(n)
  {
    var kinds := ClassifyAll(lines);
    SectionNames(ScanStart, kinds, n);
    if exists k :: 0 <= k < |kinds| && kinds[k] == Heading(n) {
      var k :| 0 <= k < |kinds| && kinds[k] == Heading(n);
      assert MarkerName(lines[k]) == Some(n);
    }
    if exists k :: 0 <= k < |lines| && MarkerName(lines[k]) == Some(n) {
      var k :| 0 <= k < |lines| && MarkerName(lines[k]) == Some(n);
      assert kinds[k] == Heading(n);
    }
  }

  /** Lines before the first marker are dropped. */
  lemma {:induction false} PreambleDropped(lines: seq<LineKind>)
    requires forall k :: 0 <= k < |lines| ==> lines[k].Body?
    ensures ScanLines(ScanStart, lines) == ScanStart
    decreases |lines|
  {
    if lines != [] {
      assert lines[0].Body?;
      PreambleDropped(lines[1..]);
    }
  }

  /** Non-marker lines in the open section `n` are appended to its body,
    * each followed by "\n", and nothing else changes. */
  lemma {:induction false} BodyAppended(st: ScanState, body: seq<LineKind>, n: string)
    requires ScanInv(st) && st.current == Some(n)
    requires forall k :: 0 <= k < |body| ==> body[k].Body?
    ensures ScanLines(st, body) == ScanState(st.sections[n := st.sections[n] + BodyText(body)], Some(n))
    decreases |body|
  {
    if body == [] {
      assert st.sections[n] + "" == st.sections[n];
      assert st.sections[n := st.sections[n]] == st.sections;
    } else {
      assert body[0].Body?;
      var t := body[0].text;
      var st1 := ScanLine(st, body[0]);
      assert st1 == ScanState(st.sections[n := st.sections[n] + t + "\n"], Some(n));
      BodyAppended(st1, body[1..], n);
      assert st.sections[n] + t + "\n" + BodyText(body[1..]) == st.sections[n] + BodyText(body);
    }
  }

  /** Once another section is open, lines that never name `n` leave its body alone. */
  lemma {:induction false} SectionUntouched(st: ScanState, lines: seq<LineKind>, n: string)
    requires ScanInv(st) && st.current != Some(n) && n in st.sections
    requires forall k :: 0 <= k < |lines| ==> lines[k] != Heading(n)
    ensures n in ScanLines(st, lines).sections
    ensures ScanLines(st, lines).sections[n] == st.sections[n]
    decreases |lines|
  {
    if lines != [] {
      assert lines[0] != Heading(n);
      SectionUntouched(ScanLine(st, lines[0]), lines[1..], n);
    }
  }

  /** A marker of another section closes section `n` for good when `n` is
    * never opened again. */
  lemma {:induction false} SectionClosed(st: ScanState, rest: seq<LineKind>, n: string)
    requires ScanInv(st) && n in st.sections
    requires rest != [] && rest[0].Heading?
    requires forall k :: 0 <= k < |rest| ==> rest[k] != Heading(n)
    ensures n in ScanLines(st, rest).sections
    ensures ScanLines(st, rest).sections[n] == st.sections[n]
  {
    assert rest[0] != Heading(n);
    var st1 := ScanLine(st, rest[0]);
    assert st1.current != Some(n) && st1.sections[n] == st.sections[n];
    assert rest == [rest[0]] + rest[1..];
    SectionUntouched(st1, rest[1..], n);
  }

  /** From any state, a marker for `n`, body lines and then a closing marker
    * (or the end) leave exactly those body lines as the text of section `n`. */
  lemma {:induction false} OpenedSection(st0: ScanState, n: string, body: seq<LineKind>, rest: seq<LineKind>)
    requires ScanInv(st0)
    requires forall k :: 0 <= k < |body| ==> body[k].Body?
    requires rest == [] || rest[0].Heading?
    requires forall k :: 0 <= k < |rest| ==> rest[k] != Heading(n)
    ensures var r := ScanLines(st0, [Heading(n)] + body + rest);
            n in r.sections && r.sections[n] == BodyText(body)
  {
    var lines := [Heading(n)] + body + rest;
    assert lines[0] == Heading(n);
    assert lines[1..] == body + rest;
    var st1 := ScanLine(st0, Heading(n));
    assert ScanLines(st0, lines) == ScanLines(st1, body + rest);
    ScanLinesAppend(st1, body, rest);
    BodyAppended(st1, body, n);
    if rest != [] {
      SectionClosed(ScanLines(st1, body), rest, n);
    }
  }

  /** The body of a section is the "\n"-terminated lines after its LAST
    * marker, up to the next marker: a repeated marker resets the body, and
    * a later marker of another section closes it. */
  lemma {:induction false} SectionBody(pre: seq<LineKind>, body: seq<LineKind>, rest: seq<LineKind>, n: string)
    requires forall k :: 0 <= k < |body| ==> body[k].Body?
    requires rest == [] || rest[0].Heading?
    requires forall k :: 0 <= k < |rest| ==> rest[k] != Heading(n)
    ensures var r := ScanLines(ScanStart, pre + [Heading(n)] + body + rest);
            n in r.sections && r.sections[n] == BodyText(body)
  {
    var tail := [Heading(n)] + body + rest;
    assert pre + [Heading(n)] + body + rest == pre + tail;
    ScanLinesAppend(ScanStart, pre, tail);
    OpenedSection(ScanLines(ScanStart, pre), n, body, rest);
  }

  // ---------------------------------------------------------------------
  // Tool and handoff tokens (app/ai_processor.py:107-119)
  // ---------------------------------------------------------------------

  /** A character of the separator class `[\s,;]`. */
  predicate IsDelimiter(c: char) {
    Text.IsSpace(c) || c == ',' || c == ';'
  }

  predicate IsToken(t: string) {
    t != [] && forall k :: 0 <= k < |t| ==> !IsDelimiter(t[k])
  }

  /** The length of the run of non-separators that starts `s`. */
  function RunLength(s: string): (k: nat)
    ensures k <= |s|
    ensures forall j :: 0 <= j < k ==> !IsDelimiter(s[j])
    ensures k < |s| ==> IsDelimiter(s[k])
  {
    if s == [] || IsDelimiter(s[0]) then 0 else 1 + RunLength(s[1..])
  }

  /** The maximal runs of non-separators, in order: what `re.split(r"[\s,;]+", s)`
    * keeps once empty strings are filtered out. */
  function Tokens(s: string): (ts: seq<string>)
    ensures forall k :: 0 <= k < |ts| ==> IsToken(ts[k])
    decreases |s|
  {
    if s == [] then []
    else if IsDelimiter(s[0]) then Tokens(s[1..])
    else
      var k := RunLength(s);
      [s[..k]] + Tokens(s[k..])
  }

  /** The token list of a `tools` or `handoffs` section body. */
  function SplitTokens(body: string): seq<string> {
    Tokens(Text.Strip(body))
  }

  lemma {:induction false} RunLengthOfToken(t: string, rest: string)
    requires IsToken(t) || t == []
    requires rest == [] || IsDelimiter(rest[0])
    ensures RunLength(t + rest) == |t|
  {
    if t != [] {
      assert (t + rest)[1..] == t[1..] + rest;
      RunLengthOfToken(t[1..], rest);
    } else {
      assert t + rest == rest;
    }
  }

  /** Tokens written out with any single separator are read back as written. */
  lemma {:induction false} TokensOfJoin(ts: seq<string>, sep: char)
    requires IsDelimiter(sep)
    requires forall k :: 0 <= k < |ts| ==> IsToken(ts[k])
    ensures Tokens(Text.Join(ts, [sep])) == ts
  {
    if |ts| == 1 {
      RunLengthOfToken(ts[0], "");
      assert ts[0][..|ts[0]|] == ts[0];
      assert ts[0][|ts[0]|..] == "";
    } else if |ts| > 1 {
      var rest := Text.Join(ts[1..], [sep]);
      var s := ts[0] + ([sep] + rest);
      assert s == Text.Join(ts, [sep]);
      RunLengthOfToken(ts[0], [sep] + rest);
      assert s[..|ts[0]|] == ts[0];
      assert s[|ts[0]|..] == [sep] + rest;
      assert Tokens([sep] + rest) == Tokens(rest) by {
        assert ([sep] + rest)[1..] == rest;
      }
      TokensOfJoin(ts[1..], sep);
    }
  }

  lemma {:induction false} JoinStripped(ts: seq<string>, sep: string)
    requires |ts| >= 1 && forall k :: 0 <= k < |ts| ==> IsToken(ts[k])
    ensures Text.IsStripped(Text.Join(ts, sep))
    ensures Text.Join(ts, sep) != []
  {
    assert IsToken(ts[0]);
    if |ts| > 1 {
      var rest := Text.Join(ts[1..], sep);
      JoinStripped(ts[1..], sep);
      var s := ts[0] + sep + rest;
      assert s[0] == ts[0][0];
      assert s[|s| - 1] == rest[|rest| - 1];
    } else {
      assert ts[0][|ts[0]| - 1] == ts[0][|ts[0]| - 1];
    }
  }

  /** A `tools` section written as tokens separated by any one separator
    * character gives back exactly those tokens. */
  lemma {:induction false} SplitTokensOfJoin(ts: seq<string>, sep: char)
    requires IsDelimiter(sep)
    requires forall k :: 0 <= k < |ts| ==> IsToken(ts[k])
    ensures SplitTokens(Text.Join(ts, [sep])) == ts
  {
    TokensOfJoin(ts, sep);
    if ts != [] {
      JoinStripped(ts, [sep]);
      Text.StrippedIsFixed(Text.Join(ts, [sep]));
    }
  }

  // ---------------------------------------------------------------------
  // Placeholders (app/ai_processor.py:17-19, 203-210)
  // ---------------------------------------------------------------------

  /** A character of `[A-Za-z0-9_]`. */
  predicate IsKeyChar(c: char) {
    ('A' <= c <= 'Z') || ('a' <= c <= 'z') || ('0' <= c <= '9') || c == '_'
  }

  /** The length of the white-space run that starts `s`. */
  function SpaceRun(s: string): (k: nat)
    ensures k <= |s|
  {
    if s == [] || !Text.IsSpace(s[0]) then 0 else 1 + SpaceRun(s[1..])
  }

  /** The length of the run of key characters that starts `s`. */
  function KeyRun(s: string): (k: nat)
    ensures k <= |s|
  {
    if s == [] || !IsKeyChar(s[0]) then 0 else 1 + KeyRun(s[1..])
  }

  /** What follows the opening braces of a placeholder: `\s*`, a key,
    * `\s*` and `}}`, as the length consumed and the key. */
  function PlaceholderRest(t: string): (m: Option<(nat, string)>)
    ensures m.Some? ==> 3 <= m.value.0 <= |t| && m.value.1 != []
  {
    var a := SpaceRun(t);
    var u := t[a..];
    var b := KeyRun(u);
    var w := u[b..];
    var c := SpaceRun(w);
    var z := w[c..];
    if b > 0 && |z| >= 2 && z[0] == '}' && z[1] == '}' then Some((a + b + c + 2, u[..b])) else None
  }

  /** A match of `\{\{\s*([A-Za-z0-9_]+)\s*\}\}` at the start of `s`: its
    * length and the key. White space and key characters are disjoint, so
    * the greedy match is the only one. */
  function PlaceholderAt(s: string): (m: Option<(nat, string)>)
    ensures m.Some? ==> 5 <= m.value.0 <= |s| && m.value.1 != []
  {
    if |s| >= 2 && s[0] == '{' && s[1] == '{' then
      match PlaceholderRest(s[2..])
      case Some((n, key)) => Some((n + 2, key))
      case None => None
    else None
  }

  /** `SafeDict(variables)[key]`: the value, or "n/a" for a missing key. */
  function LookupOr(vars: map<string, string>, key: string): string {
    if key in vars then vars[key] else "n/a"
  }

  /** `re.sub(pattern, lambda m: str(d[m.group(1)]), template)`: one
    * left-to-right pass; a substituted value is not scanned again. */
  function Render(s: string, vars: map<string, string>): string
    decreases |s|
  {
    if s == [] then ""
    else match PlaceholderAt(s)
      case Some((len, key)) => LookupOr(vars, key) + Render(s[len..], vars)
      case None => [s[0]] + Render(s[1..], vars)
  }

  /** A template written as pieces: literal text or a `{{ key }}` with the
    * white space around the key. */
  datatype Piece = Lit(text: string) | Var(key: string, padLeft: string, padRight: string)

  predicate AllSpace(s: string) {
    forall k :: 0 <= k < |s| ==> Text.IsSpace(s[k])
  }

  /** No position of `t` starts a placeholder in `t + rest`. */
  predicate Inert(t: string, rest: string) {
    forall i | 0 <= i < |t| :: PlaceholderAt((t + rest)[i..]).None?
  }

  /** A placeholder has a key of key characters with white space around
    * it; a literal starts no placeholder in the text printed from it on,
    * so a `{{` left unmatched in it stays literal. */
  predicate WellFormedAt(ps: seq<Piece>, j: nat)
    requires j < |ps|
  {
    match ps[j]
    case Lit(t) => Inert(t, Print(ps[j + 1..]))
    case Var(k, l, r) => WellFormedVar(k, l, r)
  }

  predicate WellFormedVar(k: string, l: string, r: string) {
    k != [] && (forall i :: 0 <= i < |k| ==> IsKeyChar(k[i])) && AllSpace(l) && AllSpace(r)
  }

  function Print(ps: seq<Piece>): string {
    if ps == [] then ""
    else
      (match ps[0]
       case Lit(t) => t
       case Var(k, l, r) => "{{" + l + k + r + "}}") + Print(ps[1..])
  }

  /** The intended meaning of a template: literals kept, each placeholder
    * replaced by its value or "n/a". */
  function Expand(ps: seq<Piece>, vars: map<string, string>): string {
    if ps == [] then ""
    else
      (match ps[0]
       case Lit(t) => t
       case Var(k, _, _) => LookupOr(vars, k)) + Expand(ps[1..], vars)
  }

  /** Text that starts no placeholder is copied unchanged in front of the
    * rest. */
  lemma {:induction false} RenderLiteral(t: string, rest: string, vars: map<string, string>)
    requires Inert(t, rest)
    ensures Render(t + rest, vars) == t + Render(rest, vars)
    decreases |t|
  {
    if t != [] {
      InertTail(t, rest);
      RenderUnmatched(t + rest, vars);
      RenderLiteral(t[1..], rest, vars);
      HeadThenTail(t, Render(rest, vars));
    } else {
      assert t + rest == rest;
    }
  }

  /** The first position of inert text starts no placeholder, and the rest
    * of the text is inert. */
  lemma {:induction false} InertTail(t: string, rest: string)
    requires t != [] && Inert(t, rest)
    ensures PlaceholderAt(t + rest).None? && (t + rest)[1..] == t[1..] + rest && (t + rest)[0] == t[0]
    ensures Inert(t[1..], rest)
  {
    var s := t + rest;
    assert s[0..] == s;
    forall i | 0 <= i < |t| - 1
      ensures PlaceholderAt((t[1..] + rest)[i..]).None?
    {
      assert (t[1..] + rest)[i..] == s[i + 1..];
    }
  }

  /** Where no placeholder starts, the first character is copied. */
  lemma {:induction false} RenderUnmatched(s: string, vars: map<string, string>)
    requires s != [] && PlaceholderAt(s).None?
    ensures Render(s, vars) == [s[0]] + Render(s[1..], vars)
  {
  }

  /** Text without an opening brace starts no placeholder. */
  lemma {:induction false} NoBraceInert(t: string, rest: string)
    requires '{' !in t
    ensures Inert(t, rest)
  {
    forall i | 0 <= i < |t|
      ensures PlaceholderAt((t + rest)[i..]).None?
    {
      assert (t + rest)[i..][0] == t[i];
    }
  }

  lemma {:induction false} HeadThenTail(t: string, x: string)
    requires t != []
    ensures [t[0]] + (t[1..] + x) == t + x
  {
    assert [t[0]] + t[1..] == t;
    assert [t[0]] + (t[1..] + x) == ([t[0]] + t[1..]) + x;
  }

  lemma {:induction false} SpaceRunOf(l: string, rest: string)
    requires AllSpace(l)
    requires rest == [] || !Text.IsSpace(rest[0])
    ensures SpaceRun(l + rest) == |l|
    decreases |l|
  {
    if l != [] {
      var s := l + rest;
      assert s[0] == l[0] && Text.IsSpace(s[0]);
      assert s[1..] == l[1..] + rest;
      assert SpaceRun(s) == 1 + SpaceRun(l[1..] + rest);
      SpaceRunOf(l[1..], rest);
    } else {
      assert l + rest == rest;
    }
  }

  lemma {:induction false} KeyRunOf(k: string, rest: string)
    requires forall j :: 0 <= j < |k| ==> IsKeyChar(k[j])
    requires rest == [] || !IsKeyChar(rest[0])
    ensures KeyRun(k + rest) == |k|
    decreases |k|
  {
    if k != [] {
      var s := k + rest;
      assert s[0] == k[0] && IsKeyChar(s[0]);
      assert s[1..] == k[1..] + rest;
      assert KeyRun(s) == 1 + KeyRun(k[1..] + rest);
      KeyRunOf(k[1..], rest);
    } else {
      assert k + rest == rest;
    }
  }

  lemma {:induction false} Halves(p: string, q: string)
    ensures (p + q)[|p|..] == q && (p + q)[..|p|] == p
  {
  }

  lemma {:induction false} PlaceholderRestParts(t: string, u: string, w: string, a: nat, b: nat, c: nat)
    requires a <= |t| && t[a..] == u && SpaceRun(t) == a
    requires b <= |u| && u[b..] == w && KeyRun(u) == b && b > 0
    requires c + 2 <= |w| && SpaceRun(w) == c && w[c] == '}' && w[c + 1] == '}'
    ensures PlaceholderRest(t) == Some((a + b + c + 2, u[..b]))
  {
    var z := w[c..];
    assert z[0] == w[c] && z[1] == w[c + 1];
  }

  lemma {:induction false} PlaceholderRestOfVar(k: string, l: string, r: string, rest: string)
    requires WellFormedVar(k, l, r)
    ensures PlaceholderRest(l + (k + (r + ("}}" + rest)))) == Some((|l| + |k| + |r| + 2, k))
  {
    var close := "}}" + rest;
    var w := r + close;
    var u := k + w;
    SpacesBeforeKey(k, l, r, rest);
    KeyBeforeSpaces(k, l, r, rest);
    SpacesBeforeClose(k, l, r, rest);
    PlaceholderRestParts(l + u, u, w, |l|, |k|, |r|);
  }

  /** The white space before the key is the first run. */
  lemma {:induction false} SpacesBeforeKey(k: string, l: string, r: string, rest: string)
    requires WellFormedVar(k, l, r)
    ensures var u := k + (r + ("}}" + rest));
            SpaceRun(l + u) == |l| && (l + u)[|l|..] == u
  {
    var u := k + (r + ("}}" + rest));
    assert u[0] == k[0] && IsKeyChar(k[0]);
    SpaceRunOf(l, u);
    Halves(l, u);
  }

  /** The key is the run of key characters after it. */
  lemma {:induction false} KeyBeforeSpaces(k: string, l: string, r: string, rest: string)
    requires WellFormedVar(k, l, r)
    ensures var w := r + ("}}" + rest);
            KeyRun(k + w) == |k| && (k + w)[|k|..] == w && (k + w)[..|k|] == k
  {
    var close := "}}" + rest;
    var w := r + close;
    if r != [] {
      assert w[0] == r[0] && Text.IsSpace(r[0]);
    } else {
      assert w[0] == close[0];
    }
    KeyRunOf(k, w);
    Halves(k, w);
  }

  /** The white space after the key runs up to the closing braces. */
  lemma {:induction false} SpacesBeforeClose(k: string, l: string, r: string, rest: string)
    requires WellFormedVar(k, l, r)
    ensures var close := "}}" + rest;
            var w := r + close;
            && SpaceRun(w) == |r| && w[|r|..] == close
            && |r| + 2 <= |w| && w[|r|] == '}' && w[|r| + 1] == '}'
  {
    var close := "}}" + rest;
    var w := r + close;
    assert close[0] == '}' && close[1] == '}';
    SpaceRunOf(r, close);
    Halves(r, close);
    assert w[|r|] == close[0] && w[|r| + 1] == close[1];
  }

  lemma {:induction false} PlaceholderOfVar(k: string, l: string, r: string, rest: string)
    requires WellFormedVar(k, l, r)
    ensures var s := "{{" + l + k + r + "}}";
            PlaceholderAt(s + rest) == Some((|s|, k))
  {
    PlaceholderRestOfVar(k, l, r, rest);
    PlaceholderOfParts(k, l, r, rest);
  }

  lemma {:induction false} PlaceholderOfParts(k: string, l: string, r: string, rest: string)
    requires PlaceholderRest(l + (k + (r + ("}}" + rest)))) == Some((|l| + |k| + |r| + 2, k))
    ensures var s := "{{" + l + k + r + "}}";
            PlaceholderAt(s + rest) == Some((|s|, k))
  {
    var s := "{{" + l + k + r + "}}";
    var t := l + (k + (r + ("}}" + rest)));
    var x := s + rest;
    Reassociate("{{", l, k, r, "}}", rest);
    assert x == "{{" + t;
    OpenBraces(t);
    PlaceholderAtOpen(x, t, |l| + |k| + |r| + 2, k);
  }

  lemma {:induction false} Reassociate(a: string, b: string, c: string, d: string, e: string, f: string)
    ensures a + b + c + d + e + f == a + (b + (c + (d + (e + f))))
  {
  }

  lemma {:induction false} OpenBraces(t: string)
    ensures var x := "{{" + t;
            |x| >= 2 && x[0] == '{' && x[1] == '{' && x[2..] == t
  {
  }

  lemma {:induction false} PlaceholderAtOpen(x: string, t: string, n: nat, key: string)
    requires |x| >= 2 && x[0] == '{' && x[1] == '{' && x[2..] == t
    requires PlaceholderRest(t) == Some((n, key))
    ensures PlaceholderAt(x) == Some((n + 2, key))
  {
    assert PlaceholderRest(x[2..]) == Some((n, key));
  }

  /** Rendering a template built from pieces replaces each placeholder by its
    * value (or "n/a") and keeps every literal: substitution is a single pass
    * and values are never re-scanned for placeholders. */
  lemma {:induction false} RenderPieces(ps: seq<Piece>, vars: map<string, string>)
    requires forall j :: 0 <= j < |ps| ==> WellFormedAt(ps, j)
    ensures Render(Print(ps), vars) == Expand(ps, vars)
  {
    if ps != [] {
      forall j | 0 <= j < |ps| - 1
        ensures WellFormedAt(ps[1..], j)
      {
        assert ps[1..][j] == ps[j + 1] && ps[1..][j + 1..] == ps[j + 2..];
        assert WellFormedAt(ps, j + 1);
      }
      RenderPieces(ps[1..], vars);
      assert WellFormedAt(ps, 0);
      match ps[0]
      case Lit(t) =>
        RenderLiteral(t, Print(ps[1..]), vars);
      case Var(k, l, r) =>
        var s := "{{" + l + k + r + "}}";
        var x := s + Print(ps[1..]);
        PlaceholderOfVar(k, l, r, Print(ps[1..]));
        assert x[|s|..] == Print(ps[1..]);
    }
  }

  /** Text in which no position starts a placeholder is left alone, braces
    * included. */
  lemma {:induction false} PlainTextUnchanged(s: string, vars: map<string, string>)
    requires forall i | 0 <= i < |s| :: PlaceholderAt(s[i..]).None?
    ensures Render(s, vars) == s
  {
    assert s + "" == s;
    RenderLiteral(s, "", vars);
  }

  /** In particular, text without an opening brace is left alone. */
  lemma {:induction false} BracelessUnchanged(s: string, vars: map<string, string>)
    requires '{' !in s
    ensures Render(s, vars) == s
  {
    NoBraceInert(s, "");
    assert s + "" == s;
    RenderLiteral(s, "", vars);
  }

  // ---------------------------------------------------------------------
  // Model and provider (app/ai_processor.py:176-183)
  // ---------------------------------------------------------------------

  /** The default of the `AI_MODEL` environment variable. */
  const DefaultAiModel := "openai/gpt-4.1"

  /** The explicit model, else the template's, else `AI_MODEL`. */
  function ChooseModel(explicit: Option<string>, fromTemplate: Option<string>, aiModel: string): (m: string)
    ensures explicit.Some? ==> m == explicit.value
    ensures explicit.None? && fromTemplate.Some? ==> m == fromTemplate.value
    ensures explicit.None? && fromTemplate.None? ==> m == aiModel
  {
    if explicit.Some? then explicit.value
    else if fromTemplate.Some? then fromTemplate.value
    else aiModel
  }

  /** `provider = model.split("/")[0]; model = model.split("/")[1]` when the
    * model contains "/"; otherwise both are kept. */
  function SplitModel(model: string, provider: Option<string>): (r: (Option<string>, string))
    ensures '/' !in model ==> r == (provider, model)
    ensures '/' in model ==> r.0 == Some(model[..Text.IndexOf(model, '/')]) && '/' !in r.1
  {
    if '/' in model then
      var parts := Text.SplitOn(model, '/');
      assert |parts| >= 2 by {
        var k := Text.IndexOf(model, '/');
        assert parts == [model[..k]] + Text.SplitOn(model[k + 1..], '/');
      }
      (Some(parts[0]), parts[1])
    else (provider, model)
  }

  /** `provider/model` is split back into its two parts, whatever provider was set before. */
  lemma {:induction false} SplitModelOfJoin(p: string, m: string, before: Option<string>)
    requires '/' !in p && '/' !in m
    ensures SplitModel(p + "/" + m, before) == (Some(p), m)
  {
    Text.SplitJoin([p, m], '/');
    assert Text.Join([p, m], "/") == p + "/" + m;
    assert '/' in p + "/" + m by { assert (p + "/" + m)[|p|] == '/'; }
  }

  /** Only the first two "/"-components are used: "a/b/c" gives provider "a"
    * and model "b". */
  lemma {:induction false} SplitModelDropsTail(p: string, m: string, tail: string, before: Option<string>)
    requires '/' !in p && '/' !in m && '/' !in tail
    ensures SplitModel(p + "/" + m + "/" + tail, before) == (Some(p), m)
  {
    var s := p + "/" + m + "/" + tail;
    JoinThree(p, m, tail);
    Text.SplitJoin([p, m, tail], '/');
    assert '/' in s by { assert s[|p|] == '/'; }
    assert Text.SplitOn(s, '/') == [p, m, tail];
  }

  lemma {:induction false} JoinThree(p: string, m: string, tail: string)
    ensures Text.Join([p, m, tail], "/") == p + "/" + m + "/" + tail
  {
    assert [p, m, tail][1..] == [m, tail];
    assert [m, tail][1..] == [tail];
    assert Text.Join([m, tail], "/") == m + "/" + tail;
  }

  /** `max_output_tokens` of every request for a model. */
  function MaxOutputTokens(model: string): (n: nat)
    ensures n == 32000 <==> model == "gpt-4.1"
    ensures n == 16000 <==> model != "gpt-4.1"
  {
    if model != "gpt-4.1" then 16000 else 32000
  }
}
