/** The paragraph cleaner of `app/pdf_utils.py`: `clean_html_for_paragraph`
  * rewrites HTML into the small tag set the PDF renderer accepts, and
  * `balance_html_tags` makes the bold and italic tags of the result
  * balanced. Each regular expression is written out as a scanner that
  * tries a match at one position after another, as `re.sub` does. */
module HtmlClean {
  import opened Wrappers
  import Text
  import HtmlElements

  const Br := "<br/>"

  /** Where `[^>]*>` ends: the index of the first `>`. */
  function TagEnd(s: string): (m: Option<nat>)
    ensures m.Some? ==> m.value < |s| && s[m.value] == '>' && '>' !in s[..m.value]
    ensures m.None? <==> '>' !in s
  {
    if '>' in s then Some(Text.IndexOf(s, '>')) else None
  }

  // ---------------------------------------------------------------------
  // The fixed rewrites
  // ---------------------------------------------------------------------

  /** The two shapes of pattern the cleaner's rewrites use: an opening tag
    * `<name[^>]*>` (which also matches any longer tag name that starts
    * with `name`) and a literal text. */
  datatype Pattern = TagPattern(name: string) | LiteralPattern(text: string)

  /** The length of the match of `p` at the start of `s`. */
  function MatchAt(p: Pattern, s: string): (m: Option<nat>)
    ensures m.Some? ==> 0 < m.value <= |s|
    ensures m.Some? && p.TagPattern? ==> Text.StartsWith(s, "<" + p.name) && s[m.value - 1] == '>'
    ensures m.Some? && p.LiteralPattern? ==> m.value == |p.text| && Text.StartsWith(s, p.text)
  {
    match p
    case TagPattern(name) =>
      var k := |name| + 1;
      if Text.StartsWith(s, "<" + name) then
        match TagEnd(s[k..])
        case Some(j) => Some(k + j + 1)
        case None => None
      else None
    case LiteralPattern(t) => if t != [] && Text.StartsWith(s, t) then Some(|t|) else None
  }

  /** `re.sub(p, repl, s)`. */
  function Sub(s: string, p: Pattern, repl: string): string
    decreases |s|
  {
    if s == [] then []
    else match MatchAt(p, s)
      case Some(n) => repl + Sub(s[n..], p, repl)
      case None => [s[0]] + Sub(s[1..], p, repl)
  }

  datatype Rewrite = Rewrite(pattern: Pattern, repl: string)

  /** The rewrites of `clean_html_for_paragraph` before the attribute
    * removal, in the order they are applied: images become a marker,
    * table structure becomes separators, rules become dashes, `strong`
    * and `em` become `b` and `i`, paragraphs end in a line break. */
  const Rewrites: seq<Rewrite> := [
    Rewrite(TagPattern("img"), "[IMAGE]"),
    Rewrite(TagPattern("table"), ""),
    Rewrite(LiteralPattern("</table>"), ""),
    Rewrite(TagPattern("thead"), ""),
    Rewrite(LiteralPattern("</thead>"), ""),
    Rewrite(TagPattern("tbody"), ""),
    Rewrite(LiteralPattern("</tbody>"), ""),
    Rewrite(TagPattern("tr"), ""),
    Rewrite(LiteralPattern("</tr>"), Br),
    Rewrite(TagPattern("th"), ""),
    Rewrite(LiteralPattern("</th>"), " | "),
    Rewrite(TagPattern("td"), ""),
    Rewrite(LiteralPattern("</td>"), " | "),
    Rewrite(TagPattern("hr"), "------------------------"),
    Rewrite(TagPattern("strong"), "<b>"),
    Rewrite(LiteralPattern("</strong>"), "</b>"),
    Rewrite(TagPattern("em"), "<i>"),
    Rewrite(LiteralPattern("</em>"), "</i>"),
    Rewrite(TagPattern("p"), ""),
    Rewrite(LiteralPattern("</p>"), Br)
  ]

  function ApplyRewrites(s: string, rs: seq<Rewrite>): string
    decreases |rs|
  {
    if rs == [] then s else ApplyRewrites(Sub(s, rs[0].pattern, rs[0].repl), rs[1..])
  }

  /** Every match of the pattern starts with `<`. */
  predicate StartsTag(p: Pattern) {
    p.TagPattern? || (p.text != [] && p.text[0] == '<')
  }

  /** A text does not start with a prefix it differs from at index `j`
    * (or that is longer than it). */
  lemma {:induction false} NotStartsWith(s: string, w: string, j: nat)
    requires j < |w| && (j >= |s| || s[j] != w[j])
    ensures !Text.StartsWith(s, w)
  {
    if |w| <= |s| {
      assert s[..|w|][j] == s[j];
    }
  }

  lemma {:induction false} NotEndsWith(s: string, w: string, j: nat)
    requires j < |w| <= |s| && s[|s| - |w| + j] != w[j]
    ensures !Text.EndsWith(s, w)
  {
    assert s[|s| - |w|..][j] == s[|s| - |w| + j];
  }

  /** Text without `<` has nothing to rewrite, and a rewrite passes over
    * such a prefix. */
  lemma {:induction false} SubPlainPrefix(x: string, z: string, p: Pattern, repl: string)
    requires StartsTag(p) && '<' !in x
    ensures Sub(x + z, p, repl) == x + Sub(z, p, repl)
    decreases |x|
  {
    if x != [] {
      var s := x + z;
      assert s[0] == x[0] != '<';
      if p.LiteralPattern? {
        NotStartsWith(s, p.text, 0);
      } else {
        NotStartsWith(s, "<" + p.name, 0);
      }
      assert s[1..] == x[1..] + z;
      assert Sub(s, p, repl) == [x[0]] + Sub(x[1..] + z, p, repl);
      SubPlainPrefix(x[1..], z, p, repl);
      assert x == [x[0]] + x[1..];
    } else {
      assert x + z == z;
    }
  }

  lemma {:induction false} RewritesPlain(s: string, rs: seq<Rewrite>)
    requires forall k :: 0 <= k < |rs| ==> StartsTag(rs[k].pattern)
    requires '<' !in s
    ensures ApplyRewrites(s, rs) == s
    decreases |rs|
  {
    if rs != [] {
      SubPlainPrefix(s, [], rs[0].pattern, rs[0].repl);
      assert s + [] == s;
      RewritesPlain(s, rs[1..]);
    }
  }

  // ---------------------------------------------------------------------
  // `b` and `i` tags
  // ---------------------------------------------------------------------

  /** A regex word character, over ASCII. */
  predicate IsWordChar(c: char) {
    ('a' <= c <= 'z') || ('A' <= c <= 'Z') || ('0' <= c <= '9') || c == '_'
  }

  /** What may follow the tag letter. As written (`bounded` false) the
    * patterns test nothing here, so `<br/>` reads as a `b` tag; with a
    * word boundary (`\b`, `bounded` true) the letter must end the name. */
  predicate LetterEnds(rest: string, bounded: bool) {
    !bounded || rest == [] || !IsWordChar(rest[0])
  }

  /** `<([bi])[^>]*>` at the start of `s`: the length of the tag. */
  function FormatTagAt(s: string, bounded: bool): (m: Option<nat>)
    ensures m.Some? ==> 3 <= m.value <= |s| && s[0] == '<' && s[1] in "bi"
  {
    if |s| >= 2 && s[0] == '<' && s[1] in "bi" && LetterEnds(s[2..], bounded) then
      match TagEnd(s[2..])
      case Some(j) => Some(j + 3)
      case None => None
    else None
  }

  /** `re.sub(r'<([bi])[^>]*>', r'<\1>', s)`: attributes dropped from
    * every `b` and `i` opening tag. */
  function StripFormatAttributes(s: string, bounded: bool): string
    decreases |s|
  {
    if s == [] then []
    else match FormatTagAt(s, bounded)
      case Some(n) => "<" + [s[1]] + ">" + StripFormatAttributes(s[n..], bounded)
      case None => [s[0]] + StripFormatAttributes(s[1..], bounded)
  }

  /** Attribute removal passes over a prefix without `<`. */
  lemma {:induction false} StripFormatPlainPrefix(x: string, z: string, bounded: bool)
    requires '<' !in x
    ensures StripFormatAttributes(x + z, bounded) == x + StripFormatAttributes(z, bounded)
    decreases |x|
  {
    if x != [] {
      var s := x + z;
      assert s[0] == x[0];
      assert s[1..] == x[1..] + z;
      assert FormatTagAt(s, bounded).None?;
      assert StripFormatAttributes(s, bounded) == [x[0]] + StripFormatAttributes(x[1..] + z, bounded);
      StripFormatPlainPrefix(x[1..], z, bounded);
      assert x == [x[0]] + x[1..];
    } else {
      assert x + z == z;
    }
  }

  /** A `b` or `i` tag found by `<(/?)([bi])([^>]*)>`. */
  datatype BiTag = BiTag(len: nat, closing: bool, name: char)

  function BiTagAt(s: string, bounded: bool): (m: Option<BiTag>)
    ensures m.Some? ==> 0 < m.value.len <= |s| && m.value.name in "bi" && s[0] == '<'
  {
    if |s| >= 3 && s[0] == '<' && s[1] == '/' && s[2] in "bi" && LetterEnds(s[3..], bounded) && '>' in s[3..] then
      Some(BiTag(Text.IndexOf(s[3..], '>') + 4, true, s[2]))
    else if |s| >= 2 && s[0] == '<' && s[1] in "bi" && LetterEnds(s[2..], bounded) && '>' in s[2..] then
      Some(BiTag(Text.IndexOf(s[2..], '>') + 3, false, s[1]))
    else None
  }

  /** The balancer's output, piece by piece: characters copied, and tags
    * written without attributes. */
  datatype Piece = Plain(c: char) | Open(name: char) | Close(name: char)

  function PieceText(p: Piece): string {
    match p
    case Plain(c) => [c]
    case Open(n) => "<" + [n] + ">"
    case Close(n) => "</" + [n] + ">"
  }

  function Print(ps: seq<Piece>): string
    decreases |ps|
  {
    if ps == [] then "" else Print(ps[..|ps| - 1]) + PieceText(ps[|ps| - 1])
  }

  lemma {:induction false} PrintAppend(ps: seq<Piece>, p: Piece)
    ensures Print(ps + [p]) == Print(ps) + PieceText(p)
  {
    assert (ps + [p])[..|ps + [p]| - 1] == ps;
  }

  /** The balancer between two matches: what it has written and its
    * `open_tags` list. */
  datatype Balancing = Balancing(out: seq<Piece>, open: seq<char>)

  /** `replace_tag(match)`: an opener is written and remembered; a closer
    * of an open tag is written and forgets one occurrence of it; any
    * other closer is dropped. */
  function Consumed(b: Balancing, t: BiTag): Balancing {
    if t.closing then
      (if t.name in b.open then Balancing(b.out + [Close(t.name)], HtmlElements.RemoveFirst(b.open, t.name)) else b)
    else Balancing(b.out + [Open(t.name)], b.open + [t.name])
  }

  /** `re.sub(tag_pattern, replace_tag, s)` from the balancer `b` on. */
  function Scan(b: Balancing, s: string, bounded: bool): Balancing
    decreases |s|
  {
    if s == [] then b
    else match BiTagAt(s, bounded)
      case Some(t) => Scan(Consumed(b, t), s[t.len..], bounded)
      case None => Scan(Balancing(b.out + [Plain(s[0])], b.open), s[1..], bounded)
  }

  /** The tags still open closed, the most recent first. */
  function Closing(b: Balancing): seq<Piece>
    decreases |b.open|
  {
    if b.open == [] then b.out
    else Closing(Balancing(b.out + [Close(b.open[|b.open| - 1])], b.open[..|b.open| - 1]))
  }

  function BalancedPieces(s: string, bounded: bool): seq<Piece> {
    Closing(Scan(Balancing([], []), s, bounded))
  }

  /** `balance_html_tags(s)`. */
  function Balanced(s: string, bounded: bool): string {
    Print(BalancedPieces(s, bounded))
  }

  /** `balance_html_tags`: the substitution loop, then the loop that closes
    * what is still open. */
  method BalanceHtmlTags(html: string, bounded: bool) returns (result: string)
    ensures result == Balanced(html, bounded)
  {
    var openTags: seq<char> := [];
    ghost var out: seq<Piece> := [];
    result := "";
    var i := 0;
    while i < |html|
      invariant 0 <= i <= |html|
      invariant result == Print(out)
      invariant Scan(Balancing(out, openTags), html[i..], bounded) == Scan(Balancing([], []), html, bounded)
      decreases |html| - i
    {
      i, result, openTags, out := BalanceStep(html, i, bounded, result, openTags, out);
    }
    assert html[i..] == [];
    result := CloseRemaining(result, openTags, out);
  }

  /** One iteration of the substitution at position `i`: the character
    * copied, or the tag at `i` handed to `replace_tag`. */
  method BalanceStep(html: string, i: nat, bounded: bool, result: string, openTags: seq<char>, ghost out: seq<Piece>)
    returns (i': nat, result': string, openTags': seq<char>, ghost out': seq<Piece>)
    requires i < |html| && result == Print(out)
    ensures i < i' <= |html| && result' == Print(out')
    ensures Scan(Balancing(out', openTags'), html[i'..], bounded) == Scan(Balancing(out, openTags), html[i..], bounded)
  {
    var tag := BiTagAt(html[i..], bounded);
    if tag.None? {
      i', result', openTags', out' := CopyChar(html, i, bounded, result, openTags, out);
    } else {
      i', result', openTags', out' := HandleTag(html, i, bounded, tag.value, result, openTags, out);
    }
  }

  /** No tag at `i`: the character is copied. */
  method CopyChar(html: string, i: nat, bounded: bool, result: string, openTags: seq<char>, ghost out: seq<Piece>)
    returns (i': nat, result': string, openTags': seq<char>, ghost out': seq<Piece>)
    requires i < |html| && result == Print(out) && BiTagAt(html[i..], bounded).None?
    ensures i' == i + 1 && result' == Print(out')
    ensures Scan(Balancing(out', openTags'), html[i'..], bounded) == Scan(Balancing(out, openTags), html[i..], bounded)
  {
    PrintAppend(out, Plain(html[i]));
    result' := result + [html[i]];
    openTags', out' := openTags, out + [Plain(html[i])];
    CopyStep(html, i, bounded, Balancing(out, openTags));
    i' := i + 1;
  }

  /** A tag at `i`: `replace_tag` decides what is written. */
  method HandleTag(html: string, i: nat, bounded: bool, t: BiTag, result: string, openTags: seq<char>, ghost out: seq<Piece>)
    returns (i': nat, result': string, openTags': seq<char>, ghost out': seq<Piece>)
    requires i < |html| && result == Print(out) && BiTagAt(html[i..], bounded) == Some(t)
    ensures i < i' <= |html| && result' == Print(out')
    ensures Scan(Balancing(out', openTags'), html[i'..], bounded) == Scan(Balancing(out, openTags), html[i..], bounded)
  {
    var repl;
    repl, openTags', out' := ReplaceTag(t, openTags, out);
    result' := result + repl;
    i' := i + t.len;
    TagStep(html, i, i', bounded, Balancing(out, openTags), t, Balancing(out', openTags'));
  }

  lemma {:induction false} CopyStep(html: string, i: nat, bounded: bool, b: Balancing)
    requires i < |html| && BiTagAt(html[i..], bounded).None?
    ensures Scan(Balancing(b.out + [Plain(html[i])], b.open), html[i + 1..], bounded) == Scan(b, html[i..], bounded)
  {
    assert html[i..][1..] == html[i + 1..];
    ScanCopies(b, html[i..], bounded);
  }

  lemma {:induction false} TagStep(html: string, i: nat, i': nat, bounded: bool, b: Balancing, t: BiTag, b': Balancing)
    requires i < |html| && BiTagAt(html[i..], bounded) == Some(t) && b' == Consumed(b, t) && i' == i + t.len
    ensures i < i' <= |html|
    ensures Scan(b', html[i'..], bounded) == Scan(b, html[i..], bounded)
  {
    assert html[i..][t.len..] == html[i'..];
    ScanConsumes(b, html[i..], bounded, t);
  }

  /** `for tag in reversed(open_tags): result += f'</{tag}>'`. */
  method CloseRemaining(text: string, openTags: seq<char>, ghost out: seq<Piece>) returns (result: string)
    requires text == Print(out)
    ensures result == Print(Closing(Balancing(out, openTags)))
  {
    result := text;
    ghost var written := out;
    var k := |openTags|;
    assert openTags[..k] == openTags;
    while k > 0
      invariant 0 <= k <= |openTags|
      invariant result == Print(written)
      invariant Closing(Balancing(written, openTags[..k])) == Closing(Balancing(out, openTags))
      decreases k
    {
      PrintAppend(written, Close(openTags[k - 1]));
      assert openTags[..k][..k - 1] == openTags[..k - 1];
      result := result + "</" + [openTags[k - 1]] + ">";
      written := written + [Close(openTags[k - 1])];
      k := k - 1;
    }
  }

  /** `replace_tag(match)`: the replacement text, and `open_tags` after it. */
  method ReplaceTag(t: BiTag, openTags: seq<char>, ghost out: seq<Piece>)
    returns (repl: string, newOpen: seq<char>, ghost newOut: seq<Piece>)
    ensures Balancing(newOut, newOpen) == Consumed(Balancing(out, openTags), t)
    ensures Print(newOut) == Print(out) + repl
  {
    if t.closing {
      if t.name in openTags {
        PrintAppend(out, Close(t.name));
        newOpen := HtmlElements.RemoveFirst(openTags, t.name);
        repl := "</" + [t.name] + ">";
        newOut := out + [Close(t.name)];
      } else {
        repl, newOpen, newOut := "", openTags, out;
      }
    } else {
      PrintAppend(out, Open(t.name));
      newOpen := openTags + [t.name];
      repl := "<" + [t.name] + ">";
      newOut := out + [Open(t.name)];
    }
  }

  // ---------------------------------------------------------------------
  // Balance
  // ---------------------------------------------------------------------

  function Count(ps: seq<Piece>, p: Piece): nat
    decreases |ps|
  {
    if ps == [] then 0 else Count(ps[..|ps| - 1], p) + (if ps[|ps| - 1] == p then 1 else 0)
  }

  lemma {:induction false} CountAppend(ps: seq<Piece>, q: Piece, p: Piece)
    ensures Count(ps + [q], p) == Count(ps, p) + (if q == p then 1 else 0)
  {
    assert (ps + [q])[..|ps + [q]| - 1] == ps;
  }

  /** No prefix closes `c` more often than it opens it. */
  predicate NeverOverClosed(ps: seq<Piece>, c: char) {
    forall k :: 0 <= k <= |ps| ==> Count(ps[..k], Close(c)) <= Count(ps[..k], Open(c))
  }

  /** As many closers of `c` as openers, and never more closers so far. */
  predicate BalancedFor(ps: seq<Piece>, c: char) {
    Count(ps, Open(c)) == Count(ps, Close(c)) && NeverOverClosed(ps, c)
  }

  /** The balancer's bookkeeping for `c`: the occurrences of `c` in
    * `open_tags` are the openers of `c` written and not yet closed. */
  predicate Tracks(b: Balancing, c: char) {
    multiset(b.open)[c] + Count(b.out, Close(c)) == Count(b.out, Open(c)) && NeverOverClosed(b.out, c)
  }

  lemma {:induction false} AppendKeepsOrder(ps: seq<Piece>, q: Piece, c: char)
    requires NeverOverClosed(ps, c)
    requires q == Close(c) ==> Count(ps, Close(c)) < Count(ps, Open(c))
    ensures NeverOverClosed(ps + [q], c)
  {
    var qs := ps + [q];
    forall k | 0 <= k <= |qs|
      ensures Count(qs[..k], Close(c)) <= Count(qs[..k], Open(c))
    {
      if k <= |ps| {
        assert qs[..k] == ps[..k];
      } else {
        assert qs[..k] == ps + [q];
        assert ps[..|ps|] == ps;
        CountAppend(ps, q, Close(c));
        CountAppend(ps, q, Open(c));
      }
    }
  }

  lemma {:induction false} ConsumedTracks(b: Balancing, t: BiTag, c: char)
    requires Tracks(b, c)
    ensures Tracks(Consumed(b, t), c)
  {
    var q := if t.closing then Close(t.name) else Open(t.name);
    if !t.closing || t.name in b.open {
      CountAppend(b.out, q, Close(c));
      CountAppend(b.out, q, Open(c));
      if t.closing {
        assert t.name == c ==> multiset(b.open)[c] >= 1;
      }
      AppendKeepsOrder(b.out, q, c);
    }
  }

  lemma {:induction false} PlainTracks(b: Balancing, x: char, c: char)
    requires Tracks(b, c)
    ensures Tracks(Balancing(b.out + [Plain(x)], b.open), c)
  {
    CountAppend(b.out, Plain(x), Close(c));
    CountAppend(b.out, Plain(x), Open(c));
    AppendKeepsOrder(b.out, Plain(x), c);
  }

  lemma {:induction false} ScanTracks(b: Balancing, s: string, bounded: bool, c: char)
    requires Tracks(b, c)
    ensures Tracks(Scan(b, s, bounded), c)
    decreases |s|
  {
    if s != [] {
      match BiTagAt(s, bounded)
      case Some(t) =>
        ConsumedTracks(b, t, c);
        ScanTracks(Consumed(b, t), s[t.len..], bounded, c);
      case None =>
        PlainTracks(b, s[0], c);
        ScanTracks(Balancing(b.out + [Plain(s[0])], b.open), s[1..], bounded, c);
    }
  }

  lemma {:induction false} ClosingBalances(b: Balancing, c: char)
    requires Tracks(b, c)
    ensures BalancedFor(Closing(b), c)
    decreases |b.open|
  {
    if b.open != [] {
      var n := |b.open|;
      var last := b.open[n - 1];
      assert b.open == b.open[..n - 1] + [last];
      assert multiset(b.open) == multiset(b.open[..n - 1]) + multiset{last};
      CountAppend(b.out, Close(last), Close(c));
      CountAppend(b.out, Close(last), Open(c));
      AppendKeepsOrder(b.out, Close(last), c);
      ClosingBalances(Balancing(b.out + [Close(last)], b.open[..n - 1]), c);
    }
  }

  /** For each tag letter, the balancer's output closes it exactly as often
    * as it opens it, and no prefix closes it more often than it opens it:
    * orphan closers are gone and open tags are closed at the end. This is
    * a statement about the balancer's tag pieces, not about the printed
    * text: plain characters around a dropped orphan can print as a tag
    * again (`<</b>b>` prints as `<b>`). */
  lemma {:induction false} BalancedTags(html: string, bounded: bool, c: char)
    ensures BalancedFor(BalancedPieces(html, bounded), c)
  {
    var b := Balancing([], []);
    assert b.out[..0] == [];
    ScanTracks(b, html, bounded, c);
    ClosingBalances(Scan(b, html, bounded), c);
  }

  lemma {:induction false} ScanPlain(b: Balancing, s: string, bounded: bool)
    requires '<' !in s
    ensures Print(Scan(b, s, bounded).out) == Print(b.out) + s
    ensures Scan(b, s, bounded).open == b.open
    decreases |s|
  {
    if s != [] {
      assert s[0] != '<' by { assert s[0] in s; }
      var b2 := Balancing(b.out + [Plain(s[0])], b.open);
      ScanCopies(b, s, bounded);
      PrintAppend(b.out, Plain(s[0]));
      assert '<' !in s[1..] by { forall j | 0 <= j < |s| - 1 ensures s[1..][j] != '<' { assert s[1..][j] == s[j + 1]; } }
      ScanPlain(b2, s[1..], bounded);
      PrintedHeadTail(Print(b.out), s);
    }
  }

  lemma {:induction false} PrintedHeadTail(p: string, s: string)
    requires s != []
    ensures (p + [s[0]]) + s[1..] == p + s
  {
    assert s == [s[0]] + s[1..];
  }

  /** Text without tags passes the balancer unchanged. */
  lemma {:induction false} BalancedPlain(s: string, bounded: bool)
    requires '<' !in s
    ensures Balanced(s, bounded) == s
  {
    ScanPlain(Balancing([], []), s, bounded);
  }

  /** With a word boundary, a line break is neither a `b` tag to strip nor
    * one to balance; as written it is both. */
  lemma {:induction false} LineBreakIsNotBold(rest: string)
    ensures FormatTagAt(Br + rest, true).None? && BiTagAt(Br + rest, true).None?
    ensures FormatTagAt(Br + rest, false) == Some(5) && BiTagAt(Br + rest, false) == Some(BiTag(5, false, 'b'))
  {
    var s := Br + rest;
    assert s[..5] == Br;
    var t := s[2..];
    assert t[0] == 'r' && t[1] == '/' && t[2] == '>';
    assert '>' in t;
    assert Text.IndexOf(t, '>') == 2;
  }

  // ---------------------------------------------------------------------
  // The last passes
  // ---------------------------------------------------------------------

  /** The box-drawing characters the renderer lacks, and their stand-ins. */
  predicate IsBoxChar(c: char) {
    c == '\U{2500}' || c == '\U{2501}' || c == '\U{2502}' || c == '\U{2503}'
  }

  function BoxFree(c: char): char {
    if c == '\U{2500}' || c == '\U{2501}' then '-'
    else if c == '\U{2502}' || c == '\U{2503}' then '|'
    else c
  }

  /** The four `replace` calls: light and heavy horizontal lines become
    * `-`, vertical lines `|`, every other character stays. */
  function ReplaceBoxChars(s: string): (r: string)
    ensures |r| == |s|
    ensures forall i :: 0 <= i < |s| ==> !IsBoxChar(r[i])
    ensures forall i :: 0 <= i < |s| && !IsBoxChar(s[i]) ==> r[i] == s[i]
    ensures forall i :: 0 <= i < |s| && IsBoxChar(s[i]) ==> r[i] in "-|"
  {
    seq(|s|, i requires 0 <= i < |s| => BoxFree(s[i]))
  }

  /** `s` with its leading run of line breaks removed. */
  function DropBreaks(s: string): (r: string)
    ensures |r| <= |s| && !Text.StartsWith(r, Br)
    ensures Text.StartsWith(s, Br) ==> |r| <= |s| - 5
    decreases |s|
  {
    if Text.StartsWith(s, Br) then DropBreaks(s[5..]) else s
  }

  /** `re.sub(r'(<br/>)+', '<br/>', s)`. */
  function CollapseBreaks(s: string): string
    decreases |s|
  {
    if Text.StartsWith(s, Br) then Br + CollapseBreaks(DropBreaks(s))
    else if s == [] then []
    else [s[0]] + CollapseBreaks(s[1..])
  }

  /** Text in which no position starts a `<br/>` is left alone. */
  lemma {:induction false} CollapseWithoutBreaks(s: string)
    requires forall i | 0 <= i < |s| :: !Text.StartsWith(s[i..], Br)
    ensures CollapseBreaks(s) == s
    decreases |s|
  {
    if s != [] {
      assert s[0..] == s;
      forall i | 0 <= i < |s| - 1
        ensures !Text.StartsWith(s[1..][i..], Br)
      {
        assert s[1..][i..] == s[i + 1..];
      }
      CollapseWithoutBreaks(s[1..]);
      assert [s[0]] + s[1..] == s;
    }
  }

  lemma {:induction false} CollapseHead(t: string)
    requires t != [] && t[0] != '<'
    ensures CollapseBreaks(t) == [t[0]] + CollapseBreaks(t[1..])
  {
    assert !Text.StartsWith(t, Br);
  }

  lemma {:induction false} StartsWithCons(u: string, x: string, w: string)
    ensures Text.StartsWith(u + x, u + w) <==> Text.StartsWith(x, w)
  {
    if |w| <= |x| {
      assert (u + x)[..|u| + |w|] == u + x[..|w|];
      if (u + x)[..|u| + |w|] == u + w {
        assert x[..|w|] == (u + x[..|w|])[|u|..] == (u + w)[|u|..] == w;
      }
    }
  }

  /** A prefix without `<` survives collapsing unchanged. */
  lemma {:induction false} CollapseKeepsPrefix(t: string, w: string)
    requires '<' !in w
    ensures Text.StartsWith(CollapseBreaks(t), w) <==> Text.StartsWith(t, w)
    decreases |w|
  {
    if w != [] && t != [] {
      if t[0] == '<' {
        if Text.StartsWith(t, Br) {
          assert CollapseBreaks(t)[0] == '<';
        } else {
          assert CollapseBreaks(t) == [t[0]] + CollapseBreaks(t[1..]);
        }
        assert w[0] != '<';
      } else {
        CollapseHead(t);
        CollapseKeepsPrefix(t[1..], w[1..]);
        var c := CollapseBreaks(t);
        assert Text.StartsWith(c, w) <==> c[0] == w[0] && Text.StartsWith(c[1..], w[1..]);
        assert Text.StartsWith(t, w) <==> t[0] == w[0] && Text.StartsWith(t[1..], w[1..]);
      }
    } else if w != [] {
      assert CollapseBreaks(t) == [];
    }
  }

  lemma {:induction false} CollapseStartsBreak(t: string)
    ensures Text.StartsWith(CollapseBreaks(t), Br) <==> Text.StartsWith(t, Br)
  {
    if !Text.StartsWith(t, Br) && t != [] {
      if t[0] == '<' {
        var c := CollapseBreaks(t);
        assert c == "<" + CollapseBreaks(t[1..]);
        CollapseKeepsPrefix(t[1..], "br/>");
        assert Br == "<" + "br/>";
        StartsWithCons("<", CollapseBreaks(t[1..]), "br/>");
        assert t == "<" + t[1..];
        StartsWithCons("<", t[1..], "br/>");
      } else {
        CollapseHead(t);
        NotStartsWith(CollapseBreaks(t), Br, 0);
        NotStartsWith(t, Br, 0);
      }
    }
  }

  /** After collapsing, no two line breaks are adjacent. */
  predicate NoDoubleBreak(s: string) {
    forall i :: 0 <= i <= |s| ==> !Text.StartsWith(s[i..], Br + Br)
  }

  lemma {:induction false} CollapsedHasNoDoubleBreak(s: string)
    ensures NoDoubleBreak(CollapseBreaks(s))
    decreases |s|
  {
    var r := CollapseBreaks(s);
    if Text.StartsWith(s, Br) {
      var d := DropBreaks(s);
      var c := CollapseBreaks(d);
      CollapsedHasNoDoubleBreak(d);
      CollapseStartsBreak(d);
      assert r == Br + c;
      forall i | 0 <= i <= |r|
        ensures !Text.StartsWith(r[i..], Br + Br)
      {
        if i == 0 {
          StartsWithCons(Br, c, Br);
        } else if i < 5 {
          assert r[i..][0] == Br[i];
          NotStartsWith(r[i..], Br + Br, 0);
        } else {
          assert r[i..] == c[i - 5..];
        }
      }
    } else if s != [] {
      var c := CollapseBreaks(s[1..]);
      CollapsedHasNoDoubleBreak(s[1..]);
      assert r == [s[0]] + c;
      forall i | 0 <= i <= |r|
        ensures !Text.StartsWith(r[i..], Br + Br)
      {
        if i == 0 {
          if Text.StartsWith(r, Br + Br) {
            assert r[..10] == Br + Br;
            assert r[1..5] == c[..4];
            assert (Br + Br)[1..5] == "br/>";
            CollapseKeepsPrefix(s[1..], "br/>");
            assert false;
          }
        } else {
          assert r[i..] == c[i - 1..];
        }
      }
    }
  }

  /** Collapsing passes over a prefix without `<`. */
  lemma {:induction false} CollapsePlainPrefix(x: string, z: string)
    requires '<' !in x
    ensures CollapseBreaks(x + z) == x + CollapseBreaks(z)
    decreases |x|
  {
    if x != [] {
      var s := x + z;
      assert s[0] == x[0];
      CollapseHead(s);
      assert s[1..] == x[1..] + z;
      assert CollapseBreaks(s) == [x[0]] + CollapseBreaks(x[1..] + z);
      CollapsePlainPrefix(x[1..], z);
      assert x == [x[0]] + x[1..];
    } else {
      assert x + z == z;
    }
  }

  /** `re.sub(r'^<br/>', '', s)`. */
  function LeadingBreakRemoved(s: string): string {
    if Text.StartsWith(s, Br) then s[5..] else s
  }

  /** `re.sub(r'<br/>$', '', s)`: `$` also matches before a final newline. */
  function TrailingBreakRemoved(s: string): string {
    if Text.EndsWith(s, Br) then s[..|s| - 5]
    else if Text.EndsWith(s, Br + "\n") then s[..|s| - 6] + "\n"
    else s
  }

  /** The passes after the balancer. */
  function Finished(s: string): string {
    Text.Strip(TrailingBreakRemoved(LeadingBreakRemoved(CollapseBreaks(ReplaceBoxChars(s)))))
  }

  /** The whole cleaner, with or without the word boundary after the tag
    * letter. */
  function CleanWith(html: string, bounded: bool): string {
    if html == "" then ""
    else Finished(Balanced(StripFormatAttributes(ApplyRewrites(html, Rewrites), bounded), bounded))
  }

  /** `clean_html_for_paragraph` as written. */
  function CleanHtmlAsWritten(html: string): string {
    CleanWith(html, false)
  }

  /** `clean_html_for_paragraph` with `b` and `i` tag names ending at a
    * word boundary, so that line breaks survive. */
  function CleanHtmlForParagraph(html: string): string {
    CleanWith(html, true)
  }

  /** The result never starts or ends in white space, is empty for empty
    * input, and carries no box-drawing character. */
  lemma {:induction false} CleanShape(html: string)
    ensures Text.IsStripped(CleanHtmlForParagraph(html))
    ensures html == "" ==> CleanHtmlForParagraph(html) == ""
  {
    if html != "" {
      var b := Balanced(StripFormatAttributes(ApplyRewrites(html, Rewrites), true), true);
      Text.StripSpec(TrailingBreakRemoved(LeadingBreakRemoved(CollapseBreaks(ReplaceBoxChars(b)))));
    }
  }

  lemma {:induction false} FrontPlain(html: string, bounded: bool)
    requires '<' !in html
    ensures Balanced(StripFormatAttributes(ApplyRewrites(html, Rewrites), bounded), bounded) == html
  {
    RewritesPlain(html, Rewrites);
    StripFormatPlainPrefix(html, [], bounded);
    assert html + [] == html;
    BalancedPlain(html, bounded);
  }

  lemma {:induction false} FinishedPlain(s: string)
    requires '<' !in s
    ensures Finished(s) == Text.Strip(ReplaceBoxChars(s))
  {
    var r := ReplaceBoxChars(s);
    forall i | 0 <= i < |r|
      ensures r[i] != '<'
    {
      assert s[i] != '<';
    }
    CollapsePlainPrefix(r, []);
    assert r + [] == r;
    if r != [] {
      NotStartsWith(r, Br, 0);
    }
    if |r| >= 5 {
      NotEndsWith(r, Br, 0);
    }
    if |r| >= 6 {
      NotEndsWith(r, Br + "\n", 0);
    }
  }

  /** Text without tags is only stripped and has its box-drawing
    * characters replaced. */
  lemma {:induction false} CleanPlain(html: string)
    requires html != "" && '<' !in html
    ensures CleanHtmlForParagraph(html) == Text.Strip(ReplaceBoxChars(html))
  {
    FrontPlain(html, true);
    FinishedPlain(html);
  }


  // ---------------------------------------------------------------------
  // A line break read as a bold tag
  // ---------------------------------------------------------------------

  /** Text with no tag and no box-drawing character, not starting or
    * ending in white space. */
  predicate PlainWord(s: string) {
    && s != []
    && '<' !in s
    && (forall i :: 0 <= i < |s| ==> !IsBoxChar(s[i]))
    && !Text.IsSpace(s[0]) && !Text.IsSpace(s[|s| - 1])
  }

  /** No rewrite pattern can match at a line break: none starts with `<b`. */
  predicate SparesBreak(p: Pattern) {
    match p
    case TagPattern(n) => n != [] && n[0] != 'b'
    case LiteralPattern(t) => |t| >= 2 && t[1] != 'b'
  }

  lemma {:induction false} SubAtBreak(y: string, p: Pattern, repl: string)
    requires StartsTag(p) && SparesBreak(p) && '<' !in y
    ensures Sub(Br + y, p, repl) == Br + y
  {
    var s := Br + y;
    assert s[1] == 'b';
    if p.LiteralPattern? {
      NotStartsWith(s, p.text, 1);
    } else {
      NotStartsWith(s, "<" + p.name, 1);
    }
    var t := "br/>" + y;
    assert s[1..] == t + [];
    assert '<' !in t;
    SubPlainPrefix(t, [], p, repl);
  }

  lemma {:induction false} RewritesKeepBreak(x: string, y: string, rs: seq<Rewrite>)
    requires forall k :: 0 <= k < |rs| ==> StartsTag(rs[k].pattern) && SparesBreak(rs[k].pattern)
    requires '<' !in x && '<' !in y
    ensures ApplyRewrites(x + Br + y, rs) == x + Br + y
    decreases |rs|
  {
    if rs != [] {
      SubPlainPrefix(x, Br + y, rs[0].pattern, rs[0].repl);
      SubAtBreak(y, rs[0].pattern, rs[0].repl);
      assert x + Br + y == x + (Br + y);
      RewritesKeepBreak(x, y, rs[1..]);
    }
  }

  lemma {:induction false} StripFormatAtBreak(x: string, y: string)
    requires '<' !in x && '<' !in y
    ensures StripFormatAttributes(x + Br + y, false) == x + "<b>" + y
    ensures StripFormatAttributes(x + Br + y, true) == x + Br + y
  {
    var s := Br + y;
    assert x + Br + y == x + s;
    StripFormatPlainPrefix(x, s, false);
    StripFormatPlainPrefix(x, s, true);
    BreakReadAsBold(y);
    BreakKeptWhole(y);
  }

  lemma {:induction false} BreakReadAsBold(y: string)
    requires '<' !in y
    ensures StripFormatAttributes(Br + y, false) == "<b>" + y
  {
    var s := Br + y;
    LineBreakIsNotBold(y);
    FormatTagStripped(s, false, 5);
    assert s[1] == 'b' && s[5..] == y + [];
    StripFormatPlainPrefix(y, [], false);
  }

  lemma {:induction false} FormatTagStripped(s: string, bounded: bool, n: nat)
    requires FormatTagAt(s, bounded) == Some(n)
    ensures StripFormatAttributes(s, bounded) == "<" + [s[1]] + ">" + StripFormatAttributes(s[n..], bounded)
  {
  }

  lemma {:induction false} BreakKeptWhole(y: string)
    requires '<' !in y
    ensures StripFormatAttributes(Br + y, true) == Br + y
  {
    var t := "br/>" + y;
    BreakHeadStripped(y, t);
    assert '<' !in t;
    StripFormatPlain(t, true);
    BreakJoin(y, t);
  }

  lemma {:induction false} StripFormatPlain(t: string, bounded: bool)
    requires '<' !in t
    ensures StripFormatAttributes(t, bounded) == t
  {
    StripFormatPlainPrefix(t, [], bounded);
    assert t + [] == t;
  }

  lemma {:induction false} BreakJoin(y: string, t: string)
    requires t == "br/>" + y
    ensures "<" + t == Br + y
  {
  }

  lemma {:induction false} BreakHeadStripped(y: string, t: string)
    requires t == "br/>" + y
    ensures StripFormatAttributes(Br + y, true) == "<" + StripFormatAttributes(t, true)
  {
    var s := Br + y;
    LineBreakIsNotBold(y);
    assert s[1..] == t;
  }

  /** A line break split after its `<`. */
  lemma {:induction false} BreakSplit(p: string, y: string)
    ensures (p + "<") + ("br/>" + y) == p + Br + y
  {
  }

  lemma {:induction false} ScanPlainPrefix(b: Balancing, x: string, z: string, bounded: bool)
    requires '<' !in x
    ensures Scan(b, x + z, bounded) == Scan(Scan(b, x, bounded), z, bounded)
    decreases |x|
  {
    if x != [] {
      var s := x + z;
      assert s[0] == x[0];
      assert s[1..] == x[1..] + z;
      ScanPlainPrefix(Balancing(b.out + [Plain(x[0])], b.open), x[1..], z, bounded);
    } else {
      assert x + z == z;
    }
  }

  /** As written, the line break read as `<b>` is written as an opener and
    * remembered as open. */
  lemma {:induction false} ScanOpensBold(b: Balancing, y: string)
    requires '<' !in y
    ensures Print(Scan(b, "<b>" + y, false).out) == Print(b.out) + "<b>" + y
    ensures Scan(b, "<b>" + y, false).open == b.open + ['b']
  {
    var b2 := Balancing(b.out + [Open('b')], b.open + ['b']);
    BoldConsumed(b, y, b2);
    OpenerPrinted(b.out, b2.out);
    ScanPlain(b2, y, false);
  }

  lemma {:induction false} OpenerPrinted(out: seq<Piece>, out2: seq<Piece>)
    requires out2 == out + [Open('b')]
    ensures Print(out2) == Print(out) + "<b>"
  {
    PrintAppend(out, Open('b'));
  }

  lemma {:induction false} BoldConsumed(b: Balancing, y: string, b2: Balancing)
    requires b2 == Balancing(b.out + [Open('b')], b.open + ['b'])
    ensures Scan(b, "<b>" + y, false) == Scan(b2, y, false)
  {
    var s := "<b>" + y;
    var t := BiTag(3, false, 'b');
    BoldTagAt(y);
    ScanConsumes(b, s, false, t);
    assert s[3..] == y;
  }

  lemma {:induction false} BoldTagAt(y: string)
    ensures BiTagAt("<b>" + y, false) == Some(BiTag(3, false, 'b'))
  {
    var s := "<b>" + y;
    assert s[2..][0] == '>';
    assert Text.IndexOf(s[2..], '>') == 0;
  }

  lemma {:induction false} ScanConsumes(b: Balancing, s: string, bounded: bool, t: BiTag)
    requires s != [] && BiTagAt(s, bounded) == Some(t)
    ensures Scan(b, s, bounded) == Scan(Consumed(b, t), s[t.len..], bounded)
  {
  }

  lemma {:induction false} ScanLineWithBold(b: Balancing, x: string, y: string)
    requires '<' !in x && '<' !in y
    ensures Print(Scan(b, x + "<b>" + y, false).out) == Print(b.out) + x + "<b>" + y
    ensures Scan(b, x + "<b>" + y, false).open == b.open + ['b']
  {
    var s := "<b>" + y;
    assert x + "<b>" + y == x + s;
    ScanPlainPrefix(b, x, s, false);
    ScanPlain(b, x, false);
    ScanOpensBold(Scan(b, x, false), y);
  }

  lemma {:induction false} ClosingOne(b: Balancing, c: char)
    requires b.open == [c]
    ensures Closing(b) == b.out + [Close(c)]
  {
    assert b.open[..0] == [];
  }

  /** The opener left open is closed at the very end. */
  lemma {:induction false} BalancedOpensBold(x: string, y: string)
    requires '<' !in x && '<' !in y
    ensures Balanced(x + "<b>" + y, false) == x + "<b>" + y + "</b>"
  {
    var b0 := Balancing([], []);
    var w := x + "<b>" + y;
    ScanLineWithBold(b0, x, y);
    var b := Scan(b0, w, false);
    assert b0.open + ['b'] == ['b'];
    assert Print(b.out) == w by { assert Print(b0.out) == ""; assert "" + x == x; }
    ClosedOnce(b, w);
  }

  lemma {:induction false} ClosedOnce(b: Balancing, w: string)
    requires b.open == ['b'] && Print(b.out) == w
    ensures Print(Closing(b)) == w + "</b>"
  {
    ClosingOne(b, 'b');
    PrintAppend(b.out, Close('b'));
  }

  lemma {:induction false} ScanCopies(b: Balancing, s: string, bounded: bool)
    requires s != [] && BiTagAt(s, bounded).None?
    ensures Scan(b, s, bounded) == Scan(Balancing(b.out + [Plain(s[0])], b.open), s[1..], bounded)
  {
  }

  /** With the word boundary the line break is copied like text. */
  lemma {:induction false} ScanKeepsBreak(b: Balancing, y: string)
    requires '<' !in y
    ensures Print(Scan(b, Br + y, true).out) == Print(b.out) + Br + y
    ensures Scan(b, Br + y, true).open == b.open
  {
    var t := "br/>" + y;
    var b2 := Balancing(b.out + [Plain('<')], b.open);
    BreakHeadCopied(b, y, t, b2);
    assert '<' !in t;
    LessPrinted(b.out, b2.out);
    ScanPlain(b2, t, true);
    BreakSplit(Print(b.out), y);
  }

  lemma {:induction false} BreakHeadCopied(b: Balancing, y: string, t: string, b2: Balancing)
    requires t == "br/>" + y && b2 == Balancing(b.out + [Plain('<')], b.open)
    ensures Scan(b, Br + y, true) == Scan(b2, t, true)
  {
    var s := Br + y;
    LineBreakIsNotBold(y);
    assert s[1..] == t;
    ScanCopies(b, s, true);
  }

  lemma {:induction false} LessPrinted(out: seq<Piece>, out2: seq<Piece>)
    requires out2 == out + [Plain('<')]
    ensures Print(out2) == Print(out) + "<"
  {
    PrintAppend(out, Plain('<'));
  }

  lemma {:induction false} ScanLineWithBreak(b: Balancing, x: string, y: string)
    requires '<' !in x && '<' !in y
    ensures Print(Scan(b, x + Br + y, true).out) == Print(b.out) + x + Br + y
    ensures Scan(b, x + Br + y, true).open == b.open
  {
    var s := Br + y;
    assert x + Br + y == x + s;
    ScanPlainPrefix(b, x, s, true);
    ScanPlain(b, x, true);
    ScanKeepsBreak(Scan(b, x, true), y);
  }

  lemma {:induction false} BalancedKeepsBreak(x: string, y: string)
    requires '<' !in x && '<' !in y
    ensures Balanced(x + Br + y, true) == x + Br + y
  {
    ScanLineWithBreak(Balancing([], []), x, y);
    var b := Scan(Balancing([], []), x + Br + y, true);
    assert Closing(b) == b.out;
  }

  lemma {:induction false} BoxFreeFixed(s: string)
    requires forall i :: 0 <= i < |s| ==> !IsBoxChar(s[i])
    ensures ReplaceBoxChars(s) == s
  {
  }

  lemma {:induction false} CollapseCloser()
    ensures CollapseBreaks("</b>") == "</b>"
  {
    var u := "</b>";
    NotStartsWith(u, Br, 1);
    assert u[1..] == "/b>" + [];
    CollapsePlainPrefix("/b>", []);
  }

  lemma {:induction false} CollapseOpener(y: string)
    requires '<' !in y
    ensures CollapseBreaks("<b>" + y + "</b>") == "<b>" + y + "</b>"
  {
    var t := "<b>" + y + "</b>";
    NotStartsWith(t, Br, 2);
    assert CollapseBreaks(t) == [t[0]] + CollapseBreaks(t[1..]);
    assert t[1..] == "b>" + (y + "</b>");
    CollapsePlainPrefix("b>", y + "</b>");
    CollapsePlainPrefix(y, "</b>");
    CollapseCloser();
  }

  lemma {:induction false} CollapseBoldRun(x: string, y: string)
    requires '<' !in x && '<' !in y
    ensures CollapseBreaks(x + "<b>" + y + "</b>") == x + "<b>" + y + "</b>"
  {
    var t := "<b>" + y + "</b>";
    assert x + "<b>" + y + "</b>" == x + t;
    CollapsePlainPrefix(x, t);
    CollapseOpener(y);
  }

  lemma {:induction false} CollapseOneBreak(x: string, y: string)
    requires '<' !in x && '<' !in y
    ensures CollapseBreaks(x + Br + y) == x + Br + y
  {
    var t := Br + y;
    assert x + Br + y == x + t;
    CollapsePlainPrefix(x, t);
    assert t[..5] == Br;
    assert t[5..] == y;
    NotStartsWith(y, Br, 0);
    assert DropBreaks(t) == DropBreaks(y) == y;
    assert CollapseBreaks(t) == Br + CollapseBreaks(y);
    CollapsePlainPrefix(y, []);
    assert y + [] == y;
  }

  lemma {:induction false} FinishedBold(x: string, y: string)
    requires PlainWord(x) && PlainWord(y)
    ensures Finished(x + "<b>" + y + "</b>") == x + "<b>" + y + "</b>"
  {
    var s := x + "<b>" + y + "</b>";
    forall i | 0 <= i < |s|
      ensures !IsBoxChar(s[i])
    {
      if i < |x| {
        assert s[i] == x[i];
      } else if |x| + 3 <= i < |x| + 3 + |y| {
        assert s[i] == y[i - |x| - 3];
      }
    }
    BoxFreeFixed(s);
    CollapseBoldRun(x, y);
    assert s[0] == x[0];
    NotStartsWith(s, Br, 0);
    assert s[|s| - 5] == y[|y| - 1];
    NotEndsWith(s, Br, 0);
    NotEndsWith(s, Br + "\n", 5);
    Text.StrippedIsFixed(s);
  }

  lemma {:induction false} FinishedBreak(x: string, y: string)
    requires PlainWord(x) && PlainWord(y)
    ensures Finished(x + Br + y) == x + Br + y
  {
    var s := x + Br + y;
    forall i | 0 <= i < |s|
      ensures !IsBoxChar(s[i])
    {
      if i < |x| {
        assert s[i] == x[i];
      } else if |x| + 5 <= i {
        assert s[i] == y[i - |x| - 5];
      }
    }
    BoxFreeFixed(s);
    CollapseOneBreak(x, y);
    assert CollapseBreaks(ReplaceBoxChars(s)) == s;
    assert s[0] == x[0];
    NotStartsWith(s, Br, 0);
    assert LeadingBreakRemoved(s) == s;
    BreakBetweenWordsNotAtEnd(x, y);
    assert TrailingBreakRemoved(s) == s;
    Text.StrippedIsFixed(s);
  }

  /** A break between two words is not a trailing break. */
  lemma {:induction false} BreakBetweenWordsNotAtEnd(x: string, y: string)
    requires PlainWord(x) && PlainWord(y)
    ensures !Text.EndsWith(x + Br + y, Br) && !Text.EndsWith(x + Br + y, Br + "\n")
  {
    var s := x + Br + y;
    if |y| < 5 {
      assert s[|s| - 5] == Br[|y|];
    } else {
      assert s[|s| - 5] == y[|y| - 5];
    }
    NotEndsWith(s, Br, 0);
    assert s[|s| - 1] == y[|y| - 1];
    NotEndsWith(s, Br + "\n", 5);
  }

  /** Every rewrite spares a line break. */
  lemma {:induction false} RewritesSpareBreaks()
    ensures forall k :: 0 <= k < |Rewrites| ==> StartsTag(Rewrites[k].pattern) && SparesBreak(Rewrites[k].pattern)
  {
  }

  /** As written, `<([bi])[^>]*>` matches the `<br/>` of a line break: the
    * break becomes a bold opener that the balancer closes at the end, so
    * everything after it turns bold and the break is lost. */
  lemma {:induction false} LineBreakBecomesBold(x: string, y: string)
    requires PlainWord(x) && PlainWord(y)
    ensures CleanHtmlAsWritten(x + Br + y) == x + "<b>" + y + "</b>"
  {
    RewritesSpareBreaks();
    RewritesKeepBreak(x, y, Rewrites);
    StripFormatAtBreak(x, y);
    BalancedOpensBold(x, y);
    FinishedBold(x, y);
  }

  /** With the word boundary, a line break between two words survives. */
  lemma {:induction false} LineBreakKept(x: string, y: string)
    requires PlainWord(x) && PlainWord(y)
    ensures CleanHtmlForParagraph(x + Br + y) == x + Br + y
  {
    RewritesSpareBreaks();
    RewritesKeepBreak(x, y, Rewrites);
    StripFormatAtBreak(x, y);
    BalancedKeepsBreak(x, y);
    FinishedBreak(x, y);
  }

  /** The two on `a<br/>b`. */
  lemma {:induction false} LineBreakExample()
    ensures CleanHtmlAsWritten("a<br/>b") == "a<b>b</b>"
    ensures CleanHtmlForParagraph("a<br/>b") == "a<br/>b"
  {
    assert "a" + Br + "b" == "a<br/>b";
    assert "a" + "<b>" + "b" + "</b>" == "a<b>b</b>";
    assert PlainWord("a") && PlainWord("b");
    LineBreakBecomesBold("a", "b");
    LineBreakKept("a", "b");
  }
}
