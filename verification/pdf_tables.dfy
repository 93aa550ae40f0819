/** `extract_table_data` of `app/pdf_utils.py`: the rows of an HTML table,
  * found with `re.findall(r'<tr[^>]*>(.*?)</tr>', html, re.DOTALL)`, each
  * split into its cells with `re.findall(r'<t[hd][^>]*>(.*?)</t[hd]>', row,
  * re.DOTALL)`, and each cell cleaned of inner tags and stripped. The two
  * patterns have the same shape (a three-character opener, attributes up
  * to the first `>`, and a body that ends at the first closer), so one
  * scanner serves both. */
module HtmlTables {
  import opened Wrappers
  import Text

  // ---------------------------------------------------------------------
  // The two `findall` patterns
  // ---------------------------------------------------------------------

  /** Which pattern: `cell` for `<t[hd]...>...</t[hd]>`, otherwise
    * `<tr...>...</tr>`. */
  predicate Opens(s: string, cell: bool) {
    if cell then |s| >= 3 && s[0] == '<' && s[1] == 't' && s[2] in "hd"
    else Text.StartsWith(s, "<tr")
  }

  /** A closer at the start of `s`: `</tr>`, or `</th>` or `</td>` (either
    * ends a cell, whichever tag opened it). */
  predicate Closes(s: string, cell: bool) {
    if cell then |s| >= 5 && s[..3] == "</t" && s[3] in "hd" && s[4] == '>'
    else Text.StartsWith(s, "</tr>")
  }

  /** Where the lazy `(.*?)` stops: the first closer. */
  function FirstClose(s: string, cell: bool): (k: Option<nat>)
    ensures k.Some? ==> k.value + 5 <= |s| && Closes(s[k.value..], cell)
    ensures k.Some? ==> forall j :: 0 <= j < k.value ==> !Closes(s[j..], cell)
    ensures k.None? ==> forall j :: 0 <= j <= |s| ==> !Closes(s[j..], cell)
    decreases |s|
  {
    if Closes(s, cell) then Some(0)
    else if s == [] then None
    else match FirstClose(s[1..], cell)
      case Some(k) =>
        assert forall j :: 1 <= j <= k ==> s[j..] == s[1..][j - 1..];
        assert s[k + 1..] == s[1..][k..];
        Some(k + 1)
      case None =>
        assert forall j :: 1 <= j <= |s| ==> s[j..] == s[1..][j - 1..];
        None
  }

  /** One match: how much of the text it covers and its group. */
  datatype Match = Match(len: nat, body: string)

  /** The match at the start of `s`, if any. `[^>]*` can only stop at the
    * first `>`, and the body runs to the first closer after it. */
  function ElementAt(s: string, cell: bool): (m: Option<Match>)
    ensures m.Some? ==> 0 < m.value.len <= |s|
    ensures m.Some? ==> Opens(s, cell)
  {
    if Opens(s, cell) && '>' in s[3..] then
      var b := 3 + Text.IndexOf(s[3..], '>') + 1;
      match FirstClose(s[b..], cell)
      case Some(k) => Some(Match(b + k + 5, s[b..b + k]))
      case None => None
    else None
  }

  /** `re.findall` of the pattern: the bodies of the matches from left to
    * right, the scan resuming after each match. */
  function Bodies(s: string, cell: bool): seq<string>
    decreases |s|
  {
    if s == [] then []
    else match ElementAt(s, cell)
      case Some(m) => [m.body] + Bodies(s[m.len..], cell)
      case None => Bodies(s[1..], cell)
  }

  // ---------------------------------------------------------------------
  // Cell text
  // ---------------------------------------------------------------------

  /** `<[^>]+>` at the start of `s`: a `<`, at least one character that is
    * not `>`, and the first `>`. */
  function TagAt(s: string): (n: Option<nat>)
    ensures n.Some? ==> 3 <= n.value <= |s|
  {
    if |s| >= 2 && s[0] == '<' && s[1] != '>' && '>' in s[1..] then
      Some(Text.IndexOf(s[1..], '>') + 2)
    else None
  }

  /** `re.sub(r'<[^>]+>', '', s)`. */
  function RemoveTags(s: string): string
    decreases |s|
  {
    if s == [] then []
    else match TagAt(s)
      case Some(n) => RemoveTags(s[n..])
      case None => [s[0]] + RemoveTags(s[1..])
  }

  /** What `extract_table_data` makes of one cell. */
  function CellText(cell: string): string {
    Text.Strip(RemoveTags(cell))
  }

  /** No `<[^>]+>` match anywhere: every `<` is followed directly by `>`
    * or by no `>` at all. */
  predicate NoTag(s: string) {
    forall i :: 0 <= i < |s| && s[i] == '<' ==> (i + 1 < |s| && s[i + 1] == '>') || '>' !in s[i + 1..]
  }

  // ---------------------------------------------------------------------
  // The table
  // ---------------------------------------------------------------------

  function CellTexts(cells: seq<string>): seq<string> {
    seq(|cells|, k requires 0 <= k < |cells| => CellText(cells[k]))
  }

  /** The rows made of the row bodies found so far: the cell texts of each,
    * rows without cells left out. */
  function RowsOf(rowBodies: seq<string>): seq<seq<string>>
    decreases |rowBodies|
  {
    if rowBodies == [] then []
    else
      var cells := CellTexts(Bodies(rowBodies[|rowBodies| - 1], true));
      RowsOf(rowBodies[..|rowBodies| - 1]) + (if cells != [] then [cells] else [])
  }

  function TableData(tableHtml: string): seq<seq<string>> {
    RowsOf(Bodies(tableHtml, false))
  }

  /** `extract_table_data`: the loop over the row matches, keeping the
    * rows that have cells. */
  method ExtractTableData(tableHtml: string) returns (rows: seq<seq<string>>)
    ensures rows == TableData(tableHtml)
  {
    var rowMatches := Bodies(tableHtml, false);
    rows := [];
    for i := 0 to |rowMatches|
      invariant rows == RowsOf(rowMatches[..i])
    {
      var cells := RowCells(rowMatches[i]);
      RowsOfStep(rowMatches, i);
      if cells != [] {
        rows := rows + [cells];
      }
    }
    assert rowMatches[..|rowMatches|] == rowMatches;
  }

  /** The inner loop over the cell matches of one row. */
  method RowCells(rowHtml: string) returns (cells: seq<string>)
    ensures cells == CellTexts(Bodies(rowHtml, true))
  {
    var cellMatches := Bodies(rowHtml, true);
    cells := CleanCells(cellMatches);
  }

  /** The `for cell_html in cell_matches` loop. */
  method CleanCells(cellMatches: seq<string>) returns (cells: seq<string>)
    ensures cells == CellTexts(cellMatches)
  {
    cells := CleanEach(CellText, cellMatches);
    CellTextsOf(cells, cellMatches);
  }

  /** The loop itself, for any cleaning step `clean`: one cleaned cell per
    * match, in order. */
  method CleanEach(clean: string -> string, cellMatches: seq<string>) returns (cells: seq<string>)
    ensures |cells| == |cellMatches|
    ensures forall k :: 0 <= k < |cellMatches| ==> cells[k] == clean(cellMatches[k])
  {
    cells := [];
    for j := 0 to |cellMatches|
      invariant |cells| == j
      invariant forall k :: 0 <= k < j ==> cells[k] == clean(cellMatches[k])
    {
      cells := cells + [clean(cellMatches[j])];
    }
  }

  /** Cell texts given one by one are the cell texts of the cells. */
  lemma {:induction false} CellTextsOf(texts: seq<string>, cells: seq<string>)
    requires |texts| == |cells|
    requires forall k :: 0 <= k < |cells| ==> texts[k] == CellText(cells[k])
    ensures texts == CellTexts(cells)
  {
  }

  lemma {:induction false} RowsOfStep(rowBodies: seq<string>, i: nat)
    requires i < |rowBodies|
    ensures var cells := CellTexts(Bodies(rowBodies[i], true));
            RowsOf(rowBodies[..i + 1]) == RowsOf(rowBodies[..i]) + (if cells != [] then [cells] else [])
  {
    assert rowBodies[..i + 1][..i] == rowBodies[..i];
  }

  // ---------------------------------------------------------------------
  // Properties
  // ---------------------------------------------------------------------

  /** Every character of the result comes from the input. */
  lemma {:induction false} RemoveTagsSubset(s: string, c: char)
    requires c !in s
    ensures c !in RemoveTags(s)
    decreases |s|
  {
    if s != [] {
      match TagAt(s)
      case Some(n) =>
        assert forall k :: 0 <= k < |s[n..]| ==> s[n..][k] == s[n + k];
        RemoveTagsSubset(s[n..], c);
      case None =>
        assert forall k :: 0 <= k < |s[1..]| ==> s[1..][k] == s[1 + k];
        RemoveTagsSubset(s[1..], c);
    }
  }

  /** `>` never starts a tag, so it is copied. */
  lemma {:induction false} RemoveTagsKeepsClose(s: string)
    requires s != [] && s[0] == '>'
    ensures RemoveTags(s) == ">" + RemoveTags(s[1..])
  {
  }

  lemma {:induction false} NoTagCons(c: char, t: string)
    requires NoTag(t)
    requires c == '<' ==> (t != [] && t[0] == '>') || '>' !in t
    ensures NoTag([c] + t)
  {
    var s := [c] + t;
    forall i | 0 <= i < |s| && s[i] == '<'
      ensures (i + 1 < |s| && s[i + 1] == '>') || '>' !in s[i + 1..]
    {
      if i > 0 {
        assert s[i] == t[i - 1];
        assert s[i + 1..] == t[i..];
      } else {
        assert s[1..] == t;
      }
    }
  }

  /** After the substitution no tag is left, even one formed by the text
    * around a removed tag. */
  lemma {:induction false} RemoveTagsLeavesNoTag(s: string)
    ensures NoTag(RemoveTags(s))
    decreases |s|
  {
    if s != [] {
      match TagAt(s)
      case Some(n) =>
        RemoveTagsLeavesNoTag(s[n..]);
      case None =>
        RemoveTagsLeavesNoTag(s[1..]);
        var t := RemoveTags(s[1..]);
        if s[0] == '<' {
          if |s| >= 2 && s[1] == '>' {
            RemoveTagsKeepsClose(s[1..]);
          } else if |s| >= 2 {
            assert '>' !in s[1..];
            RemoveTagsSubset(s[1..], '>');
          }
        }
        NoTagCons(s[0], t);
    }
  }

  lemma {:induction false} NoTagDrop(s: string, a: nat)
    requires NoTag(s) && a <= |s|
    ensures NoTag(s[a..])
  {
    var t := s[a..];
    forall i | 0 <= i < |t| && t[i] == '<'
      ensures (i + 1 < |t| && t[i + 1] == '>') || '>' !in t[i + 1..]
    {
      assert s[a + i] == '<';
      assert t[i + 1..] == s[a + i + 1..];
    }
  }

  lemma {:induction false} NoTagTake(s: string, n: nat)
    requires NoTag(s) && n <= |s|
    ensures NoTag(s[..n])
  {
    var t := s[..n];
    forall i | 0 <= i < |t| && t[i] == '<'
      ensures (i + 1 < |t| && t[i + 1] == '>') || '>' !in t[i + 1..]
    {
      assert s[i] == '<';
      if '>' in t[i + 1..] {
        var k :| i + 1 <= k < n && t[k] == '>';
        assert s[i + 1..][k - i - 1] == '>';
      }
    }
  }

  /** A cell's text is stripped and holds no tag. */
  lemma {:induction false} CellTextClean(cell: string)
    ensures Text.IsStripped(CellText(cell)) && NoTag(CellText(cell))
  {
    var r := RemoveTags(cell);
    RemoveTagsLeavesNoTag(cell);
    Text.StripSpec(r);
    var a := |r| - |Text.LStrip(r)|;
    NoTagDrop(r, a);
    NoTagTake(r[a..], |Text.Strip(r)|);
  }

  /** A row as `extract_table_data` keeps it: at least one cell, and every
    * cell stripped and without a tag. */
  predicate CleanRow(row: seq<string>) {
    row != [] && forall c :: 0 <= c < |row| ==> Text.IsStripped(row[c]) && NoTag(row[c])
  }

  lemma {:induction false} CellsClean(cells: seq<string>)
    requires cells != []
    ensures CleanRow(CellTexts(cells))
  {
    var r := CellTexts(cells);
    forall c | 0 <= c < |r|
      ensures Text.IsStripped(r[c]) && NoTag(r[c])
    {
      CellTextClean(cells[c]);
    }
  }

  /** Every row is clean, and there are no more rows than `<tr>` matches. */
  lemma {:induction false} RowsClean(rowBodies: seq<string>)
    ensures |RowsOf(rowBodies)| <= |rowBodies|
    ensures forall r :: 0 <= r < |RowsOf(rowBodies)| ==> CleanRow(RowsOf(rowBodies)[r])
    decreases |rowBodies|
  {
    if rowBodies != [] {
      var last := Bodies(rowBodies[|rowBodies| - 1], true);
      RowsClean(rowBodies[..|rowBodies| - 1]);
      if last != [] {
        CellsClean(last);
      }
    }
  }

  lemma {:induction false} TableDataClean(tableHtml: string)
    ensures forall r :: 0 <= r < |TableData(tableHtml)| ==> CleanRow(TableData(tableHtml)[r])
  {
    RowsClean(Bodies(tableHtml, false));
  }
}
