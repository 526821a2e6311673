/** HTML report assembly: entity escaping of user text and the table
    markup built around it. */
module ReportExport {
  import opened Common

  /** The five replacements, in the order the source applies them. */
  function EscapeHtml(s: string): string
  {
    Replace(Replace(Replace(Replace(Replace(s, '&', "&amp;"), '<', "&lt;"), '>', "&gt;"), '"', "&quot;"), '\'', "&#39;")
  }

  /** Reference definition: the entity (or the character itself) for one character. */
  function EscapeChar(c: char): string
  {
    match c
    case '&' => "&amp;"
    case '<' => "&lt;"
    case '>' => "&gt;"
    case '"' => "&quot;"
    case '\'' => "&#39;"
    case _ => [c]
  }

  predicate IsSpecial(c: char) { c == '&' || c == '<' || c == '>' || c == '"' || c == '\'' }

  /** No character that could open a tag or close an attribute value. */
  predicate MarkupFree(s: string)
  {
    forall i :: 0 <= i < |s| ==> s[i] != '<' && s[i] != '>' && s[i] != '"' && s[i] != '\''
  }

  lemma {:induction false} ReplaceAppend(a: string, b: string, c: char, r: string)
    ensures Replace(a + b, c, r) == Replace(a, c, r) + Replace(b, c, r)
  {
    if a == [] {
      assert a + b == b;
    } else {
      assert (a + b)[0] == a[0];
      assert (a + b)[1..] == a[1..] + b;
      ReplaceAppend(a[1..], b, c, r);
    }
  }

  /** Escaping distributes over concatenation. */
  lemma EscapeAppend(a: string, b: string)
    ensures EscapeHtml(a + b) == EscapeHtml(a) + EscapeHtml(b)
  {
    var s1a, s1b := Replace(a, '&', "&amp;"), Replace(b, '&', "&amp;");
    ReplaceAppend(a, b, '&', "&amp;");
    var s2a, s2b := Replace(s1a, '<', "&lt;"), Replace(s1b, '<', "&lt;");
    ReplaceAppend(s1a, s1b, '<', "&lt;");
    var s3a, s3b := Replace(s2a, '>', "&gt;"), Replace(s2b, '>', "&gt;");
    ReplaceAppend(s2a, s2b, '>', "&gt;");
    var s4a, s4b := Replace(s3a, '"', "&quot;"), Replace(s3b, '"', "&quot;");
    ReplaceAppend(s3a, s3b, '"', "&quot;");
    ReplaceAppend(s4a, s4b, '\'', "&#39;");
  }

  /** Because `&` is replaced first, the chain acts on one character exactly as
      the entity table says: no later step touches an entity an earlier one wrote. */
  lemma EscapeOne(c: char)
    ensures EscapeHtml([c]) == EscapeChar(c)
  {
    if IsSpecial(c) {
      EscapeSpecial(c);
    } else {
      ReplaceOne(c, '&', "&amp;");
      ReplaceOne(c, '<', "&lt;");
      ReplaceOne(c, '>', "&gt;");
      ReplaceOne(c, '"', "&quot;");
      ReplaceOne(c, '\'', "&#39;");
    }
  }

  lemma EscapeSpecial(c: char)
    requires IsSpecial(c)
    ensures EscapeHtml([c]) == EscapeChar(c)
  {
    if c == '&' {
      EscapeAmp();
    } else if c == '<' {
      EscapeLt();
    } else if c == '>' {
      EscapeGt();
    } else if c == '"' {
      EscapeQuot();
    } else {
      EscapeApos();
    }
  }

  lemma EscapeAmp()
    ensures EscapeHtml(['&']) == EscapeChar('&')
  {
    ReplaceOne('&', '&', "&amp;");
    EscapeTail("&amp;", 0);
  }

  lemma EscapeLt()
    ensures EscapeHtml(['<']) == EscapeChar('<')
  {
    ReplaceOne('<', '&', "&amp;");
    ReplaceOne('<', '<', "&lt;");
    EscapeTail("&lt;", 1);
  }

  lemma EscapeGt()
    ensures EscapeHtml(['>']) == EscapeChar('>')
  {
    ReplaceOne('>', '&', "&amp;");
    ReplaceOne('>', '<', "&lt;");
    ReplaceOne('>', '>', "&gt;");
    EscapeTail("&gt;", 2);
  }

  lemma EscapeQuot()
    ensures EscapeHtml(['"']) == EscapeChar('"')
  {
    ReplaceOne('"', '&', "&amp;");
    ReplaceOne('"', '<', "&lt;");
    ReplaceOne('"', '>', "&gt;");
    ReplaceOne('"', '"', "&quot;");
    EscapeTail("&quot;", 3);
  }

  lemma EscapeApos()
    ensures EscapeHtml(['\'']) == EscapeChar('\'')
  {
    ReplaceOne('\'', '&', "&amp;");
    ReplaceOne('\'', '<', "&lt;");
    ReplaceOne('\'', '>', "&gt;");
    ReplaceOne('\'', '"', "&quot;");
    ReplaceOne('\'', '\'', "&#39;");
  }

  /** The replacements after step `k` leave an entity alone. */
  lemma EscapeTail(e: string, k: nat)
    requires '<' !in e && '>' !in e && '"' !in e && '\'' !in e
    ensures k <= 0 ==> Replace(e, '<', "&lt;") == e
    ensures k <= 1 ==> Replace(e, '>', "&gt;") == e
    ensures k <= 2 ==> Replace(e, '"', "&quot;") == e
    ensures k <= 3 ==> Replace(e, '\'', "&#39;") == e
  {
    ReplaceAbsent(e, '<', "&lt;");
    ReplaceAbsent(e, '>', "&gt;");
    ReplaceAbsent(e, '"', "&quot;");
    ReplaceAbsent(e, '\'', "&#39;");
  }

  lemma ReplaceOne(x: char, c: char, r: string)
    ensures Replace([x], c, r) == if x == c then r else [x]
  {
    assert [x][1..] == [];
  }

  lemma {:induction false} ReplaceAbsent(s: string, c: char, r: string)
    requires c !in s
    ensures Replace(s, c, r) == s
  {
    if s != [] {
      assert s[1..] == s[1..];
      assert c !in s[1..];
      ReplaceAbsent(s[1..], c, r);
      assert s == [s[0]] + s[1..];
    }
  }

  /** The chained replacements equal the per-character reference. */
  lemma {:induction false} EscapePerChar(s: string)
    ensures s != [] ==> EscapeHtml(s) == EscapeChar(s[0]) + EscapeHtml(s[1..])
  {
    if s != [] {
      assert s == [s[0]] + s[1..];
      EscapeAppend([s[0]], s[1..]);
      EscapeOne(s[0]);
    }
  }

  /** Escaped text contains none of `<`, `>`, `"`, `'`. */
  lemma {:induction false} EscapeMarkupFree(s: string)
    ensures MarkupFree(EscapeHtml(s))
    decreases |s|
  {
    if s != [] {
      EscapePerChar(s);
      EscapeMarkupFree(s[1..]);
      EscapeCharMarkupFree(s[0]);
      MarkupFreeAppend(EscapeChar(s[0]), EscapeHtml(s[1..]));
    }
  }

  lemma EscapeCharMarkupFree(c: char)
    ensures MarkupFree(EscapeChar(c))
  {
  }

  lemma MarkupFreeAppend(a: string, b: string)
    requires MarkupFree(a) && MarkupFree(b)
    ensures MarkupFree(a + b)
  {
    assert forall i :: |a| <= i < |a + b| ==> (a + b)[i] == b[i - |a|];
  }

  /** Text without any of the five special characters is returned unchanged. */
  lemma {:induction false} EscapeClean(s: string)
    requires forall i :: 0 <= i < |s| ==> !IsSpecial(s[i])
    ensures EscapeHtml(s) == s
    decreases |s|
  {
    if s != [] {
      EscapePerChar(s);
      EscapeClean(s[1..]);
      assert s == [s[0]] + s[1..];
    }
  }

  /** Decoding the five entities left to right; any other character is copied. */
  function Unescape(t: string): string
  {
    if t == [] then []
    else if "&amp;" <= t then "&" + Unescape(t[5..])
    else if "&lt;" <= t then "<" + Unescape(t[4..])
    else if "&gt;" <= t then ">" + Unescape(t[4..])
    else if "&quot;" <= t then "\"" + Unescape(t[6..])
    else if "&#39;" <= t then "'" + Unescape(t[5..])
    else [t[0]] + Unescape(t[1..])
  }

  lemma UnescapeStep(c: char, rest: string)
    ensures Unescape(EscapeChar(c) + rest) == [c] + Unescape(rest)
  {
    match c
    case '&' => UnescapeAmp(rest);
    case '<' => UnescapeLt(rest);
    case '>' => UnescapeGt(rest);
    case '"' => UnescapeQuot(rest);
    case '\'' => UnescapeApos(rest);
    case _ => UnescapePlain(c, rest);
  }

  lemma UnescapeAmp(rest: string)
    ensures Unescape("&amp;" + rest) == "&" + Unescape(rest)
  {
    var t := "&amp;" + rest;
    assert "&amp;" <= t && t[5..] == rest;
  }

  lemma UnescapeLt(rest: string)
    ensures Unescape("&lt;" + rest) == "<" + Unescape(rest)
  {
    var t := "&lt;" + rest;
    assert t[1] == 'l' && "&lt;" <= t && t[4..] == rest;
  }

  lemma UnescapeGt(rest: string)
    ensures Unescape("&gt;" + rest) == ">" + Unescape(rest)
  {
    var t := "&gt;" + rest;
    assert t[1] == 'g' && "&gt;" <= t && t[4..] == rest;
  }

  lemma UnescapeQuot(rest: string)
    ensures Unescape("&quot;" + rest) == "\"" + Unescape(rest)
  {
    var t := "&quot;" + rest;
    assert t[1] == 'q' && "&quot;" <= t && t[6..] == rest;
  }

  lemma UnescapeApos(rest: string)
    ensures Unescape("&#39;" + rest) == "'" + Unescape(rest)
  {
    var t := "&#39;" + rest;
    assert t[1] == '#' && "&#39;" <= t && t[5..] == rest;
  }

  lemma UnescapePlain(c: char, rest: string)
    requires c != '&'
    ensures Unescape([c] + rest) == [c] + Unescape(rest)
  {
    var t := [c] + rest;
    assert t[0] == c && t[1..] == rest;
  }

  /** Decoding recovers the original text. */
  lemma {:induction false} UnescapeEscape(s: string)
    ensures Unescape(EscapeHtml(s)) == s
    decreases |s|
  {
    if s != [] {
      EscapePerChar(s);
      UnescapeStep(s[0], EscapeHtml(s[1..]));
      UnescapeEscape(s[1..]);
      assert s == [s[0]] + s[1..];
    }
  }

  /** A table cell as it reaches the report: text, a number, null or undefined. */
  datatype Cell = Text(s: string) | Number(n: int) | Null | Undefined

  /** `cell === null || cell === undefined ? '' : String(cell)`. */
  function CellText(c: Cell): string
  {
    match c
    case Text(s) => s
    case Number(n) => IntToString(n)
    case Null => ""
    case Undefined => ""
  }

  datatype Section = Section(title: string, columns: seq<string>, rows: seq<seq<Cell>>)

  function Th(heading: string): string { "<th>" + EscapeHtml(heading) + "</th>" }

  function Td(c: Cell): string { "<td>" + EscapeHtml(CellText(c)) + "</td>" }

  function HeaderRow(columns: seq<string>): string
  {
    if columns == [] then "" else Th(columns[0]) + HeaderRow(columns[1..])
  }

  function RowCells(row: seq<Cell>): string
  {
    if row == [] then "" else Td(row[0]) + RowCells(row[1..])
  }

  function Tr(row: seq<Cell>): string { "<tr>" + RowCells(row) + "</tr>" }

  function BodyRows(rows: seq<seq<Cell>>): string
  {
    if rows == [] then "" else Tr(rows[0]) + BodyRows(rows[1..])
  }

  const SectionOpen := "\n        " + "<section>" + "\n          " + "<h2>"
  const SectionHead := "</h2>" + "\n          " + "<table>" + "\n            " + "<thead><tr>"
  const SectionBody := "</tr></thead>" + "\n            " + "<tbody>"
  const SectionClose := "</tbody>" + "\n          " + "</table>" + "\n        " + "</section>" + "\n      "

  function SectionHtml(sec: Section): string
  {
    SectionOpen + EscapeHtml(sec.title) + SectionHead + HeaderRow(sec.columns)
      + SectionBody + BodyRows(sec.rows) + SectionClose
  }

  function SectionsHtml(sections: seq<Section>): string
  {
    if sections == [] then "" else SectionHtml(sections[0]) + SectionsHtml(sections[1..])
  }

  const DocOpen := "\n    " + "<html>" + "\n      " + "<head>" + "\n        "
    + "<meta charset=\"utf-8\" />" + "\n        " + "<title>"
  /** The page's fixed style sheet; it holds no `<`. */
  const Stylesheet := "          body { font-family: Arial, sans-serif; margin: 24px; color: #1c1917; }\n"
    + "          h1 { font-size: 20px; margin-bottom: 16px; }\n"
    + "          h2 { font-size: 16px; margin: 24px 0 8px; }\n"
    + "          table { border-collapse: collapse; width: 100%; }\n"
    + "          th, td { border: 1px solid #e7e5e4; padding: 6px 8px; text-align: left; font-size: 12px; }\n"
    + "          th { background: #f5f5f4; font-weight: 700; }\n"
    + "          tr:nth-child(even) td { background: #fafaf9; }\n"
  const DocStyle := "</title>" + "\n        " + "<style>" + "\n" + Stylesheet + "        " + "</style>"
    + "\n      " + "</head>" + "\n      " + "<body>" + "\n        " + "<h1>"
  const DocBody := "</h1>" + "\n        "
  const DocClose := "\n      " + "</body>" + "\n    " + "</html>" + "\n  "

  function BuildHtml(title: string, sections: seq<Section>): string
  {
    DocOpen + EscapeHtml(title) + DocStyle + EscapeHtml(title) + DocBody
      + SectionsHtml(sections) + DocClose
  }

  // ---- Markup accounting: how many `<` the shape of the report produces ----

  /** Number of `<` characters, each of which opens a tag. */
  function Tags(s: string): nat { Count(s, '<') }

  /** `<tr>`, `</tr>` and a `<td>`/`</td>` pair per cell. */
  function RowTags(row: seq<Cell>): nat { 2 + 2 * |row| }

  function RowsTags(rows: seq<seq<Cell>>): nat
  {
    if rows == [] then 0 else RowTags(rows[0]) + RowsTags(rows[1..])
  }

  /** The tags written by the section template itself. */
  function SectionFrameTags(): nat
  {
    Tags(SectionOpen) + Tags(SectionHead) + Tags(SectionBody) + Tags(SectionClose)
  }

  /** The section template's tags, a `<th>`/`</th>` pair per column, and the rows. */
  function SectionTags(sec: Section): nat
  {
    SectionFrameTags() + 2 * |sec.columns| + RowsTags(sec.rows)
  }

  /** The tags written by the page template itself. */
  function PageFrameTags(): nat
  {
    Tags(DocOpen) + Tags(DocStyle) + Tags(DocBody) + Tags(DocClose)
  }

  function SectionsTags(sections: seq<Section>): nat
  {
    if sections == [] then 0 else SectionTags(sections[0]) + SectionsTags(sections[1..])
  }

  lemma {:induction false} CountMultiset(s: string, c: char)
    ensures Count(s, c) == multiset(s)[c]
  {
    if s != [] {
      CountMultiset(s[..|s| - 1], c);
      assert s == s[..|s| - 1] + [s[|s| - 1]];
    }
  }

  /** `Tags(a + x + b)` for short literal delimiters `a` and `b` around `x`. */
  lemma Wrapped(a: string, x: string, b: string)
    ensures Tags(a + x + b) == multiset(a)['<'] + Tags(x) + multiset(b)['<']
  {
    CountAppend(a + x, b, '<');
    CountAppend(a, x, '<');
    CountMultiset(a, '<');
    CountMultiset(b, '<');
  }

  lemma Count4(a: string, b: string, c: string, d: string)
    ensures Tags(a + b + c + d) == Tags(a) + Tags(b) + Tags(c) + Tags(d)
  {
    CountAppend(a, b, '<');
    CountAppend(a + b, c, '<');
    CountAppend(a + b + c, d, '<');
  }

  /** Escaped text contributes no `<`. */
  lemma EscapedNoTag(s: string)
    ensures Tags(EscapeHtml(s)) == 0
  {
    EscapeMarkupFree(s);
    CountZero(EscapeHtml(s), '<');
  }

  /** One `<th>` pair per column. */
  lemma {:induction false} HeaderRowTags(columns: seq<string>)
    ensures Tags(HeaderRow(columns)) == 2 * |columns|
  {
    if columns != [] {
      EscapedNoTag(columns[0]);
      Wrapped("<th>", EscapeHtml(columns[0]), "</th>");
      HeaderRowTags(columns[1..]);
      CountAppend(Th(columns[0]), HeaderRow(columns[1..]), '<');
    }
  }

  /** One `<td>` pair per cell. */
  lemma {:induction false} RowCellsTags(row: seq<Cell>)
    ensures Tags(RowCells(row)) == 2 * |row|
  {
    if row != [] {
      EscapedNoTag(CellText(row[0]));
      Wrapped("<td>", EscapeHtml(CellText(row[0])), "</td>");
      RowCellsTags(row[1..]);
      CountAppend(Td(row[0]), RowCells(row[1..]), '<');
    }
  }

  /** One `<tr>` pair per row, around its cells. */
  lemma {:induction false} BodyRowsTags(rows: seq<seq<Cell>>)
    ensures Tags(BodyRows(rows)) == RowsTags(rows)
  {
    if rows != [] {
      RowCellsTags(rows[0]);
      Wrapped("<tr>", RowCells(rows[0]), "</tr>");
      BodyRowsTags(rows[1..]);
      CountAppend(Tr(rows[0]), BodyRows(rows[1..]), '<');
    }
  }

  lemma SectionHtmlTags(sec: Section)
    ensures Tags(SectionHtml(sec)) == SectionTags(sec)
  {
    var t, h, b := EscapeHtml(sec.title), HeaderRow(sec.columns), BodyRows(sec.rows);
    EscapedNoTag(sec.title);
    HeaderRowTags(sec.columns);
    BodyRowsTags(sec.rows);
    Count4(SectionOpen, t, SectionHead, h);
    Count4(SectionOpen + t + SectionHead + h, SectionBody, b, SectionClose);
  }

  lemma {:induction false} SectionsHtmlTags(sections: seq<Section>)
    ensures Tags(SectionsHtml(sections)) == SectionsTags(sections)
  {
    if sections != [] {
      SectionHtmlTags(sections[0]);
      SectionsHtmlTags(sections[1..]);
      CountAppend(SectionHtml(sections[0]), SectionsHtml(sections[1..]), '<');
    }
  }

  /** The report's markup is fixed by its shape: the page template's tags,
      then per section the section template's tags, a pair per column, a pair
      per row and a pair per cell. Titles, labels and cell values never add a
      tag, whatever they contain. */
  lemma BuildHtmlTags(title: string, sections: seq<Section>)
    ensures Tags(BuildHtml(title, sections)) == PageFrameTags() + SectionsTags(sections)
  {
    var t, b := EscapeHtml(title), SectionsHtml(sections);
    EscapedNoTag(title);
    SectionsHtmlTags(sections);
    Count4(DocOpen, t, DocStyle, t);
    Count4(DocOpen + t + DocStyle + t, DocBody, b, DocClose);
  }

  /** A null or undefined cell renders as an empty data cell. */
  lemma EmptyCells()
    ensures Td(Null) == "<td></td>" && Td(Undefined) == "<td></td>"
  {
    EscapeClean("");
  }

  /** The cell text can be read back from the escaped cell. */
  lemma CellRecoverable(c: Cell)
    ensures Unescape(Td(c)[4..|Td(c)| - 5]) == CellText(c)
  {
    var e := EscapeHtml(CellText(c));
    assert Td(c)[4..|Td(c)| - 5] == e;
    UnescapeEscape(CellText(c));
  }
}
