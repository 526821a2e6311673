/** Product-catalogue import and export helpers of the configuration screen:
    SKU normalisation, the quoted CSV/TSV reader and the quoting of exported
    cells, boolean cells, the import delimiter and the quick green-bean
    stock adjustment. */
module CatalogImport {
  import opened Common

  // ---- Letter case (ASCII letters only) ----

  function UpperChar(c: char): char { if 'a' <= c <= 'z' then (c as int - 32) as char else c }

  function LowerChar(c: char): char { if 'A' <= c <= 'Z' then (c as int + 32) as char else c }

  /** `toUpperCase()`, on ASCII letters. */
  function ToUpper(s: string): string { seq(|s|, i requires 0 <= i < |s| => UpperChar(s[i])) }

  /** `toLowerCase()`, on ASCII letters. */
  function ToLower(s: string): string { seq(|s|, i requires 0 <= i < |s| => LowerChar(s[i])) }

  // ---- SKU normalisation ----

  predicate SkuChar(c: char) { 'A' <= c <= 'Z' || '0' <= c <= '9' || c == '-' }

  predicate IsSku(s: string) { forall i :: 0 <= i < |s| ==> SkuChar(s[i]) }

  /** `replace(/[^A-Z0-9-]/g, '')`. */
  function KeepSkuChars(s: string): string
  {
    if s == [] then [] else (if SkuChar(s[0]) then [s[0]] else []) + KeepSkuChars(s[1..])
  }

  /** `normalizeSku`: trim, upper-case, then delete every character that is not
      an upper-case letter, a digit or a hyphen. */
  function NormalizeSku(value: string): string { KeepSkuChars(ToUpper(Trim(value))) }

  lemma {:induction false} KeepSkuCharsIsSku(s: string)
    ensures IsSku(KeepSkuChars(s))
  {
    if s != [] {
      KeepSkuCharsIsSku(s[1..]);
    }
  }

  lemma {:induction false} KeepSkuCharsOfSku(s: string)
    requires IsSku(s)
    ensures KeepSkuChars(s) == s
  {
    if s != [] {
      KeepSkuCharsOfSku(s[1..]);
      assert s == [s[0]] + s[1..];
    }
  }

  /** A normalised SKU holds only `A`–`Z`, `0`–`9` and `-`. */
  lemma NormalizeSkuChars(value: string)
    ensures IsSku(NormalizeSku(value))
  {
    KeepSkuCharsIsSku(ToUpper(Trim(value)));
  }

  /** Normalising twice is normalising once. */
  lemma NormalizeSkuIdempotent(value: string)
    ensures NormalizeSku(NormalizeSku(value)) == NormalizeSku(value)
  {
    var n := NormalizeSku(value);
    NormalizeSkuChars(value);
    if n != [] {
      TrimUnchanged(n);
    }
    assert ToUpper(n) == n;
    KeepSkuCharsOfSku(n);
  }

  // ---- The quoted reader ----

  /** The loop variables of `parseDelimited`. */
  datatype ScanState = ScanState(rows: seq<seq<string>>, row: seq<string>, current: string, inQuotes: bool)

  const Start := ScanState([], [], "", false)

  /** What the character loop does with the text still to be read. A `"` that
      follows another inside quotes is a literal quote; any other `"` toggles
      quoted mode. `\r` is skipped everywhere. Outside quotes `\n` closes the
      row and the delimiter closes the field. Every other character is kept. */
  function Scan(s: string, delimiter: char, st: ScanState): ScanState
    decreases |s|
  {
    if s == [] then st
    else if s[0] == '"' then
      if st.inQuotes && |s| > 1 && s[1] == '"' then Scan(s[2..], delimiter, st.(current := st.current + "\""))
      else Scan(s[1..], delimiter, st.(inQuotes := !st.inQuotes))
    else if s[0] == '\r' then Scan(s[1..], delimiter, st)
    else if s[0] == '\n' && !st.inQuotes then
      Scan(s[1..], delimiter, ScanState(st.rows + [st.row + [st.current]], [], "", st.inQuotes))
    else if s[0] == delimiter && !st.inQuotes then
      Scan(s[1..], delimiter, st.(row := st.row + [st.current], current := ""))
    else Scan(s[1..], delimiter, st.(current := st.current + [s[0]]))
  }

  /** The last field and row are always flushed. */
  function Flush(st: ScanState): seq<seq<string>> { st.rows + [st.row + [st.current]] }

  /** Every cell is empty after trimming. */
  predicate Blank(row: seq<string>) { forall k :: 0 <= k < |row| ==> Trim(row[k]) == "" }

  /** `rows.filter(r => r.some(cell => cell.trim() !== ''))`. */
  function DropBlank(rows: seq<seq<string>>): (r: seq<seq<string>>)
    ensures |r| <= |rows|
    ensures forall k :: 0 <= k < |r| ==> !Blank(r[k]) && r[k] in rows
  {
    if rows == [] then [] else (if Blank(rows[0]) then [] else [rows[0]]) + DropBlank(rows[1..])
  }

  /** The rows `parseDelimited` returns. */
  function Parse(text: string, delimiter: char): seq<seq<string>>
  {
    DropBlank(Flush(Scan(text, delimiter, Start)))
  }

  /** `parseDelimited`: one pass over the text with an index, then the flush and the filter. */
  method ParseDelimited(text: string, delimiter: char) returns (result: seq<seq<string>>)
    ensures result == Parse(text, delimiter)
  {
    var rows: seq<seq<string>> := [];
    var row: seq<string> := [];
    var current: string := "";
    var inQuotes := false;
    var i := 0;
    while i < |text|
      invariant 0 <= i <= |text|
      invariant Scan(text[i..], delimiter, ScanState(rows, row, current, inQuotes)) == Scan(text, delimiter, Start)
      decreases |text| - i
    {
      var ch := text[i];
      assert text[i..][0] == ch && text[i..][1..] == text[i + 1..];
      if ch == '"' {
        if inQuotes && i + 1 < |text| && text[i + 1] == '"' {
          assert text[i..][2..] == text[i + 2..];
          current := current + "\"";
          i := i + 1;
        } else {
          inQuotes := !inQuotes;
        }
      } else if ch == '\r' {
      } else if ch == '\n' && !inQuotes {
        row := row + [current];
        rows := rows + [row];
        row := [];
        current := "";
      } else if ch == delimiter && !inQuotes {
        row := row + [current];
        current := "";
      } else {
        current := current + [ch];
      }
      i := i + 1;
    }
    row := row + [current];
    rows := rows + [row];
    result := DropBlank(rows);
  }

  /** No row that the reader returns is blank, and no cell holds a `\r`. */
  lemma ParseCells(text: string, delimiter: char)
    ensures forall k :: 0 <= k < |Parse(text, delimiter)| ==> !Blank(Parse(text, delimiter)[k])
    ensures forall k, j :: 0 <= k < |Parse(text, delimiter)| && 0 <= j < |Parse(text, delimiter)[k]| ==>
      '\r' !in Parse(text, delimiter)[k][j]
  {
    ScanCrFree(text, delimiter, Start);
  }

  predicate CrFreeRow(row: seq<string>) { forall j :: 0 <= j < |row| ==> '\r' !in row[j] }

  predicate CrFree(st: ScanState)
  {
    (forall k :: 0 <= k < |st.rows| ==> CrFreeRow(st.rows[k])) && CrFreeRow(st.row) && '\r' !in st.current
  }

  lemma {:induction false} ScanCrFree(s: string, delimiter: char, st: ScanState)
    requires CrFree(st)
    ensures CrFree(Scan(s, delimiter, st))
    ensures forall r :: r in Flush(Scan(s, delimiter, st)) ==> CrFreeRow(r)
    decreases |s|
  {
    if s == [] {
    } else if s[0] == '"' {
      if st.inQuotes && |s| > 1 && s[1] == '"' {
        ScanCrFree(s[2..], delimiter, st.(current := st.current + "\""));
      } else {
        ScanCrFree(s[1..], delimiter, st.(inQuotes := !st.inQuotes));
      }
    } else if s[0] == '\r' {
      ScanCrFree(s[1..], delimiter, st);
    } else if s[0] == '\n' && !st.inQuotes {
      ScanCrFree(s[1..], delimiter, ScanState(st.rows + [st.row + [st.current]], [], "", st.inQuotes));
    } else if s[0] == delimiter && !st.inQuotes {
      ScanCrFree(s[1..], delimiter, st.(row := st.row + [st.current], current := ""));
    } else {
      ScanCrFree(s[1..], delimiter, st.(current := st.current + [s[0]]));
    }
  }

  // ---- Export and the round trip ----

  /** `escapeCsvValue`: the value in double quotes with every embedded quote doubled. */
  function EscapeCsvValue(value: string): string { "\"" + Replace(value, '"', "\"\"") + "\"" }

  function EscapeRow(row: seq<string>): seq<string>
  {
    seq(|row|, k requires 0 <= k < |row| => EscapeCsvValue(row[k]))
  }

  /** One exported line: the quoted cells joined with the delimiter. */
  function QuotedLine(row: seq<string>, delimiter: char): string { Join(EscapeRow(row), [delimiter]) }

  function QuotedLines(rows: seq<seq<string>>, delimiter: char): seq<string>
  {
    seq(|rows|, k requires 0 <= k < |rows| => QuotedLine(rows[k], delimiter))
  }

  /** The CSV export: quoted cells joined with `,`, rows joined with `\n`. */
  function CsvText(rows: seq<seq<string>>): string { Join(QuotedLines(rows, ','), "\n") }

  predicate NoCr(rows: seq<seq<string>>) { forall k :: 0 <= k < |rows| ==> CrFreeRow(rows[k]) }

  predicate NonEmptyRows(rows: seq<seq<string>>) { forall k :: 0 <= k < |rows| ==> |rows[k]| >= 1 }

  /** A usable delimiter: not a quote and not a line-break character. */
  predicate PlainDelimiter(d: char) { d != '"' && d != '\r' && d != '\n' }

  // One step of the reader on a known first character.

  lemma ScanKeep(c: char, t: string, d: char, st: ScanState)
    requires c != '"' && c != '\r' && (st.inQuotes || (c != '\n' && c != d))
    ensures Scan([c] + t, d, st) == Scan(t, d, st.(current := st.current + [c]))
  {
    assert ([c] + t)[0] == c && ([c] + t)[1..] == t;
  }

  lemma ScanDelimiter(t: string, d: char, st: ScanState)
    requires PlainDelimiter(d) && !st.inQuotes
    ensures Scan([d] + t, d, st) == Scan(t, d, st.(row := st.row + [st.current], current := ""))
  {
    assert ([d] + t)[0] == d && ([d] + t)[1..] == t;
  }

  lemma ScanNewline(t: string, d: char, st: ScanState)
    requires !st.inQuotes
    ensures Scan("\n" + t, d, st) == Scan(t, d, ScanState(st.rows + [st.row + [st.current]], [], "", false))
  {
    assert ("\n" + t)[0] == '\n' && ("\n" + t)[1..] == t;
  }

  lemma ScanToggle(t: string, d: char, st: ScanState)
    requires !st.inQuotes || t == [] || t[0] != '"'
    ensures Scan("\"" + t, d, st) == Scan(t, d, st.(inQuotes := !st.inQuotes))
  {
    assert ("\"" + t)[0] == '"' && ("\"" + t)[1..] == t;
  }

  lemma ScanQuotePair(t: string, d: char, st: ScanState)
    requires st.inQuotes
    ensures Scan("\"\"" + t, d, st) == Scan(t, d, st.(current := st.current + "\""))
  {
    assert ("\"\"" + t)[0] == '"' && ("\"\"" + t)[1] == '"' && ("\"\"" + t)[2..] == t;
  }

  /** What the export writes for one character of a value. */
  function QuotedChar(c: char): string { if c == '"' then "\"\"" else [c] }

  /** Inside quotes, the export's form of one character adds that character to the field. */
  lemma QuotedStep(c: char, t: string, d: char, st: ScanState)
    requires st.inQuotes && c != '\r'
    ensures Scan(QuotedChar(c) + t, d, st) == Scan(t, d, st.(current := st.current + [c]))
  {
    if c == '"' {
      ScanQuotePair(t, d, st);
    } else {
      ScanKeep(c, t, d, st);
    }
  }

  lemma ReplaceQuotes(v: string, rest: string)
    requires v != []
    ensures Replace(v, '"', "\"\"") + "\"" + rest == QuotedChar(v[0]) + (Replace(v[1..], '"', "\"\"") + "\"" + rest)
  {
  }

  /** Inside quotes, the doubled body of a value and the closing quote add the
      value to the current field and leave quoted mode. */
  lemma {:induction false} QuotedBody(v: string, rest: string, d: char, st: ScanState)
    requires st.inQuotes && '\r' !in v
    requires rest == [] || rest[0] != '"'
    ensures Scan(Replace(v, '"', "\"\"") + "\"" + rest, d, st)
         == Scan(rest, d, st.(current := st.current + v, inQuotes := false))
    decreases |v|
  {
    if v == [] {
      ScanToggle(rest, d, st);
      assert st.current + v == st.current;
    } else {
      ReplaceQuotes(v, rest);
      assert v[0] in v;
      QuotedStep(v[0], Replace(v[1..], '"', "\"\"") + "\"" + rest, d, st);
      assert '\r' !in v[1..];
      var st1 := st.(current := st.current + [v[0]]);
      QuotedBody(v[1..], rest, d, st1);
      assert st1.current + v[1..] == st.current + v;
    }
  }

  /** A quoted cell adds its value to the current field. */
  lemma CellScan(v: string, rest: string, d: char, st: ScanState)
    requires !st.inQuotes && '\r' !in v
    requires rest == [] || rest[0] != '"'
    ensures Scan(EscapeCsvValue(v) + rest, d, st) == Scan(rest, d, st.(current := st.current + v))
  {
    var r := Replace(v, '"', "\"\"");
    assert EscapeCsvValue(v) + rest == "\"" + (r + "\"" + rest);
    ScanToggle(r + "\"" + rest, d, st);
    QuotedBody(v, rest, d, st.(inQuotes := true));
  }

  /** A quoted cell followed by the delimiter closes that cell. */
  lemma FieldScan(v: string, t: string, d: char, st: ScanState)
    requires PlainDelimiter(d) && st.current == "" && !st.inQuotes && '\r' !in v
    ensures Scan(EscapeCsvValue(v) + ([d] + t), d, st) == Scan(t, d, st.(row := st.row + [v]))
  {
    CellScan(v, [d] + t, d, st);
    assert "" + v == v;
    ScanDelimiter(t, d, st.(current := v));
  }

  lemma QuotedLineCons(cells: seq<string>, d: char, rest: string)
    requires |cells| >= 2
    ensures QuotedLine(cells, d) + rest == EscapeCsvValue(cells[0]) + ([d] + (QuotedLine(cells[1..], d) + rest))
  {
    assert EscapeRow(cells)[1..] == EscapeRow(cells[1..]);
  }

  /** A quoted line fills the row with all cells but the last, which stays the current field. */
  lemma {:induction false} LineScan(cells: seq<string>, rest: string, d: char, st: ScanState)
    requires |cells| >= 1 && CrFreeRow(cells) && PlainDelimiter(d)
    requires st.current == "" && !st.inQuotes
    requires rest == [] || rest[0] == '\n'
    ensures Scan(QuotedLine(cells, d) + rest, d, st)
         == Scan(rest, d, st.(row := st.row + cells[..|cells| - 1], current := cells[|cells| - 1]))
    decreases |cells|
  {
    if |cells| == 1 {
      assert QuotedLine(cells, d) == EscapeCsvValue(cells[0]);
      CellScan(cells[0], rest, d, st);
      assert st.row + cells[..0] == st.row;
      assert "" + cells[0] == cells[0];
    } else {
      QuotedLineCons(cells, d, rest);
      assert '\r' !in cells[0];
      FieldScan(cells[0], QuotedLine(cells[1..], d) + rest, d, st);
      var st2 := st.(row := st.row + [cells[0]]);
      assert CrFreeRow(cells[1..]);
      LineScan(cells[1..], rest, d, st2);
      assert st.row + [cells[0]] + cells[1..][..|cells| - 2] == st.row + cells[..|cells| - 1];
    }
  }

  /** Quoted lines joined with `\n` are read back as exactly those rows. */
  lemma {:induction false} TextScan(rows: seq<seq<string>>, acc: seq<seq<string>>, d: char)
    requires |rows| >= 1 && NonEmptyRows(rows) && NoCr(rows) && PlainDelimiter(d)
    ensures Flush(Scan(Join(QuotedLines(rows, d), "\n"), d, ScanState(acc, [], "", false))) == acc + rows
    decreases |rows|
  {
    var st := ScanState(acc, [], "", false);
    var lines := QuotedLines(rows, d);
    var r0 := rows[0];
    var n := |r0|;
    assert r0[..n - 1] + [r0[n - 1]] == r0;
    if |rows| == 1 {
      assert Join(lines, "\n") == QuotedLine(r0, d);
      LineScan(r0, [], d, st);
      assert QuotedLine(r0, d) + [] == QuotedLine(r0, d);
      assert [] + r0[..n - 1] + [r0[n - 1]] == r0;
    } else {
      assert lines[1..] == QuotedLines(rows[1..], d);
      var more := Join(QuotedLines(rows[1..], d), "\n");
      var after := "\n" + more;
      assert Join(lines, "\n") == QuotedLine(r0, d) + after;
      LineScan(r0, after, d, st);
      ScanNewline(more, d, st.(row := r0[..n - 1], current := r0[n - 1]));
      assert ScanState(acc + [[] + r0[..n - 1] + [r0[n - 1]]], [], "", false) == ScanState(acc + [r0], [], "", false);
      assert NoCr(rows[1..]) && NonEmptyRows(rows[1..]);
      TextScan(rows[1..], acc + [r0], d);
      assert acc + [r0] + rows[1..] == acc + rows;
    }
  }

  /** Exported rows that contain no `\r` are read back as the same rows, less
      the blank ones, whatever quotes, delimiters or line breaks their cells hold. */
  lemma QuotedRoundTrip(rows: seq<seq<string>>, d: char)
    requires |rows| >= 1 && NonEmptyRows(rows) && NoCr(rows) && PlainDelimiter(d)
    ensures Parse(Join(QuotedLines(rows, d), "\n"), d) == DropBlank(rows)
  {
    TextScan(rows, [], d);
    assert [] + rows == rows;
  }

  /** The CSV export read back with `,`. */
  lemma CsvRoundTrip(rows: seq<seq<string>>)
    requires |rows| >= 1 && NonEmptyRows(rows) && NoCr(rows)
    ensures Parse(CsvText(rows), ',') == DropBlank(rows)
  {
    QuotedRoundTrip(rows, ',');
  }

  /** One exported row that is not blank is read back as exactly that row. */
  lemma CsvRowRoundTrip(row: seq<string>)
    requires |row| >= 1 && CrFreeRow(row) && !Blank(row)
    ensures Parse(QuotedLine(row, ','), ',') == [row]
  {
    QuotedRoundTrip([row], ',');
    assert QuotedLines([row], ',') == [QuotedLine(row, ',')];
  }

  // ---- Booleans and the import delimiter ----

  /** `parseBoolean`. */
  function ParseBoolean(value: string): bool
  {
    var v := ToLower(Trim(value));
    v == "true" || v == "1" || v == "yes" || v == "y"
  }

  lemma UpperKeepsWhitespace(c: char)
    ensures IsJsWhitespace(UpperChar(c)) == IsJsWhitespace(c)
  {
  }

  lemma {:induction false} TrimStartUpper(s: string)
    ensures TrimStart(ToUpper(s)) == ToUpper(TrimStart(s))
  {
    if s != [] {
      var u := ToUpper(s);
      assert u[0] == UpperChar(s[0]) && u[1..] == ToUpper(s[1..]);
      UpperKeepsWhitespace(s[0]);
      if IsJsWhitespace(s[0]) {
        TrimStartUpper(s[1..]);
      }
    }
  }

  lemma {:induction false} TrimEndUpper(s: string)
    ensures TrimEnd(ToUpper(s)) == ToUpper(TrimEnd(s))
  {
    if s != [] {
      var u := ToUpper(s);
      assert u[|s| - 1] == UpperChar(s[|s| - 1]) && u[..|s| - 1] == ToUpper(s[..|s| - 1]);
      UpperKeepsWhitespace(s[|s| - 1]);
      if IsJsWhitespace(s[|s| - 1]) {
        TrimEndUpper(s[..|s| - 1]);
      }
    }
  }

  /** Letter case does not matter: an upper-cased value parses as the value does. */
  lemma ParseBooleanCase(value: string)
    ensures ParseBoolean(ToUpper(value)) == ParseBoolean(value)
  {
    TrimStartUpper(value);
    TrimEndUpper(TrimStart(value));
    LowerOfUpper(Trim(value));
  }

  lemma LowerOfUpper(t: string)
    ensures ToLower(ToUpper(t)) == ToLower(t)
  {
    forall i | 0 <= i < |t|
      ensures ToLower(ToUpper(t))[i] == ToLower(t)[i]
    {
      LowerUpperChar(t[i]);
    }
  }

  lemma LowerUpperChar(c: char)
    ensures LowerChar(UpperChar(c)) == LowerChar(c)
  {
  }

  /** `text.split(/\r?\n/)[0]`: the text up to the first line feed, less a `\r` just before it. */
  function FirstLine(text: string): string
  {
    var line := text[..IndexOf(text, '\n')];
    if line != [] && line[|line| - 1] == '\r' then line[..|line| - 1] else line
  }

  /** The delimiter chosen in `handleImportCatalog`. */
  function ImportDelimiter(text: string): char
  {
    var first := FirstLine(text);
    if |Split(first, '\t')| > |Split(first, ',')| then '\t' else ','
  }

  /** Tab is chosen exactly when the first line has more tabs than commas. */
  lemma ImportDelimiterTabs(text: string)
    ensures ImportDelimiter(text) == '\t' <==> Count(FirstLine(text), '\t') > Count(FirstLine(text), ',')
    ensures ImportDelimiter(text) == '\t' || ImportDelimiter(text) == ','
  {
    SplitJoin(FirstLine(text), '\t');
    SplitJoin(FirstLine(text), ',');
  }

  // ---- Quick green-bean adjustment ----

  datatype Mode = In | Out

  datatype Adjustment = InvalidNumber | InsufficientStock | Adjusted(next: real, quantityIn: real, quantityOut: real)

  /** `toNumber(value)`: the number, or the fallback 0 when it is not finite. */
  function ToNumberOrZero(s: string): real
  {
    match ToNumber(s)
    case Num(v) => v
    case NaN => 0.0
  }

  /** `handleQuickAdjustment`: the new quantity and the logged movement, or the rejection. */
  function QuickAdjustment(current: real, quantity: string, mode: Mode): Adjustment
  {
    var qty := ToNumberOrZero(quantity);
    if qty <= 0.0 then InvalidNumber
    else
      var next := if mode == In then current + qty else current - qty;
      if next < 0.0 then InsufficientStock
      else Adjusted(next, if mode == In then qty else 0.0, if mode == Out then qty else 0.0)
  }

  /** A non-positive or unreadable quantity is rejected; otherwise the change is
      rejected exactly when it would leave the bean negative. An accepted change
      moves the quantity by the logged amount in one direction only, and leaves
      it non-negative. */
  lemma QuickAdjustmentRules(current: real, quantity: string, mode: Mode)
    ensures QuickAdjustment(current, quantity, mode) == InvalidNumber <==> ToNumberOrZero(quantity) <= 0.0
    ensures QuickAdjustment(current, quantity, mode) == InsufficientStock <==>
      ToNumberOrZero(quantity) > 0.0
      && (if mode == In then current + ToNumberOrZero(quantity) < 0.0 else current < ToNumberOrZero(quantity))
    ensures QuickAdjustment(current, quantity, mode).Adjusted? ==>
      var a := QuickAdjustment(current, quantity, mode);
      a.next >= 0.0 && a.next == current + a.quantityIn - a.quantityOut
      && (if mode == In then a.quantityIn > 0.0 && a.quantityOut == 0.0 else a.quantityOut > 0.0 && a.quantityIn == 0.0)
  {
  }

  /** With a non-negative stock an intake is always accepted; a withdrawal is
      accepted exactly when it does not exceed the stock. */
  lemma QuickAdjustmentStock(current: real, quantity: string)
    requires current >= 0.0 && ToNumberOrZero(quantity) > 0.0
    ensures QuickAdjustment(current, quantity, In).Adjusted?
    ensures QuickAdjustment(current, quantity, Out).Adjusted? <==> ToNumberOrZero(quantity) <= current
  {
  }
}
