/** The pure helpers of the thermal receipt layout engine
    (thermal_printer/receipt_printer.py): the paper-width table, the Arabic
    script detector and shaper, the justified and centered line formatters,
    Python's fixed-point amount formatting and the item-table rows.

    Display width is the number of code points, which is what Python's `len`
    measures. Amounts are integer cents. */
module ReceiptLayout {
  import opened Common

  /** `WIDTH_CONFIG.get(paper_width, 48)`: 32 columns for 58 mm paper, 48 otherwise. */
  function WidthFor(paperWidth: string): (w: nat)
    ensures w == 32 || w == 48
    ensures w == 32 <==> paperWidth == "58mm"
  {
    if paperWidth == "58mm" then 32 else 48
  }

  // ---------------------------------------------------------------------------
  // Script shaper
  // ---------------------------------------------------------------------------

  /** A code point of the Unicode Arabic block U+0600..U+06FF. */
  predicate InArabicBlock(c: char)
  {
    '\U{0600}' <= c <= '\U{06FF}'
  }

  /** `_is_arabic`: the text contains at least one code point of the Arabic block. */
  predicate IsArabic(text: string)
  {
    exists i :: 0 <= i < |text| && InArabicBlock(text[i])
  }

  /** The optional shaping capability: whether the reshaper and bidi
      libraries could be imported, and the two library functions
      (`arabic_reshaper.reshape`, `bidi.algorithm.get_display`), which this
      model treats as opaque. */
  datatype RtlLibrary = RtlLibrary(available: bool, reshape: string -> string, getDisplay: string -> string)

  /** `text[::-1]`. */
  function Reverse(s: string): string
  {
    seq(|s|, i requires 0 <= i < |s| => s[|s| - 1 - i])
  }

  /** The fallback reversal is an involution. */
  lemma ReverseInvolutive(s: string)
    ensures Reverse(Reverse(s)) == s
  {
    var r := Reverse(Reverse(s));
    assert forall i :: 0 <= i < |s| ==> r[i] == s[i];
  }

  /** `_reshape_rtl`. */
  function ReshapeRtl(rtlSupport: bool, lib: RtlLibrary, text: string): string
  {
    if rtlSupport && IsArabic(text) then
      if lib.available then lib.getDisplay(lib.reshape(text)) else Reverse(text)
    else text
  }

  /** Without the libraries, shaping keeps the length and undoes itself:
      reversal keeps the set of code points, so reversed Arabic text is still
      Arabic and is reversed back. */
  lemma {:induction false} FallbackShapingInvolutive(rtlSupport: bool, lib: RtlLibrary, text: string)
    requires !lib.available
    ensures |ReshapeRtl(rtlSupport, lib, text)| == |text|
    ensures ReshapeRtl(rtlSupport, lib, ReshapeRtl(rtlSupport, lib, text)) == text
  {
    if rtlSupport && IsArabic(text) {
      var r := Reverse(text);
      var i :| 0 <= i < |text| && InArabicBlock(text[i]);
      assert InArabicBlock(r[|text| - 1 - i]);
      assert IsArabic(r);
      ReverseInvolutive(text);
    }
  }

  // ---------------------------------------------------------------------------
  // Column layout
  // ---------------------------------------------------------------------------

  function Spaces(n: nat): string { Repeat(' ', n) }

  predicate AllSpaces(s: string) { forall i :: 0 <= i < |s| ==> s[i] == ' ' }

  lemma SpacesAreSpaces(n: nat)
    ensures |Spaces(n)| == n && AllSpaces(Spaces(n))
  {
    RepeatChars(' ', n);
  }

  /** `_format_line`: the shaped left text, spaces, the right text. */
  function FormatLine(width: nat, rtlSupport: bool, lib: RtlLibrary, left: string, right: string): string
  {
    var l := ReshapeRtl(rtlSupport, lib, left);
    l + Spaces(Max(0, width - |l| - |right|)) + right
  }

  /** A formatted line starts with the shaped left text and ends with the right
      text, with only spaces between; it is exactly `width` long when both fit,
      and when they do not the padding is clamped at zero and the line overflows. */
  lemma FormatLineShape(width: nat, rtlSupport: bool, lib: RtlLibrary, left: string, right: string)
    ensures var r := FormatLine(width, rtlSupport, lib, left, right);
      var l := ReshapeRtl(rtlSupport, lib, left);
      && |r| == Max(width, |l| + |right|)
      && r[..|l|] == l
      && r[|r| - |right|..] == right
      && AllSpaces(r[|l|..|r| - |right|])
  {
    var l := ReshapeRtl(rtlSupport, lib, left);
    var r := FormatLine(width, rtlSupport, lib, left, right);
    SpacesAreSpaces(Max(0, width - |l| - |right|));
    assert r[|l|..|r| - |right|] == Spaces(Max(0, width - |l| - |right|));
  }

  /** Leading padding of Python's `str.center`: half the margin, plus one when
      both the margin and the width are odd. */
  function CenterLeftPad(width: nat, len: nat): nat
    requires len < width
  {
    var marg := width - len;
    marg / 2 + (if marg % 2 == 1 && width % 2 == 1 then 1 else 0)
  }

  /** `_center_text`: Python's `str.center(width)`. */
  function CenterText(width: nat, text: string): string
  {
    if |text| >= width then text
    else
      var left := CenterLeftPad(width, |text|);
      Spaces(left) + text + Spaces(width - |text| - left)
  }

  /** Text at least as wide as the line is left as it is; shorter text is
      padded with spaces to exactly `width`, sitting at the `str.center` offset. */
  lemma CenterTextShape(width: nat, text: string)
    ensures var r := CenterText(width, text);
      && (|text| >= width ==> r == text)
      && (|text| < width ==>
            && |r| == width
            && var left := CenterLeftPad(width, |text|);
            && r[left..left + |text|] == text
            && AllSpaces(r[..left]) && AllSpaces(r[left + |text|..]))
  {
    if |text| < width {
      var left := CenterLeftPad(width, |text|);
      var r := CenterText(width, text);
      SpacesAreSpaces(left);
      SpacesAreSpaces(width - |text| - left);
      assert r[..left] == Spaces(left);
      assert r[left..left + |text|] == text;
      assert r[left + |text|..] == Spaces(width - |text| - left);
    }
  }

  /** On the two configured widths (both even), centering puts the extra space
      of an odd margin on the right: the left margin is the floor of half. */
  lemma CenterOnEvenWidth(width: nat, text: string)
    requires width == 32 || width == 48
    requires |text| < width
    ensures var left := (width - |text|) / 2;
      && CenterText(width, text) == Spaces(left) + text + Spaces(width - |text| - left)
      && left <= width - |text| - left <= left + 1
  {
  }

  /** `s.ljust(n)`. */
  function LJust(s: string, n: nat): string
  {
    s + Spaces(Max(0, n - |s|))
  }

  /** `s.rjust(n)`. */
  function RJust(s: string, n: nat): string
  {
    Spaces(Max(0, n - |s|)) + s
  }

  /** Justifying pads with spaces up to `n` columns and never cuts: the text
      is the prefix (ljust) or the suffix (rjust) of the result. */
  lemma JustifyShape(s: string, n: nat)
    ensures var l := LJust(s, n);
      |l| == Max(n, |s|) && l[..|s|] == s && AllSpaces(l[|s|..])
    ensures var r := RJust(s, n);
      |r| == Max(n, |s|) && r[|r| - |s|..] == s && AllSpaces(r[..|r| - |s|])
  {
    var pad := Spaces(Max(0, n - |s|));
    SpacesAreSpaces(Max(0, n - |s|));
    assert LJust(s, n)[|s|..] == pad;
    assert RJust(s, n)[..|pad|] == pad;
  }

  /** `s[:n]`. */
  function Take(s: string, n: nat): (r: string)
    ensures |r| == if |s| <= n then |s| else n
    ensures r == s[..|r|]
  {
    if |s| <= n then s else s[..n]
  }

  // ---------------------------------------------------------------------------
  // Amounts: f"{x:.2f}" on an exact number of cents
  // ---------------------------------------------------------------------------

  function AbsInt(c: int): nat { if c < 0 then -c else c }

  /** Two decimal places, a '.' separator, a leading '-' for negative amounts. */
  function FormatCents(c: int): string
  {
    (if c < 0 then "-" else "") + CentsBody(AbsInt(c))
  }

  /** "digits.dd" for a non-negative number of cents. */
  function CentsBody(a: nat): string
  {
    NatToString(a / 100) + ['.', DigitChar(a % 100 / 10), DigitChar(a % 10)]
  }

  /** Reads back "digits.dd". */
  function ParseUnsignedCents(body: string): Option<nat>
  {
    if |body| < 4 then None
    else
      var whole, point, d1, d2 := body[..|body| - 3], body[|body| - 3], body[|body| - 2], body[|body| - 1];
      if point == '.' && AllDigits(whole) && IsDigit(d1) && IsDigit(d2)
      then Some(DigitsValue(whole) * 100 + DigitValue(d1) * 10 + DigitValue(d2))
      else None
  }

  /** Reads back "[-]digits.dd". */
  function ParseCents(s: string): Option<int>
  {
    if |s| > 0 && s[0] == '-' then
      match ParseUnsignedCents(s[1..])
      case Some(a) => Some(0 - (a as int))
      case None => None
    else
      match ParseUnsignedCents(s)
      case Some(a) => Some(a)
      case None => None
  }

  lemma DigitCharValue(d: nat)
    requires d < 10
    ensures IsDigit(DigitChar(d)) && DigitValue(DigitChar(d)) == d
  {
  }

  lemma ParseUnsignedParts(digits: string, d1: char, d2: char)
    requires |digits| >= 1 && AllDigits(digits) && IsDigit(d1) && IsDigit(d2)
    ensures ParseUnsignedCents(digits + ['.', d1, d2])
      == Some(DigitsValue(digits) * 100 + DigitValue(d1) * 10 + DigitValue(d2))
  {
    var body := digits + ['.', d1, d2];
    assert body[..|body| - 3] == digits;
  }

  lemma CentsBodyRoundTrip(a: nat)
    ensures ParseUnsignedCents(CentsBody(a)) == Some(a)
    ensures CentsBody(a) != [] && IsDigit(CentsBody(a)[0])
  {
    var digits := NatToString(a / 100);
    NatToStringRoundTrip(a / 100);
    DigitCharValue(a % 100 / 10);
    DigitCharValue(a % 10);
    ParseUnsignedParts(digits, DigitChar(a % 100 / 10), DigitChar(a % 10));
    CentsDigits(a);
  }

  lemma CentsDigits(a: nat)
    ensures a / 100 * 100 + a % 100 / 10 * 10 + a % 10 == a
  {
  }

  /** Every amount the receipt prints reads back as exactly that amount. */
  lemma FormatCentsRoundTrip(c: int)
    ensures ParseCents(FormatCents(c)) == Some(c)
  {
    var body := CentsBody(AbsInt(c));
    CentsBodyRoundTrip(AbsInt(c));
    if c < 0 {
      assert FormatCents(c) == "-" + body;
      assert ("-" + body)[1..] == body;
    } else {
      assert FormatCents(c) == body;
    }
  }

  /** A non-negative amount below 10^k units prints in at most k + 3 columns. */
  lemma FormatCentsWidth(c: int, k: nat)
    requires 0 <= c < Pow10(k) * 100 && k >= 1
    ensures |FormatCents(c)| <= k + 3
  {
    NatToStringLength(c / 100, k);
    assert FormatCents(c) == CentsBody(c);
  }

  // ---------------------------------------------------------------------------
  // Item table
  // ---------------------------------------------------------------------------

  /** Name column width: 20 on the 48-column layout, 12 on every other width. */
  function NameWidth(width: nat): nat { if width == 48 then 20 else 12 }

  /** Column titles of the item table: "Item name" left-justified in the name
      column, then "Qty" right-justified in 4, and on the wide layout "Price"
      and "Total" right-justified in 10, on the narrow one "Total" in 14. */
  function ItemHeader(width: nat): string
  {
    var nameCol := LJust("Item name", NameWidth(width));
    if width == 48 then
      nameCol + " " + RJust("Qty", 4) + " " + RJust("Price", TotalWidth(width)) + " " + RJust("Total", TotalWidth(width))
    else nameCol + " " + RJust("Qty", 4) + " " + RJust("Total", TotalWidth(width))
  }

  /** The title row is as wide as a row whose fields fit: 47 columns on the
      wide layout, 32 on the narrow one. */
  lemma ItemHeaderWidth(width: nat)
    ensures |ItemHeader(width)| == if width == 48 then 47 else 32
  {
  }

  /** Line-total column width: 10 on the 48-column layout (where the unit
      price column is 10 wide too), 14 on every other width. */
  function TotalWidth(width: nat): nat { if width == 48 then 10 else 14 }

  /** The primary row of one item: the name truncated and left-justified, the
      quantity right-justified in 4, and on the wide layout the unit price and
      line total right-justified in 10, on the narrow one the line total in 14.
      Fields are separated by one space. */
  function ItemRow(width: nat, name: string, qty: int, price: int): string
  {
    var nameCol := LJust(Take(name, NameWidth(width)), NameWidth(width));
    var middle :=
      if width == 48 then " " + RJust(IntToString(qty), 4) + " " + RJust(FormatCents(price), 10) + " "
      else " " + RJust(IntToString(qty), 4) + " ";
    nameCol + middle + RJust(FormatCents(qty * price), TotalWidth(width))
  }

  /** When the numeric fields fit their columns, a wide row is 47 columns and
      a narrow row 32, the (truncated) name is its prefix and the line total
      its suffix. */
  lemma ItemRowShape(width: nat, name: string, qty: int, price: int)
    requires |IntToString(qty)| <= 4
    requires width == 48 ==> |FormatCents(price)| <= 10
    requires |FormatCents(qty * price)| <= TotalWidth(width)
    ensures var row := ItemRow(width, name, qty, price);
      var n := Take(name, NameWidth(width));
      var total := FormatCents(qty * price);
      && |row| == (if width == 48 then 47 else 32)
      && row[..|n|] == n
      && row[|row| - |total|..] == total
  {
    var n := Take(name, NameWidth(width));
    var total := FormatCents(qty * price);
    var nameCol := LJust(n, NameWidth(width));
    var middle :=
      if width == 48 then " " + RJust(IntToString(qty), 4) + " " + RJust(FormatCents(price), 10) + " "
      else " " + RJust(IntToString(qty), 4) + " ";
    var tail := RJust(total, TotalWidth(width));
    JustifyShape(n, NameWidth(width));
    JustifyShape(total, TotalWidth(width));
    JustifyShape(IntToString(qty), 4);
    JustifyShape(FormatCents(price), 10);
    assert |middle| == (if width == 48 then 17 else 6);
    PrefixKept(nameCol + middle, tail, |n|);
    PrefixKept(nameCol, middle, |n|);
    SuffixKept(nameCol + middle, tail, |nameCol + middle| + |tail| - |total|);
  }
}
