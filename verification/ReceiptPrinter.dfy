/** The receipt composer and the ESC/POS byte encoder of
    thermal_printer/receipt_printer.py: class ThermalReceiptModule, its two
    step-by-step builders (GenerateReceipt, GetEscPosCommands), the
    module-level GenerateReceipt entry point, and the specification functions
    they are proved against, with the lemmas that state the layout promises. */
module ReceiptPrinter {
  import opened Common
  import opened ReceiptLayout

  /** A byte of the printer payload. */
  newtype byte = x: int | 0 <= x < 256

  /** One entry of `order_data["items"]`; absent keys are None. Prices are cents. */
  datatype LineItem = LineItem(name: Option<string>, quantity: Option<int>, price: Option<int>)

  /** `order_data`: every key is optional; amounts are cents. */
  datatype OrderData = OrderData(
    storeName: Option<string>,
    invoiceNo: Option<string>,
    date: Option<string>,
    items: Option<seq<LineItem>>,
    subtotal: Option<int>,
    tax: Option<int>,
    discount: Option<int>,
    total: Option<int>,
    paymentMethod: Option<string>,
    paidAmount: Option<int>,
    change: Option<int>,
    footerMsg: Option<string>,
    vatNo: Option<string>,
    isReprint: bool,
    showLogo: bool)

  /** `printer_config`. */
  datatype PrinterConfig = PrinterConfig(paperWidth: Option<string>, rtlSupport: Option<bool>)

  /** `d.get(key, default)`. */
  function GetOr<T>(o: Option<T>, default: T): T
  {
    match o
    case Some(v) => v
    case None => default
  }

  /** The width `generate_receipt` derives from `printer_config` ("80mm" when absent). */
  function ConfiguredWidth(config: PrinterConfig): nat
  {
    WidthFor(GetOr(config.paperWidth, "80mm"))
  }

  function ItemName(item: LineItem): string { GetOr(item.name, "Item") }
  function ItemQuantity(item: LineItem): int { GetOr(item.quantity, 1) }
  function ItemPrice(item: LineItem): int { GetOr(item.price, 0) }

  /** A Python truthiness test on the optional VAT number. */
  predicate HasVat(order: OrderData) { order.vatNo.Some? && order.vatNo.value != "" }

  function Discount(order: OrderData): int { GetOr(order.discount, 0) }

  // ---------------------------------------------------------------------------
  // Specification of the text receipt, section by section
  // ---------------------------------------------------------------------------

  /** The kinds of line the composer appends. */
  datatype Line =
    | Centered(text: string)                   // `_center_text(text)`
    | Rule(c: char)                            // `c * width`
    | Plain(text: string)                      // appended as it is
    | Labelled(caption: string, value: string) // `_format_line(caption, value)`
    | ItemTitles                               // the item-table header
    | ItemRowOf(name: string, quantity: int, price: int)

  function Render(width: nat, rtlSupport: bool, lib: RtlLibrary, line: Line): string
  {
    match line
    case Centered(t) => CenterText(width, t)
    case Rule(c) => Repeat(c, width)
    case Plain(t) => t
    case Labelled(l, v) => FormatLine(width, rtlSupport, lib, l, v)
    case ItemTitles => ItemHeader(width)
    case ItemRowOf(n, q, pr) => ItemRow(width, n, q, pr)
  }

  /** Line i of the output is the rendering of entry i of the plan. */
  function RenderAll(width: nat, rtlSupport: bool, lib: RtlLibrary, plan: seq<Line>): (r: seq<string>)
    ensures |r| == |plan|
  {
    if plan == [] then [] else [Render(width, rtlSupport, lib, plan[0])] + RenderAll(width, rtlSupport, lib, plan[1..])
  }

  lemma {:induction false} RenderAllIndex(width: nat, rtlSupport: bool, lib: RtlLibrary, plan: seq<Line>, i: nat)
    requires i < |plan|
    ensures RenderAll(width, rtlSupport, lib, plan)[i] == Render(width, rtlSupport, lib, plan[i])
  {
    if i > 0 {
      RenderAllIndex(width, rtlSupport, lib, plan[1..], i - 1);
    }
  }

  lemma {:induction false} RenderAllAppend(width: nat, rtlSupport: bool, lib: RtlLibrary, a: seq<Line>, b: seq<Line>)
    ensures RenderAll(width, rtlSupport, lib, a + b) == RenderAll(width, rtlSupport, lib, a) + RenderAll(width, rtlSupport, lib, b)
  {
    if a == [] {
      assert a + b == b;
    } else {
      assert (a + b)[0] == a[0] && (a + b)[1..] == a[1..] + b;
      RenderAllAppend(width, rtlSupport, lib, a[1..], b);
      var head := [Render(width, rtlSupport, lib, a[0])];
      var x, y := RenderAll(width, rtlSupport, lib, a[1..]), RenderAll(width, rtlSupport, lib, b);
      assert head + (x + y) == (head + x) + y;
    }
  }

  /** Header section: reprint banner and rule, store name, logo, date,
      invoice number, rule. */
  function HeaderPlan(order: OrderData, now: string): seq<Line>
  {
    (if order.isReprint then [Centered("*** REPRINT ***"), Rule('-')] else [])
    + [Centered(GetOr(order.storeName, "STORE NAME"))]
    + (if order.showLogo then [Centered("[ LOGO ]")] else [])
    + [Plain("Date: " + GetOr(order.date, now))]
    + [Plain("Invoice: " + GetOr(order.invoiceNo, "N/A"))]
    + [Rule('-')]
  }

  /** The lines of one item: its row, then the full name indented by two
      spaces when it is longer than the name column. */
  function ItemPlan(width: nat, item: LineItem): seq<Line>
  {
    var name := ItemName(item);
    [ItemRowOf(name, ItemQuantity(item), ItemPrice(item))]
    + (if |name| > NameWidth(width) then [Plain("  " + name)] else [])
  }

  /** The item rows, item by item. */
  function ItemsPlan(width: nat, items: seq<LineItem>): seq<Line>
  {
    if items == [] then [] else ItemPlan(width, items[0]) + ItemsPlan(width, items[1..])
  }

  /** Items section: column titles and a rule, the item rows, a closing rule. */
  function ItemTablePlan(width: nat, items: seq<LineItem>): seq<Line>
  {
    [ItemTitles, Rule('-')] + ItemsPlan(width, items) + [Rule('-')]
  }

  /** Totals section: subtotal, tax, the discount when positive, a rule, the
      grand total and a double rule. */
  function TotalsPlan(order: OrderData): seq<Line>
  {
    [Labelled("Subtotal", FormatCents(GetOr(order.subtotal, 0)))]
    + [Labelled("Tax", FormatCents(GetOr(order.tax, 0)))]
    + (if Discount(order) > 0 then [Labelled("Discount", "-" + FormatCents(Discount(order)))] else [])
    + [Rule('-')]
    + [Labelled("GRAND TOTAL", FormatCents(GetOr(order.total, 0)))]
    + [Rule('=')]
  }

  /** Payment section: method, paid amount, change, rule. */
  function PaymentPlan(order: OrderData): seq<Line>
  {
    [Labelled("Payment Method", GetOr(order.paymentMethod, "Cash"))]
    + [Labelled("Paid Amount", FormatCents(GetOr(order.paidAmount, 0)))]
    + [Labelled("Change Amount", FormatCents(GetOr(order.change, 0)))]
    + [Rule('-')]
  }

  /** Footer section: the footer message and the VAT number when given. */
  function FooterPlan(order: OrderData): seq<Line>
  {
    [Centered(GetOr(order.footerMsg, "Thank you message"))]
    + (if HasVat(order) then [Centered("VAT/Tax: " + order.vatNo.value)] else [])
  }

  /** Every line of the receipt, section by section. */
  function ReceiptPlan(width: nat, order: OrderData, now: string): seq<Line>
  {
    HeaderPlan(order, now) + ItemTablePlan(width, GetOr(order.items, []))
    + TotalsPlan(order) + PaymentPlan(order) + FooterPlan(order)
  }

  function ReceiptLines(width: nat, rtlSupport: bool, lib: RtlLibrary, order: OrderData, now: string): seq<string>
  {
    RenderAll(width, rtlSupport, lib, ReceiptPlan(width, order, now))
  }

  /** The text receipt: the lines joined by "\n", no trailing newline. */
  function ReceiptText(width: nat, rtlSupport: bool, lib: RtlLibrary, order: OrderData, now: string): string
  {
    Join(ReceiptLines(width, rtlSupport, lib, order, now), "\n")
  }

  // ---------------------------------------------------------------------------
  // Specification of the ESC/POS payload
  // ---------------------------------------------------------------------------

  const ESC: seq<byte> := [0x1B]
  const GS: seq<byte> := [0x1D]
  const ALIGN_LEFT: seq<byte> := [0x1B, 0x61, 0x00]
  const ALIGN_CENTER: seq<byte> := [0x1B, 0x61, 0x01]
  const ALIGN_RIGHT: seq<byte> := [0x1B, 0x61, 0x02]
  const BOLD_ON: seq<byte> := [0x1B, 0x45, 0x01]
  const BOLD_OFF: seq<byte> := [0x1B, 0x45, 0x00]
  const INIT: seq<byte> := [0x1B, 0x40]
  const CUT: seq<byte> := [0x1D, 0x56, 0x41, 0x03]

  predicate IsAsciiChar(c: char) { (c as int) < 0x80 }

  /** `s.encode('ascii', 'ignore')`: every non-ASCII code point is dropped,
      the others become their byte, in order. */
  function AsciiIgnore(s: string): (r: seq<byte>)
    ensures |r| <= |s|
    ensures forall i :: 0 <= i < |r| ==> r[i] < 0x80
  {
    if s == [] then []
    else if IsAsciiChar(s[0]) then [(s[0] as int) as byte] + AsciiIgnore(s[1..])
    else AsciiIgnore(s[1..])
  }

  /** The code points of the ASCII bytes. */
  function DecodeAscii(b: seq<byte>): string
    requires forall i :: 0 <= i < |b| ==> b[i] < 0x80
  {
    if b == [] then "" else [(b[0] as int) as char] + DecodeAscii(b[1..])
  }

  /** `a` can be obtained from `b` by deleting elements. */
  predicate IsSubsequence(a: string, b: string)
    decreases |b|
  {
    if a == [] then true
    else if b == [] then false
    else if a[0] == b[0] then IsSubsequence(a[1..], b[1..])
    else IsSubsequence(a, b[1..])
  }

  predicate AllAscii(s: string) { forall i :: 0 <= i < |s| ==> IsAsciiChar(s[i]) }

  /** The encoded bytes decode to a subsequence of the text, and to the whole
      text exactly when the text is all ASCII. */
  lemma {:induction false} AsciiIgnoreKeepsOrder(s: string)
    ensures IsSubsequence(DecodeAscii(AsciiIgnore(s)), s)
    ensures DecodeAscii(AsciiIgnore(s)) == s <==> AllAscii(s)
  {
    if s != [] {
      AsciiIgnoreKeepsOrder(s[1..]);
      var tail := DecodeAscii(AsciiIgnore(s[1..]));
      if IsAsciiChar(s[0]) {
        var r := AsciiIgnore(s);
        assert r[1..] == AsciiIgnore(s[1..]);
        assert DecodeAscii(r) == [s[0]] + tail;
        assert AllAscii(s) <==> AllAscii(s[1..]) by {
          assert forall i :: 1 <= i < |s| ==> s[i] == s[1..][i - 1];
        }
      } else {
        assert !AllAscii(s);
        SubsequenceLength(tail, s[1..]);
        assert |tail| < |s|;
        if tail != [] {
          SubsequenceAfterSkip(tail, s);
        }
      }
    }
  }

  lemma {:induction false} SubsequenceLength(a: string, b: string)
    requires IsSubsequence(a, b)
    ensures |a| <= |b|
    decreases |b|
  {
    if a != [] {
      if a[0] == b[0] { SubsequenceLength(a[1..], b[1..]); } else { SubsequenceLength(a, b[1..]); }
    }
  }

  lemma {:induction false} SubsequenceAfterSkip(a: string, b: string)
    requires |b| >= 1 && IsSubsequence(a, b[1..])
    ensures IsSubsequence(a, b)
    decreases |b|, |a|
  {
    if a != [] && a[0] == b[0] {
      // IsSubsequence(a, b) reduces to IsSubsequence(a[1..], b[1..]), which follows from a's match in b[1..]
      SubsequenceDropHead(a, b[1..]);
    }
  }

  lemma {:induction false} SubsequenceDropHead(a: string, b: string)
    requires |a| >= 1 && IsSubsequence(a, b)
    ensures IsSubsequence(a[1..], b)
    decreases |b|, |a|
  {
    if a[0] == b[0] {
      if a[1..] != [] {
        SubsequenceAfterSkip(a[1..], b);
      }
    } else {
      SubsequenceDropHead(a, b[1..]);
      if a[1..] != [] {
        SubsequenceAfterSkip(a[1..], b);
      }
    }
  }

  /** Encoding distributes over concatenation. */
  lemma {:induction false} AsciiIgnoreAppend(a: string, b: string)
    ensures AsciiIgnore(a + b) == AsciiIgnore(a) + AsciiIgnore(b)
  {
    if a != [] {
      assert (a + b)[1..] == a[1..] + b;
      AsciiIgnoreAppend(a[1..], b);
    } else {
      assert a + b == b;
    }
  }

  /** `b"*** REPRINT ***\n"`. */
  const ReprintBannerBytes: seq<byte> :=
    [0x2A, 0x2A, 0x2A, 0x20, 0x52, 0x45, 0x50, 0x52, 0x49, 0x4E, 0x54, 0x20, 0x2A, 0x2A, 0x2A, 0x0A]

  /** `b"--------------------------------\n"`: 32 dashes, whatever the paper width. */
  const DashRuleBytes: seq<byte> :=
    [0x2D, 0x2D, 0x2D, 0x2D, 0x2D, 0x2D, 0x2D, 0x2D, 0x2D, 0x2D, 0x2D, 0x2D, 0x2D, 0x2D, 0x2D, 0x2D,
     0x2D, 0x2D, 0x2D, 0x2D, 0x2D, 0x2D, 0x2D, 0x2D, 0x2D, 0x2D, 0x2D, 0x2D, 0x2D, 0x2D, 0x2D, 0x2D, 0x0A]

  const LineFeed: seq<byte> := [0x0A]

  /** `b"\n\n\n"`, fed before the cut. */
  const TrailingFeed: seq<byte> := [0x0A, 0x0A, 0x0A]

  /** The bold reprint banner and its 32-dash rule, on a reprint only. */
  function ReprintCommands(order: OrderData): seq<seq<byte>>
  {
    if order.isReprint then [BOLD_ON] + [ReprintBannerBytes] + [BOLD_OFF] + [DashRuleBytes] else []
  }

  /** The segments `get_esc_pos_commands` collects, in order: initialise,
      center, the bold reprint banner and rule, the bold store name, left
      alignment, the whole text receipt (which holds the store name and the
      reprint banner a second time), three line feeds and the cut. */
  function EscPosCommands(order: OrderData, receiptText: string): seq<seq<byte>>
  {
    [INIT] + [ALIGN_CENTER] + ReprintCommands(order)
    + [BOLD_ON] + [AsciiIgnore(GetOr(order.storeName, "STORE NAME")) + LineFeed] + [BOLD_OFF] + [ALIGN_LEFT]
    + [AsciiIgnore(receiptText)] + [TrailingFeed] + [CUT]
  }

  /** The bytes of the reprint segments: banner and rule in bold, or nothing. */
  function ReprintHeaderBytes(order: OrderData): seq<byte>
  {
    if order.isReprint then BOLD_ON + ReprintBannerBytes + BOLD_OFF + DashRuleBytes else []
  }

  /** `b"".join(commands)`. */
  function Concat(parts: seq<seq<byte>>): seq<byte>
  {
    if parts == [] then [] else parts[0] + Concat(parts[1..])
  }

  // ---------------------------------------------------------------------------
  // The module object
  // ---------------------------------------------------------------------------

  class ThermalReceiptModule {
    var paperWidth: string
    var width: nat
    var rtlSupport: bool
    /** Whether the shaping libraries were importable, and the libraries. */
    const rtlLib: RtlLibrary

    constructor (paperWidth: string := "80mm", rtlSupport: bool := true, rtlLib: RtlLibrary)
      ensures this.paperWidth == paperWidth && this.rtlSupport == rtlSupport && this.rtlLib == rtlLib
      ensures width == WidthFor(paperWidth)
    {
      this.paperWidth := paperWidth;
      this.width := WidthFor(paperWidth);
      this.rtlSupport := rtlSupport;
      this.rtlLib := rtlLib;
    }

    /** `generate_receipt`: re-derives the width from `printer_config`, then
        appends the sections in order and joins the lines. `now` is the
        formatted current time used when the order has no date. */
    method GenerateReceipt(order: OrderData, config: PrinterConfig, now: string) returns (text: string)
      modifies this
      ensures width == ConfiguredWidth(config)
      ensures paperWidth == old(paperWidth) && rtlSupport == old(rtlSupport)
      ensures text == ReceiptText(width, rtlSupport, rtlLib, order, now)
    {
      width := ConfiguredWidth(config);
      var w, rtl, lib := width, rtlSupport, rtlLib;
      var lines: seq<string> := [];
      lines := AppendHeader(lines, w, rtl, lib, order, now);
      lines := AppendItems(lines, w, rtl, lib, GetOr(order.items, []));
      lines := AppendTotals(lines, w, rtl, lib, order);
      lines := AppendPayment(lines, w, rtl, lib, order);
      lines := AppendFooter(lines, w, rtl, lib, order);
      ReceiptLinesBySection(w, rtl, lib, order, now);
      text := Join(lines, "\n");
    }

    /** `get_esc_pos_commands`: appends the byte segments one by one, then joins them. */
    method GetEscPosCommands(order: OrderData, config: PrinterConfig, now: string) returns (payload: seq<byte>)
      modifies this
      ensures width == ConfiguredWidth(config)
      ensures paperWidth == old(paperWidth) && rtlSupport == old(rtlSupport)
      ensures payload == Concat(EscPosCommands(order, ReceiptText(width, rtlSupport, rtlLib, order, now)))
    {
      var commands: seq<seq<byte>> := [INIT];
      commands := commands + [ALIGN_CENTER];
      ReprintAppended(commands, order);
      if order.isReprint {
        commands := commands + [BOLD_ON];
        commands := commands + [ReprintBannerBytes];
        commands := commands + [BOLD_OFF];
        commands := commands + [DashRuleBytes];
      }
      commands := commands + [BOLD_ON];
      commands := commands + [AsciiIgnore(GetOr(order.storeName, "STORE NAME")) + LineFeed];
      commands := commands + [BOLD_OFF];
      commands := commands + [ALIGN_LEFT];
      var receiptText := GenerateReceipt(order, config, now);
      commands := commands + [AsciiIgnore(receiptText)];
      commands := commands + [TrailingFeed];
      commands := commands + [CUT];
      payload := Concat(commands);
    }
  }

  /** Appending the reprint segments one by one appends ReprintCommands. */
  lemma ReprintAppended(commands: seq<seq<byte>>, order: OrderData)
    ensures commands + ReprintCommands(order)
      == if order.isReprint then commands + [BOLD_ON] + [ReprintBannerBytes] + [BOLD_OFF] + [DashRuleBytes] else commands
  {
    if order.isReprint {
      Assoc(commands, [BOLD_ON] + [ReprintBannerBytes] + [BOLD_OFF], [DashRuleBytes]);
      Assoc(commands, [BOLD_ON] + [ReprintBannerBytes], [BOLD_OFF]);
      Assoc(commands, [BOLD_ON], [ReprintBannerBytes]);
    } else {
      assert commands + [] == commands;
    }
  }

  /** Header section of `generate_receipt`. */
  method AppendHeader(lines: seq<string>, w: nat, rtl: bool, lib: RtlLibrary, order: OrderData, now: string)
    returns (r: seq<string>)
    ensures r == lines + RenderAll(w, rtl, lib, HeaderPlan(order, now))
  {
    var banner: seq<string> := [];
    if order.isReprint {
      banner := [CenterText(w, "*** REPRINT ***"), Repeat('-', w)];
    }
    r := lines + banner;
    var store := CenterText(w, GetOr(order.storeName, "STORE NAME"));
    r := r + [store];
    var logo: seq<string> := [];
    if order.showLogo {
      logo := [CenterText(w, "[ LOGO ]")];
    }
    r := r + logo;
    var date := "Date: " + GetOr(order.date, now);
    r := r + [date];
    var invoice := "Invoice: " + GetOr(order.invoiceNo, "N/A");
    r := r + [invoice];
    r := r + [Repeat('-', w)];
    HeaderRendered(w, rtl, lib, lines, order, now);
  }

  /** Items section of `generate_receipt`: column titles, then the lines of
      each item in order, then a rule. */
  method AppendItems(lines: seq<string>, w: nat, rtl: bool, lib: RtlLibrary, items: seq<LineItem>)
    returns (r: seq<string>)
    ensures r == lines + RenderAll(w, rtl, lib, ItemTablePlan(w, items))
  {
    var titles := [ItemHeader(w), Repeat('-', w)];
    r := lines + titles;
    for i := 0 to |items|
      invariant r == lines + titles + RenderAll(w, rtl, lib, ItemsPlan(w, items[..i]))
    {
      PrefixSnoc(items, i);
      var more := ItemLines(w, rtl, lib, items[i]);
      ItemRendered(w, rtl, lib, lines + titles, items[..i], items[i]);
      r := r + more;
    }
    PrefixAll(items);
    r := r + [Repeat('-', w)];
    ItemTableRendered(w, rtl, lib, lines, items);
  }

  /** The lines of one item: its row, then the full name indented by two
      spaces when the name column cut it. */
  method ItemLines(w: nat, rtl: bool, lib: RtlLibrary, item: LineItem) returns (more: seq<string>)
    ensures more == RenderAll(w, rtl, lib, ItemPlan(w, item))
  {
    var name := ItemName(item);
    var row := ItemRow(w, name, ItemQuantity(item), ItemPrice(item));
    more := [row];
    if |name| > NameWidth(w) {
      more := more + ["  " + name];
    }
  }

  /** Totals section of `generate_receipt`. */
  method AppendTotals(lines: seq<string>, w: nat, rtl: bool, lib: RtlLibrary, order: OrderData) returns (r: seq<string>)
    ensures r == lines + RenderAll(w, rtl, lib, TotalsPlan(order))
  {
    var subtotal := FormatLine(w, rtl, lib, "Subtotal", FormatCents(GetOr(order.subtotal, 0)));
    r := lines + [subtotal];
    var tax := FormatLine(w, rtl, lib, "Tax", FormatCents(GetOr(order.tax, 0)));
    r := r + [tax];
    var discount := GetOr(order.discount, 0);
    var discountLine: seq<string> := [];
    if discount > 0 {
      discountLine := [FormatLine(w, rtl, lib, "Discount", "-" + FormatCents(discount))];
    }
    r := r + discountLine;
    r := r + [Repeat('-', w)];
    var total := FormatLine(w, rtl, lib, "GRAND TOTAL", FormatCents(GetOr(order.total, 0)));
    r := r + [total];
    r := r + [Repeat('=', w)];
    TotalsRendered(w, rtl, lib, lines, order);
  }

  /** Payment-details section of `generate_receipt`. */
  method AppendPayment(lines: seq<string>, w: nat, rtl: bool, lib: RtlLibrary, order: OrderData) returns (r: seq<string>)
    ensures r == lines + RenderAll(w, rtl, lib, PaymentPlan(order))
  {
    var payment := FormatLine(w, rtl, lib, "Payment Method", GetOr(order.paymentMethod, "Cash"));
    r := lines + [payment];
    var paid := FormatLine(w, rtl, lib, "Paid Amount", FormatCents(GetOr(order.paidAmount, 0)));
    r := r + [paid];
    var change := FormatLine(w, rtl, lib, "Change Amount", FormatCents(GetOr(order.change, 0)));
    r := r + [change];
    r := r + [Repeat('-', w)];
    PaymentRendered(w, rtl, lib, lines, order);
  }

  /** Footer section of `generate_receipt`. */
  method AppendFooter(lines: seq<string>, w: nat, rtl: bool, lib: RtlLibrary, order: OrderData) returns (r: seq<string>)
    ensures r == lines + RenderAll(w, rtl, lib, FooterPlan(order))
  {
    var footer := CenterText(w, GetOr(order.footerMsg, "Thank you message"));
    r := lines + [footer];
    var vat: seq<string> := [];
    if order.vatNo.Some? && order.vatNo.value != "" {
      vat := [CenterText(w, "VAT/Tax: " + order.vatNo.value)];
    }
    r := r + vat;
    FooterRendered(w, rtl, lib, lines, order);
  }

  lemma RenderOne(w: nat, rtl: bool, lib: RtlLibrary, x: Line)
    ensures RenderAll(w, rtl, lib, [x]) == [Render(w, rtl, lib, x)]
  {
  }

  /** Rendering two consecutive pieces of a plan after some lines appends
      the renderings of the pieces one after the other. */
  lemma RenderStep(w: nat, rtl: bool, lib: RtlLibrary, lines: seq<string>, p: seq<Line>, q: seq<Line>)
    ensures lines + RenderAll(w, rtl, lib, p + q) == lines + RenderAll(w, rtl, lib, p) + RenderAll(w, rtl, lib, q)
  {
    RenderAllAppend(w, rtl, lib, p, q);
    Assoc(lines, RenderAll(w, rtl, lib, p), RenderAll(w, rtl, lib, q));
  }

  /** The header plan renders to the banner and rule on a reprint, the centered
      store name, the centered logo placeholder when asked for, the date and
      invoice lines and a rule. */
  lemma HeaderRendered(w: nat, rtl: bool, lib: RtlLibrary, lines: seq<string>, order: OrderData, now: string)
    ensures lines + RenderAll(w, rtl, lib, HeaderPlan(order, now))
      == lines
         + (if order.isReprint then [CenterText(w, "*** REPRINT ***"), Repeat('-', w)] else [])
         + [CenterText(w, GetOr(order.storeName, "STORE NAME"))]
         + (if order.showLogo then [CenterText(w, "[ LOGO ]")] else [])
         + ["Date: " + GetOr(order.date, now)]
         + ["Invoice: " + GetOr(order.invoiceNo, "N/A")]
         + [Repeat('-', w)]
  {
    var banner := if order.isReprint then [Centered("*** REPRINT ***"), Rule('-')] else [];
    var store := Centered(GetOr(order.storeName, "STORE NAME"));
    var logo := if order.showLogo then [Centered("[ LOGO ]")] else [];
    var date := Plain("Date: " + GetOr(order.date, now));
    var invoice := Plain("Invoice: " + GetOr(order.invoiceNo, "N/A"));
    assert RenderAll(w, rtl, lib, banner)
        == if order.isReprint then [CenterText(w, "*** REPRINT ***"), Repeat('-', w)] else [] by {
      if order.isReprint {
        RenderAllAppend(w, rtl, lib, [Centered("*** REPRINT ***")], [Rule('-')]);
        RenderOne(w, rtl, lib, Centered("*** REPRINT ***"));
        RenderOne(w, rtl, lib, Rule('-'));
        assert banner == [Centered("*** REPRINT ***")] + [Rule('-')];
      }
    }
    assert RenderAll(w, rtl, lib, logo) == if order.showLogo then [CenterText(w, "[ LOGO ]")] else [] by {
      if order.showLogo {
        RenderOne(w, rtl, lib, Centered("[ LOGO ]"));
      }
    }
    RenderStep(w, rtl, lib, lines, banner + [store] + logo + [date] + [invoice], [Rule('-')]);
    RenderStep(w, rtl, lib, lines, banner + [store] + logo + [date], [invoice]);
    RenderStep(w, rtl, lib, lines, banner + [store] + logo, [date]);
    RenderStep(w, rtl, lib, lines, banner + [store], logo);
    RenderStep(w, rtl, lib, lines, banner, [store]);
    RenderOne(w, rtl, lib, store);
    RenderOne(w, rtl, lib, date);
    RenderOne(w, rtl, lib, invoice);
    RenderOne(w, rtl, lib, Rule('-'));
  }

  /** One more item appends the lines of that item. */
  lemma ItemRendered(w: nat, rtl: bool, lib: RtlLibrary, prefix: seq<string>, done: seq<LineItem>, item: LineItem)
    ensures prefix + RenderAll(w, rtl, lib, ItemsPlan(w, done + [item]))
      == prefix + RenderAll(w, rtl, lib, ItemsPlan(w, done)) + RenderAll(w, rtl, lib, ItemPlan(w, item))
  {
    ItemsPlanAppend(w, done, [item]);
    assert ItemsPlan(w, [item]) == ItemPlan(w, item);
    RenderAllAppend(w, rtl, lib, ItemsPlan(w, done), ItemPlan(w, item));
  }

  /** The item table renders to the titles, a rule, the item rows and a rule. */
  lemma ItemTableRendered(w: nat, rtl: bool, lib: RtlLibrary, lines: seq<string>, items: seq<LineItem>)
    ensures lines + RenderAll(w, rtl, lib, ItemTablePlan(w, items))
      == lines + [ItemHeader(w), Repeat('-', w)] + RenderAll(w, rtl, lib, ItemsPlan(w, items)) + [Repeat('-', w)]
  {
    RenderAllAppend(w, rtl, lib, [ItemTitles, Rule('-')] + ItemsPlan(w, items), [Rule('-')]);
    RenderAllAppend(w, rtl, lib, [ItemTitles, Rule('-')], ItemsPlan(w, items));
  }

  /** The totals plan renders to the formatted Subtotal and Tax lines, the
      Discount line when the discount is positive, a rule, the GRAND TOTAL
      line and a double rule. */
  lemma TotalsRendered(w: nat, rtl: bool, lib: RtlLibrary, lines: seq<string>, order: OrderData)
    ensures lines + RenderAll(w, rtl, lib, TotalsPlan(order))
      == lines
         + [FormatLine(w, rtl, lib, "Subtotal", FormatCents(GetOr(order.subtotal, 0)))]
         + [FormatLine(w, rtl, lib, "Tax", FormatCents(GetOr(order.tax, 0)))]
         + (if Discount(order) > 0 then [FormatLine(w, rtl, lib, "Discount", "-" + FormatCents(Discount(order)))] else [])
         + [Repeat('-', w)]
         + [FormatLine(w, rtl, lib, "GRAND TOTAL", FormatCents(GetOr(order.total, 0)))]
         + [Repeat('=', w)]
  {
    var sub := Labelled("Subtotal", FormatCents(GetOr(order.subtotal, 0)));
    var tax := Labelled("Tax", FormatCents(GetOr(order.tax, 0)));
    var disc := if Discount(order) > 0 then [Labelled("Discount", "-" + FormatCents(Discount(order)))] else [];
    var total := Labelled("GRAND TOTAL", FormatCents(GetOr(order.total, 0)));
    RenderStep(w, rtl, lib, lines, [sub] + [tax] + disc + [Rule('-')] + [total], [Rule('=')]);
    RenderStep(w, rtl, lib, lines, [sub] + [tax] + disc + [Rule('-')], [total]);
    RenderStep(w, rtl, lib, lines, [sub] + [tax] + disc, [Rule('-')]);
    RenderStep(w, rtl, lib, lines, [sub] + [tax], disc);
    RenderStep(w, rtl, lib, lines, [sub], [tax]);
    RenderOne(w, rtl, lib, sub);
    RenderOne(w, rtl, lib, tax);
    RenderOne(w, rtl, lib, Rule('-'));
    RenderOne(w, rtl, lib, total);
    RenderOne(w, rtl, lib, Rule('='));
    if Discount(order) > 0 {
      RenderOne(w, rtl, lib, disc[0]);
    }
  }

  /** The payment plan renders to the three formatted payment lines and a rule. */
  lemma PaymentRendered(w: nat, rtl: bool, lib: RtlLibrary, lines: seq<string>, order: OrderData)
    ensures lines + RenderAll(w, rtl, lib, PaymentPlan(order))
      == lines
         + [FormatLine(w, rtl, lib, "Payment Method", GetOr(order.paymentMethod, "Cash"))]
         + [FormatLine(w, rtl, lib, "Paid Amount", FormatCents(GetOr(order.paidAmount, 0)))]
         + [FormatLine(w, rtl, lib, "Change Amount", FormatCents(GetOr(order.change, 0)))]
         + [Repeat('-', w)]
  {
    var method_ := Labelled("Payment Method", GetOr(order.paymentMethod, "Cash"));
    var paid := Labelled("Paid Amount", FormatCents(GetOr(order.paidAmount, 0)));
    var change := Labelled("Change Amount", FormatCents(GetOr(order.change, 0)));
    RenderStep(w, rtl, lib, lines, [method_] + [paid] + [change], [Rule('-')]);
    RenderStep(w, rtl, lib, lines, [method_] + [paid], [change]);
    RenderStep(w, rtl, lib, lines, [method_], [paid]);
    RenderOne(w, rtl, lib, method_);
    RenderOne(w, rtl, lib, paid);
    RenderOne(w, rtl, lib, change);
    RenderOne(w, rtl, lib, Rule('-'));
  }

  /** The footer plan renders to the centered message and, for a non-empty
      VAT number, the centered VAT line. */
  lemma FooterRendered(w: nat, rtl: bool, lib: RtlLibrary, lines: seq<string>, order: OrderData)
    ensures lines + RenderAll(w, rtl, lib, FooterPlan(order))
      == lines
         + [CenterText(w, GetOr(order.footerMsg, "Thank you message"))]
         + (if HasVat(order) then [CenterText(w, "VAT/Tax: " + order.vatNo.value)] else [])
  {
    var footer := Centered(GetOr(order.footerMsg, "Thank you message"));
    var vat := if HasVat(order) then [Centered("VAT/Tax: " + order.vatNo.value)] else [];
    RenderStep(w, rtl, lib, lines, [footer], vat);
    RenderOne(w, rtl, lib, footer);
    if HasVat(order) {
      RenderOne(w, rtl, lib, vat[0]);
    }
  }

  /** The receipt renders section by section. */
  lemma ReceiptLinesBySection(w: nat, rtl: bool, lib: RtlLibrary, order: OrderData, now: string)
    ensures ReceiptLines(w, rtl, lib, order, now)
      == [] + RenderAll(w, rtl, lib, HeaderPlan(order, now))
         + RenderAll(w, rtl, lib, ItemTablePlan(w, GetOr(order.items, [])))
         + RenderAll(w, rtl, lib, TotalsPlan(order))
         + RenderAll(w, rtl, lib, PaymentPlan(order))
         + RenderAll(w, rtl, lib, FooterPlan(order))
  {
    var h := HeaderPlan(order, now);
    var it := ItemTablePlan(w, GetOr(order.items, []));
    var t := TotalsPlan(order);
    var p := PaymentPlan(order);
    var f := FooterPlan(order);
    RenderStep(w, rtl, lib, [], h + it + t + p, f);
    RenderStep(w, rtl, lib, [], h + it + t, p);
    RenderStep(w, rtl, lib, [], h + it, t);
    RenderStep(w, rtl, lib, [], h, it);
    assert [] + RenderAll(w, rtl, lib, h + it + t + p + f) == RenderAll(w, rtl, lib, h + it + t + p + f);
  }

  lemma {:induction false} ConcatSplit(a: seq<seq<byte>>, b: seq<seq<byte>>)
    ensures Concat(a + b) == Concat(a) + Concat(b)
  {
    if a != [] {
      assert (a + b)[1..] == a[1..] + b;
      ConcatSplit(a[1..], b);
    } else {
      assert a + b == b;
    }
  }

  /** Joining one more segment appends its bytes. */
  lemma ConcatSnoc(parts: seq<seq<byte>>, x: seq<byte>)
    ensures Concat(parts + [x]) == Concat(parts) + x
  {
    ConcatSplit(parts, [x]);
    assert Concat([x]) == x + Concat([]);
    assert x + [] == x;
  }

  lemma ConcatOne(x: seq<byte>)
    ensures Concat([x]) == x
  {
    assert x + [] == x;
  }

  /** `generate_receipt(order_data, printer_config)`: builds a module from the
      configuration (80 mm and right-to-left support by default) and renders. */
  method GenerateReceipt(order: OrderData, config: PrinterConfig, now: string, rtlLib: RtlLibrary) returns (text: string)
    ensures text == ReceiptText(ConfiguredWidth(config), GetOr(config.rtlSupport, true), rtlLib, order, now)
  {
    var m := new ThermalReceiptModule(GetOr(config.paperWidth, "80mm"), GetOr(config.rtlSupport, true), rtlLib);
    text := m.GenerateReceipt(order, config, now);
  }

  // ---------------------------------------------------------------------------
  // Properties of the receipt
  // ---------------------------------------------------------------------------

  /** The item table is built item by item: the plan of a concatenation is
      the concatenation of the plans, so items keep their input order. */
  lemma {:induction false} ItemsPlanAppend(width: nat, a: seq<LineItem>, b: seq<LineItem>)
    ensures ItemsPlan(width, a + b) == ItemsPlan(width, a) + ItemsPlan(width, b)
  {
    if a == [] {
      assert a + b == b;
    } else {
      assert (a + b)[1..] == a[1..] + b;
      ItemsPlanAppend(width, a[1..], b);
    }
  }

  /** Number of names longer than the name column. */
  function LongNames(width: nat, items: seq<LineItem>): nat
  {
    if items == [] then 0
    else (if |ItemName(items[0])| > NameWidth(width) then 1 else 0) + LongNames(width, items[1..])
  }

  /** One row per item plus one continuation line per long name. */
  lemma {:induction false} ItemsPlanLength(width: nat, items: seq<LineItem>)
    ensures |ItemsPlan(width, items)| == |items| + LongNames(width, items)
  {
    if items != [] {
      ItemsPlanLength(width, items[1..]);
    }
  }

  /** How many lines a receipt has: 17 fixed lines, 2 for a reprint banner,
      1 each for the logo, a positive discount and a VAT number, and one per
      item plus one per cut name. */
  lemma ReceiptLineCount(width: nat, rtlSupport: bool, lib: RtlLibrary, order: OrderData, now: string)
    ensures var items := GetOr(order.items, []);
      |ReceiptLines(width, rtlSupport, lib, order, now)|
        == 17 + (if order.isReprint then 2 else 0) + (if order.showLogo then 1 else 0)
           + (if Discount(order) > 0 then 1 else 0) + (if HasVat(order) then 1 else 0)
           + |items| + LongNames(width, items)
  {
    ItemsPlanLength(width, GetOr(order.items, []));
  }

  /** A reprint starts with the centered banner and a full-width dash rule,
      then the centered store name; otherwise the receipt starts with the
      centered store name. (Line i of the receipt renders entry i of the
      plan, by RenderAll's contract.) */
  lemma ReprintBanner(width: nat, order: OrderData, now: string)
    ensures var plan := ReceiptPlan(width, order, now);
      var store := Centered(GetOr(order.storeName, "STORE NAME"));
      && |plan| >= 3
      && (order.isReprint ==> plan[0] == Centered("*** REPRINT ***") && plan[1] == Rule('-') && plan[2] == store)
      && (!order.isReprint ==> plan[0] == store)
  {
    var h := HeaderPlan(order, now);
    var plan := ReceiptPlan(width, order, now);
    assert plan == h + (ItemTablePlan(width, GetOr(order.items, [])) + TotalsPlan(order) + PaymentPlan(order) + FooterPlan(order));
  }

  /** Index of the Subtotal line: after the header and the item table. */
  function SubtotalIndex(width: nat, order: OrderData, now: string): nat
  {
    |HeaderPlan(order, now)| + |ItemTablePlan(width, GetOr(order.items, []))|
  }

  /** Subtotal and Tax are followed by the Discount line, reading "-" and the
      amount, exactly when the discount is positive; otherwise by the rule. */
  lemma DiscountLineIff(width: nat, order: OrderData, now: string)
    ensures var plan := ReceiptPlan(width, order, now);
      var k := SubtotalIndex(width, order, now);
      && k + 2 < |plan|
      && plan[k] == Labelled("Subtotal", FormatCents(GetOr(order.subtotal, 0)))
      && plan[k + 1] == Labelled("Tax", FormatCents(GetOr(order.tax, 0)))
      && (Discount(order) > 0 ==> plan[k + 2] == Labelled("Discount", "-" + FormatCents(Discount(order))))
      && (Discount(order) <= 0 ==> plan[k + 2] == Rule('-'))
  {
    var front := HeaderPlan(order, now) + ItemTablePlan(width, GetOr(order.items, []));
    var t := TotalsPlan(order);
    var plan := ReceiptPlan(width, order, now);
    assert plan == front + (t + PaymentPlan(order) + FooterPlan(order));
  }

  /** The receipt ends with the centered VAT line exactly when a non-empty VAT
      number is given, right after the centered footer message, and otherwise
      with the footer message. */
  lemma FooterAndVat(width: nat, order: OrderData, now: string)
    ensures var plan := ReceiptPlan(width, order, now);
      var footer := Centered(GetOr(order.footerMsg, "Thank you message"));
      && |plan| >= 2
      && (HasVat(order) ==> plan[|plan| - 1] == Centered("VAT/Tax: " + order.vatNo.value) && plan[|plan| - 2] == footer)
      && (!HasVat(order) ==> plan[|plan| - 1] == footer)
  {
    var front := HeaderPlan(order, now) + ItemTablePlan(width, GetOr(order.items, [])) + TotalsPlan(order) + PaymentPlan(order);
    var f := FooterPlan(order);
    var plan := ReceiptPlan(width, order, now);
    assert plan == front + f;
    assert plan[|plan| - 1] == f[|f| - 1];
  }

  /** The order with no keys at all. */
  const EmptyOrder := OrderData(None, None, None, None, None, None, None, None, None, None, None, None, None, false, false)

  /** Missing keys print their literal defaults: "STORE NAME", the current
      time, "N/A", no item rows, "0.00" for every amount, "Cash" and "Thank
      you message", with no discount and no VAT line. */
  lemma EmptyOrderDefaults(width: nat, now: string)
    ensures HeaderPlan(EmptyOrder, now)
      == [Centered("STORE NAME"), Plain("Date: " + now), Plain("Invoice: N/A"), Rule('-')]
    ensures ItemTablePlan(width, GetOr(EmptyOrder.items, [])) == [ItemTitles, Rule('-'), Rule('-')]
    ensures TotalsPlan(EmptyOrder)
      == [Labelled("Subtotal", "0.00"), Labelled("Tax", "0.00"), Rule('-'), Labelled("GRAND TOTAL", "0.00"), Rule('=')]
    ensures PaymentPlan(EmptyOrder)
      == [Labelled("Payment Method", "Cash"), Labelled("Paid Amount", "0.00"), Labelled("Change Amount", "0.00"), Rule('-')]
    ensures FooterPlan(EmptyOrder) == [Centered("Thank you message")]
  {
    var zero := FormatCents(0);
    assert zero == "0.00";
    Singletons([] + [Centered("STORE NAME")], [], Plain("Date: " + now), Plain("Invoice: N/A"), Rule('-'));
    assert "Invoice: " + "N/A" == "Invoice: N/A";
    assert [] + [Centered("STORE NAME")] + [Plain("Date: " + now), Plain("Invoice: N/A"), Rule('-')]
      == [Centered("STORE NAME"), Plain("Date: " + now), Plain("Invoice: N/A"), Rule('-')];
    assert ItemsPlan(width, []) == [];
    assert [ItemTitles, Rule('-')] + [] + [Rule('-')] == [ItemTitles, Rule('-'), Rule('-')];
    Singletons([Labelled("Subtotal", zero)] + [Labelled("Tax", zero)], [], Rule('-'), Labelled("GRAND TOTAL", zero), Rule('='));
    assert [Labelled("Payment Method", "Cash")] + [Labelled("Paid Amount", zero)] + [Labelled("Change Amount", zero)] + [Rule('-')]
      == [Labelled("Payment Method", "Cash"), Labelled("Paid Amount", zero), Labelled("Change Amount", zero), Rule('-')];
    assert [Centered("Thank you message")] + [] == [Centered("Thank you message")];
  }

  /** Appending nothing and then three single lines. */
  lemma Singletons(front: seq<Line>, none: seq<Line>, a: Line, b: Line, c: Line)
    requires none == []
    ensures front + none + [a] + [b] + [c] == front + [a, b, c]
  {
  }

  /** The captions of all labelled lines of a plan are ASCII. */
  predicate AsciiLabels(plan: seq<Line>)
  {
    forall i :: 0 <= i < |plan| ==> AsciiLabel(plan[i])
  }

  predicate AsciiLabel(line: Line) { line.Labelled? ==> AllAscii(line.caption) }

  lemma AsciiLabelsAppend(a: seq<Line>, b: seq<Line>)
    requires AsciiLabels(a) && AsciiLabels(b)
    ensures AsciiLabels(a + b)
  {
    forall i | 0 <= i < |a + b| ensures AsciiLabel((a + b)[i]) {
      if i >= |a| {
        assert (a + b)[i] == b[i - |a|];
      }
    }
  }

  /** A caption made of ASCII characters is laid out as it is, whatever the
      right-to-left setting and the shaping library. */
  lemma AsciiLabelLine(width: nat, rtlSupport: bool, lib: RtlLibrary, lbl: string, right: string)
    requires AllAscii(lbl)
    ensures FormatLine(width, rtlSupport, lib, lbl, right) == lbl + Spaces(Max(0, width - |lbl| - |right|)) + right
  {
    forall i | 0 <= i < |lbl| ensures !InArabicBlock(lbl[i]) {
      assert IsAsciiChar(lbl[i]);
    }
  }

  /** Rendering a plan whose captions are ASCII does not depend on the shaping settings. */
  lemma RenderIndependentOfShaping(width: nat, rtl1: bool, lib1: RtlLibrary, rtl2: bool, lib2: RtlLibrary, plan: seq<Line>)
    requires AsciiLabels(plan)
    ensures RenderAll(width, rtl1, lib1, plan) == RenderAll(width, rtl2, lib2, plan)
  {
    forall i | 0 <= i < |plan|
      ensures Render(width, rtl1, lib1, plan[i]) == Render(width, rtl2, lib2, plan[i])
    {
      if plan[i].Labelled? {
        AsciiLabelLine(width, rtl1, lib1, plan[i].caption, plan[i].value);
        AsciiLabelLine(width, rtl2, lib2, plan[i].caption, plan[i].value);
      }
    }
  }

  lemma {:induction false} ItemsPlanHasNoLabels(width: nat, items: seq<LineItem>)
    ensures forall i :: 0 <= i < |ItemsPlan(width, items)| ==> !ItemsPlan(width, items)[i].Labelled?
  {
    if items != [] {
      ItemsPlanHasNoLabels(width, items[1..]);
      var head: seq<Line> := ItemPlan(width, items[0]);
      var tail: seq<Line> := ItemsPlan(width, items[1..]);
      forall i | 0 <= i < |head + tail| ensures !(head + tail)[i].Labelled? {
        if i >= |head| {
          assert (head + tail)[i] == tail[i - |head|];
        }
      }
    }
  }

  /** Every caption the receipt passes to `_format_line` is ASCII. */
  lemma ReceiptHasAsciiLabels(width: nat, order: OrderData, now: string)
    ensures AsciiLabels(HeaderPlan(order, now)) && AsciiLabels(ItemTablePlan(width, GetOr(order.items, [])))
    ensures AsciiLabels(TotalsPlan(order)) && AsciiLabels(PaymentPlan(order)) && AsciiLabels(FooterPlan(order))
  {
    var items := GetOr(order.items, []);
    ItemsPlanHasNoLabels(width, items);
    AsciiLabelsAppend([ItemTitles, Rule('-')], ItemsPlan(width, items));
    AsciiLabelsAppend([ItemTitles, Rule('-')] + ItemsPlan(width, items), [Rule('-')]);
    TotalsLabelsAscii(order);
    PaymentLabelsAscii(order);
    HeaderLabelsAscii(order, now);
    FooterLabelsAscii(order);
  }

  /** The captions `generate_receipt` hands to `_format_line`. */
  lemma CaptionsAscii()
    ensures AllAscii("Subtotal") && AllAscii("Tax") && AllAscii("Discount") && AllAscii("GRAND TOTAL")
    ensures AllAscii("Payment Method") && AllAscii("Paid Amount") && AllAscii("Change Amount")
  {
  }

  lemma HeaderLabelsAscii(order: OrderData, now: string)
    ensures AsciiLabels(HeaderPlan(order, now))
  {
    var banner := if order.isReprint then [Centered("*** REPRINT ***"), Rule('-')] else [];
    var store := [Centered(GetOr(order.storeName, "STORE NAME"))];
    var logo := if order.showLogo then [Centered("[ LOGO ]")] else [];
    var date := [Plain("Date: " + GetOr(order.date, now))];
    var invoice := [Plain("Invoice: " + GetOr(order.invoiceNo, "N/A"))];
    AsciiLabelsAppend(banner, store);
    AsciiLabelsAppend(banner + store, logo);
    AsciiLabelsAppend(banner + store + logo, date);
    AsciiLabelsAppend(banner + store + logo + date, invoice);
    AsciiLabelsAppend(banner + store + logo + date + invoice, [Rule('-')]);
  }

  lemma FooterLabelsAscii(order: OrderData)
    ensures AsciiLabels(FooterPlan(order))
  {
    var vat := if HasVat(order) then [Centered("VAT/Tax: " + order.vatNo.value)] else [];
    AsciiLabelsAppend([Centered(GetOr(order.footerMsg, "Thank you message"))], vat);
  }

  lemma TotalsLabelsAscii(order: OrderData)
    ensures AsciiLabels(TotalsPlan(order))
  {
    var sub := [Labelled("Subtotal", FormatCents(GetOr(order.subtotal, 0)))];
    var tax := [Labelled("Tax", FormatCents(GetOr(order.tax, 0)))];
    var disc := if Discount(order) > 0 then [Labelled("Discount", "-" + FormatCents(Discount(order)))] else [];
    var total := [Labelled("GRAND TOTAL", FormatCents(GetOr(order.total, 0)))];
    CaptionsAscii();
    AsciiLabelsAppend(sub, tax);
    AsciiLabelsAppend(sub + tax, disc);
    AsciiLabelsAppend(sub + tax + disc, [Rule('-')]);
    AsciiLabelsAppend(sub + tax + disc + [Rule('-')], total);
    AsciiLabelsAppend(sub + tax + disc + [Rule('-')] + total, [Rule('=')]);
  }

  lemma PaymentLabelsAscii(order: OrderData)
    ensures AsciiLabels(PaymentPlan(order))
  {
    var method_ := [Labelled("Payment Method", GetOr(order.paymentMethod, "Cash"))];
    var paid := [Labelled("Paid Amount", FormatCents(GetOr(order.paidAmount, 0)))];
    var change := [Labelled("Change Amount", FormatCents(GetOr(order.change, 0)))];
    CaptionsAscii();
    AsciiLabelsAppend(method_, paid);
    AsciiLabelsAppend(method_ + paid, change);
    AsciiLabelsAppend(method_ + paid + change, [Rule('-')]);
  }

  /** Only `_format_line` shapes text, and every left text it is given is an
      ASCII label: the store name, item names and footer are never shaped, so
      the receipt is the same with or without right-to-left support and
      whatever shaping library is present. */
  lemma ReceiptIndependentOfShaping(width: nat, rtl1: bool, lib1: RtlLibrary, rtl2: bool, lib2: RtlLibrary, order: OrderData, now: string)
    ensures ReceiptLines(width, rtl1, lib1, order, now) == ReceiptLines(width, rtl2, lib2, order, now)
  {
    ReceiptHasAsciiLabels(width, order, now);
    RenderIndependentOfShaping(width, rtl1, lib1, rtl2, lib2, HeaderPlan(order, now));
    RenderIndependentOfShaping(width, rtl1, lib1, rtl2, lib2, ItemTablePlan(width, GetOr(order.items, [])));
    RenderIndependentOfShaping(width, rtl1, lib1, rtl2, lib2, TotalsPlan(order));
    RenderIndependentOfShaping(width, rtl1, lib1, rtl2, lib2, PaymentPlan(order));
    RenderIndependentOfShaping(width, rtl1, lib1, rtl2, lib2, FooterPlan(order));
    ReceiptLinesBySection(width, rtl1, lib1, order, now);
    ReceiptLinesBySection(width, rtl2, lib2, order, now);
  }

  // ---------------------------------------------------------------------------
  // Properties of the payload
  // ---------------------------------------------------------------------------

  /** The reprint segments join to the reprint header bytes. */
  lemma ReprintConcat(order: OrderData)
    ensures Concat(ReprintCommands(order)) == ReprintHeaderBytes(order)
  {
    if order.isReprint {
      ConcatOne(BOLD_ON);
      ConcatSnoc([BOLD_ON], ReprintBannerBytes);
      ConcatSnoc([BOLD_ON] + [ReprintBannerBytes], BOLD_OFF);
      ConcatSnoc([BOLD_ON] + [ReprintBannerBytes] + [BOLD_OFF], DashRuleBytes);
    }
  }

  /** The joined segments: the fixed control codes around the encoded store
      name and the encoded text receipt. */
  lemma PayloadLayout(order: OrderData, receiptText: string)
    ensures Concat(EscPosCommands(order, receiptText))
      == INIT + ALIGN_CENTER + ReprintHeaderBytes(order)
         + BOLD_ON + AsciiIgnore(GetOr(order.storeName, "STORE NAME")) + LineFeed + BOLD_OFF
         + ALIGN_LEFT + AsciiIgnore(receiptText) + TrailingFeed + CUT
  {
    var store := AsciiIgnore(GetOr(order.storeName, "STORE NAME"));
    var text := AsciiIgnore(receiptText);
    var p1 := [INIT] + [ALIGN_CENTER] + ReprintCommands(order);
    var p2 := p1 + [BOLD_ON];
    var p3 := p2 + [store + LineFeed];
    var p4 := p3 + [BOLD_OFF];
    var p5 := p4 + [ALIGN_LEFT];
    var p6 := p5 + [text];
    var p7 := p6 + [TrailingFeed];
    ConcatSnoc(p7, CUT);
    ConcatSnoc(p6, TrailingFeed);
    ConcatSnoc(p5, text);
    ConcatSnoc(p4, ALIGN_LEFT);
    ConcatSnoc(p3, BOLD_OFF);
    ConcatSnoc(p2, store + LineFeed);
    ConcatSnoc(p1, BOLD_ON);
    ConcatSplit([INIT] + [ALIGN_CENTER], ReprintCommands(order));
    ConcatOne(INIT);
    ConcatSnoc([INIT], ALIGN_CENTER);
    ReprintConcat(order);
    Assoc(INIT + ALIGN_CENTER + ReprintHeaderBytes(order) + BOLD_ON, store, LineFeed);
  }

  predicate SevenBit(b: seq<byte>) { forall i :: 0 <= i < |b| ==> b[i] < 0x80 }

  lemma SevenBitAppend(a: seq<byte>, b: seq<byte>)
    requires SevenBit(a) && SevenBit(b)
    ensures SevenBit(a + b)
  {
  }

  /** The control codes and fixed texts are 7-bit. */
  lemma ControlCodesSevenBit(order: OrderData)
    ensures SevenBit(INIT) && SevenBit(ALIGN_CENTER) && SevenBit(ALIGN_LEFT) && SevenBit(BOLD_ON) && SevenBit(BOLD_OFF)
    ensures SevenBit(LineFeed) && SevenBit(TrailingFeed) && SevenBit(CUT)
    ensures SevenBit(ReprintHeaderBytes(order))
  {
    if order.isReprint {
      assert SevenBit(ReprintBannerBytes) && SevenBit(DashRuleBytes);
      SevenBitAppend(BOLD_ON, ReprintBannerBytes);
      SevenBitAppend(BOLD_ON + ReprintBannerBytes, BOLD_OFF);
      SevenBitAppend(BOLD_ON + ReprintBannerBytes + BOLD_OFF, DashRuleBytes);
    }
  }

  /** Every byte sent to the printer is below 0x80: the control codes are,
      and all text goes through the ASCII encoder, which drops the rest. */
  lemma PayloadIsSevenBit(order: OrderData, receiptText: string)
    ensures SevenBit(Concat(EscPosCommands(order, receiptText)))
  {
    PayloadLayout(order, receiptText);
    ControlCodesSevenBit(order);
    var store := AsciiIgnore(GetOr(order.storeName, "STORE NAME"));
    var text := AsciiIgnore(receiptText);
    var q1 := INIT + ALIGN_CENTER;
    var q2 := q1 + ReprintHeaderBytes(order);
    var q3 := q2 + BOLD_ON;
    var q4 := q3 + store;
    var q5 := q4 + LineFeed;
    var q6 := q5 + BOLD_OFF;
    var q7 := q6 + ALIGN_LEFT;
    var q8 := q7 + text;
    var q9 := q8 + TrailingFeed;
    SevenBitAppend(INIT, ALIGN_CENTER);
    SevenBitAppend(q1, ReprintHeaderBytes(order));
    SevenBitAppend(q2, BOLD_ON);
    SevenBitAppend(q3, store);
    SevenBitAppend(q4, LineFeed);
    SevenBitAppend(q5, BOLD_OFF);
    SevenBitAppend(q6, ALIGN_LEFT);
    SevenBitAppend(q7, text);
    SevenBitAppend(q8, TrailingFeed);
    SevenBitAppend(q9, CUT);
  }

  /** The reprint header is 55 bytes: bold on, the 16-byte banner, bold off
      and the 33-byte rule. */
  lemma ReprintHeaderLength(order: OrderData)
    ensures |ReprintHeaderBytes(order)| == if order.isReprint then 55 else 0
  {
  }

  /** The payload opens with ESC @ and ESC a 1 and closes with three line
      feeds and GS V A 3. */
  lemma PayloadFrame(order: OrderData, receiptText: string)
    ensures var p := Concat(EscPosCommands(order, receiptText));
      && |p| >= 12
      && p[..5] == INIT + ALIGN_CENTER
      && p[|p| - 7..] == TrailingFeed + CUT
  {
    PayloadLayout(order, receiptText);
    var store := AsciiIgnore(GetOr(order.storeName, "STORE NAME"));
    var q1 := INIT + ALIGN_CENTER;
    var q2 := q1 + ReprintHeaderBytes(order);
    var q3 := q2 + BOLD_ON;
    var q4 := q3 + store;
    var q5 := q4 + LineFeed;
    var q6 := q5 + BOLD_OFF;
    var q7 := q6 + ALIGN_LEFT;
    var q8 := q7 + AsciiIgnore(receiptText);
    var q9 := q8 + TrailingFeed;
    PrefixAll(q1);
    PrefixKept(q1, ReprintHeaderBytes(order), 5);
    PrefixKept(q2, BOLD_ON, 5);
    PrefixKept(q3, store, 5);
    PrefixKept(q4, LineFeed, 5);
    PrefixKept(q5, BOLD_OFF, 5);
    PrefixKept(q6, ALIGN_LEFT, 5);
    PrefixKept(q7, AsciiIgnore(receiptText), 5);
    PrefixKept(q8, TrailingFeed, 5);
    PrefixKept(q9, CUT, 5);
    Assoc(q8, TrailingFeed, CUT);
    SuffixKept(q8, TrailingFeed + CUT, |q8|);
  }

  /** Without a reprint, the text receipt starts with the centered store
      name, so the store name reaches the printer twice. */
  lemma StoreNameStartsText(width: nat, rtlSupport: bool, lib: RtlLibrary, order: OrderData, now: string)
    requires !order.isReprint
    ensures var first := CenterText(width, GetOr(order.storeName, "STORE NAME"));
      var text := ReceiptText(width, rtlSupport, lib, order, now);
      |text| > |first| && text[..|first| + 1] == first + "\n"
  {
    var lines := ReceiptLines(width, rtlSupport, lib, order, now);
    ReprintBanner(width, order, now);
    var first := CenterText(width, GetOr(order.storeName, "STORE NAME"));
    assert lines[0] == first;
    var text := Join(lines, "\n");
    assert text == first + "\n" + Join(lines[1..], "\n");
  }

  /** Without a reprint, the store name is sent twice: as the bold line right
      after the opening codes, and again as the first line of the encoded
      text receipt, right after line feed, bold off and left alignment. */
  lemma StoreNamePrintedTwice(width: nat, rtlSupport: bool, lib: RtlLibrary, order: OrderData, now: string)
    requires !order.isReprint
    ensures var store := AsciiIgnore(GetOr(order.storeName, "STORE NAME"));
      var centered := AsciiIgnore(CenterText(width, GetOr(order.storeName, "STORE NAME")));
      var p := Concat(EscPosCommands(order, ReceiptText(width, rtlSupport, lib, order, now)));
      var start := INIT + ALIGN_CENTER + BOLD_ON + store + LineFeed + BOLD_OFF + ALIGN_LEFT + centered;
      |p| >= |start| && p[..|start|] == start
  {
    var first := CenterText(width, GetOr(order.storeName, "STORE NAME"));
    var text := ReceiptText(width, rtlSupport, lib, order, now);
    StoreNameStartsText(width, rtlSupport, lib, order, now);
    PrefixKept(first, "\n", |first|);
    PrefixAll(first);
    assert text[..|first|] == text[..|first| + 1][..|first|];
    PayloadStartsWith(order, text, first);
  }

  /** A payload without reprint header whose receipt text starts with `first`
      starts with the opening codes, the bold store name and the encoded `first`. */
  lemma PayloadStartsWith(order: OrderData, text: string, first: string)
    requires !order.isReprint
    requires |text| >= |first| && text[..|first|] == first
    ensures var store := AsciiIgnore(GetOr(order.storeName, "STORE NAME"));
      var p := Concat(EscPosCommands(order, text));
      var start := INIT + ALIGN_CENTER + BOLD_ON + store + LineFeed + BOLD_OFF + ALIGN_LEFT + AsciiIgnore(first);
      |p| >= |start| && p[..|start|] == start
  {
    PayloadLayout(order, text);
    var rest := text[|first|..];
    assert text == first + rest;
    AsciiIgnoreAppend(first, rest);
    var store := AsciiIgnore(GetOr(order.storeName, "STORE NAME"));
    var y := INIT + ALIGN_CENTER + BOLD_ON + store + LineFeed + BOLD_OFF + ALIGN_LEFT;
    var c := AsciiIgnore(first);
    var r := AsciiIgnore(rest);
    assert INIT + ALIGN_CENTER + ReprintHeaderBytes(order) == INIT + ALIGN_CENTER;
    Assoc(y, c, r);
    PrefixAll(y + c);
    PrefixKept(y + c, r, |y + c|);
    PrefixKept(y + c + r, TrailingFeed, |y + c|);
    PrefixKept(y + c + r + TrailingFeed, CUT, |y + c|);
  }

  /** The text receipt splits back into its lines when no input string contains a newline. */
  lemma ReceiptTextSplitsIntoLines(width: nat, rtlSupport: bool, lib: RtlLibrary, order: OrderData, now: string)
    requires forall i :: 0 <= i < |ReceiptLines(width, rtlSupport, lib, order, now)| ==> '\n' !in ReceiptLines(width, rtlSupport, lib, order, now)[i]
    ensures Split(ReceiptText(width, rtlSupport, lib, order, now), '\n') == ReceiptLines(width, rtlSupport, lib, order, now)
  {
    JoinSplit(ReceiptLines(width, rtlSupport, lib, order, now), '\n');
  }
}
