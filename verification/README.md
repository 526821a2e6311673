# Doha Roastery point of sale: a Dafny model of its core logic

This project models the logic of the Doha Roastery point-of-sale system in Dafny and proves properties about it. The model does not include the screens or the database.

The main part is the thermal receipt layout engine (`thermal_printer/receipt_printer.py`), which is modelled in three layers:

- The pure helpers are in `ReceiptLayout`:
  - the paper-width table;
  - the Arabic-script detector and shaper;
  - the justified and centered line formatters;
  - Python's two-decimal amount formatting;
  - the rows of the item table.
- `ReceiptPrinter` holds the class `ThermalReceiptModule`:
  - `GenerateReceipt` builds the receipt lines section by section;
  - `GetEscPosCommands` builds the ESC/POS byte payload.

  Each is proved against a specification function. Lemmas then state the layout the receipt and the payload follow.

Around the receipt engine, the model covers the business rules of the application's screens and services:

- `ReportExport`: HTML escaping and the report tables (`utils/reportExport.ts`).
- `BeverageService`: recipe cost and price sums (`services/beverageService.ts`).
- `CatalogImport`: the CSV/TSV catalogue reader and writer, SKU and boolean cells, and quick stock adjustments (`views/ConfigurationView.tsx`).
- `Staff`: shift times, shift length, lateness and late penalties (payroll and the day's dashboard total), the absence-streak report, payroll approval and form normalisation (`views/StaffView.tsx`).
- `Pos`: cart lines, totals and change, returns, checkout stock deductions, invoice numbers and split payments (`views/POSView.tsx`).
- `Inventory`: availability, stock status, product summaries, purchase receipts, adjustments, stock counts and transfers (`views/InventoryView.tsx`).
- `Roasting`: batch weights, packaging lines, and the start, finish, cancel and package steps of a roast batch (`views/RoastingView.tsx`).
- `ShiftService`: cash-drawer reconciliation (`services/shiftService.ts`).

`Common` holds the shared pieces:

- an Option type and the JavaScript number with NaN;
- splitting, joining and trimming text;
- decimal text of numbers;
- the decimal subset of `Number`, `parseInt` and `parseFloat`.

How the source is represented:

- Amounts on the receipt are integer cents. Elsewhere money and weights are exact reals.
- Database tables are maps or sequences passed in and returned. The steps the roasting screen performs on the green-bean, batch, movement and inventory tables update the fields of the class `Roasting.Roastery`.
- Loops in the source are methods with loop invariants, proved against the fold they compute:
  - the receipt builders;
  - the grouping of products;
  - the count-entry and restock loops;
  - the checkout deduction loop;
  - the packaging loop;
  - the shift totals.

## Model

| member | source | states |
|---|---|---|
| ReceiptLayout.WidthFor | thermal_printer/receipt_printer.py:19-22 | a paper width gives 32 columns exactly when it is "58mm" and 48 columns otherwise |
| ReceiptLayout.ReverseInvolutive | thermal_printer/receipt_printer.py:53 | the fallback reversal undoes itself |
| ReceiptLayout.FallbackShapingInvolutive | thermal_printer/receipt_printer.py:44-54 | without the shaping libraries, `_reshape_rtl` keeps the length of the text, and applying it twice gives the text back |
| ReceiptLayout.FormatLineShape | thermal_printer/receipt_printer.py:56-63 | `_format_line` starts with the shaped left text and ends with the right text. Only spaces come between them. The line is exactly the width when both fit; otherwise the padding is zero and the line overflows |
| ReceiptLayout.CenterTextShape | thermal_printer/receipt_printer.py:65-66 | text at least as wide as the line is returned unchanged. Shorter text is padded with spaces to exactly the width, at the `str.center` offset |
| ReceiptLayout.CenterOnEvenWidth | thermal_printer/receipt_printer.py:65-66 | on the 32- and 48-column widths, centred text gets the floor of half the margin on the left and the rest on the right |
| ReceiptLayout.JustifyShape | thermal_printer/receipt_printer.py:99-101 | `ljust`/`rjust` pad with spaces to `max(n, len)` and never cut: the text is the prefix or the suffix of the result |
| ReceiptLayout.Take | thermal_printer/receipt_printer.py:113-115 | `name[:n]` is the prefix of length `min(n, len(name))` |
| ReceiptLayout.FormatCentsRoundTrip | thermal_printer/receipt_printer.py:126-140 | every amount printed with two decimals reads back as exactly that amount, negative amounts included |
| ReceiptLayout.FormatCentsWidth | thermal_printer/receipt_printer.py:113-115 | a non-negative amount below 10^k units takes at most k + 3 columns |
| ReceiptLayout.ItemHeaderWidth | thermal_printer/receipt_printer.py:98-101 | the column-title row is 47 columns wide on the 80 mm layout and 32 on the 58 mm one |
| ReceiptLayout.ItemRowShape | thermal_printer/receipt_printer.py:112-115 | when the quantity and amounts fit their columns, an item row is 47 or 32 columns wide. It starts with the cut name and ends with the line total |
| ReceiptPrinter.AsciiIgnore | thermal_printer/receipt_printer.py:178 | `encode('ascii', 'ignore')` gives at most one byte per character, and every byte is below 0x80 |
| ReceiptPrinter.AsciiIgnoreKeepsOrder | thermal_printer/receipt_printer.py:167 | the encoded bytes decode to a subsequence of the text. They decode to the whole text if and only if the text is all ASCII |
| ReceiptPrinter.AsciiIgnoreAppend | thermal_printer/receipt_printer.py:178 | encoding distributes over concatenation |
| ReceiptPrinter.ThermalReceiptModule.constructor | thermal_printer/receipt_printer.py:35-38 | stores the paper width and the right-to-left flag, and sets the width from `WIDTH_CONFIG` with 48 as the default |
| ReceiptPrinter.ThermalReceiptModule.GenerateReceipt | thermal_printer/receipt_printer.py:68-149 | resets the width from the printer configuration, leaves the other fields alone, and returns the receipt lines joined by newlines |
| ReceiptPrinter.ThermalReceiptModule.GetEscPosCommands | thermal_printer/receipt_printer.py:151-184 | returns the join of the segment list that the source appends, and sets the width as `generate_receipt` does |
| ReceiptPrinter.ReprintAppended | thermal_printer/receipt_printer.py:160-164 | a reprint appends bold-on, the banner, bold-off and the dash rule; otherwise nothing is appended |
| ReceiptPrinter.AppendHeader | thermal_printer/receipt_printer.py:77-94 | the header loop appends the rendering of the header plan |
| ReceiptPrinter.AppendItems | thermal_printer/receipt_printer.py:96-123 | the item loop appends the titles, a rule, each item's lines in input order, and a rule |
| ReceiptPrinter.ItemLines | thermal_printer/receipt_printer.py:106-121 | one item gives its row, then `"  " + name` only when the name is longer than the name column |
| ReceiptPrinter.AppendTotals | thermal_printer/receipt_printer.py:125-135 | appends the rendering of the totals plan |
| ReceiptPrinter.AppendPayment | thermal_printer/receipt_printer.py:137-141 | appends the rendering of the payment plan |
| ReceiptPrinter.AppendFooter | thermal_printer/receipt_printer.py:143-147 | appends the rendering of the footer plan |
| ReceiptPrinter.HeaderRendered | thermal_printer/receipt_printer.py:77-94 | the header consists of: the banner and a rule on a reprint; the centred store name (default "STORE NAME"); the logo placeholder when asked for; "Date: " with the date or the current time; "Invoice: " with the number or "N/A"; and a rule |
| ReceiptPrinter.ItemRendered | thermal_printer/receipt_printer.py:106-121 | one more item appends exactly that item's lines |
| ReceiptPrinter.ItemTableRendered | thermal_printer/receipt_printer.py:96-123 | the item table is the titles, a rule, the item lines and a rule |
| ReceiptPrinter.TotalsRendered | thermal_printer/receipt_printer.py:125-135 | the totals section holds: Subtotal; Tax; the "-"-prefixed Discount only when the discount is positive; a rule; GRAND TOTAL; and a double rule |
| ReceiptPrinter.PaymentRendered | thermal_printer/receipt_printer.py:137-141 | the payment section holds: the payment method (default "Cash"); the paid amount; the change; and a rule |
| ReceiptPrinter.FooterRendered | thermal_printer/receipt_printer.py:143-147 | the footer holds the centred message (default "Thank you message"), then the VAT line only for a non-empty VAT number |
| ReceiptPrinter.ReceiptLinesBySection | thermal_printer/receipt_printer.py:68-149 | the receipt is the header, item, totals, payment and footer sections in that order |
| ReceiptPrinter.GenerateReceipt | thermal_printer/receipt_printer.py:186-194 | the module-level entry point renders with the configured width and right-to-left flag, which default to 80 mm and on |
| ReceiptPrinter.ItemsPlanAppend | thermal_printer/receipt_printer.py:106-121 | the lines of two runs of items are the lines of the first followed by those of the second, so items keep their order |
| ReceiptPrinter.ItemsPlanLength | thermal_printer/receipt_printer.py:117-121 | there is one line per item plus one per long name |
| ReceiptPrinter.ReceiptLineCount | thermal_printer/receipt_printer.py:68-149 | a receipt has 17 lines, plus 2 for a reprint, 1 for the logo, 1 for a discount and 1 for a VAT number, plus the item lines |
| ReceiptPrinter.ReprintBanner | thermal_printer/receipt_printer.py:78-83 | a reprint opens with the banner and a rule before the store name; any other receipt opens with the store name |
| ReceiptPrinter.DiscountLineIff | thermal_printer/receipt_printer.py:126-133 | Subtotal and Tax are followed by the Discount line if and only if the discount is positive, and otherwise by the rule |
| ReceiptPrinter.FooterAndVat | thermal_printer/receipt_printer.py:143-147 | the last line is the VAT line, after the footer, exactly when a VAT number is given; otherwise it is the footer |
| ReceiptPrinter.EmptyOrderDefaults | thermal_printer/receipt_printer.py:83-144 | an empty order prints every default ("STORE NAME", "N/A", 0.00 amounts, "Cash", "Thank you message") with no discount and no VAT line |
| ReceiptPrinter.AsciiLabelLine | thermal_printer/receipt_printer.py:56-63 | an ASCII caption is laid out unshaped, whatever the right-to-left setting |
| ReceiptPrinter.RenderIndependentOfShaping | thermal_printer/receipt_printer.py:56-66 | a plan whose captions are ASCII renders the same under any shaping settings |
| ReceiptPrinter.ReceiptHasAsciiLabels | thermal_printer/receipt_printer.py:126-140 | every caption passed to `_format_line` is ASCII |
| ReceiptPrinter.ReceiptIndependentOfShaping | thermal_printer/receipt_printer.py:68-149 | the receipt text does not depend on `rtl_support` or on whether the shaping libraries are present |
| ReceiptPrinter.ReprintConcat | thermal_printer/receipt_printer.py:160-164 | the reprint segments join to the reprint header bytes |
| ReceiptPrinter.PayloadLayout | thermal_printer/receipt_printer.py:156-184 | the payload is: INIT; ALIGN_CENTER; the reprint header; BOLD_ON, the encoded store name and a line feed; BOLD_OFF; ALIGN_LEFT; the encoded receipt; three line feeds; and CUT |
| ReceiptPrinter.ControlCodesSevenBit | thermal_printer/receipt_printer.py:24-33 | every control code and fixed text is 7-bit |
| ReceiptPrinter.PayloadIsSevenBit | thermal_printer/receipt_printer.py:151-184 | every byte sent to the printer is below 0x80 |
| ReceiptPrinter.ReprintHeaderLength | thermal_printer/receipt_printer.py:160-164 | the reprint header is 55 bytes on a reprint and empty otherwise |
| ReceiptPrinter.PayloadFrame | thermal_printer/receipt_printer.py:156-184 | the payload opens with ESC @ ESC a 1 and closes with three line feeds and GS V A 3 |
| ReceiptPrinter.StoreNameStartsText | thermal_printer/receipt_printer.py:78-83 | without a reprint, the text receipt starts with the centred store name and a newline |
| ReceiptPrinter.StoreNamePrintedTwice | thermal_printer/receipt_printer.py:166-178 | without a reprint, the store name reaches the printer twice: bold, then centred at the start of the text receipt |
| ReceiptPrinter.PayloadStartsWith | thermal_printer/receipt_printer.py:156-178 | the payload starts with the opening codes, the bold store name and the encoded start of the receipt text |
| ReceiptPrinter.ReceiptTextSplitsIntoLines | thermal_printer/receipt_printer.py:149 | the joined receipt splits back into its lines when no line holds a newline |
| ReportExport.EscapeAppend | utils/reportExport.ts:4-10 | escaping distributes over concatenation |
| ReportExport.EscapeOne | utils/reportExport.ts:4-10 | because `&` is replaced first, the chain maps each character to its entity, or to itself, as the entity table says |
| ReportExport.EscapePerChar | utils/reportExport.ts:4-10 | the chained replacements equal the per-character reference applied left to right |
| ReportExport.EscapeMarkupFree | utils/reportExport.ts:4-10 | escaped text contains none of `<`, `>`, `"` or `'` |
| ReportExport.EscapeClean | utils/reportExport.ts:4-10 | text without any of the five special characters is returned unchanged |
| ReportExport.UnescapeEscape | utils/reportExport.ts:4-10 | decoding the five entities recovers the original text, so escaping loses nothing |
| ReportExport.HeaderRowTags | utils/reportExport.ts:17-19 | the header row has one `<th>` pair per column, whatever the labels contain |
| ReportExport.RowCellsTags | utils/reportExport.ts:22-24 | a row has one `<td>` pair per cell |
| ReportExport.BodyRowsTags | utils/reportExport.ts:20-27 | the body has one `<tr>` pair per row around its cells |
| ReportExport.SectionHtmlTags | utils/reportExport.ts:15-37 | a section's tags are its fixed frame plus its header and row tags; user text adds none |
| ReportExport.SectionsHtmlTags | utils/reportExport.ts:14-38 | the tag count of the joined sections is the sum over the sections |
| ReportExport.BuildHtmlTags | utils/reportExport.ts:12-61 | the page holds exactly the page frame's tags plus each section's, whatever the title and the cells contain |
| ReportExport.EscapedNoTag | utils/reportExport.ts:4-10 | escaped text contributes no `<` |
| ReportExport.EmptyCells | utils/reportExport.ts:23 | a null or undefined cell renders as `<td></td>` |
| ReportExport.CellRecoverable | utils/reportExport.ts:23 | the cell text can be read back from the escaped cell |
| BeverageService.SumCostsIsTotal | services/beverageService.ts:16-23 | the `reduce` of `calculateRecipeCost` computes the sum of amount × cost per unit, where a missing cost counts as 0 |
| BeverageService.RecipeCostAppend | services/beverageService.ts:16-23 | the recipe cost adds up over concatenated ingredient lists |
| BeverageService.RecipeCostAbsent | services/beverageService.ts:17 | a missing recipe, a missing ingredient list and an empty one all cost 0 |
| BeverageService.SumCostsNonNegative | services/beverageService.ts:19-22 | with non-negative amounts and costs, the recipe cost is non-negative |
| BeverageService.TotalPriceAddOn | services/beverageService.ts:32-35 | with no add-ons the total is the base price; each extra add-on adds its price |
| BeverageService.TotalPriceOrder | services/beverageService.ts:32-35 | any rearrangement of the same selected add-ons gives the same total price |
| BeverageService.CostBreakdownDefaults | services/beverageService.ts:40-50 | with labour and overhead omitted (default 0), the total and the material cost are both the recipe cost, and labour and overhead are 0. A missing recipe costs 0 |
| BeverageService.CostBreakdownBounds | services/beverageService.ts:40-50 | with non-negative ingredient amounts and costs, labour and overhead, the material cost is non-negative, the total is at least the material cost, and the difference is exactly the labour plus the overhead passed in |
| CatalogImport.NormalizeSkuChars | views/ConfigurationView.tsx:1627 | a normalised SKU holds only `A`–`Z`, `0`–`9` and `-` |
| CatalogImport.NormalizeSkuIdempotent | views/ConfigurationView.tsx:1627 | normalising twice gives the same as normalising once |
| CatalogImport.DropBlank | views/ConfigurationView.tsx:1662 | the filter keeps only rows of the input that have a non-blank cell, and never adds rows |
| CatalogImport.ParseDelimited | views/ConfigurationView.tsx:1628-1663 | the index loop, with its two-character lookahead for a doubled quote, computes the reader's specification |
| CatalogImport.ParseCells | views/ConfigurationView.tsx:1645-1662 | no returned row is blank and no cell holds a `\r` |
| CatalogImport.QuotedRoundTrip | views/ConfigurationView.tsx:1628-1673 | exported rows read back as the same rows, minus the blank ones, whatever quotes, delimiters or line breaks the cells hold. The rows must contain no `\r` and the delimiter must be neither a quote nor a line break |
| CatalogImport.CsvRoundTrip | views/ConfigurationView.tsx:1742-1746 | the CSV export read back with `,` gives the exported rows minus the blank ones |
| CatalogImport.CsvRowRoundTrip | views/ConfigurationView.tsx:1673 | one exported non-blank row reads back as exactly that row |
| CatalogImport.TextScan | views/ConfigurationView.tsx:1628-1661 | quoted lines joined with `\n` are read back as exactly those rows, appended to the rows already read |
| CatalogImport.ParseBooleanCase | views/ConfigurationView.tsx:1664 | letter case does not matter: an upper-cased value parses as the value does |
| CatalogImport.ImportDelimiterTabs | views/ConfigurationView.tsx:1763-1764 | the importer picks tab exactly when the first line has more tabs than commas, and comma otherwise |
| CatalogImport.QuickAdjustmentRules | views/ConfigurationView.tsx:2229-2262 | a quantity that is not positive is refused as an invalid number. A result below zero is refused as insufficient stock. An accepted adjustment gives a non-negative stock that equals the old stock plus the intake minus the withdrawal, and exactly one of the two is positive |
| CatalogImport.QuickAdjustmentStock | views/ConfigurationView.tsx:2234-2243 | with non-negative stock an intake is always accepted, and a withdrawal is accepted exactly when it does not exceed the stock |
| Staff.ToMinutesDigits | views/StaffView.tsx:1521-1526 | `toMinutes` of "hh:mm" with digit fields is hours times 60 plus minutes |
| Staff.ToMinutesMissing | views/StaffView.tsx:1521-1526 | a missing or empty time gives no minutes. A time without a colon gives NaN, because the minutes field is undefined |
| Staff.TwoDigitClock | views/StaffView.tsx:1521-1526 | every zero-padded clock time "HH:MM" of a day converts to its minute of the day |
| Staff.TemplateMinutes | views/StaffView.tsx:69-74 | each shift template's start and end times convert to whole hours (07:00, 15:00, 23:00, 09:00, 21:00) in minutes |
| Staff.RawMinutesModulo | views/StaffView.tsx:1502-1504 | the shift length in minutes is the end minus the start modulo one day: it is in [0, 1440) and zero when start equals end |
| Staff.ShiftHoursOfTimes | views/StaffView.tsx:1497-1507 | `calculateShiftHours` is the wrapped length minus the break, divided by 60 and clamped at 0. A missing break counts as 0; a missing or empty time gives null |
| Staff.NightShiftHours | views/StaffView.tsx:69-74 | the night template (23:00 to 07:00) lasts 8 hours across midnight, and 7.5 hours with a 30-minute break |
| Staff.WithinShiftWindow | views/StaffView.tsx:1528-1537 | `isNowWithinShift` with start <= end is the closed window; with start > end it wraps past midnight |
| Staff.WithinShiftMissing | views/StaffView.tsx:1528-1535 | when the start or end time cannot be converted, nobody is within the shift |
| Staff.WithinNightShift | views/StaffView.tsx:1528-1537 | the employee's own times override the template. On the night template, 23:30 and 06:00 are within the shift and noon is not |
| Staff.LatenessRule | views/StaffView.tsx:1994-2006 | in payroll, a first clock-in is late exactly when the late minutes past start plus grace are positive. With a positive amount, the per-minute penalty is late minutes times the amount and the per-occurrence penalty is the amount; otherwise nothing is charged. An unknown or NaN start is never late |
| Staff.DefaultGrace | views/StaffView.tsx:1994-1997 | without a grace setting 15 minutes apply: 15 minutes late is on time, 16 is late. A grace of 0 is kept |
| Staff.PerOccurrenceToday | views/StaffView.tsx:1682-1700 | per occurrence, today's late penalties are the amount times the number of rows whose stored flag says late. Missing employees, clock-ins and start times do not matter |
| Staff.NoFlaggedRowsToday | views/StaffView.tsx:1686-1688 | rows are selected by their stored late flag only: with none flagged, today's total is 0 |
| Staff.NaNStartPoisonsToday | views/StaffView.tsx:1690-1697 | per minute, one flagged row whose start minute is NaN makes today's total NaN, because `Math.max(0, NaN)` is NaN |
| Staff.TodayMatchesPayroll | views/StaffView.tsx:1687-1697 | when a row's stored flag agrees with its times and the amount is positive, the dashboard adds for that row what payroll charges for the day |
| Staff.EmployeeStats | views/StaffView.tsx:1884-1923 | the day loop of `reportEmployeeStats` returns the present, absent, late and longest-absence-streak counts of the tally over the days |
| Staff.TallyInvariant | views/StaffView.tsx:1884-1923 | the current streak is at most the longest, which is at most the absences; late days are present days; present plus absent is the number of past days, and 0 on leave |
| Staff.MaxRunGrows | views/StaffView.tsx:1918-1920 | the longest absence streak over a prefix of the days is at most the one over all the days |
| Staff.StreakDetected | views/StaffView.tsx:1915-1920 | k consecutive past days without logs make the longest streak at least k |
| Staff.AnomalyFromStreak | views/StaffView.tsx:1894-1935 | three consecutive absences flag the employee as an anomaly. An employee on leave has no streak |
| Staff.ApprovalChain | views/StaffView.tsx:2262-2274 | an approval action exists exactly for the role whose turn it is (HR on draft, manager on HR-approved, admin on manager-approved), and it advances one stage. A missing approval acts as draft; nothing follows admin approval |
| Staff.NormalizeEmptyStringRules | views/StaffView.tsx:1195-1199 | `normalizeEmptyString` is null exactly for missing or blank input and otherwise the trimmed text; it is idempotent |
| Staff.EscapeValueQuotes | views/StaffView.tsx:2123-2126 | the CSV escape holds twice as many quote characters as the value, plus the two that wrap it: every quote inside is doubled |
| Inventory.AvailableStock | views/InventoryView.tsx:252-256 | the available stock is never negative. It is stock less reserved and damaged units (missing ones count as 0), or 0 when that is negative |
| Inventory.AvailableWithinStock | views/InventoryView.tsx:252-256 | with non-negative reserved and damaged counts, availability is at most the stock on hand, and equals stock less both whenever they fit |
| Inventory.StatusRules | views/InventoryView.tsx:268-274 | an item is critical exactly when available stock is at or below the minimum (10 when unset); otherwise expiring exactly when it expires within 30 days; otherwise good |
| Inventory.ZeroMinimumActsAsTen | views/InventoryView.tsx:270 | a minimum stock of 0 behaves like an unset one (threshold 10), and low stock wins over a near expiry |
| Inventory.StagnantDays | views/InventoryView.tsx:283-287 | the stagnant-days threshold is the entered number floored, and 30 when the text is not a number or not positive |
| Inventory.StagnantDaysNonNegative | views/InventoryView.tsx:283-287 | the threshold is never negative |
| Inventory.FindKey | views/InventoryView.tsx:337 | the lookup returns the first row with the key, or the row count when no row has it |
| Inventory.GroupItems | views/InventoryView.tsx:330-355 | the `forEach` over the items builds the product (or product and location) rows of the fold `Groups` |
| Inventory.FindRow | views/InventoryView.tsx:337 | the summary map's lookup loop finds the first row with the key |
| Inventory.GroupsKeys | views/InventoryView.tsx:330-386 | the rows have distinct keys, no more rows than items, and a row exists for a key exactly when some item has that key |
| Inventory.GroupsTotals | views/InventoryView.tsx:330-386 | each row holds the total stock and total availability of the items with its key |
| Inventory.GroupsPreserveStock | views/InventoryView.tsx:330-386 | grouping preserves stock: the rows' stock adds up to the items' stock |
| Inventory.AddItemKeys | views/InventoryView.tsx:337-354 | one step adds the item's key to the rows and keeps the keys distinct |
| Inventory.SumStockAppend | views/InventoryView.tsx:345-353 | a new row adds its stock to the total |
| Inventory.SumStockUpdate | views/InventoryView.tsx:340-342 | updating a row changes the total by the change in that row |
| Inventory.ReceivedQuantity | views/InventoryView.tsx:721 | a received quantity is never negative: NaN and negative entries count as 0 |
| Inventory.CheckAll | views/InventoryView.tsx:719-723 | normalising the receipt form keeps one checked line per form line, in order |
| Inventory.ReceiptStatusCases | views/InventoryView.tsx:724-726 | an order with every line passed and received in full, and some line positive, is RECEIVED. An order whose lines all failed is REJECTED |
| Inventory.RestockedAddsAccepted | views/InventoryView.tsx:728-737 | the corrected restock keeps the set of items and adds to each item's non-negative stock every quantity accepted for it, across all of its lines |
| Inventory.AcceptedQtyNonNegative | views/InventoryView.tsx:730 | the accepted quantity of an item is never negative |
| Inventory.RejectedChangesNothing | views/InventoryView.tsx:726-728 | a rejected receipt leaves the stock table unchanged |
| Inventory.RejectedChangesNothingFrom | views/InventoryView.tsx:730 | lines that are not accepted change no stock |
| Inventory.StaleStockLosesUpdate | views/InventoryView.tsx:728-737 | two passed lines of 5 and 3 for an item with 10 in stock: the loop as written leaves 13, the corrected one 18 |
| Inventory.ConfirmReceive | views/InventoryView.tsx:714-737 | corrected `handleConfirmReceive`: the purchase status of the normalised lines, and the stock table restocked with the accepted lines |
| Inventory.RestockLines | views/InventoryView.tsx:728-737 | the corrected stock loop yields the restocked table |
| Inventory.ConfirmReceiveAsWritten | views/InventoryView.tsx:714-737 | `handleConfirmReceive` as written: the same status, and the stock unchanged when rejected, otherwise each line adds to the stock shown on screen |
| Inventory.RestockLinesAsWritten | views/InventoryView.tsx:728-737 | the stock loop as written: each accepted line writes screen stock plus quantity |
| Inventory.AdjustmentRules | views/InventoryView.tsx:1334-1350 | an adjustment is recorded exactly for warehouse staff with notes of at least 10 UTF-16 code units (a character outside the Basic Multilingual Plane counts twice). Its value is the absolute quantity times the price, and it needs approval exactly when the value is above 1000 |
| Inventory.UnreadableQuantityApproved | views/InventoryView.tsx:1346-1350 | a quantity `parseInt` cannot read gives a NaN value, which is approved without review |
| Inventory.CountItems | views/InventoryView.tsx:416-419 | the count form lists only items at the chosen location, and none without a location |
| Inventory.EntriesRules | views/InventoryView.tsx:1263-1281 | every count entry comes from an item with a usable count; its system quantity is the item's stock and its variance is counted minus system. There are no more entries than items |
| Inventory.EntriesEmpty | views/InventoryView.tsx:1263-1285 | there are no entries exactly when no item has a usable count |
| Inventory.BuildCountEntries | views/InventoryView.tsx:1263-1281 | the `forEach` builds exactly the entries of the items with a usable count |
| Inventory.AddCountEntry | views/InventoryView.tsx:1264-1280 | one pass adds an entry for the item exactly when its count is usable |
| Inventory.CollectCountEntries | views/InventoryView.tsx:1263-1285 | saving yields the entries, or nothing (the form asks for a value) when there is none |
| Inventory.FindItem | views/InventoryView.tsx:1017 | the lookup returns an item with that id, or none when no item has it |
| Inventory.TransferGuard | views/InventoryView.tsx:1015-1033 | an added transfer line extends the list by one line for an existing item, carrying its stock, with a quantity within stock (or NaN). Insufficient stock is reported exactly for a numeric quantity above the stock of a found item |
| Pos.SortStringsSorted | views/POSView.tsx:481 | the add-on ids are sorted as `Array.prototype.sort` compares strings, and sorting keeps exactly the same ids (a permutation) |
| Pos.SortOrderFree | views/POSView.tsx:481 | two selections of the same ids in any order sort to the same list |
| Pos.SortedUnique | views/POSView.tsx:481 | two sorted lists holding the same ids are equal |
| Pos.StrLeTotal | views/POSView.tsx:481 | any two strings are ordered one way or the other by the code-unit order |
| Pos.CodeUnitRankOrder | views/POSView.tsx:481 | the character rank used by the string order compares two characters exactly as their UTF-16 encodings compare, so characters outside the Basic Multilingual Plane sort between U+D7FF and U+E000 |
| Pos.AddOnsPermuted | views/POSView.tsx:474-482 | reordering the selected add-ons changes neither the multiset of their ids nor their total price |
| Pos.SameLineAnyOrder | views/POSView.tsx:471-482 | the same customisation with its add-ons picked in another order gives the same cart id and the same unit price |
| Pos.PlainLine | views/POSView.tsx:471-482 | an uncustomised product's cart id is its own id and its unit price is its price |
| Pos.IncrementLine | views/POSView.tsx:489 | only the lines with the cart id gain one unit; every other line is unchanged |
| Pos.SetQuantity | views/POSView.tsx:510-512 | only the lines with the cart id change, to max(1, quantity + delta) |
| Pos.AddToCartLines | views/POSView.tsx:483-494 | `addToCart` raises an existing line by one and changes nothing else; otherwise it appends one line of quantity 1 at the unit price (size multiplier, milk surcharge, add-on prices). The cart then holds the line |
| Pos.AddToCartAccounting | views/POSView.tsx:471-494 | adding keeps cart ids distinct, adds one unit, and adds the line's unit price to the subtotal |
| Pos.ExistingLineAccounting | views/POSView.tsx:489 | raising an existing line adds one unit and that line's price to the subtotal |
| Pos.NewLineAccounting | views/POSView.tsx:491-493 | appending a new line of quantity 1 adds one unit and its price to the subtotal |
| Pos.IncrementOne | views/POSView.tsx:489 | with distinct cart ids, raising a line adds exactly its price once |
| Pos.UpdateQuantityLines | views/POSView.tsx:500-513 | `updateQuantity` keeps the length, sets only the matching line to max(1, quantity + delta), leaves an unknown id's cart unchanged, keeps quantities at least 1 and ids distinct |
| Pos.PlusIsAddAgain | views/POSView.tsx:483-513 | pressing plus on a line is the same as adding the product again |
| Pos.SubtotalAppend | views/POSView.tsx:619-620 | the subtotal and the unit count of two carts joined are the sums of theirs |
| Pos.OneMore | views/POSView.tsx:620 | one more unit adds the unit price to the line total |
| Pos.TotalsRules | views/POSView.tsx:619-624 | the total is the subtotal times one plus the VAT rate, totals add over joined carts, and an empty cart totals 0 |
| Pos.ChangeRules | views/POSView.tsx:643 | change is never negative. It is positive exactly when a non-zero amount above the total was received, and then received equals total plus change |
| Pos.SplitEnabledRule | views/POSView.tsx:1478-1481 | the split checkout button is enabled exactly when not processing and the parts sum to within 0.01 of the total |
| Pos.Unselect | views/POSView.tsx:864 | removing a return line leaves no line with that key, and leaves the list unchanged when none had it |
| Pos.ToggleReturnRules | views/POSView.tsx:861-868 | toggling selects exactly an item that was not selected; toggling an unselected item twice gives the list back |
| Pos.UnselectAppended | views/POSView.tsx:864-865 | removing the line just appended restores the list |
| Pos.UpdateReturnQuantity | views/POSView.tsx:874-882 | only the matching lines change, to min(max(1, quantity + delta), max) |
| Pos.ReturnQuantityClamped | views/POSView.tsx:874-882 | a matching line's new quantity lies in [1, max]; a delta of 0 leaves in-range lines unchanged |
| Pos.AccumulateAppend | views/POSView.tsx:689-692 | applying `addDeduction` calls in two runs is applying them all in one |
| Pos.AccumulateFound | views/POSView.tsx:693-698 | a lookup that finds an inventory row adds one deduction for it; one that finds none adds nothing |
| Pos.AddRecipe | views/POSView.tsx:702-709 | the recipe loop adds, for each ingredient found, amount times size multiplier times quantity |
| Pos.AddAddOns | views/POSView.tsx:711-717 | the add-on loop adds the line's quantity for each add-on whose ingredient is found |
| Pos.AddBom | views/POSView.tsx:720-726 | the BOM loop adds component amount times quantity for each component found |
| Pos.CheckoutDeductions | views/POSView.tsx:686-731 | the checkout loop fills the deduction map with exactly the deductions of every cart line |
| Pos.AccumulateTotals | views/POSView.tsx:689-692 | each id's total is its starting total plus every counted quantity for it (undefined ids and quantities at or below 0 are ignored). An id has an entry exactly when it had one or some call counted for it, and totals stay positive |
| Pos.PlainItemDeduction | views/POSView.tsx:727-731 | a plain item without BOM, found by its id, deducts exactly its quantity from that row and nothing else |
| Pos.PaddedNumber | views/POSView.tsx:436 | zero padding keeps the number's value, is at least n digits, and exactly n when the number has at most n digits |
| Pos.DateStampDigits | views/POSView.tsx:435 | the date stamp is 8 digits whose value is year·10000 + month·100 + day |
| Pos.InvoiceNumberParts | views/POSView.tsx:431-437 | an invoice number is "INV-", the 8-digit date, "-", and the sequence in at least 4 digits; it is 17 characters for sequences below 10000 |
| Pos.InvoiceNumbersDistinct | views/POSView.tsx:431-437 | different sequences on the same day give different invoice numbers |
| Roasting.WeightStats | views/RoastingView.tsx:133-140 | packaged plus remaining is the roasted weight (NaN in both or in neither); no batch gives 0 and 0 |
| Roasting.PackagedAppend | views/RoastingView.tsx:135-138 | the packaged weight of two runs of units joined is the sum of their packaged weights |
| Roasting.TemplateOf | views/RoastingView.tsx:144-145 | a line's template, when found, is one of the known templates |
| Roasting.AddPackagingLine | views/RoastingView.tsx:161-163 | adding keeps every line and appends one new line with no product and quantity "1" |
| Roasting.WithoutLine | views/RoastingView.tsx:167 | the filter keeps only lines of the list whose id differs, never more lines than before |
| Roasting.WithoutLineNone | views/RoastingView.tsx:167 | filtering out an id no line has changes nothing |
| Roasting.RemoveKeepsALine | views/RoastingView.tsx:165-169 | with distinct ids, removing never leaves zero lines and removes at most one; an unknown id changes nothing |
| Roasting.UpdatePackagingLine | views/RoastingView.tsx:171-173 | updating changes the field only on the line with the matching id and keeps every other line |
| Roasting.Waste | views/RoastingView.tsx:351 | the waste percentage times the pre-roast weight is the weight lost times 100 |
| Roasting.WasteBounds | views/RoastingView.tsx:351 | with positive weights the waste is below 100%, positive exactly when weight was lost, and 0 when none was |
| Roasting.Round2 | views/RoastingView.tsx:357 | rounding to two decimals moves the value by at most 0.005 |
| Roasting.ConsumeKeepsStock | views/RoastingView.tsx:287-320 | consuming no more than a bean holds keeps every bean quantity non-negative |
| Roasting.StartThenCancelBeans | views/RoastingView.tsx:373-408 | cancelling a started batch restores the bean quantity |
| Roasting.WithoutBatch | views/RoastingView.tsx:390-393 | deleting a batch's movements keeps only movements of the list with another batch code |
| Roasting.StartThenCancelMovements | views/RoastingView.tsx:390-393 | cancelling a started batch also restores the movement log |
| Roasting.Roastery.constructor | views/RoastingView.tsx:66-77 | a roastery starts with the given beans and no batches, movements or stock rows |
| Roasting.Roastery.StartBatch | views/RoastingView.tsx:284-336 | a batch starts exactly when the pre-roast weight parses, is positive, fits the bean quantity shown and the one read afresh, and the code is new. Then the bean is reduced by it, the batch is in progress and the movement logged; otherwise nothing changes |
| Roasting.Roastery.FinishBatch | views/RoastingView.tsx:345-370 | a batch in progress finishes exactly when the roasted weight parses and is positive. It then records that weight, the waste rounded to two decimals and the completed status; nothing else changes |
| Roasting.Roastery.CancelBatch | views/RoastingView.tsx:375-410 | a listed (not deleted) batch with no roasted weight is cancelled: the bean gets its weight back, its movements are removed and it is marked deleted; otherwise nothing changes |
| Roasting.Roastery.CreateProduction | views/RoastingView.tsx:175-260 | production is refused when the weight needed exceeds the remaining weight by more than 0.001. Otherwise it appends the units of the lines to the batch and their stock rows to the inventory, unless a chosen product has no template |
| Roasting.CollectUnits | views/RoastingView.tsx:196-240 | the loop over the lines yields the units of every line with a product and a quantity, and their stock rows; nothing once a line has no template |
| Roasting.ProductionRemaining | views/RoastingView.tsx:179-251 | after a production that passed the weight check, the remaining weight drops by exactly the weight needed and stays above -0.001 |
| Roasting.UnitsWeighNeeded | views/RoastingView.tsx:142-149 | the units produced weigh exactly the weight needed that the check used |
| Roasting.UnitsFailed | views/RoastingView.tsx:196-240 | once a line without a template is met, production fails whatever follows |
| Roasting.StockRows | views/RoastingView.tsx:216-238 | one stock row per unit produced |
| ShiftService.ResolveUserId | services/shiftService.ts:4-8 | 'demo-user' maps to the all-zero UUID and every other id is unchanged; the result is never 'demo-user' |
| ShiftService.SaleCash | services/shiftService.ts:127-133 | a CASH sale adds its total, where a `null` total counts as 0 and a missing one as NaN; a SPLIT sale with a breakdown adds the breakdown's cash (0 if missing); any other sale adds nothing |
| ShiftService.NullTotalAddsZero | services/shiftService.ts:128-129 | a CASH sale whose total is `null` leaves the cash sales unchanged (`+= null` adds 0); one without a total makes them NaN |
| ShiftService.OfCashier | services/shiftService.ts:123 | the filter keeps only transactions of the shift's cashier |
| ShiftService.CashSalesAppend | services/shiftService.ts:127-133 | cash sales over two runs of transactions joined are the sum of theirs |
| ShiftService.OtherCashiersIgnored | services/shiftService.ts:123-133 | another cashier's transaction changes neither the filtered list nor the cash sales |
| ShiftService.OwnSaleCounted | services/shiftService.ts:123-133 | the cashier's own transaction adds exactly its cash part |
| ShiftService.StoredSalesNeverCounted | services/shiftService.ts:127-133 | as written, the loop reads camelCase payment fields. Rows stored by checkout only have the snake_case ones, so their cash sales are always 0 |
| ShiftService.CashSaleLost | services/shiftService.ts:127-133 | a stored cash sale of 10 counts 0 as written and 10 when the stored field names are read |
| ShiftService.CheckoutSaleCounted | services/shiftService.ts:127-133 | read under the stored field names, a checkout's cash sale adds its total and a split sale adds its cash part |
| ShiftService.MovementsSplit | services/shiftService.ts:149-152 | cash in plus cash out is the total of the IN and OUT movements; other kinds count in neither |
| ShiftService.SumMovements | services/shiftService.ts:136-156 | the movement loop yields the IN total and the OUT total |
| ShiftService.SumCashSales | services/shiftService.ts:125-133 | the transaction loop yields the cash sales of the transactions |
| ShiftService.Expected | services/shiftService.ts:159 | expected cash is the initial cash plus sales plus cash in minus cash out (NaN exactly when the sales are NaN) |
| ShiftService.GetShiftTotals | services/shiftService.ts:110-167 | `getShiftTotals` fails when the transaction query fails; a failed movement query counts as no movement; returns are always 0; the totals are those of the cashier's transactions and the shift's movements |
| Common.SplitJoin | views/StaffView.tsx:1523 | splitting on a character gives one more piece than it occurs, and joining the pieces back gives the text |
| Common.JoinSplit | views/ConfigurationView.tsx:1746 | joining pieces free of the separator and splitting again gives the pieces back |
| Common.Trim | views/StaffView.tsx:1197 | trimmed text neither starts nor ends with whitespace |
| Common.TrimEmpty | views/StaffView.tsx:1197-1198 | trimming gives the empty text exactly when the text is all whitespace |
| Common.Utf16Length | views/InventoryView.tsx:1337 | `.length` counts UTF-16 code units: at least one and at most two per character |
| Common.Utf16LengthBmp | views/InventoryView.tsx:1337 | text inside the Basic Multilingual Plane has exactly one code unit per character |
| Common.NatToStringRoundTrip | views/POSView.tsx:435-436 | a number's decimal text is all digits and reads back as the number |
| Common.ToNumberDigits | views/StaffView.tsx:1523 | `Number` of a digit string is its decimal value |
| Common.ParseIntRoundTrip | views/InventoryView.tsx:1346 | `parseInt` reads back the decimal text of any integer |
| Common.ParseIntStops | views/RoastingView.tsx:198 | `parseInt` stops at the first non-digit and keeps the digits before it |
| Common.ParseFloatNat | views/RoastingView.tsx:287 | `parseFloat` reads back the decimal text of a whole number |

## Left out

- `print_receipt` and the `__main__` demo of the receipt module are left out: they are printer transport and console output.
- The real shaping libraries (`arabic_reshaper`, `bidi`) are a parameter of the model (`RtlLibrary`): an opaque reshape and display function, plus whether they are installed. Only the reversal fallback is interpreted.
- Binary floating point is not modelled. Receipt amounts are integer cents, formatted the way `.2f` formats an exact amount; other money and weights are exact reals. `toFixed` and `Math.round` are modelled only by the bound on their rounding error.
- Clocks and dates are parameters. This covers `datetime.now()`, `new Date()`, days to expiry, whether a day is past, the minute of the day and the invoice date.
- `Number()` is modelled on decimal text (optional sign, digits, one optional point, surrounding whitespace). Hexadecimal, binary and octal literals, exponents and `Infinity` are not modelled; such text reads as NaN. `parseInt` is modelled for decimal digits without a radix prefix, and `parseFloat` without exponents.
- String ordering follows UTF-16 code units, which is what `Array.prototype.sort` uses for add-on ids. `localeCompare` ordering of summary rows, and the search filtering of lists, are not modelled; product summaries are stated before sorting.
- Supabase queries and writes, React state and effects, and browser I/O are left out. This includes `getOpenShift`, `startShift`, `closeShift` and `addCashMovement` in `services/shiftService.ts`, and `exportExcelHtml` and `exportPdfPrint` in `utils/reportExport.ts`. The rows they read are parameters, and the rows they write are results or object state.
- `warnIfLowStock` in `views/POSView.tsx` is left out: it only raises an alert and never changes the cart.
- `generateSku` is left out: it uses `Date.now()` and random digits.
- The import header mapping of the catalogue screen is left out: it is a lookup table of column names.
- Inventory.GroupItems: the rows' names, location names and units are carried but not stated; the lemmas state keys, stock and availability.
- Inventory.StatusRules: items whose stock is NaN are not modelled. Stock is a real.
- CatalogImport.ParseDelimited: a `\r` inside a quoted cell is dropped like any other `\r`. The round trip is therefore stated for cells without `\r`.
- Roasting.Roastery: batch expiry dates, costs, history entries and the saving flag are not modelled.
- Roasting.Roastery.StartBatch: the batch code and the packaging-line ids come from the clock and random numbers in the source. Here they are parameters.
- ShiftService.GetShiftTotals: the transaction query's `start_time` filter and ordering are done by the database, so the transactions passed in are those already selected. The `+` of a JavaScript number and a string (string concatenation) is not modelled: totals and breakdown cash are numbers or NaN.
- ReceiptPrinter.ThermalReceiptModule.GenerateReceipt: only the left text of the two-column lines is shaped for right-to-left output. Those texts are fixed captions, so item names and store text are printed unshaped.
- CatalogImport.NormalizeSku: upper-casing is modelled for ASCII letters only. JavaScript's `toUpperCase` also maps other letters, some to ASCII ("ſku" becomes "SKU", which then survives the filter), so SKUs with non-ASCII letters can differ from the model.
- CatalogImport.ParseBooleanCase: lower- and upper-casing are modelled for ASCII letters only. The lemma is about the model; for JavaScript's full case mapping it holds for ASCII input, and characters such as "ſ" or "ı" are not covered.
- ReportExport.CellText: number cells hold integers. `String()` of fractional numbers, NaN and the infinities is not modelled.

## Findings

| source | as written | input that shows it | evidently intended | confidence | as-written member | corrected member |
|---|---|---|---|---|---|---|
| views/InventoryView.tsx:728-737 | each accepted receipt line writes the stock shown on screen plus its quantity, so a second line for the same item overwrites the first | item with stock 10, two passed lines of 5 and 3 for it: stock becomes 13 | every accepted line adds to the current stock: 18 | not executed | Inventory.ConfirmReceiveAsWritten | Inventory.ConfirmReceive |
| services/shiftService.ts:127-133 | cash sales read `paymentMethod` and `paymentBreakdown`, but checkout stores `payment_method` and `payment_breakdown` (views/POSView.tsx:666-667) | a stored cash sale of 10 by the shift's cashier counts 0 | the sale counts 10 towards expected cash | not executed | ShiftService.StoredSalesNeverCounted | ShiftService.CheckoutSaleCounted |
