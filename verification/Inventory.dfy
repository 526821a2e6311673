/** The inventory screen: stock availability and status, the product
    summaries, purchase receipts, stock adjustments, stock counts and
    transfer lines. Clock readings (days to expiry) are parameters; the
    database is a map from item id to stock. */
module Inventory {
  import opened Common

  /** An inventory row. Optional numeric columns are `None` when absent. */
  datatype Item = Item(id: string, name: string, productId: Option<string>, locationId: Option<string>,
                       price: real, stock: real, reserved: Option<real>, damaged: Option<real>,
                       minStock: Option<real>, unit: Option<string>)

  /** JavaScript's `x || d` for a number column: a missing value and 0 give `d`. */
  function OrNum(o: Option<real>, d: real): real
  {
    if o.Some? && o.value != 0.0 then o.value else d
  }

  /** JavaScript's `x || d` for a text column: a missing value and "" give `d`. */
  function OrText(o: Option<string>, d: string): string
  {
    if o.Some? && o.value != "" then o.value else d
  }

  predicate Truthy(o: Option<string>) { o.Some? && o.value != "" }

  // ---- Availability and status ----

  /** `getAvailableStock`: stock less reserved and damaged units, never below zero. */
  function AvailableStock(item: Item): (r: real)
    ensures r >= 0.0
    ensures r >= item.stock - OrNum(item.reserved, 0.0) - OrNum(item.damaged, 0.0)
    ensures r == 0.0 || r == item.stock - OrNum(item.reserved, 0.0) - OrNum(item.damaged, 0.0)
  {
    MaxReal(0.0, item.stock - OrNum(item.reserved, 0.0) - OrNum(item.damaged, 0.0))
  }

  /** With non-negative reserved and damaged counts, availability never exceeds
      the stock on hand, and equals stock less both counts whenever they fit. */
  lemma AvailableWithinStock(item: Item)
    requires OrNum(item.reserved, 0.0) >= 0.0 && OrNum(item.damaged, 0.0) >= 0.0
    ensures AvailableStock(item) <= MaxReal(0.0, item.stock)
    ensures OrNum(item.reserved, 0.0) + OrNum(item.damaged, 0.0) <= item.stock ==>
              AvailableStock(item) == item.stock - OrNum(item.reserved, 0.0) - OrNum(item.damaged, 0.0)
  {
  }

  datatype StockStatus = Critical | Expiring | Good

  /** `getStockStatus`; `daysToExpiry` is `None` for an item without an expiry date. */
  function StatusOf(item: Item, daysToExpiry: Option<int>): StockStatus
  {
    if AvailableStock(item) <= OrNum(item.minStock, 10.0) then Critical
    else if daysToExpiry.Some? && daysToExpiry.value <= 30 then Expiring
    else Good
  }

  /** Critical exactly when availability is at or below the minimum (10 when
      unset); otherwise expiring exactly when the expiry is at most 30 days
      away; otherwise good. */
  lemma StatusRules(item: Item, daysToExpiry: Option<int>)
    ensures StatusOf(item, daysToExpiry) == Critical <==> AvailableStock(item) <= OrNum(item.minStock, 10.0)
    ensures StatusOf(item, daysToExpiry) == Expiring <==>
              AvailableStock(item) > OrNum(item.minStock, 10.0) && daysToExpiry.Some? && daysToExpiry.value <= 30
    ensures StatusOf(item, daysToExpiry) == Good <==>
              AvailableStock(item) > OrNum(item.minStock, 10.0) && (daysToExpiry.None? || daysToExpiry.value > 30)
  {
  }

  /** A minimum stock of 0 is treated like an unset one (threshold 10), and
      low stock wins over a near expiry. */
  lemma ZeroMinimumActsAsTen(item: Item, daysToExpiry: Option<int>)
    ensures StatusOf(item.(minStock := Some(0.0)), daysToExpiry) == StatusOf(item.(minStock := None), daysToExpiry)
    ensures AvailableStock(item) <= 10.0 ==> StatusOf(item.(minStock := Some(0.0)), daysToExpiry) == Critical
  {
  }

  /** `stagnantDaysValue`: the text as a number, floored; 30 when it is not a
      number or not positive. */
  function StagnantDays(text: string): (r: int)
    ensures match ToNumber(text)
            case NaN => r == 30
            case Num(v) => (v <= 0.0 ==> r == 30) && (v > 0.0 ==> r as real <= v < r as real + 1.0)
  {
    match ToNumber(text)
    case NaN => 30
    case Num(v) => if v <= 0.0 then 30 else v.Floor
  }

  /** The threshold is never negative. */
  lemma StagnantDaysNonNegative(text: string)
    ensures StagnantDays(text) >= 0
  {
  }

  // ---- Product summaries ----

  /** One summary row: the totals of the items sharing a key. The location
      fields are used by the per-location summary only. */
  datatype Group = Group(key: string, productKey: string, productName: string, locationId: Option<string>,
                         locationName: string, stock: real, available: real, unit: Option<string>)

  /** `item.productId || item.name`. */
  function ProductKey(item: Item): string { OrText(item.productId, item.name) }

  /** The map key: the product key, followed by `::` and the location id
      (or `central`) in the per-location summary. */
  function GroupKey(item: Item, byLocation: bool): string
  {
    if byLocation then ProductKey(item) + "::" + OrText(item.locationId, "central") else ProductKey(item)
  }

  /** `item.location_id || null`. */
  function LocationIdOf(item: Item): Option<string>
  {
    if Truthy(item.locationId) then item.locationId else None
  }

  /** `getLocationName`: the name of the location with that id, "Central" when
      there is none or it has an empty name. */
  function LocationName(id: Option<string>, names: map<string, string>): string
  {
    if id.Some? && id.value in names && names[id.value] != "" then names[id.value] else "Central"
  }

  /** The row made for the first item with a new key. */
  function NewGroup(item: Item, byLocation: bool, names: map<string, string>): Group
  {
    Group(GroupKey(item, byLocation), ProductKey(item), item.name,
          if byLocation then LocationIdOf(item) else None,
          if byLocation then LocationName(LocationIdOf(item), names) else "",
          item.stock, AvailableStock(item), item.unit)
  }

  /** The update of an existing row: the counts are added; the first non-empty unit is kept. */
  function AddTo(g: Group, item: Item): Group
  {
    g.(stock := g.stock + item.stock, available := g.available + AvailableStock(item),
       unit := if !Truthy(g.unit) && Truthy(item.unit) then item.unit else g.unit)
  }

  /** The position of the row with key `k`, or `|rows|`. */
  function FindKey(rows: seq<Group>, k: string): (i: nat)
    ensures i <= |rows|
    ensures i < |rows| ==> rows[i].key == k
    ensures forall j :: 0 <= j < i ==> rows[j].key != k
  {
    if rows == [] then 0 else if rows[0].key == k then 0 else 1 + FindKey(rows[1..], k)
  }

  /** One `forEach` step over the summary map (kept in insertion order, as `Map.values` yields it). */
  function AddItem(rows: seq<Group>, item: Item, byLocation: bool, names: map<string, string>): seq<Group>
  {
    var i := FindKey(rows, GroupKey(item, byLocation));
    if i < |rows| then rows[i := AddTo(rows[i], item)] else rows + [NewGroup(item, byLocation, names)]
  }

  /** The summary rows after folding all items, before sorting and filtering. */
  function Groups(items: seq<Item>, byLocation: bool, names: map<string, string>): seq<Group>
  {
    if items == [] then []
    else AddItem(Groups(items[..|items| - 1], byLocation, names), items[|items| - 1], byLocation, names)
  }

  /** `productTotals` (byLocation false) and `productLocationSummary` (byLocation true), before sorting. */
  method GroupItems(items: seq<Item>, byLocation: bool, names: map<string, string>) returns (rows: seq<Group>)
    ensures rows == Groups(items, byLocation, names)
  {
    rows := [];
    for n := 0 to |items|
      invariant rows == Groups(items[..n], byLocation, names)
    {
      var item := items[n];
      var i := FindRow(rows, GroupKey(item, byLocation));
      GroupsStep(items, n, byLocation, names);
      if i < |rows| {
        rows := rows[i := AddTo(rows[i], item)];
      } else {
        rows := rows + [NewGroup(item, byLocation, names)];
      }
    }
    assert items[..|items|] == items;
  }

  /** The summary map's lookup: the row with that key, or `|rows|`. */
  method FindRow(rows: seq<Group>, key: string) returns (i: nat)
    ensures i == FindKey(rows, key)
  {
    i := 0;
    while i < |rows| && rows[i].key != key
      invariant i <= |rows|
      invariant forall j :: 0 <= j < i ==> rows[j].key != key
    {
      i := i + 1;
    }
    FindKeyIs(rows, key, i);
  }

  lemma {:induction false} FindKeyIs(rows: seq<Group>, k: string, i: nat)
    requires i <= |rows| && (i < |rows| ==> rows[i].key == k)
    requires forall j :: 0 <= j < i ==> rows[j].key != k
    ensures FindKey(rows, k) == i
  {
    if rows != [] && i > 0 {
      FindKeyIs(rows[1..], k, i - 1);
    }
  }

  lemma GroupsStep(items: seq<Item>, n: nat, byLocation: bool, names: map<string, string>)
    requires n < |items|
    ensures Groups(items[..n + 1], byLocation, names) == AddItem(Groups(items[..n], byLocation, names), items[n], byLocation, names)
  {
    var prefix := items[..n + 1];
    assert prefix[..|prefix| - 1] == items[..n] && prefix[|prefix| - 1] == items[n];
  }

  predicate UniqueKeys(rows: seq<Group>)
  {
    forall i, j :: 0 <= i < j < |rows| ==> rows[i].key != rows[j].key
  }

  /** The stock of the items with key `k`. */
  function KeyStock(items: seq<Item>, k: string, byLocation: bool): real
  {
    if items == [] then 0.0
    else
      var last := items[|items| - 1];
      KeyStock(items[..|items| - 1], k, byLocation) + (if GroupKey(last, byLocation) == k then last.stock else 0.0)
  }

  /** The available stock of the items with key `k`. */
  function KeyAvailable(items: seq<Item>, k: string, byLocation: bool): real
  {
    if items == [] then 0.0
    else
      var last := items[|items| - 1];
      KeyAvailable(items[..|items| - 1], k, byLocation)
      + (if GroupKey(last, byLocation) == k then AvailableStock(last) else 0.0)
  }

  predicate HasKey(items: seq<Item>, k: string, byLocation: bool)
  {
    exists i :: 0 <= i < |items| && GroupKey(items[i], byLocation) == k
  }

  function TotalStock(items: seq<Item>): real
  {
    if items == [] then 0.0 else TotalStock(items[..|items| - 1]) + items[|items| - 1].stock
  }

  function SumStock(rows: seq<Group>): real
  {
    if rows == [] then 0.0 else rows[0].stock + SumStock(rows[1..])
  }

  lemma {:induction false} SumStockAppend(rows: seq<Group>, g: Group)
    ensures SumStock(rows + [g]) == SumStock(rows) + g.stock
  {
    if rows != [] {
      SumStockAppend(rows[1..], g);
      assert (rows + [g])[1..] == rows[1..] + [g];
    }
  }

  lemma {:induction false} SumStockUpdate(rows: seq<Group>, i: nat, g: Group)
    requires i < |rows|
    ensures SumStock(rows[i := g]) == SumStock(rows) - rows[i].stock + g.stock
  {
    if i > 0 {
      SumStockUpdate(rows[1..], i - 1, g);
      assert rows[i := g][1..] == rows[1..][i - 1 := g];
    }
  }

  lemma {:induction false} KeyStockAbsent(items: seq<Item>, k: string, byLocation: bool)
    requires !HasKey(items, k, byLocation)
    ensures KeyStock(items, k, byLocation) == 0.0 && KeyAvailable(items, k, byLocation) == 0.0
  {
    if items != [] {
      var init := items[..|items| - 1];
      forall i | 0 <= i < |init|
        ensures GroupKey(init[i], byLocation) != k
      {
        assert init[i] == items[i];
      }
      KeyStockAbsent(init, k, byLocation);
    }
  }

  predicate RowHasKey(rows: seq<Group>, k: string)
  {
    exists j :: 0 <= j < |rows| && rows[j].key == k
  }

  lemma HasKeySnoc(init: seq<Item>, item: Item, k: string, byLocation: bool)
    ensures HasKey(init + [item], k, byLocation) <==> HasKey(init, k, byLocation) || GroupKey(item, byLocation) == k
  {
    var items := init + [item];
    if HasKey(items, k, byLocation) && GroupKey(item, byLocation) != k {
      var l :| 0 <= l < |items| && GroupKey(items[l], byLocation) == k;
      assert l < |init| && items[l] == init[l];
    }
    if HasKey(init, k, byLocation) {
      var l :| 0 <= l < |init| && GroupKey(init[l], byLocation) == k;
      assert items[l] == init[l];
    }
    assert items[|init|] == item;
  }

  /** One fold step adds the item's key to the rows' keys and keeps them distinct. */
  lemma AddItemKeys(rows: seq<Group>, item: Item, byLocation: bool, names: map<string, string>)
    requires UniqueKeys(rows)
    ensures var after := AddItem(rows, item, byLocation, names);
            UniqueKeys(after) && |after| <= |rows| + 1
            && forall k :: RowHasKey(after, k) <==> RowHasKey(rows, k) || k == GroupKey(item, byLocation)
  {
    var after := AddItem(rows, item, byLocation, names);
    var i := FindKey(rows, GroupKey(item, byLocation));
    if i < |rows| {
      assert forall j :: 0 <= j < |after| ==> after[j].key == rows[j].key;
    } else {
      assert forall j :: 0 <= j < |rows| ==> after[j] == rows[j];
      assert after[|rows|].key == GroupKey(item, byLocation);
    }
  }

  /** The rows have distinct keys, one per key among the items. */
  lemma {:induction false} GroupsKeys(items: seq<Item>, byLocation: bool, names: map<string, string>)
    ensures var rows := Groups(items, byLocation, names);
            UniqueKeys(rows) && |rows| <= |items|
            && forall k :: HasKey(items, k, byLocation) <==> RowHasKey(rows, k)
  {
    if items != [] {
      var init := items[..|items| - 1];
      var item := items[|items| - 1];
      GroupsKeys(init, byLocation, names);
      AddItemKeys(Groups(init, byLocation, names), item, byLocation, names);
      assert init + [item] == items;
      forall k
        ensures HasKey(items, k, byLocation) <==> HasKey(init, k, byLocation) || GroupKey(item, byLocation) == k
      {
        HasKeySnoc(init, item, k, byLocation);
      }
    }
  }

  /** Every row holds the total stock and availability of the items with its key. */
  lemma {:induction false} GroupsTotals(items: seq<Item>, byLocation: bool, names: map<string, string>)
    ensures var rows := Groups(items, byLocation, names);
            forall j :: 0 <= j < |rows| ==>
              rows[j].stock == KeyStock(items, rows[j].key, byLocation)
              && rows[j].available == KeyAvailable(items, rows[j].key, byLocation)
  {
    if items != [] {
      var init := items[..|items| - 1];
      GroupsTotals(init, byLocation, names);
      GroupsKeys(init, byLocation, names);
      GroupsTotalsStep(init, items[|items| - 1], byLocation, names);
      assert init + [items[|items| - 1]] == items;
    }
  }

  lemma GroupsTotalsStep(init: seq<Item>, item: Item, byLocation: bool, names: map<string, string>)
    requires var rows := Groups(init, byLocation, names);
             UniqueKeys(rows)
             && (!RowHasKey(rows, GroupKey(item, byLocation)) ==> !HasKey(init, GroupKey(item, byLocation), byLocation))
             && forall j :: 0 <= j < |rows| ==>
                  rows[j].stock == KeyStock(init, rows[j].key, byLocation)
                  && rows[j].available == KeyAvailable(init, rows[j].key, byLocation)
    ensures var rows := Groups(init + [item], byLocation, names);
            forall j :: 0 <= j < |rows| ==>
              rows[j].stock == KeyStock(init + [item], rows[j].key, byLocation)
              && rows[j].available == KeyAvailable(init + [item], rows[j].key, byLocation)
  {
    var items := init + [item];
    var before := Groups(init, byLocation, names);
    assert Groups(items, byLocation, names) == AddItem(before, item, byLocation, names) by {
      assert items[..|items| - 1] == init && items[|items| - 1] == item;
    }
    forall j | 0 <= j < |AddItem(before, item, byLocation, names)|
      ensures var after := AddItem(before, item, byLocation, names);
              after[j].stock == KeyStock(items, after[j].key, byLocation)
              && after[j].available == KeyAvailable(items, after[j].key, byLocation)
    {
      RowTotalStep(init, item, byLocation, names, before, j);
    }
  }

  /** One row after a fold step holds the totals of its key. */
  lemma RowTotalStep(init: seq<Item>, item: Item, byLocation: bool, names: map<string, string>, before: seq<Group>, j: nat)
    requires UniqueKeys(before)
    requires !RowHasKey(before, GroupKey(item, byLocation)) ==> !HasKey(init, GroupKey(item, byLocation), byLocation)
    requires j < |before| ==> before[j].stock == KeyStock(init, before[j].key, byLocation)
                              && before[j].available == KeyAvailable(init, before[j].key, byLocation)
    requires j < |AddItem(before, item, byLocation, names)|
    ensures var after := AddItem(before, item, byLocation, names);
            after[j].stock == KeyStock(init + [item], after[j].key, byLocation)
            && after[j].available == KeyAvailable(init + [item], after[j].key, byLocation)
  {
    var after := AddItem(before, item, byLocation, names);
    var key := GroupKey(item, byLocation);
    var i := FindKey(before, key);
    KeySnoc(init, item, after[j].key, byLocation);
    if i < |before| {
      if j != i {
        assert after[j] == before[j];
        assert before[j].key != key;
      }
    } else if j < |before| {
      assert after[j] == before[j];
    } else {
      assert !RowHasKey(before, key);
      KeyStockAbsent(init, key, byLocation);
    }
  }

  lemma KeySnoc(init: seq<Item>, item: Item, k: string, byLocation: bool)
    ensures KeyStock(init + [item], k, byLocation)
            == KeyStock(init, k, byLocation) + (if GroupKey(item, byLocation) == k then item.stock else 0.0)
    ensures KeyAvailable(init + [item], k, byLocation)
            == KeyAvailable(init, k, byLocation) + (if GroupKey(item, byLocation) == k then AvailableStock(item) else 0.0)
  {
    var items := init + [item];
    assert items[..|items| - 1] == init && items[|items| - 1] == item;
  }

  /** Grouping preserves the total stock: the rows' stock adds up to the items' stock. */
  lemma {:induction false} GroupsPreserveStock(items: seq<Item>, byLocation: bool, names: map<string, string>)
    ensures SumStock(Groups(items, byLocation, names)) == TotalStock(items)
  {
    if items != [] {
      var init := items[..|items| - 1];
      var item := items[|items| - 1];
      GroupsPreserveStock(init, byLocation, names);
      var before := Groups(init, byLocation, names);
      var i := FindKey(before, GroupKey(item, byLocation));
      if i < |before| {
        SumStockUpdate(before, i, AddTo(before[i], item));
      } else {
        SumStockAppend(before, NewGroup(item, byLocation, names));
      }
    }
  }

  // ---- Purchase receipts ----

  datatype Quality = Passed | Failed

  /** A line of the receive form; the received quantity as typed, read as a number. */
  datatype ReceiptLine = ReceiptLine(itemId: string, orderedQty: real, receivedQty: JsNum, quality: Quality)

  /** A line after `Math.max(0, Number(receivedQty) || 0)`. */
  datatype CheckedLine = CheckedLine(itemId: string, orderedQty: real, received: real, quality: Quality)

  /** `Math.max(0, Number(x) || 0)`: NaN and negative quantities count as 0. */
  function ReceivedQuantity(raw: JsNum): (r: real)
    ensures r >= 0.0
    ensures raw.Num? && raw.v >= 0.0 ==> r == raw.v
    ensures raw.NaN? || raw.v <= 0.0 ==> r == 0.0
  {
    match raw
    case NaN => 0.0
    case Num(v) => MaxReal(0.0, v)
  }

  function Check(line: ReceiptLine): CheckedLine
  {
    CheckedLine(line.itemId, line.orderedQty, ReceivedQuantity(line.receivedQty), line.quality)
  }

  function CheckAll(lines: seq<ReceiptLine>): (r: seq<CheckedLine>)
    ensures |r| == |lines| && forall i :: 0 <= i < |lines| ==> r[i] == Check(lines[i])
  {
    if lines == [] then [] else CheckAll(lines[..|lines| - 1]) + [Check(lines[|lines| - 1])]
  }

  /** A line that adds stock: passed quality control with a positive quantity. */
  predicate Accepted(line: CheckedLine) { line.quality == Passed && line.received > 0.0 }

  /** A line that is not fully received: failed, or short of the ordered quantity. */
  predicate Shortfall(line: CheckedLine) { line.quality == Failed || line.received < line.orderedQty }

  datatype PurchaseStatus = Rejected | PartiallyReceived | Received

  /** The receipt status: rejected when no line is accepted; partially
      received when some line failed or is short; received otherwise. */
  function ReceiptStatus(lines: seq<CheckedLine>): PurchaseStatus
  {
    if !(exists i :: 0 <= i < |lines| && Accepted(lines[i])) then Rejected
    else if exists i :: 0 <= i < |lines| && Shortfall(lines[i]) then PartiallyReceived
    else Received
  }

  /** An order received in full, every line passed and at least one line with a
      positive quantity, is received; an order whose lines all failed is rejected. */
  lemma ReceiptStatusCases(lines: seq<CheckedLine>)
    ensures (forall i :: 0 <= i < |lines| ==> lines[i].quality == Passed && lines[i].received >= lines[i].orderedQty)
            && (exists i :: 0 <= i < |lines| && lines[i].received > 0.0)
            ==> ReceiptStatus(lines) == Received
    ensures (forall i :: 0 <= i < |lines| ==> lines[i].quality == Failed) ==> ReceiptStatus(lines) == Rejected
  {
    if exists i :: 0 <= i < |lines| && lines[i].received > 0.0 {
      var i :| 0 <= i < |lines| && lines[i].received > 0.0;
      if lines[i].quality == Passed {
        assert Accepted(lines[i]);
      }
    }
  }

  /** One accepted line applied to the stock table: the row, when it exists,
      becomes `max(0, current + received)` for the given current stock. */
  function Restock(db: map<string, real>, line: CheckedLine, current: real): map<string, real>
  {
    if Accepted(line) && line.itemId in db then db[line.itemId := MaxReal(0.0, current + line.received)] else db
  }

  /** The current stock of an item as the table holds it, 0 for an unknown id. */
  function StockIn(db: map<string, real>, id: string): real
  {
    if id in db then db[id] else 0.0
  }

  /** Stock after the receipt loop when every line reads the stock it updates. */
  function Restocked(db: map<string, real>, lines: seq<CheckedLine>): map<string, real>
  {
    if lines == [] then db
    else
      var before := Restocked(db, lines[..|lines| - 1]);
      var line := lines[|lines| - 1];
      Restock(before, line, StockIn(before, line.itemId))
  }

  /** `(packagedItems.find(i => i.id === id)?.stock) || 0`: the stock shown on screen. */
  function SnapshotStock(snapshot: seq<Item>, id: string): real
  {
    if snapshot == [] then 0.0
    else if snapshot[0].id == id then snapshot[0].stock
    else SnapshotStock(snapshot[1..], id)
  }

  /** Stock after the receipt loop as written: every line reads the stock shown
      on screen before the receipt, not the stock it has just written. */
  function RestockedAsWritten(db: map<string, real>, snapshot: seq<Item>, lines: seq<CheckedLine>): map<string, real>
  {
    if lines == [] then db
    else
      var line := lines[|lines| - 1];
      Restock(RestockedAsWritten(db, snapshot, lines[..|lines| - 1]), line, SnapshotStock(snapshot, line.itemId))
  }

  lemma RestockedStep(db: map<string, real>, lines: seq<CheckedLine>, i: nat)
    requires i < |lines|
    ensures var before := Restocked(db, lines[..i]);
            Restocked(db, lines[..i + 1]) == Restock(before, lines[i], StockIn(before, lines[i].itemId))
  {
    var prefix := lines[..i + 1];
    assert prefix[..|prefix| - 1] == lines[..i] && prefix[|prefix| - 1] == lines[i];
  }

  lemma RestockedAsWrittenStep(db: map<string, real>, snapshot: seq<Item>, lines: seq<CheckedLine>, i: nat)
    requires i < |lines|
    ensures RestockedAsWritten(db, snapshot, lines[..i + 1])
            == Restock(RestockedAsWritten(db, snapshot, lines[..i]), lines[i], SnapshotStock(snapshot, lines[i].itemId))
  {
    var prefix := lines[..i + 1];
    assert prefix[..|prefix| - 1] == lines[..i] && prefix[|prefix| - 1] == lines[i];
  }

  /** The quantity accepted for item `id` over the lines. */
  function AcceptedQty(lines: seq<CheckedLine>, id: string): real
  {
    if lines == [] then 0.0
    else
      var line := lines[|lines| - 1];
      AcceptedQty(lines[..|lines| - 1], id) + (if Accepted(line) && line.itemId == id then line.received else 0.0)
  }

  /** Receiving adds every accepted quantity to its item: the rows are the same,
      and an item whose stock was not negative gains exactly the quantities
      accepted for it, across all of its lines. */
  lemma {:induction false} RestockedAddsAccepted(db: map<string, real>, lines: seq<CheckedLine>)
    ensures Restocked(db, lines).Keys == db.Keys
    ensures forall id :: id in db && db[id] >= 0.0 ==> Restocked(db, lines)[id] == db[id] + AcceptedQty(lines, id)
  {
    if lines != [] {
      var init := lines[..|lines| - 1];
      RestockedAddsAccepted(db, init);
      forall id | id in db && db[id] >= 0.0
        ensures Restocked(db, lines)[id] == db[id] + AcceptedQty(lines, id)
      {
        AcceptedQtyNonNegative(init, id);
      }
    }
  }

  lemma {:induction false} AcceptedQtyNonNegative(lines: seq<CheckedLine>, id: string)
    ensures AcceptedQty(lines, id) >= 0.0
  {
    if lines != [] {
      AcceptedQtyNonNegative(lines[..|lines| - 1], id);
    }
  }

  /** A rejected receipt has no accepted line, so the stock loop it skips
      would have changed nothing anyway. */
  lemma RejectedChangesNothing(db: map<string, real>, lines: seq<CheckedLine>)
    requires ReceiptStatus(lines) == Rejected
    ensures Restocked(db, lines) == db
  {
    RejectedChangesNothingFrom(db, lines);
  }

  lemma {:induction false} RejectedChangesNothingFrom(db: map<string, real>, lines: seq<CheckedLine>)
    requires forall i :: 0 <= i < |lines| ==> !Accepted(lines[i])
    ensures Restocked(db, lines) == db
  {
    if lines != [] {
      RejectedChangesNothingFrom(db, lines[..|lines| - 1]);
    }
  }

  /** Two passed lines for the same item, 5 and 3 units, on an item with 10 in
      stock: the loop as written leaves 13 instead of 18. */
  lemma StaleStockLosesUpdate()
    ensures var item := Item("x", "Beans", None, None, 0.0, 10.0, None, None, None, None);
            var lines := [CheckedLine("x", 5.0, 5.0, Passed), CheckedLine("x", 3.0, 3.0, Passed)];
            var db := map["x" := 10.0];
            RestockedAsWritten(db, [item], lines) == map["x" := 13.0] && Restocked(db, lines) == map["x" := 18.0]
  {
    var item := Item("x", "Beans", None, None, 0.0, 10.0, None, None, None, None);
    var lines := [CheckedLine("x", 5.0, 5.0, Passed), CheckedLine("x", 3.0, 3.0, Passed)];
    var db := map["x" := 10.0];
    assert lines[..1] == [lines[0]] && [lines[0]][..0] == [];
    assert RestockedAsWritten(db, [item], [lines[0]]) == map["x" := 15.0];
    assert Restocked(db, [lines[0]]) == map["x" := 15.0];
  }

  /** `handleConfirmReceive`, corrected: the status, and the stock table after
      the receipt (unchanged when rejected). */
  method ConfirmReceive(db: map<string, real>, form: seq<ReceiptLine>)
    returns (status: PurchaseStatus, stock: map<string, real>)
    ensures status == ReceiptStatus(CheckAll(form))
    ensures stock == Restocked(db, CheckAll(form))
  {
    var lines := CheckAll(form);
    status := ReceiptStatus(lines);
    stock := db;
    if status == Rejected {
      RejectedChangesNothing(db, lines);
      return;
    }
    stock := RestockLines(db, lines);
  }

  /** The stock loop of `handleConfirmReceive`, each line reading the stock it updates. */
  method RestockLines(db: map<string, real>, lines: seq<CheckedLine>) returns (stock: map<string, real>)
    ensures stock == Restocked(db, lines)
  {
    stock := db;
    for i := 0 to |lines|
      invariant stock == Restocked(db, lines[..i])
    {
      var line := lines[i];
      RestockedStep(db, lines, i);
      if line.quality != Passed || line.received <= 0.0 {
        continue;
      }
      var current := if line.itemId in stock then stock[line.itemId] else 0.0;
      if line.itemId in stock {
        stock := stock[line.itemId := MaxReal(0.0, current + line.received)];
      }
    }
    assert lines[..|lines|] == lines;
  }


  /** `handleConfirmReceive` as written: the current stock is read from the
      items on screen (`snapshot`). */
  method ConfirmReceiveAsWritten(db: map<string, real>, snapshot: seq<Item>, form: seq<ReceiptLine>)
    returns (status: PurchaseStatus, stock: map<string, real>)
    ensures status == ReceiptStatus(CheckAll(form))
    ensures stock == if status == Rejected then db else RestockedAsWritten(db, snapshot, CheckAll(form))
  {
    var lines := CheckAll(form);
    status := ReceiptStatus(lines);
    stock := db;
    if status == Rejected {
      return;
    }
    stock := RestockLinesAsWritten(db, snapshot, lines);
  }

  /** The stock loop as written: each line reads the stock shown on screen. */
  method RestockLinesAsWritten(db: map<string, real>, snapshot: seq<Item>, lines: seq<CheckedLine>)
    returns (stock: map<string, real>)
    ensures stock == RestockedAsWritten(db, snapshot, lines)
  {
    stock := db;
    for i := 0 to |lines|
      invariant stock == RestockedAsWritten(db, snapshot, lines[..i])
    {
      var line := lines[i];
      RestockedAsWrittenStep(db, snapshot, lines, i);
      if line.quality != Passed || line.received <= 0.0 {
        continue;
      }
      var current := SnapshotStock(snapshot, line.itemId);
      if line.itemId in stock {
        stock := stock[line.itemId := MaxReal(0.0, current + line.received)];
      }
    }
    assert lines[..|lines|] == lines;
  }


  // ---- Stock adjustments ----

  /** Adjustments worth more than this wait for approval. */
  const AdjustmentApprovalThreshold: real := 1000.0

  datatype AdjustmentStatus = Pending | Approved

  datatype AdjustmentOutcome =
    | NotPermitted              // only warehouse staff record adjustments
    | JustificationRequired     // the notes are shorter than 10 UTF-16 code units
    | Recorded(quantity: Option<int>, value: JsNum, status: AdjustmentStatus)

  /** `handleSaveAdjustment`: `price` is the item's price (`None` when the item
      is not found); the quantity is read with `parseInt`. */
  function SaveAdjustment(isWarehouseStaff: bool, notes: string, quantityText: string, price: Option<real>)
    : AdjustmentOutcome
  {
    if !isWarehouseStaff then NotPermitted
    else if Utf16Length(notes) < 10 then JustificationRequired
    else
      var qty := ParseInt(quantityText);
      var value := match qty
                   case None => NaN
                   case Some(q) => Num(Abs(q as real * OrNum(price, 0.0)));
      Recorded(qty, value, if value.Num? && value.v > AdjustmentApprovalThreshold then Pending else Approved)
  }

  /** An adjustment is recorded only for warehouse staff with notes of at
      least 10 UTF-16 code units; its value is |quantity × price| and it waits for
      approval exactly when that value is above 1000. */
  lemma AdjustmentRules(isWarehouseStaff: bool, notes: string, quantityText: string, price: Option<real>)
    ensures var r := SaveAdjustment(isWarehouseStaff, notes, quantityText, price);
            (r.Recorded? <==> isWarehouseStaff && Utf16Length(notes) >= 10)
            && (r.Recorded? && ParseInt(quantityText).Some? ==>
                  r.value == Num(Abs(ParseInt(quantityText).value as real * OrNum(price, 0.0)))
                  && r.value.v >= 0.0
                  && (r.status == Pending <==> r.value.v > 1000.0))
  {
    var n := Utf16Length(notes);
    if isWarehouseStaff && n >= 10 {
      match ParseInt(quantityText)
      case None =>
      case Some(q) =>
        assert Abs(q as real * OrNum(price, 0.0)) >= 0.0;
    }
  }

  /** A quantity that `parseInt` cannot read gives a NaN value, which is not
      above the threshold: such an adjustment is approved without review. */
  lemma UnreadableQuantityApproved(notes: string, quantityText: string, price: Option<real>)
    requires Utf16Length(notes) >= 10 && ParseInt(quantityText).None?
    ensures SaveAdjustment(true, notes, quantityText, price) == Recorded(None, NaN, Approved)
  {
  }

  // ---- Stock counts ----

  /** `countEntryItems`: the items at the chosen location; none without one. */
  function CountItems(items: seq<Item>, locationId: string): (r: seq<Item>)
    ensures forall i :: 0 <= i < |r| ==> r[i] in items && r[i].locationId == Some(locationId)
    ensures locationId == "" ==> r == []
  {
    if locationId == "" || items == [] then []
    else
      var rest := CountItems(items[..|items| - 1], locationId);
      var last := items[|items| - 1];
      if last.locationId == Some(locationId) then rest + [last] else rest
  }

  datatype CountEntry = CountEntry(itemId: string, counted: real, systemQty: real, variance: real)

  /** The counted quantity typed for an item: none when nothing was typed or it is not a number. */
  function CountedValue(values: map<string, string>, id: string): Option<real>
  {
    if id !in values || values[id] == "" then None
    else match ToNumber(values[id])
         case NaN => None
         case Num(v) => Some(v)
  }

  /** The entries built by the `forEach` over the count items. */
  function Entries(items: seq<Item>, values: map<string, string>): seq<CountEntry>
  {
    if items == [] then []
    else
      var rest := Entries(items[..|items| - 1], values);
      var item := items[|items| - 1];
      match CountedValue(values, item.id)
      case None => rest
      case Some(c) => rest + [CountEntry(item.id, c, item.stock, c - item.stock)]
  }

  /** Each entry records a typed count for an item: its variance is the count
      less the system quantity; items without a usable count get no entry, so
      there are no more entries than items. */
  lemma {:induction false} EntriesRules(items: seq<Item>, values: map<string, string>)
    ensures var es := Entries(items, values);
            |es| <= |items|
            && (forall j :: 0 <= j < |es| ==>
                  es[j].variance == es[j].counted - es[j].systemQty
                  && exists i :: 0 <= i < |items| && items[i].id == es[j].itemId
                                && CountedValue(values, items[i].id) == Some(es[j].counted)
                                && items[i].stock == es[j].systemQty)
  {
    if items != [] {
      var init := items[..|items| - 1];
      EntriesRules(init, values);
      var es := Entries(items, values);
      var before := Entries(init, values);
      forall j | 0 <= j < |es|
        ensures es[j].variance == es[j].counted - es[j].systemQty
                && exists i :: 0 <= i < |items| && items[i].id == es[j].itemId
                              && CountedValue(values, items[i].id) == Some(es[j].counted)
                              && items[i].stock == es[j].systemQty
      {
        if j < |before| {
          assert es[j] == before[j];
          var i :| 0 <= i < |init| && init[i].id == before[j].itemId
                   && CountedValue(values, init[i].id) == Some(before[j].counted) && init[i].stock == before[j].systemQty;
          assert items[i] == init[i];
        } else {
          assert items[|items| - 1].id == es[j].itemId;
        }
      }
    }
  }

  /** There are no entries exactly when no item has a usable count. */
  lemma {:induction false} EntriesEmpty(items: seq<Item>, values: map<string, string>)
    ensures Entries(items, values) == [] <==> forall i :: 0 <= i < |items| ==> CountedValue(values, items[i].id).None?
  {
    if items != [] {
      var init := items[..|items| - 1];
      EntriesEmpty(init, values);
      assert forall i :: 0 <= i < |init| ==> items[i] == init[i];
    }
  }

  lemma EntriesStep(items: seq<Item>, n: nat, values: map<string, string>, counted: Option<real>)
    requires n < |items| && counted == CountedValue(values, items[n].id)
    ensures counted.None? ==> Entries(items[..n + 1], values) == Entries(items[..n], values)
    ensures counted.Some? ==>
      Entries(items[..n + 1], values)
      == Entries(items[..n], values) + [CountEntry(items[n].id, counted.value, items[n].stock, counted.value - items[n].stock)]
  {
    assert items[..n + 1] == items[..n] + [items[n]];
    EntriesSnoc(items[..n], items[n], values);
  }

  lemma EntriesSnoc(items: seq<Item>, item: Item, values: map<string, string>)
    ensures Entries(items + [item], values)
            == match CountedValue(values, item.id)
               case None => Entries(items, values)
               case Some(c) => Entries(items, values) + [CountEntry(item.id, c, item.stock, c - item.stock)]
  {
    var s := items + [item];
    assert s[..|s| - 1] == items;
  }

  /** The `forEach` of `handleSaveCountEntries`: one entry per item with a usable count. */
  method BuildCountEntries(items: seq<Item>, values: map<string, string>) returns (list: seq<CountEntry>)
    ensures list == Entries(items, values)
  {
    list := [];
    for n := 0 to |items|
      invariant list == Entries(items[..n], values)
    {
      list := AddCountEntry(list, items, n, values);
    }
    assert items[..|items|] == items;
  }

  /** One pass of the `forEach`: an entry for the item when its count is usable. */
  method AddCountEntry(list: seq<CountEntry>, items: seq<Item>, n: nat, values: map<string, string>)
    returns (list': seq<CountEntry>)
    requires n < |items| && list == Entries(items[..n], values)
    ensures list' == Entries(items[..n + 1], values)
  {
    var item := items[n];
    var counted := CountedValue(values, item.id);
    EntriesStep(items, n, values, counted);
    list' := list;
    if counted.Some? {
      list' := list + [CountEntry(item.id, counted.value, item.stock, counted.value - item.stock)];
    }
  }

  /** `handleSaveCountEntries` up to the insert: the entries, or `None` when
      there is none (the form asks for a value instead). */
  method CollectCountEntries(items: seq<Item>, values: map<string, string>) returns (entries: Option<seq<CountEntry>>)
    ensures entries == if Entries(items, values) == [] then None else Some(Entries(items, values))
  {
    var list := BuildCountEntries(items, values);
    if list == [] {
      return None;
    }
    return Some(list);
  }

  // ---- Transfers ----

  datatype TransferLine = TransferLine(itemId: string, quantity: JsNum, name: string, currentStock: real)

  datatype TransferOutcome =
    | Ignored                          // no item or no quantity chosen, or the item is unknown
    | InsufficientStock                // the quantity is above the item's stock
    | Added(lines: seq<TransferLine>)

  /** The first item with that id. */
  function FindItem(items: seq<Item>, id: string): (r: Option<Item>)
    ensures r.Some? ==> r.value in items && r.value.id == id
    ensures r.None? ==> forall i :: 0 <= i < |items| ==> items[i].id != id
  {
    if items == [] then None else if items[0].id == id then Some(items[0]) else FindItem(items[1..], id)
  }

  /** `addItemToTransfer`. */
  function AddItemToTransfer(items: seq<Item>, selectedId: string, quantityText: string, lines: seq<TransferLine>)
    : TransferOutcome
  {
    if selectedId == "" || quantityText == "" then Ignored
    else match FindItem(items, selectedId)
      case None => Ignored
      case Some(item) =>
        var q := ToNumber(quantityText);
        if q.Num? && q.v > item.stock then InsufficientStock
        else Added(lines + [TransferLine(item.id, q, item.name, item.stock)])
  }

  /** A line is added only for a known item, after the lines already there,
      with a quantity that is not above the item's stock; a quantity that is
      not a number passes the guard. */
  lemma TransferGuard(items: seq<Item>, selectedId: string, quantityText: string, lines: seq<TransferLine>)
    ensures var r := AddItemToTransfer(items, selectedId, quantityText, lines);
            r.Added? ==> |r.lines| == |lines| + 1 && r.lines[..|lines|] == lines
                         && var added := r.lines[|lines|];
                            (exists i :: 0 <= i < |items| && items[i].id == added.itemId && items[i].stock == added.currentStock)
                            && (added.quantity.NaN? || added.quantity.v <= added.currentStock)
    ensures var r := AddItemToTransfer(items, selectedId, quantityText, lines);
            r == InsufficientStock <==>
              selectedId != "" && quantityText != "" && FindItem(items, selectedId).Some?
              && ToNumber(quantityText).Num? && ToNumber(quantityText).v > FindItem(items, selectedId).value.stock
  {
    var r := AddItemToTransfer(items, selectedId, quantityText, lines);
    if r.Added? {
      var item := FindItem(items, selectedId).value;
      var i :| 0 <= i < |items| && items[i] == item;
      assert r.lines[..|lines|] == lines;
    }
  }
}
