/** Cash-drawer reconciliation of a cashier's shift: the cash taken in sales,
    the cash paid in and out of the drawer, and the cash the drawer should
    hold. Rows come from the database as JavaScript objects, so a field is
    read by its name and may be missing. */
module ShiftService {
  import opened Common

  const DemoUserId: string := "demo-user"
  const DemoUserUuid: string := "00000000-0000-0000-0000-000000000000"

  /** `resolveUserId`: the demo login is stored under the all-zero UUID. */
  function ResolveUserId(userId: string): (r: string)
    ensures r != DemoUserId
    ensures userId != DemoUserId ==> r == userId
    ensures userId == DemoUserId ==> r == DemoUserUuid
  {
    if userId == DemoUserId then DemoUserUuid else userId
  }

  /** A JSON value of a database row. */
  datatype Value = Text(s: string) | Number(x: real) | Object(fields: map<string, Value>) | Null

  type Row = map<string, Value>

  /** `row[key] === text`. */
  predicate FieldIs(row: Row, key: string, text: string)
  {
    key in row && row[key] == Text(text)
  }

  /** JavaScript truthiness of `row[key]` (a missing field is `undefined`). */
  predicate Truthy(row: Row, key: string)
  {
    key in row &&
    match row[key]
    case Text(s) => s != ""
    case Number(x) => x != 0.0
    case Object(_) => true
    case Null => false
  }

  /** `row.total` as an operand of `+=`: a `null` total counts as 0, and a
      missing total is `undefined` and makes the sum NaN. */
  function TotalOf(row: Row): JsNum
  {
    if "total" in row && row["total"].Number? then Num(row["total"].x)
    else if "total" in row && row["total"].Null? then Num(0.0)
    else NaN
  }

  /** `row[key].cash || 0` for a truthy `row[key]`. */
  function CashOf(row: Row, key: string): real
  {
    if key in row && row[key].Object? && "cash" in row[key].fields && row[key].fields["cash"].Number?
    then row[key].fields["cash"].x
    else 0.0
  }

  /** The names under which a transaction's payment method and payment breakdown are read. */
  datatype PaymentKeys = PaymentKeys(methodKey: string, breakdownKey: string)

  /** The names the reconciliation reads. */
  const ReadKeys := PaymentKeys("paymentMethod", "paymentBreakdown")

  /** The names under which the checkout stores a transaction. */
  const StoredKeys := PaymentKeys("payment_method", "payment_breakdown")

  /** What one transaction adds to the cash sales: its total when paid in
      cash, the cash part of a split payment, nothing otherwise. */
  function SaleCash(tx: Row, keys: PaymentKeys): (r: Option<JsNum>)
    ensures r.Some? <==> FieldIs(tx, keys.methodKey, "CASH") || (FieldIs(tx, keys.methodKey, "SPLIT") && Truthy(tx, keys.breakdownKey))
    ensures FieldIs(tx, keys.methodKey, "CASH") ==> r == Some(TotalOf(tx))
    ensures !FieldIs(tx, keys.methodKey, "CASH") && r.Some? ==> r == Some(Num(CashOf(tx, keys.breakdownKey)))
  {
    if FieldIs(tx, keys.methodKey, "CASH") then Some(TotalOf(tx))
    else if FieldIs(tx, keys.methodKey, "SPLIT") && Truthy(tx, keys.breakdownKey) then Some(Num(CashOf(tx, keys.breakdownKey)))
    else None
  }

  /** The cash sales of a run of transactions. */
  function CashSales(txs: seq<Row>, keys: PaymentKeys): JsNum
  {
    if txs == [] then Num(0.0)
    else
      var acc := CashSales(txs[..|txs| - 1], keys);
      match SaleCash(txs[|txs| - 1], keys)
      case None => acc
      case Some(c) => JsAdd(acc, c)
  }

  /** The transactions of one cashier, in order. */
  function OfCashier(txs: seq<Row>, cashier: string): (r: seq<Row>)
    ensures |r| <= |txs|
    ensures forall i :: 0 <= i < |r| ==> FieldIs(r[i], "cashier_name", cashier) && r[i] in txs
  {
    if txs == [] then []
    else
      var rest := OfCashier(txs[..|txs| - 1], cashier);
      if FieldIs(txs[|txs| - 1], "cashier_name", cashier) then rest + [txs[|txs| - 1]] else rest
  }

  lemma JsAddAssoc(x: JsNum, y: JsNum, z: JsNum)
    ensures JsAdd(JsAdd(x, y), z) == JsAdd(x, JsAdd(y, z))
  {
  }

  /** Cash sales add up over consecutive runs of transactions. */
  lemma {:induction false} CashSalesAppend(a: seq<Row>, b: seq<Row>, keys: PaymentKeys)
    ensures CashSales(a + b, keys) == JsAdd(CashSales(a, keys), CashSales(b, keys))
    decreases |b|
  {
    if b == [] {
      assert a + b == a;
      JsAddZero(CashSales(a, keys));
    } else {
      var init := b[..|b| - 1];
      var tx := b[|b| - 1];
      CashSalesAppend(a, init, keys);
      var ab := a + b;
      assert ab[..|ab| - 1] == a + init && ab[|ab| - 1] == tx;
      match SaleCash(tx, keys)
      case None =>
      case Some(c) => JsAddAssoc(CashSales(a, keys), CashSales(init, keys), c);
    }
  }

  /** A cash sale whose total is `null` leaves the cash sales as they were;
      one without a total makes them NaN. */
  lemma NullTotalAddsZero(txs: seq<Row>, tx: Row, keys: PaymentKeys)
    requires FieldIs(tx, keys.methodKey, "CASH")
    ensures "total" in tx && tx["total"] == Null ==> CashSales(txs + [tx], keys) == CashSales(txs, keys)
    ensures "total" !in tx ==> CashSales(txs + [tx], keys) == NaN
  {
    var t := txs + [tx];
    assert t[..|t| - 1] == txs && t[|t| - 1] == tx;
    JsAddZero(CashSales(txs, keys));
  }

  /** Transactions of other cashiers change nothing in a cashier's cash sales. */
  lemma {:induction false} OtherCashiersIgnored(txs: seq<Row>, other: Row, cashier: string, keys: PaymentKeys)
    requires !FieldIs(other, "cashier_name", cashier)
    ensures OfCashier(txs + [other], cashier) == OfCashier(txs, cashier)
    ensures CashSales(OfCashier(txs + [other], cashier), keys) == CashSales(OfCashier(txs, cashier), keys)
  {
    var t := txs + [other];
    assert t[..|t| - 1] == txs;
  }

  /** A transaction of the cashier adds what it paid in cash. */
  lemma {:induction false} OwnSaleCounted(txs: seq<Row>, tx: Row, cashier: string, keys: PaymentKeys)
    requires FieldIs(tx, "cashier_name", cashier)
    ensures CashSales(OfCashier(txs + [tx], cashier), keys)
            == match SaleCash(tx, keys)
               case None => CashSales(OfCashier(txs, cashier), keys)
               case Some(c) => JsAdd(CashSales(OfCashier(txs, cashier), keys), c)
  {
    var t := txs + [tx];
    assert t[..|t| - 1] == txs;
    var mine := OfCashier(txs, cashier) + [tx];
    assert mine[..|mine| - 1] == OfCashier(txs, cashier);
  }

  /** A transaction stored by the checkout: its payment method and
      breakdown under the stored names, no field under the names read. */
  predicate StoredByCheckout(tx: Row)
  {
    ReadKeys.methodKey !in tx && ReadKeys.breakdownKey !in tx
  }

  /** Read under the names the reconciliation uses, stored transactions
      never count: every shift's cash sales are zero. */
  lemma {:induction false} StoredSalesNeverCounted(txs: seq<Row>)
    requires forall i :: 0 <= i < |txs| ==> StoredByCheckout(txs[i])
    ensures CashSales(txs, ReadKeys) == Num(0.0)
  {
    if txs != [] {
      StoredSalesNeverCounted(txs[..|txs| - 1]);
      assert StoredByCheckout(txs[|txs| - 1]);
    }
  }

  /** Read under the stored names, a cash sale the checkout stored adds its total
      and a split sale adds its cash part. */
  lemma CheckoutSaleCounted(txs: seq<Row>, tx: Row, cashier: string)
    requires FieldIs(tx, "cashier_name", cashier) && StoredByCheckout(tx)
    ensures FieldIs(tx, "payment_method", "CASH") ==>
              CashSales(OfCashier(txs + [tx], cashier), StoredKeys)
              == JsAdd(CashSales(OfCashier(txs, cashier), StoredKeys), TotalOf(tx))
    ensures FieldIs(tx, "payment_method", "SPLIT") && "payment_breakdown" in tx && tx["payment_breakdown"].Object? ==>
              CashSales(OfCashier(txs + [tx], cashier), StoredKeys)
              == JsAdd(CashSales(OfCashier(txs, cashier), StoredKeys), Num(CashOf(tx, "payment_breakdown")))
  {
    OwnSaleCounted(txs, tx, cashier, StoredKeys);
  }

  /** A cash sale of 10 as the checkout stores it: 0 as read, 10 under the stored names. */
  lemma CashSaleLost()
    ensures var tx := map["total" := Number(10.0), "payment_method" := Text("CASH"),
                          "payment_breakdown" := Null, "cashier_name" := Text("Cashier")];
            CashSales(OfCashier([tx], "Cashier"), ReadKeys) == Num(0.0)
            && CashSales(OfCashier([tx], "Cashier"), StoredKeys) == Num(10.0)
  {
    var tx: Row := map["total" := Number(10.0), "payment_method" := Text("CASH"),
                       "payment_breakdown" := Null, "cashier_name" := Text("Cashier")];
    var one: seq<Row> := [tx];
    assert one[..0] == [];
    assert OfCashier([tx], "Cashier") == [tx] by {
      assert FieldIs(tx, "cashier_name", "Cashier");
    }
    assert SaleCash(tx, ReadKeys) == None by {
      assert "paymentMethod" !in tx;
    }
    assert SaleCash(tx, StoredKeys) == Some(Num(10.0)) by {
      assert FieldIs(tx, "payment_method", "CASH");
      assert tx["total"] == Number(10.0);
    }
  }

  /** A cash movement: `IN` or `OUT` and an amount. */
  datatype CashMovement = CashMovement(kind: string, amount: real)

  /** The cash paid into the drawer. */
  function CashIn(ms: seq<CashMovement>): real
  {
    if ms == [] then 0.0
    else CashIn(ms[..|ms| - 1]) + (if ms[|ms| - 1].kind == "IN" then ms[|ms| - 1].amount else 0.0)
  }

  /** The cash taken out of the drawer. */
  function CashOut(ms: seq<CashMovement>): real
  {
    if ms == [] then 0.0
    else CashOut(ms[..|ms| - 1]) + (if ms[|ms| - 1].kind == "OUT" then ms[|ms| - 1].amount else 0.0)
  }

  /** The amounts of all movements that are `IN` or `OUT`. */
  function Moved(ms: seq<CashMovement>): real
  {
    if ms == [] then 0.0
    else Moved(ms[1..]) + (if ms[0].kind == "IN" || ms[0].kind == "OUT" then ms[0].amount else 0.0)
  }

  /** Each movement is counted on exactly one side, or on none when its type is neither. */
  lemma {:induction false} MovementsSplit(ms: seq<CashMovement>)
    ensures CashIn(ms) + CashOut(ms) == Moved(ms)
  {
    if ms != [] {
      var init := ms[..|ms| - 1];
      MovementsSplit(init);
      MovedSnoc(init, ms[|ms| - 1]);
      assert init + [ms[|ms| - 1]] == ms;
    }
  }

  lemma {:induction false} MovedSnoc(ms: seq<CashMovement>, m: CashMovement)
    ensures Moved(ms + [m]) == Moved(ms) + (if m.kind == "IN" || m.kind == "OUT" then m.amount else 0.0)
  {
    if ms == [] {
      assert [] + [m] == [m];
    } else {
      MovedSnoc(ms[1..], m);
      assert (ms + [m])[1..] == ms[1..] + [m];
    }
  }

  /** The shift being reconciled. */
  datatype Shift = Shift(id: string, cashierName: string, initialCash: real)

  /** The answer of a query: an error, no data, or rows. */
  datatype Fetch<T> = Failed | NoData | Rows(rows: seq<T>)

  function RowsOf<T>(f: Fetch<T>): seq<T>
  {
    if f.Rows? then f.rows else []
  }

  datatype ShiftTotals = ShiftTotals(sales: JsNum, cashReturns: real, cashIn: real, cashOut: real, expected: JsNum)

  /** `initial + sales + cashIn - cashOut`. */
  function Expected(initial: real, sales: JsNum, cashIn: real, cashOut: real): (r: JsNum)
    ensures r.NaN? <==> sales.NaN?
    ensures r.Num? ==> r.v - initial == sales.v + cashIn - cashOut
  {
    if sales.Num? then Num(initial + sales.v + cashIn - cashOut) else NaN
  }

  /** The totals of a shift from the transactions fetched since it started and
      its cash movements; a failed transaction query fails the whole call, a
      failed movement query counts as no movement. */
  function Totals(shift: Shift, txs: Fetch<Row>, movements: Fetch<CashMovement>, keys: PaymentKeys)
    : Option<ShiftTotals>
  {
    if txs.Failed? then None
    else
      var sales := CashSales(OfCashier(RowsOf(txs), shift.cashierName), keys);
      var ms := RowsOf(movements);
      Some(ShiftTotals(sales, 0.0, CashIn(ms), CashOut(ms), Expected(shift.initialCash, sales, CashIn(ms), CashOut(ms))))
  }

  lemma CashSalesStep(txs: seq<Row>, i: nat, keys: PaymentKeys)
    requires i < |txs|
    ensures CashSales(txs[..i + 1], keys)
            == match SaleCash(txs[i], keys)
               case None => CashSales(txs[..i], keys)
               case Some(c) => JsAdd(CashSales(txs[..i], keys), c)
  {
    var prefix := txs[..i + 1];
    assert prefix[..|prefix| - 1] == txs[..i] && prefix[|prefix| - 1] == txs[i];
  }

  /** The first `forEach` of `getShiftTotals`: the cash taken in the given transactions. */
  method SumCashSales(txs: seq<Row>, keys: PaymentKeys) returns (cashSales: JsNum)
    ensures cashSales == CashSales(txs, keys)
  {
    cashSales := Num(0.0);
    for i := 0 to |txs|
      invariant cashSales == CashSales(txs[..i], keys)
    {
      var tx := txs[i];
      CashSalesStep(txs, i, keys);
      if FieldIs(tx, keys.methodKey, "CASH") {
        cashSales := JsAdd(cashSales, TotalOf(tx));
      } else if FieldIs(tx, keys.methodKey, "SPLIT") && Truthy(tx, keys.breakdownKey) {
        cashSales := JsAdd(cashSales, Num(CashOf(tx, keys.breakdownKey)));
      }
    }
    assert txs[..|txs|] == txs;
  }

  lemma MovementStep(ms: seq<CashMovement>, i: nat)
    requires i < |ms|
    ensures CashIn(ms[..i + 1]) == CashIn(ms[..i]) + (if ms[i].kind == "IN" then ms[i].amount else 0.0)
    ensures CashOut(ms[..i + 1]) == CashOut(ms[..i]) + (if ms[i].kind == "OUT" then ms[i].amount else 0.0)
  {
    var prefix := ms[..i + 1];
    assert prefix[..|prefix| - 1] == ms[..i] && prefix[|prefix| - 1] == ms[i];
  }

  /** The second `forEach` of `getShiftTotals`: cash paid in and taken out. */
  method SumMovements(ms: seq<CashMovement>) returns (cashIn: real, cashOut: real)
    ensures cashIn == CashIn(ms) && cashOut == CashOut(ms)
  {
    cashIn := 0.0;
    cashOut := 0.0;
    for i := 0 to |ms|
      invariant cashIn == CashIn(ms[..i]) && cashOut == CashOut(ms[..i])
    {
      MovementStep(ms, i);
      if ms[i].kind == "IN" {
        cashIn := cashIn + ms[i].amount;
      } else if ms[i].kind == "OUT" {
        cashOut := cashOut + ms[i].amount;
      }
    }
    assert ms[..|ms|] == ms;
  }

  /** `getShiftTotals`, reading the payment fields under `keys`. */
  method GetShiftTotals(shift: Shift, txs: Fetch<Row>, movements: Fetch<CashMovement>, keys: PaymentKeys)
    returns (totals: Option<ShiftTotals>)
    ensures totals == Totals(shift, txs, movements, keys)
  {
    if txs.Failed? {
      return None;
    }
    var mine := OfCashier(RowsOf(txs), shift.cashierName);
    var cashSales := SumCashSales(mine, keys);
    var cashIn, cashOut := SumMovements(RowsOf(movements));
    var expected := if cashSales.Num? then Num(shift.initialCash + cashSales.v + cashIn - cashOut) else NaN;
    return Some(ShiftTotals(cashSales, 0.0, cashIn, cashOut, expected));
  }
}
