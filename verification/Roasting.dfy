/** The roasting screen: batch weight bookkeeping, packaging lines, and the
    start / finish / cancel / package steps over the green-bean, batch,
    movement and inventory tables. Batch codes and line ids (random in the
    program) are parameters. */
module Roasting {
  import opened Common

  datatype BatchStatus = InProgress | Completed | ReadyForPackaging | Deleted

  /** A packaging run recorded on a batch; the quantity is NaN (`None`) when the line's text was not a number. */
  datatype PackagingUnit = PackagingUnit(templateId: string, productId: string, quantity: Option<int>)

  datatype Batch = Batch(id: string, beanId: string, preWeight: real, postWeight: real, wastePercentage: real,
                         status: BatchStatus, packagingUnits: seq<PackagingUnit>)

  /** A green-bean movement row; `batchRef` is the batch code. */
  datatype Movement = Movement(beanId: string, batchRef: string, quantity: real)

  /** A packaging template, by id: the weight of one package. */
  datatype Template = Template(weightInKg: real)

  /** A product definition, by id, and its packaging template. */
  datatype Product = Product(templateId: Option<string>)

  // ---- Weights as JavaScript numbers ----

  /** `a > b`: false as soon as one side is NaN. */
  predicate JsGreater(a: JsNum, b: JsNum) { a.Num? && b.Num? && a.v > b.v }

  /** `qty * w` for a quantity read with `parseInt`. */
  function Weigh(qty: Option<int>, w: real): JsNum
  {
    match qty case None => NaN case Some(q) => Num(q as real * w)
  }

  /** `tpl?.weightInKg || 0`. */
  function TemplateWeight(templates: map<string, Template>, id: string): real
  {
    if id in templates then templates[id].weightInKg else 0.0
  }

  /** The packaged weight: quantity × template weight, summed over the units. */
  function Packaged(units: seq<PackagingUnit>, templates: map<string, Template>): JsNum
  {
    if units == [] then Num(0.0)
    else
      var u := units[|units| - 1];
      JsAdd(Packaged(units[..|units| - 1], templates), Weigh(u.quantity, TemplateWeight(templates, u.templateId)))
  }

  /** `getBatchWeightStats`: the packaged weight and what is left of the roasted weight. */
  function Remaining(batch: Batch, templates: map<string, Template>): JsNum
  {
    match Packaged(batch.packagingUnits, templates)
    case NaN => NaN
    case Num(p) => Num(batch.postWeight - p)
  }

  /** `getBatchWeightStats`: packaged and remaining weight, which always add
      up to the roasted weight; no batch gives zero and zero. */
  function WeightStats(batch: Option<Batch>, templates: map<string, Template>): (r: (JsNum, JsNum))
    ensures r.0.NaN? <==> r.1.NaN?
    ensures r.0.Num? ==> r.0.v + r.1.v == if batch.Some? then batch.value.postWeight else 0.0
    ensures batch.None? ==> r == (Num(0.0), Num(0.0))
  {
    match batch
    case None => (Num(0.0), Num(0.0))
    case Some(b) => (Packaged(b.packagingUnits, templates), Remaining(b, templates))
  }

  lemma JsAddAssoc(x: JsNum, y: JsNum, z: JsNum)
    ensures JsAdd(JsAdd(x, y), z) == JsAdd(x, JsAdd(y, z))
  {
  }

  /** Adding one unit at the end adds its weight. */
  lemma PackagedSnoc(units: seq<PackagingUnit>, u: PackagingUnit, templates: map<string, Template>)
    ensures Packaged(units + [u], templates)
         == JsAdd(Packaged(units, templates), Weigh(u.quantity, TemplateWeight(templates, u.templateId)))
  {
    var s := units + [u];
    assert s[..|s| - 1] == units && s[|s| - 1] == u;
  }

  /** The packaged weight of two runs of units is the sum of their weights. */
  lemma {:induction false} PackagedAppend(a: seq<PackagingUnit>, b: seq<PackagingUnit>, templates: map<string, Template>)
    ensures Packaged(a + b, templates) == JsAdd(Packaged(a, templates), Packaged(b, templates))
    decreases |b|
  {
    if b == [] {
      assert a + b == a;
      JsAddZero(Packaged(a, templates));
    } else {
      var init := b[..|b| - 1];
      var u := b[|b| - 1];
      var w := Weigh(u.quantity, TemplateWeight(templates, u.templateId));
      PackagedAppend(a, init, templates);
      assert b == init + [u];
      assert a + b == (a + init) + [u];
      PackagedSnoc(a + init, u, templates);
      PackagedSnoc(init, u, templates);
      JsAddAssoc(Packaged(a, templates), Packaged(init, templates), w);
    }
  }

  // ---- Packaging lines ----

  /** A line of the packaging form; `quantity` is the text typed. */
  datatype PackagingLine = PackagingLine(tempId: string, productId: string, quantity: string)

  /** The template of a line's product, when the product, its template id and the template all exist. */
  function TemplateOf(line: PackagingLine, products: map<string, Product>, templates: map<string, Template>)
    : (r: Option<string>)
    ensures r.Some? ==> r.value in templates
  {
    if line.productId in products && products[line.productId].templateId.Some?
       && products[line.productId].templateId.value in templates
    then products[line.productId].templateId
    else None
  }

  /** `parseInt(line.quantity || '0')`. */
  function LineQuantity(line: PackagingLine): Option<int>
  {
    ParseInt(if line.quantity == "" then "0" else line.quantity)
  }

  /** `totalBatchPackagingWeightNeeded`: quantity × template weight over the
      lines whose product has a template; NaN once a quantity is not a number. */
  function Needed(lines: seq<PackagingLine>, products: map<string, Product>, templates: map<string, Template>): JsNum
  {
    if lines == [] then Num(0.0)
    else
      var line := lines[|lines| - 1];
      var acc := Needed(lines[..|lines| - 1], products, templates);
      var tid := TemplateOf(line, products, templates);
      if tid.None? then acc
      else JsAdd(acc, Weigh(LineQuantity(line), templates[tid.value].weightInKg))
  }

  /** `addPackagingLine`: a new line for one package of no product yet. */
  function AddPackagingLine(lines: seq<PackagingLine>, tempId: string): (r: seq<PackagingLine>)
    ensures |r| == |lines| + 1 && r[..|lines|] == lines
    ensures r[|lines|] == PackagingLine(tempId, "", "1")
  {
    lines + [PackagingLine(tempId, "", "1")]
  }

  function WithoutLine(lines: seq<PackagingLine>, tempId: string): (r: seq<PackagingLine>)
    ensures |r| <= |lines|
    ensures forall i :: 0 <= i < |r| ==> r[i] in lines && r[i].tempId != tempId
  {
    if lines == [] then []
    else
      var rest := WithoutLine(lines[..|lines| - 1], tempId);
      var last := lines[|lines| - 1];
      if last.tempId == tempId then rest else rest + [last]
  }

  /** `removePackagingLine`: the last remaining line is never removed. */
  function RemovePackagingLine(lines: seq<PackagingLine>, tempId: string): seq<PackagingLine>
  {
    if |lines| > 1 then WithoutLine(lines, tempId) else lines
  }

  predicate DistinctIds(lines: seq<PackagingLine>)
  {
    forall i, j :: 0 <= i < j < |lines| ==> lines[i].tempId != lines[j].tempId
  }

  lemma {:induction false} WithoutLineNone(lines: seq<PackagingLine>, tempId: string)
    requires forall i :: 0 <= i < |lines| ==> lines[i].tempId != tempId
    ensures WithoutLine(lines, tempId) == lines
  {
    if lines != [] {
      var init := lines[..|lines| - 1];
      WithoutLineNone(init, tempId);
      assert init + [lines[|lines| - 1]] == lines;
    }
  }

  lemma {:induction false} WithoutLineCount(lines: seq<PackagingLine>, tempId: string)
    requires DistinctIds(lines)
    ensures |WithoutLine(lines, tempId)| >= |lines| - 1
  {
    if lines != [] {
      var init := lines[..|lines| - 1];
      var last := lines[|lines| - 1];
      if last.tempId == tempId {
        forall i | 0 <= i < |init|
          ensures init[i].tempId != tempId
        {
          assert init[i] == lines[i];
        }
        WithoutLineNone(init, tempId);
      } else {
        forall i, j | 0 <= i < j < |init|
          ensures init[i].tempId != init[j].tempId
        {
          assert init[i] == lines[i] && init[j] == lines[j];
        }
        WithoutLineCount(init, tempId);
      }
    }
  }

  /** With distinct line ids (they are random UUIDs), removing a line never
      empties a form that has lines: at most one line goes, and none when the
      id is not there. */
  lemma RemoveKeepsALine(lines: seq<PackagingLine>, tempId: string)
    requires DistinctIds(lines) && |lines| >= 1
    ensures var r := RemovePackagingLine(lines, tempId);
            |r| >= 1 && |r| >= |lines| - 1
            && ((forall i :: 0 <= i < |lines| ==> lines[i].tempId != tempId) ==> r == lines)
  {
    WithoutLineCount(lines, tempId);
    if forall i :: 0 <= i < |lines| ==> lines[i].tempId != tempId {
      WithoutLineNone(lines, tempId);
    }
  }

  datatype LineField = TempIdField | ProductField | QuantityField

  function SetField(line: PackagingLine, field: LineField, value: string): PackagingLine
  {
    match field
    case TempIdField => line.(tempId := value)
    case ProductField => line.(productId := value)
    case QuantityField => line.(quantity := value)
  }

  /** `updatePackagingLine`: only the lines with that id change, and only in that field. */
  function UpdatePackagingLine(lines: seq<PackagingLine>, tempId: string, field: LineField, value: string)
    : (r: seq<PackagingLine>)
    ensures |r| == |lines|
    ensures forall i :: 0 <= i < |lines| ==>
              r[i] == if lines[i].tempId == tempId then SetField(lines[i], field, value) else lines[i]
  {
    if lines == [] then []
    else [if lines[0].tempId == tempId then SetField(lines[0], field, value) else lines[0]]
         + UpdatePackagingLine(lines[1..], tempId, field, value)
  }

  // ---- Waste ----

  /** `(pre - post) / pre * 100`. */
  function Waste(pre: real, post: real): (w: real)
    requires pre > 0.0
    ensures w * pre == (pre - post) * 100.0
  {
    var f := (pre - post) / pre;
    assert f * pre == pre - post;
    f * 100.0
  }

  /** The waste is below 100% for any positive output, positive exactly when
      weight was lost, and zero when none was. */
  lemma WasteBounds(pre: real, post: real)
    requires pre > 0.0 && post > 0.0
    ensures Waste(pre, post) < 100.0
    ensures Waste(pre, post) > 0.0 <==> post < pre
    ensures post == pre ==> Waste(pre, post) == 0.0
  {
    var w := Waste(pre, post);
    ScaleCompare(w, 100.0, pre);
    ScaleCompare(0.0, w, pre);
    ScaleCompare(w, 0.0, pre);
  }

  /** Multiplying by a positive factor keeps order and equality. */
  lemma ScaleCompare(a: real, b: real, c: real)
    requires c > 0.0
    ensures a * c < b * c <==> a < b
    ensures a * c == b * c <==> a == b
  {
    if a < b {
      assert (b - a) * c > 0.0;
    } else if a > b {
      assert (a - b) * c > 0.0;
    }
  }

  /** `parseFloat(x.toFixed(2))`: rounded to two decimals, halves away from zero. */
  function Round2(x: real): (r: real)
    ensures -0.005 < r - x <= 0.005 || -0.005 <= r - x < 0.005
  {
    if x < 0.0 then -RoundUp2(-x) else RoundUp2(x)
  }

  function RoundUp2(y: real): (r: real)
    ensures -0.005 < r - y <= 0.005
  {
    ((y * 100.0 + 0.5).Floor as real) / 100.0
  }

  // ---- The tables ----

  datatype StartOutcome = StartRefused | CodeTaken | Started
  datatype FinishOutcome = FinishIgnored | Finished
  datatype CancelOutcome = NoSuchBatch | AlreadyStarted | BeanMissing | Cancelled
  datatype ProductionOutcome = NoSuchBatch | InsufficientWeight | MissingTemplate | Produced(units: seq<PackagingUnit>)

  /** An inventory row created by packaging. */
  datatype StockRow = StockRow(productId: string, batchId: string, stock: Option<int>)

  /** Green beans minus a roast. */
  function Consume(beans: map<string, real>, id: string, q: real): map<string, real>
    requires id in beans
  {
    beans[id := beans[id] - q]
  }

  /** Taking no more than is there leaves no stock negative. */
  lemma ConsumeKeepsStock(beans: map<string, real>, id: string, q: real)
    requires id in beans && q <= beans[id]
    requires forall b :: b in beans ==> beans[b] >= 0.0
    ensures forall b :: b in Consume(beans, id, q) ==> Consume(beans, id, q)[b] >= 0.0
  {
  }

  /** Green beans plus a cancelled roast (`(quantity || 0) + pre`). */
  function Restore(beans: map<string, real>, id: string, q: real): map<string, real>
    requires id in beans
  {
    beans[id := beans[id] + q]
  }

  /** The movements without those of one batch. */
  function WithoutBatch(ms: seq<Movement>, code: string): (r: seq<Movement>)
    ensures forall i :: 0 <= i < |r| ==> r[i] in ms && r[i].batchRef != code
  {
    if ms == [] then []
    else
      var rest := WithoutBatch(ms[..|ms| - 1], code);
      if ms[|ms| - 1].batchRef == code then rest else rest + [ms[|ms| - 1]]
  }

  lemma {:induction false} WithoutBatchKeeps(ms: seq<Movement>, code: string)
    requires forall i :: 0 <= i < |ms| ==> ms[i].batchRef != code
    ensures WithoutBatch(ms, code) == ms
  {
    if ms != [] {
      WithoutBatchKeeps(ms[..|ms| - 1], code);
    }
  }

  /** Cancelling gives back exactly what starting took. */
  lemma StartThenCancelBeans(beans: map<string, real>, beanId: string, pre: real)
    requires beanId in beans
    ensures Restore(Consume(beans, beanId, pre), beanId, pre) == beans
  {
  }

  /** Starting a batch and cancelling it leaves the movements as they were,
      when no earlier movement carried that batch code. */
  lemma StartThenCancelMovements(ms: seq<Movement>, beanId: string, code: string, pre: real)
    requires forall i :: 0 <= i < |ms| ==> ms[i].batchRef != code
    ensures WithoutBatch(ms + [Movement(beanId, code, pre)], code) == ms
  {
    var ms' := ms + [Movement(beanId, code, pre)];
    assert ms'[..|ms'| - 1] == ms;
    WithoutBatchKeeps(ms, code);
  }

  /** The roastery's tables: green-bean stock by bean id, batches by code,
      bean movements, and inventory rows created by packaging. */
  class Roastery {
    var beans: map<string, real>
    var batches: map<string, Batch>
    var movements: seq<Movement>
    var inventory: seq<StockRow>

    /** No bean stock is negative and every batch roasted a positive weight. */
    predicate Valid()
      reads this
    {
      (forall id :: id in beans ==> beans[id] >= 0.0)
      && (forall code :: code in batches ==> batches[code].preWeight > 0.0)
    }

    constructor(beans: map<string, real>)
      requires forall id :: id in beans ==> beans[id] >= 0.0
      ensures Valid() && this.beans == beans && batches == map[] && movements == [] && inventory == []
    {
      this.beans := beans;
      batches := map[];
      movements := [];
      inventory := [];
    }

    /** `handleStartBatch`: `shown` is the bean list on screen (id to
        quantity). The weight must be a positive number within both the
        quantity shown and the quantity read afresh; then the batch is
        inserted, the beans are consumed and the movement is logged. */
    method StartBatch(shown: map<string, real>, beanId: string, preText: string, code: string)
      returns (outcome: StartOutcome)
      requires Valid()
      modifies this
      ensures Valid() && inventory == old(inventory)
      ensures var pre := ParseFloat(preText);
              outcome == Started <==>
                beanId in shown && pre.Some? && 0.0 < pre.value <= shown[beanId]
                && beanId in old(beans) && pre.value <= old(beans)[beanId] && code !in old(batches)
      ensures outcome == Started ==>
                var pre := ParseFloat(preText).value;
                beans == Consume(old(beans), beanId, pre)
                && batches == old(batches)[code := Batch(code, beanId, pre, 0.0, 0.0, InProgress, [])]
                && movements == old(movements) + [Movement(beanId, code, pre)]
      ensures outcome != Started ==> beans == old(beans) && batches == old(batches) && movements == old(movements)
    {
      var pre := ParseFloat(preText);
      if beanId !in shown || pre.None? || pre.value <= 0.0 || pre.value > shown[beanId] {
        return StartRefused;
      }
      if beanId !in beans || pre.value > beans[beanId] {
        return StartRefused;
      }
      if code in batches {
        return CodeTaken;
      }
      Begin(beanId, code, pre.value);
      return Started;
    }

    /** The writes of a batch start: the batch row, the beans taken, the movement logged. */
    method Begin(beanId: string, code: string, pre: real)
      requires Valid() && beanId in beans && 0.0 < pre <= beans[beanId]
      modifies this
      ensures Valid() && inventory == old(inventory)
      ensures beans == Consume(old(beans), beanId, pre)
      ensures batches == old(batches)[code := Batch(code, beanId, pre, 0.0, 0.0, InProgress, [])]
      ensures movements == old(movements) + [Movement(beanId, code, pre)]
    {
      batches := batches[code := Batch(code, beanId, pre, 0.0, 0.0, InProgress, [])];
      ConsumeKeepsStock(beans, beanId, pre);
      beans := Consume(beans, beanId, pre);
      movements := movements + [Movement(beanId, code, pre)];
    }

    /** `handleFinishBatch`: a batch in progress gets a positive output
        weight, its waste percentage rounded to two decimals, and is completed. */
    method FinishBatch(code: string, postText: string) returns (outcome: FinishOutcome)
      requires Valid()
      modifies this
      ensures Valid() && beans == old(beans) && movements == old(movements) && inventory == old(inventory)
      ensures var post := ParseFloat(postText);
              outcome == Finished <==>
                code in old(batches) && old(batches)[code].status == InProgress && post.Some? && post.value > 0.0
      ensures outcome == Finished ==>
                var b := old(batches)[code];
                var post := ParseFloat(postText).value;
                batches == old(batches)[code := b.(postWeight := post, wastePercentage := Round2(Waste(b.preWeight, post)),
                                                    status := Completed)]
      ensures outcome == FinishIgnored ==> batches == old(batches)
    {
      var post := ParseFloat(postText);
      if code !in batches || batches[code].status != InProgress || post.None? || post.value <= 0.0 {
        return FinishIgnored;
      }
      var b := batches[code];
      var waste := Waste(b.preWeight, post.value);
      batches := batches[code := b.(postWeight := post.value, wastePercentage := Round2(waste), status := Completed)];
      return Finished;
    }

    /** `handleCancelBatch`: only a listed (not deleted) batch without output
        weight can be cancelled; its beans are given back, its movements
        deleted, and it is marked deleted. */
    method CancelBatch(code: string) returns (outcome: CancelOutcome)
      requires Valid()
      modifies this
      ensures Valid() && inventory == old(inventory)
      ensures outcome == Cancelled <==>
                code in old(batches) && old(batches)[code].status != Deleted
                && old(batches)[code].postWeight <= 0.0 && old(batches)[code].beanId in old(beans)
      ensures outcome == Cancelled ==>
                var b := old(batches)[code];
                beans == Restore(old(beans), b.beanId, b.preWeight)
                && movements == WithoutBatch(old(movements), code)
                && batches == old(batches)[code := b.(status := Deleted)]
      ensures outcome != Cancelled ==> beans == old(beans) && batches == old(batches) && movements == old(movements)
    {
      if code !in batches || batches[code].status == Deleted {
        return CancelOutcome.NoSuchBatch;
      }
      var b := batches[code];
      if b.postWeight > 0.0 {
        return AlreadyStarted;
      }
      if b.beanId !in beans {
        return BeanMissing;
      }
      beans := beans[b.beanId := beans[b.beanId] + b.preWeight];
      movements := WithoutBatch(movements, code);
      batches := batches[code := b.(status := Deleted)];
      return Cancelled;
    }

    /** `handleCreateProduction`: refused when the needed weight is above the
        remaining weight plus 0.001 kg; otherwise one unit and one inventory
        row per line with a product and a quantity, appended to the batch and
        the inventory. A chosen product without a template fails before any write. */
    method CreateProduction(code: string, lines: seq<PackagingLine>, products: map<string, Product>,
                            templates: map<string, Template>) returns (outcome: ProductionOutcome)
      requires Valid()
      modifies this
      ensures Valid() && beans == old(beans) && movements == old(movements)
      ensures code !in old(batches) ==> outcome == ProductionOutcome.NoSuchBatch
      ensures code in old(batches) ==>
                (outcome == InsufficientWeight <==>
                   JsGreater(Needed(lines, products, templates), JsAdd(Remaining(old(batches)[code], templates), Num(0.001))))
      ensures outcome.Produced? ==>
                code in old(batches) && Units(lines, products, templates) == Some(outcome.units)
                && batches == old(batches)[code := old(batches)[code].(packagingUnits :=
                                                     old(batches)[code].packagingUnits + outcome.units)]
                && inventory == old(inventory) + StockRows(outcome.units, code)
      ensures outcome.Produced? <==> code in old(batches) && outcome != InsufficientWeight && Units(lines, products, templates).Some?
      ensures !outcome.Produced? ==> batches == old(batches) && inventory == old(inventory)
    {
      if code !in batches {
        return ProductionOutcome.NoSuchBatch;
      }
      var batch := batches[code];
      var needed := Needed(lines, products, templates);
      if JsGreater(needed, JsAdd(Remaining(batch, templates), Num(0.001))) {
        return InsufficientWeight;
      }
      var units, rows := CollectUnits(code, lines, products, templates);
      if units.None? {
        return MissingTemplate;
      }
      batches := batches[code := batch.(packagingUnits := batch.packagingUnits + units.value)];
      inventory := inventory + rows;
      return Produced(units.value);
    }
  }

  /** The loop of `handleCreateProduction`: one unit and one inventory row per
      line with a product and a quantity; `None` as soon as such a line has no template. */
  method CollectUnits(code: string, lines: seq<PackagingLine>, products: map<string, Product>,
                      templates: map<string, Template>) returns (units: Option<seq<PackagingUnit>>, rows: seq<StockRow>)
    ensures units == Units(lines, products, templates)
    ensures units.Some? ==> rows == StockRows(units.value, code)
  {
    var made: seq<PackagingUnit> := [];
    rows := [];
    for i := 0 to |lines|
      invariant Units(lines[..i], products, templates) == Some(made)
      invariant rows == StockRows(made, code)
    {
      var line := lines[i];
      UnitsStep(lines, i, products, templates);
      if line.productId == "" || line.quantity == "" {
        continue;
      }
      var tid := TemplateOf(line, products, templates);
      if tid.None? {
        UnitsFailed(lines, i + 1, products, templates);
        return None, rows;
      }
      var unit := PackagingUnit(tid.value, line.productId, ParseInt(line.quantity));
      StockRowsSnoc(made, unit, code);
      made := made + [unit];
      rows := rows + [StockRow(unit.productId, code, unit.quantity)];
    }
    assert lines[..|lines|] == lines;
    units := Some(made);
  }

  /** After a production run, what is left of the roasted weight is what was
      left before minus the weight needed, so never below -0.001 kg when both
      weights are numbers. */
  lemma ProductionRemaining(batch: Batch, lines: seq<PackagingLine>, products: map<string, Product>,
                            templates: map<string, Template>)
    requires "" !in products && Units(lines, products, templates).Some?
    requires !JsGreater(Needed(lines, products, templates), JsAdd(Remaining(batch, templates), Num(0.001)))
    requires Needed(lines, products, templates).Num? && Remaining(batch, templates).Num?
    ensures var after := batch.(packagingUnits := batch.packagingUnits + Units(lines, products, templates).value);
            Remaining(after, templates)
              == Num(Remaining(batch, templates).v - Needed(lines, products, templates).v)
            && Remaining(after, templates).v >= -0.001
  {
    var units := Units(lines, products, templates).value;
    UnitsWeighNeeded(lines, products, templates);
    RemainingAfter(batch, units, templates, Needed(lines, products, templates));
  }

  lemma RemainingAfter(batch: Batch, units: seq<PackagingUnit>, templates: map<string, Template>, n: JsNum)
    requires Packaged(units, templates) == n
    requires n.Num? && Remaining(batch, templates).Num?
    requires !JsGreater(n, JsAdd(Remaining(batch, templates), Num(0.001)))
    ensures var after := batch.(packagingUnits := batch.packagingUnits + units);
            Remaining(after, templates) == Num(Remaining(batch, templates).v - n.v)
            && Remaining(after, templates).v >= -0.001
  {
    PackagedAppend(batch.packagingUnits, units, templates);
  }

  /** The units a production run creates, in line order; `None` when a line
      with a product and a quantity has no template. */
  function Units(lines: seq<PackagingLine>, products: map<string, Product>, templates: map<string, Template>): Option<seq<PackagingUnit>>
  {
    if lines == [] then Some([])
    else
      var line := lines[|lines| - 1];
      match Units(lines[..|lines| - 1], products, templates)
      case None => None
      case Some(us) =>
        if line.productId == "" || line.quantity == "" then Some(us)
        else match TemplateOf(line, products, templates)
          case None => None
          case Some(tid) => Some(us + [PackagingUnit(tid, line.productId, ParseInt(line.quantity))])
  }

  /** The inventory rows inserted for the units: one per unit, with its quantity as stock. */
  function StockRows(units: seq<PackagingUnit>, code: string): (r: seq<StockRow>)
    ensures |r| == |units|
  {
    if units == [] then []
    else
      var u := units[|units| - 1];
      StockRows(units[..|units| - 1], code) + [StockRow(u.productId, code, u.quantity)]
  }

  lemma StockRowsSnoc(units: seq<PackagingUnit>, u: PackagingUnit, code: string)
    ensures StockRows(units + [u], code) == StockRows(units, code) + [StockRow(u.productId, code, u.quantity)]
  {
    assert (units + [u])[..|units|] == units;
  }

  lemma UnitsStep(lines: seq<PackagingLine>, i: nat, products: map<string, Product>, templates: map<string, Template>)
    requires i < |lines|
    ensures var line := lines[i];
            Units(lines[..i + 1], products, templates)
            == match Units(lines[..i], products, templates)
               case None => None
               case Some(us) =>
                 if line.productId == "" || line.quantity == "" then Some(us)
                 else match TemplateOf(line, products, templates)
                   case None => None
                   case Some(tid) => Some(us + [PackagingUnit(tid, line.productId, ParseInt(line.quantity))])
  {
    var prefix := lines[..i + 1];
    assert prefix[..|prefix| - 1] == lines[..i] && prefix[|prefix| - 1] == lines[i];
  }

  /** Once a line fails, the whole run fails. */
  lemma {:induction false} UnitsFailed(lines: seq<PackagingLine>, i: nat, products: map<string, Product>,
                                      templates: map<string, Template>)
    requires i <= |lines| && Units(lines[..i], products, templates).None?
    ensures Units(lines, products, templates).None?
    decreases |lines| - i
  {
    if i < |lines| {
      UnitsStep(lines, i, products, templates);
      UnitsFailed(lines, i + 1, products, templates);
    } else {
      assert lines[..i] == lines;
    }
  }

  /** The units made weigh exactly the weight that was checked against the
      batch (product ids are never empty). */
  lemma {:induction false} UnitsWeighNeeded(lines: seq<PackagingLine>, products: map<string, Product>,
                                            templates: map<string, Template>)
    requires "" !in products
    requires Units(lines, products, templates).Some?
    ensures Packaged(Units(lines, products, templates).value, templates) == Needed(lines, products, templates)
  {
    if lines != [] {
      var init := lines[..|lines| - 1];
      var line := lines[|lines| - 1];
      UnitsWeighNeeded(init, products, templates);
      var us := Units(init, products, templates).value;
      if line.productId != "" && line.quantity != "" {
        var tid := TemplateOf(line, products, templates).value;
        var u := PackagingUnit(tid, line.productId, ParseInt(line.quantity));
        var us' := us + [u];
        assert us'[..|us'| - 1] == us && us'[|us'| - 1] == u;
      } else if line.productId != "" {
        var tid := TemplateOf(line, products, templates);
        if tid.Some? {
          QuantityZero(line);
          JsAddZero(Needed(init, products, templates));
        }
      }
    }
  }

  /** An empty quantity counts as `'0'`, so it weighs nothing. */
  lemma QuantityZero(line: PackagingLine)
    requires line.quantity == ""
    ensures forall w: real :: Weigh(LineQuantity(line), w) == Num(0.0)
  {
    ParseIntStops("0", "");
    assert "0" + "" == "0";
  }
}
