/** The point-of-sale screen: cart lines and their identity, unit prices,
    quantity edits, totals and change, the return list, the stock deductions
    collected at checkout, invoice numbers and the split-payment check.
    Money and quantities are exact reals; the date of an invoice is passed in. */
module Pos {
  import opened Common

  // ---- Products and customisations ----

  datatype Size = S | M | L

  datatype Milk = FullFat | LowFat | Oat | Almond

  datatype Sugar = NoSugar | Half | Normal | Extra

  function SizeName(s: Size): string
  {
    match s case S => "S" case M => "M" case L => "L"
  }

  function MilkName(m: Milk): string
  {
    match m case FullFat => "Full Fat" case LowFat => "Low Fat" case Oat => "Oat" case Almond => "Almond"
  }

  function SugarName(s: Sugar): string
  {
    match s case NoSugar => "None" case Half => "Half" case Normal => "Normal" case Extra => "Extra"
  }

  /** `SIZE_MULTIPLIERS`. */
  function SizeMultiplier(s: Size): real
  {
    match s case S => 0.75 case M => 1.0 case L => 1.5
  }

  /** `MILK_PRICES`: plant milks cost 5 extra. */
  function MilkPrice(m: Milk): real
  {
    match m case FullFat => 0.0 case LowFat => 0.0 case Oat => 5.0 case Almond => 5.0
  }

  datatype AddOn = AddOn(id: string, price: real, ingredientId: Option<string>)

  /** A beverage customisation; `selectedAddOns` in the order the cashier picked them. */
  datatype Customization = Customization(size: Size, milk: Milk, sugar: Sugar, addOns: seq<AddOn>)

  /** A recipe ingredient or a bill-of-materials component. */
  datatype Ingredient = Ingredient(ingredientId: Option<string>, name: Option<string>, amount: real)

  /** The inventory item a cart line is made from. */
  datatype Product = Product(id: string, name: string, price: real, isBeverage: bool,
                             recipe: Option<seq<Ingredient>>, bom: seq<Ingredient>)

  datatype CartLine = CartLine(cartId: string, product: Product, price: real, quantity: int,
                               customs: Option<Customization>)

  // ---- JavaScript's default string order and `sort()` ----

  /** The UTF-16 encoding of one character: one code unit in the Basic
      Multilingual Plane, a surrogate pair outside it. */
  function Utf16Units(c: char): seq<int>
  {
    if c as int < 0x1_0000 then [c as int]
    else [0xD800 + (c as int - 0x1_0000) / 0x400, 0xDC00 + (c as int - 0x1_0000) % 0x400]
  }

  /** Strict lexicographic order on code-unit sequences. */
  predicate UnitsLess(u: seq<int>, v: seq<int>)
  {
    v != [] && (u == [] || u[0] < v[0] || (u[0] == v[0] && UnitsLess(u[1..], v[1..])))
  }

  /** A rank of characters in code-unit order: characters below the
      surrogate range, then those outside the Basic Multilingual Plane,
      then U+E000 to U+FFFF. */
  function CodeUnitRank(c: char): int
  {
    if c as int < 0xE000 then c as int
    else if c as int < 0x1_0000 then c as int + 0x11_0000
    else c as int
  }

  /** Comparing ranks is comparing the characters' UTF-16 encodings. */
  lemma CodeUnitRankOrder(x: char, y: char)
    ensures CodeUnitRank(x) < CodeUnitRank(y) <==> UnitsLess(Utf16Units(x), Utf16Units(y))
  {
    var u, v := Utf16Units(x), Utf16Units(y);
    if x as int >= 0x1_0000 && y as int >= 0x1_0000 {
      var dx, dy := x as int - 0x1_0000, y as int - 0x1_0000;
      assert dx == 0x400 * (dx / 0x400) + dx % 0x400 && 0 <= dx % 0x400 < 0x400;
      assert dy == 0x400 * (dy / 0x400) + dy % 0x400 && 0 <= dy % 0x400 < 0x400;
      assert u[1..] == [u[1]] && v[1..] == [v[1]];
      assert UnitsLess(u[1..], v[1..]) <==> u[1] < v[1];
    }
  }

  /** The default `sort` order: UTF-16 code unit by code unit, a prefix first.
      Strings that share a prefix of characters share the code units of that
      prefix, and the first differing characters decide by their encodings. */
  predicate StrLe(a: string, b: string)
  {
    a == [] || (b != [] && (CodeUnitRank(a[0]) < CodeUnitRank(b[0]) || (a[0] == b[0] && StrLe(a[1..], b[1..]))))
  }

  lemma {:induction false} StrLeTotal(a: string, b: string)
    ensures StrLe(a, b) || StrLe(b, a)
  {
    if a != [] && b != [] && a[0] == b[0] {
      StrLeTotal(a[1..], b[1..]);
    }
  }

  lemma {:induction false} StrLeAntisymmetric(a: string, b: string)
    requires StrLe(a, b) && StrLe(b, a)
    ensures a == b
  {
    if a != [] {
      StrLeAntisymmetric(a[1..], b[1..]);
      assert a == [a[0]] + a[1..] && b == [b[0]] + b[1..];
    }
  }

  lemma {:induction false} StrLeTransitive(a: string, b: string, c: string)
    requires StrLe(a, b) && StrLe(b, c)
    ensures StrLe(a, c)
  {
    if a != [] && a[0] == b[0] && b[0] == c[0] {
      StrLeTransitive(a[1..], b[1..], c[1..]);
    }
  }

  predicate Sorted(s: seq<string>)
  {
    forall i :: 0 <= i < |s| - 1 ==> StrLe(s[i], s[i + 1])
  }

  function Insert(x: string, s: seq<string>): seq<string>
  {
    if s == [] || StrLe(x, s[0]) then [x] + s else [s[0]] + Insert(x, s[1..])
  }

  /** `Array.prototype.sort()` on strings (an insertion sort: the result is
      the only sorted arrangement, so the algorithm does not matter). */
  function SortStrings(s: seq<string>): seq<string>
  {
    if s == [] then [] else Insert(s[0], SortStrings(s[1..]))
  }

  lemma {:induction false} InsertSorted(x: string, s: seq<string>)
    requires Sorted(s)
    ensures Sorted(Insert(x, s)) && multiset(Insert(x, s)) == multiset(s) + multiset{x}
    ensures Insert(x, s)[0] == x || (s != [] && Insert(x, s)[0] == s[0])
  {
    InsertPerm(x, s);
    if s == [] || StrLe(x, s[0]) {
      SortedCons(x, s);
    } else {
      var t := s[1..];
      var it := Insert(x, t);
      StrLeTotal(x, s[0]);
      SortedTail(s);
      InsertSorted(x, t);
      assert t != [] ==> StrLe(s[0], t[0]) by {
        if t != [] {
          assert s[1] == t[0];
        }
      }
      SortedCons(s[0], it);
    }
  }

  lemma {:induction false} InsertPerm(x: string, s: seq<string>)
    ensures multiset(Insert(x, s)) == multiset(s) + multiset{x}
    ensures Insert(x, s)[0] == x || (s != [] && Insert(x, s)[0] == s[0])
  {
    if s != [] && !StrLe(x, s[0]) {
      InsertPerm(x, s[1..]);
      assert s == [s[0]] + s[1..];
    }
  }

  lemma SortedCons(h: string, s: seq<string>)
    requires Sorted(s) && (s != [] ==> StrLe(h, s[0]))
    ensures Sorted([h] + s)
  {
    var r := [h] + s;
    forall i | 0 <= i < |r| - 1
      ensures StrLe(r[i], r[i + 1])
    {
      if i > 0 {
        assert r[i] == s[i - 1] && r[i + 1] == s[i];
      }
    }
  }

  /** Sorting gives a sorted permutation. */
  lemma {:induction false} SortStringsSorted(s: seq<string>)
    ensures Sorted(SortStrings(s)) && multiset(SortStrings(s)) == multiset(s)
  {
    if s != [] {
      SortStringsSorted(s[1..]);
      InsertSorted(s[0], SortStrings(s[1..]));
      assert multiset(s) == multiset(s[1..]) + multiset{s[0]} by {
        assert s == [s[0]] + s[1..];
      }
    }
  }

  lemma {:induction false} SortedHeadLeast(s: seq<string>, k: nat)
    requires Sorted(s) && k < |s|
    ensures StrLe(s[0], s[k])
  {
    if k == 0 {
      StrLeTotal(s[0], s[0]);
    } else {
      SortedHeadLeast(s, k - 1);
      StrLeTransitive(s[0], s[k - 1], s[k]);
    }
  }

  /** Two sorted sequences with the same elements are equal. */
  lemma {:induction false} SortedUnique(a: seq<string>, b: seq<string>)
    requires Sorted(a) && Sorted(b) && multiset(a) == multiset(b)
    ensures a == b
    decreases |a|
  {
    if a == [] {
      assert |b| == |multiset(b)| == 0;
    } else {
      assert a[0] in multiset(b);
      assert b != [];
      assert b[0] in multiset(a);
      var i :| 0 <= i < |b| && b[i] == a[0];
      var j :| 0 <= j < |a| && a[j] == b[0];
      SortedHeadLeast(a, j);
      SortedHeadLeast(b, i);
      StrLeAntisymmetric(a[0], b[0]);
      MultisetTail(a, b);
      SortedTail(a);
      SortedTail(b);
      SortedUnique(a[1..], b[1..]);
    }
  }

  lemma SortedTail(s: seq<string>)
    requires Sorted(s) && s != []
    ensures Sorted(s[1..])
  {
    forall i | 0 <= i < |s[1..]| - 1
      ensures StrLe(s[1..][i], s[1..][i + 1])
    {
      assert s[1..][i] == s[i + 1] && s[1..][i + 1] == s[i + 2];
    }
  }

  /** Sorting forgets the order of its input. */
  lemma SortOrderFree(s: seq<string>, t: seq<string>)
    requires multiset(s) == multiset(t)
    ensures SortStrings(s) == SortStrings(t)
  {
    SortStringsSorted(s);
    SortStringsSorted(t);
    SortedUnique(SortStrings(s), SortStrings(t));
  }

  // ---- Cart line identity and unit price ----

  function AddOnIds(a: seq<AddOn>): seq<string>
  {
    if a == [] then [] else [a[0].id] + AddOnIds(a[1..])
  }

  /** `reduce((sum, ao) => sum + ao.price, 0)`. */
  function AddOnsTotal(a: seq<AddOn>): real
  {
    if a == [] then 0.0 else a[0].price + AddOnsTotal(a[1..])
  }

  /** The cart line id: the item id without a customisation; otherwise
      id-size-milk-sugar-(add-on ids sorted and joined by commas). */
  function CartId(p: Product, customs: Option<Customization>): string
  {
    match customs
    case None => p.id
    case Some(c) =>
      p.id + "-" + SizeName(c.size) + "-" + MilkName(c.milk) + "-" + SugarName(c.sugar) + "-"
      + Join(SortStrings(AddOnIds(c.addOns)), ",")
  }

  /** The price of one unit of a new line: price × size multiplier + milk
      surcharge + the add-ons' prices; the plain price without a customisation. */
  function UnitPrice(p: Product, customs: Option<Customization>): real
  {
    var multiplier := if customs.Some? then SizeMultiplier(customs.value.size) else 1.0;
    var milkExtra := if customs.Some? then MilkPrice(customs.value.milk) else 0.0;
    var addOnsExtra := if customs.Some? then AddOnsTotal(customs.value.addOns) else 0.0;
    Scale(p.price, multiplier) + milkExtra + addOnsExtra
  }

  function Scale(x: real, k: real): real { x * k }

  lemma {:induction false} AddOnsRemove(t: seq<AddOn>, k: nat)
    requires k < |t|
    ensures AddOnsTotal(t) == t[k].price + AddOnsTotal(t[..k] + t[k + 1..])
    ensures multiset(AddOnIds(t)) == multiset{t[k].id} + multiset(AddOnIds(t[..k] + t[k + 1..]))
  {
    AddOnsTotalRemove(t, k);
    AddOnIdsRemove(t, k);
  }

  lemma {:induction false} AddOnsTotalRemove(t: seq<AddOn>, k: nat)
    requires k < |t|
    ensures AddOnsTotal(t) == t[k].price + AddOnsTotal(t[..k] + t[k + 1..])
  {
    var rest := t[..k] + t[k + 1..];
    if k > 0 {
      var tail := t[1..];
      AddOnsTotalRemove(tail, k - 1);
      assert tail[..k - 1] + tail[k..] == rest[1..];
      assert rest[0] == t[0] && tail[k - 1] == t[k];
    } else {
      assert rest == t[1..];
    }
  }

  lemma {:induction false} AddOnIdsRemove(t: seq<AddOn>, k: nat)
    requires k < |t|
    ensures multiset(AddOnIds(t)) == multiset{t[k].id} + multiset(AddOnIds(t[..k] + t[k + 1..]))
  {
    var before, after := t[..k], t[k + 1..];
    assert t == before + ([t[k]] + after);
    AddOnIdsAppend(before, [t[k]] + after);
    AddOnIdsAppend([t[k]], after);
    assert AddOnIds([t[k]]) == [t[k].id] by {
      assert [t[k]][1..] == [];
    }
    AddOnIdsAppend(before, after);
  }

  lemma {:induction false} AddOnIdsAppend(a: seq<AddOn>, b: seq<AddOn>)
    ensures AddOnIds(a + b) == AddOnIds(a) + AddOnIds(b)
  {
    if a == [] {
      assert a + b == b;
    } else {
      AddOnIdsAppend(a[1..], b);
      assert AddOnIds(a + b) == [a[0].id] + AddOnIds(a[1..] + b) by {
        assert (a + b)[0] == a[0] && (a + b)[1..] == a[1..] + b;
      }
      var x, y := AddOnIds(a[1..]), AddOnIds(b);
      assert [a[0].id] + (x + y) == ([a[0].id] + x) + y;
    }
  }

  /** Picking the same add-ons in another order changes neither the set of
      ids nor the add-on total. */
  lemma {:induction false} AddOnsPermuted(s: seq<AddOn>, t: seq<AddOn>)
    requires multiset(s) == multiset(t)
    ensures multiset(AddOnIds(s)) == multiset(AddOnIds(t)) && AddOnsTotal(s) == AddOnsTotal(t)
    decreases |s|
  {
    if s == [] {
      assert |t| == |multiset(t)| == 0;
    } else {
      assert s[0] in multiset(t);
      var k :| 0 <= k < |t| && t[k] == s[0];
      var rest := t[..k] + t[k + 1..];
      MultisetRest(s, t, k);
      AddOnsPermuted(s[1..], rest);
      AddOnsRemove(t, k);
    }
  }

  /** The add-on order does not change the line: the same choices in another
      order give the same cart id and the same unit price. */
  lemma SameLineAnyOrder(p: Product, c: Customization, picked: seq<AddOn>)
    requires multiset(picked) == multiset(c.addOns)
    ensures CartId(p, Some(c.(addOns := picked))) == CartId(p, Some(c))
    ensures UnitPrice(p, Some(c.(addOns := picked))) == UnitPrice(p, Some(c))
  {
    AddOnsPermuted(picked, c.addOns);
    SortOrderFree(AddOnIds(picked), AddOnIds(c.addOns));
  }

  /** An uncustomised item is its own line at its plain price. */
  lemma PlainLine(p: Product)
    ensures CartId(p, None) == p.id && UnitPrice(p, None) == p.price
  {
  }

  // ---- addToCart and updateQuantity ----

  predicate HasLine(cart: seq<CartLine>, id: string)
  {
    exists i :: 0 <= i < |cart| && cart[i].cartId == id
  }

  predicate UniqueIds(cart: seq<CartLine>)
  {
    forall i, j :: 0 <= i < j < |cart| ==> cart[i].cartId != cart[j].cartId
  }

  /** `prev.map(i => i.cartId === id ? {...i, quantity: i.quantity + 1} : i)`. */
  function IncrementLine(cart: seq<CartLine>, id: string): (r: seq<CartLine>)
    ensures |r| == |cart|
    ensures forall i :: 0 <= i < |cart| ==>
      r[i] == if cart[i].cartId == id then cart[i].(quantity := cart[i].quantity + 1) else cart[i]
  {
    if cart == [] then []
    else [if cart[0].cartId == id then cart[0].(quantity := cart[0].quantity + 1) else cart[0]]
         + IncrementLine(cart[1..], id)
  }

  /** `addToCart`: one more unit of an existing line, or a new line of one unit. */
  function AddToCart(cart: seq<CartLine>, p: Product, customs: Option<Customization>): seq<CartLine>
  {
    var id := CartId(p, customs);
    if HasLine(cart, id) then IncrementLine(cart, id)
    else cart + [CartLine(id, p, UnitPrice(p, customs), 1, customs)]
  }

  /** `prev.map(item => item.cartId === id ? {...item, quantity: Math.max(1, item.quantity + delta)} : item)`. */
  function SetQuantity(cart: seq<CartLine>, id: string, delta: int): (r: seq<CartLine>)
    ensures |r| == |cart|
    ensures forall i :: 0 <= i < |cart| ==>
      r[i] == if cart[i].cartId == id then cart[i].(quantity := Max(1, cart[i].quantity + delta)) else cart[i]
  {
    if cart == [] then []
    else [if cart[0].cartId == id then cart[0].(quantity := Max(1, cart[0].quantity + delta)) else cart[0]]
         + SetQuantity(cart[1..], id, delta)
  }

  /** `updateQuantity`: an unknown line id leaves the cart as it is. */
  function UpdateQuantity(cart: seq<CartLine>, id: string, delta: int): seq<CartLine>
  {
    if !HasLine(cart, id) then cart else SetQuantity(cart, id, delta)
  }

  /** Sum of the quantities. */
  function Units(cart: seq<CartLine>): int
  {
    if cart == [] then 0 else cart[0].quantity + Units(cart[1..])
  }

  /** `cart.reduce((sum, item) => sum + item.price * item.quantity, 0)`. */
  function Subtotal(cart: seq<CartLine>): real
  {
    if cart == [] then 0.0 else LineTotal(cart[0]) + Subtotal(cart[1..])
  }

  function LineTotal(line: CartLine): real
  {
    line.price * line.quantity as real
  }

  lemma {:induction false} SubtotalAppend(a: seq<CartLine>, b: seq<CartLine>)
    ensures Subtotal(a + b) == Subtotal(a) + Subtotal(b) && Units(a + b) == Units(a) + Units(b)
  {
    if a != [] {
      SubtotalAppend(a[1..], b);
      assert (a + b)[1..] == a[1..] + b;
    } else {
      assert a + b == b;
    }
  }

  lemma OneMore(line: CartLine)
    ensures LineTotal(line.(quantity := line.quantity + 1)) == LineTotal(line) + line.price
  {
    var q := line.quantity;
    assert line.price * (q + 1) as real == line.price * q as real + line.price;
  }

  lemma UniqueTail(cart: seq<CartLine>)
    requires UniqueIds(cart) && cart != []
    ensures UniqueIds(cart[1..]) && forall i :: 1 <= i < |cart| ==> cart[i].cartId != cart[0].cartId
  {
    forall i, j | 0 <= i < j < |cart[1..]|
      ensures cart[1..][i].cartId != cart[1..][j].cartId
    {
      assert cart[1..][i] == cart[i + 1] && cart[1..][j] == cart[j + 1];
    }
  }

  lemma {:induction false} IncrementOne(cart: seq<CartLine>, id: string, k: nat)
    requires UniqueIds(cart) && k < |cart| && cart[k].cartId == id
    ensures Subtotal(IncrementLine(cart, id)) == Subtotal(cart) + cart[k].price
    ensures Units(IncrementLine(cart, id)) == Units(cart) + 1
  {
    var r := IncrementLine(cart, id);
    var tail := IncrementLine(cart[1..], id);
    assert r == [r[0]] + tail;
    UniqueTail(cart);
    if k == 0 {
      assert r[0] == cart[0].(quantity := cart[0].quantity + 1);
      assert tail == cart[1..] by {
        forall i | 0 <= i < |tail|
          ensures tail[i] == cart[1..][i]
        {
          assert cart[1..][i] == cart[i + 1];
        }
      }
      OneMore(cart[0]);
    } else {
      assert r[0] == cart[0];
      assert cart[1..][k - 1] == cart[k];
      IncrementOne(cart[1..], id, k - 1);
    }
  }

  /** Adding an item that already has a line raises that line's quantity by
      one and changes nothing else; otherwise one new line of one unit at the
      unit price is appended. */
  lemma AddToCartLines(cart: seq<CartLine>, p: Product, customs: Option<Customization>)
    ensures var id := CartId(p, customs);
            var r := AddToCart(cart, p, customs);
            (HasLine(cart, id) ==> |r| == |cart| && forall i :: 0 <= i < |cart| ==>
               r[i] == if cart[i].cartId == id then cart[i].(quantity := cart[i].quantity + 1) else cart[i])
            && (!HasLine(cart, id) ==> r == cart + [CartLine(id, p, UnitPrice(p, customs), 1, customs)])
            && HasLine(r, id)
  {
    var id := CartId(p, customs);
    var r := AddToCart(cart, p, customs);
    if HasLine(cart, id) {
      var k :| 0 <= k < |cart| && cart[k].cartId == id;
      assert r[k].cartId == id;
    } else {
      assert r[|cart|].cartId == id;
    }
  }

  /** With distinct line ids, `addToCart` keeps them distinct, adds one unit,
      and raises the subtotal by exactly one unit price: the existing line's,
      or the new line's. */
  lemma AddToCartAccounting(cart: seq<CartLine>, p: Product, customs: Option<Customization>)
    requires UniqueIds(cart)
    ensures var id := CartId(p, customs);
            var r := AddToCart(cart, p, customs);
            UniqueIds(r) && Units(r) == Units(cart) + 1
            && (forall k :: 0 <= k < |cart| && cart[k].cartId == id ==> Subtotal(r) == Subtotal(cart) + cart[k].price)
            && (!HasLine(cart, id) ==> Subtotal(r) == Subtotal(cart) + UnitPrice(p, customs))
  {
    var id := CartId(p, customs);
    if HasLine(cart, id) {
      ExistingLineAccounting(cart, id);
    } else {
      NewLineAccounting(cart, CartLine(id, p, UnitPrice(p, customs), 1, customs));
    }
  }

  lemma ExistingLineAccounting(cart: seq<CartLine>, id: string)
    requires UniqueIds(cart) && HasLine(cart, id)
    ensures var r := IncrementLine(cart, id);
            UniqueIds(r) && Units(r) == Units(cart) + 1
            && (forall k :: 0 <= k < |cart| && cart[k].cartId == id ==> Subtotal(r) == Subtotal(cart) + cart[k].price)
  {
    var r := IncrementLine(cart, id);
    forall k | 0 <= k < |cart| && cart[k].cartId == id
      ensures Subtotal(r) == Subtotal(cart) + cart[k].price && Units(r) == Units(cart) + 1
    {
      IncrementOne(cart, id, k);
    }
    assert forall i :: 0 <= i < |cart| ==> r[i].cartId == cart[i].cartId;
  }

  lemma NewLineAccounting(cart: seq<CartLine>, line: CartLine)
    requires UniqueIds(cart) && !HasLine(cart, line.cartId) && line.quantity == 1
    ensures var r := cart + [line];
            UniqueIds(r) && Units(r) == Units(cart) + 1 && Subtotal(r) == Subtotal(cart) + line.price
  {
    SubtotalAppend(cart, [line]);
    assert [line][1..] == [];
  }

  /** `updateQuantity` sets only the matching line, to max(1, quantity + delta);
      an unknown id changes nothing; every quantity stays at least 1. */
  lemma UpdateQuantityLines(cart: seq<CartLine>, id: string, delta: int)
    ensures var r := UpdateQuantity(cart, id, delta);
            |r| == |cart|
            && (forall i :: 0 <= i < |cart| ==>
                  r[i] == if cart[i].cartId == id then cart[i].(quantity := Max(1, cart[i].quantity + delta)) else cart[i])
            && ((forall i :: 0 <= i < |cart| ==> cart[i].quantity >= 1) ==> (forall i :: 0 <= i < |r| ==> r[i].quantity >= 1))
            && (UniqueIds(cart) ==> UniqueIds(r))
  {
    var r := UpdateQuantity(cart, id, delta);
    if !HasLine(cart, id) {
      forall i | 0 <= i < |cart|
        ensures cart[i].cartId != id
      {
      }
    }
  }

  /** Pressing + on a line does what adding the same item again does. */
  lemma PlusIsAddAgain(cart: seq<CartLine>, p: Product, customs: Option<Customization>)
    requires forall i :: 0 <= i < |cart| ==> cart[i].quantity >= 1
    requires HasLine(cart, CartId(p, customs))
    ensures UpdateQuantity(cart, CartId(p, customs), 1) == AddToCart(cart, p, customs)
  {
    var id := CartId(p, customs);
    var a := UpdateQuantity(cart, id, 1);
    var b := AddToCart(cart, p, customs);
    assert |a| == |b|;
    forall i | 0 <= i < |a|
      ensures a[i] == b[i]
    {
    }
  }

  // ---- Totals, change and the split payment ----

  datatype Totals = Totals(subtotal: real, vat: real, total: real)

  /** `totals`. */
  function CartTotals(cart: seq<CartLine>, vatRate: real): Totals
  {
    var subtotal := Subtotal(cart);
    var vat := subtotal * vatRate;
    Totals(subtotal, vat, subtotal + vat)
  }

  /** The total is the subtotal grossed up by the VAT rate, and totals add up over a split cart. */
  lemma TotalsRules(a: seq<CartLine>, b: seq<CartLine>, vatRate: real)
    ensures CartTotals(a, vatRate).total == CartTotals(a, vatRate).subtotal * (1.0 + vatRate)
    ensures CartTotals(a + b, vatRate).total == CartTotals(a, vatRate).total + CartTotals(b, vatRate).total
    ensures CartTotals([], vatRate) == Totals(0.0, 0.0, 0.0)
  {
    SubtotalAppend(a, b);
  }

  /** `receivedAmount ? Math.max(0, receivedAmount - total) : 0`: an absent or zero amount gives no change. */
  function Change(received: Option<real>, total: real): real
  {
    if received.None? || received.value == 0.0 then 0.0 else MaxReal(0.0, received.value - total)
  }

  /** Change is never negative; it is positive exactly when a non-zero amount
      above the total was received, and then the amount less the total. */
  lemma ChangeRules(received: Option<real>, total: real)
    ensures Change(received, total) >= 0.0
    ensures Change(received, total) > 0.0 <==> received.Some? && received.value != 0.0 && received.value > total
    ensures received.Some? && received.value != 0.0 && received.value >= total ==>
              Change(received, total) + total == received.value
  {
  }


  /** The split checkout button: disabled while processing or when the three
      parts miss the total by more than 0.01. */
  predicate SplitEnabled(total: real, cash: real, card: real, mobile: real, processing: bool)
  {
    var splitRemaining := total - (cash + card + mobile);
    !(Abs(splitRemaining) > 0.01 || processing)
  }

  lemma SplitEnabledRule(total: real, cash: real, card: real, mobile: real, processing: bool)
    ensures SplitEnabled(total, cash, card, mobile, processing)
            <==> !processing && total - 0.01 <= cash + card + mobile <= total + 0.01
  {
  }

  // ---- The return list ----

  /** A line of a past invoice; older invoices may lack a cart id. */
  datatype SoldLine = SoldLine(cartId: Option<string>, itemId: string, name: string, quantity: int, price: real)

  datatype ReturnLine = ReturnLine(cartId: string, itemId: string, name: string, quantity: int, price: real,
                                   reason: string, inventoryUpdated: bool)

  /** `item.cartId ?? item.id`. */
  function ReturnKey(item: SoldLine): string
  {
    match item.cartId case Some(c) => c case None => item.itemId
  }

  predicate Selected(list: seq<ReturnLine>, key: string)
  {
    exists i :: 0 <= i < |list| && list[i].cartId == key
  }

  /** `prev.filter(i => i.cartId !== key)`. */
  function Unselect(list: seq<ReturnLine>, key: string): (r: seq<ReturnLine>)
    ensures forall i :: 0 <= i < |r| ==> r[i].cartId != key
    ensures !Selected(list, key) ==> r == list
  {
    if list == [] then []
    else (if list[0].cartId == key then [] else [list[0]]) + Unselect(list[1..], key)
  }

  /** `toggleReturnItem`. */
  function ToggleReturnItem(list: seq<ReturnLine>, item: SoldLine): seq<ReturnLine>
  {
    var key := ReturnKey(item);
    if Selected(list, key) then Unselect(list, key)
    else list + [ReturnLine(key, item.itemId, item.name, item.quantity, item.price, "", false)]
  }

  /** Toggling selects an unselected line and unselects a selected one; toggling
      an unselected line twice gives back the list. */
  lemma ToggleReturnRules(list: seq<ReturnLine>, item: SoldLine)
    ensures Selected(ToggleReturnItem(list, item), ReturnKey(item)) <==> !Selected(list, ReturnKey(item))
    ensures !Selected(list, ReturnKey(item)) ==> ToggleReturnItem(ToggleReturnItem(list, item), item) == list
  {
    var key := ReturnKey(item);
    var once := ToggleReturnItem(list, item);
    if !Selected(list, key) {
      assert once[|list|].cartId == key;
      UnselectAppended(list, once[|list|], key);
    }
  }

  lemma {:induction false} UnselectAppended(list: seq<ReturnLine>, x: ReturnLine, key: string)
    requires !Selected(list, key) && x.cartId == key
    ensures Unselect(list + [x], key) == list
  {
    if list == [] {
      assert [x][1..] == [];
    } else {
      assert (list + [x])[1..] == list[1..] + [x];
      assert !Selected(list[1..], key) by {
        forall i | 0 <= i < |list[1..]|
          ensures list[1..][i].cartId != key
        {
          assert list[1..][i] == list[i + 1];
        }
      }
      UnselectAppended(list[1..], x, key);
      assert list == [list[0]] + list[1..];
    }
  }

  function Min(a: int, b: int): int { if a < b then a else b }

  /** `updateReturnQuantity`: `Math.min(Math.max(1, quantity + delta), max)`. */
  function UpdateReturnQuantity(list: seq<ReturnLine>, key: string, delta: int, max: int): (r: seq<ReturnLine>)
    ensures |r| == |list|
    ensures forall i :: 0 <= i < |list| ==>
      r[i] == if list[i].cartId == key then list[i].(quantity := Min(Max(1, list[i].quantity + delta), max)) else list[i]
  {
    if list == [] then []
    else [if list[0].cartId == key then list[0].(quantity := Min(Max(1, list[0].quantity + delta), max)) else list[0]]
         + UpdateReturnQuantity(list[1..], key, delta, max)
  }

  /** With a maximum of at least one, an edited line ends within [1, max];
      a delta of zero leaves a line already within bounds unchanged. */
  lemma ReturnQuantityClamped(list: seq<ReturnLine>, key: string, delta: int, max: int)
    requires max >= 1
    ensures forall i :: 0 <= i < |list| && list[i].cartId == key ==>
              1 <= UpdateReturnQuantity(list, key, delta, max)[i].quantity <= max
    ensures (forall i :: 0 <= i < |list| && list[i].cartId == key ==> 1 <= list[i].quantity <= max) ==>
              UpdateReturnQuantity(list, key, 0, max) == list
  {
    var r := UpdateReturnQuantity(list, key, 0, max);
    if forall i :: 0 <= i < |list| && list[i].cartId == key ==> 1 <= list[i].quantity <= max {
      assert forall i :: 0 <= i < |list| ==> r[i] == list[i];
    }
  }

  // ---- Stock deductions at checkout ----

  /** The inventory rows at the checkout location, indexed by id, by product
      id and by name; each maps to the row's id. */
  datatype InventoryIndex = InventoryIndex(byId: map<string, string>, byProductId: map<string, string>,
                                           byName: map<string, string>)

  /** `findInventoryItem`: by id, then by product id, then by name; an empty key does not count. */
  function FindInventoryItem(idx: InventoryIndex, id: Option<string>, name: Option<string>): Option<string>
  {
    if id.Some? && id.value != "" && id.value in idx.byId then Some(idx.byId[id.value])
    else if id.Some? && id.value != "" && id.value in idx.byProductId then Some(idx.byProductId[id.value])
    else if name.Some? && name.value != "" && name.value in idx.byName then Some(idx.byName[name.value])
    else None
  }

  /** One call of `addDeduction`. */
  datatype Request = Request(itemId: string, qty: real)

  function Get(m: map<string, real>, k: string): real
  {
    if k in m then m[k] else 0.0
  }

  /** `addDeduction`: an empty id or a quantity ≤ 0 is ignored; otherwise the quantity is added to the id's total. */
  function AddDeduction(m: map<string, real>, itemId: string, qty: real): map<string, real>
  {
    if itemId == "" || qty <= 0.0 then m else m[itemId := Get(m, itemId) + qty]
  }

  /** The deductions map after the calls `rs`, in order. */
  function Accumulate(m: map<string, real>, rs: seq<Request>): map<string, real>
  {
    if rs == [] then m else AddDeduction(Accumulate(m, rs[..|rs| - 1]), rs[|rs| - 1].itemId, rs[|rs| - 1].qty)
  }

  /** The call made for one entry when its inventory row is found, none otherwise. */
  function Found(idx: InventoryIndex, id: Option<string>, name: Option<string>, qty: real): seq<Request>
  {
    match FindInventoryItem(idx, id, name)
    case Some(found) => [Request(found, qty)]
    case None => []
  }

  /** One recipe entry's amount for a line: amount × size multiplier × quantity. */
  function RecipeAmount(ing: Ingredient, multiplier: real, quantity: int): real
  {
    ing.amount * multiplier * quantity as real
  }

  /** One bill-of-materials entry's amount for a line: amount × quantity. */
  function BomAmount(c: Ingredient, quantity: int): real
  {
    c.amount * quantity as real
  }

  /** The calls made for a beverage's recipe: amount × size multiplier × quantity per ingredient found. */
  function RecipeRequests(ings: seq<Ingredient>, multiplier: real, quantity: int, idx: InventoryIndex): seq<Request>
  {
    if ings == [] then []
    else
      var last := ings[|ings| - 1];
      RecipeRequests(ings[..|ings| - 1], multiplier, quantity, idx)
      + Found(idx, last.ingredientId, last.name, RecipeAmount(last, multiplier, quantity))
  }

  /** The calls made for a beverage's add-ons: the line quantity per add-on with an ingredient found. */
  function AddOnRequests(addOns: seq<AddOn>, quantity: int, idx: InventoryIndex): seq<Request>
  {
    if addOns == [] then []
    else
      var last := addOns[|addOns| - 1];
      AddOnRequests(addOns[..|addOns| - 1], quantity, idx)
      + if last.ingredientId.Some? && last.ingredientId.value != "" then Found(idx, last.ingredientId, None, quantity as real)
        else []
  }

  /** The calls made for a bill of materials: amount × quantity per component found. */
  function BomRequests(bom: seq<Ingredient>, quantity: int, idx: InventoryIndex): seq<Request>
  {
    if bom == [] then []
    else
      var last := bom[|bom| - 1];
      BomRequests(bom[..|bom| - 1], quantity, idx)
      + Found(idx, last.ingredientId, last.name, BomAmount(last, quantity))
  }

  function LineMultiplier(line: CartLine): real
  {
    SizeMultiplier(if line.customs.Some? then line.customs.value.size else M)
  }

  /** The calls made for one cart line. */
  function LineRequests(line: CartLine, idx: InventoryIndex): seq<Request>
  {
    var p := line.product;
    if p.isBeverage then
      (if p.recipe.Some? then RecipeRequests(p.recipe.value, LineMultiplier(line), line.quantity, idx) else [])
      + (if line.customs.Some? then AddOnRequests(line.customs.value.addOns, line.quantity, idx) else [])
    else if |p.bom| > 0 then BomRequests(p.bom, line.quantity, idx)
    else Found(idx, Some(p.id), Some(p.name), line.quantity as real)
  }

  function CartRequests(cart: seq<CartLine>, idx: InventoryIndex): seq<Request>
  {
    if cart == [] then [] else CartRequests(cart[..|cart| - 1], idx) + LineRequests(cart[|cart| - 1], idx)
  }

  lemma {:induction false} AccumulateAppend(m: map<string, real>, a: seq<Request>, b: seq<Request>)
    ensures Accumulate(m, a + b) == Accumulate(Accumulate(m, a), b)
    decreases |b|
  {
    if b == [] {
      assert a + b == a;
    } else {
      AccumulateAppend(m, a, b[..|b| - 1]);
      assert (a + b)[..|a + b| - 1] == a + b[..|b| - 1];
    }
  }

  lemma AccumulateFound(m: map<string, real>, rs: seq<Request>, idx: InventoryIndex, id: Option<string>,
                        name: Option<string>, qty: real)
    ensures Accumulate(m, rs + Found(idx, id, name, qty))
            == match FindInventoryItem(idx, id, name)
               case Some(found) => AddDeduction(Accumulate(m, rs), found, qty)
               case None => Accumulate(m, rs)
  {
    var step := Found(idx, id, name, qty);
    if step == [] {
      assert rs + step == rs;
    } else {
      assert (rs + step)[..|rs + step| - 1] == rs;
    }
  }

  lemma RecipeStep(d0: map<string, real>, recipe: seq<Ingredient>, j: nat, multiplier: real, quantity: int, idx: InventoryIndex)
    requires j < |recipe|
    ensures var ing := recipe[j];
            Accumulate(d0, RecipeRequests(recipe[..j + 1], multiplier, quantity, idx))
            == match FindInventoryItem(idx, ing.ingredientId, ing.name)
               case Some(found) => AddDeduction(Accumulate(d0, RecipeRequests(recipe[..j], multiplier, quantity, idx)),
                                                found, RecipeAmount(ing, multiplier, quantity))
               case None => Accumulate(d0, RecipeRequests(recipe[..j], multiplier, quantity, idx))
  {
    var ing := recipe[j];
    var prefix := recipe[..j + 1];
    assert prefix[..|prefix| - 1] == recipe[..j] && prefix[|prefix| - 1] == ing;
    AccumulateFound(d0, RecipeRequests(recipe[..j], multiplier, quantity, idx), idx, ing.ingredientId, ing.name,
                    RecipeAmount(ing, multiplier, quantity));
  }

  /** The recipe loop of `handleCheckout` for one beverage line. */
  method AddRecipe(d0: map<string, real>, recipe: seq<Ingredient>, multiplier: real, quantity: int, idx: InventoryIndex)
    returns (deductions: map<string, real>)
    ensures deductions == Accumulate(d0, RecipeRequests(recipe, multiplier, quantity, idx))
  {
    deductions := d0;
    for j := 0 to |recipe|
      invariant deductions == Accumulate(d0, RecipeRequests(recipe[..j], multiplier, quantity, idx))
    {
      RecipeStep(d0, recipe, j, multiplier, quantity, idx);
      var ing := recipe[j];
      var dbIng := FindInventoryItem(idx, ing.ingredientId, ing.name);
      if dbIng.Some? {
        deductions := AddDeduction(deductions, dbIng.value, RecipeAmount(ing, multiplier, quantity));
      }
    }
    assert recipe[..|recipe|] == recipe;
  }

  lemma AddOnStep(d0: map<string, real>, addOns: seq<AddOn>, j: nat, quantity: int, idx: InventoryIndex)
    requires j < |addOns|
    ensures var a := addOns[j];
            var before := Accumulate(d0, AddOnRequests(addOns[..j], quantity, idx));
            Accumulate(d0, AddOnRequests(addOns[..j + 1], quantity, idx))
            == if a.ingredientId.Some? && a.ingredientId.value != "" then
                 match FindInventoryItem(idx, a.ingredientId, None)
                 case Some(found) => AddDeduction(before, found, quantity as real)
                 case None => before
               else before
  {
    var a := addOns[j];
    var prefix := addOns[..j + 1];
    assert prefix[..|prefix| - 1] == addOns[..j] && prefix[|prefix| - 1] == a;
    if a.ingredientId.Some? && a.ingredientId.value != "" {
      AccumulateFound(d0, AddOnRequests(addOns[..j], quantity, idx), idx, a.ingredientId, None, quantity as real);
    } else {
      assert AddOnRequests(addOns[..j + 1], quantity, idx) == AddOnRequests(addOns[..j], quantity, idx) + [];
      assert AddOnRequests(addOns[..j], quantity, idx) + [] == AddOnRequests(addOns[..j], quantity, idx);
    }
  }

  /** The add-on loop of `handleCheckout` for one beverage line. */
  method AddAddOns(d0: map<string, real>, addOns: seq<AddOn>, quantity: int, idx: InventoryIndex)
    returns (deductions: map<string, real>)
    ensures deductions == Accumulate(d0, AddOnRequests(addOns, quantity, idx))
  {
    deductions := d0;
    for j := 0 to |addOns|
      invariant deductions == Accumulate(d0, AddOnRequests(addOns[..j], quantity, idx))
    {
      AddOnStep(d0, addOns, j, quantity, idx);
      var addOn := addOns[j];
      if addOn.ingredientId.Some? && addOn.ingredientId.value != "" {
        var dbIng := FindInventoryItem(idx, addOn.ingredientId, None);
        if dbIng.Some? {
          deductions := AddDeduction(deductions, dbIng.value, quantity as real);
        }
      }
    }
    assert addOns[..|addOns|] == addOns;
  }

  lemma BomStep(d0: map<string, real>, bom: seq<Ingredient>, j: nat, quantity: int, idx: InventoryIndex)
    requires j < |bom|
    ensures var c := bom[j];
            Accumulate(d0, BomRequests(bom[..j + 1], quantity, idx))
            == match FindInventoryItem(idx, c.ingredientId, c.name)
               case Some(found) => AddDeduction(Accumulate(d0, BomRequests(bom[..j], quantity, idx)),
                                                found, BomAmount(c, quantity))
               case None => Accumulate(d0, BomRequests(bom[..j], quantity, idx))
  {
    var c := bom[j];
    var prefix := bom[..j + 1];
    assert prefix[..|prefix| - 1] == bom[..j] && prefix[|prefix| - 1] == c;
    AccumulateFound(d0, BomRequests(bom[..j], quantity, idx), idx, c.ingredientId, c.name, BomAmount(c, quantity));
  }

  /** The bill-of-materials loop of `handleCheckout` for one non-beverage line. */
  method AddBom(d0: map<string, real>, bom: seq<Ingredient>, quantity: int, idx: InventoryIndex)
    returns (deductions: map<string, real>)
    ensures deductions == Accumulate(d0, BomRequests(bom, quantity, idx))
  {
    deductions := d0;
    for j := 0 to |bom|
      invariant deductions == Accumulate(d0, BomRequests(bom[..j], quantity, idx))
    {
      BomStep(d0, bom, j, quantity, idx);
      var component := bom[j];
      var dbIng := FindInventoryItem(idx, component.ingredientId, component.name);
      if dbIng.Some? {
        deductions := AddDeduction(deductions, dbIng.value, BomAmount(component, quantity));
      }
    }
    assert bom[..|bom|] == bom;
  }

  /** The deductions map of `handleCheckout`, filled line by line. */
  method CheckoutDeductions(cart: seq<CartLine>, idx: InventoryIndex) returns (deductions: map<string, real>)
    ensures deductions == Accumulate(map[], CartRequests(cart, idx))
  {
    deductions := map[];
    for i := 0 to |cart|
      invariant deductions == Accumulate(map[], CartRequests(cart[..i], idx))
    {
      var item := cart[i];
      ghost var before := deductions;
      if item.product.isBeverage {
        var first: seq<Request> := [];
        if item.product.recipe.Some? {
          deductions := AddRecipe(deductions, item.product.recipe.value, LineMultiplier(item), item.quantity, idx);
          first := RecipeRequests(item.product.recipe.value, LineMultiplier(item), item.quantity, idx);
        }
        var second: seq<Request> := [];
        if item.customs.Some? {
          deductions := AddAddOns(deductions, item.customs.value.addOns, item.quantity, idx);
          second := AddOnRequests(item.customs.value.addOns, item.quantity, idx);
        }
        AccumulateAppend(before, first, second);
      } else if |item.product.bom| > 0 {
        deductions := AddBom(deductions, item.product.bom, item.quantity, idx);
      } else {
        var dbItem := FindInventoryItem(idx, Some(item.product.id), Some(item.product.name));
        if dbItem.Some? {
          deductions := AddDeduction(deductions, dbItem.value, item.quantity as real);
        }
        AccumulateFound(before, [], idx, Some(item.product.id), Some(item.product.name), item.quantity as real);
        assert [] + Found(idx, Some(item.product.id), Some(item.product.name), item.quantity as real) == LineRequests(item, idx);
      }
      assert deductions == Accumulate(before, LineRequests(item, idx));
      assert cart[..i + 1][..i] == cart[..i] && cart[..i + 1][i] == item;
      AccumulateAppend(map[], CartRequests(cart[..i], idx), LineRequests(item, idx));
    }
    assert cart[..|cart|] == cart;
  }

  /** The quantity the calls `rs` add up for one id. */
  function SumFor(rs: seq<Request>, k: string): real
  {
    if rs == [] then 0.0
    else SumFor(rs[..|rs| - 1], k) + (if rs[|rs| - 1].itemId == k && k != "" && rs[|rs| - 1].qty > 0.0 then rs[|rs| - 1].qty else 0.0)
  }

  /** Whether some call in `rs` counts for the id. */
  predicate Requested(rs: seq<Request>, k: string)
  {
    exists i :: 0 <= i < |rs| && rs[i].itemId == k && k != "" && rs[i].qty > 0.0
  }

  /** Each id's total is its starting total plus every counted call for it;
      an id has an entry exactly when it had one or some call counted for
      it; and totals stay positive. */
  lemma {:induction false} AccumulateTotals(m: map<string, real>, rs: seq<Request>)
    ensures forall k :: Get(Accumulate(m, rs), k) == Get(m, k) + SumFor(rs, k)
    ensures forall k :: k in Accumulate(m, rs) <==> k in m || Requested(rs, k)
    ensures (forall k :: k in m ==> m[k] > 0.0) ==> forall k :: k in Accumulate(m, rs) ==> Accumulate(m, rs)[k] > 0.0
  {
    if rs != [] {
      var init := rs[..|rs| - 1];
      AccumulateTotals(m, init);
      forall k
        ensures Requested(rs, k) <==> Requested(init, k) || (rs[|rs| - 1].itemId == k && k != "" && rs[|rs| - 1].qty > 0.0)
      {
        if Requested(rs, k) {
          var i :| 0 <= i < |rs| && rs[i].itemId == k && k != "" && rs[i].qty > 0.0;
          if i < |rs| - 1 {
            assert init[i] == rs[i];
          }
        }
        if Requested(init, k) {
          var i :| 0 <= i < |init| && init[i].itemId == k && k != "" && init[i].qty > 0.0;
          assert rs[i] == init[i];
        }
      }
    }
  }

  /** A plain item found in the inventory by its id deducts exactly its
      quantity from that row, and nothing else. */
  lemma PlainItemDeduction(p: Product, quantity: int, idx: InventoryIndex)
    requires !p.isBeverage && p.bom == [] && p.id != "" && p.id in idx.byId && idx.byId[p.id] != "" && quantity > 0
    ensures Accumulate(map[], CartRequests([CartLine(p.id, p, p.price, quantity, None)], idx))
              == map[idx.byId[p.id] := quantity as real]
  {
    var line := CartLine(p.id, p, p.price, quantity, None);
    var k := idx.byId[p.id];
    var rs := [Request(k, quantity as real)];
    assert LineRequests(line, idx) == rs by {
      assert FindInventoryItem(idx, Some(p.id), Some(p.name)) == Some(k);
    }
    assert CartRequests([line], idx) == rs by {
      assert [line][..0] == [];
      assert [] + rs == rs;
    }
    assert Accumulate(map[], rs) == AddDeduction(map[], k, quantity as real) by {
      assert rs[..0] == [];
    }
  }

  // ---- Invoice numbers ----

  /** `s.padStart(n, c)` with a one-character filler. */
  function PadStart(s: string, n: nat, c: char): string
  {
    if |s| >= n then s else Repeat(c, n - |s|) + s
  }

  /** `sequence = (count || 0) + 1`: today's transactions so far, plus one. */
  function InvoiceSequence(count: Option<nat>): nat
  {
    match count case None => 1 case Some(c) => c + 1
  }

  /** YYYYMMDD with a zero-padded month and day. */
  function DateStamp(year: nat, month: nat, day: nat): string
  {
    NatToString(year) + PadStart(NatToString(month), 2, '0') + PadStart(NatToString(day), 2, '0')
  }

  /** `generateInvoiceNumber`: INV-YYYYMMDD-NNNN. */
  function InvoiceNumber(year: nat, month: nat, day: nat, sequence: nat): string
  {
    "INV" + "-" + DateStamp(year, month, day) + "-" + PadStart(NatToString(sequence), 4, '0')
  }

  lemma {:induction false} DigitsValueAppend(a: string, b: string)
    requires AllDigits(a) && AllDigits(b)
    ensures AllDigits(a + b) && DigitsValue(a + b) == DigitsValue(a) * Pow10(|b|) + DigitsValue(b)
    decreases |b|
  {
    if b == [] {
      assert a + b == a;
    } else {
      var init := b[..|b| - 1];
      DigitsValueAppend(a, init);
      assert (a + b)[..|a + b| - 1] == a + init;
      assert (a + b)[|a + b| - 1] == b[|b| - 1];
      ShiftDigit(DigitsValue(a), Pow10(|init|), DigitsValue(init), DigitValue(b[|b| - 1]));
    }
  }

  lemma ShiftDigit(x: int, p: int, y: int, d: int)
    ensures (x * p + y) * 10 + d == x * (10 * p) + (y * 10 + d)
  {
  }

  lemma {:induction false} ZerosValue(n: nat)
    ensures AllDigits(Repeat('0', n)) && DigitsValue(Repeat('0', n)) == 0
  {
    if n > 0 {
      ZerosValue(n - 1);
      assert Repeat('0', n)[..n - 1] == Repeat('0', n - 1);
    }
  }

  lemma {:induction false} DigitsValueBelow(s: string)
    requires AllDigits(s)
    ensures DigitsValue(s) < Pow10(|s|)
  {
    if s != [] {
      DigitsValueBelow(s[..|s| - 1]);
    }
  }

  /** Zero-padding keeps the value, makes at least `n` digits, and exactly
      `n` when the number has at most `n` digits. */
  lemma PaddedNumber(v: nat, n: nat)
    ensures var r := PadStart(NatToString(v), n, '0');
            AllDigits(r) && DigitsValue(r) == v && |r| >= n && (v < Pow10(n) && n >= 1 ==> |r| == n)
  {
    var s := NatToString(v);
    NatToStringRoundTrip(v);
    if |s| < n {
      ZeroPadded(n - |s|, s);
    } else if v < Pow10(n) && n >= 1 {
      NatToStringLength(v, n);
    }
  }

  /** Leading zeros do not change a digit string's value. */
  lemma ZeroPadded(k: nat, s: string)
    requires AllDigits(s)
    ensures var r := Repeat('0', k) + s;
            AllDigits(r) && DigitsValue(r) == DigitsValue(s) && |r| == k + |s|
  {
    var z := Repeat('0', k);
    ZerosValue(k);
    DigitsValueAppend(z, s);
    ZeroTimes(DigitsValue(z), Pow10(|s|));
  }

  lemma ZeroTimes(x: int, y: int)
    requires x == 0
    ensures x * y == 0
  {
  }

  lemma {:induction false} Pow10Grows(a: nat, b: nat)
    requires a <= b
    ensures Pow10(a) <= Pow10(b)
    decreases b
  {
    if a < b {
      Pow10Grows(a, b - 1);
    }
  }

  lemma FourDigits(year: nat)
    requires 1000 <= year <= 9999
    ensures var y := NatToString(year);
            |y| == 4 && AllDigits(y) && DigitsValue(y) == year
  {
    var y := NatToString(year);
    NatToStringRoundTrip(year);
    NatToStringLength(year, 4);
    if |y| < 4 {
      DigitsValueBelow(y);
      Pow10Grows(|y|, 3);
    }
  }

  /** A four-digit year gives an eight-digit stamp whose value is YYYYMMDD. */
  lemma DateStampDigits(year: nat, month: nat, day: nat)
    requires 1000 <= year <= 9999 && 1 <= month <= 12 && 1 <= day <= 31
    ensures var d := DateStamp(year, month, day);
            |d| == 8 && AllDigits(d) && DigitsValue(d) == year * 10000 + month * 100 + day
  {
    var y := NatToString(year);
    var mm := PadStart(NatToString(month), 2, '0');
    var dd := PadStart(NatToString(day), 2, '0');
    FourDigits(year);
    PaddedNumber(month, 2);
    PaddedNumber(day, 2);
    assert Pow10(2) == 100 by {
      assert Pow10(1) == 10;
    }
    DigitsValueAppend(y, mm);
    assert DigitsValue(y + mm) == year * 100 + month;
    DigitsValueAppend(y + mm, dd);
    assert DigitsValue(y + mm + dd) == (year * 100 + month) * 100 + day;
  }

  /** The invoice number reads back as its parts: "INV-", the eight-digit
      date stamp, "-", and the sequence in at least four digits (exactly four
      below 10000). */
  lemma InvoiceNumberParts(year: nat, month: nat, day: nat, sequence: nat)
    requires 1000 <= year <= 9999 && 1 <= month <= 12 && 1 <= day <= 31
    ensures var r := InvoiceNumber(year, month, day, sequence);
            |r| >= 17 && r[..4] == "INV-" && r[12] == '-'
            && AllDigits(r[4..12]) && DigitsValue(r[4..12]) == year * 10000 + month * 100 + day
            && AllDigits(r[13..]) && DigitsValue(r[13..]) == sequence
            && (sequence < 10000 ==> |r| == 17)
  {
    var d := DateStamp(year, month, day);
    var q := PadStart(NatToString(sequence), 4, '0');
    DateStampDigits(year, month, day);
    PaddedNumber(sequence, 4);
    InvoiceLayout(d, q);
  }

  lemma InvoiceLayout(d: string, q: string)
    requires |d| == 8
    ensures var r := "INV" + "-" + d + "-" + q;
            |r| == 13 + |q| && r[..4] == "INV-" && r[12] == '-' && r[4..12] == d && r[13..] == q
  {
    var r := "INV" + "-" + d + "-" + q;
    assert r == "INV-" + d + "-" + q;
  }

  /** Two sequence numbers on the same day never share an invoice number. */
  lemma InvoiceNumbersDistinct(year: nat, month: nat, day: nat, s1: nat, s2: nat)
    requires 1000 <= year <= 9999 && 1 <= month <= 12 && 1 <= day <= 31 && s1 != s2
    ensures InvoiceNumber(year, month, day, s1) != InvoiceNumber(year, month, day, s2)
  {
    InvoiceNumberParts(year, month, day, s1);
    InvoiceNumberParts(year, month, day, s2);
  }
}
