/** Beverage production cost and selling price: sums over a recipe's
    ingredients and over the selected add-ons. Amounts are exact reals. */
module BeverageService {
  import opened Common

  /** A recipe line: its amount and its optional cost per unit. */
  datatype Ingredient = Ingredient(amount: real, costPerUnit: Option<real>)

  /** A recipe whose ingredient list may be missing. */
  datatype Recipe = Recipe(ingredients: Option<seq<Ingredient>>)

  datatype AddOn = AddOn(price: real)

  datatype CostBreakdown = CostBreakdown(materialCost: real, laborCost: real, overhead: real, totalCost: real)

  /** `cost_per_unit || 0`: a missing cost (and a zero one) counts as 0. */
  function UnitCost(ing: Ingredient): real
  {
    match ing.costPerUnit
    case None => 0.0
    case Some(c) => c
  }

  function IngredientCost(ing: Ingredient): real { ing.amount * UnitCost(ing) }

  /** The `reduce` from the left: the running total plus the last ingredient's cost. */
  function SumCosts(ings: seq<Ingredient>): real
  {
    if ings == [] then 0.0 else SumCosts(ings[..|ings| - 1]) + IngredientCost(ings[|ings| - 1])
  }

  /** `calculateRecipeCost`: 0 when the recipe or its ingredient list is absent. */
  function RecipeCost(recipe: Option<Recipe>): real
  {
    match recipe
    case None => 0.0
    case Some(r) =>
      match r.ingredients
      case None => 0.0
      case Some(ings) => SumCosts(ings)
  }

  /** Reference definition: the cost of the first ingredient plus the cost of the rest. */
  function Total(ings: seq<Ingredient>): real
  {
    if ings == [] then 0.0 else IngredientCost(ings[0]) + Total(ings[1..])
  }

  lemma {:induction false} TotalAppend(a: seq<Ingredient>, b: seq<Ingredient>)
    ensures Total(a + b) == Total(a) + Total(b)
  {
    if a == [] {
      assert a + b == b;
    } else {
      assert (a + b)[1..] == a[1..] + b;
      TotalAppend(a[1..], b);
    }
  }

  /** The left fold of the source computes the sum over all ingredients. */
  lemma {:induction false} SumCostsIsTotal(ings: seq<Ingredient>)
    ensures SumCosts(ings) == Total(ings)
  {
    if ings != [] {
      var init := ings[..|ings| - 1];
      SumCostsIsTotal(init);
      TotalAppend(init, [ings[|ings| - 1]]);
      assert init + [ings[|ings| - 1]] == ings;
    }
  }

  /** The cost of a recipe is additive over concatenation of ingredient lists. */
  lemma RecipeCostAppend(a: seq<Ingredient>, b: seq<Ingredient>)
    ensures RecipeCost(Some(Recipe(Some(a + b)))) == RecipeCost(Some(Recipe(Some(a)))) + RecipeCost(Some(Recipe(Some(b))))
  {
    SumCostsIsTotal(a + b);
    SumCostsIsTotal(a);
    SumCostsIsTotal(b);
    TotalAppend(a, b);
  }

  /** An absent recipe, an absent ingredient list and an empty one all cost 0. */
  lemma RecipeCostAbsent(recipe: Option<Recipe>)
    requires recipe.None? || recipe.value.ingredients.None? || recipe.value.ingredients.value == []
    ensures RecipeCost(recipe) == 0.0
  {
  }

  /** With non-negative amounts and costs the recipe cost is non-negative, and
      it does not exceed the cost with every missing cost filled in. */
  lemma {:induction false} SumCostsNonNegative(ings: seq<Ingredient>)
    requires forall i :: 0 <= i < |ings| ==> ings[i].amount >= 0.0 && UnitCost(ings[i]) >= 0.0
    ensures SumCosts(ings) >= 0.0
  {
    if ings != [] {
      var last := ings[|ings| - 1];
      SumCostsNonNegative(ings[..|ings| - 1]);
      assert last.amount * UnitCost(last) >= 0.0;
    }
  }

  function SumPrices(addOns: seq<AddOn>): real
  {
    if addOns == [] then 0.0 else SumPrices(addOns[..|addOns| - 1]) + addOns[|addOns| - 1].price
  }

  /** `calculateTotalPrice`: the base price plus every selected add-on's price. */
  function TotalPrice(basePrice: real, selected: seq<AddOn>): real
  {
    basePrice + SumPrices(selected)
  }

  lemma {:induction false} SumPricesAppend(a: seq<AddOn>, b: seq<AddOn>)
    ensures SumPrices(a + b) == SumPrices(a) + SumPrices(b)
    decreases |b|
  {
    if b == [] {
      assert a + b == a;
    } else {
      assert (a + b)[..|a + b| - 1] == a + b[..|b| - 1];
      SumPricesAppend(a, b[..|b| - 1]);
    }
  }

  /** No add-ons: the base price. One more add-on: its price more. */
  lemma TotalPriceAddOn(basePrice: real, selected: seq<AddOn>, extra: AddOn)
    ensures TotalPrice(basePrice, []) == basePrice
    ensures TotalPrice(basePrice, selected + [extra]) == TotalPrice(basePrice, selected) + extra.price
  {
    assert (selected + [extra])[..|selected|] == selected;
  }

  /** Taking one add-on out of the selection takes its price off the sum. */
  lemma SumPricesRemove(s: seq<AddOn>, k: nat)
    requires k < |s|
    ensures SumPrices(s) == s[k].price + SumPrices(s[..k] + s[k + 1..])
  {
    assert s == s[..k] + ([s[k]] + s[k + 1..]);
    SumPricesAppend(s[..k], [s[k]] + s[k + 1..]);
    SumPricesAppend([s[k]], s[k + 1..]);
    SumPricesAppend(s[..k], s[k + 1..]);
    assert SumPrices([s[k]]) == s[k].price by {
      assert [s[k]][..0] == [];
    }
  }

  lemma {:induction false} SumPricesPermuted(a: seq<AddOn>, b: seq<AddOn>)
    requires multiset(a) == multiset(b)
    ensures SumPrices(a) == SumPrices(b)
    decreases |a|
  {
    if a == [] {
      assert |b| == |multiset(b)| == 0;
    } else {
      assert a[0] in multiset(b);
      var k :| 0 <= k < |b| && b[k] == a[0];
      MultisetRest(a, b, k);
      SumPricesPermuted(a[1..], b[..k] + b[k + 1..]);
      SumPricesRemove(a, 0);
      SumPricesRemove(b, k);
      assert a[..0] + a[1..] == a[1..];
    }
  }

  /** The order in which add-ons are selected does not change the price: any
      rearrangement of the same add-ons costs the same. */
  lemma TotalPriceOrder(basePrice: real, a: seq<AddOn>, b: seq<AddOn>)
    requires multiset(a) == multiset(b)
    ensures TotalPrice(basePrice, a) == TotalPrice(basePrice, b)
  {
    SumPricesPermuted(a, b);
  }

  /** A parameter with default 0: `None` is an omitted argument. */
  function DefaultZero(arg: Option<real>): real
  {
    match arg
    case None => 0.0
    case Some(x) => x
  }

  /** `getCostBreakdown(recipe, laborCost = 0, overhead = 0)`. */
  function GetCostBreakdown(recipe: Option<Recipe>, laborCost: Option<real>, overhead: Option<real>): (r: CostBreakdown)
    ensures r.totalCost == r.materialCost + r.laborCost + r.overhead
    ensures r.materialCost == RecipeCost(recipe)
    ensures r.laborCost == DefaultZero(laborCost) && r.overhead == DefaultZero(overhead)
  {
    var material := RecipeCost(recipe);
    var labor := DefaultZero(laborCost);
    var over := DefaultZero(overhead);
    CostBreakdown(material, labor, over, material + labor + over)
  }

  /** Every ingredient of a present recipe has a non-negative amount and cost. */
  predicate NonNegativeRecipe(recipe: Option<Recipe>)
  {
    recipe.Some? && recipe.value.ingredients.Some? ==>
      var ings := recipe.value.ingredients.value;
      forall i :: 0 <= i < |ings| ==> ings[i].amount >= 0.0 && UnitCost(ings[i]) >= 0.0
  }

  /** Without labour and overhead the breakdown is the recipe cost alone:
      total and material cost are both the recipe cost, and a missing recipe
      costs nothing. */
  lemma CostBreakdownDefaults(recipe: Option<Recipe>)
    ensures GetCostBreakdown(recipe, None, None) == CostBreakdown(RecipeCost(recipe), 0.0, 0.0, RecipeCost(recipe))
    ensures GetCostBreakdown(None, None, None).totalCost == 0.0
  {
  }

  /** With non-negative costs, labour and overhead, the material cost is
      non-negative and the total covers it; what the total adds to it is
      exactly the labour and overhead passed in. */
  lemma CostBreakdownBounds(recipe: Option<Recipe>, laborCost: real, overhead: real)
    requires NonNegativeRecipe(recipe) && laborCost >= 0.0 && overhead >= 0.0
    ensures var r := GetCostBreakdown(recipe, Some(laborCost), Some(overhead));
            r.totalCost >= r.materialCost >= 0.0 && r.totalCost - r.materialCost == laborCost + overhead
  {
    if recipe.Some? && recipe.value.ingredients.Some? {
      SumCostsNonNegative(recipe.value.ingredients.value);
    }
  }
}
