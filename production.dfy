/**
 * The production calculator: the total production points of an item, its
 * profitability when its materials are bought on the market or produced,
 * and the table of profitabilities over the listed items. Everything is
 * generic in the recipe table and the display order; the current tables
 * and the older ones each instantiate it.
 */
module Production {
  import opened Wrappers
  import opened Recipes

  /** Market prices by item. */
  type Prices = map<Item, real>

  /** `!prices[id]`: the item has no price, or its price is zero. */
  predicate Unpriced(prices: Prices, it: Item)
  {
    it !in prices || prices[it] == 0.0
  }

  /**
   * A rank that decreases from every recipe to each of its materials that
   * has a recipe. It exists exactly when no recipe reaches itself through
   * its materials, so `calculatePPTotal` terminates.
   */
  ghost predicate Ranked(t: RecipeTable, rank: map<Item, nat>)
  {
    forall it :: it in t ==>
      && it in rank
      && forall k :: 0 <= k < |t[it].materials| && t[it].materials[k].item in t ==>
           t[it].materials[k].item in rank && rank[t[it].materials[k].item] < rank[it]
  }

  /**
   * `calculatePPTotal`: the item's own points plus, for each material in
   * order, its quantity times the material's total; no value when the item
   * or any material reached on the way has no recipe.
   */
  function TotalPP(t: RecipeTable, ghost rank: map<Item, nat>, it: Item): Option<nat>
    requires Ranked(t, rank)
    decreases if it in t then rank[it] + 1 else 0, 1, 0
  {
    if it !in t then None else MaterialsPP(t, rank, it, 0, t[it].pp)
  }

  /** The loop of `calculatePPTotal` over the materials of `owner` from the k-th on, with `acc` points so far. */
  function MaterialsPP(t: RecipeTable, ghost rank: map<Item, nat>, owner: Item, k: nat, acc: nat): Option<nat>
    requires Ranked(t, rank) && owner in t && k <= |t[owner].materials|
    decreases rank[owner] + 1, 0, |t[owner].materials| - k
  {
    if k == |t[owner].materials| then Some(acc)
    else
      var m := t[owner].materials[k];
      match TotalPP(t, rank, m.item)
      case None => None
      case Some(sub) => MaterialsPP(t, rank, owner, k + 1, acc + sub * m.qty)
  }

  /** Every recipe reached from `it` through materials exists. */
  ghost predicate Complete(t: RecipeTable, rank: map<Item, nat>, it: Item)
    requires Ranked(t, rank)
    decreases if it in t then rank[it] + 1 else 0
  {
    it in t && forall k :: 0 <= k < |t[it].materials| ==> Complete(t, rank, t[it].materials[k].item)
  }

  /**
   * The total has a value exactly when every recipe reached from the item
   * exists, and then it is at least the item's own points; a raw item's
   * total is its own points.
   */
  lemma {:induction false} TotalPPDefined(t: RecipeTable, rank: map<Item, nat>, it: Item)
    requires Ranked(t, rank)
    ensures TotalPP(t, rank, it).Some? <==> Complete(t, rank, it)
    ensures TotalPP(t, rank, it).Some? ==> TotalPP(t, rank, it).value >= t[it].pp
    ensures it in t && Raw(t[it]) ==> TotalPP(t, rank, it) == Some(t[it].pp)
    decreases if it in t then rank[it] + 1 else 0, 1, 0
  {
    if it in t {
      MaterialsDefined(t, rank, it, 0, t[it].pp);
    }
  }

  lemma {:induction false} MaterialsDefined(t: RecipeTable, rank: map<Item, nat>, owner: Item, k: nat, acc: nat)
    requires Ranked(t, rank) && owner in t && k <= |t[owner].materials|
    ensures MaterialsPP(t, rank, owner, k, acc).Some? <==>
      forall j :: k <= j < |t[owner].materials| ==> Complete(t, rank, t[owner].materials[j].item)
    ensures MaterialsPP(t, rank, owner, k, acc).Some? ==> MaterialsPP(t, rank, owner, k, acc).value >= acc
    decreases rank[owner] + 1, 0, |t[owner].materials| - k
  {
    if k < |t[owner].materials| {
      var m := t[owner].materials[k];
      TotalPPDefined(t, rank, m.item);
      match TotalPP(t, rank, m.item)
      case None =>
      case Some(sub) =>
        MaterialsDefined(t, rank, owner, k + 1, acc + sub * m.qty);
    }
  }

  /**
   * Adding recipes to a table never changes a total that was already
   * defined, whatever ranks the two tables use.
   */
  lemma {:induction false} TotalPPExtend(t1: RecipeTable, r1: map<Item, nat>, t2: RecipeTable, r2: map<Item, nat>, it: Item)
    requires Ranked(t1, r1) && Ranked(t2, r2)
    requires forall x :: x in t1 ==> x in t2 && t2[x] == t1[x]
    requires TotalPP(t1, r1, it).Some?
    ensures TotalPP(t2, r2, it) == TotalPP(t1, r1, it)
    decreases if it in t1 then r1[it] + 1 else 0, 1, 0
  {
    MaterialsExtend(t1, r1, t2, r2, it, 0, t1[it].pp);
  }

  lemma {:induction false} MaterialsExtend(t1: RecipeTable, r1: map<Item, nat>, t2: RecipeTable, r2: map<Item, nat>,
                                           owner: Item, k: nat, acc: nat)
    requires Ranked(t1, r1) && Ranked(t2, r2)
    requires forall x :: x in t1 ==> x in t2 && t2[x] == t1[x]
    requires owner in t1 && k <= |t1[owner].materials| && MaterialsPP(t1, r1, owner, k, acc).Some?
    ensures MaterialsPP(t2, r2, owner, k, acc) == MaterialsPP(t1, r1, owner, k, acc)
    decreases r1[owner] + 1, 0, |t1[owner].materials| - k
  {
    if k < |t1[owner].materials| {
      var m := t1[owner].materials[k];
      TotalPPExtend(t1, r1, t2, r2, m.item);
      MaterialsExtend(t1, r1, t2, r2, owner, k + 1, acc + TotalPP(t1, r1, m.item).value * m.qty);
    }
  }

  /** In a table whose materials are all raw recipes, every item with a recipe has a total. */
  lemma TotalPPOfShallow(t: RecipeTable, rank: map<Item, nat>, it: Item)
    requires Ranked(t, rank) && MaterialsAreRaw(t) && it in t
    ensures TotalPP(t, rank, it).Some?
  {
    forall k | 0 <= k < |t[it].materials|
      ensures Complete(t, rank, t[it].materials[k].item)
    {
      assert Raw(t[t[it].materials[k].item]);
    }
    TotalPPDefined(t, rank, it);
  }

  /** The rank that puts raw recipes at 0 and all others at 1. */
  function RawRank(t: RecipeTable): map<Item, nat>
  {
    map it | it in t :: if Raw(t[it]) then 0 else 1
  }

  lemma RawRankRanked(t: RecipeTable)
    requires MaterialsAreRaw(t)
    ensures Ranked(t, RawRank(t))
  {
    forall it, k | it in t && 0 <= k < |t[it].materials|
      ensures RawRank(t)[t[it].materials[k].item] < RawRank(t)[it]
    {
      assert !Raw(t[it]);
    }
  }

  /** The total production points of each item of the current table. */
  function ConfigTotal(it: Item): nat
  {
    match it
    case Grain | Petroleum | Coca | Lead | Iron | Limestone => 1
    case Livestock => 20
    case Fish => 40
    case Oil | LightAmmo => 2
    case Ammo => 8
    case HeavyAmmo => 32
    case Bread | Steel | Concrete => 20
    case Steak => 40
    case CookedFish => 80
    case Cocain => 400
    case Case1 => 0
  }

  /** An item whose one material is raw totals its own points plus the material's quantity times the material's points. */
  lemma TotalPPSingle(t: RecipeTable, rank: map<Item, nat>, it: Item, m: Material)
    requires Ranked(t, rank) && it in t && t[it].materials == [m] && m.item in t && Raw(t[m.item])
    ensures TotalPP(t, rank, it) == Some(t[it].pp + m.qty * t[m.item].pp)
  {
    TotalPPDefined(t, rank, m.item);
    var sub := t[m.item].pp;
    assert MaterialsPP(t, rank, it, 1, t[it].pp + sub * m.qty) == Some(t[it].pp + sub * m.qty);
    assert MaterialsPP(t, rank, it, 0, t[it].pp) == MaterialsPP(t, rank, it, 1, t[it].pp + sub * m.qty);
  }

  /** The raw-first rank orders the current table. */
  lemma ConfigRanked()
    ensures Ranked(ConfigRecipes, RawRank(ConfigRecipes))
  {
    ConfigRecipesWellFormed();
    RawRankRanked(ConfigRecipes);
  }

  /** A raw item totals its own points. */
  lemma TotalPPRaw(t: RecipeTable, rank: map<Item, nat>, it: Item)
    requires Ranked(t, rank) && it in t && Raw(t[it])
    ensures TotalPP(t, rank, it) == Some(t[it].pp)
  {
    TotalPPDefined(t, rank, it);
  }

  /** A raw item of the current table totals its own points. */
  lemma ConfigRawTotal(it: Item)
    requires it != Case1 && Raw(ConfigRecipe(it))
    ensures Ranked(ConfigRecipes, RawRank(ConfigRecipes))
    ensures TotalPP(ConfigRecipes, RawRank(ConfigRecipes), it) == Some(ConfigRecipe(it).pp)
  {
    ConfigRanked();
    assert ConfigRecipes[it] == ConfigRecipe(it);
    TotalPPRaw(ConfigRecipes, RawRank(ConfigRecipes), it);
  }

  /** An item of the current table made of one raw material m totals its points plus m's quantity times m's points. */
  lemma ConfigProductTotal(it: Item, m: Material)
    requires it != Case1 && ConfigRecipe(it).materials == [m] && m.item != Case1 && Raw(ConfigRecipe(m.item))
    ensures Ranked(ConfigRecipes, RawRank(ConfigRecipes))
    ensures TotalPP(ConfigRecipes, RawRank(ConfigRecipes), it) == Some(ConfigRecipe(it).pp + m.qty * ConfigRecipe(m.item).pp)
  {
    ConfigRanked();
    assert ConfigRecipes[it] == ConfigRecipe(it);
    assert ConfigRecipes[m.item] == ConfigRecipe(m.item);
    TotalPPSingle(ConfigRecipes, RawRank(ConfigRecipes), it, m);
  }

  /** `calculatePPTotal` on the current table gives the totals above, and nothing for the case. */
  lemma ConfigTotals(it: Item)
    ensures Ranked(ConfigRecipes, RawRank(ConfigRecipes))
    ensures TotalPP(ConfigRecipes, RawRank(ConfigRecipes), it) == if it == Case1 then None else Some(ConfigTotal(it))
  {
    match it
    case Case1 => ConfigRanked();
    case Grain | Petroleum | Coca | Lead | Iron | Limestone | Livestock | Fish => ConfigRawTotal(it);
    case Oil => ConfigProductTotal(it, Material(Petroleum, 1));
    case LightAmmo => ConfigProductTotal(it, Material(Lead, 1));
    case Ammo => ConfigProductTotal(it, Material(Lead, 4));
    case HeavyAmmo => ConfigProductTotal(it, Material(Lead, 16));
    case Bread => ConfigProductTotal(it, Material(Grain, 10));
    case Steel => ConfigProductTotal(it, Material(Iron, 10));
    case Concrete => ConfigProductTotal(it, Material(Limestone, 10));
    case Steak => ConfigProductTotal(it, Material(Livestock, 1));
    case CookedFish => ConfigProductTotal(it, Material(Fish, 1));
    case Cocain => ConfigProductTotal(it, Material(Coca, 200));
  }

  /**
   * `calculatePPTotal` as the page runs it: the recursive call for each
   * material inside a loop that accumulates `totalPP` and returns null at
   * the first material that has none.
   */
  method CalculatePPTotal(t: RecipeTable, ghost rank: map<Item, nat>, it: Item) returns (r: Option<nat>)
    requires Ranked(t, rank)
    ensures r == TotalPP(t, rank, it)
    decreases if it in t then rank[it] + 1 else 0, 1
  {
    if it !in t {
      return None;
    }
    var mats := t[it].materials;
    var total: nat := t[it].pp;
    var k := 0;
    while k < |mats|
      invariant 0 <= k <= |mats|
      invariant MaterialsPP(t, rank, it, 0, t[it].pp) == MaterialsPP(t, rank, it, k, total)
      decreases |mats| - k
    {
      var sub := CalculatePPTotal(t, rank, mats[k].item);
      if sub.None? {
        return None;
      }
      total := total + sub.value * mats[k].qty;
      k := k + 1;
    }
    return Some(total);
  }

  /** The price sources `calculateProfitability` accepts; any other string is `OtherSource`. */
  datatype Source = Market | FromProduction | OtherSource

  /**
   * A profitability figure: a finite ratio, or the infinity or NaN that
   * the page's floating-point division yields when the divisor is zero.
   */
  datatype Profit = Ratio(value: real) | PosInfinity | NegInfinity | NotANumber

  /**
   * `(sellPrice - cost) / cost` with `cost = matCost + pp / (1 + bonus / 100) * salary`.
   * A zero bonus divisor makes the labour cost infinite (or NaN), and
   * the figure NaN; a zero cost gives an infinity of the sign of the sell
   * price.
   */
  function ProfitOf(sell: real, matCost: real, pp: real, bonus: real, salary: real): (p: Profit)
    ensures 1.0 + bonus / 100.0 == 0.0 ==> p == NotANumber
    ensures p.Ratio? ==> matCost + pp / (1.0 + bonus / 100.0) * salary != 0.0
    ensures p.Ratio? ==>
      p.value * (matCost + pp / (1.0 + bonus / 100.0) * salary) == sell - (matCost + pp / (1.0 + bonus / 100.0) * salary)
  {
    var factor := 1.0 + bonus / 100.0;
    if factor == 0.0 then NotANumber
    else
      var cost := matCost + pp / factor * salary;
      if cost == 0.0 then (if sell > 0.0 then PosInfinity else if sell < 0.0 then NegInfinity else NotANumber)
      else Ratio((sell - cost) / cost)
  }

  /**
   * With a positive cost the figure is a finite ratio, positive exactly
   * when the sell price exceeds the cost, and never below -1 for a
   * non-negative sell price.
   */
  lemma ProfitSign(sell: real, matCost: real, pp: real, bonus: real, salary: real)
    requires 1.0 + bonus / 100.0 != 0.0 && matCost + pp / (1.0 + bonus / 100.0) * salary > 0.0
    ensures ProfitOf(sell, matCost, pp, bonus, salary).Ratio?
    ensures ProfitOf(sell, matCost, pp, bonus, salary).value > 0.0 <==>
      sell > matCost + pp / (1.0 + bonus / 100.0) * salary
    ensures sell >= 0.0 ==> ProfitOf(sell, matCost, pp, bonus, salary).value >= -1.0
  {
    var cost := matCost + pp / (1.0 + bonus / 100.0) * salary;
    var v := (sell - cost) / cost;
    assert v * cost == sell - cost;
    if sell >= 0.0 {
      assert (v + 1.0) * cost == sell;
    }
  }

  /**
   * The market cost of the materials, in the order the recipe lists them:
   * the sum of price times quantity, or nothing as soon as one material is
   * unpriced.
   */
  function MarketCost(prices: Prices, mats: seq<Material>): Option<real>
  {
    if mats == [] then Some(0.0)
    else match MarketCost(prices, mats[..|mats| - 1])
      case None => None
      case Some(c) =>
        var m := mats[|mats| - 1];
        if Unpriced(prices, m.item) then None else Some(c + prices[m.item] * m.qty as real)
  }

  /** The market cost is missing exactly when some material is unpriced. */
  lemma {:induction false} MarketCostMissing(prices: Prices, mats: seq<Material>)
    ensures MarketCost(prices, mats).None? <==> exists k :: 0 <= k < |mats| && Unpriced(prices, mats[k].item)
  {
    if mats != [] {
      var init := mats[..|mats| - 1];
      MarketCostMissing(prices, init);
      if MarketCost(prices, init).None? {
        var k :| 0 <= k < |init| && Unpriced(prices, init[k].item);
        assert mats[k] == init[k];
      } else if !Unpriced(prices, mats[|mats| - 1].item) {
        forall k | 0 <= k < |mats|
          ensures !Unpriced(prices, mats[k].item)
        {
          if k < |init| {
            assert mats[k] == init[k];
          }
        }
      }
    }
  }

  /** With non-negative prices the market cost is non-negative. */
  lemma {:induction false} MarketCostNonNegative(prices: Prices, mats: seq<Material>)
    requires forall it :: it in prices ==> prices[it] >= 0.0
    ensures MarketCost(prices, mats).Some? ==> MarketCost(prices, mats).value >= 0.0
  {
    if mats != [] {
      MarketCostNonNegative(prices, mats[..|mats| - 1]);
    }
  }

  /** `!sellPrice || sellPrice <= 0`: the item has no positive sell price. */
  predicate NoSellPrice(prices: Prices, it: Item)
  {
    it !in prices || prices[it] <= 0.0
  }

  /**
   * `calculateProfitability`: null without a recipe or a positive sell
   * price; a raw item pays only labour, whatever the source; otherwise the
   * market source buys the materials and the production source pays
   * labour for the total production points (the bonus passed to
   * `calculatePPTotal` is dropped there), and any other source is null.
   */
  function Profitability(t: RecipeTable, ghost rank: map<Item, nat>, prices: Prices, it: Item,
                         bonus: real, salary: real, source: Source): Option<Profit>
    requires Ranked(t, rank)
  {
    if it !in t || NoSellPrice(prices, it) then None
    else if Raw(t[it]) then Some(ProfitOf(prices[it], 0.0, t[it].pp as real, bonus, salary))
    else match source
      case Market =>
        (match MarketCost(prices, t[it].materials)
         case None => None
         case Some(c) => Some(ProfitOf(prices[it], c, t[it].pp as real, bonus, salary)))
      case FromProduction =>
        (match TotalPP(t, rank, it)
         case None => None
         case Some(total) => Some(ProfitOf(prices[it], 0.0, total as real, bonus, salary)))
      case OtherSource => None
  }

  /** Exactly when the profitability is null. */
  lemma ProfitabilityNull(t: RecipeTable, rank: map<Item, nat>, prices: Prices, it: Item,
                          bonus: real, salary: real, source: Source)
    requires Ranked(t, rank)
    ensures Profitability(t, rank, prices, it, bonus, salary, source).None? <==>
      || it !in t
      || NoSellPrice(prices, it)
      || (!Raw(t[it]) && source == Market && exists k :: 0 <= k < |t[it].materials| && Unpriced(prices, t[it].materials[k].item))
      || (!Raw(t[it]) && source == FromProduction && !Complete(t, rank, it))
      || (!Raw(t[it]) && source == OtherSource)
  {
    if it in t {
      MarketCostMissing(prices, t[it].materials);
      TotalPPDefined(t, rank, it);
    }
  }

  /** For a raw item the source does not matter: the figure pays labour for the item's own points. */
  lemma RawIgnoresSource(t: RecipeTable, rank: map<Item, nat>, prices: Prices, it: Item,
                         bonus: real, salary: real, s1: Source, s2: Source)
    requires Ranked(t, rank) && it in t && Raw(t[it]) && !NoSellPrice(prices, it)
    ensures Profitability(t, rank, prices, it, bonus, salary, s1) ==
            Profitability(t, rank, prices, it, bonus, salary, s2) ==
            Some(ProfitOf(prices[it], 0.0, t[it].pp as real, bonus, salary))
  {
  }

  /**
   * The production figure reads only the item's own sell price: changing
   * the prices of other items leaves it unchanged.
   */
  lemma ProductionIgnoresMaterialPrices(t: RecipeTable, rank: map<Item, nat>, p1: Prices, p2: Prices, it: Item,
                                        bonus: real, salary: real)
    requires Ranked(t, rank)
    requires (it in p1 <==> it in p2) && (it in p1 ==> p1[it] == p2[it])
    ensures Profitability(t, rank, p1, it, bonus, salary, FromProduction) ==
            Profitability(t, rank, p2, it, bonus, salary, FromProduction)
  {
  }

  /** The next material extends the market cost, or makes it missing when it is unpriced. */
  lemma MarketCostStep(prices: Prices, mats: seq<Material>, k: nat)
    requires k < |mats|
    ensures MarketCost(prices, mats[..k + 1]) ==
      match MarketCost(prices, mats[..k])
      case None => None
      case Some(c) => if Unpriced(prices, mats[k].item) then None else Some(c + prices[mats[k].item] * mats[k].qty as real)
  {
    assert mats[..k + 1][..k] == mats[..k];
  }

  /**
   * The `matCost` loop of `calculateProfitability`: the sum of price times
   * quantity, returning null at the first unpriced material.
   */
  method MaterialCost(prices: Prices, mats: seq<Material>) returns (r: Option<real>)
    ensures r == MarketCost(prices, mats)
  {
    var matCost := 0.0;
    var k := 0;
    while k < |mats|
      invariant 0 <= k <= |mats|
      invariant MarketCost(prices, mats[..k]) == Some(matCost)
    {
      MarketCostStep(prices, mats, k);
      if Unpriced(prices, mats[k].item) {
        MarketCostStops(prices, mats, k + 1);
        return None;
      }
      matCost := matCost + prices[mats[k].item] * mats[k].qty as real;
      k := k + 1;
    }
    assert mats[..k] == mats;
    return Some(matCost);
  }

  /**
   * `calculateProfitability` as the page runs it, the `matCost` loop
   * included.
   */
  method CalculateProfitability(t: RecipeTable, ghost rank: map<Item, nat>, prices: Prices, it: Item,
                                bonus: real, salary: real, source: Source) returns (r: Option<Profit>)
    requires Ranked(t, rank)
    ensures r == Profitability(t, rank, prices, it, bonus, salary, source)
  {
    if it !in t || NoSellPrice(prices, it) {
      return None;
    }
    var recipe, sell := t[it], prices[it];
    if recipe.materials == [] {
      return Some(ProfitOf(sell, 0.0, recipe.pp as real, bonus, salary));
    }
    if source == Market {
      var matCost := MaterialCost(prices, recipe.materials);
      if matCost.None? {
        return None;
      }
      return Some(ProfitOf(sell, matCost.value, recipe.pp as real, bonus, salary));
    }
    if source == FromProduction {
      var total := CalculatePPTotal(t, rank, it);
      if total.None? {
        return None;
      }
      return Some(ProfitOf(sell, 0.0, total.value as real, bonus, salary));
    }
    return None;
  }

  /** Once a prefix of the materials has no market cost, no longer prefix has one. */
  lemma {:induction false} MarketCostStops(prices: Prices, mats: seq<Material>, n: nat)
    requires n <= |mats| && MarketCost(prices, mats[..n]).None?
    ensures MarketCost(prices, mats).None?
    decreases |mats| - n
  {
    if n < |mats| {
      assert mats[..n + 1][..n] == mats[..n];
      MarketCostStops(prices, mats, n + 1);
    } else {
      assert mats[..n] == mats;
    }
  }
}
