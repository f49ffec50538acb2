/**
 * The older calculator page: its own display order and recipe table,
 * which lack petroleum, oil and the case, run through the same
 * `calculatePPTotal`, `calculateProfitability` and table loop as the
 * current page; its loop skips only unpriced items.
 */
module Legacy {
  import opened Wrappers
  import opened Recipes
  import opened Production
  import opened ProfitTable

  /** The item ids of the older profit table, in display order. */
  const LegacyOrder: seq<Item> := [
    Lead, Coca, Iron, Fish, Livestock, Grain, Limestone,
    LightAmmo, Bread, Steel, Concrete, Ammo, Steak, HeavyAmmo, Cocain, CookedFish]

  /** The older recipe table: the current recipes without petroleum and oil (and no case). */
  const LegacyRecipes: RecipeTable := map it: Item | it != Petroleum && it != Oil && it != Case1 :: ConfigRecipe(it)

  /** The older page skips no item by id. */
  const LegacyPage: Page := Page(LegacyRecipes, LegacyOrder, {})

  /** Every recipe of the older table is at most one level deep and has positive amounts. */
  lemma LegacyRecipesWellFormed()
    ensures MaterialsAreRaw(LegacyRecipes) && PositiveAmounts(LegacyRecipes)
  {
    var t := LegacyRecipes;
    forall it, k | it in t && 0 <= k < |t[it].materials|
      ensures t[it].materials[k].item in t && Raw(t[t[it].materials[k].item])
    {
      ConfigRecipeShape(it);
      var m := ConfigRecipe(it).materials[k];
      assert m.item != Petroleum;
      assert t[m.item] == ConfigRecipe(m.item);
    }
    forall it | it in t
      ensures t[it].pp >= 1 && forall k :: 0 <= k < |t[it].materials| ==> t[it].materials[k].qty >= 1
    {
      ConfigRecipeShape(it);
    }
  }

  /** Where each item stands in the older profit table. */
  function LegacyPosition(it: Item): nat
  {
    match it
    case Lead => 0 case Coca => 1 case Iron => 2 case Fish => 3 case Livestock => 4
    case Grain => 5 case Limestone => 6 case LightAmmo => 7 case Bread => 8 case Steel => 9
    case Concrete => 10 case Ammo => 11 case Steak => 12 case HeavyAmmo => 13 case Cocain => 14
    case CookedFish => 15 case Petroleum => 16 case Oil => 17 case Case1 => 18
  }

  lemma LegacyPositions()
    ensures forall k :: 0 <= k < |LegacyOrder| ==> LegacyPosition(LegacyOrder[k]) == k
  {
  }

  /** Every listed item of the older page has a recipe. */
  lemma LegacyListedHaveRecipes()
    ensures ListedHaveRecipes(LegacyOrder, LegacyRecipes, {})
  {
  }

  /** No item is listed twice in the older profit table. */
  lemma LegacyOrderDistinct()
    ensures DistinctIds(LegacyOrder)
  {
    LegacyPositions();
    DistinctByPosition(LegacyOrder, LegacyPosition);
  }

  /** The older table's totals agree with the current table's wherever the older table has a recipe. */
  lemma LegacyTotals(it: Item)
    ensures Ranked(LegacyRecipes, RawRank(LegacyRecipes))
    ensures TotalPP(LegacyRecipes, RawRank(LegacyRecipes), it) ==
      if it == Petroleum || it == Oil || it == Case1 then None else Some(ConfigTotal(it))
  {
    LegacyRecipesWellFormed();
    RawRankRanked(LegacyRecipes);
    if it in LegacyRecipes {
      TotalPPOfShallow(LegacyRecipes, RawRank(LegacyRecipes), it);
      ConfigTotals(it);
      TotalPPExtend(LegacyRecipes, RawRank(LegacyRecipes), ConfigRecipes, RawRank(ConfigRecipes), it);
    }
  }

  /**
   * On the older page the loop never stops early, and its rows never show
   * petroleum, oil or the case.
   */
  lemma LegacyTable(prices: Prices, bonus: real, salary: real)
    ensures Ranked(LegacyRecipes, RawRank(LegacyRecipes))
    ensures Table(LegacyPage, RawRank(LegacyRecipes), prices, bonus, Some(salary)).Rendered?
    ensures var rows := Table(LegacyPage, RawRank(LegacyRecipes), prices, bonus, Some(salary)).rows;
      forall k :: 0 <= k < |rows| ==> rows[k].item !in {Petroleum, Oil, Case1} && !Unpriced(prices, rows[k].item)
  {
    LegacyRecipesWellFormed();
    RawRankRanked(LegacyRecipes);
    LegacyListedHaveRecipes();
    var rank, n := RawRank(LegacyRecipes), |LegacyOrder|;
    TableRendered(LegacyPage, rank, prices, bonus, salary);
    TableRows(LegacyPage, rank, prices, bonus, salary, n);
    ShownExactly(LegacyPage, prices, n);
  }
}
