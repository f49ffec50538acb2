/**
 * The static data of the production calculator: the items, the order in
 * which the profit table lists them, their labels and colour classes, and the recipe of each item.
 * A recipe gives the production points (pp) one unit takes and the
 * materials it consumes, in the order the recipe object lists them.
 */
module Recipes {
  /** Every item id the two calculators mention. */
  datatype Item =
    | Petroleum | Lead | Coca | Iron | Fish | Livestock | Grain | Limestone
    | Oil | LightAmmo | Bread | Steel | Concrete | Ammo | Steak | HeavyAmmo
    | Cocain | CookedFish | Case1

  datatype Material = Material(item: Item, qty: nat)

  datatype Recipe = Recipe(pp: nat, materials: seq<Material>)

  type RecipeTable = map<Item, Recipe>

  /** A recipe that consumes nothing. */
  predicate Raw(r: Recipe)
  {
    r.materials == []
  }

  /** Every material of every recipe has a recipe of its own, and that recipe is raw. */
  ghost predicate MaterialsAreRaw(t: RecipeTable)
  {
    forall it, k :: it in t && 0 <= k < |t[it].materials| ==>
      t[it].materials[k].item in t && Raw(t[t[it].materials[k].item])
  }

  /** Every recipe takes at least one point and every material quantity is at least one. */
  ghost predicate PositiveAmounts(t: RecipeTable)
  {
    forall it :: it in t ==>
      t[it].pp >= 1 && forall k :: 0 <= k < |t[it].materials| ==> t[it].materials[k].qty >= 1
  }

  /** Every listed item outside `except` has a recipe. */
  ghost predicate ListedHaveRecipes(order: seq<Item>, t: RecipeTable, except: set<Item>)
  {
    forall k :: 0 <= k < |order| && order[k] !in except ==> order[k] in t
  }

  /** No item is listed twice. */
  ghost predicate DistinctIds(order: seq<Item>)
  {
    forall a, b :: 0 <= a < b < |order| ==> order[a] != order[b]
  }

  /** The label of an item in the profit table. */
  function Title(it: Item): string
  {
    match it
    case Petroleum => "Petroleum" case Lead => "Lead" case Coca => "Mysterious plant"
    case Iron => "Iron" case Fish => "Fish" case Livestock => "Livestock" case Grain => "Grain"
    case Limestone => "Limestone" case Oil => "Oil" case LightAmmo => "Light ammo"
    case Bread => "Bread" case Steel => "Steel" case Concrete => "Concrete" case Ammo => "Ammo"
    case Steak => "Steak" case HeavyAmmo => "Heavy ammo" case Cocain => "Pill"
    case CookedFish => "Cooked fish" case Case1 => "Case"
  }

  /** The colour class of an item's label: raw resources grey, then green, blue, purple and gold by tier. */
  function ColorClass(it: Item): string
  {
    match it
    case Petroleum | Lead | Coca | Iron | Fish | Livestock | Grain | Limestone => "dark-gray"
    case Oil | LightAmmo | Bread | Steel | Concrete => "dark-green"
    case Ammo | Steak => "dark-blue"
    case HeavyAmmo | Cocain | CookedFish => "purple"
    case Case1 => "gold"
  }

  /** The item ids of the current profit table, in display order. */
  const ConfigOrder: seq<Item> := [
    Petroleum, Lead, Coca, Iron, Fish, Livestock, Grain, Limestone,
    Oil, LightAmmo, Bread, Steel, Concrete, Ammo, Steak, HeavyAmmo, Cocain, CookedFish, Case1]

  /** The recipe of each item in the current table; the case has none. */
  function ConfigRecipe(it: Item): Recipe
  {
    match it
    case Grain => Recipe(1, [])
    case Petroleum => Recipe(1, [])
    case Coca => Recipe(1, [])
    case Lead => Recipe(1, [])
    case Iron => Recipe(1, [])
    case Limestone => Recipe(1, [])
    case Oil => Recipe(1, [Material(Petroleum, 1)])
    case LightAmmo => Recipe(1, [Material(Lead, 1)])
    case Ammo => Recipe(4, [Material(Lead, 4)])
    case Livestock => Recipe(20, [])
    case Bread => Recipe(10, [Material(Grain, 10)])
    case Concrete => Recipe(10, [Material(Limestone, 10)])
    case Steel => Recipe(10, [Material(Iron, 10)])
    case HeavyAmmo => Recipe(16, [Material(Lead, 16)])
    case Steak => Recipe(20, [Material(Livestock, 1)])
    case Fish => Recipe(40, [])
    case CookedFish => Recipe(40, [Material(Fish, 1)])
    case Cocain => Recipe(200, [Material(Coca, 200)])
    case Case1 => Recipe(0, [])
  }

  /** The current recipe table: every item except the case. */
  const ConfigRecipes: RecipeTable := map it: Item | it != Case1 :: ConfigRecipe(it)

  /** When each listed item can be mapped back to its own position, no item is listed twice. */
  lemma DistinctByPosition(order: seq<Item>, position: Item -> nat)
    requires forall k :: 0 <= k < |order| ==> position(order[k]) == k
    ensures DistinctIds(order)
  {
    forall a, b | 0 <= a < b < |order|
      ensures order[a] != order[b]
    {
      assert position(order[a]) == a && position(order[b]) == b;
    }
  }

  /** Where each item stands in the current profit table. */
  function ConfigPosition(it: Item): nat
  {
    match it
    case Petroleum => 0 case Lead => 1 case Coca => 2 case Iron => 3 case Fish => 4
    case Livestock => 5 case Grain => 6 case Limestone => 7 case Oil => 8 case LightAmmo => 9
    case Bread => 10 case Steel => 11 case Concrete => 12 case Ammo => 13 case Steak => 14
    case HeavyAmmo => 15 case Cocain => 16 case CookedFish => 17 case Case1 => 18
  }

  /** One recipe of the current table: positive amounts, and every material is a raw item with a recipe. */
  lemma ConfigRecipeShape(it: Item)
    requires it != Case1
    ensures ConfigRecipe(it).pp >= 1
    ensures forall k :: 0 <= k < |ConfigRecipe(it).materials| ==>
      var m := ConfigRecipe(it).materials[k];
      m.qty >= 1 && m.item != Case1 && Raw(ConfigRecipe(m.item))
  {
    match it
    case Grain => case Petroleum => case Coca => case Lead => case Iron => case Limestone =>
    case Livestock => case Fish =>
    case Oil => assert ConfigRecipe(it).materials == [Material(Petroleum, 1)];
    case LightAmmo => assert ConfigRecipe(it).materials == [Material(Lead, 1)];
    case Ammo => assert ConfigRecipe(it).materials == [Material(Lead, 4)];
    case Bread => assert ConfigRecipe(it).materials == [Material(Grain, 10)];
    case Concrete => assert ConfigRecipe(it).materials == [Material(Limestone, 10)];
    case Steel => assert ConfigRecipe(it).materials == [Material(Iron, 10)];
    case HeavyAmmo => assert ConfigRecipe(it).materials == [Material(Lead, 16)];
    case Steak => assert ConfigRecipe(it).materials == [Material(Livestock, 1)];
    case CookedFish => assert ConfigRecipe(it).materials == [Material(Fish, 1)];
    case Cocain => assert ConfigRecipe(it).materials == [Material(Coca, 200)];
  }

  /** Every recipe of the current table is at most one level deep and has positive amounts. */
  lemma ConfigRecipesWellFormed()
    ensures MaterialsAreRaw(ConfigRecipes) && PositiveAmounts(ConfigRecipes)
  {
    var t := ConfigRecipes;
    forall it, k | it in t && 0 <= k < |t[it].materials|
      ensures t[it].materials[k].item in t && Raw(t[t[it].materials[k].item])
    {
      ConfigRecipeShape(it);
      var m := ConfigRecipe(it).materials[k];
      assert t[m.item] == ConfigRecipe(m.item);
    }
    forall it | it in t
      ensures t[it].pp >= 1 && forall k :: 0 <= k < |t[it].materials| ==> t[it].materials[k].qty >= 1
    {
      ConfigRecipeShape(it);
    }
  }

  lemma ConfigPositions()
    ensures forall k :: 0 <= k < |ConfigOrder| ==> ConfigPosition(ConfigOrder[k]) == k
  {
  }

  /** Every listed item except the case has a recipe, and the case has none. */
  lemma ConfigListedHaveRecipes()
    ensures ListedHaveRecipes(ConfigOrder, ConfigRecipes, {Case1}) && Case1 !in ConfigRecipes
  {
  }

  /** No item is listed twice in the current profit table. */
  lemma ConfigOrderDistinct()
    ensures DistinctIds(ConfigOrder)
  {
    ConfigPositions();
    DistinctByPosition(ConfigOrder, ConfigPosition);
  }
}
