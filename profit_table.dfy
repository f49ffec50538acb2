/**
 * `calculateAllProfitabilities`: the rows of the profit table. Both pages
 * walk their display order, skip unpriced items (and, on the current page,
 * the excluded case), show the sell price, the market figure only for items
 * with materials, and the production figure.
 */
module ProfitTable {
  import opened Wrappers
  import opened Recipes
  import opened Production

  /** One calculator page: its recipe table, its display order and the ids its loop always skips. */
  datatype Page = Page(t: RecipeTable, order: seq<Item>, excluded: set<Item>)

  /** The market cell: a dash for an item without materials, otherwise the market figure (null shows a dash). */
  datatype MarketCell = NoMaterials | MarketProfit(profit: Option<Profit>)

  datatype Row = Row(item: Item, title: string, colorClass: string, sellPrice: real,
                     market: MarketCell, production: Option<Profit>)

  /**
   * What the loop leaves in the table body: untouched when the salary is
   * NaN; otherwise the rows, and if a shown item has no recipe, the rows
   * appended before the `recipe.materials` lookup threw at it.
   */
  datatype Render = Untouched | Rendered(rows: seq<Row>) | Aborted(rows: seq<Row>, at: Item)

  /** `!prices[id]`, or an id the page always skips. */
  predicate Skipped(page: Page, prices: Prices, it: Item)
  {
    Unpriced(prices, it) || it in page.excluded
  }

  /** The row of a shown item with a recipe. */
  function RowOf(page: Page, ghost rank: map<Item, nat>, prices: Prices, bonus: real, salary: real, it: Item): (row: Row)
    requires Ranked(page.t, rank) && it in page.t && it in prices
    ensures row.item == it && row.sellPrice == prices[it]
    ensures row.market.NoMaterials? <==> Raw(page.t[it])
    ensures row.market.MarketProfit? ==> row.market.profit == Profitability(page.t, rank, prices, it, bonus, salary, Market)
    ensures row.production == Profitability(page.t, rank, prices, it, bonus, salary, FromProduction)
  {
    Row(it, Title(it), ColorClass(it), prices[it],
        if page.t[it].materials == [] then NoMaterials
        else MarketProfit(Profitability(page.t, rank, prices, it, bonus, salary, Market)),
        Profitability(page.t, rank, prices, it, bonus, salary, FromProduction))
  }

  /** The loop after the first n display entries. */
  function TableUpTo(page: Page, ghost rank: map<Item, nat>, prices: Prices, bonus: real, salary: real, n: nat): (r: Render)
    requires Ranked(page.t, rank) && n <= |page.order|
    ensures !r.Untouched?
  {
    if n == 0 then Rendered([])
    else
      var prev := TableUpTo(page, rank, prices, bonus, salary, n - 1);
      var it := page.order[n - 1];
      if !prev.Rendered? || Skipped(page, prices, it) then prev
      else if it !in page.t then Aborted(prev.rows, it)
      else Rendered(prev.rows + [RowOf(page, rank, prices, bonus, salary, it)])
  }

  /** `calculateAllProfitabilities`: nothing happens when the salary does not parse. */
  function Table(page: Page, ghost rank: map<Item, nat>, prices: Prices, bonus: real, salary: Option<real>): Render
    requires Ranked(page.t, rank)
  {
    if salary.None? then Untouched else TableUpTo(page, rank, prices, bonus, salary.value, |page.order|)
  }

  /** The display entries of the first n that the loop does not skip, in display order. */
  function Shown(page: Page, prices: Prices, n: nat): (s: seq<Item>)
    requires n <= |page.order|
    ensures |s| <= n
  {
    if n == 0 then []
    else Shown(page, prices, n - 1) + (if Skipped(page, prices, page.order[n - 1]) then [] else [page.order[n - 1]])
  }

  /** The shown entries are exactly the entries of the first n that are not skipped. */
  lemma {:induction false} ShownExactly(page: Page, prices: Prices, n: nat)
    requires n <= |page.order|
    ensures forall k :: 0 <= k < |Shown(page, prices, n)| ==>
      !Skipped(page, prices, Shown(page, prices, n)[k]) && Shown(page, prices, n)[k] in page.order[..n]
    ensures forall j :: 0 <= j < n && !Skipped(page, prices, page.order[j]) ==> page.order[j] in Shown(page, prices, n)
  {
    if n > 0 {
      ShownExactly(page, prices, n - 1);
      assert page.order[..n] == page.order[..n - 1] + [page.order[n - 1]];
    }
  }

  /**
   * The loop renders a row for each shown entry, in order, unless a shown
   * entry has no recipe; then it stops at the first such entry with the rows
   * of the entries before it.
   */
  lemma {:induction false} TableRows(page: Page, rank: map<Item, nat>, prices: Prices, bonus: real, salary: real, n: nat)
    requires Ranked(page.t, rank) && n <= |page.order|
    ensures forall k :: 0 <= k < |Shown(page, prices, n)| ==> Shown(page, prices, n)[k] in prices
    ensures var r, s := TableUpTo(page, rank, prices, bonus, salary, n), Shown(page, prices, n);
      && (r.Rendered? <==> forall k :: 0 <= k < |s| ==> s[k] in page.t)
      && (r.Rendered? ==> |r.rows| == |s|)
      && (r.Aborted? ==> |r.rows| < |s| && s[|r.rows|] == r.at && r.at !in page.t)
      && (forall k :: 0 <= k < |r.rows| ==> s[k] in page.t && r.rows[k] == RowOf(page, rank, prices, bonus, salary, s[k]))
  {
    ShownExactly(page, prices, n);
    if n > 0 {
      TableRows(page, rank, prices, bonus, salary, n - 1);
      var prev, before := TableUpTo(page, rank, prices, bonus, salary, n - 1), Shown(page, prices, n - 1);
      var r, s := TableUpTo(page, rank, prices, bonus, salary, n), Shown(page, prices, n);
      var it := page.order[n - 1];
      if Skipped(page, prices, it) {
        assert r == prev && s == before;
      } else {
        assert s == before + [it];
        assert forall k :: 0 <= k < |before| ==> s[k] == before[k];
        if !prev.Rendered? {
          assert r == prev;
        } else if it !in page.t {
          assert r == Aborted(prev.rows, it);
        } else {
          assert r.rows == prev.rows + [RowOf(page, rank, prices, bonus, salary, it)];
        }
      }
    }
  }

  /** When every listed entry outside the page's exclusions has a recipe, the loop never stops early. */
  lemma TableRendered(page: Page, rank: map<Item, nat>, prices: Prices, bonus: real, salary: real)
    requires Ranked(page.t, rank) && ListedHaveRecipes(page.order, page.t, page.excluded)
    ensures Table(page, rank, prices, bonus, Some(salary)).Rendered?
  {
    var n := |page.order|;
    ShownExactly(page, prices, n);
    TableRows(page, rank, prices, bonus, salary, n);
    var s := Shown(page, prices, n);
    forall k | 0 <= k < |s|
      ensures s[k] in page.t
    {
      var j :| 0 <= j < n && page.order[..n][j] == s[k];
      assert page.order[j] == s[k];
    }
  }

  /**
   * `calculateAllProfitabilities` as the page runs it: a loop over the
   * display order that appends one row per shown item.
   */
  method CalculateAllProfitabilities(page: Page, ghost rank: map<Item, nat>, prices: Prices, bonus: real, salary: Option<real>)
    returns (r: Render)
    requires Ranked(page.t, rank)
    ensures r == Table(page, rank, prices, bonus, salary)
  {
    if salary.None? {
      return Untouched;
    }
    var rows: seq<Row> := [];
    var n := 0;
    while n < |page.order|
      invariant 0 <= n <= |page.order|
      invariant TableUpTo(page, rank, prices, bonus, salary.value, n) == Rendered(rows)
    {
      var it := page.order[n];
      if !Skipped(page, prices, it) {
        if it !in page.t {
          AbortedStays(page, rank, prices, bonus, salary.value, n + 1);
          return Aborted(rows, it);
        }
        var market := NoMaterials;
        if page.t[it].materials != [] {
          var p := CalculateProfitability(page.t, rank, prices, it, bonus, salary.value, Market);
          market := MarketProfit(p);
        }
        var production := CalculateProfitability(page.t, rank, prices, it, bonus, salary.value, FromProduction);
        rows := rows + [Row(it, Title(it), ColorClass(it), prices[it], market, production)];
      }
      n := n + 1;
    }
    return Rendered(rows);
  }

  /** Once the loop has stopped at an entry, the later entries change nothing. */
  lemma {:induction false} AbortedStays(page: Page, rank: map<Item, nat>, prices: Prices, bonus: real, salary: real, n: nat)
    requires Ranked(page.t, rank) && n <= |page.order|
    requires TableUpTo(page, rank, prices, bonus, salary, n).Aborted?
    ensures TableUpTo(page, rank, prices, bonus, salary, |page.order|) == TableUpTo(page, rank, prices, bonus, salary, n)
    decreases |page.order| - n
  {
    if n < |page.order| {
      AbortedStays(page, rank, prices, bonus, salary, n + 1);
    }
  }

  /** The current page: the current tables, skipping the case. */
  const ConfigPage: Page := Page(ConfigRecipes, ConfigOrder, {Case1})

  /**
   * On the current page the loop never stops early, and every row is a
   * priced item other than the case.
   */
  lemma ConfigTable(prices: Prices, bonus: real, salary: real)
    ensures Ranked(ConfigRecipes, RawRank(ConfigRecipes))
    ensures Table(ConfigPage, RawRank(ConfigRecipes), prices, bonus, Some(salary)).Rendered?
    ensures var rows := Table(ConfigPage, RawRank(ConfigRecipes), prices, bonus, Some(salary)).rows;
      forall k :: 0 <= k < |rows| ==> rows[k].item != Case1 && !Unpriced(prices, rows[k].item)
  {
    ConfigRanked();
    ConfigListedHaveRecipes();
    var rank, n := RawRank(ConfigRecipes), |ConfigOrder|;
    TableRendered(ConfigPage, rank, prices, bonus, salary);
    TableRows(ConfigPage, rank, prices, bonus, salary, n);
    ShownExactly(ConfigPage, prices, n);
  }
}
