# WarEra Helper — a verified model of its calculators

WarEra Helper is a set of browser pages for the game WarEra. This project models the
logic behind five of them in Dafny and proves properties of that model.

- **Fight-build optimiser** (`fight_build.js`). It enumerates every way to put levels
  0..10 into eight combat skills, 11^8 vectors in all. It drops any vector that costs
  more skill points than the budget and scores the rest with a daily-damage formula.
  It works in chunks of 50000 vectors and writes a progress percentage after each
  chunk. At the end it sorts by descending damage and shows the first ten builds.
- **Background-worker version of the optimiser** (`fight_build_worker.js`). It adds
  equipment bonuses to the skill values and uses a slightly different damage formula.
  It posts `{progress}` and `{done, results}` messages back to the page.
- **Production-profit calculator** (`production_profit.js` with the tables of
  `config.js`, and the older `script.js` with its own tables).
  - `calculatePPTotal` gives an item's total production points: its own points plus
    the quantity-weighted totals of its materials.
  - `calculateProfitability` gives the profit ratio `(sell - cost) / cost`. It buys
    the materials on the market or pays labour for producing them.
  - `calculateAllProfitabilities` fills one table row per priced item.
- **Military-unit members page** (`mu_players.js`). It sums the skill points each
  member has spent on fight skills and on economy skills. It derives the two shares
  as rounded percentages and shows the time until the member may reset skills. It
  counts fight, economy and hybrid builds among members of level 3 and up.
- **Country players page** (`country_players.js`). It uses the same per-player
  figures, with a reset-time function that lacks the missing-date test.

## Structure

| module | file | contents |
|---|---|---|
| `Wrappers` | wrappers.dfy | `Option` |
| `Digits` | digits.dfy | `indexToCombo` as base-b decoding, and its inverse |
| `Combat` | combat.dfy | skill tables, cost row, cost of a vector, attacks per day |
| `Search` | search.dfy | index space, budget filter, generic chunk scan, progress percentages |
| `FightBuild` | fight_build.dfy | effective skills and the page's damage formula |
| `Ranking` | ranking.dfy | sort by descending damage, and the first n |
| `FightSearch` | fight_search.dfy | the page's chunked search as a class (`BuildSearch`) |
| `FightWorker` | fight_worker.dfy | worker skills and formula; the worker as written (`WorkerSearch`) and corrected |
| `Recipes` | recipes.dfy | items, labels, colour classes, the current display order and recipe table |
| `Production` | production.dfy | total production points, market cost, profitability |
| `ProfitTable` | profit_table.dfy | the row loop of the profit table, for any page |
| `Legacy` | legacy.dfy | the older page's order and recipes, run through the same code |
| `SkillPoints` | skill_points.dfy | the members page helpers and its counting loop |
| `CountryPlayers` | country_players.dfy | the country page's helpers |

Modelling choices:

- **Numbers.** Floating-point numbers are modelled as `real`. `Math.floor` is `.Floor`.
  `Math.round(x)` is `floor(x + 0.5)`. Integer division is written out where the code
  floors a quotient.
- **Division by zero** is modelled where it can happen.
  - The damage formulas become `NonFinite` when armor is exactly 1.
  - A profitability becomes `PosInfinity`, `NegInfinity` or `NotANumber`, as the page's
    floating-point division would give.
- **`toFixed(0)`** is modelled as rounding half up. The share of part `p` in total `t`
  is then `(200p + t) div 2t`.
- **Reset times** use integer milliseconds. The current time is a parameter `now`, and
  a missing reset date is `None`.

`calculateProfitability` and `calculatePPTotal` are textually the same in
`production_profit.js` and `script.js`. Both pages therefore use one definition, generic
in the recipe table. The two pages differ in two ways:

- their tables and display orders;
- the skip test of their loop: the current page also skips `case1`.

`sumSkillPoints` is identical in the two player pages and is defined once.

Facts about the code that shape the model:

- Neither formula clamps armor, so armor 1 divides by zero and the model carries
  `NonFinite` for it.
- The worker as written throws before it keeps any build (see Findings).
- Progress is floored (`Math.floor(i / totalCombos * 100)`), so successive reports can
  repeat a value. The model proves that they never decrease.
- The worker receives `prices` and declares `craftTable`, but never uses either.

## Model

| member | source | states |
|---|---|---|
| Combat.TableFormulas | assets/fight_build.js:6-15 | each skill table is the affine progression in the level that its literal lists (attack 100+20l, precision 0.5+0.05l, …, hunger 4+l) |
| Combat.TableBounds | assets/fight_build.js:6-15 | range of every table entry: attack 100..300, precision 0.5..1, armor and dodge 0..0.4, and so on |
| Combat.CostRowShape | assets/fight_build.js:18 | the cost row has 11 entries, entry l is the triangular number l(l+1)/2, it is strictly increasing and zero only at level 0 |
| Combat.ComboCostAppend | assets/fight_build.js:100 | the reduced cost of a concatenation is the sum of the costs of its parts |
| Combat.ComboCostZero | assets/fight_build.js:100 | a level vector costs 0 points exactly when every level is 0 |
| Combat.ComboCostBound | assets/fight_build.js:100 | a level vector costs at most 55 points per skill |
| Combat.RoundBounds | assets/fight_build.js:74 | `Math.round(x)` lies within half a unit of x and is monotone in x |
| Combat.DailyHealthNonNegative | assets/fight_build.js:64 | daily health `health*2.4 + floor(hunger*2.4)*regen` is non-negative for non-negative inputs |
| Combat.WholeAttacksMonotone | assets/fight_build.js:66-67 | `floor(health / (10(1-armor)))` is non-negative and grows with armor below 1 |
| Combat.WithDodgeMonotone | assets/fight_build.js:66-68 | `floor(w(1+dodge))` is non-negative and grows with both w and dodge |
| Combat.AttacksNonNegative | assets/fight_build.js:64-68 | attacks per day are non-negative for every physical skill set |
| Combat.AttacksMonotone | assets/fight_build.js:64-68 | with the same health and hunger, more armor and more dodge never give fewer attacks per day |
| Digits.Pow | assets/fight_build.js:90 | a positive base to any power is positive, so the index space is non-empty |
| Digits.Decode | assets/fight_build.js:53-60 | `indexToCombo` yields exactly numRows digits, each below numCols |
| Digits.IndexToCombo | assets/fight_build.js:53-60 | the unshift/divide loop returns the decoding, whose base-b value is the index modulo b^n |
| Digits.ValueOfDecode | assets/fight_build.js:53-60 | the value of the decoded digits is the index modulo b^n |
| Digits.ValueBound | assets/fight_build.js:53-60 | n digits below b have a value below b^n |
| Digits.DecodeOfValue | assets/fight_build.js:53-60 | decoding the value of a digit vector gives that vector back |
| Digits.DecodeRoundTrip | assets/fight_build.js:53-60 | for an index below b^n, its decoding's value is that index |
| Digits.DecodeInjective | assets/fight_build.js:53-60 | distinct indices below b^n decode to distinct level vectors, so no build is visited twice |
| Digits.DecodeZero | assets/fight_build.js:53-60 | index 0 decodes to the all-zero vector |
| Digits.ValueOfZeros | assets/fight_build.js:53-60 | the all-zero vector has value 0 |
| Digits.OnlyZeroDecodesToZeros | assets/fight_build.js:53-60 | below b^n, only index 0 decodes to the all-zero vector |
| FightBuild.SkillsOf | assets/fight_build.js:103-112 | the effective skills of a level vector lie in the table ranges: precision at most 1, armor and dodge at most 0.4, and so on |
| FightBuild.PerAttackClosedForm | assets/fight_build.js:70-72 | miss + normal + crit damage equals attack·(1 + precision·critChance·(critDamage − 1)) |
| FightBuild.EvaluateDamage | assets/fight_build.js:63-77 | the daily damage is non-finite exactly when armor is 1 |
| FightBuild.PerAttackNonNegative | assets/fight_build.js:70-72 | the expected hit is non-negative for chances in 0..1 and a crit multiplier of at least 1 |
| FightBuild.DamageNonNegative | assets/fight_build.js:63-77 | daily damage is non-negative for every sane skill set and non-negative ammo |
| FightBuild.PerAttackMonotone | assets/fight_build.js:70-72 | the expected hit never decreases when attack, precision, crit chance or crit damage increase |
| FightBuild.RoundMonotone | assets/fight_build.js:74 | rounding maps non-negative reals monotonically to non-negative integers |
| FightBuild.BoostedMonotone | assets/fight_build.js:74 | the rounded ammo-boosted hit is non-negative and monotone in the four hit skills |
| FightBuild.DamageFromFactors | assets/fight_build.js:74 | the daily damage is monotone in its two factors |
| FightBuild.DamageMonotone | assets/fight_build.js:63-77 | with the same health and hunger, raising any of the other six skills never lowers the daily damage |
| Ranking.Insert | assets/fight_build.js:132 | inserting adds exactly one element (a multiset sum) and keeps a descending sequence descending |
| Ranking.SortDesc | assets/fight_build.js:132 | the sort result is a permutation of its input, sorted by descending daily damage |
| Ranking.Top | assets/fight_build.js:133 | `slice(0, n)` is the prefix of length min(n, length) |
| Ranking.TopOfSorted | assets/fight_build.js:132-133 | the shown builds number min(10, kept), are sorted, come from the kept builds, and are all of them when at most ten were kept |
| Ranking.TopLeavesOutNoBetter | assets/fight_build.js:132-133 | a kept build left out of the top n means n builds were shown, and it does no more damage than the last one shown |
| Search.TotalCombos | assets/fight_build.js:90 | the index space is non-empty |
| Search.TotalCombosIsPow | assets/fight_build.js:88-90 | the numeral used equals 11^8, `Math.pow(numLevels, numSkills)` |
| Search.ComboAt | assets/fight_build.js:99 | every index decodes to eight levels, each within 0..10 |
| Search.PercentShape | assets/fight_build.js:125 | progress is 0 at the start, 100 at the end, and never decreases as the cursor advances |
| Search.CursorShape | assets/fight_build.js:97-98 | after n chunks the cursor is n·50000, capped at 11^8, and it stays at 11^8 once there |
| Search.Percents | assets/fight_build.js:125-129 | the trace of percentages after n chunks has n entries |
| Search.PercentsAt | assets/fight_build.js:125 | entry k of the trace is the percentage at the end of chunk k+1 |
| Search.PercentsShape | assets/fight_build.js:125 | the trace is non-decreasing within 0..100 and ends at 100 after the last chunk |
| Search.RetainedCombo | assets/fight_build.js:99-101 | every level vector is visited at the index of its value, and it is kept exactly when its cost fits the budget |
| Search.IndexZeroRetained | assets/fight_build.js:99-101 | with a non-negative budget, index 0 is the all-zero build at cost 0 and is kept |
| Search.BudgetZeroRetainsOnlyZero | assets/fight_build.js:101 | with budget 0, index 0 is the only index kept |
| Search.ScanSplit | assets/fight_build.js:97-98 | scanning a range in two consecutive chunks pushes the same builds as scanning it at once |
| Search.ScanAt | assets/fight_build.js:98-122 | the pushed builds correspond, in order, to the accepted indices |
| Search.AcceptedExactly | assets/fight_build.js:98-101 | the accepted indices are exactly those of the range that pass the filter, in increasing order |
| Search.ScanComplete | assets/fight_build.js:98-121 | every index that passes the filter has its build pushed |
| Search.ScanMember | assets/fight_build.js:98-121 | every pushed build is the build of some index that passes the filter |
| Search.ScanSingle | assets/fight_build.js:98-121 | a range with a single index that passes the filter pushes exactly that index's build |
| FightSearch.KeptSplit | assets/fight_build.js:96-122 | the builds kept across chunks are the concatenation of those kept per chunk |
| FightSearch.KeptSound | assets/fight_build.js:98-121 | each kept build belongs to an in-range index within budget, and the indices increase |
| FightSearch.KeptComplete | assets/fight_build.js:98-121 | every in-range index within budget has its build kept |
| FightSearch.KeptMember | assets/fight_build.js:98-121 | every kept build comes from an in-range index within budget |
| FightSearch.KeptExactlyAffordable | assets/fight_build.js:99-101 | a level vector appears among the kept builds if and only if its cost fits the budget |
| FightSearch.KeptZeroBudget | assets/fight_build.js:99-101 | with budget 0 exactly one build is kept: the all-zero build at cost 0 |
| FightSearch.ScanChunk | assets/fight_build.js:97-122 | one chunk appends to the results exactly the scan of its index range |
| FightSearch.ShownIsPercents | assets/fight_build.js:125-126 | a shown progress trace is the initial 0 followed by the percentage after each chunk |
| FightSearch.AdvanceStep | assets/fight_build.js:97-126 | one chunk advances the cursor by at most 50000, appends its scan and reports the new percentage |
| FightSearch.FinishedAfterAllChunks | assets/fight_build.js:128-130 | the search stops exactly after the last chunk |
| FightSearch.BuildSearch.constructor | assets/fight_build.js:92-93 | a new search has cursor 0, no results, and shows 0% |
| FightSearch.BuildSearch.Advance | assets/fight_build.js:97-126 | the chunk moves the cursor to min(i+50000, 11^8), appends its scan and reports its percentage |
| FightSearch.BuildSearch.Finish | assets/fight_build.js:131-133 | at the end the results are sorted by damage and the first ten are shown |
| FightSearch.BuildSearch.ProcessChunk | assets/fight_build.js:96-153 | one scheduled run: a chunk, its percentage, and, after the last chunk, the top ten of all kept builds |
| FightSearch.BuildSearch.Run | assets/fight_build.js:96-155 | running every scheduled chunk shows the top ten of all kept builds, and shows the percentage after each chunk |
| FightSearch.FightBuildSearch | assets/fight_build.js:80-156 | the page shows the ten most damaging affordable builds, sorted, after 0% and each chunk's percentage |
| FightWorker.WorkerSkillsOf | assets/fight_build_worker.js:63-72 | each effective skill is its table value plus its equipment bonus; armor gets both chest and pants; health and hunger get no bonus |
| FightWorker.DivisorPositiveForAllBuilds | assets/fight_build_worker.js:68 | every build's armor stays below 1 if and only if the chest and pants bonuses sum to less than 0.6 |
| FightWorker.WorkerPerAttackClosedForm | assets/fight_build_worker.js:40-42 | the worker's expected hit is attack·((1+precision)/2 + precision·critChance·critDamage) |
| FightWorker.WorkerAgainstPage | assets/fight_build_worker.js:40-42 | the worker's hit differs from the page's by halving the miss damage and adding one extra crit unit |
| FightWorker.WorkerEvaluate | assets/fight_build_worker.js:37-44 | the worker's daily damage is non-finite exactly when armor is 1 |
| FightWorker.WorkerBoostedMonotone | assets/fight_build_worker.js:40-43 | the worker's rounded boosted hit is non-negative and monotone in the four hit skills |
| FightWorker.WorkerDamageFromFactors | assets/fight_build_worker.js:43 | the worker's damage is non-negative and monotone in its two factors |
| FightWorker.WorkerDamageMonotone | assets/fight_build_worker.js:37-44 | raising any of the six combat skills never lowers the worker's daily damage |
| FightWorker.WorkerExamine | assets/fight_build_worker.js:59-74 | the loop body up to the push: cost, budget test, boosted skills and damage of index j |
| FightWorker.ScanUntilThrow | assets/fight_build_worker.js:57-76 | the chunk loop either throws at the first index within budget or completes its range with none found |
| FightWorker.ReportStep | assets/fight_build_worker.js:78 | posting the progress of chunk n+1 extends a trace of n chunk reports |
| FightWorker.ReportedIsPercents | assets/fight_build_worker.js:78 | the posted progress messages are the chunk percentages in order |
| FightWorker.WorkerStep | assets/fight_build_worker.js:56-84 | a chunk either throws at a retained index, or posts its progress and, after the last chunk, `done` |
| FightWorker.WorkerSearch.constructor | assets/fight_build_worker.js:50-54 | a new worker search starts at index 0, with no results and no messages, and running |
| FightWorker.WorkerSearch.ProcessChunk | assets/fight_build_worker.js:56-85 | every scheduled run either posts a message or throws |
| FightWorker.WorkerSearch.Run | assets/fight_build_worker.js:56-87 | running the scheduled chunks ends in a throw or in `done` |
| FightWorker.WorkerOnMessage | assets/fight_build_worker.js:47-88 | as written, any budget ≥ 0 throws at index 0 before posting anything; a negative budget posts every percentage and then `done` with no results |
| FightWorker.PostChunks | assets/fight_build_worker.js:78-83 | the message loop posts one progress per chunk, then `done` with the shown builds |
| FightWorker.CorrectedWorker | assets/fight_build_worker.js:47-88 | the intended worker posts each chunk's percentage, then the ten most damaging affordable builds, sorted |
| Recipes.ConfigRecipeShape | assets/config.js:98-191 | each current recipe takes at least 1 point, and its materials have positive quantities and are raw items with recipes |
| Recipes.ConfigRecipesWellFormed | assets/config.js:98-191 | the current recipe table is at most one level deep and has positive amounts |
| Recipes.ConfigPositions | assets/config.js:1-96 | each item of the current display order sits at its own position |
| Recipes.ConfigListedHaveRecipes | assets/config.js:1-191 | every listed item except the case has a recipe, and the case has none |
| Recipes.ConfigOrderDistinct | assets/config.js:1-96 | no item is listed twice in the current profit table |
| Production.TotalPPDefined | assets/production_profit.js:94-104 | the total is defined exactly when every recipe reached exists; it is at least the item's own points; a raw item's total is its points |
| Production.MaterialsDefined | assets/production_profit.js:98-102 | the material loop yields a value exactly when every remaining material's total exists, and never lowers the running sum |
| Production.TotalPPExtend | assets/production_profit.js:94-104 | a defined total does not change when the recipe table is extended |
| Production.MaterialsExtend | assets/production_profit.js:98-102 | the defined sum of the material loop does not change when the recipe table is extended |
| Production.TotalPPOfShallow | assets/production_profit.js:94-104 | in a table whose materials are raw recipes, every item with a recipe has a total |
| Production.RawRankRanked | assets/production_profit.js:99 | when every material is raw, the recursion has a decreasing rank, so it terminates |
| Production.TotalPPSingle | assets/production_profit.js:97-103 | an item with one raw material totals its own points plus qty times the material's points |
| Production.TotalPPRaw | assets/production_profit.js:96-97 | a raw item totals its own points |
| Production.ConfigRanked | assets/config.js:98-191 | the recursion terminates on the current table |
| Production.ConfigRawTotal | assets/config.js:98-191 | each raw item of the current table totals its own points |
| Production.ConfigProductTotal | assets/config.js:98-191 | each one-material item of the current table totals its points plus qty times its material's points |
| Production.ConfigTotals | assets/config.js:98-191 | each item's total on the current table: the case has none, every other item has its listed figure (for example 400 for the pill, 40 for steak) |
| Production.CalculatePPTotal | assets/production_profit.js:94-104 | the recursive loop returns the total production points, or null when a recipe reached is missing |
| Production.ProfitOf | assets/production_profit.js:78-80 | a ratio satisfies ratio·cost = sell − cost at a non-zero cost, and a zero bonus divisor gives NaN |
| Production.ProfitSign | assets/production_profit.js:78-80 | at a positive cost the ratio is positive exactly when the sell price exceeds the cost, and it is at least −1 for a non-negative price |
| Production.MarketCostMissing | assets/production_profit.js:73-77 | the market cost is null exactly when some material is unpriced |
| Production.MarketCostNonNegative | assets/production_profit.js:73-77 | with non-negative prices, the market cost is non-negative |
| Production.ProfitabilityNull | assets/production_profit.js:61-92 | the figure is null exactly when the item has no recipe or no positive price, or when a product's market material is unpriced, its production recipes are incomplete, or the source is unknown |
| Production.RawIgnoresSource | assets/production_profit.js:66-70 | a raw item's figure is the labour-only ratio, whatever the source |
| Production.ProductionIgnoresMaterialPrices | assets/production_profit.js:83-89 | the production figure depends only on the item's own price, not its materials' prices |
| Production.MarketCostStep | assets/production_profit.js:74-77 | one iteration of the material loop adds price times quantity, or turns the cost null |
| Production.MaterialCost | assets/production_profit.js:73-77 | the early-returning loop computes the market cost of the materials |
| Production.CalculateProfitability | assets/production_profit.js:61-92 | the branching code computes the profitability figure of the item and source |
| Production.MarketCostStops | assets/production_profit.js:75 | once a prefix of the materials has a null cost, the whole list does too (the early return) |
| ProfitTable.RowOf | assets/production_profit.js:26-57 | a row shows the item's price; its market cell is a dash exactly for raw items; its cells hold the market and production figures |
| ProfitTable.TableUpTo | assets/production_profit.js:19-58 | the row loop always writes the table body |
| ProfitTable.Shown | assets/production_profit.js:25 | no more items are shown than are listed |
| ProfitTable.ShownExactly | assets/production_profit.js:25 | an item is shown if and only if it is listed, priced and not excluded |
| ProfitTable.TableRows | assets/production_profit.js:19-58 | the rows are the shown items in order; the loop completes exactly when every shown item has a recipe, and otherwise stops at the first that has none |
| ProfitTable.TableRendered | assets/production_profit.js:11-59 | when every listed, non-excluded item has a recipe, the table is rendered in full |
| ProfitTable.CalculateAllProfitabilities | assets/production_profit.js:11-59 | the DOM loop computes the table: untouched for a NaN salary, else the rows, or the rows before a missing recipe |
| ProfitTable.AbortedStays | assets/production_profit.js:42 | a missing recipe ends the whole loop: later items add no rows |
| ProfitTable.ConfigTable | assets/production_profit.js:11-59 | on the current page the table is always rendered, never shows the case, and shows only priced items |
| Legacy.LegacyRecipesWellFormed | assets/script.js:85-168 | the older recipe table is at most one level deep and has positive amounts |
| Legacy.LegacyPositions | assets/script.js:3-83 | each item of the older display order sits at its own position |
| Legacy.LegacyListedHaveRecipes | assets/script.js:85-168 | every item the older page lists has a recipe |
| Legacy.LegacyOrderDistinct | assets/script.js:3-83 | no item is listed twice in the older profit table |
| Legacy.LegacyTotals | assets/script.js:266-276 | on the older table, every item has the same total as on the current one, except petroleum, oil and the case, which have none |
| Legacy.LegacyTable | assets/script.js:185-231 | the older page always renders its table, and shows only priced items, never petroleum, oil or the case |
| SkillPoints.LevelCost | assets/mu_players.js:13 | a level in 0..10 costs the triangular number l(l+1)/2; any other level costs 0; never more than 55 |
| SkillPoints.SumBound | assets/mu_players.js:10-15 | the sum is at most 55 per listed skill |
| SkillPoints.PointsBounds | assets/mu_players.js:10-15 | fight points are at most 495 and economy points at most 220 |
| SkillPoints.OutOfRangeLikeAbsent | assets/mu_players.js:12-13 | a level outside the cost row counts like a missing skill |
| SkillPoints.SumIsComboCost | assets/mu_players.js:10-15 | on in-range levels, the page's sum equals the optimiser's cost of the same level vector |
| SkillPoints.TimeUntilReset | assets/mu_players.js:17-28 | the reset is available exactly when the date is missing or a week has passed; otherwise days and hours are shown |
| SkillPoints.SplitShape | assets/mu_players.js:24-26 | the hours are 0..23, and days and hours bracket the time left to within one hour; less than a week gives at most 6 days, exactly a week gives 7d 0h |
| SkillPoints.ResetBounds | assets/mu_players.js:20-27 | within the week the display shows hours 0..23, and at most 6 days after the reset instant, 7d 0h at that instant |
| SkillPoints.RatioRounding | assets/mu_players.js:72 | the rounded share is within half a percent of the exact share |
| SkillPoints.RatioAtMost100 | assets/mu_players.js:72-73 | a part of the total never shows more than 100% |
| SkillPoints.RatiosAddUp | assets/mu_players.js:72-73 | the two shown shares add up to 100 or 101 |
| SkillPoints.SharesBounds | assets/mu_players.js:71-73 | both shares are at most 100, and they add up to 100 or 101 when any point is spent |
| SkillPoints.AboveSeventyIff | assets/mu_players.js:75 | a shown share above 70 means exactly that 200·part ≥ 141·total |
| SkillPoints.UserOf | assets/mu_players.js:64-81 | a member's row keeps name and level; its shares are at most 100, 0 when no points are spent and add up to 100..101 otherwise; its reset is the member's |
| SkillPoints.ClassifyExclusive | assets/mu_players.js:74-78 | at level 3 and up, a member is a fight build exactly when the fight share exceeds 70, and an economy build exactly when the economy share does |
| SkillPoints.CountsPartition | assets/mu_players.js:74-78 | fight, economy and hybrid counts add up to the members of level 3 and up |
| SkillPoints.ClassifyFromRow | assets/mu_players.js:72-78 | the classification read off the shown percentages equals the classification of the member |
| SkillPoints.CountStep | assets/mu_players.js:74-78 | each member adds one to exactly its own build's count |
| SkillPoints.GenerateMuInfo | assets/mu_players.js:57-82 | the loop makes one row per member, in order, and its three counters are the build counts |
| CountryPlayers.CountryTimeUntilReset | assets/country_players.js:15-26 | a missing date shows NaN; otherwise the reset is available exactly when a week has passed |
| CountryPlayers.ResetAgrees | assets/country_players.js:21 | with a date present, both pages show the same reset time; without one, the members page says available and the country page NaN |
| CountryPlayers.CountryResetHours | assets/country_players.js:22-25 | within the week, the country page shows hours 0..23 and at most 7 days |
| CountryPlayers.CountryUserOf | assets/country_players.js:63-72 | a country row keeps name and level, its shares are bounded and add up as on the members page, and its reset follows the country page's rule |

## Left out

- I/O: fetching prices, members, users and countries, and all DOM building. The model
  receives the fetched data and returns the rows, messages and counters.
- Timers: `setTimeout` scheduling is modelled as repeated calls of the chunk method,
  without concurrency.
- The current time: modelled as the parameter `now`.
- `populateRegens`, `populateAmmo`, `loadCountries`, `makeTableSortable` and the
  navigation highlighting only build the page. They are not part of this model.
- Inputs as parsed numbers: `parseInt`/`parseFloat` results arrive as numbers.
  - The profit page's `bonus` (`parseFloat(…) || 0`) arrives as a real.
  - A NaN salary arrives as `None`.
  - Other NaN inputs, such as NaN regeneration, are not modelled.
- Floating-point effects: rounding error, signed zero and ±Infinity inputs are not
  modelled, and all arithmetic is exact over the reals. Only the division-by-zero
  cases are modelled (`NonFinite`, and the infinities and NaN of `Profit`).
- Display formatting: `toFixed(2)`, `toFixed(3)` and `toLocaleString` of the figures,
  the `positive`/`negative` class of a profit cell and the per-row formatting of the
  shown builds. Rows carry the raw figures.
- Player fields the model ignores, because the pages fetch or show them but compute
  nothing from them: country names, weekly damage and wealth. The unused country
  lookup promise is ignored for the same reason.
- Reset dates: `lastSkillsResetAt` is an integer of milliseconds or missing.
  - A `null` date, which JavaScript turns into the epoch, is not distinguished from other old dates.
  - An unparseable date string is not modelled.
- The country page's paging loop (`loadUsersByCountry`) is not modelled beyond its
  per-user body, `CountryPlayers.CountryUserOf`. After its first page it reads the
  undeclared name `result` (country_players.js:75), which throws. The loop exists only
  to drive fetches.
- FightWorker.CorrectedWorker: stated only for requests whose chest and pants bonuses
  sum to less than 0.6 (`BoundedArmorRequest`). Other requests can make some build's
  armor exactly 1, and that build's damage non-finite.
- FightWorker.WorkerSearch.Run: states only that the run ends, in a throw or in `done`.
  Which of the two, and the messages posted, are stated by `WorkerOnMessage`.
- FightWorker.CorrectedWorker: its `done` results are `Candidate` records, which carry
  the effective skills. The intended push (`{combo, totalCost, daily_damage}`) has no
  skills field, so the model's message holds one field more than the worker would post.
- FightWorker.WorkerSearch.ProcessChunk: states only the trace invariant and progress.
  The exact messages are stated by `WorkerStep` and `WorkerOnMessage`.
- Ranking.SortDesc: proves a sorted permutation, but not stability. The insertion keeps
  equal-damage builds in index order, as the engine's stable sort does, but no lemma
  states it.

## Findings

| source | as written | input that shows it | evidently intended | confidence | as-written member | corrected member |
|---|---|---|---|---|---|---|
| assets/fight_build_worker.js:75 | the push reads `daily_cost`, a name declared nowhere, so it throws a ReferenceError at the first build within budget | any request with `spLimit >= 0`: index 0 is the all-zero build at cost 0, so the worker dies on its first iteration and posts nothing | push `{combo, totalCost, daily_damage}`, then post progress per chunk and the ten most damaging builds | not executed | FightWorker.WorkerOnMessage | FightWorker.CorrectedWorker |
