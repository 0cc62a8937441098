# ETF model-portfolio catalog and risk-tolerance hard cap, in Dafny

This project models two small, pure parts of the EsempioPortfolio repository.

- **The portfolio catalog and its queries** (`portfolios_data.py`). The catalog is three
  lists of model portfolios: multi-ETF, single-ETF and ESG. Each record has an id, a risk
  level, an ESG flag (0 or 1), a minimum duration, a rebalance tag and a list of ETF
  components (weight, name, ISIN, TER). Every query except get_all_portfolios searches the
  concatenation multi ++ single ++ esg; get_all_portfolios returns the three lists separately. The queries are: return the three lists by category; look a
  portfolio up by id; filter by risk level; filter by ESG flag; and summarise (category
  counts, the sorted distinct risk levels, the number of distinct ISINs).
- **The risk-tolerance hard cap** (`test_risk_tolerance_fix.py`). A five-point tolerance
  scale maps to a maximum risk level (2, 3, 5, 7, 7). A base list of risk levels is
  filtered to the levels at or below that cap, keeping the order. An empty result is
  replaced by the fallback pair `[max(1, cap-1), cap]`. Separately, each risk level is
  listed as allowed (at or below the cap, and not 8) or excluded (above the cap, or 8).

Files:

- `seqs.dfy` (module `Seqs`): the order-preserving filter that models a Python list
  comprehension, the subsequence relation, `sorted(set(xs))`, and their lemmas.
- `portfolios.dfy` (module `Portfolios`): the record types and the five queries.
- `catalog.dfy` (module `Catalog`): the 23 shipped portfolios, transcribed record by
  record, and facts proved about them.
- `risk_caps.dfy` (module `RiskCaps`): the tolerance scale, the cap table, the cap
  filter, the fallback, the capped range and the allowed/excluded listing.

How the model represents the source:

- The source reads module-level lists. Here the three lists form a `Database` value,
  which each query takes as a parameter. `Catalog.Shipped` is the catalog the source ships.
- `None` becomes `Option.None`. The statistics dict becomes the `Statistics` datatype.
  The category dict of `get_all_portfolios` becomes a `map` keyed by the same strings.
- The tolerance answers become the enum `Tolerance` instead of the emoji answer strings.
- The source stores weights and TERs as decimal strings. The model stores them as
  numbers: the weight in whole percent, the TER in hundredths of a percent ('0.12' is 12).
  The rebalance tags '1y', '3M' and 'NO' become `Annual`, `Quarterly` and `NoRebalance`.
- The ESG flag stays an integer, as in the code. The ESG query tests `== 1` or `== 0`, so
  a flag outside {0, 1} appears in neither list. `EsgSplit` therefore proves full coverage
  only when every flag is 0 or 1. `Catalog.ShippedEsgSplitCovers` proves that the shipped
  catalog meets that condition.
- The cap table is non-decreasing along the scale, not strictly increasing: the two most
  tolerant answers both map to 7.
- The cap filter has no separate test for level 8. In `[5, 6, 7, 8]` at cap 7, level 8 is
  dropped only because 8 > 7. The explicit "not 8" test appears only in the
  allowed/excluded listing (`IsAllowed`, `IsExcluded`). `CappedRange` proves that 8 can
  never survive, because every cap in the table is at most 7.

## Model

| member | source | states |
|---|---|---|
| `Portfolios.Database.All` | portfolios_data.py:358 | the search order of the lookup, the filters and the statistics: the multi-ETF list, then the single-ETF list, then the ESG list, each unchanged and in its own order |
| `Portfolios.WeightSum` | portfolios_data.py:18-24 | the sum of a portfolio's component weights is at least each single weight, and 0 for no components |
| `Portfolios.WeightsSumTo100` | portfolios_data.py:18-24 | when the weights add up to 100, no component weighs more than 100 |
| `Portfolios.AllPortfolios` | portfolios_data.py:334-345 | the keys are exactly 'multi', 'single' and 'esg', each bound to its category list unchanged; the three values in key order concatenate to the search order used by every other query |
| `Portfolios.FirstWithId` | portfolios_data.py:348-364 | the lookup returns None iff no catalog record has the id; otherwise it returns a catalog record carrying that id |
| `Portfolios.FirstWithIdIsFirst` | portfolios_data.py:360-362 | the returned record is the one with the smallest index among those with the id |
| `Portfolios.GetPortfolioById` | portfolios_data.py:358-364 | the for-loop with early return yields the first record in multi ++ single ++ esg order whose id matches, and None iff there is none |
| `Portfolios.PortfoliosByRisk` | portfolios_data.py:367-379 | every result has the requested level; the result is a subsequence of the catalog, so order is kept; each matching record appears exactly as often as in the catalog, so nothing is omitted |
| `Portfolios.PortfoliosByEsg` | portfolios_data.py:382-397 | with esg_only every result has flag 1, otherwise flag 0; catalog order is kept and no record with that flag is omitted |
| `Portfolios.EsgSplit` | portfolios_data.py:394-397 | the ESG and non-ESG lists share no record; when every flag is 0 or 1 their lengths add up to the catalog length |
| `Portfolios.RiskLevelsOf` | portfolios_data.py:418 | one level per record, and a value occurs iff some record has that level |
| `Portfolios.ComponentIsins` | portfolios_data.py:419-423 | one ISIN per component across the catalog, and a string occurs iff some component of some record has it |
| `Portfolios.GetStatistics` | portfolios_data.py:404-424 | total = multi + single + esg counts; risk_levels is strictly increasing and holds a value iff some record has that level; unique_etfs is the number of distinct component ISINs and at most the number of components |
| `Portfolios.RiskLevelsExactly` | portfolios_data.py:418 | any strictly increasing list holding exactly the levels in use equals the risk_levels statistic |
| `Seqs.Filter` | portfolios_data.py:379 | every element kept by a list comprehension `[x for x in s if keep(x)]` passes the test, and the result is no longer than `s` |
| `Seqs.FilterExact` | portfolios_data.py:379 | the comprehension keeps exactly the elements of `s` that pass, each as often as in `s`, as a subsequence of `s` |
| `Seqs.FilterIdempotent` | test_risk_tolerance_fix.py:31 | filtering a filtered list with the same test changes nothing |
| `Seqs.FilterSplitLengths` | portfolios_data.py:394-397 | two tests that disagree on every element split a list into parts whose lengths add up to its length |
| `Seqs.SortedDistinct` | portfolios_data.py:418 | `sorted(set(xs))` is strictly increasing and holds exactly the values of `xs` |
| `Seqs.InsertSorted` | portfolios_data.py:418 | inserting into a strictly increasing list keeps it strictly increasing and adds exactly the new value |
| `Seqs.StrictlyIncreasingUnique` | portfolios_data.py:418 | two strictly increasing lists with the same values are equal, so `sorted(set(...))` is determined by the set |
| `Seqs.DistinctAtMost` | portfolios_data.py:419-423 | a list has at most as many distinct values as elements |
| `Catalog.ShippedCounts` | portfolios_data.py:411-417 | the shipped catalog has 9 multi-ETF, 7 single-ETF and 7 ESG portfolios, 23 in all |
| `Catalog.ShippedEsgSplitCovers` | portfolios_data.py:392-397 | every shipped ESG flag is 0 or 1, so the two ESG queries together return all 23 portfolios |
| `Catalog.ShippedLevelsWithin` | portfolios_data.py:10-328 | every shipped risk level is one of 1, 2, 3, 5, 6, 7, 8 |
| `Catalog.ShippedRiskLevels` | portfolios_data.py:418 | the risk_levels statistic of the shipped catalog is [1, 2, 3, 5, 6, 7, 8] |
| `Catalog.ShippedLookupFound` | portfolios_data.py:358-364 | looking up 'PORT5' in the shipped catalog finds PORT5, the fourth multi-ETF portfolio |
| `Catalog.ShippedLookupMissing` | portfolios_data.py:358-364 | looking up 'PORT4' in the shipped catalog finds nothing, since no shipped portfolio carries that id |
| `Catalog.ShippedWeightOutliers` | portfolios_data.py:159-264 | PORT22a's weights add up to 110, and PORT11b's nine 100% alternatives add up to 900, so weights-sum-to-100 is not an invariant of the data |
| `RiskCaps.HardCap` | test_risk_tolerance_fix.py:16-22 | every answer's cap lies between 2 and 7 |
| `RiskCaps.HardCapTable` | test_risk_tolerance_fix.py:16-22 | the cap never falls as tolerance grows; the two most tolerant answers both map to 7; no answer reaches 8 |
| `RiskCaps.CapFilter` | test_risk_tolerance_fix.py:31 | keeps exactly the base levels at or below the cap, each as often as in the base, in their original order; the result is empty iff every base level exceeds the cap |
| `RiskCaps.CapFilterIdempotent` | test_risk_tolerance_fix.py:53 | applying the cap filter twice gives the same result as applying it once |
| `RiskCaps.Fallback` | test_risk_tolerance_fix.py:38 | `[max(1, cap-1), cap]`: two levels ending at the cap, the first at least 1; it is the level below the cap when the cap is 2 or more, and 1 when the cap is 2 or less |
| `RiskCaps.FallbackWithinCap` | test_risk_tolerance_fix.py:37-40 | for every answer, the fallback `[max(1, cap-1), cap]` has two strictly ascending levels within [1, cap] |
| `RiskCaps.CappedRange` | test_risk_tolerance_fix.py:29-40 | the capped range is never empty, never exceeds the cap and never contains 8; if some base level survives, the range is exactly the surviving levels in base order; otherwise it is the cap and the level below it |
| `RiskCaps.ScenarioPanicSeller` | test_risk_tolerance_fix.py:27-40 | [5, 6, 7] at cap 2 filters to nothing and falls back to [1, 2] |
| `RiskCaps.ScenarioVeryWorried` | test_risk_tolerance_fix.py:49-59 | [3, 4, 5] at cap 3 gives [3] |
| `RiskCaps.ScenarioCalm` | test_risk_tolerance_fix.py:65-76 | [5, 6, 7, 8] at cap 7 gives [5, 6, 7] |
| `RiskCaps.ScenarioWorriedButHold` | test_risk_tolerance_fix.py:82-92 | [4, 5, 6] at cap 5 gives [4, 5] |
| `RiskCaps.ScenarioLowBase` | test_risk_tolerance_fix.py:98-108 | [1, 2] at cap 7 is unchanged |
| `RiskCaps.IsAllowed` | test_risk_tolerance_fix.py:158 | level 8 is never allowed; under any cap below 8 the test reduces to `level <= cap`, so its extra `!= 8` clause changes nothing |
| `RiskCaps.IsExcluded` | test_risk_tolerance_fix.py:163 | level 8 is always excluded; under any cap below 8 the test reduces to `level > cap`, so its extra `== 8` clause changes nothing |
| `RiskCaps.AllowedXorExcluded` | test_risk_tolerance_fix.py:158-163 | a level is allowed iff it is not excluded, and level 8 is excluded under every answer |
| `RiskCaps.LevelMapping` | test_risk_tolerance_fix.py:153-164 | the allowed listing holds exactly the levels at or below the cap other than 8; the excluded listing holds exactly the levels above the cap or equal to 8; both keep the order of the input levels |
| `RiskCaps.LevelMappingPartitions` | test_risk_tolerance_fix.py:157-164 | the two listings share no level, their lengths add up to the number of input levels, and 8 is never allowed |

## Left out

- app.py is not part of this model. It holds the Streamlit page: layout, sidebar, expanders and pandas tables. It displays its own separate hard-coded set of nine portfolios (low, medium and high risk, three each), which is unrelated to `MULTI_PORTFOLIOS`, `SINGLE_PORTFOLIOS` and `ESG_PORTFOLIOS`: it has no ids, risk levels or ESG flags, and most of its ISINs appear nowhere in the catalog. Its weighted-TER figure parses percent strings into floats.
- The questionnaire recommender is not part of this model. It covers risk-range derivation from the horizon, the modifiers, the candidate filter, scoring and the top-3 ranking, and its code is not among the modelled files.
- Printing and the `__main__` drivers (portfolios_data.py:427-436, test_risk_tolerance_fix.py:220-239) are output only.
- `test_real_world_scenarios` (test_risk_tolerance_fix.py:167-217) only prints fixed expectations and has no logic.
- The printed risk-to-portfolio table (test_risk_tolerance_fix.py:133-143) is not stated as a fact about the catalog, because it disagrees with the data: PORT6a and PORT26 have risk level 6 but are listed under 5. `LevelMapping` works on the risk levels alone.
- Weights summing to 100 is only the checkable predicate `WeightsSumTo100`. No query requires it, because the shipped data violates it.
- Component names, minimum durations and notes are kept as opaque text. The mis-encoded warning symbol at the start of PORT8's note is dropped; the rest of the note is kept.
- Python returns the module's own list objects, so callers share and could mutate them. The model returns values, so aliasing is not captured.
- `esg_only` defaults to True in the source; Dafny has no default arguments, so every call passes the flag.
- The concrete number of distinct ISINs in the shipped catalog is not proved. Only the general bound (at most the number of components) is proved.
