/** The portfolio catalog of portfolios_data.py and the queries over it.

    The source keeps the three category lists in module globals, and every
    query except get_all_portfolios concatenates them as
    multi ++ single ++ esg; here the three lists are a `Database` value given
    to each query, and `Catalog.Shipped` is the catalog the source ships. */
module Portfolios {
  import opened Seqs

  /** The result of a lookup: Python's `None`, or the portfolio found. */
  datatype Option<T> = None | Some(value: T)

  /** How often a multi-ETF portfolio is rebalanced: '1y', '3M' or 'NO' in the source. */
  datatype Rebalance = Annual | Quarterly | NoRebalance

  /** One ETF of a portfolio. The source writes `percentage` and `ter` as decimal
      strings; here `percentage` is the weight in whole percent and `ter` the yearly
      cost in hundredths of a percent ('0.12' is 12). */
  datatype Component = Component(percentage: nat, name: string, isin: string, ter: nat)

  /** One model portfolio. `esg` is the source's integer flag (1 for ESG, 0 otherwise);
      `minDuration` and `note` are display text. */
  datatype Portfolio = Portfolio(
    id: string,
    riskLevel: int,
    esg: int,
    minDuration: string,
    rebalance: Rebalance,
    components: seq<Component>,
    note: string)

  /** The three category lists. */
  datatype Database = Database(multi: seq<Portfolio>, single: seq<Portfolio>, esg: seq<Portfolio>)
  {
    /** `MULTI_PORTFOLIOS + SINGLE_PORTFOLIOS + ESG_PORTFOLIOS`: the order the
        lookup, the two filters and the statistics search in. The multi-ETF
        portfolios come first, then the single-ETF ones, then the ESG ones. */
    function All(): (r: seq<Portfolio>)
      ensures |r| == |multi| + |single| + |esg|
      ensures r[..|multi|] == multi
      ensures r[|multi|..|multi| + |single|] == single
      ensures r[|multi| + |single|..] == esg
    {
      multi + single + esg
    }
  }

  /** Sum of the component weights; data-quality check only, the source never enforces it. */
  function WeightSum(cs: seq<Component>): (total: nat)
    ensures forall i :: 0 <= i < |cs| ==> cs[i].percentage <= total
    ensures cs == [] ==> total == 0
  {
    if cs == [] then 0
    else
      var rest := WeightSum(cs[1..]);
      assert forall i :: 1 <= i < |cs| ==> cs[i] == cs[1..][i - 1];
      cs[0].percentage + rest
  }

  /** The weights of a portfolio add up to 100%; then no single weight exceeds 100. */
  function WeightsSumTo100(p: Portfolio): (ok: bool)
    ensures ok ==> forall c :: c in p.components ==> c.percentage <= 100
  {
    WeightSum(p.components) == 100
  }

  // ---------------------------------------------------------------------------
  // get_all_portfolios
  // ---------------------------------------------------------------------------

  /** The three lists, unchanged, under the keys 'multi', 'single' and 'esg'. */
  function AllPortfolios(db: Database): (r: map<string, seq<Portfolio>>)
    ensures r.Keys == {"multi", "single", "esg"}
    ensures r["multi"] == db.multi && r["single"] == db.single && r["esg"] == db.esg
    ensures r["multi"] + r["single"] + r["esg"] == db.All()
  {
    map["multi" := db.multi, "single" := db.single, "esg" := db.esg]
  }

  // ---------------------------------------------------------------------------
  // get_portfolio_by_id
  // ---------------------------------------------------------------------------

  /** The first portfolio of `ps` with the given id, if any. */
  function FirstWithId(ps: seq<Portfolio>, id: string): (r: Option<Portfolio>)
    ensures r.None? <==> forall i :: 0 <= i < |ps| ==> ps[i].id != id
    ensures r.Some? ==> r.value.id == id && r.value in ps
  {
    if ps == [] then None
    else if ps[0].id == id then Some(ps[0])
    else FirstWithId(ps[1..], id)
  }

  /** `FirstWithId` returns the match with the smallest index. */
  lemma {:induction false} FirstWithIdIsFirst(ps: seq<Portfolio>, id: string, k: nat)
    requires k < |ps| && ps[k].id == id
    requires forall j :: 0 <= j < k ==> ps[j].id != id
    ensures FirstWithId(ps, id) == Some(ps[k])
  {
    if k > 0 {
      FirstWithIdIsFirst(ps[1..], id, k - 1);
    }
  }

  /** The search loop of get_portfolio_by_id: walks the catalog in order and
      returns the first portfolio whose id matches, otherwise None. */
  method GetPortfolioById(db: Database, id: string) returns (r: Option<Portfolio>)
    ensures r == FirstWithId(db.All(), id)
    ensures r.None? <==> forall p :: p in db.All() ==> p.id != id
    ensures r.Some? ==> exists k :: 0 <= k < |db.All()| && db.All()[k] == r.value && r.value.id == id
                          && forall j :: 0 <= j < k ==> db.All()[j].id != id
  {
    var all := db.All();
    for i := 0 to |all|
      invariant forall j :: 0 <= j < i ==> all[j].id != id
    {
      if all[i].id == id {
        FirstWithIdIsFirst(all, id, i);
        return Some(all[i]);
      }
    }
    return None;
  }

  // ---------------------------------------------------------------------------
  // get_portfolios_by_risk, get_portfolios_by_esg
  // ---------------------------------------------------------------------------

  /** The tests of the two filter queries, as values. */
  function LevelIs(level: int): Portfolio -> bool
  {
    (p: Portfolio) => p.riskLevel == level
  }

  function EsgIs(flag: int): Portfolio -> bool
  {
    (p: Portfolio) => p.esg == flag
  }

  /** The catalog's portfolios of the given risk level, in catalog order. */
  function PortfoliosByRisk(db: Database, level: int): (r: seq<Portfolio>)
    ensures forall i :: 0 <= i < |r| ==> r[i].riskLevel == level
    ensures IsSubsequence(r, db.All())
    ensures forall p :: multiset(r)[p] == if p.riskLevel == level then multiset(db.All())[p] else 0
  {
    FilterExact(db.All(), LevelIs(level));
    Filter(db.All(), LevelIs(level))
  }

  /** The ESG portfolios (flag 1) when `esgOnly`, otherwise those with flag 0,
      in catalog order. A flag other than 0 or 1 lands in neither list. */
  function PortfoliosByEsg(db: Database, esgOnly: bool): (r: seq<Portfolio>)
    ensures forall i :: 0 <= i < |r| ==> r[i].esg == (if esgOnly then 1 else 0)
    ensures IsSubsequence(r, db.All())
    ensures forall p :: multiset(r)[p] == if p.esg == (if esgOnly then 1 else 0) then multiset(db.All())[p] else 0
  {
    var flag := if esgOnly then 1 else 0;
    FilterExact(db.All(), EsgIs(flag));
    Filter(db.All(), EsgIs(flag))
  }

  /** Every ESG flag is 0 or 1. */
  predicate BinaryEsgFlags(ps: seq<Portfolio>)
  {
    forall p :: p in ps ==> p.esg == 0 || p.esg == 1
  }

  /** The two ESG lists never share a portfolio, and when every flag is 0 or 1
      together they are as long as the catalog. */
  lemma EsgSplit(db: Database)
    ensures forall p :: !(p in PortfoliosByEsg(db, true) && p in PortfoliosByEsg(db, false))
    ensures BinaryEsgFlags(db.All()) ==>
              |PortfoliosByEsg(db, true)| + |PortfoliosByEsg(db, false)| == |db.All()|
  {
    if BinaryEsgFlags(db.All()) {
      FilterSplitLengths(db.All(), EsgIs(1), EsgIs(0));
    }
  }

  // ---------------------------------------------------------------------------
  // get_statistics
  // ---------------------------------------------------------------------------

  datatype Statistics = Statistics(
    totalPortfolios: nat,
    multiPortfolios: nat,
    singlePortfolios: nat,
    esgPortfolios: nat,
    riskLevels: seq<int>,
    uniqueEtfs: nat)

  /** Number of components over all portfolios of `ps`. */
  function ComponentCount(ps: seq<Portfolio>): nat
  {
    if ps == [] then 0 else |ps[0].components| + ComponentCount(ps[1..])
  }

  /** The risk level of each portfolio, in order. */
  function RiskLevelsOf(ps: seq<Portfolio>): (r: seq<int>)
    ensures |r| == |ps|
    ensures forall v :: v in r <==> exists p :: p in ps && p.riskLevel == v
  {
    if ps == [] then []
    else
      assert forall p :: p in ps <==> p == ps[0] || p in ps[1..];
      [ps[0].riskLevel] + RiskLevelsOf(ps[1..])
  }

  /** The ISIN of every component of every portfolio, portfolio by portfolio. */
  function ComponentIsins(ps: seq<Portfolio>): (r: seq<string>)
    ensures |r| == ComponentCount(ps)
    ensures forall s :: s in r <==> exists p, c :: p in ps && c in p.components && c.isin == s
  {
    if ps == [] then []
    else
      assert forall p :: p in ps <==> p == ps[0] || p in ps[1..];
      var own := seq(|ps[0].components|, k requires 0 <= k < |ps[0].components| => ps[0].components[k].isin);
      assert forall s :: s in own <==> exists c :: c in ps[0].components && c.isin == s by {
        forall s ensures s in own <==> exists c :: c in ps[0].components && c.isin == s {
          if s in own {
            var k :| 0 <= k < |own| && own[k] == s;
            assert ps[0].components[k] in ps[0].components;
          }
          if c :| c in ps[0].components && c.isin == s {
            var k :| 0 <= k < |ps[0].components| && ps[0].components[k] == c;
            assert own[k] == s;
          }
        }
      }
      own + ComponentIsins(ps[1..])
  }

  /** The risk-level list of the statistics is the one strictly increasing
      list holding exactly the levels the catalog uses. */
  lemma RiskLevelsExactly(db: Database, levels: seq<int>)
    requires StrictlyIncreasing(levels)
    requires forall p :: p in db.All() ==> p.riskLevel in levels
    requires forall v :: v in levels ==> exists p :: p in db.All() && p.riskLevel == v
    ensures GetStatistics(db).riskLevels == levels
  {
    StrictlyIncreasingUnique(GetStatistics(db).riskLevels, levels);
  }

  /** get_statistics: category counts, the sorted distinct risk levels and the
      number of distinct component ISINs. */
  function GetStatistics(db: Database): (st: Statistics)
    ensures st.totalPortfolios == st.multiPortfolios + st.singlePortfolios + st.esgPortfolios
    ensures st.multiPortfolios == |db.multi| && st.singlePortfolios == |db.single| && st.esgPortfolios == |db.esg|
    ensures StrictlyIncreasing(st.riskLevels)
    ensures forall v :: v in st.riskLevels <==> exists p :: p in db.All() && p.riskLevel == v
    ensures st.uniqueEtfs == |set p, c | p in db.All() && c in p.components :: c.isin|
    ensures st.uniqueEtfs <= ComponentCount(db.All())
  {
    var all := db.All();
    var isins := ComponentIsins(all);
    DistinctAtMost(isins);
    assert (set s | s in isins) == (set p, c | p in all && c in p.components :: c.isin);
    Statistics(
      |all|,
      |db.multi|,
      |db.single|,
      |db.esg|,
      SortedDistinct(RiskLevelsOf(all)),
      |set s | s in isins|)
  }
}
