/** The hard cap on risk set by the user's emotional risk tolerance, as the
    risk-tolerance test suite (test_risk_tolerance_fix.py) states it: a table
    from the five-point tolerance scale to a maximum risk level, the
    order-preserving filter of a list of risk levels against that maximum,
    the two-level fallback used when the filter leaves nothing, and the split
    of risk levels into allowed and excluded ones. */
module RiskCaps {
  import opened Seqs

  /** The five answers to "how would you react to a sharp fall", from the least
      to the most risk-tolerant (the source keys its table by the answer text). */
  datatype Tolerance =
    | SellImmediately   // would sell at once, cannot bear losses
    | VeryWorried       // very worried, would probably sell
    | WorriedButHold    // worried but would hold on
    | Opportunity       // would see it as a chance to buy more
    | Calm              // calm, it is normal, keeps buying

  /** Position of an answer on the scale, 0 for the least tolerant. */
  function Rank(t: Tolerance): nat
  {
    match t
    case SellImmediately => 0
    case VeryWorried => 1
    case WorriedButHold => 2
    case Opportunity => 3
    case Calm => 4
  }

  /** The leverage tier, which no tolerance may reach. */
  const LeverageLevel: int := 8

  /** The hard-cap table: the highest risk level each answer allows. */
  function HardCap(t: Tolerance): (cap: int)
    ensures 2 <= cap <= 7
  {
    match t
    case SellImmediately => 2
    case VeryWorried => 3
    case WorriedButHold => 5
    case Opportunity => 7
    case Calm => 7
  }

  /** The cap never falls as tolerance grows, the two most tolerant answers share
      the ceiling 7, and no answer reaches the leverage tier. */
  lemma HardCapTable()
    ensures forall t, u :: Rank(t) <= Rank(u) ==> HardCap(t) <= HardCap(u)
    ensures HardCap(Opportunity) == 7 && HardCap(Calm) == 7
    ensures forall t :: HardCap(t) < LeverageLevel
  {
  }

  /** The test `r <= cap` as a value, so that every use of the filter below
      passes the same function. */
  function AtMost(cap: int): int -> bool
  {
    r => r <= cap
  }

  /** `[r for r in base_risks if r <= max_allowed]`: the levels of `base` that do
      not exceed `cap`, each as often as in `base`, in the order of `base`. */
  function CapFilter(base: seq<int>, cap: int): (r: seq<int>)
    ensures forall i :: 0 <= i < |r| ==> r[i] <= cap
    ensures IsSubsequence(r, base)
    ensures forall x :: multiset(r)[x] == if x <= cap then multiset(base)[x] else 0
    ensures r == [] <==> forall i :: 0 <= i < |base| ==> base[i] > cap
  {
    FilterExact(base, AtMost(cap));
    var r := Filter(base, AtMost(cap));
    assert r == [] <==> forall i :: 0 <= i < |base| ==> base[i] > cap by {
      if r == [] {
        forall i | 0 <= i < |base| ensures base[i] > cap {
          assert base[i] in base;
        }
      }
    }
    r
  }

  /** Filtering twice against the same cap is filtering once. */
  lemma CapFilterIdempotent(base: seq<int>, cap: int)
    ensures CapFilter(CapFilter(base, cap), cap) == CapFilter(base, cap)
  {
    FilterIdempotent(base, AtMost(cap));
  }

  /** `[max(1, max_allowed - 1), max_allowed]`: the range used when no base level
      survives the cap. */
  function Fallback(cap: int): (r: seq<int>)
    ensures |r| == 2 && r[1] == cap
    ensures 1 <= r[0]
    ensures cap >= 2 ==> r[0] == cap - 1
    ensures cap <= 2 ==> r[0] == 1
  {
    [if cap - 1 > 1 then cap - 1 else 1, cap]
  }

  /** For every answer the fallback is two ascending levels within [1, cap]. */
  lemma FallbackWithinCap(t: Tolerance)
    ensures 1 <= Fallback(HardCap(t))[0] < Fallback(HardCap(t))[1] == HardCap(t)
  {
  }

  /** The risk levels left after the hard cap: the filtered base levels, or the
      fallback when the filter leaves nothing. */
  function CappedRange(base: seq<int>, t: Tolerance): (r: seq<int>)
    ensures r != []
    ensures forall i :: 0 <= i < |r| ==> r[i] <= HardCap(t)
    ensures LeverageLevel !in r
    ensures (exists i :: 0 <= i < |base| && base[i] <= HardCap(t)) ==>
              IsSubsequence(r, base) &&
              forall x :: multiset(r)[x] == if x <= HardCap(t) then multiset(base)[x] else 0
    ensures (forall i :: 0 <= i < |base| ==> base[i] > HardCap(t)) ==>
              r == [HardCap(t) - 1, HardCap(t)] && 1 <= r[0]
  {
    var cap := HardCap(t);
    var filtered := CapFilter(base, cap);
    if filtered == [] then Fallback(cap) else filtered
  }

  /** Test 1: a panic seller with the long-horizon base range [5, 6, 7] keeps
      nothing and gets the fallback [1, 2]. */
  lemma ScenarioPanicSeller()
    ensures CapFilter([5, 6, 7], HardCap(SellImmediately)) == []
    ensures CappedRange([5, 6, 7], SellImmediately) == [1, 2]
  {
  }

  /** Test 2: cap 3 keeps only 3 of [3, 4, 5]. */
  lemma ScenarioVeryWorried()
    ensures CappedRange([3, 4, 5], VeryWorried) == [3]
  {
    var keep := AtMost(3);
    FilterCons(5, [], keep);
    FilterCons(4, [5], keep);
    FilterCons(3, [4, 5], keep);
  }

  /** Test 3: cap 7 drops the leverage level from [5, 6, 7, 8]. */
  lemma ScenarioCalm()
    ensures CappedRange([5, 6, 7, 8], Calm) == [5, 6, 7]
  {
    CalmFilterSteps();
  }

  /** The filter of test 3, one element at a time. */
  lemma CalmFilterSteps()
    ensures Filter([5, 6, 7, 8], AtMost(7)) == [5, 6, 7]
  {
    var keep := AtMost(7);
    FilterCons(8, [], keep);
    assert Filter([8], keep) == [];
    FilterCons(7, [8], keep);
    assert Filter([7, 8], keep) == [7];
    FilterCons(6, [7, 8], keep);
    assert Filter([6, 7, 8], keep) == [6, 7];
    FilterCons(5, [6, 7, 8], keep);
  }

  /** Test 4: cap 5 keeps [4, 5] of [4, 5, 6]. */
  lemma ScenarioWorriedButHold()
    ensures CappedRange([4, 5, 6], WorriedButHold) == [4, 5]
  {
    var keep := AtMost(5);
    FilterCons(6, [], keep);
    FilterCons(5, [6], keep);
    FilterCons(4, [5, 6], keep);
  }

  /** Test 5: cap 7 leaves [1, 2] as it is. */
  lemma ScenarioLowBase()
    ensures CappedRange([1, 2], Opportunity) == [1, 2]
  {
    var keep := AtMost(7);
    FilterCons(2, [], keep);
    FilterCons(1, [2], keep);
  }

  // ---------------------------------------------------------------------------
  // Allowed and excluded risk levels (test_portfolios_mapping)
  // ---------------------------------------------------------------------------

  /** The condition under which a level is listed as allowed. Below the
      leverage tier, the explicit test for 8 adds nothing to the cap. */
  function IsAllowed(level: int, cap: int): (ok: bool)
    ensures cap < LeverageLevel ==> (ok <==> level <= cap)
    ensures level == LeverageLevel ==> !ok
  {
    level <= cap && level != LeverageLevel
  }

  /** The condition under which a level is listed as excluded. Below the
      leverage tier, the explicit test for 8 adds nothing to the cap. */
  function IsExcluded(level: int, cap: int): (out: bool)
    ensures cap < LeverageLevel ==> (out <==> level > cap)
    ensures level == LeverageLevel ==> out
  {
    level > cap || level == LeverageLevel
  }

  /** Every level is listed exactly once, and the leverage level is always excluded. */
  lemma AllowedXorExcluded(level: int, t: Tolerance)
    ensures IsAllowed(level, HardCap(t)) <==> !IsExcluded(level, HardCap(t))
    ensures IsExcluded(LeverageLevel, HardCap(t))
  {
  }

  function AllowedTest(cap: int): int -> bool
  {
    level => IsAllowed(level, cap)
  }

  function ExcludedTest(cap: int): int -> bool
  {
    level => IsExcluded(level, cap)
  }

  /** The two listings of `levels` for one answer: the allowed levels and the
      excluded ones, each in the order of `levels`. */
  function LevelMapping(levels: seq<int>, t: Tolerance): (split: (seq<int>, seq<int>))
    ensures forall x :: x in split.0 <==> x in levels && x <= HardCap(t) && x != LeverageLevel
    ensures forall x :: x in split.1 <==> x in levels && (x > HardCap(t) || x == LeverageLevel)
    ensures IsSubsequence(split.0, levels) && IsSubsequence(split.1, levels)
  {
    FilterExact(levels, AllowedTest(HardCap(t)));
    FilterExact(levels, ExcludedTest(HardCap(t)));
    (Filter(levels, AllowedTest(HardCap(t))), Filter(levels, ExcludedTest(HardCap(t))))
  }

  /** The two listings share no level and together list every level of `levels`
      once per occurrence; the leverage level is never allowed. */
  lemma LevelMappingPartitions(levels: seq<int>, t: Tolerance)
    ensures forall x :: !(x in LevelMapping(levels, t).0 && x in LevelMapping(levels, t).1)
    ensures |LevelMapping(levels, t).0| + |LevelMapping(levels, t).1| == |levels|
    ensures LeverageLevel !in LevelMapping(levels, t).0
  {
    FilterSplitLengths(levels, AllowedTest(HardCap(t)), ExcludedTest(HardCap(t)));
  }
}
