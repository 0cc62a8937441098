/** The catalog shipped in portfolios_data.py (lines 10-328), transcribed record
    by record, and facts about it. Component names, durations and notes are
    kept as opaque text. */
module Catalog {
  import opened Seqs
  import opened Portfolios

  const Port2a: Portfolio := Portfolio("PORT2a", 2, 0, "5", Annual, [
    Component(10, "SPDR MSCI World UCITS ETF", "IE00BFY0GT14", 12),
    Component(10, "Xtrackers MSCI World Minimum Volatility UCITS ETF 1C", "IE00BL25JN58", 25),
    Component(10, "WisdomTree Core Physical Gold", "JE00BN2CJ301", 12),
    Component(20, "Amundi Smart Overnight Return UCITS ETF Acc", "LU1190417599", 10),
    Component(30, "iShares EUR Corporate Bond 0-3yr ESG SRI UCITS ETF EUR (Acc)", "IE000AK4O3W6", 12),
    Component(10, "iShares Euro Inflation Linked Government Bond UCITS ETF", "IE00B0M62X26", 9),
    Component(10, "iShares EUR Floating Rate Bond Advanced UCITS ETF EUR (Acc)", "IE000NVM56L3", 10)
  ], "")
  const Port2b: Portfolio := Portfolio("PORT2b", 2, 0, "7", Annual, [
    Component(15, "Xtrackers MSCI World Minimum Volatility UCITS ETF 1C", "IE00BL25JN58", 25),
    Component(15, "Xtrackers MSCI World Quality UCITS ETF 1C", "IE00BL25JL35", 25),
    Component(10, "WisdomTree Core Physical Gold", "JE00BN2CJ301", 12),
    Component(15, "Amundi Smart Overnight Return UCITS ETF Acc", "LU1190417599", 10),
    Component(15, "iShares EUR Corporate Bond 1-5yr UCITS ETF EUR (Acc)", "IE000F6G1DE0", 20),
    Component(15, "iShares Euro Inflation Linked Government Bond UCITS ETF", "IE00B0M62X26", 9),
    Component(15, "iShares EUR Floating Rate Bond Advanced UCITS ETF EUR (Acc)", "IE000NVM56L3", 10)
  ], "")
  const Port3: Portfolio := Portfolio("PORT3", 3, 0, "10", Annual, [
    Component(20, "SPDR MSCI World UCITS ETF", "IE00BFY0GT14", 12),
    Component(20, "Xtrackers MSCI World Quality UCITS ETF 1C", "IE00BL25JL35", 25),
    Component(10, "WisdomTree Core Physical Gold", "JE00BN2CJ301", 12),
    Component(10, "iShares Euro Government Bond 3-5yr UCITS ETF", "IE00B1FZS681", 15),
    Component(15, "iShares EUR Corporate Bond 1-5yr UCITS ETF EUR (Acc)", "IE000F6G1DE0", 20),
    Component(10, "iShares Euro Inflation Linked Government Bond UCITS ETF", "IE00B0M62X26", 9),
    Component(15, "iShares EUR Floating Rate Bond Advanced UCITS ETF EUR (Acc)", "IE000NVM56L3", 10)
  ], "")
  const Port5: Portfolio := Portfolio("PORT5", 5, 0, "10", Annual, [
    Component(60, "Vanguard FTSE All-World UCITS ETF (USD) Accumulating", "IE00BK5BQT80", 19),
    Component(10, "iShares Euro Inflation Linked Government Bond UCITS ETF", "IE00B0M62X26", 9),
    Component(10, "iShares EUR Floating Rate Bond Advanced UCITS ETF EUR (Acc)", "IE000NVM56L3", 10),
    Component(20, "iShares Euro Government Bond 3-5yr UCITS ETF", "IE00B1FZS681", 15)
  ], "")
  const Port6a: Portfolio := Portfolio("PORT6a", 6, 0, "10", Annual, [
    Component(70, "Amundi Prime All Country World UCITS", "IE0003XJA0J9", 7),
    Component(10, "Xtrackers MSCI World UCITS ETF 2C - EUR Hedged", "IE000ONQ3X90", 17),
    Component(10, "WisdomTree Core Physical Gold", "JE00BN2CJ301", 12),
    Component(10, "iShares EUR Corporate Bond 1-5yr UCITS ETF EUR (Acc)", "IE000F6G1DE0", 20)
  ], "")
  const Port6b: Portfolio := Portfolio("PORT6b", 6, 0, "10", Annual, [
    Component(80, "Amundi Prime All Country World UCITS", "IE0003XJA0J9", 7),
    Component(5, "iShares Core MSCI Emerging Markets IMI UCITS ETF (Acc)", "IE00BKM4GZ66", 18),
    Component(15, "WisdomTree Core Physical Gold", "JE00BN2CJ301", 12)
  ], "")
  const Port7a: Portfolio := Portfolio("PORT7a", 7, 0, "10", Annual, [
    Component(60, "SPDR MSCI World UCITS ETF", "IE00BFY0GT14", 12),
    Component(20, "iShares Edge MSCI World Momentum Factor UCITS ETF (Acc)", "IE00BP3QZ825", 25),
    Component(20, "iShares Edge MSCI World Value Factor UCITS ETF", "IE00BP3QZB59", 25)
  ], "")
  const Port7b: Portfolio := Portfolio("PORT7b", 7, 0, "10", Annual, [
    Component(40, "Vanguard S&P 500 UCITS ETF (USD) Accumulating", "IE00BFMXXD54", 7),
    Component(45, "Xtrackers MSCI World ex USA UCITS ETF 1C", "IE0006WW1TQ4", 15),
    Component(15, "iShares Core MSCI Emerging Markets IMI UCITS ETF (Acc)", "IE00BKM4GZ66", 18)
  ], "")
  const Port8: Portfolio := Portfolio("PORT8", 8, 0, "10", Quarterly, [
    Component(50, "SPDR MSCI World UCITS ETF", "IE00BFY0GT14", 12),
    Component(50, "Amundi MSCI World (2x) Leveraged UCITS ETF Acc", "FR0014010HV4", 60)
  ], "Portafoglio con LEVERAGE (2x) - Solo per investitori esperti che comprendono i rischi amplificati")

  /** MULTI_PORTFOLIOS (portfolios_data.py:10). */
  const Multi: seq<Portfolio> := [Port2a, Port2b, Port3, Port5, Port6a, Port6b, Port7a, Port7b, Port8]

  const Port11a: Portfolio := Portfolio("PORT11a", 1, 0, "1..xx", NoRebalance, [
    Component(100, "Amundi Smart Overnight Return UCITS ETF Acc", "LU1190417599", 10)
  ], "")
  const Port11b: Portfolio := Portfolio("PORT11b", 1, 1, "1...9", NoRebalance, [
    Component(100, "iShares iBonds Dec 2034 Term EUR Corporate UCITS ETF EUR (Acc)", "IE000UY6XF65", 12),
    Component(100, "iShares iBonds Dec 2033 Term EUR Corporate UCITS ETF EUR (Acc)", "IE000ZBGZQM8", 12),
    Component(100, "iShares iBonds Dec 2032 Term EUR Corporate UCITS ETF EUR (Acc)", "IE000I660ZF8", 12),
    Component(100, "iShares iBonds Dec 2031 Term EUR Corporate UCITS ETF EUR (Acc)", "IE000D9WMGF0", 12),
    Component(100, "iShares iBonds Dec 2030 Term EUR Corporate UCITS ETF EUR (Acc)", "IE000Y2BJVK9", 12),
    Component(100, "iShares iBonds Dec 2029 Term EUR Corporate UCITS ETF EUR (Acc)", "IE000SNLFDR7", 12),
    Component(100, "iShares iBonds Dec 2028 Term EUR Corporate UCITS ETF EUR (Acc)", "IE0008UEVOE0", 12),
    Component(100, "iShares iBonds Dec 2027 Term EUR Corporate UCITS ETF EUR (Acc)", "IE000ZOI8OK5", 12),
    Component(100, "iShares iBonds Dec 2026 Term EUR Corporate UCITS ETF EUR (Acc)", "IE000WA6L436", 12)
  ], "(Only one of the following ETF depend on user needs)")
  const Port13: Portfolio := Portfolio("PORT13", 3, 0, "7", NoRebalance, [
    Component(100, "Vanguard LifeStrategy 40% Equity UCITS ETF Accumulating", "IE00BMVB5M21", 25)
  ], "")
  const Port15: Portfolio := Portfolio("PORT15", 5, 0, "10", NoRebalance, [
    Component(100, "Vanguard LifeStrategy 60% Equity UCITS ETF Accumulating", "IE00BMVB5P51", 25)
  ], "")
  const Port16: Portfolio := Portfolio("PORT16", 6, 0, "10", NoRebalance, [
    Component(100, "Vanguard LifeStrategy 80% Equity UCITS ETF Accumulating", "IE00BMVB5R75", 25)
  ], "")
  const Port17a: Portfolio := Portfolio("PORT17a", 7, 0, "10", NoRebalance, [
    Component(100, "Amundi Prime All Country World UCITS", "IE0003XJA0J9", 7)
  ], "")
  const Port17b: Portfolio := Portfolio("PORT17b", 7, 0, "10", NoRebalance, [
    Component(100, "SPDR MSCI World UCITS ETF", "IE00BFY0GT14", 12)
  ], "")

  /** SINGLE_PORTFOLIOS (portfolios_data.py:147). */
  const Single: seq<Portfolio> := [Port11a, Port11b, Port13, Port15, Port16, Port17a, Port17b]

  const Port21a: Portfolio := Portfolio("PORT21a", 1, 1, "1..xx", NoRebalance, [
    Component(100, "Amundi Floating Rate Euro Corporate ESG UCITS ETF EUR (C)", "LU1829219390", 18)
  ], "")
  const Port22a: Portfolio := Portfolio("PORT22a", 2, 1, "7", Annual, [
    Component(30, "iShares MSCI World ESG Enhanced CTB UCITS ETF USD (Acc)", "IE00B8KGV557", 20),
    Component(10, "PIMCO Euro Short Maturity UCITS ETF Acc", "IE00BVZ6SP04", 19),
    Component(30, "Amundi Index Euro Corporate SRI 0-3 Y UCITS ETF DR (C)", "LU1437017350", 12),
    Component(40, "Amundi Floating Rate Euro Corporate ESG UCITS ETF EUR (C)", "LU1829219390", 18)
  ], "")
  const Port23a: Portfolio := Portfolio("PORT23a", 3, 1, "10", Annual, [
    Component(40, "iShares MSCI World ESG Enhanced CTB UCITS ETF USD (Acc)", "IE00B8KGV557", 20),
    Component(20, "Amundi Index Euro Corporate SRI 0-3 Y UCITS ETF DR (C)", "LU1437017350", 12),
    Component(20, "Amundi Floating Rate Euro Corporate ESG UCITS ETF EUR (C)", "LU1829219390", 18),
    Component(20, "BNP Paribas Easy JPM ESG EMU Government Bond IG 3-5Y UCITS ETF", "LU2244387457", 15)
  ], "")
  const Port25a: Portfolio := Portfolio("PORT25a", 5, 1, "10", Annual, [
    Component(60, "iShares MSCI World ESG Enhanced CTB UCITS ETF USD (Acc)", "IE00B8KGV557", 20),
    Component(10, "Amundi Index Euro Corporate SRI 0-3 Y UCITS ETF DR (C)", "LU1437017350", 12),
    Component(10, "Amundi Floating Rate Euro Corporate ESG UCITS ETF EUR (C)", "LU1829219390", 18),
    Component(20, "BNP Paribas Easy JPM ESG EMU Government Bond IG 3-5Y UCITS ETF", "LU2244387457", 15)
  ], "")
  const Port26: Portfolio := Portfolio("PORT26", 6, 1, "10", Annual, [
    Component(80, "iShares MSCI World ESG Enhanced CTB UCITS ETF USD (Acc)", "IE00B8KGV557", 20),
    Component(10, "Amundi Index Euro Corporate SRI 0-3 Y UCITS ETF DR (C)", "LU1437017350", 12),
    Component(10, "Amundi Floating Rate Euro Corporate ESG UCITS ETF EUR (C)", "LU1829219390", 18)
  ], "")
  const Port27: Portfolio := Portfolio("PORT27", 7, 1, "10", NoRebalance, [
    Component(100, "iShares MSCI World ESG Enhanced CTB UCITS ETF USD (Acc)", "IE00B8KGV557", 20)
  ], "")
  const Port27b: Portfolio := Portfolio("PORT27b", 7, 1, "10", NoRebalance, [
    Component(100, "Vanguard ESG Global All Cap UCITS ETF (USD) Accumulating", "IE00BNG8L278", 24)
  ], "")

  /** ESG_PORTFOLIOS (portfolios_data.py:239). */
  const Esg: seq<Portfolio> := [Port21a, Port22a, Port23a, Port25a, Port26, Port27, Port27b]

  /** The database every query of portfolios_data.py reads. */
  const Shipped: Database := Database(Multi, Single, Esg)

  /** Nine multi-ETF, seven single-ETF and seven ESG portfolios: 23 in all. */
  lemma ShippedCounts()
    ensures GetStatistics(Shipped).multiPortfolios == 9
    ensures GetStatistics(Shipped).singlePortfolios == 7
    ensures GetStatistics(Shipped).esgPortfolios == 7
    ensures GetStatistics(Shipped).totalPortfolios == 23
  {
  }

  /** Every shipped ESG flag is 0 or 1, so the two ESG queries together cover the catalog. */
  lemma ShippedEsgSplitCovers()
    ensures BinaryEsgFlags(Shipped.All())
    ensures |PortfoliosByEsg(Shipped, true)| + |PortfoliosByEsg(Shipped, false)| == 23
  {
    ShippedFlagsBinary();
    EsgSplit(Shipped);
  }

  /** Every shipped ESG flag is 0 or 1. */
  lemma ShippedFlagsBinary()
    ensures BinaryEsgFlags(Shipped.All())
  {
    assert forall p :: p in Multi ==> p.esg == 0;
    assert forall p :: p in Single ==> p.esg == 0 || p.esg == 1;
    assert forall p :: p in Esg ==> p.esg == 1;
  }

  /** Every shipped risk level is one of 1, 2, 3, 5, 6, 7 and 8. */
  lemma ShippedLevelsWithin()
    ensures forall p :: p in Shipped.All() ==> p.riskLevel in [1, 2, 3, 5, 6, 7, 8]
  {
    assert forall p :: p in Multi ==> p.riskLevel in [2, 3, 5, 6, 7, 8];
    assert forall p :: p in Single ==> p.riskLevel in [1, 3, 5, 6, 7];
    assert forall p :: p in Esg ==> p.riskLevel in [1, 2, 3, 5, 6, 7];
  }

  /** The levels the catalog uses, in increasing order. */
  lemma UsedLevelsIncreasing()
    ensures StrictlyIncreasing([1, 2, 3, 5, 6, 7, 8])
  {
  }

  /** The shipped catalog uses every risk level from 1 to 8 except 4. */
  lemma ShippedRiskLevels()
    ensures GetStatistics(Shipped).riskLevels == [1, 2, 3, 5, 6, 7, 8]
  {
    var all := Shipped.All();
    ShippedLevelsWithin();
    forall v | v in [1, 2, 3, 5, 6, 7, 8]
      ensures exists p :: p in all && p.riskLevel == v
    {
      var p := if v == 1 then Port11a else if v == 2 then Port2a else if v == 3 then Port3
        else if v == 5 then Port5 else if v == 6 then Port6a else if v == 7 then Port7a else Port8;
      assert p in Multi || p in Single;
    }
    UsedLevelsIncreasing();
    RiskLevelsExactly(Shipped, [1, 2, 3, 5, 6, 7, 8]);
  }

  /** A lookup of PORT5 finds it as the fourth multi-ETF portfolio. */
  lemma ShippedLookupFound()
    ensures FirstWithId(Shipped.All(), "PORT5") == Some(Port5)
  {
    var all := Shipped.All();
    assert all[0] == Port2a && all[1] == Port2b && all[2] == Port3 && all[3] == Port5;
    FirstWithIdIsFirst(all, "PORT5", 3);
  }

  /** No shipped portfolio has the id PORT4. */
  lemma ShippedIdsOtherThanPort4()
    ensures forall p :: p in Shipped.All() ==> p.id != "PORT4"
  {
    assert forall p :: p in Multi ==> p.id != "PORT4";
    assert forall p :: p in Single ==> p.id != "PORT4";
    assert forall p :: p in Esg ==> p.id != "PORT4";
  }

  /** A lookup of PORT4 finds nothing. */
  lemma ShippedLookupMissing()
    ensures FirstWithId(Shipped.All(), "PORT4") == None
  {
    var all := Shipped.All();
    ShippedIdsOtherThanPort4();
    assert forall i :: 0 <= i < |all| ==> all[i] in all;
  }

  /** The weights of PORT22a add up to 110 and those of PORT11b (nine
      alternative bonds, each at 100) to 900: the data does not keep the
      weights-sum-to-100 rule, which is why no query relies on it. */
  lemma ShippedWeightOutliers()
    ensures WeightSum(Port22a.components) == 110 && !WeightsSumTo100(Port22a)
    ensures WeightSum(Port11b.components) == 900 && !WeightsSumTo100(Port11b)
  {
  }
}
