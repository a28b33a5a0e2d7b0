/** Drought-risk scoring behind `mockDataGenerator.generateRiskAssessment`
    (server/services/apiService.ts): a score in [0, 100) is mapped to one of
    four risk levels, the level picks a recommendation text, and supply and
    demand give the reported supply/demand ratio. */
module Risk {

  datatype RiskLevel = Low | Moderate | High | Critical

  /** Severity rank of a level, 0 for low up to 3 for critical. */
  function Severity(level: RiskLevel): nat {
    match level
    case Low => 0
    case Moderate => 1
    case High => 2
    case Critical => 3
  }

  /** The level for a score, in closed-open bands of width 25. */
  function RiskLevelOf(score: real): (level: RiskLevel)
    ensures level == Low <==> score < 25.0
    ensures level == Moderate <==> 25.0 <= score < 50.0
    ensures level == High <==> 50.0 <= score < 75.0
    ensures level == Critical <==> 75.0 <= score
  {
    if score < 25.0 then Low
    else if score < 50.0 then Moderate
    else if score < 75.0 then High
    else Critical
  }

  const DroughtResponseText: string := "建議立即啟動抗旱應變措施，調整配水計畫"
  const DispatchText: string := "建議加強水源調度，準備備用水源"
  const NormalOperationText: string := "維持正常灌溉作業"

  /** The recommendation for a level: low and moderate share one text. */
  function RecommendationFor(level: RiskLevel): (text: string)
    ensures text == DroughtResponseText <==> level == Critical
    ensures text == DispatchText <==> level == High
    ensures text == NormalOperationText <==> level == Low || level == Moderate
  {
    match level
    case Critical => DroughtResponseText
    case High => DispatchText
    case _ => NormalOperationText
  }

  /** `word` occurs in `text` as a contiguous substring. */
  predicate Contains(text: string, word: string) {
    exists i :: 0 <= i <= |text| - |word| && OccursAt(text, word, i)
  }

  /** `word` occurs in `text` starting at index `i`. */
  predicate OccursAt(text: string, word: string, i: int) {
    0 <= i <= |text| - |word| && text[i..i + |word|] == word
  }

  /** Opaque annotations recorded with an assessment. */
  datatype Factors = Factors(rainfall: string, temperature: string, cropStage: string)

  /** A generated assessment; quantities are reals (the source formats them to
      two decimals). */
  datatype Assessment = Assessment(
    districtId: int,
    riskLevel: RiskLevel,
    riskScore: real,
    waterSupply: real,
    waterDemand: real,
    supplyDemandRatio: real,
    rainfallForecast: real,
    reservoirStorage: real,
    factors: Factors,
    recommendations: string)

  /** The seven Math.random() draws, in the order the source takes them. */
  datatype Draws = Draws(score: real, supply: real, demand: real, rainfall: real,
                         storage: real, rainfallFactor: real, temperatureFactor: real)

  predicate UnitDraw(u: real) { 0.0 <= u < 1.0 }

  predicate ValidDraws(d: Draws) {
    && UnitDraw(d.score) && UnitDraw(d.supply) && UnitDraw(d.demand) && UnitDraw(d.rainfall)
    && UnitDraw(d.storage) && UnitDraw(d.rainfallFactor) && UnitDraw(d.temperatureFactor)
  }

  function GenerateRiskAssessment(districtId: int, d: Draws): (a: Assessment)
    requires ValidDraws(d)
    ensures a.districtId == districtId
    ensures 0.0 <= a.riskScore < 100.0
    ensures a.riskLevel == RiskLevelOf(a.riskScore)
    ensures 5000.0 <= a.waterSupply < 15000.0
    ensures 4000.0 <= a.waterDemand < 16000.0
    ensures a.supplyDemandRatio * a.waterDemand == a.waterSupply
    ensures 0.0 <= a.rainfallForecast < 100.0
    ensures 50.0 <= a.reservoirStorage < 90.0
    ensures a.recommendations == RecommendationFor(a.riskLevel)
    ensures a.factors.cropStage == "growing"
  {
    var score := d.score * 100.0;
    var supply := d.supply * 10000.0 + 5000.0;
    var demand := d.demand * 12000.0 + 4000.0;
    var level := RiskLevelOf(score);
    Assessment(
      districtId,
      level,
      score,
      supply,
      demand,
      supply / demand,
      d.rainfall * 100.0,
      d.storage * 40.0 + 50.0,
      Factors(if d.rainfallFactor > 0.5 then "below_normal" else "normal",
              if d.temperatureFactor > 0.5 then "above_normal" else "normal",
              "growing"),
      RecommendationFor(level))
  }

  // ---------------------------------------------------------------------
  // Properties

  /** A higher score never gives a less severe level. */
  lemma RiskLevelMonotone(s1: real, s2: real)
    requires s1 <= s2
    ensures Severity(RiskLevelOf(s1)) <= Severity(RiskLevelOf(s2))
  {
  }

  /** The band edges: each boundary belongs to the band above it. */
  lemma RiskLevelBoundaries()
    ensures RiskLevelOf(24.999) == Low && RiskLevelOf(25.0) == Moderate
    ensures RiskLevelOf(49.999) == Moderate && RiskLevelOf(50.0) == High
    ensures RiskLevelOf(74.999) == High && RiskLevelOf(75.0) == Critical
  {
  }

  /** The keyword each recommendation carries: 抗旱應變 (drought response) for
      critical, 水源調度 (water-source dispatch) for high, 正常 (normal) otherwise. */
  lemma RecommendationKeywords(level: RiskLevel)
    ensures level == Critical ==> Contains(RecommendationFor(level), "抗旱應變")
    ensures level == High ==> Contains(RecommendationFor(level), "水源調度")
    ensures level != Critical && level != High ==> Contains(RecommendationFor(level), "正常")
  {
    match level
    case Critical =>
      assert DroughtResponseText == "建議立即啟動" + "抗旱應變" + "措施，調整配水計畫";
      ContainsJoined("建議立即啟動", "抗旱應變", "措施，調整配水計畫");
    case High =>
      assert DispatchText == "建議加強" + "水源調度" + "，準備備用水源";
      ContainsJoined("建議加強", "水源調度", "，準備備用水源");
    case _ =>
      assert NormalOperationText == "維持" + "正常" + "灌溉作業";
      ContainsJoined("維持", "正常", "灌溉作業");
  }

  lemma ContainsJoined(prefix: string, word: string, suffix: string)
    ensures Contains(prefix + word + suffix, word)
  {
    var text := prefix + word + suffix;
    assert text[|prefix|..|prefix| + |word|] == word;
    assert OccursAt(text, word, |prefix|);
  }

  /** The recommendation depends on the score only through its band, and the
      three texts are told apart by their keywords. */
  lemma RecommendationOfScore(score: real)
    ensures score >= 75.0 ==> Contains(RecommendationFor(RiskLevelOf(score)), "抗旱應變")
    ensures 50.0 <= score < 75.0 ==> Contains(RecommendationFor(RiskLevelOf(score)), "水源調度")
    ensures score < 50.0 ==> Contains(RecommendationFor(RiskLevelOf(score)), "正常")
  {
    RecommendationKeywords(RiskLevelOf(score));
  }

  /** The supply/demand ratio is supply over a demand of at least 4000, so it
      is well defined, is not clamped, and lies in (5000/16000, 15000/4000). */
  lemma SupplyDemandRatioBounds(districtId: int, d: Draws)
    requires ValidDraws(d)
    ensures var a := GenerateRiskAssessment(districtId, d);
      && a.waterDemand > 0.0
      && a.supplyDemandRatio == a.waterSupply / a.waterDemand
      && 0.3125 < a.supplyDemandRatio < 3.75
  {
    var a := GenerateRiskAssessment(districtId, d);
    var s, q, r := a.waterSupply, a.waterDemand, a.supplyDemandRatio;
    assert r * q == s;
    // r * q = s > 0.3125 * 16000 > 0.3125 * q
    assert r * q > 0.3125 * q;
    // r * q = s < 3.75 * 4000 <= 3.75 * q
    assert r * q < 3.75 * q;
  }

  /** Supply above demand gives a ratio above 1: the ratio is never capped. */
  lemma SupplyDemandRatioUncapped(districtId: int, d: Draws)
    requires ValidDraws(d)
    requires GenerateRiskAssessment(districtId, d).waterSupply > GenerateRiskAssessment(districtId, d).waterDemand
    ensures GenerateRiskAssessment(districtId, d).supplyDemandRatio > 1.0
  {
    SupplyDemandRatioBounds(districtId, d);
    var a := GenerateRiskAssessment(districtId, d);
    QuotientAboveOne(a.waterSupply, a.waterDemand);
  }

  lemma QuotientAboveOne(s: real, q: real)
    requires s > q > 0.0
    ensures s / q > 1.0
  {
    var r := s / q;
    assert r * q == s;
  }
}
