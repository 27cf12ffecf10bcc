/**
 * The non-visual logic of the product detail sheet
 * (src/components/ProductDetailSheet.tsx): its own copy of the score
 * computation that also reports the three impacts, the good/neutral/bad
 * trend shown beside each impact, and the shares and colour of the impact
 * ring.
 */
module DetailSheet {
  import opened Types
  import opened Distances
  import opened Climate

  /** `ImpactBreakdown`: the three impacts in kg CO2e, their sum and the score. */
  datatype Breakdown = Breakdown(packaging: real, transport: real, production: real, total: real, score: int)

  /** `calculateBreakdown`, written out as the sheet writes it, for a
      product of packaging `t`, `volumeMl` and method `m` that travels `distance` km. */
  function SheetBreakdown(t: PackagingType, distance: nat, volumeMl: real, m: ProductionMethod, s: ClimateSettings): (b: Breakdown)
    requires HasTransportRates(s)
    ensures b.total == b.packaging + b.transport + b.production
    ensures 0 <= b.score <= 100
  {
    var packaging := if t in s.packaging && s.packaging[t] != 0.0 then s.packaging[t] else 0.5;
    var rate := s.transport[TransportMode(distance)];
    var transport := distance as real * rate * (volumeMl / 1000.0) / 1000.0;
    var multiplier := if m in s.production && s.production[m] != 0.0 then s.production[m] else 1.0;
    var production := BaseProductionCo2e * multiplier;
    var total := packaging + transport + production;
    Breakdown(packaging, transport, production, total, SheetScore(total))
  }

  /** The sheet's own rounding of a total: `Math.round((1 - total / maxCO2e) * 100)`
      with `maxCO2e` 2.5, clamped to 0..100. */
  function SheetScore(total: real): (score: int)
    ensures 0 <= score <= 100
  {
    var rounded := ((1.0 - total / 2.5) * 100.0 + 0.5).Floor;
    if rounded > 100 then 100 else if rounded < 0 then 0 else rounded
  }

  /** `calculateBreakdown(product, settings)` */
  function CalculateBreakdown(p: Product, s: ClimateSettings): (b: Breakdown)
    requires HasTransportRates(s)
    ensures b.total == b.packaging + b.transport + b.production
    ensures 0 <= b.score <= 100
  {
    SheetBreakdown(p.packagingType, Distance(p.originCountry), p.volumeMl, p.productionMethod, s)
  }

  /** The sheet's copy agrees with the scoring engine: the same three
      impacts, hence the same total and the same score. */
  lemma BreakdownAgreesWithEngine(p: Product, s: ClimateSettings)
    requires HasTransportRates(s)
    ensures var b := CalculateBreakdown(p, s);
      && b.packaging == PackagingImpact(p.packagingType, s.packaging)
      && b.transport == TransportImpact(Distance(p.originCountry), p.volumeMl, s.transport)
      && b.production == ProductionImpact(p.productionMethod, s.production)
      && b.total == TotalImpact(p, s)
      && b.score == ClimateScore(p, s)
  {
    SheetAgrees(p.packagingType, Distance(p.originCountry), p.volumeMl, p.productionMethod, s);
  }

  // One lemma per impact keeps each proof apart from the others' arithmetic.

  lemma SheetPackagingAgrees(t: PackagingType, distance: nat, volumeMl: real, m: ProductionMethod, s: ClimateSettings)
    requires HasTransportRates(s)
    ensures SheetBreakdown(t, distance, volumeMl, m, s).packaging == PackagingImpact(t, s.packaging)
  {
  }

  lemma SheetTransportAgrees(t: PackagingType, distance: nat, volumeMl: real, m: ProductionMethod, s: ClimateSettings)
    requires HasTransportRates(s)
    ensures SheetBreakdown(t, distance, volumeMl, m, s).transport == TransportImpact(distance, volumeMl, s.transport)
  {
  }

  lemma SheetProductionAgrees(t: PackagingType, distance: nat, volumeMl: real, m: ProductionMethod, s: ClimateSettings)
    requires HasTransportRates(s)
    ensures SheetBreakdown(t, distance, volumeMl, m, s).production == ProductionImpact(m, s.production)
  {
  }

  /** Each impact the sheet computes is the engine's impact, and so is their sum. */
  lemma SheetImpactsAgree(t: PackagingType, distance: nat, volumeMl: real, m: ProductionMethod, s: ClimateSettings)
    requires HasTransportRates(s)
    ensures SheetBreakdown(t, distance, volumeMl, m, s).packaging == PackagingImpact(t, s.packaging)
    ensures SheetBreakdown(t, distance, volumeMl, m, s).transport == TransportImpact(distance, volumeMl, s.transport)
    ensures SheetBreakdown(t, distance, volumeMl, m, s).production == ProductionImpact(m, s.production)
    ensures SheetBreakdown(t, distance, volumeMl, m, s).total == Impacts(t, distance, volumeMl, m, s)
  {
    SheetPackagingAgrees(t, distance, volumeMl, m, s);
    SheetTransportAgrees(t, distance, volumeMl, m, s);
    SheetProductionAgrees(t, distance, volumeMl, m, s);
  }

  /** The sheet's breakdown of a product carried `distance` km matches the
      engine impact by impact, and its score is the engine's score of the total. */
  lemma SheetAgrees(t: PackagingType, distance: nat, volumeMl: real, m: ProductionMethod, s: ClimateSettings)
    requires HasTransportRates(s)
    ensures var b := SheetBreakdown(t, distance, volumeMl, m, s);
      && b.packaging == PackagingImpact(t, s.packaging)
      && b.transport == TransportImpact(distance, volumeMl, s.transport)
      && b.production == ProductionImpact(m, s.production)
      && b.total == Impacts(t, distance, volumeMl, m, s)
      && b.score == ScoreOfTotal(b.total)
  {
    var b := SheetBreakdown(t, distance, volumeMl, m, s);
    SheetImpactsAgree(t, distance, volumeMl, m, s);
    assert b.score == SheetScore(b.total);
    SheetScoreAgrees(b.total);
  }

  /** The sheet rounds and clamps a total exactly as `ScoreOfTotal` does. */
  lemma SheetScoreAgrees(total: real)
    ensures SheetScore(total) == ScoreOfTotal(total)
  {
    assert RawScore(total) == (1.0 - total / 2.5) * 100.0;
  }

  /** The marker shown beside an impact. */
  datatype Trend = Good | Neutral | Bad

  /** Worse trends rank higher. */
  function TrendRank(t: Trend): nat {
    match t
    case Good => 0
    case Neutral => 1
    case Bad => 2
  }

  /** A good marker below `goodBelow`, a bad one above `badAbove`, neutral between. */
  function Classify(impact: real, goodBelow: real, badAbove: real): (t: Trend)
    requires goodBelow <= badAbove
    ensures t == Good <==> impact < goodBelow
    ensures t == Bad <==> impact > badAbove
    ensures t == Neutral <==> goodBelow <= impact <= badAbove
  {
    if impact < goodBelow then Good else if impact > badAbove then Bad else Neutral
  }

  /** `packagingTrend`: good below 0.3 kg, bad above 0.6 kg. */
  function PackagingTrend(b: Breakdown): (t: Trend)
    ensures t == Good <==> b.packaging < 0.3
    ensures t == Bad <==> b.packaging > 0.6
  {
    Classify(b.packaging, 0.3, 0.6)
  }

  /** `transportTrend`: good below 0.2 kg, bad above 0.5 kg. */
  function TransportTrend(b: Breakdown): (t: Trend)
    ensures t == Good <==> b.transport < 0.2
    ensures t == Bad <==> b.transport > 0.5
  {
    Classify(b.transport, 0.2, 0.5)
  }

  /** A smaller impact never gets a worse marker. */
  lemma ClassifyMonotone(lower: real, higher: real, goodBelow: real, badAbove: real)
    requires lower <= higher && goodBelow <= badAbove
    ensures TrendRank(Classify(lower, goodBelow, badAbove)) <= TrendRank(Classify(higher, goodBelow, badAbove))
  {
  }

  /** `productionTrend`: good for organic and biodynamic, neutral for conventional; never bad. */
  function ProductionTrend(m: ProductionMethod): (t: Trend)
    ensures t == Good <==> m == Organic || m == Biodynamic
    ensures t != Bad
  {
    if m == Biodynamic then Good else if m == Organic then Good else Neutral
  }

  /** With the default multipliers the production marker is good exactly
      when production costs less than the base impact. */
  lemma ProductionTrendMatchesDefaultImpact(m: ProductionMethod)
    ensures ProductionTrend(m) == Good <==> ProductionImpact(m, DefaultSettings.production) < BaseProductionCo2e
  {
  }

  /** With the default weights, bag-in-box, PET, cans and cartons are marked
      good, light glass neutral and heavy glass bad. */
  lemma DefaultPackagingTrends(t: PackagingType, distance: nat, volumeMl: real, m: ProductionMethod)
    ensures var trend := PackagingTrend(SheetBreakdown(t, distance, volumeMl, m, DefaultSettings));
      && (t == GlassHeavy ==> trend == Bad)
      && (t == GlassLight ==> trend == Neutral)
      && (t != GlassHeavy && t != GlassLight ==> trend == Good)
  {
    SheetPackagingAgrees(t, distance, volumeMl, m, DefaultSettings);
    var w := PackagingImpact(t, DefaultSettings.packaging);
    match t
    case GlassHeavy => assert w == 0.8;
    case GlassLight => assert w == 0.5;
    case AluminumCan => assert w == 0.2;
    case Pet => assert w == 0.15;
    case BagInBox => assert w == 0.1;
    case Tetra => assert w == 0.08;
  }

  /** The ring's three shares in percent: proportional to the impacts when
      their sum is positive, else 33/33/34. */
  datatype RingShares = RingShares(packaging: real, transport: real, production: real)

  function RingPercents(b: Breakdown): (r: RingShares)
    ensures r.packaging + r.transport + r.production == 100.0
    ensures b.packaging + b.transport + b.production > 0.0 && b.packaging >= 0.0 && b.transport >= 0.0 && b.production >= 0.0
      ==> r.packaging >= 0.0 && r.transport >= 0.0 && r.production >= 0.0
    ensures b.packaging + b.transport + b.production > 0.0 ==>
      r.packaging * (b.packaging + b.transport + b.production) == b.packaging * 100.0
    ensures b.packaging + b.transport + b.production > 0.0 ==>
      r.transport * (b.packaging + b.transport + b.production) == b.transport * 100.0
    ensures b.packaging + b.transport + b.production > 0.0 ==>
      r.production * (b.packaging + b.transport + b.production) == b.production * 100.0
    ensures b.packaging + b.transport + b.production <= 0.0 ==> r == RingShares(33.0, 33.0, 34.0)
  {
    var total := b.packaging + b.transport + b.production;
    if total > 0.0 then
      var r := RingShares(b.packaging / total * 100.0, b.transport / total * 100.0, b.production / total * 100.0);
      assert r.packaging + r.transport + r.production == (b.packaging + b.transport + b.production) / total * 100.0;
      r
    else RingShares(33.0, 33.0, 34.0)
  }

  /** The colour of the score in the middle of the ring. */
  datatype RingColour = ScoreGreen | ScoreYellow | ScoreRed

  /** `badgeColor`: green from 66, yellow from 33, red below. */
  function RingColourOf(score: int): (c: RingColour)
    ensures c == ScoreGreen <==> score >= 66
    ensures c == ScoreRed <==> score < 33
  {
    if score >= 66 then ScoreGreen else if score >= 33 then ScoreYellow else ScoreRed
  }

  /** The ring and the badge use the same cut-offs. */
  lemma RingColourMatchesBadge(score: int)
    ensures RingColourOf(score) == match Badge(score)
      case Green => ScoreGreen
      case Yellow => ScoreYellow
      case Red => ScoreRed
  {
  }
}
