/**
 * The scoring engine (src/lib/climate-calculator.ts): a product's packaging,
 * transport and production impacts in kg CO2e, their sum normalised to an
 * integer score from 0 to 100, and the three-tier badge for a score.
 */
module Climate {
  import opened Types
  import opened JsObjects
  import opened Distances

  /** kg CO2e of growing and making one bottle, before the production multiplier. */
  const BaseProductionCo2e: real := 0.4

  /** The total impact that scores 0. */
  const MaxCo2e: real := 2.5

  /** Farther than this many km travels by sea, otherwise by road. */
  const SeaFreightBeyondKm: int := 3500

  /** Weights used until the user changes them. */
  const DefaultSettings: ClimateSettings := ClimateSettings(
    map[GlassHeavy := 0.8, GlassLight := 0.5, AluminumCan := 0.2, Pet := 0.15, BagInBox := 0.1, Tetra := 0.08],
    map[Sea := 0.01, Road := 0.05, Air := 0.5],
    map[Conventional := 1.0, Organic := 0.85, Biodynamic := 0.75],
    Thresholds(100.0, 50.0))

  lemma DefaultSettingsWellTyped()
    ensures WellTyped(DefaultSettings)
  {
    forall t: PackagingType ensures t in DefaultSettings.packaging {
      match t
      case GlassHeavy => case GlassLight => case AluminumCan => case Pet => case BagInBox => case Tetra =>
    }
    forall m: TransportMethod ensures m in DefaultSettings.transport {
      match m
      case Sea => case Road => case Air =>
    }
    forall m: ProductionMethod ensures m in DefaultSettings.production {
      match m
      case Conventional => case Organic => case Biodynamic =>
    }
  }

  /** The two rates the score can read; the engine has no fallback for them. */
  predicate HasTransportRates(s: ClimateSettings) {
    Sea in s.transport && Road in s.transport
  }

  /** `getTransportMode`: sea strictly beyond the threshold, road otherwise;
      air is never chosen. */
  function TransportMode(distanceKm: int): (m: TransportMethod)
    ensures m != Air
    ensures m == Sea <==> distanceKm > SeaFreightBeyondKm
  {
    if distanceKm > SeaFreightBeyondKm then Sea else Road
  }

  /** `settings.packaging[type] || 0.5`: an absent or zero weight falls back to 0.5. */
  function PackagingImpact(t: PackagingType, weights: map<PackagingType, real>): (kg: real)
    ensures kg != 0.0
    ensures t in weights && weights[t] != 0.0 ==> kg == weights[t]
    ensures t !in weights || weights[t] == 0.0 ==> kg == 0.5
  {
    if t in weights && weights[t] != 0.0 then weights[t] else 0.5
  }

  /** Distance times the mode's rate times litres, per thousand. */
  function TransportImpact(km: nat, volumeMl: real, rates: map<TransportMethod, real>): (kg: real)
    requires Sea in rates && Road in rates
    ensures km == 0 ==> kg == 0.0
    ensures km > SeaFreightBeyondKm ==> kg == km as real * rates[Sea] * volumeMl / 1000000.0
    ensures km <= SeaFreightBeyondKm ==> kg == km as real * rates[Road] * volumeMl / 1000000.0
  {
    km as real * rates[TransportMode(km)] * (volumeMl / 1000.0) / 1000.0
  }

  /** `BASE_PRODUCTION_CO2E * (settings.production[method] || 1)`: an absent
      or zero multiplier falls back to 1. */
  function ProductionImpact(m: ProductionMethod, multipliers: map<ProductionMethod, real>): (kg: real)
    ensures kg != 0.0
    ensures m in multipliers && multipliers[m] != 0.0 ==> kg == BaseProductionCo2e * multipliers[m]
    ensures m !in multipliers || multipliers[m] == 0.0 ==> kg == BaseProductionCo2e
  {
    BaseProductionCo2e * (if m in multipliers && multipliers[m] != 0.0 then multipliers[m] else 1.0)
  }

  /** `Math.round`: the nearest integer, halves rounded up. */
  function Round(x: real): (n: int)
    ensures n as real - 0.5 <= x < n as real + 0.5
  {
    (x + 0.5).Floor
  }

  /** The un-rounded score: 100 at zero impact, 0 at `MaxCo2e`. */
  function RawScore(totalCo2e: real): real {
    (1.0 - totalCo2e / MaxCo2e) * 100.0
  }

  /** `Math.max(0, Math.min(100, Math.round(raw)))`: the raw score rounded
      to the nearest integer and clamped to 0..100. */
  function ScoreOfTotal(totalCo2e: real): (score: int)
    ensures 0 <= score <= 100
    ensures 0 < score < 100 ==> score as real - 0.5 <= RawScore(totalCo2e) < score as real + 0.5
    ensures score == 0 <==> RawScore(totalCo2e) < 0.5
    ensures score == 100 <==> RawScore(totalCo2e) >= 99.5
  {
    var r := Round(RawScore(totalCo2e));
    if r > 100 then 100 else if r < 0 then 0 else r
  }

  /** Lower total impact never scores lower. */
  lemma ScoreNonIncreasing(lower: real, higher: real)
    requires lower <= higher
    ensures ScoreOfTotal(lower) >= ScoreOfTotal(higher)
  {
    assert RawScore(lower) >= RawScore(higher);
  }

  /** The sum of the three impacts of a product with packaging `t`,
      carried `km`, of `volumeMl` and made by method `m`. */
  function Impacts(t: PackagingType, km: nat, volumeMl: real, m: ProductionMethod, s: ClimateSettings): real
    requires HasTransportRates(s)
  {
    PackagingImpact(t, s.packaging) + TransportImpact(km, volumeMl, s.transport) + ProductionImpact(m, s.production)
  }

  /** The sum of the three impacts of a product under `s`. */
  function TotalImpact(p: Product, s: ClimateSettings): real
    requires HasTransportRates(s)
  {
    Impacts(p.packagingType, Distance(p.originCountry), p.volumeMl, p.productionMethod, s)
  }

  /** `calculateClimateScore`: an integer in 0..100 for every product and
      every settings value, whatever the volume or distance. */
  function ClimateScore(p: Product, s: ClimateSettings): (score: int)
    requires HasTransportRates(s)
    ensures 0 <= score <= 100
  {
    ScoreOfTotal(TotalImpact(p, s))
  }

  /** `getBadge`: green from 66, yellow from 33, red below. */
  function Badge(score: int): (b: ScoreBadge)
    ensures b == Green <==> score >= 66
    ensures b == Yellow <==> 33 <= score < 66
    ensures b == Red <==> score < 33
  {
    if score >= 66 then Green else if score >= 33 then Yellow else Red
  }

  /** Badges ordered from worst to best. */
  function BadgeRank(b: ScoreBadge): nat {
    match b
    case Red => 0
    case Yellow => 1
    case Green => 2
  }

  /** A higher score never gets a worse badge. */
  lemma BadgeMonotone(lower: int, higher: int)
    requires lower <= higher
    ensures BadgeRank(Badge(lower)) <= BadgeRank(Badge(higher))
  {
  }

  /** With a home-market origin the transport impact vanishes, so the score
      depends on packaging and production alone and not on the volume. */
  lemma HomeMarketIgnoresVolume(p: Product, s: ClimateSettings, volumeMl: real)
    requires HasTransportRates(s)
    requires Distance(p.originCountry) == 0
    ensures ClimateScore(p, s) == ScoreOfTotal(PackagingImpact(p.packagingType, s.packaging) + ProductionImpact(p.productionMethod, s.production))
    ensures ClimateScore(p.(volumeMl := volumeMl), s) == ClimateScore(p, s)
  {
    assert TransportImpact(0, volumeMl, s.transport) == 0.0 == TransportImpact(0, p.volumeMl, s.transport);
  }

  /** A zero packaging weight counts as 0.5, as does an absent one. */
  lemma FalsyPackagingWeightFallsBack(p: Product, s: ClimateSettings)
    requires HasTransportRates(s)
    ensures ClimateScore(p, s.(packaging := s.packaging[p.packagingType := 0.0]))
         == ClimateScore(p, s.(packaging := s.packaging[p.packagingType := 0.5]))
    ensures ClimateScore(p, s.(packaging := s.packaging - {p.packagingType}))
         == ClimateScore(p, s.(packaging := s.packaging[p.packagingType := 0.5]))
  {
  }

  /** A zero production multiplier counts as 1, as does an absent one. */
  lemma FalsyProductionMultiplierFallsBack(p: Product, s: ClimateSettings)
    requires HasTransportRates(s)
    ensures ClimateScore(p, s.(production := s.production[p.productionMethod := 0.0]))
         == ClimateScore(p, s.(production := s.production[p.productionMethod := 1.0]))
    ensures ClimateScore(p, s.(production := s.production - {p.productionMethod}))
         == ClimateScore(p, s.(production := s.production[p.productionMethod := 1.0]))
  {
  }

  /** The air rate never enters the transport impact. */
  lemma TransportIgnoresAir(km: nat, volumeMl: real, rates: map<TransportMethod, real>, airRate: real)
    requires Sea in rates && Road in rates
    ensures TransportImpact(km, volumeMl, rates[Air := airRate]) == TransportImpact(km, volumeMl, rates)
  {
    assert rates[Air := airRate][TransportMode(km)] == rates[TransportMode(km)];
  }

  /** The air rate is configurable but never read. */
  lemma AirRateIgnored(p: Product, s: ClimateSettings, airRate: real)
    requires HasTransportRates(s)
    ensures ClimateScore(p, s.(transport := s.transport[Air := airRate])) == ClimateScore(p, s)
  {
    TransportIgnoresAir(Distance(p.originCountry), p.volumeMl, s.transport, airRate);
  }

  /** The thresholds are configurable but never read by the score. */
  lemma ThresholdsIgnored(p: Product, s: ClimateSettings, th: Thresholds)
    requires HasTransportRates(s)
    ensures ClimateScore(p, s.(thresholds := th)) == ClimateScore(p, s)
  {
  }

  /** A 75 cl heavy conventional bottle from France: 0.8 + 0.0675 + 0.4 kg
      CO2e, raw score 49.3, score 49, yellow. */
  lemma FrenchBottleScore(p: Product)
    requires p.volumeMl == 750.0 && p.originCountry == "France"
    requires p.packagingType == GlassHeavy && p.productionMethod == Conventional
    ensures ClimateScore(p, DefaultSettings) == 49
    ensures Badge(ClimateScore(p, DefaultSettings)) == Yellow
  {
    AliasesAgree();
    RoadBottleTotal();
    assert RawScore(1.2675) == 49.3;
  }

  /** The impacts of a 75 cl heavy conventional bottle carried 1800 km by road. */
  lemma RoadBottleTotal()
    ensures Impacts(GlassHeavy, 1800, 750.0, Conventional, DefaultSettings) == 1.2675
  {
    assert TransportMode(1800) == Road;
    assert TransportImpact(1800, 750.0, DefaultSettings.transport) == 0.0675;
  }

  /** A 75 cl organic bag-in-box from Sweden: 0.1 + 0 + 0.34 kg CO2e, raw
      score 82.4, score 82, green. */
  lemma SwedishBoxScore(p: Product)
    requires p.volumeMl == 750.0 && p.originCountry == "Sverige"
    requires p.packagingType == BagInBox && p.productionMethod == Organic
    ensures ClimateScore(p, DefaultSettings) == 82
    ensures Badge(ClimateScore(p, DefaultSettings)) == Green
  {
    SwedenIsHome();
    assert TransportImpact(0, 750.0, DefaultSettings.transport) == 0.0;
    assert RawScore(0.1 + 0.0 + 0.4 * 0.85) == 82.4;
  }

  /** The label table for packaging types. */
  const PackagingLabels: seq<(string, string)> := [
    (PackagingKey(GlassHeavy), "Tung glasflaska"),
    (PackagingKey(GlassLight), "Lätt glasflaska"),
    (PackagingKey(AluminumCan), "Aluminiumburk"),
    (PackagingKey(Pet), "PET-flaska"),
    (PackagingKey(BagInBox), "Bag-in-box"),
    (PackagingKey(Tetra), "Tetra Pak")
  ]

  /** The label table for production methods. */
  const ProductionLabels: seq<(string, string)> := [
    (ProductionKey(Conventional), "Konventionell"),
    (ProductionKey(Organic), "Ekologisk"),
    (ProductionKey(Biodynamic), "Biodynamisk")
  ]

  /** `labels[key] || key` over an own-property table. */
  function LabelOf(labels: seq<(string, string)>, key: string): (text: string)
    ensures OwnValue(labels, key).None? ==> text == key
    ensures OwnValue(labels, key).Some? && OwnValue(labels, key).value != "" ==> text == OwnValue(labels, key).value
    ensures OwnValue(labels, key).Some? && OwnValue(labels, key).value == "" ==> text == key
  {
    match OwnValue(labels, key)
    case Some(l) => if l != "" then l else key
    case None => key
  }

  /** `getPackagingLabel`: the label of the first entry for `key`, or `key`
      itself when the table has none. */
  function PackagingLabel(key: string): (text: string)
    ensures text == key || exists i :: 0 <= i < |PackagingLabels| && PackagingLabels[i].0 == key && PackagingLabels[i].1 == text
    ensures (forall i :: 0 <= i < |PackagingLabels| ==> PackagingLabels[i].0 != key) ==> text == key
  {
    LabelOf(PackagingLabels, key)
  }

  /** `getProductionMethodLabel`, likewise over the method labels. */
  function ProductionLabel(key: string): (text: string)
    ensures text == key || exists i :: 0 <= i < |ProductionLabels| && ProductionLabels[i].0 == key && ProductionLabels[i].1 == text
    ensures (forall i :: 0 <= i < |ProductionLabels| ==> ProductionLabels[i].0 != key) ==> text == key
  {
    LabelOf(ProductionLabels, key)
  }

  /** Each packaging type gets its fixed Swedish label. */
  lemma PackagingLabelsFixed(t: PackagingType)
    ensures PackagingLabel(PackagingKey(t)) == match t
      case GlassHeavy => "Tung glasflaska"
      case GlassLight => "Lätt glasflaska"
      case AluminumCan => "Aluminiumburk"
      case Pet => "PET-flaska"
      case BagInBox => "Bag-in-box"
      case Tetra => "Tetra Pak"
  {
    match t
    case GlassHeavy => OwnValueAt(PackagingLabels, "glass_heavy", 0);
    case GlassLight =>
      assert PackagingLabels[0].0 != "glass_light" by { assert PackagingLabels[0].0[6] != "glass_light"[6]; }
      OwnValueAt(PackagingLabels, "glass_light", 1);
    case AluminumCan => OwnValueAt(PackagingLabels, "aluminum_can", 2);
    case Pet => OwnValueAt(PackagingLabels, "pet", 3);
    case BagInBox => OwnValueAt(PackagingLabels, "bag_in_box", 4);
    case Tetra => OwnValueAt(PackagingLabels, "tetra", 5);
  }

  /** A string that names no packaging type is its own label. */
  lemma PackagingLabelPassesThrough(key: string)
    requires forall t :: key != PackagingKey(t)
    ensures PackagingLabel(key) == key
  {
    assert key != PackagingKey(GlassHeavy) && key != PackagingKey(GlassLight) && key != PackagingKey(AluminumCan);
    assert key != PackagingKey(Pet) && key != PackagingKey(BagInBox) && key != PackagingKey(Tetra);
    assert OwnValue(PackagingLabels, key).None?;
  }

  /** Each production method gets its fixed Swedish label. */
  lemma ProductionLabelsFixed()
    ensures ProductionLabel(ProductionKey(Conventional)) == "Konventionell"
    ensures ProductionLabel(ProductionKey(Organic)) == "Ekologisk"
    ensures ProductionLabel(ProductionKey(Biodynamic)) == "Biodynamisk"
  {
    OwnValueAt(ProductionLabels, "conventional", 0);
    OwnValueAt(ProductionLabels, "organic", 1);
    OwnValueAt(ProductionLabels, "biodynamic", 2);
  }

  /** A string that names no production method is its own label. */
  lemma ProductionLabelPassesThrough(key: string)
    requires forall m :: key != ProductionKey(m)
    ensures ProductionLabel(key) == key
  {
    assert key != ProductionKey(Conventional) && key != ProductionKey(Organic) && key != ProductionKey(Biodynamic);
    assert OwnValue(ProductionLabels, key).None?;
  }
}
