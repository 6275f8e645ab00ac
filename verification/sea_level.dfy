/**
 The sea-level projector: a degree-2 polynomial fitted once to a fixed
 historical series, scaled per request by a climate scenario and by a
 vulnerability factor derived from the location's elevation and estimated
 coastal distance, and turned into a flooding-risk percentage per year.
 */
module SeaLevel {
  import opened Wrappers
  import opened PyBuiltins
  import opened Coastal
  import Scenarios
  import StringOrder

  // ---------------------------------------------------------------- vulnerability

  datatype Tier = Low | Moderate | High | Critical {

    function Rank(): nat {
      match this
      case Low => 0
      case Moderate => 1
      case High => 2
      case Critical => 3
    }

    function Name(): string {
      match this
      case Low => "low"
      case Moderate => "moderate"
      case High => "high"
      case Critical => "critical"
    }

    /** The local amplification of the global rise for this tier. */
    function Factor(): real {
      match this
      case Low => 0.9
      case Moderate => 1.2
      case High => 1.5
      case Critical => 1.8
    }
  }

  /** A more exposed tier amplifies the rise more, so the factor identifies the tier. */
  lemma FactorFollowsTier(a: Tier, b: Tier)
    ensures a.Rank() < b.Rank() <==> a.Factor() < b.Factor()
    ensures a.Factor() == b.Factor() <==> a == b
  {
  }

  /** Each factor is already a two-decimal number, so `round(factor, 2)` keeps it. */
  lemma FactorIsTwoDecimal(t: Tier)
    ensures Round2(t.Factor()) == t.Factor()
  {
    match t
    case Low => RoundToExact(90, Two);
    case Moderate => RoundToExact(120, Two);
    case High => RoundToExact(150, Two);
    case Critical => RoundToExact(180, Two);
  }

  datatype Vulnerability = Vulnerability(tier: Tier, factor: real)

  /** The vulnerability cascade: the first tier whose elevation or distance condition holds. */
  function AssessVulnerability(elevation: real, coastalDistance: int): (v: Vulnerability)
    ensures v.factor == v.tier.Factor()
    ensures v.tier == Critical <==> elevation <= 5.0 || coastalDistance < 10
    ensures v.tier == Low <==> elevation > 30.0 && coastalDistance >= 100
    ensures v.tier.Rank() >= 2 <==> elevation <= 15.0 || coastalDistance < 50
    ensures v.tier.Rank() >= 1 <==> elevation <= 30.0 || coastalDistance < 100
  {
    if elevation <= 5.0 || coastalDistance < 10 then Vulnerability(Critical, 1.8)
    else if elevation <= 15.0 || coastalDistance < 50 then Vulnerability(High, 1.5)
    else if elevation <= 30.0 || coastalDistance < 100 then Vulnerability(Moderate, 1.2)
    else Vulnerability(Low, 0.9)
  }

  /** Lower ground or a nearer coast never gives a less exposed tier. */
  lemma VulnerabilityMonotone(e1: real, e2: real, d1: int, d2: int)
    requires e1 <= e2 && d1 <= d2
    ensures AssessVulnerability(e1, d1).tier.Rank() >= AssessVulnerability(e2, d2).tier.Rank()
    ensures AssessVulnerability(e1, d1).factor >= AssessVulnerability(e2, d2).factor
  {
  }

  /**
   With distances drawn from the coastal lookup (5, 10 or 200 km), the tier
   is critical iff the ground is at most 5 m or a 5 km box matched, and the
   two lowest tiers occur only for points in no box.
   */
  lemma VulnerabilityOfEstimatedDistance(elevation: real, lat: real, lon: real)
    ensures
      var d := EstimateCoastalDistance(lat, lon);
      var t := AssessVulnerability(elevation, d).tier;
      (t == Critical <==> elevation <= 5.0 || d == 5)
    ensures
      var d := EstimateCoastalDistance(lat, lon);
      var t := AssessVulnerability(elevation, d).tier;
      (t == High <==> elevation > 5.0 && (d == 10 || (elevation <= 15.0 && d == INLAND_DISTANCE)))
    ensures
      var d := EstimateCoastalDistance(lat, lon);
      var t := AssessVulnerability(elevation, d).tier;
      (t == Moderate <==> 15.0 < elevation <= 30.0 && d == INLAND_DISTANCE)
    ensures
      var d := EstimateCoastalDistance(lat, lon);
      var t := AssessVulnerability(elevation, d).tier;
      (t == Low <==> elevation > 30.0 && d == INLAND_DISTANCE)
  {
    var d := EstimateCoastalDistance(lat, lon);
    assert d == 5 || d == 10 || d == INLAND_DISTANCE;
  }

  // ---------------------------------------------------------------- regression model

  /** The calibration series: year and global mean sea level in mm. */
  const HISTORICAL_YEARS: seq<int> := [
    1900, 1910, 1920, 1930, 1940, 1950, 1960, 1970, 1980, 1990,
    2000, 2005, 2010, 2015, 2020, 2021, 2022, 2023, 2024]

  const HISTORICAL_LEVELS: seq<real> := [
    0.0, 10.0, 15.0, 25.0, 40.0, 50.0, 70.0, 95.0, 120.0, 155.0,
    205.0, 225.0, 245.0, 270.0, 282.0, 287.0, 291.0, 298.0, 305.0]

  /** The series has 19 points, years strictly increasing and levels never falling. */
  lemma CalibrationSeries()
    ensures |HISTORICAL_YEARS| == |HISTORICAL_LEVELS| == 19
    ensures forall i :: 0 < i < 19 ==> HISTORICAL_YEARS[i - 1] < HISTORICAL_YEARS[i]
    ensures forall i :: 0 < i < 19 ==> HISTORICAL_LEVELS[i - 1] <= HISTORICAL_LEVELS[i]
  {
  }

  /**
   A fitted degree-2 polynomial: level(year) = c0 + c1·year + c2·year².
   The coefficients come from the least-squares fit and are not modelled.
   */
  datatype Poly = Poly(c0: real, c1: real, c2: real) {
    function Eval(year: int): real {
      var y := year as real;
      c0 + c1 * y + c2 * y * y
    }
  }

  // ---------------------------------------------------------------- flooding risk

  /**
   The flooding-risk percentage: the rise relative to the ground height
   (in mm) above sea level, or a base of 80 at or below sea level, capped at
   100 and halved for points more than 100 km from the coast.
   */
  function FloodingRisk(localRise: real, elevation: real, coastalDistance: int): (r: real)
    ensures r <= 100.0
    ensures coastalDistance > 100 ==> r <= 50.0
    ensures localRise >= 0.0 ==> r >= 0.0
    ensures elevation <= 0.0 && localRise >= 0.0 ==> r >= (if coastalDistance > 100 then 40.0 else 80.0)
    ensures elevation > 0.0 && coastalDistance <= 100 && localRise <= elevation * 1000.0 ==> r == localRise / (elevation * 10.0)
    ensures elevation > 0.0 && localRise >= elevation * 1000.0 ==> r == (if coastalDistance > 100 then 50.0 else 100.0)
    ensures elevation <= 0.0 && coastalDistance <= 100 && localRise <= 200.0 ==> r == 80.0 + localRise / 10.0
    ensures elevation <= 0.0 && localRise >= 200.0 ==> r == (if coastalDistance > 100 then 50.0 else 100.0)
  {
    var base :=
      if elevation > 0.0 then
        RiseRatio(localRise, elevation);
        Min(100.0, (localRise / (elevation * 1000.0)) * 100.0)
      else Min(100.0, 80.0 + (localRise / 10.0));
    if coastalDistance > 100 then base * 0.5 else base
  }

  /** The rise as a percentage of the ground height in mm, and where it reaches 100. */
  lemma RiseRatio(localRise: real, elevation: real)
    requires elevation > 0.0
    ensures (localRise / (elevation * 1000.0)) * 100.0 == localRise / (elevation * 10.0)
    ensures localRise <= elevation * 1000.0 <==> localRise / (elevation * 10.0) <= 100.0
    ensures localRise >= elevation * 1000.0 <==> localRise / (elevation * 10.0) >= 100.0
  {
    var h := elevation * 10.0;
    assert elevation * 1000.0 == h * 100.0;
    var q := localRise / h;
    assert q * h == localRise;
    assert (localRise / (h * 100.0)) * (h * 100.0) == localRise;
  }

  /** Inland dampening: far from the coast the risk is exactly half the coastal risk. */
  lemma InlandHalvesFloodingRisk(localRise: real, elevation: real, inland: int, coastal: int)
    requires inland > 100 >= coastal
    ensures FloodingRisk(localRise, elevation, inland) == 0.5 * FloodingRisk(localRise, elevation, coastal)
  {
  }

  lemma DivMonotone(a: real, b: real, h: real)
    requires a <= b && h > 0.0
    ensures a / h <= b / h
  {
    var q := (b - a) / h;
    assert q * h == b - a;
    assert q >= 0.0;
    assert b / h - a / h == q;
  }

  /** A larger local rise never lowers the flooding risk. */
  lemma FloodingRiskMonotone(r1: real, r2: real, elevation: real, coastalDistance: int)
    requires r1 <= r2
    ensures FloodingRisk(r1, elevation, coastalDistance) <= FloodingRisk(r2, elevation, coastalDistance)
  {
    if elevation > 0.0 {
      DivMonotone(r1, r2, elevation * 1000.0);
    }
  }

  // ---------------------------------------------------------------- projection

  datatype YearPrediction = YearPrediction(
    year: int,
    globalRise: real,
    localRise: real,
    elevation: real,
    floodingRisk: real,
    vulnerability: Tier)

  /**
   A year's record for given global and local rises: the flooding risk is
   derived from the local rise, and all three figures are rounded to two
   decimals.
   */
  function Report(year: int, globalRise: real, localRise: real, elevation: real, coastalDistance: int, tier: Tier): (p: YearPrediction)
    ensures p.year == year && p.elevation == elevation && p.vulnerability == tier
    ensures globalRise - 0.005 <= p.globalRise <= globalRise + 0.005
    ensures localRise - 0.005 <= p.localRise <= localRise + 0.005
    ensures p.floodingRisk <= 100.0
    ensures coastalDistance > 100 ==> p.floodingRisk <= 50.0
    ensures
      var f := FloodingRisk(localRise, elevation, coastalDistance);
      f - 0.005 <= p.floodingRisk <= f + 0.005
  {
    var floodingRisk := FloodingRisk(localRise, elevation, coastalDistance);
    RoundToAtMost(floodingRisk, if coastalDistance > 100 then 50 else 100, Two);
    YearPrediction(year, Round2(globalRise), Round2(localRise), elevation, Round2(floodingRisk), tier)
  }

  /**
   Whether `p` is the record of `year` projected from the fitted level
   `projected`: the global rise is the scaled level, the local rise scales
   that by the vulnerability factor, and the flooding risk is the one the
   local rise gives, each up to two-decimal rounding.
   */
  predicate ProjectsYear(p: YearPrediction, year: int, projected: real, multiplier: real, v: Vulnerability, elevation: real, coastalDistance: int) {
    var g := projected * multiplier;
    var f := FloodingRisk(g * v.factor, elevation, coastalDistance);
    && p.year == year
    && g - 0.005 <= p.globalRise <= g + 0.005
    && g * v.factor - 0.005 <= p.localRise <= g * v.factor + 0.005
    && f - 0.005 <= p.floodingRisk <= f + 0.005
  }

  /**
   One year's projection from the fitted level `projected` for that year,
   with the reported figures rounded to two decimals.
   */
  function PredictYear(year: int, projected: real, multiplier: real, v: Vulnerability, elevation: real, coastalDistance: int): (p: YearPrediction)
    ensures ProjectsYear(p, year, projected, multiplier, v, elevation, coastalDistance)
    ensures p.elevation == elevation && p.vulnerability == v.tier
    ensures p.floodingRisk <= 100.0
    ensures coastalDistance > 100 ==> p.floodingRisk <= 50.0
  {
    Report(year, projected * multiplier, projected * multiplier * v.factor, elevation, coastalDistance, v.tier)
  }

  /** The projection of every requested year, in the order given. */
  function PredictYears(model: Poly, years: seq<int>, multiplier: real, v: Vulnerability, elevation: real, coastalDistance: int): (ps: seq<YearPrediction>)
    ensures |ps| == |years|
    ensures forall i :: 0 <= i < |years| ==> ps[i] == PredictYear(years[i], model.Eval(years[i]), multiplier, v, elevation, coastalDistance)
  {
    if years == [] then
      []
    else
      [PredictYear(years[0], model.Eval(years[0]), multiplier, v, elevation, coastalDistance)]
      + PredictYears(model, years[1..], multiplier, v, elevation, coastalDistance)
  }

  // ---------------------------------------------------------------- the predictor

  /** A reference city's fixed vulnerability record. */
  datatype CityProfile = CityProfile(factor: real, elevation: real, vulnerability: Tier)

  /** The reference table, in the order it is written. */
  const CITY_FACTORS: seq<(string, CityProfile)> := [
    ("Miami", CityProfile(1.8, 2.0, Critical)),
    ("Venice", CityProfile(2.0, 1.0, Critical)),
    ("Amsterdam", CityProfile(1.6, -2.0, Critical)),
    ("Mumbai", CityProfile(1.5, 14.0, Critical)),
    ("Shanghai", CityProfile(1.7, 4.0, Critical)),
    ("Jakarta", CityProfile(1.9, 8.0, Critical)),
    ("Bangkok", CityProfile(1.7, 1.5, Critical)),
    ("New York", CityProfile(1.4, 10.0, High)),
    ("London", CityProfile(1.3, 11.0, High)),
    ("Tokyo", CityProfile(1.2, 40.0, Moderate)),
    ("Sydney", CityProfile(1.1, 58.0, Moderate)),
    ("Delhi", CityProfile(1.0, 216.0, Low))
  ]

  function CityNames(table: seq<(string, CityProfile)>): (names: seq<string>)
    ensures |names| == |table|
    ensures forall i :: 0 <= i < |table| ==> names[i] == table[i].0
  {
    seq(|table|, i requires 0 <= i < |table| => table[i].0)
  }

  /**
   The projector's state: whether it has been trained, the fitted model,
   how many fits have run, and the reference table.
   */
  datatype Predictor = Predictor(
    isTrained: bool,
    model: Option<Poly>,
    fitCount: nat,
    cityFactors: seq<(string, CityProfile)>)

  /** A model is held exactly when the predictor is trained. */
  predicate Valid(p: Predictor) {
    p.isTrained <==> p.model.Some?
  }

  /** A fresh, untrained predictor. */
  function NewPredictor(): (p: Predictor)
    ensures Valid(p) && !p.isTrained && p.fitCount == 0
    ensures p.cityFactors == CITY_FACTORS
  {
    Predictor(false, None, 0, CITY_FACTORS)
  }

  /** `train`: fits the polynomial (its result supplied as `fit`) and marks the predictor trained. */
  function Train(p: Predictor, fit: Poly): (q: Predictor)
    ensures Valid(q) && q.isTrained && q.model == Some(fit)
    ensures q.fitCount == p.fitCount + 1
    ensures q.cityFactors == p.cityFactors
  {
    Predictor(true, Some(fit), p.fitCount + 1, p.cityFactors)
  }

  /** The module-level predictor, trained once at start-up. */
  function Startup(fit: Poly): (p: Predictor)
    ensures Valid(p) && p.isTrained && p.fitCount == 1 && p.model == Some(fit)
    ensures p.cityFactors == CITY_FACTORS
  {
    Train(NewPredictor(), fit)
  }

  datatype CityPrediction = CityPrediction(
    city: string,
    predictions: seq<YearPrediction>,
    cityFactor: real,
    elevation: real,
    vulnerability: Tier)

  /**
   `predict_any_city`: trains first if needed, then projects every target
   year for the location. The reference table is not consulted.
   */
  function PredictAnyCity(p: Predictor, fit: Poly, city: string, coordinates: map<string, real>, targetYears: seq<int>, scenario: string): (out: (Predictor, CityPrediction))
    requires Valid(p)
    ensures Valid(out.0) && out.0.isTrained
    ensures out.0.fitCount == if p.isTrained then p.fitCount else p.fitCount + 1
    ensures p.isTrained ==> out.0 == p
    ensures !p.isTrained ==> out.0 == Train(p, fit)
    ensures out.0.cityFactors == p.cityFactors
    ensures
      var q, res := out.0, out.1;
      var elevation := Get(coordinates, "elevation", 50.0);
      var d := EstimateCoastalDistance(Get(coordinates, "lat", 0.0), Get(coordinates, "lon", 0.0));
      var v := AssessVulnerability(elevation, d);
      var m := Scenarios.ScenarioMultiplier(scenario);
      && res.city == city
      && res.elevation == elevation
      && res.vulnerability == v.tier
      && res.cityFactor == v.factor
      && |res.predictions| == |targetYears|
      && forall i :: 0 <= i < |targetYears| ==>
           ProjectsYear(res.predictions[i], targetYears[i], q.model.value.Eval(targetYears[i]), m, v, elevation, d)
  {
    var q := if p.isTrained then p else Train(p, fit);
    var lat := Get(coordinates, "lat", 0.0);
    var lon := Get(coordinates, "lon", 0.0);
    var elevation := Get(coordinates, "elevation", 50.0);
    var coastalDistance := EstimateCoastalDistance(lat, lon);
    var v := AssessVulnerability(elevation, coastalDistance);
    var multiplier := Scenarios.ScenarioMultiplier(scenario);
    var predictions := PredictYears(q.model.value, targetYears, multiplier, v, elevation, coastalDistance);
    FactorIsTwoDecimal(v.tier);
    (q, CityPrediction(city, predictions, Round2(v.factor), elevation, v.tier))
  }

  /**
   Every requested year is projected in order at the location's elevation
   and tier: the global rise follows the scenario-scaled model, the local
   rise scales it by the vulnerability factor, and the flooding risk is the
   one that local rise gives, capped at 100, or at 50 away from every
   coastal box.
   */
  lemma PredictionsPerYear(p: Predictor, fit: Poly, city: string, coordinates: map<string, real>, targetYears: seq<int>, scenario: string, i: int)
    requires Valid(p) && 0 <= i < |targetYears|
    ensures
      var (q, res) := PredictAnyCity(p, fit, city, coordinates, targetYears, scenario);
      var pr := res.predictions[i];
      var m := Scenarios.ScenarioMultiplier(scenario);
      var e := Get(coordinates, "elevation", 50.0);
      var d := EstimateCoastalDistance(Get(coordinates, "lat", 0.0), Get(coordinates, "lon", 0.0));
      && ProjectsYear(pr, targetYears[i], q.model.value.Eval(targetYears[i]), m, AssessVulnerability(e, d), e, d)
      && pr.elevation == res.elevation
      && pr.vulnerability == res.vulnerability
      && pr.floodingRisk <= 100.0
      && (d == INLAND_DISTANCE ==> pr.floodingRisk <= 50.0)
  {
  }

  /** Once trained, a predictor is never refit and repeats its answers exactly. */
  lemma PredictionIsStable(p: Predictor, fit: Poly, refit: Poly, city: string, coordinates: map<string, real>, targetYears: seq<int>, scenario: string)
    requires Valid(p)
    ensures
      var (q, res) := PredictAnyCity(p, fit, city, coordinates, targetYears, scenario);
      PredictAnyCity(q, refit, city, coordinates, targetYears, scenario) == (q, res)
  {
  }

  /** The projection depends only on the model, never on the reference table. */
  lemma PredictionIgnoresCityTable(p1: Predictor, p2: Predictor, fit: Poly, city: string, coordinates: map<string, real>, targetYears: seq<int>, scenario: string)
    requires Valid(p1) && Valid(p2)
    requires p1.isTrained == p2.isTrained && p1.model == p2.model
    ensures PredictAnyCity(p1, fit, city, coordinates, targetYears, scenario).1 == PredictAnyCity(p2, fit, city, coordinates, targetYears, scenario).1
  {
  }

  /** After start-up, predictions never train again. */
  lemma StartupTrainsOnce(fit: Poly, refit: Poly, city: string, coordinates: map<string, real>, targetYears: seq<int>, scenario: string)
    ensures PredictAnyCity(Startup(fit), refit, city, coordinates, targetYears, scenario).0.fitCount == 1
  {
  }

  // ---------------------------------------------------------------- reference listing

  /** `get_available_cities`: the reference city names in Python string order. */
  function AvailableCities(p: Predictor): (names: seq<string>)
    ensures StringOrder.Sorted(names)
    ensures multiset(names) == multiset(CityNames(p.cityFactors))
  {
    StringOrder.SortSorted(CityNames(p.cityFactors));
    StringOrder.Sort(CityNames(p.cityFactors))
  }

  /** After start-up the listing holds exactly the twelve reference cities, sorted. */
  lemma StartupListing(fit: Poly)
    ensures var names := AvailableCities(Startup(fit));
      && |names| == 12
      && StringOrder.Sorted(names)
      && multiset(names) == multiset(CityNames(CITY_FACTORS))
      && forall i :: 0 <= i < |CITY_FACTORS| ==> CITY_FACTORS[i].0 in names
  {
    var names := AvailableCities(Startup(fit));
    forall i | 0 <= i < |CITY_FACTORS|
      ensures CITY_FACTORS[i].0 in names
    {
      assert CityNames(CITY_FACTORS)[i] == CITY_FACTORS[i].0;
      assert CITY_FACTORS[i].0 in multiset(names);
    }
  }

  /** Predictions leave the listing unchanged. */
  lemma ListingUnaffectedByPrediction(p: Predictor, fit: Poly, city: string, coordinates: map<string, real>, targetYears: seq<int>, scenario: string)
    requires Valid(p)
    ensures AvailableCities(PredictAnyCity(p, fit, city, coordinates, targetYears, scenario).0) == AvailableCities(p)
  {
  }

  /** The listing depends only on which names the table holds, not on their order. */
  lemma ListingIgnoresTableOrder(p1: Predictor, p2: Predictor)
    requires multiset(CityNames(p1.cityFactors)) == multiset(CityNames(p2.cityFactors))
    ensures AvailableCities(p1) == AvailableCities(p2)
  {
    StringOrder.SortedUnique(AvailableCities(p1), AvailableCities(p2));
  }
}
