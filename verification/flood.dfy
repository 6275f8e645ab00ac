/**
 Flood risk: three factors on a 0-100 scale (rainfall, low elevation,
 drainage) combined 0.4/0.4/0.2, banded with the standard risk band, plus
 the warnings and recommended actions derived from the inputs and score.
 */
module Flood {
  import opened PyBuiltins
  import opened RiskBand
  import Ranking

  const DEFAULT_ELEVATION: real := 50.0
  const DEFAULT_RAINFALL: real := 0.0
  const DEFAULT_HUMIDITY: real := 70.0

  /** More rain means more risk; saturates at 100 mm in 24 h. */
  function RainfallFactor(rainfall: real): (f: real)
    ensures f <= 100.0
    ensures rainfall >= 0.0 ==> f >= 0.0
    ensures rainfall >= 100.0 ==> f == 100.0
    ensures rainfall <= 100.0 ==> f == rainfall
  {
    Min(100.0, (rainfall / 100.0) * 100.0)
  }

  /**
   Lower ground means more risk; reaches 0 at 200 m. There is no upper cap:
   below sea level the factor exceeds 100.
   */
  function ElevationFactor(elevation: real): (f: real)
    ensures f >= 0.0
    ensures elevation >= 0.0 ==> f <= 100.0
    ensures elevation >= 200.0 ==> f == 0.0
    ensures elevation <= 200.0 ==> f == 100.0 - elevation / 2.0
    ensures elevation < 0.0 ==> f > 100.0
  {
    Max(0.0, 100.0 - (elevation / 2.0))
  }

  /** The drainage factor falls as humidity rises; 0 from 125 % humidity. */
  function DrainageFactor(humidity: real): (f: real)
    ensures f >= 0.0
    ensures humidity >= 0.0 ==> f <= 100.0
    ensures humidity >= 125.0 ==> f == 0.0
    ensures humidity <= 125.0 ==> f == 100.0 - humidity * 0.8
  {
    Max(0.0, 100.0 - (humidity * 0.8))
  }

  /** The weighted flood score (weights 0.4, 0.4, 0.2). */
  function FloodScore(elevation: real, rainfall: real, humidity: real): (s: real)
    ensures rainfall >= 0.0 ==> s >= 0.0
    ensures elevation >= 0.0 && humidity >= 0.0 ==> s <= 100.0
  {
    RainfallFactor(rainfall) * 0.4 + ElevationFactor(elevation) * 0.4 + DrainageFactor(humidity) * 0.2
  }

  /** Lower ground, more rain and a lower humidity never decrease the score. */
  lemma FloodScoreMonotone(e1: real, e2: real, r1: real, r2: real, h1: real, h2: real)
    requires e2 <= e1 && r1 <= r2 && h2 <= h1
    ensures FloodScore(e1, r1, h1) <= FloodScore(e2, r2, h2)
  {
  }

  /** Without an elevation cap, a point well below sea level scores above 100. */
  lemma FloodScoreExceedsHundredBelowSeaLevel()
    ensures FloodScore(-500.0, 100.0, 0.0) > 100.0
  {
  }

  datatype FloodWarning =
    | HeavyRainfall(mm: real)         // critical: above 75 mm
    | SignificantRainfall(mm: real)   // moderate: above 50 mm
    | ElevatedRainfall(mm: real)      // watch: above 25 mm
    | VeryLowElevation(m: real)       // high: below 10 m
    | LowElevation                    // moderate: below 30 m
    | PoorDrainage                    // humidity above 80 %
    | ExtremeFloodRisk                // score at least 70

  /** The priority group of a warning: rainfall, elevation, drainage, extreme. */
  function WarningGroup(w: FloodWarning): nat {
    match w
    case HeavyRainfall(_) => 0
    case SignificantRainfall(_) => 0
    case ElevatedRainfall(_) => 0
    case VeryLowElevation(_) => 1
    case LowElevation => 1
    case PoorDrainage => 2
    case ExtremeFloodRisk => 3
  }

  function RainfallWarnings(rainfall: real): (ws: seq<FloodWarning>)
    ensures Ranking.AtMostOneOf(ws, WarningGroup, 0)
    ensures |ws| == 1 <==> rainfall > 25.0
    ensures HeavyRainfall(rainfall) in ws <==> rainfall > 75.0
    ensures SignificantRainfall(rainfall) in ws <==> 50.0 < rainfall <= 75.0
    ensures ElevatedRainfall(rainfall) in ws <==> 25.0 < rainfall <= 50.0
  {
    if rainfall > 75.0 then [HeavyRainfall(rainfall)]
    else if rainfall > 50.0 then [SignificantRainfall(rainfall)]
    else if rainfall > 25.0 then [ElevatedRainfall(rainfall)]
    else []
  }

  function ElevationWarnings(elevation: real): (ws: seq<FloodWarning>)
    ensures Ranking.AtMostOneOf(ws, WarningGroup, 1)
    ensures VeryLowElevation(elevation) in ws <==> elevation < 10.0
    ensures LowElevation in ws <==> 10.0 <= elevation < 30.0
    ensures |ws| == 1 <==> elevation < 30.0
  {
    if elevation < 10.0 then [VeryLowElevation(elevation)]
    else if elevation < 30.0 then [LowElevation]
    else []
  }

  function DrainageWarnings(humidity: real): (ws: seq<FloodWarning>)
    ensures Ranking.AtMostOneOf(ws, WarningGroup, 2)
    ensures PoorDrainage in ws <==> humidity > 80.0
  {
    if humidity > 80.0 then [PoorDrainage] else []
  }

  function ExtremeWarnings(score: real): (ws: seq<FloodWarning>)
    ensures Ranking.AtMostOneOf(ws, WarningGroup, 3)
    ensures ExtremeFloodRisk in ws <==> score >= 70.0
  {
    if score >= 70.0 then [ExtremeFloodRisk] else []
  }

  /**
   The warnings, in the order the checks are made: one rainfall layer, one
   elevation layer, then drainage, then the extreme-risk warning.
   */
  function FloodWarnings(elevation: real, rainfall: real, humidity: real, score: real): (ws: seq<FloodWarning>)
    ensures Ranking.StrictlyRanked(ws, WarningGroup)
    ensures |ws| <= 4
    ensures ExtremeFloodRisk in ws <==> score >= 70.0
    ensures ExtremeFloodRisk in ws ==> ws[|ws| - 1] == ExtremeFloodRisk
  {
    var a := RainfallWarnings(rainfall);
    var b := ElevationWarnings(elevation);
    var c := DrainageWarnings(humidity);
    var d := ExtremeWarnings(score);
    LayeredWarnings(a, b, c, d);
    a + b + c + d
  }

  /** Four layers of at most one warning each, in group order, concatenate to a ranked list of at most four. */
  lemma LayeredWarnings(a: seq<FloodWarning>, b: seq<FloodWarning>, c: seq<FloodWarning>, d: seq<FloodWarning>)
    requires Ranking.AtMostOneOf(a, WarningGroup, 0)
    requires Ranking.AtMostOneOf(b, WarningGroup, 1)
    requires Ranking.AtMostOneOf(c, WarningGroup, 2)
    requires Ranking.AtMostOneOf(d, WarningGroup, 3)
    ensures Ranking.StrictlyRanked(a + b + c + d, WarningGroup)
    ensures |a + b + c + d| <= 4
    ensures ExtremeFloodRisk in a + b + c + d <==> ExtremeFloodRisk in d
    ensures d != [] ==> (a + b + c + d)[|a + b + c + d| - 1] == d[0]
  {
    Ranking.RankedAppend(a, b, WarningGroup, 1);
    Ranking.RankedAppend(a + b, c, WarningGroup, 2);
    Ranking.RankedAppend(a + b + c, d, WarningGroup, 3);
    var ws := a + b + c + d;
    Ranking.RankedLengthBound(ws, WarningGroup, 0, 4);
    FloodWarningMembership(a, b, c, d, ExtremeFloodRisk);
    assert d != [] ==> ws[|ws| - 1] == d[0];
  }

  /** At most one rainfall warning fires: the highest bucket the rainfall exceeds, and it comes first. */
  lemma RainfallWarningSelection(elevation: real, rainfall: real, humidity: real, score: real)
    ensures var ws := FloodWarnings(elevation, rainfall, humidity, score);
      && (HeavyRainfall(rainfall) in ws <==> rainfall > 75.0)
      && (SignificantRainfall(rainfall) in ws <==> 50.0 < rainfall <= 75.0)
      && (ElevatedRainfall(rainfall) in ws <==> 25.0 < rainfall <= 50.0)
      && (rainfall > 25.0 <==> |ws| > 0 && WarningGroup(ws[0]) == 0)
  {
    var a := RainfallWarnings(rainfall);
    var b := ElevationWarnings(elevation);
    var c := DrainageWarnings(humidity);
    var d := ExtremeWarnings(score);
    FloodWarningMembership(a, b, c, d, HeavyRainfall(rainfall));
    FloodWarningMembership(a, b, c, d, SignificantRainfall(rainfall));
    FloodWarningMembership(a, b, c, d, ElevatedRainfall(rainfall));
    var ws := a + b + c + d;
    if |ws| > 0 && |a| == 0 {
      assert ws[0] in b + c + d;
    }
  }

  /**
   At most one elevation warning fires, none from 30 m up, and the drainage
   warning fires exactly above 80 % humidity.
   */
  lemma GroundWarningSelection(elevation: real, rainfall: real, humidity: real, score: real)
    ensures var ws := FloodWarnings(elevation, rainfall, humidity, score);
      && (VeryLowElevation(elevation) in ws <==> elevation < 10.0)
      && (LowElevation in ws <==> 10.0 <= elevation < 30.0)
      && (elevation >= 30.0 <==> forall i :: 0 <= i < |ws| ==> WarningGroup(ws[i]) != 1)
      && (PoorDrainage in ws <==> humidity > 80.0)
  {
    var a := RainfallWarnings(rainfall);
    var b := ElevationWarnings(elevation);
    var c := DrainageWarnings(humidity);
    var d := ExtremeWarnings(score);
    FloodWarningMembership(a, b, c, d, VeryLowElevation(elevation));
    FloodWarningMembership(a, b, c, d, LowElevation);
    FloodWarningMembership(a, b, c, d, PoorDrainage);
    var ws := a + b + c + d;
    if elevation >= 30.0 {
      assert ws == a + (c + d);
    } else {
      assert ws[|a|] == b[0];
    }
  }

  /** A warning of the layered list comes from the one layer of its group. */
  lemma FloodWarningMembership(a: seq<FloodWarning>, b: seq<FloodWarning>, c: seq<FloodWarning>, d: seq<FloodWarning>, w: FloodWarning)
    requires Ranking.AtMostOneOf(a, WarningGroup, 0)
    requires Ranking.AtMostOneOf(b, WarningGroup, 1)
    requires Ranking.AtMostOneOf(c, WarningGroup, 2)
    requires Ranking.AtMostOneOf(d, WarningGroup, 3)
    ensures WarningGroup(w) == 0 ==> (w in a + b + c + d <==> w in a)
    ensures WarningGroup(w) == 1 ==> (w in a + b + c + d <==> w in b)
    ensures WarningGroup(w) == 2 ==> (w in a + b + c + d <==> w in c)
    ensures WarningGroup(w) == 3 ==> (w in a + b + c + d <==> w in d)
  {
    if WarningGroup(w) != 0 { Ranking.NotInOtherGroup(a, WarningGroup, 0, w); }
    if WarningGroup(w) != 1 { Ranking.NotInOtherGroup(b, WarningGroup, 1, w); }
    if WarningGroup(w) != 2 { Ranking.NotInOtherGroup(c, WarningGroup, 2, w); }
    if WarningGroup(w) != 3 { Ranking.NotInOtherGroup(d, WarningGroup, 3, w); }
  }

  datatype FloodAction =
    // evacuation tier
    | EvacuateLowLyingAreas | MonitorEmergencyAlerts | KeepEmergencyKitReady
    | AvoidFloodedRoads | MoveToHigherFloors
    // preparation tier
    | StayAlertToWeather | ClearDrainageSystems | MoveValuablesHigher
    | PrepareFlashlights | KeepPhoneCharged
    // monitoring tier
    | MonitorForecasts | EnsureDrainageClear | ReviewEvacuationRoutes
    // normalcy tier
    | ContinueNormalActivities

  /** The risk level whose action list an action belongs to. */
  function ActionTier(a: FloodAction): RiskLevel {
    match a
    case EvacuateLowLyingAreas => Critical
    case MonitorEmergencyAlerts => Critical
    case KeepEmergencyKitReady => Critical
    case AvoidFloodedRoads => Critical
    case MoveToHigherFloors => Critical
    case StayAlertToWeather => High
    case ClearDrainageSystems => High
    case MoveValuablesHigher => High
    case PrepareFlashlights => High
    case KeepPhoneCharged => High
    case MonitorForecasts => Medium
    case EnsureDrainageClear => Medium
    case ReviewEvacuationRoutes => Medium
    case ContinueNormalActivities => Low
  }

  /** The recommended actions: exactly one tier's fixed list. */
  function FloodActions(score: real): (acts: seq<FloodAction>)
    ensures forall i :: 0 <= i < |acts| ==> ActionTier(acts[i]) == Band(score)
    ensures forall i, j :: 0 <= i < j < |acts| ==> acts[i] != acts[j]
    ensures Band(score) == Critical ==> |acts| == 5
    ensures Band(score) == High ==> |acts| == 5
    ensures Band(score) == Medium ==> |acts| == 3
    ensures Band(score) == Low ==> |acts| == 1
  {
    if score >= 70.0 then
      [EvacuateLowLyingAreas, MonitorEmergencyAlerts, KeepEmergencyKitReady, AvoidFloodedRoads, MoveToHigherFloors]
    else if score >= 40.0 then
      [StayAlertToWeather, ClearDrainageSystems, MoveValuablesHigher, PrepareFlashlights, KeepPhoneCharged]
    else if score >= 20.0 then
      [MonitorForecasts, EnsureDrainageClear, ReviewEvacuationRoutes]
    else
      [ContinueNormalActivities]
  }

  /** The coerced inputs echoed back, rounded to one decimal. */
  datatype FloodDetails = FloodDetails(currentRainfall: real, elevation: real, humidity: real, city: string)

  datatype FloodRisk = FloodRisk(
    riskScore: real,
    level: RiskLevel,
    color: string,
    rainfallFactor: real,
    elevationFactor: real,
    drainageFactor: real,
    warnings: seq<FloodWarning>,
    actions: seq<FloodAction>,
    details: FloodDetails)

  /** Whether every coerced input lies in the range the 0-100 bounds need. */
  predicate NonNegativeInputs(elevation: PyNum, rainfall: PyNum, humidity: PyNum) {
    && OrDefault(elevation, DEFAULT_ELEVATION) >= 0.0
    && OrDefault(rainfall, DEFAULT_RAINFALL) >= 0.0
    && OrDefault(humidity, DEFAULT_HUMIDITY) >= 0.0
  }

  /** `calculate_flood_risk`: falsy inputs take their defaults, then the score is built and banded. */
  function CalculateFloodRisk(city: string, elevation: PyNum, rainfall: PyNum, humidity: PyNum): (r: FloodRisk)
    ensures
      var e := OrDefault(elevation, DEFAULT_ELEVATION);
      var rain := OrDefault(rainfall, DEFAULT_RAINFALL);
      var h := OrDefault(humidity, DEFAULT_HUMIDITY);
      var score := FloodScore(e, rain, h);
      && r.level == GetRiskLevelInfo(score).level
      && r.color == GetRiskLevelInfo(score).color
      && score - 0.05 <= r.riskScore <= score + 0.05
      && r.riskScore == Round1(r.riskScore)
      && r.rainfallFactor == Round1(RainfallFactor(rain))
      && r.elevationFactor == Round1(ElevationFactor(e))
      && r.drainageFactor == Round1(DrainageFactor(h))
      && r.warnings == FloodWarnings(e, rain, h, score)
      && r.actions == FloodActions(score)
      && r.details == FloodDetails(Round1(rain), Round1(e), Round1(h), city)
    ensures ExtremeFloodRisk in r.warnings <==> r.level == Critical
    ensures forall i :: 0 <= i < |r.actions| ==> ActionTier(r.actions[i]) == r.level
    ensures |r.warnings| <= 4
    ensures 1 <= |r.actions| <= 5
    ensures NonNegativeInputs(elevation, rainfall, humidity) ==>
      && 0.0 <= r.riskScore <= 100.0
      && 0.0 <= r.rainfallFactor <= 100.0
      && 0.0 <= r.elevationFactor <= 100.0
      && 0.0 <= r.drainageFactor <= 100.0
  {
    var e := OrDefault(elevation, DEFAULT_ELEVATION);
    var rain := OrDefault(rainfall, DEFAULT_RAINFALL);
    var h := OrDefault(humidity, DEFAULT_HUMIDITY);
    var score := FloodScore(e, rain, h);
    var level := Band(score);
    RoundToIdempotent(score, One);
    RoundedFactorBounds(e, rain, h);
    FloodRisk(
      Round1(score),
      level,
      level.Color(),
      Round1(RainfallFactor(rain)),
      Round1(ElevationFactor(e)),
      Round1(DrainageFactor(h)),
      FloodWarnings(e, rain, h, score),
      FloodActions(score),
      FloodDetails(Round1(rain), Round1(e), Round1(h), city))
  }

  /** For non-negative inputs the rounded score and factors stay within 0..100. */
  lemma RoundedFactorBounds(e: real, rain: real, h: real)
    ensures e >= 0.0 && rain >= 0.0 && h >= 0.0 ==>
      && 0.0 <= Round1(FloodScore(e, rain, h)) <= 100.0
      && 0.0 <= Round1(RainfallFactor(rain)) <= 100.0
      && 0.0 <= Round1(ElevationFactor(e)) <= 100.0
      && 0.0 <= Round1(DrainageFactor(h)) <= 100.0
  {
    if e >= 0.0 && rain >= 0.0 && h >= 0.0 {
      RoundToWithin(FloodScore(e, rain, h), 0, 100, One);
      RoundToWithin(RainfallFactor(rain), 0, 100, One);
      RoundToWithin(ElevationFactor(e), 0, 100, One);
      RoundToWithin(DrainageFactor(h), 0, 100, One);
    }
  }

  /** A zero or missing elevation is scored exactly like 50 m. */
  lemma ZeroElevationScoresAsFifty(city: string, rainfall: PyNum, humidity: PyNum)
    ensures CalculateFloodRisk(city, Num(0.0), rainfall, humidity) == CalculateFloodRisk(city, Num(50.0), rainfall, humidity)
    ensures CalculateFloodRisk(city, PyNone, rainfall, humidity) == CalculateFloodRisk(city, Num(50.0), rainfall, humidity)
  {
    assert OrDefault(Num(0.0), DEFAULT_ELEVATION) == OrDefault(Num(50.0), DEFAULT_ELEVATION);
    assert OrDefault(PyNone, DEFAULT_ELEVATION) == OrDefault(Num(50.0), DEFAULT_ELEVATION);
  }

  /**
   The level is banded on the unrounded score, so the reported score can sit
   on a tier boundary that the level does not reach.
   */
  lemma RoundedScoreCanCrossLevel()
    ensures
      var r := CalculateFloodRisk("", Num(0.2), Num(65.0), Num(100.0));
      r.riskScore == 70.0 && r.level == High
  {
    var score := FloodScore(0.2, 65.0, 100.0);
    assert score == 69.96;
    assert 69.96 * 10.0 == 699.6;
    assert RoundHalfEven(699.6) == 700;
  }

  /** The worked example: elevation 5 m, 80 mm of rain, 85 % humidity. */
  lemma WorkedExample()
    ensures
      var r := CalculateFloodRisk("", Num(5.0), Num(80.0), Num(85.0));
      && r.rainfallFactor == 80.0 && r.elevationFactor == 97.5 && r.drainageFactor == 32.0
      && r.riskScore == 77.4 && r.level == Critical && r.color == "#cc0000"
  {
    assert FloodScore(5.0, 80.0, 85.0) == 77.4;
    assert RoundHalfEven(774.0) == 774;
    assert RoundHalfEven(800.0) == 800;
    assert RoundHalfEven(975.0) == 975;
    assert RoundHalfEven(320.0) == 320;
  }
}
