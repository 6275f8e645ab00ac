/**
 Landslide risk: a piecewise slope factor from elevation, a rainfall factor
 and a soil-stability factor combined 0.5/0.35/0.15, banded with the
 standard risk band, plus terrain type, warnings and recommended actions.
 */
module Landslide {
  import opened PyBuiltins
  import opened RiskBand
  import Ranking

  const DEFAULT_ELEVATION: real := 50.0
  const DEFAULT_RAINFALL: real := 0.0

  /**
   Steepness estimated from elevation, one formula per elevation tier. The
   tiers do not join up: the factor jumps upward at 100, 200 and 500 m.
   */
  function SlopeFactor(elevation: real): (f: real)
    ensures 0.0 <= f <= 100.0
    ensures elevation > 500.0 ==> f > 50.0
    ensures 200.0 < elevation <= 500.0 ==> 40.0 / 3.0 < f <= 100.0 / 3.0 <= 80.0
    ensures 100.0 < elevation <= 200.0 ==> 5.0 < f <= 10.0 <= 60.0
    ensures elevation <= 100.0 ==> f <= 10.0 / 3.0 && f == Max(0.0, elevation / 30.0)
    ensures 0.0 <= elevation <= 100.0 ==> f == elevation / 30.0
    ensures 100.0 < elevation <= 200.0 ==> f == elevation / 20.0
    ensures 200.0 < elevation <= 500.0 ==> f == elevation / 15.0
    ensures 500.0 < elevation <= 1000.0 ==> f == elevation / 10.0
    ensures elevation >= 1000.0 ==> f == 100.0
  {
    if elevation > 500.0 then Min(100.0, elevation / 10.0)
    else if elevation > 200.0 then Min(80.0, elevation / 15.0)
    else if elevation > 100.0 then Min(60.0, elevation / 20.0)
    else Max(0.0, elevation / 30.0)
  }

  /** Despite the jumps between tiers, a higher point never gets a smaller slope factor. */
  lemma SlopeFactorMonotone(e1: real, e2: real)
    requires e1 <= e2
    ensures SlopeFactor(e1) <= SlopeFactor(e2)
  {
  }

  /** Heavy rain saturates the soil; saturates at 80 mm in 24 h. */
  function RainfallFactor(rainfall: real): (f: real)
    ensures f <= 100.0
    ensures rainfall >= 0.0 ==> f >= 0.0
    ensures rainfall >= 80.0 ==> f == 100.0
    ensures rainfall <= 80.0 ==> f == rainfall * 1.25
  {
    Min(100.0, (rainfall / 80.0) * 100.0)
  }

  /** Soil stability falls as rainfall rises; 0 from 125 mm. */
  function SoilFactor(rainfall: real): (f: real)
    ensures f >= 0.0
    ensures rainfall >= 0.0 ==> f <= 100.0
    ensures rainfall >= 125.0 ==> f == 0.0
    ensures rainfall <= 125.0 ==> f == 100.0 - rainfall * 0.8
  {
    Max(0.0, 100.0 - (rainfall * 0.8))
  }

  /** The weighted landslide score; soil enters as instability, 100 minus the factor. */
  function LandslideScore(elevation: real, rainfall: real): (s: real)
    ensures rainfall >= 0.0 ==> 0.0 <= s <= 100.0
  {
    SlopeFactor(elevation) * 0.5 + RainfallFactor(rainfall) * 0.35 + (100.0 - SoilFactor(rainfall)) * 0.15
  }

  /** Higher ground and more rain never decrease the score. */
  lemma LandslideScoreMonotone(e1: real, e2: real, r1: real, r2: real)
    requires e1 <= e2 && r1 <= r2
    ensures LandslideScore(e1, r1) <= LandslideScore(e2, r2)
  {
    SlopeFactorMonotone(e1, e2);
  }

  datatype Terrain = Flat | Rolling | Hilly | Mountainous

  /** The terrain named by the elevation tier a point falls in. */
  function TerrainType(elevation: real): (t: Terrain)
    ensures t == Mountainous <==> elevation > 500.0
    ensures t == Hilly <==> 200.0 < elevation <= 500.0
    ensures t == Rolling <==> 100.0 < elevation <= 200.0
    ensures t == Flat <==> elevation <= 100.0
  {
    if elevation > 500.0 then Mountainous
    else if elevation > 200.0 then Hilly
    else if elevation > 100.0 then Rolling
    else Flat
  }

  /** The terrain a slope factor indicates. */
  function TerrainOfSlope(slope: real): Terrain {
    if slope > 50.0 then Mountainous
    else if slope > 12.0 then Hilly
    else if slope > 4.0 then Rolling
    else Flat
  }

  /** Terrain type uses the same elevation tiers as the slope factor. */
  lemma TerrainFollowsSlope(elevation: real)
    ensures TerrainType(elevation) == TerrainOfSlope(SlopeFactor(elevation))
  {
  }

  datatype LandslideWarning =
    | SteepTerrainHeavyRain        // critical: above 500 m and above 60 mm
    | MountainousSignificantRain   // high: above 300 m and above 50 mm
    | HillyElevatedRain            // moderate: above 200 m and above 40 mm
    | ElevatedTerrainWatch         // watch: above 100 m
    | SaturatedSoil                // above 80 mm
    | HeavyRainDestabilizesSlopes  // above 60 mm
    | ExtremeLandslideRisk         // score at least 70

  /** The priority group of a warning: terrain, rainfall, extreme. */
  function WarningGroup(w: LandslideWarning): nat {
    match w
    case SteepTerrainHeavyRain => 0
    case MountainousSignificantRain => 0
    case HillyElevatedRain => 0
    case ElevatedTerrainWatch => 0
    case SaturatedSoil => 1
    case HeavyRainDestabilizesSlopes => 1
    case ExtremeLandslideRisk => 2
  }

  /** The terrain warning, compounded with rainfall. */
  function TerrainWarnings(elevation: real, rainfall: real): (ws: seq<LandslideWarning>)
    ensures Ranking.AtMostOneOf(ws, WarningGroup, 0)
    ensures |ws| == 1 <==> elevation > 100.0
    ensures SteepTerrainHeavyRain in ws <==> elevation > 500.0 && rainfall > 60.0
    ensures MountainousSignificantRain in ws <==> elevation > 300.0 && rainfall > 50.0 && !(elevation > 500.0 && rainfall > 60.0)
    ensures HillyElevatedRain in ws <==> elevation > 200.0 && rainfall > 40.0 && !(elevation > 300.0 && rainfall > 50.0)
    ensures ElevatedTerrainWatch in ws <==> elevation > 100.0 && !(elevation > 200.0 && rainfall > 40.0)
  {
    if elevation > 500.0 && rainfall > 60.0 then [SteepTerrainHeavyRain]
    else if elevation > 300.0 && rainfall > 50.0 then [MountainousSignificantRain]
    else if elevation > 200.0 && rainfall > 40.0 then [HillyElevatedRain]
    else if elevation > 100.0 then [ElevatedTerrainWatch]
    else []
  }

  function SoilWarnings(rainfall: real): (ws: seq<LandslideWarning>)
    ensures Ranking.AtMostOneOf(ws, WarningGroup, 1)
    ensures SaturatedSoil in ws <==> rainfall > 80.0
    ensures HeavyRainDestabilizesSlopes in ws <==> 60.0 < rainfall <= 80.0
  {
    if rainfall > 80.0 then [SaturatedSoil]
    else if rainfall > 60.0 then [HeavyRainDestabilizesSlopes]
    else []
  }

  function ExtremeWarnings(score: real): (ws: seq<LandslideWarning>)
    ensures Ranking.AtMostOneOf(ws, WarningGroup, 2)
    ensures ExtremeLandslideRisk in ws <==> score >= 70.0
  {
    if score >= 70.0 then [ExtremeLandslideRisk] else []
  }

  /** A warning of the layered list comes from the one layer of its group. */
  lemma LandslideWarningMembership(a: seq<LandslideWarning>, b: seq<LandslideWarning>, c: seq<LandslideWarning>, w: LandslideWarning)
    requires Ranking.AtMostOneOf(a, WarningGroup, 0)
    requires Ranking.AtMostOneOf(b, WarningGroup, 1)
    requires Ranking.AtMostOneOf(c, WarningGroup, 2)
    ensures WarningGroup(w) == 0 ==> (w in a + b + c <==> w in a)
    ensures WarningGroup(w) == 1 ==> (w in a + b + c <==> w in b)
    ensures WarningGroup(w) == 2 ==> (w in a + b + c <==> w in c)
  {
    if WarningGroup(w) != 0 { Ranking.NotInOtherGroup(a, WarningGroup, 0, w); }
    if WarningGroup(w) != 1 { Ranking.NotInOtherGroup(b, WarningGroup, 1, w); }
    if WarningGroup(w) != 2 { Ranking.NotInOtherGroup(c, WarningGroup, 2, w); }
  }

  /** The warnings: one terrain layer, one rainfall layer, then the extreme-risk warning. */
  function LandslideWarnings(elevation: real, rainfall: real, score: real): (ws: seq<LandslideWarning>)
    ensures Ranking.StrictlyRanked(ws, WarningGroup)
    ensures |ws| <= 3
    ensures ExtremeLandslideRisk in ws <==> score >= 70.0
    ensures ExtremeLandslideRisk in ws ==> ws[|ws| - 1] == ExtremeLandslideRisk
  {
    var a := TerrainWarnings(elevation, rainfall);
    var b := SoilWarnings(rainfall);
    var c := ExtremeWarnings(score);
    Ranking.RankedAppend(a, b, WarningGroup, 1);
    Ranking.RankedAppend(a + b, c, WarningGroup, 2);
    Ranking.RankedLengthBound(a + b + c, WarningGroup, 0, 3);
    LandslideWarningMembership(a, b, c, ExtremeLandslideRisk);
    a + b + c
  }

  /** A terrain warning fires exactly above 100 m, and the steep compound warning exactly above 500 m with over 60 mm. */
  lemma TerrainWarningSelection(elevation: real, rainfall: real, score: real)
    ensures var ws := LandslideWarnings(elevation, rainfall, score);
      && (elevation > 100.0 <==> |ws| > 0 && WarningGroup(ws[0]) == 0)
      && (SteepTerrainHeavyRain in ws <==> elevation > 500.0 && rainfall > 60.0)
      && (ElevatedTerrainWatch in ws <==> elevation > 100.0 && !(elevation > 200.0 && rainfall > 40.0))
  {
    var a := TerrainWarnings(elevation, rainfall);
    var b := SoilWarnings(rainfall);
    var c := ExtremeWarnings(score);
    LandslideWarningMembership(a, b, c, SteepTerrainHeavyRain);
    LandslideWarningMembership(a, b, c, ElevatedTerrainWatch);
    var ws := a + b + c;
    if |ws| > 0 && |a| == 0 {
      assert ws[0] in b + c;
    }
  }

  /** At most one rainfall warning fires: saturated soil above 80 mm, otherwise destabilised slopes above 60 mm. */
  lemma SoilWarningSelection(elevation: real, rainfall: real, score: real)
    ensures var ws := LandslideWarnings(elevation, rainfall, score);
      && (SaturatedSoil in ws <==> rainfall > 80.0)
      && (HeavyRainDestabilizesSlopes in ws <==> 60.0 < rainfall <= 80.0)
  {
    var a := TerrainWarnings(elevation, rainfall);
    var b := SoilWarnings(rainfall);
    var c := ExtremeWarnings(score);
    LandslideWarningMembership(a, b, c, SaturatedSoil);
    LandslideWarningMembership(a, b, c, HeavyRainDestabilizesSlopes);
  }

  datatype LandslideAction =
    // evacuation tier
    | EvacuateHillsides | AvoidAllSlopeTravel | ReportGroundCracks
    | ListenForRumbling | MoveToStableGround
    // preparation tier
    | AvoidSteepSlopes | ListenForUnusualSounds | WatchForPavementCracks
    | StayInformed | InspectForGroundMovement
    // monitoring tier
    | MonitorRainfall | InspectForNewCracks | WatchLandscapeChanges | KnowEvacuationRoutes
    // normalcy tier
    | MaintainAwareness

  /** The risk level whose action list an action belongs to. */
  function ActionTier(a: LandslideAction): RiskLevel {
    match a
    case EvacuateHillsides => Critical
    case AvoidAllSlopeTravel => Critical
    case ReportGroundCracks => Critical
    case ListenForRumbling => Critical
    case MoveToStableGround => Critical
    case AvoidSteepSlopes => High
    case ListenForUnusualSounds => High
    case WatchForPavementCracks => High
    case StayInformed => High
    case InspectForGroundMovement => High
    case MonitorRainfall => Medium
    case InspectForNewCracks => Medium
    case WatchLandscapeChanges => Medium
    case KnowEvacuationRoutes => Medium
    case MaintainAwareness => Low
  }

  /** The recommended actions: exactly one tier's fixed list. */
  function LandslideActions(score: real): (acts: seq<LandslideAction>)
    ensures forall i :: 0 <= i < |acts| ==> ActionTier(acts[i]) == Band(score)
    ensures forall i, j :: 0 <= i < j < |acts| ==> acts[i] != acts[j]
    ensures Band(score) == Critical ==> |acts| == 5
    ensures Band(score) == High ==> |acts| == 5
    ensures Band(score) == Medium ==> |acts| == 4
    ensures Band(score) == Low ==> |acts| == 1
  {
    if score >= 70.0 then
      [EvacuateHillsides, AvoidAllSlopeTravel, ReportGroundCracks, ListenForRumbling, MoveToStableGround]
    else if score >= 40.0 then
      [AvoidSteepSlopes, ListenForUnusualSounds, WatchForPavementCracks, StayInformed, InspectForGroundMovement]
    else if score >= 20.0 then
      [MonitorRainfall, InspectForNewCracks, WatchLandscapeChanges, KnowEvacuationRoutes]
    else
      [MaintainAwareness]
  }

  /** The coerced inputs echoed back, with the terrain type. */
  datatype LandslideDetails = LandslideDetails(elevation: real, currentRainfall: real, terrainType: Terrain)

  datatype LandslideRisk = LandslideRisk(
    riskScore: real,
    level: RiskLevel,
    color: string,
    slopeFactor: real,
    rainfallFactor: real,
    soilFactor: real,
    warnings: seq<LandslideWarning>,
    actions: seq<LandslideAction>,
    details: LandslideDetails)

  /** For non-negative rainfall the rounded score and factors stay within 0..100. */
  lemma RoundedFactorBounds(e: real, rain: real)
    ensures 0.0 <= Round1(SlopeFactor(e)) <= 100.0
    ensures rain >= 0.0 ==>
      && 0.0 <= Round1(LandslideScore(e, rain)) <= 100.0
      && 0.0 <= Round1(RainfallFactor(rain)) <= 100.0
      && 0.0 <= Round1(SoilFactor(rain)) <= 100.0
  {
    RoundToWithin(SlopeFactor(e), 0, 100, One);
    if rain >= 0.0 {
      RoundToWithin(LandslideScore(e, rain), 0, 100, One);
      RoundToWithin(RainfallFactor(rain), 0, 100, One);
      RoundToWithin(SoilFactor(rain), 0, 100, One);
    }
  }

  /** `calculate_landslide_risk`: falsy inputs take their defaults, then the score is built and banded. */
  function CalculateLandslideRisk(city: string, elevation: PyNum, rainfall: PyNum): (r: LandslideRisk)
    ensures
      var e := OrDefault(elevation, DEFAULT_ELEVATION);
      var rain := OrDefault(rainfall, DEFAULT_RAINFALL);
      var score := LandslideScore(e, rain);
      && r.level == GetRiskLevelInfo(score).level
      && r.color == GetRiskLevelInfo(score).color
      && score - 0.05 <= r.riskScore <= score + 0.05
      && r.riskScore == Round1(r.riskScore)
      && r.slopeFactor == Round1(SlopeFactor(e))
      && r.rainfallFactor == Round1(RainfallFactor(rain))
      && r.soilFactor == Round1(SoilFactor(rain))
      && r.warnings == LandslideWarnings(e, rain, score)
      && r.actions == LandslideActions(score)
      && r.details == LandslideDetails(Round1(e), Round1(rain), TerrainType(e))
      && (rain >= 0.0 ==>
            && 0.0 <= r.riskScore <= 100.0
            && 0.0 <= r.rainfallFactor <= 100.0
            && 0.0 <= r.soilFactor <= 100.0)
    ensures ExtremeLandslideRisk in r.warnings <==> r.level == Critical
    ensures forall i :: 0 <= i < |r.actions| ==> ActionTier(r.actions[i]) == r.level
    ensures 0.0 <= r.slopeFactor <= 100.0
    ensures |r.warnings| <= 3
    ensures 1 <= |r.actions| <= 5
  {
    var e := OrDefault(elevation, DEFAULT_ELEVATION);
    var rain := OrDefault(rainfall, DEFAULT_RAINFALL);
    var score := LandslideScore(e, rain);
    var level := Band(score);
    RoundToIdempotent(score, One);
    RoundedFactorBounds(e, rain);
    LandslideRisk(
      Round1(score),
      level,
      level.Color(),
      Round1(SlopeFactor(e)),
      Round1(RainfallFactor(rain)),
      Round1(SoilFactor(rain)),
      LandslideWarnings(e, rain, score),
      LandslideActions(score),
      LandslideDetails(Round1(e), Round1(rain), TerrainType(e)))
  }

  /** A zero or missing elevation is scored exactly like 50 m. */
  lemma ZeroElevationScoresAsFifty(city: string, rainfall: PyNum)
    ensures CalculateLandslideRisk(city, Num(0.0), rainfall) == CalculateLandslideRisk(city, Num(50.0), rainfall)
    ensures CalculateLandslideRisk(city, PyNone, rainfall) == CalculateLandslideRisk(city, Num(50.0), rainfall)
  {
    assert OrDefault(Num(0.0), DEFAULT_ELEVATION) == OrDefault(Num(50.0), DEFAULT_ELEVATION);
    assert OrDefault(PyNone, DEFAULT_ELEVATION) == OrDefault(Num(50.0), DEFAULT_ELEVATION);
  }

  /** The worked example: 600 m with 70 mm of rain scores 69.025, just short of Critical. */
  lemma WorkedExample()
    ensures LandslideScore(600.0, 70.0) == 69.025
    ensures
      var r := CalculateLandslideRisk("", Num(600.0), Num(70.0));
      r.level == High && r.slopeFactor == 60.0 && r.rainfallFactor == 87.5 && r.soilFactor == 44.0
  {
    assert RoundHalfEven(600.0) == 600;
    assert RoundHalfEven(875.0) == 875;
    assert RoundHalfEven(440.0) == 440;
  }
}
