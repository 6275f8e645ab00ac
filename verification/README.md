# Disaster-risk and sea-level scoring, modelled in Dafny

This project models the scoring core of a climate-risk dashboard backend:

- **`DisasterRiskPredictor`** scores flood and landslide risk for a city.
  Each hazard has weighted sub-factors, a Low/Medium/High/Critical band at
  20/40/70 with a fixed colour per band, cascaded warnings and tiered
  recommended actions. The predictor also combines the two rounded scores
  0.6/0.4 into an overall status.
- **`SeaLevelPredictor`** projects sea-level rise. It fits a degree-2
  polynomial once to a fixed 1900–2024 series and scales it by a climate
  scenario. It then amplifies the rise by a vulnerability factor, which comes
  from the location's elevation and from a coarse coastal-distance lookup.
  The result is a flooding-risk percentage per target year.

Python floats are exact `real`s. `round(x, 1)` and `round(x, 2)` are modelled
as round-half-to-even on those reals (`PyBuiltins.Round1`, `PyBuiltins.Round2`).
A numeric argument that may be `None` is a `PyNum`. Python's
`float(x) if x else default` is `PyBuiltins.OrDefault`: `None` and `0` both
take the default. Warning and action messages are enum tags. A tag carries
the measured value when its message prints one. The fitted polynomial is
supplied as a parameter (`fit`), because the least-squares fit is library code.

Modules, in dependency order:

| file | module | content |
|---|---|---|
| wrappers.dfy | `Wrappers` | `Option`, `Result` |
| py_builtins.dfy | `PyBuiltins` | truthiness, `dict.get`, `min`/`max`, `round` |
| risk_band.dfy | `RiskBand` | the 20/40/70 band, colours, `get_risk_level_info` |
| ranking.dfy | `Ranking` | "warnings come in cascade order" as a generic predicate |
| flood.dfy | `Flood` | `calculate_flood_risk` |
| landslide.dfy | `Landslide` | `calculate_landslide_risk` |
| city_risk.dfy | `CityRisk` | `assess_city_risk` |
| coastal.dfy | `Coastal` | `_estimate_coastal_distance` |
| scenarios.dfy | `Scenarios` | the scenario multiplier table |
| string_order.dfy | `StringOrder` | Python string order and `sorted` on strings |
| sea_level.dfy | `SeaLevel` | vulnerability, flooding risk, the predictor and its lazy training |

### Behaviour of the code worth knowing (the model follows the code)

- The comment at `backend/ml_models/disaster_risk_predictor.py:31` puts every
  flood factor on a 0-100 scale. The elevation factor
  is only `max(0, 100 - elevation/2)`, so below sea level it exceeds 100. The
  flood score can then exceed 100 too
  (`Flood.FloodScoreExceedsHundredBelowSeaLevel`). The scores stay within
  0..100 only for non-negative inputs.
- The flood and landslide levels are banded on the unrounded score, but the
  reported score is rounded. So a reported score of 70.0 can carry level High
  (`Flood.RoundedScoreCanCrossLevel`: elevation 0.2 m, 65 mm of rain, 100 %
  humidity).
- The flooding-risk formula is capped at 100 but has no lower bound of its
  own: a negative local rise would give a negative percentage. The scenario
  multipliers and vulnerability factors are positive, so the sign comes from
  the fitted curve. The fit is a parameter of the model, so the model
  promises a non-negative risk only for a non-negative local rise
  (`SeaLevel.FloodingRisk`).
- The comment at `backend/ml_models/disaster_risk_predictor.py:38` says higher
  humidity means poorer drainage, but the drainage factor falls as humidity
  rises, and it enters the flood score with a positive weight. So higher
  humidity lowers the flood score (`Flood.FloodScoreMonotone`).
- The landslide slope caps of 80 and 60 never bind: `elevation/15` is at most
  33.4 and `elevation/20` at most 10 on their branches (`Landslide.SlopeFactor`).
- `predict_any_city` never consults the reference city table. Vulnerability
  and factor come only from the elevation and the coastal lookup
  (`SeaLevel.PredictionIgnoresCityTable`).
- `assess_city_risk` echoes the weather inputs raw through `round(x, 1)`. A
  `None` value there raises a `TypeError` (`CityRisk.AssessCityRisk` returns
  `Failure`). An elevation of 0 is scored as 50 m but echoed as 0
  (`CityRisk.ZeroElevationEchoedRaw`).

## Model

| member | source | states |
|---|---|---|
| PyBuiltins.OrDefault | backend/ml_models/disaster_risk_predictor.py:27-29 | a truthy argument is used as given; `None` or zero gives the default |
| PyBuiltins.FalsyUsesDefault | backend/ml_models/disaster_risk_predictor.py:27-29 | both `None` and `0` fall back to the default |
| PyBuiltins.Round1 | backend/ml_models/disaster_risk_predictor.py:111-126 | `round(x, 1)` lies within 0.05 of `x` |
| PyBuiltins.Round2 | backend/app.py:273-280 | `round(x, 2)` lies within 0.005 of `x` |
| RiskBand.Band | backend/ml_models/disaster_risk_predictor.py:48-60 | each level is exactly the half-open score interval between the 20/40/70 thresholds, boundaries going to the upper level |
| RiskBand.BandMonotone | backend/ml_models/disaster_risk_predictor.py:48-60 | a higher score never gets a lower level |
| RiskBand.BandBoundaries | backend/ml_models/disaster_risk_predictor.py:48-60 | 70, 40 and 20 belong to the upper tier; values just below them belong to the lower one |
| RiskBand.LevelOfColor | backend/ml_models/disaster_risk_predictor.py:48-60 | inverse of the level-to-colour table: a colour names at most one level, and each level's colour names it |
| RiskBand.ColorIdentifiesLevel | backend/ml_models/disaster_risk_predictor.py:48-60 | level and colour are in one-to-one correspondence |
| RiskBand.GetRiskLevelInfo | backend/ml_models/disaster_risk_predictor.py:303-328 | the level is the band of the score, the colour is that level's, and the colour recovers the level |
| Flood.RainfallFactor | backend/ml_models/disaster_risk_predictor.py:33 | at most 100, equal to the rainfall up to 100 mm and saturated beyond, non-negative for non-negative rain |
| Flood.ElevationFactor | backend/ml_models/disaster_risk_predictor.py:36 | equal to 100 - e/2 up to 200 m and 0 from there up, so never negative; at most 100 above sea level and above 100 below it |
| Flood.DrainageFactor | backend/ml_models/disaster_risk_predictor.py:39 | equal to 100 - 0.8·h up to 125 % humidity and 0 from there up, so never negative; at most 100 for non-negative humidity |
| Flood.FloodScore | backend/ml_models/disaster_risk_predictor.py:42-46 | non-negative for non-negative rain; at most 100 for non-negative elevation and humidity |
| Flood.FloodScoreMonotone | backend/ml_models/disaster_risk_predictor.py:33-46 | more rain, lower ground or lower humidity never lowers the score |
| Flood.FloodScoreExceedsHundredBelowSeaLevel | backend/ml_models/disaster_risk_predictor.py:36-46 | at 500 m below sea level with 100 mm of rain and 0 % humidity the score exceeds 100 |
| Flood.RainfallWarnings | backend/ml_models/disaster_risk_predictor.py:65-70 | at most one rainfall warning, present iff rain exceeds 25 mm; heavy iff above 75, significant iff in (50, 75], elevated iff in (25, 50] |
| Flood.ElevationWarnings | backend/ml_models/disaster_risk_predictor.py:72-75 | one elevation warning iff below 30 m, none from 30 m up; very-low iff below 10 m, low iff in [10, 30) m |
| Flood.DrainageWarnings | backend/ml_models/disaster_risk_predictor.py:77-78 | the poor-drainage warning appears iff humidity exceeds 80 % |
| Flood.ExtremeWarnings | backend/ml_models/disaster_risk_predictor.py:80-81 | the extreme warning appears iff the score is at least 70 |
| Flood.FloodWarnings | backend/ml_models/disaster_risk_predictor.py:63-81 | warnings come in rainfall, elevation, drainage, extreme order with at most one per group, at most four in all, and the extreme one comes last and appears iff the score is at least 70 |
| Flood.RainfallWarningSelection | backend/ml_models/disaster_risk_predictor.py:65-70 | in the full list, each rainfall warning appears exactly in its rain interval, and the list starts with a rainfall warning iff rain exceeds 25 mm |
| Flood.GroundWarningSelection | backend/ml_models/disaster_risk_predictor.py:72-78 | in the full list, the elevation warnings follow their elevation intervals, no elevation-group warning appears iff the elevation is at least 30 m, and poor drainage appears iff humidity exceeds 80 % |
| Flood.FloodActions | backend/ml_models/disaster_risk_predictor.py:84-109 | every action belongs to the score's level; actions are distinct; 5, 5, 3 and 1 actions for Critical, High, Medium and Low |
| Flood.CalculateFloodRisk | backend/ml_models/disaster_risk_predictor.py:15-126 | after falsy defaults (50 m, 0 mm, 70 %), level and colour are those of the unrounded score; the reported score is that score rounded to one decimal; the factors are the factor functions rounded to one decimal; the warnings and actions are exactly the lists built from the coerced inputs and the unrounded score; the extreme warning appears iff the level is Critical; all actions match the level; details echo the coerced inputs and the city; for non-negative inputs the score and factors are within 0..100 |
| Flood.ZeroElevationScoresAsFifty | backend/ml_models/disaster_risk_predictor.py:27 | an elevation of 0 or `None` gives the same assessment as 50 m |
| Flood.RoundedScoreCanCrossLevel | backend/ml_models/disaster_risk_predictor.py:42-60 | for 0.2 m, 65 mm and 100 % the reported score is 70.0 but the level is High |
| Flood.WorkedExample | backend/ml_models/disaster_risk_predictor.py:27-60 | 5 m, 80 mm, 85 %: factors 80, 97.5, 32, score 77.4, Critical, `#cc0000` |
| Landslide.SlopeFactor | backend/ml_models/disaster_risk_predictor.py:144-151 | e/30 from 0 to 100 m and 0 below, e/20 in (100, 200] m, e/15 in (200, 500] m, e/10 in (500, 1000] m and 100 from 1000 m up; so always within 0..100 and the 80 and 60 caps never bind |
| Landslide.SlopeFactorMonotone | backend/ml_models/disaster_risk_predictor.py:144-151 | higher ground never gives a smaller slope factor |
| Landslide.RainfallFactor | backend/ml_models/disaster_risk_predictor.py:154 | equal to 1.25·r up to 80 mm and 100 from there up; at most 100, non-negative for non-negative rain |
| Landslide.SoilFactor | backend/ml_models/disaster_risk_predictor.py:158 | equal to 100 - 0.8·r up to 125 mm and 0 from there up; non-negative, at most 100 for non-negative rain |
| Landslide.LandslideScore | backend/ml_models/disaster_risk_predictor.py:161-165 | within 0..100 for non-negative rain |
| Landslide.LandslideScoreMonotone | backend/ml_models/disaster_risk_predictor.py:144-165 | higher ground or more rain never lowers the score |
| Landslide.TerrainType | backend/ml_models/disaster_risk_predictor.py:181-189 | mountainous iff above 500 m, hilly iff in (200, 500] m, rolling iff in (100, 200] m, flat iff at most 100 m |
| Landslide.TerrainFollowsSlope | backend/ml_models/disaster_risk_predictor.py:181-189 | the terrain label agrees with the slope factor read at 50 / 12 / 4 |
| Landslide.TerrainWarnings | backend/ml_models/disaster_risk_predictor.py:194-201 | one terrain warning iff above 100 m, none otherwise; each warning appears exactly when its condition holds and no earlier one does |
| Landslide.SoilWarnings | backend/ml_models/disaster_risk_predictor.py:203-206 | saturated soil iff rain above 80 mm, destabilising rain iff in (60, 80] |
| Landslide.ExtremeWarnings | backend/ml_models/disaster_risk_predictor.py:208-209 | the extreme warning appears iff the score is at least 70 |
| Landslide.LandslideWarnings | backend/ml_models/disaster_risk_predictor.py:191-209 | terrain, soil, extreme order with at most one per group, at most three in all, extreme last and present iff the score is at least 70 |
| Landslide.TerrainWarningSelection | backend/ml_models/disaster_risk_predictor.py:194-201 | in the full list, a terrain warning leads iff above 100 m; the steep-terrain warning appears iff above 500 m with over 60 mm; the watch appears iff above 100 m and not hilly-and-wet |
| Landslide.SoilWarningSelection | backend/ml_models/disaster_risk_predictor.py:203-206 | in the full list, the soil warnings follow their rain intervals |
| Landslide.LandslideActions | backend/ml_models/disaster_risk_predictor.py:214-238 | every action belongs to the score's level; actions are distinct; 5, 5, 4 and 1 actions per level |
| Landslide.CalculateLandslideRisk | backend/ml_models/disaster_risk_predictor.py:128-254 | after falsy defaults (50 m, 0 mm), level and colour are those of the unrounded score; the reported score is that score rounded; the factors are the factor functions rounded to one decimal; the warnings and actions are exactly the lists built from the coerced inputs and the unrounded score; the extreme warning appears iff Critical; actions match the level; details echo inputs and terrain; slope within 0..100; for non-negative rain the score and factors are within 0..100 |
| Landslide.ZeroElevationScoresAsFifty | backend/ml_models/disaster_risk_predictor.py:139 | an elevation of 0 or `None` gives the same assessment as 50 m |
| Landslide.WorkedExample | backend/ml_models/disaster_risk_predictor.py:144-179 | 600 m, 70 mm: score 69.025, level High; rounded factors 60, 87.5 and 44 |
| CityRisk.StatusForLevelInjective | backend/ml_models/disaster_risk_predictor.py:279-286 | the four overall statuses are distinct, one per level |
| CityRisk.OverallStatusFor | backend/ml_models/disaster_risk_predictor.py:279-286 | the overall status is the label of the combined score's band |
| CityRisk.CombinedRisk | backend/ml_models/disaster_risk_predictor.py:276 | the combination lies between the two scores, strictly when they differ, and equals them when they agree |
| CityRisk.AssessCityRisk | backend/ml_models/disaster_risk_predictor.py:256-301 | missing weather keys default to 0 / 70 / 25; it fails iff an echoed input is `None`; otherwise it names the city, reports the time as "Current conditions", both hazard results are the per-hazard assessments, the status follows the band of the combined rounded scores, the reported combination is within 0.05 of it and between the two scores, and the weather echo is the raw inputs rounded to one decimal |
| CityRisk.CombinedRoundingStaysBetween | backend/ml_models/disaster_risk_predictor.py:276-292 | rounding the combination of two one-decimal scores keeps it between them |
| CityRisk.CombinedRiskBounds | backend/ml_models/disaster_risk_predictor.py:272-292 | with a non-negative elevation, rainfall and humidity and a numeric temperature, the assessment succeeds and the reported combined score is within 0..100 |
| CityRisk.ZeroElevationEchoedRaw | backend/ml_models/disaster_risk_predictor.py:272-299 | with elevation 0 the hazards report 50 m while the weather echo reports 0 |
| Coastal.FirstContaining | backend/app.py:299-302 | the index found is the first box containing the point; none means no box from the start index on contains it |
| Coastal.EstimateCoastalDistance | backend/app.py:290-303 | the distance is 5, 10 or 200; 200 iff no box contains the point; otherwise the distance of the first containing box |
| Coastal.DefaultCoordinatesAreInland | backend/app.py:239-243 | the point (0, 0), used when coordinates are missing, is 200 km inland |
| Scenarios.ParseScenario | backend/app.py:259 | the inverse of the scenario names: a name parses to the scenario it names, and only then |
| Scenarios.ScenarioMultiplier | backend/app.py:259-260 | 0.85 iff optimistic, 1.35 iff pessimistic, 1.0 for every other name |
| StringOrder.Sort | backend/app.py:306 | the result is a permutation of the input |
| StringOrder.SortSorted | backend/app.py:306 | the result is sorted in Python string order |
| StringOrder.SortedUnique | backend/app.py:306 | two sorted permutations of the same names are equal, so the sorted list is unique |
| SeaLevel.FactorFollowsTier | backend/app.py:245-256 | a more exposed tier has a strictly larger factor, so the factor identifies the tier |
| SeaLevel.FactorIsTwoDecimal | backend/app.py:285 | `round(factor, 2)` returns each tier's factor unchanged |
| SeaLevel.AssessVulnerability | backend/app.py:245-256 | critical iff at most 5 m or under 10 km; at least high iff at most 15 m or under 50 km; at least moderate iff at most 30 m or under 100 km; low otherwise; the factor is the tier's |
| SeaLevel.VulnerabilityMonotone | backend/app.py:245-256 | lower ground or a nearer coast never gives a less exposed tier or a smaller factor |
| SeaLevel.VulnerabilityOfEstimatedDistance | backend/app.py:243-256 | with looked-up distances: critical iff at most 5 m or in a 5 km box; moderate and low only outside every box |
| SeaLevel.CalibrationSeries | backend/app.py:201-209 | 19 points, years strictly increasing, levels never falling |
| SeaLevel.FloodingRisk | backend/app.py:268-271 | above sea level and within 100 km, rise/(10·elevation) while the rise is at most the ground height in mm; at or below sea level and within 100 km, 80 + rise/10 while the rise is at most 200; exactly 100, or 50 beyond 100 km, once the rise reaches the ground height in mm (above sea level) or 200 (at or below it); always at most 100 (50 inland), non-negative for a non-negative rise, at least 80 (40 inland) at or below sea level |
| SeaLevel.InlandHalvesFloodingRisk | backend/app.py:270-271 | beyond 100 km the risk is exactly half the coastal risk for the same rise and elevation |
| SeaLevel.FloodingRiskMonotone | backend/app.py:268-271 | a larger local rise never lowers the flooding risk |
| SeaLevel.Report | backend/app.py:268-280 | the record echoes year, elevation and tier; the rises are rounded within 0.005; the risk is within 0.005 of the flooding risk of the unrounded local rise, at most 100, and at most 50 beyond 100 km |
| SeaLevel.PredictYear | backend/app.py:262-280 | the global rise is within 0.005 of the model times the multiplier; the local rise is within 0.005 of that times the factor; the risk is within 0.005 of the flooding risk of that local rise; the risk bounds hold |
| SeaLevel.PredictYears | backend/app.py:262-280 | one prediction per target year, in order |
| SeaLevel.NewPredictor | backend/app.py:196-223 | a fresh predictor is untrained, holds no model, has not fitted, and holds the twelve-city reference table |
| SeaLevel.Train | backend/app.py:226-233 | training stores the fit, marks the predictor trained, counts one fit and keeps the table |
| SeaLevel.Startup | backend/app.py:308-309 | the module-level predictor is trained exactly once at start-up, holds the fit and keeps the reference table |
| SeaLevel.PredictAnyCity | backend/app.py:235-288 | trains on `fit` iff untrained and is unchanged otherwise; elevation defaults to 50; the tier and factor come from the coastal lookup of the coordinates, defaulting to (0, 0); one prediction per target year, each projected from the model at that year with the scenario multiplier and the location's factor |
| SeaLevel.PredictionsPerYear | backend/app.py:262-280 | each prediction has its year, the location's elevation and tier, a global rise within 0.005 of the scaled model, a local rise within 0.005 of that times the vulnerability factor, a risk within 0.005 of the flooding risk of that local rise, at most 100, or 50 outside every coastal box |
| SeaLevel.PredictionIsStable | backend/app.py:235-237 | once trained, a second call never refits and returns the same answer |
| SeaLevel.PredictionIgnoresCityTable | backend/app.py:235-288 | predictors with the same model give the same prediction whatever their city tables hold |
| SeaLevel.StartupTrainsOnce | backend/app.py:308-309 | after start-up, predictions leave the fit count at one |
| SeaLevel.AvailableCities | backend/app.py:305-306 | the listing is sorted and is a permutation of the table's city names |
| SeaLevel.StartupListing | backend/app.py:211-223 | after start-up the listing has twelve names, is sorted, and holds exactly the reference table's city names |
| SeaLevel.ListingUnaffectedByPrediction | backend/app.py:305-306 | predictions do not change the listing |
| SeaLevel.ListingIgnoresTableOrder | backend/app.py:305-306 | the listing depends only on which names the table holds, not on their order |

## Left out

- The Flask routes, the OpenWeather and Open-Meteo HTTP clients and JSON encoding are I/O outside the scoring core.
- The least-squares polynomial fit (`PolynomialFeatures` and `LinearRegression`) is library code. Its result is the `fit` parameter, and the 19-point series is kept only as data.
- Binary floating point is left out: arithmetic is exact, and `round` is round-half-to-even on exact reals, so a few half-way values that IEEE doubles round the other way are not modelled.
- Warning and action texts, including emoji and `:.1f` formatting, become tags. A warning that prints a measurement carries that value.
- Non-numeric arguments (strings that `float()` would parse or reject) and NaN are left out. `PyNum` is `None` or a number.
- The `risk_thresholds` dictionary built in the constructor is never read by the scoring code. The bands use their literal 20/40/70, as the model does.
- The synthetic weather series, the frontend and the "trained" console message are left out.
- Concurrency on the shared module-level predictor is left out. Each call is a pure function of the predictor state.
