/**
 The combined city assessment: both hazards scored from the same inputs,
 a 0.6/0.4 weighting of their rounded scores, and an overall status banded
 like the per-hazard levels but with its own labels.
 */
module CityRisk {
  import opened Wrappers
  import opened PyBuiltins
  import opened RiskBand
  import Flood
  import Landslide

  datatype OverallStatus = LowRisk | ModerateWatch | HighAlert | CriticalAlert

  /** The status label that stands for each risk level. */
  function StatusForLevel(l: RiskLevel): OverallStatus {
    match l
    case Low => LowRisk
    case Medium => ModerateWatch
    case High => HighAlert
    case Critical => CriticalAlert
  }

  /** Distinct levels get distinct status labels. */
  lemma StatusForLevelInjective(a: RiskLevel, b: RiskLevel)
    ensures StatusForLevel(a) == StatusForLevel(b) <==> a == b
  {
  }

  /** The overall status, tried from the top tier down. */
  function OverallStatusFor(combined: real): (s: OverallStatus)
    ensures s == StatusForLevel(Band(combined))
  {
    if combined >= 70.0 then CriticalAlert
    else if combined >= 40.0 then HighAlert
    else if combined >= 20.0 then ModerateWatch
    else LowRisk
  }

  /** Flood weighted 0.6, landslide 0.4: a convex combination of the two scores. */
  function CombinedRisk(floodScore: real, landslideScore: real): (c: real)
    ensures Min(floodScore, landslideScore) <= c <= Max(floodScore, landslideScore)
    ensures floodScore == landslideScore ==> c == floodScore
    ensures floodScore < landslideScore ==> floodScore < c < landslideScore
    ensures landslideScore < floodScore ==> landslideScore < c < floodScore
  {
    floodScore * 0.6 + landslideScore * 0.4
  }

  /** The raw weather inputs echoed back, rounded to one decimal. */
  datatype WeatherConditions = WeatherConditions(rainfall: real, humidity: real, temperature: real, elevation: real)

  datatype CityAssessment = CityAssessment(
    city: string,
    floodRisk: Flood.FloodRisk,
    landslideRisk: Landslide.LandslideRisk,
    combinedRisk: real,
    overallStatus: OverallStatus,
    assessmentTime: string,
    weatherConditions: WeatherConditions)

  /** `round(None, 1)` raises a TypeError. */
  datatype AssessError = RoundOfNone

  /**
   `assess_city_risk`: missing weather keys take their defaults (rainfall 0,
   humidity 70, temperature 25); the combined score is taken from the
   already rounded per-hazard scores. Echoing a `None` input raises.
   */
  function AssessCityRisk(city: string, elevation: PyNum, weather: map<string, PyNum>): (r: Result<CityAssessment, AssessError>)
    ensures
      var rainfall := Get(weather, "rainfall", Num(0.0));
      var humidity := Get(weather, "humidity", Num(70.0));
      var temperature := Get(weather, "temperature", Num(25.0));
      && (r.Failure? <==> PyNone in {rainfall, humidity, temperature, elevation})
      && (r.Success? ==>
            var a := r.value;
            var combined := CombinedRisk(a.floodRisk.riskScore, a.landslideRisk.riskScore);
            && a.city == city
            && a.assessmentTime == "Current conditions"
            && a.floodRisk == Flood.CalculateFloodRisk(city, elevation, rainfall, humidity)
            && a.landslideRisk == Landslide.CalculateLandslideRisk(city, elevation, rainfall)
            && a.overallStatus == StatusForLevel(Band(combined))
            && combined - 0.05 <= a.combinedRisk <= combined + 0.05
            && Min(a.floodRisk.riskScore, a.landslideRisk.riskScore) <= a.combinedRisk
            && a.combinedRisk <= Max(a.floodRisk.riskScore, a.landslideRisk.riskScore)
            && a.weatherConditions == WeatherConditions(Round1(rainfall.v), Round1(humidity.v), Round1(temperature.v), Round1(elevation.v)))
  {
    var rainfall := Get(weather, "rainfall", Num(0.0));
    var humidity := Get(weather, "humidity", Num(70.0));
    var temperature := Get(weather, "temperature", Num(25.0));
    var floodRisk := Flood.CalculateFloodRisk(city, elevation, rainfall, humidity);
    var landslideRisk := Landslide.CalculateLandslideRisk(city, elevation, rainfall);
    var combined := CombinedRisk(floodRisk.riskScore, landslideRisk.riskScore);
    if rainfall.PyNone? || humidity.PyNone? || temperature.PyNone? || elevation.PyNone? then
      Failure(RoundOfNone)
    else
      CombinedRoundingStaysBetween(floodRisk.riskScore, landslideRisk.riskScore);
      Success(CityAssessment(
        city,
        floodRisk,
        landslideRisk,
        Round1(combined),
        OverallStatusFor(combined),
        "Current conditions",
        WeatherConditions(Round1(rainfall.v), Round1(humidity.v), Round1(temperature.v), Round1(elevation.v))))
  }

  /** Rounding the combination of two one-decimal scores keeps it between them. */
  lemma CombinedRoundingStaysBetween(f: real, l: real)
    requires f == Round1(f) && l == Round1(l)
    ensures Min(f, l) <= Round1(CombinedRisk(f, l)) <= Max(f, l)
  {
    RoundToBetweenRounded(CombinedRisk(f, l), Min(f, l), Max(f, l), One);
  }

  /** A weather reading that is absent, or present as a non-negative number. */
  predicate NonNegativeReading(weather: map<string, PyNum>, key: string) {
    key in weather ==> weather[key].Num? && weather[key].v >= 0.0
  }

  /** With a non-negative elevation, rainfall and humidity the combined score stays within 0..100. */
  lemma CombinedRiskBounds(city: string, elevation: real, weather: map<string, PyNum>)
    requires elevation >= 0.0
    requires NonNegativeReading(weather, "rainfall") && NonNegativeReading(weather, "humidity")
    requires "temperature" in weather ==> weather["temperature"].Num?
    ensures AssessCityRisk(city, Num(elevation), weather).Success?
    ensures 0.0 <= AssessCityRisk(city, Num(elevation), weather).value.combinedRisk <= 100.0
  {
    var r := AssessCityRisk(city, Num(elevation), weather);
    assert Flood.NonNegativeInputs(Num(elevation), Get(weather, "rainfall", Num(0.0)), Get(weather, "humidity", Num(70.0)));
    assert 0.0 <= r.value.floodRisk.riskScore <= 100.0;
    assert 0.0 <= r.value.landslideRisk.riskScore <= 100.0;
  }

  /**
   The flood and landslide details report the coerced elevation while the
   weather echo reports the raw one: an elevation of 0 is scored as 50 m but
   echoed as 0.
   */
  lemma ZeroElevationEchoedRaw(city: string)
    ensures
      var r := AssessCityRisk(city, Num(0.0), map[]);
      && r.Success?
      && r.value.weatherConditions.elevation == 0.0
      && r.value.floodRisk.details.elevation == 50.0
      && r.value.landslideRisk.details.elevation == 50.0
  {
    assert RoundHalfEven(0.0) == 0;
    assert RoundHalfEven(500.0) == 500;
  }
}
