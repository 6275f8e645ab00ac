/**
 The standard four-tier risk band shared by the flood, landslide and
 combined scores: Critical from 70, High from 40, Medium from 20, Low below,
 each level with its fixed display colour and description.
 */
module RiskBand {
  import opened Wrappers

  /**
   The band thresholds. The constructor also keeps them in a `low`/`medium`/`high`
   dictionary, but the scoring code writes the same values as literals.
   */
  const LOW_THRESHOLD: real := 20.0
  const MEDIUM_THRESHOLD: real := 40.0
  const HIGH_THRESHOLD: real := 70.0

  datatype RiskLevel = Low | Medium | High | Critical {

    /** Position in the order Low < Medium < High < Critical. */
    function Rank(): nat {
      match this
      case Low => 0
      case Medium => 1
      case High => 2
      case Critical => 3
    }

    function Name(): string {
      match this
      case Low => "Low"
      case Medium => "Medium"
      case High => "High"
      case Critical => "Critical"
    }

    function Color(): string {
      match this
      case Low => "#00c851"
      case Medium => "#ffa500"
      case High => "#ff4444"
      case Critical => "#cc0000"
    }
  }

  /** The level a score falls in, tried from the top tier down. */
  function Band(score: real): (l: RiskLevel)
    ensures l == Critical <==> score >= HIGH_THRESHOLD
    ensures l == High <==> MEDIUM_THRESHOLD <= score < HIGH_THRESHOLD
    ensures l == Medium <==> LOW_THRESHOLD <= score < MEDIUM_THRESHOLD
    ensures l == Low <==> score < LOW_THRESHOLD
  {
    if score >= HIGH_THRESHOLD then Critical
    else if score >= MEDIUM_THRESHOLD then High
    else if score >= LOW_THRESHOLD then Medium
    else Low
  }

  /** A higher score never falls in a lower tier. */
  lemma BandMonotone(s: real, t: real)
    requires s <= t
    ensures Band(s).Rank() <= Band(t).Rank()
  {
  }

  /** The tier boundaries belong to the upper tier. */
  lemma BandBoundaries()
    ensures Band(70.0) == Critical && Band(69.999) == High
    ensures Band(40.0) == High && Band(39.999) == Medium
    ensures Band(20.0) == Medium && Band(19.999) == Low
  {
  }

  /** The level a display colour stands for, if any. */
  function LevelOfColor(color: string): (r: Option<RiskLevel>)
    ensures r.Some? ==> r.value.Color() == color
    ensures forall l: RiskLevel :: l.Color() == color ==> r == Some(l)
  {
    if color == "#cc0000" then Some(Critical)
    else if color == "#ff4444" then Some(High)
    else if color == "#ffa500" then Some(Medium)
    else if color == "#00c851" then Some(Low)
    else None
  }

  /** Level and colour are in one-to-one correspondence. */
  lemma ColorIdentifiesLevel(a: RiskLevel, b: RiskLevel)
    ensures a.Color() == b.Color() <==> a == b
  {
    assert LevelOfColor(a.Color()) == Some(a);
  }

  /** The record returned by `get_risk_level_info`. */
  datatype RiskLevelInfo = RiskLevelInfo(level: RiskLevel, color: string, description: string)

  function GetRiskLevelInfo(score: real): (info: RiskLevelInfo)
    ensures info.level == Band(score)
    ensures info.color == info.level.Color()
    ensures LevelOfColor(info.color) == Some(Band(score))
  {
    if score >= 70.0 then
      RiskLevelInfo(Critical, "#cc0000", "Extreme danger - immediate action required")
    else if score >= 40.0 then
      RiskLevelInfo(High, "#ff4444", "High risk - prepare for evacuation")
    else if score >= 20.0 then
      RiskLevelInfo(Medium, "#ffa500", "Moderate risk - stay alert")
    else
      RiskLevelInfo(Low, "#00c851", "Low risk - normal monitoring")
  }
}
