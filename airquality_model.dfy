/** The AirQuality model: AQI categories, the `getCategory` static and the stored reading. */
module AirQualityModel {
  import opened Wrappers
  import opened Store

  datatype AqiCategory = Good | Satisfactory | Moderate | Poor | VeryPoor | Severe

  /** The schema's enum spelling of each category. */
  function CategoryName(c: AqiCategory): string {
    match c
    case Good => "good"
    case Satisfactory => "satisfactory"
    case Moderate => "moderate"
    case Poor => "poor"
    case VeryPoor => "very_poor"
    case Severe => "severe"
  }

  const CategoryNames: seq<string> := ["good", "satisfactory", "moderate", "poor", "very_poor", "severe"]

  /** Reading a category string back; only the six enum values are accepted. */
  function ParseCategory(s: string): (r: Option<AqiCategory>)
    ensures r.Some? <==> s in CategoryNames
    ensures r.Some? ==> CategoryName(r.value) == s
  {
    if s == "good" then Some(Good)
    else if s == "satisfactory" then Some(Satisfactory)
    else if s == "moderate" then Some(Moderate)
    else if s == "poor" then Some(Poor)
    else if s == "very_poor" then Some(VeryPoor)
    else if s == "severe" then Some(Severe)
    else None
  }

  /** Every category name reads back as its category. */
  lemma ParseCategoryName(c: AqiCategory)
    ensures ParseCategory(CategoryName(c)) == Some(c)
  {
    match c
    case Good =>
    case Satisfactory => assert CategoryName(c) != "good";
    case Moderate => assert CategoryName(c) != "good";
    case Poor => assert CategoryName(c) != "good";
    case VeryPoor => assert CategoryName(c) != "good";
    case Severe => assert CategoryName(c) != "good";
  }

  /** Severity order of the categories, good lowest. */
  function Rank(c: AqiCategory): nat {
    match c
    case Good => 0
    case Satisfactory => 1
    case Moderate => 2
    case Poor => 3
    case VeryPoor => 4
    case Severe => 5
  }

  /** `getCategory`: six bands with inclusive upper bounds 50/100/200/300/400. */
  function GetCategory(aqi: real): AqiCategory {
    if aqi <= 50.0 then Good
    else if aqi <= 100.0 then Satisfactory
    else if aqi <= 200.0 then Moderate
    else if aqi <= 300.0 then Poor
    else if aqi <= 400.0 then VeryPoor
    else Severe
  }

  /** Each category is exactly its band of values. */
  lemma GetCategoryBands(aqi: real)
    ensures GetCategory(aqi) == Good <==> aqi <= 50.0
    ensures GetCategory(aqi) == Satisfactory <==> 50.0 < aqi <= 100.0
    ensures GetCategory(aqi) == Moderate <==> 100.0 < aqi <= 200.0
    ensures GetCategory(aqi) == Poor <==> 200.0 < aqi <= 300.0
    ensures GetCategory(aqi) == VeryPoor <==> 300.0 < aqi <= 400.0
    ensures GetCategory(aqi) == Severe <==> 400.0 < aqi
  {
  }

  /** Every boundary value belongs to the lower band; the result is always an enum value. */
  lemma GetCategoryBoundaries()
    ensures GetCategory(50.0) == Good && GetCategory(100.0) == Satisfactory
    ensures GetCategory(200.0) == Moderate && GetCategory(300.0) == Poor
    ensures GetCategory(400.0) == VeryPoor && GetCategory(400.5) == Severe
    ensures forall v: real :: CategoryName(GetCategory(v)) in CategoryNames
  {
  }

  /** A larger AQI never gives a less severe category. */
  lemma GetCategoryMonotone(a: real, b: real)
    requires a <= b
    ensures Rank(GetCategory(a)) <= Rank(GetCategory(b))
  {
  }

  datatype Aqi = Aqi(value: real, category: AqiCategory)

  /** The schema's required `aqi.value` and enum-restricted, required `aqi.category`:
      a document without either, or with a category outside the enum, fails validation. */
  function ValidateAqi(value: Option<real>, category: Option<string>): (r: Option<Aqi>)
    ensures r.Some? <==> value.Some? && category.Some? && category.value in CategoryNames
    ensures r.Some? ==> r.value.value == value.value && CategoryName(r.value.category) == category.value
  {
    if value.None? || category.None? then None
    else match ParseCategory(category.value)
      case None => None
      case Some(c) => Some(Aqi(value.value, c))
  }

  datatype Pollutants = Pollutants(pm25: real, pm10: real, no2: real, so2: real, co: real, o3: real, nh3: real)

  datatype SourceType = Traffic | Construction | Industrial | Burning | Dust | OtherSource

  datatype PollutionSource = PollutionSource(sourceType: SourceType, contribution: real)

  datatype OutdoorActivity = Safe | Reduce | Avoid | StayIndoors

  /** The `healthRecommendations` nested path as a document presents it. Mongoose never leaves
      a nested path undefined: a reading that never set it holds an object whose fields are all
      unset (`None` here). */
  datatype HealthRecommendation = HealthRecommendation(
    general: Option<string>, sensitiveGroups: Option<string>, outdoorActivity: Option<OutdoorActivity>,
    maskRequired: Option<bool>)

  const NoRecommendations := HealthRecommendation(None, None, None, None)

  datatype TrendDirection = Improving | Stable | Worsening

  /** The `trend` nested path; a field never set is `None`. */
  datatype Trend = Trend(direction: Option<TrendDirection>, percentChange: Option<real>)

  datatype AqiForecast = AqiForecast(date: int, aqi: real, category: string)

  datatype AirQualityReading = AirQualityReading(
    city: string,
    state: string,
    coordinates: Coordinates,
    aqi: Aqi,
    pollutants: Pollutants,
    dominantPollutant: Option<string>,
    pollutionSources: seq<PollutionSource>,
    healthRecommendations: HealthRecommendation,
    forecast: seq<AqiForecast>,
    trend: Trend,
    source: string,
    recordedAt: int)
}
