/** The air-quality routes: latest-reading lookups, the forecast slice, the health
    recommendations with their default table, the category table and the pollution sources. */
module AirQualityRoutes {
  import opened Wrappers
  import opened Text
  import opened Store
  import opened RouteQuery
  import opened AirQualityModel
  import Converters
  import Ingestion

  function RecordedAt(d: AirQualityReading): int {
    d.recordedAt
  }

  predicate OfCity(d: AirQualityReading, city: string) {
    CityMatches(city, d.city)
  }

  /** `GET /current/:city`: the newest reading of the city, or 404. */
  function Current(docs: seq<AirQualityReading>, city: string): (r: Result<AirQualityReading>)
    ensures r.Err? <==> forall i :: 0 <= i < |docs| ==> !OfCity(docs[i], city)
    ensures r.Err? ==> r.status == 404
    ensures r.Ok? ==> r.value in docs && OfCity(r.value, city)
    ensures r.Ok? ==> forall i :: 0 <= i < |docs| && OfCity(docs[i], city) ==> docs[i].recordedAt <= r.value.recordedAt
  {
    LatestOr404(docs, (d: AirQualityReading) => OfCity(d, city), RecordedAt)
  }

  datatype PollutantsView = PollutantsView(city: string, aqi: Aqi, dominantPollutant: Option<string>, pollutants: Pollutants)

  /** `GET /pollutants/:city`: the newest reading's city, AQI, dominant pollutant and
      pollutants, or 404. */
  function PollutantsOf(docs: seq<AirQualityReading>, city: string): (r: Result<PollutantsView>)
    ensures r.Err? <==> Current(docs, city).Err?
    ensures r.Err? ==> r.status == 404
    ensures r.Ok? ==> var d := Current(docs, city).value;
      r.value == PollutantsView(d.city, d.aqi, d.dominantPollutant, d.pollutants)
  {
    match Current(docs, city)
    case Err(s) => Err(s)
    case Ok(d) => Ok(PollutantsView(d.city, d.aqi, d.dominantPollutant, d.pollutants))
  }

  // ---------------------------------------------------------------------------------
  // GET /forecast/:city
  // ---------------------------------------------------------------------------------

  datatype ForecastView = ForecastView(city: string, state: string, trend: Trend, forecast: seq<AqiForecast>)

  /** `GET /forecast/:city`: the newest reading's trend and forecast, the forecast cut to `days`
      entries, or 404. */
  function Forecast(docs: seq<AirQualityReading>, city: string, days: Option<string>): (r: Result<ForecastView>)
    ensures r.Err? <==> Current(docs, city).Err?
    ensures r.Err? ==> r.status == 404
    ensures r.Ok? ==> var d := Current(docs, city).value;
      && r.value.city == d.city && r.value.state == d.state && r.value.trend == d.trend
      && |r.value.forecast| <= |d.forecast| && r.value.forecast == d.forecast[..|r.value.forecast|]
      && (SliceEnd(days) >= 0 ==> |r.value.forecast| == Min(SliceEnd(days), |d.forecast|))
  {
    match Current(docs, city)
    case Err(s) => Err(s)
    case Ok(d) => Ok(ForecastView(d.city, d.state, d.trend, DaysSlice(d.forecast, days)))
  }

  // ---------------------------------------------------------------------------------
  // Health recommendations
  // ---------------------------------------------------------------------------------

  /** An entry of the default table returned by `getDefaultRecommendations`. */
  datatype Advice = Advice(
    general: string, sensitiveGroups: string, outdoorActivity: OutdoorActivity, maskRequired: bool)

  const UnknownRecommendation := Advice(
    "Check local AQI data for recommendations",
    "Monitor air quality and take precautions as needed", Safe, false)

  /** The `general` text of each category's entry. */
  function GeneralAdvice(c: AqiCategory): string {
    match c
    case Good => "Air quality is good. Enjoy outdoor activities!"
    case Satisfactory => "Air quality is acceptable"
    case Moderate => "Air quality is moderate. Sensitive individuals may experience discomfort"
    case Poor => "Air quality is poor. Reduce outdoor activities"
    case VeryPoor => "Air quality is very poor. Avoid outdoor activities"
    case Severe => "Air quality is hazardous. Stay indoors with air purifiers"
  }

  /** The `sensitiveGroups` text of each category's entry. */
  function SensitiveAdvice(c: AqiCategory): string {
    match c
    case Good => "No special precautions needed"
    case Satisfactory => "Unusually sensitive people should consider limiting prolonged outdoor exposure"
    case Moderate => "People with respiratory conditions should limit outdoor exposure"
    case Poor => "Children, elderly, and those with respiratory issues should stay indoors"
    case VeryPoor => "Everyone should avoid outdoor exertion. Sensitive groups stay indoors"
    case Severe => "Everyone at risk. Seek medical attention if experiencing symptoms"
  }

  function ActivityAdvice(c: AqiCategory): OutdoorActivity {
    match c
    case Good => Safe
    case Satisfactory => Safe
    case Moderate => Reduce
    case Poor => Avoid
    case VeryPoor => Avoid
    case Severe => StayIndoors
  }

  function MaskAdvice(c: AqiCategory): bool {
    match c
    case Good => false
    case Satisfactory => false
    case Moderate => false
    case Poor => true
    case VeryPoor => true
    case Severe => true
  }

  /** The table entry of each category. */
  function CategoryDefaults(c: AqiCategory): Advice {
    Advice(GeneralAdvice(c), SensitiveAdvice(c), ActivityAdvice(c), MaskAdvice(c))
  }

  /** `getDefaultRecommendations(category)`: the entry of a category name, and the `unknown`
      entry for any other string (`"unknown"` itself included). */
  function DefaultRecommendations(category: string): Advice {
    match ParseCategory(category)
    case Some(c) => CategoryDefaults(c)
    case None => UnknownRecommendation
  }

  /** A category name looks up its own entry. */
  lemma DefaultsOfName(c: AqiCategory)
    ensures DefaultRecommendations(CategoryName(c)) == CategoryDefaults(c)
  {
    ParseCategoryName(c);
  }

  /** A mask is required exactly for poor, very poor and severe air, that is from the poor
      band up. */
  lemma MaskRequiredFromPoor(c: AqiCategory)
    ensures CategoryDefaults(c).maskRequired <==> Rank(c) >= Rank(Poor)
    ensures CategoryDefaults(c).maskRequired <==> c == Poor || c == VeryPoor || c == Severe
  {
  }

  /** Outdoor activity: safe for good and satisfactory (and unknown), reduce for moderate,
      avoid for poor and very poor, stay indoors for severe. */
  lemma OutdoorActivityTable(c: AqiCategory)
    ensures DefaultRecommendations(CategoryName(c)).outdoorActivity ==
      match c
      case Good => Safe
      case Satisfactory => Safe
      case Moderate => Reduce
      case Poor => Avoid
      case VeryPoor => Avoid
      case Severe => StayIndoors
    ensures DefaultRecommendations("unknown") == UnknownRecommendation
    ensures UnknownRecommendation.outdoorActivity == Safe && !UnknownRecommendation.maskRequired
  {
    DefaultsOfName(c);
    assert "unknown" !in CategoryNames;
  }

  /** Any string that is not a category name gets the `unknown` entry. */
  lemma UnknownFallback(s: string)
    requires s !in CategoryNames
    ensures DefaultRecommendations(s) == UnknownRecommendation
  {
  }

  /** Raising the category never relaxes the advice: no mask is dropped and the outdoor
      advice never becomes more permissive. */
  lemma RecommendationsMonotone(a: AqiCategory, b: AqiCategory)
    requires Rank(a) <= Rank(b)
    ensures MaskAdvice(a) ==> MaskAdvice(b)
    ensures ActivityRank(ActivityAdvice(a)) <= ActivityRank(ActivityAdvice(b))
  {
    AdviceByRank(a);
    AdviceByRank(b);
  }

  /** The advice of a category depends only on its rank. */
  lemma AdviceByRank(c: AqiCategory)
    ensures MaskAdvice(c) <==> Rank(c) >= 3
    ensures ActivityRank(ActivityAdvice(c)) == if Rank(c) <= 1 then 0 else if Rank(c) == 2 then 1 else if Rank(c) <= 4 then 2 else 3
  {
  }

  function ActivityRank(a: OutdoorActivity): nat {
    match a
    case Safe => 0
    case Reduce => 1
    case Avoid => 2
    case StayIndoors => 3
  }

  /** The `recommendations` of an answer: a reading's stored nested object, or a default
      table entry. */
  datatype Recommendations = Stored(stored: HealthRecommendation) | Defaults(advice: Advice)

  datatype HealthAnswer = HealthAnswer(aqi: Option<Aqi>, recommendations: Recommendations)

  /** `GET /health-recommendations/:city`: without a reading, the `unknown` defaults and no AQI.
      With one, its AQI and `data.healthRecommendations || defaults`; the nested path is an
      object, so always truthy, and the stored recommendations come back even when none
      was ever set. */
  function HealthRecommendations(docs: seq<AirQualityReading>, city: string): (h: HealthAnswer)
    ensures h.aqi.None? <==> forall i :: 0 <= i < |docs| ==> !OfCity(docs[i], city)
    ensures h.aqi.None? ==> h.recommendations == Defaults(UnknownRecommendation)
    ensures h.aqi.Some? ==> exists i :: && 0 <= i < |docs| && OfCity(docs[i], city)
                                       && h == HealthAnswer(Some(docs[i].aqi), Stored(docs[i].healthRecommendations))
                                       && forall j :: 0 <= j < |docs| && OfCity(docs[j], city) ==> docs[j].recordedAt <= docs[i].recordedAt
  {
    match Current(docs, city)
    case Err(_) => HealthAnswer(None, Defaults(DefaultRecommendations("unknown")))
    case Ok(d) => HealthAnswer(Some(d.aqi), Stored(d.healthRecommendations))
  }

  /** As written: a reading that the ingestion pass stores never sets `healthRecommendations`,
      so even a severe one answers an empty object with no mask advice, while the severe
      defaults require a mask. */
  lemma IngestedSevereGetsNoMaskAdvice(city: Ingestion.City, c: Converters.ConvertedAqi, now: int)
    requires c.category == Severe
    ensures var h := HealthRecommendations([Ingestion.AirReadingFor(city, c, now)], city.name);
      && h.aqi == Some(Aqi(c.value as real, Severe))
      && h.recommendations == Stored(NoRecommendations)
      && h.recommendations.stored.maskRequired.None?
      && CategoryDefaults(Severe).maskRequired
  {
    ContainsTrivial(Lower(city.name));
  }

  /** The evidently intended handler: the stored recommendations when any field was set,
      otherwise the defaults of the reading's category. */
  function HealthRecommendationsIntended(docs: seq<AirQualityReading>, city: string): (h: HealthAnswer)
    ensures h.aqi == HealthRecommendations(docs, city).aqi
    ensures h.aqi.None? ==> h.recommendations == Defaults(UnknownRecommendation)
    ensures Current(docs, city).Ok? && Current(docs, city).value.healthRecommendations != NoRecommendations
            ==> h == HealthRecommendations(docs, city)
    ensures Current(docs, city).Ok? && Current(docs, city).value.healthRecommendations == NoRecommendations
            ==> h.recommendations == Defaults(CategoryDefaults(Current(docs, city).value.aqi.category))
  {
    match Current(docs, city)
    case Err(_) => HealthAnswer(None, Defaults(DefaultRecommendations("unknown")))
    case Ok(d) =>
      if d.healthRecommendations == NoRecommendations then
        DefaultsOfName(d.aqi.category);
        HealthAnswer(Some(d.aqi), Defaults(DefaultRecommendations(CategoryName(d.aqi.category))))
      else HealthAnswer(Some(d.aqi), Stored(d.healthRecommendations))
  }

  /** Corrected: for a reading with no stored advice, a mask is advised exactly when the
      newest reading is poor or worse. */
  lemma IntendedMaskAdvice(docs: seq<AirQualityReading>, city: string)
    requires Current(docs, city).Ok? && Current(docs, city).value.healthRecommendations == NoRecommendations
    ensures var h := HealthRecommendationsIntended(docs, city);
      && h.recommendations.Defaults?
      && (h.recommendations.advice.maskRequired <==> Rank(Current(docs, city).value.aqi.category) >= Rank(Poor))
  {
    MaskRequiredFromPoor(Current(docs, city).value.aqi.category);
  }

  // ---------------------------------------------------------------------------------
  // GET /categories
  // ---------------------------------------------------------------------------------

  /** A row of the category table; `hi = None` is the open range written "400+". */
  datatype CategoryRow = CategoryRow(category: string, lo: int, hi: Option<int>)

  const CategoryTable: seq<CategoryRow> := [
    CategoryRow("good", 0, Some(50)), CategoryRow("satisfactory", 51, Some(100)),
    CategoryRow("moderate", 101, Some(200)), CategoryRow("poor", 201, Some(300)),
    CategoryRow("very_poor", 301, Some(400)), CategoryRow("severe", 400, None)]

  predicate RowContains(row: CategoryRow, v: int) {
    row.lo <= v && (row.hi.None? || v <= row.hi.value)
  }

  /** The table lists the six categories in order, each closed range starting one after the
      previous one ends. */
  lemma CategoryTableContiguous()
    ensures |CategoryTable| == 6
    ensures forall k :: 0 <= k < 6 ==> CategoryTable[k].category == CategoryNames[k]
    ensures forall k :: 0 <= k < 4 ==> CategoryTable[k + 1].lo == CategoryTable[k].hi.value + 1
  {
  }

  /** For every whole AQI from 0 other than 400, exactly one row contains it and that row
      names the category `getCategory` gives. At 400 the "400+" row overlaps the very_poor
      row, and `getCategory` sides with very_poor. */
  lemma CategoryTableAgrees(v: int)
    requires 0 <= v
    ensures v != 400 ==> forall k :: 0 <= k < 6 && RowContains(CategoryTable[k], v)
                           ==> CategoryTable[k].category == CategoryName(GetCategory(v as real))
    ensures exists k :: 0 <= k < 6 && RowContains(CategoryTable[k], v)
    ensures RowContains(CategoryTable[4], 400) && RowContains(CategoryTable[5], 400)
            && GetCategory(400.0) == VeryPoor
  {
    if v <= 50 {
      assert RowContains(CategoryTable[0], v);
    } else if v <= 100 {
      assert RowContains(CategoryTable[1], v);
    } else if v <= 200 {
      assert RowContains(CategoryTable[2], v);
    } else if v <= 300 {
      assert RowContains(CategoryTable[3], v);
    } else if v <= 400 {
      assert RowContains(CategoryTable[4], v);
    } else {
      assert RowContains(CategoryTable[5], v);
    }
  }

  // ---------------------------------------------------------------------------------
  // GET /pollution-sources/:city
  // ---------------------------------------------------------------------------------

  const DefaultSources: seq<PollutionSource> := [
    PollutionSource(Traffic, 40.0), PollutionSource(Industrial, 25.0), PollutionSource(Construction, 15.0),
    PollutionSource(Burning, 10.0), PollutionSource(Dust, 10.0)]

  function TotalContribution(s: seq<PollutionSource>): real
    decreases |s|
  {
    if s == [] then 0.0 else s[0].contribution + TotalContribution(s[1..])
  }

  /** The default contributions add up to 100 percent. */
  lemma DefaultSourcesSumTo100()
    ensures TotalContribution(DefaultSources) == 100.0
  {
    var s := DefaultSources;
    assert s[1..][1..][1..][1..][1..] == [];
  }

  /** `data?.pollutionSources || defaults`: a stored array is never falsy (an unset array is
      `[]`), so the defaults are returned only when the city has no reading. */
  function PollutionSources(docs: seq<AirQualityReading>, city: string): (r: seq<PollutionSource>)
    ensures Current(docs, city).Err? ==> r == DefaultSources
    ensures Current(docs, city).Ok? ==> r == Current(docs, city).value.pollutionSources
  {
    match Current(docs, city)
    case Err(_) => DefaultSources
    case Ok(d) => d.pollutionSources
  }
}
