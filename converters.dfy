/** The pure converters of the ingestion job: heat index, heatwave alert level and the
    OpenWeather-to-Indian-AQI approximation. */
module Converters {
  import opened Wrappers
  import opened AirQualityModel
  import opened HeatwaveModel

  /** `Math.round`: the nearest integer, halves rounded up. */
  function Round(x: real): (r: int)
    ensures r as real - 0.5 <= x < r as real + 0.5
  {
    (x + 0.5).Floor
  }

  /** The nine-term regression, evaluated exactly. */
  function HeatRegression(t: real, h: real): real {
    -8.78469475556 + 1.61139411 * t + 2.33854883889 * h
    + -0.14611605 * t * h + -0.012308094 * t * t
    + -0.0164248277778 * h * h + 0.002211732 * t * t * h
    + 0.00072546 * t * h * h + -0.000003582 * t * t * h * h
  }

  /** `calculateHeatIndex`: below 27 degrees the temperature itself, otherwise the
      regression rounded to one decimal. */
  function HeatIndex(temp: real, humidity: real): real {
    if temp < 27.0 then temp else Round(HeatRegression(temp, humidity) * 10.0) as real / 10.0
  }

  /** Below 27 degrees the index is the temperature; from 27 it is within half a tenth of
      the regression. */
  lemma HeatIndexRounding(temp: real, humidity: real)
    ensures temp < 27.0 ==> HeatIndex(temp, humidity) == temp
    ensures 27.0 <= temp ==> HeatIndex(temp, humidity) - 0.05 <= HeatRegression(temp, humidity)
                             < HeatIndex(temp, humidity) + 0.05
  {
  }

  /** `getHeatwaveAlertLevel`: first match from red down to green; either input alone can
      raise the level. */
  function HeatwaveAlertLevel(temp: real, heatIndex: real): AlertLevel {
    if temp >= 45.0 || heatIndex >= 52.0 then Red
    else if temp >= 40.0 || heatIndex >= 45.0 then Orange
    else if temp >= 37.0 || heatIndex >= 40.0 then Yellow
    else Green
  }

  /** Each level is exactly its band: red when either input reaches its red threshold,
      green only when both stay below their yellow thresholds. */
  lemma AlertLevelBands(temp: real, heatIndex: real)
    ensures HeatwaveAlertLevel(temp, heatIndex) == Red <==> temp >= 45.0 || heatIndex >= 52.0
    ensures HeatwaveAlertLevel(temp, heatIndex) == Orange
            <==> !(temp >= 45.0 || heatIndex >= 52.0) && (temp >= 40.0 || heatIndex >= 45.0)
    ensures HeatwaveAlertLevel(temp, heatIndex) == Yellow
            <==> !(temp >= 40.0 || heatIndex >= 45.0) && (temp >= 37.0 || heatIndex >= 40.0)
    ensures HeatwaveAlertLevel(temp, heatIndex) == Green <==> temp < 37.0 && heatIndex < 40.0
  {
  }

  /** Raising either input never lowers the level. */
  lemma AlertLevelMonotone(t1: real, h1: real, t2: real, h2: real)
    requires t1 <= t2 && h1 <= h2
    ensures LevelRank(HeatwaveAlertLevel(t1, h1)) <= LevelRank(HeatwaveAlertLevel(t2, h2))
  {
  }

  /** The thresholds themselves fall in the higher band. */
  lemma AlertLevelBoundaries(other: real)
    requires other < 37.0
    ensures HeatwaveAlertLevel(37.0, other) == Yellow && HeatwaveAlertLevel(40.0, other) == Orange
    ensures HeatwaveAlertLevel(45.0, other) == Red
    ensures HeatwaveAlertLevel(other, 40.0) == Yellow && HeatwaveAlertLevel(other, 45.0) == Orange
    ensures HeatwaveAlertLevel(other, 52.0) == Red
  {
  }

  /** One entry of OpenWeather's air-pollution `list`. */
  datatype Components = Components(pm2_5: real, pm10: real, no2: real, so2: real, co: real, o3: real, nh3: real)

  /** The air-pollution response: `list` is absent or an array of entries. */
  datatype PollutionResponse = PollutionResponse(list: Option<seq<Components>>)

  datatype ConvertedAqi = ConvertedAqi(value: int, category: AqiCategory, pollutants: Pollutants)

  /** The raw index of the approximation: twice PM2.5, or PM10 when larger. */
  function RawAqi(c: Components): real {
    if c.pm2_5 * 2.0 >= c.pm10 then c.pm2_5 * 2.0 else c.pm10
  }

  /** `convertToIndianAQI`: null without a first list entry; otherwise the category of the
      unrounded raw index, the rounded value, and CO converted from ug/m3 to mg/m3. */
  function ConvertToIndianAqi(data: PollutionResponse): (r: Option<ConvertedAqi>)
    ensures r.None? <==> data.list.None? || |data.list.value| == 0
    ensures r.Some? ==> var c := data.list.value[0];
      && r.value.value == Round(RawAqi(c))
      && r.value.category == GetCategory(RawAqi(c))
      && r.value.pollutants == Pollutants(c.pm2_5, c.pm10, c.no2, c.so2, c.co / 1000.0, c.o3, c.nh3)
  {
    if data.list.None? || |data.list.value| == 0 then None
    else
      var c := data.list.value[0];
      var aqi := if c.pm2_5 * 2.0 >= c.pm10 then c.pm2_5 * 2.0 else c.pm10;
      var category :=
        if aqi <= 50.0 then Good
        else if aqi <= 100.0 then Satisfactory
        else if aqi <= 200.0 then Moderate
        else if aqi <= 300.0 then Poor
        else if aqi <= 400.0 then VeryPoor
        else Severe;
      Some(ConvertedAqi(Round(aqi), category,
                        Pollutants(c.pm2_5, c.pm10, c.no2, c.so2, c.co / 1000.0, c.o3, c.nh3)))
  }

  /** The raw index is the larger of twice PM2.5 and PM10. */
  lemma RawAqiIsMax(c: Components)
    ensures RawAqi(c) >= 2.0 * c.pm2_5 && RawAqi(c) >= c.pm10
    ensures RawAqi(c) == 2.0 * c.pm2_5 || RawAqi(c) == c.pm10
  {
  }

  /** The category is taken before rounding, so the stored value and the stored category can
      disagree: PM10 = 50.4 is reported as value 50 but category satisfactory, while
      `getCategory(50)` is good. */
  lemma RoundedValueCanDisagree()
    ensures var data := PollutionResponse(Some([Components(10.0, 50.4, 0.0, 0.0, 0.0, 0.0, 0.0)]));
      var r := ConvertToIndianAqi(data);
      && r.Some? && r.value.value == 50 && r.value.category == Satisfactory
      && GetCategory(r.value.value as real) == Good
  {
    var c := Components(10.0, 50.4, 0.0, 0.0, 0.0, 0.0, 0.0);
    assert RawAqi(c) == 50.4;
    assert Round(50.4) == 50;
  }
}
