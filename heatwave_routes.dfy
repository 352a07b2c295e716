/** The heatwave routes: latest-reading lookups, the forecast slice, the open cooling centres,
    the alert-level table and the cooling-centre append. */
module HeatwaveRoutes {
  import opened Wrappers
  import opened Text
  import opened Store
  import opened RouteQuery
  import opened HeatwaveModel
  import opened Converters

  function RecordedAt(d: HeatwaveReading): int {
    d.recordedAt
  }

  predicate OfCity(d: HeatwaveReading, city: string) {
    CityMatches(city, d.city)
  }

  /** `GET /current/:city`: the newest reading of the city, or 404. */
  function Current(docs: seq<HeatwaveReading>, city: string): (r: Result<HeatwaveReading>)
    ensures r.Err? <==> forall i :: 0 <= i < |docs| ==> !OfCity(docs[i], city)
    ensures r.Err? ==> r.status == 404
    ensures r.Ok? ==> r.value in docs && OfCity(r.value, city)
    ensures r.Ok? ==> forall i :: 0 <= i < |docs| && OfCity(docs[i], city) ==> docs[i].recordedAt <= r.value.recordedAt
  {
    LatestOr404(docs, (d: HeatwaveReading) => OfCity(d, city), RecordedAt)
  }

  datatype ForecastView = ForecastView(city: string, state: string, forecast: seq<HeatForecast>)

  /** `GET /forecast/:city`: the newest reading's forecast, cut to `days` entries, or 404. */
  function Forecast(docs: seq<HeatwaveReading>, city: string, days: Option<string>): (r: Result<ForecastView>)
    ensures r.Err? <==> Current(docs, city).Err?
    ensures r.Err? ==> r.status == 404
    ensures r.Ok? ==> var d := Current(docs, city).value;
      && r.value.city == d.city && r.value.state == d.state
      && |r.value.forecast| <= |d.forecast| && r.value.forecast == d.forecast[..|r.value.forecast|]
      && (SliceEnd(days) >= 0 ==> |r.value.forecast| == Min(SliceEnd(days), |d.forecast|))
  {
    match Current(docs, city)
    case Err(s) => Err(s)
    case Ok(d) => Ok(ForecastView(d.city, d.state, DaysSlice(d.forecast, days)))
  }

  predicate IsOpen(c: CoolingCenter) {
    c.isOpen
  }

  datatype CentersView = CentersView(coolingCenters: seq<CoolingCenter>, hospitals: seq<Hospital>)

  /** `GET /cooling-centers/:city`: the open cooling centres and all hospitals of the newest
      reading, or 404. The `lat`/`lng` query parameters are read but not used. */
  function CoolingCenters(docs: seq<HeatwaveReading>, city: string): (r: Result<CentersView>)
    ensures r.Err? <==> Current(docs, city).Err?
    ensures r.Err? ==> r.status == 404
    ensures r.Ok? ==> var d := Current(docs, city).value;
      && r.value.hospitals == d.hospitals
      && IsSubsequence(r.value.coolingCenters, d.coolingCenters)
      && (forall c :: c in r.value.coolingCenters <==> c in d.coolingCenters && c.isOpen)
      && (forall c :: multiset(r.value.coolingCenters)[c] == if c.isOpen then multiset(d.coolingCenters)[c] else 0)
  {
    match Current(docs, city)
    case Err(s) => Err(s)
    case Ok(d) =>
      FilterIsSubsequence(d.coolingCenters, IsOpen);
      FilterMembership(d.coolingCenters, IsOpen);
      FilterMultiplicity(d.coolingCenters, IsOpen);
      Ok(CentersView(Filter(d.coolingCenters, IsOpen), d.hospitals))
  }

  // ---------------------------------------------------------------------------------
  // GET /alert-levels
  // ---------------------------------------------------------------------------------

  /** A row of the alert-level table: the temperature and heat-index ranges it names, as
      `[from, below)` with `None` for an open end ("Below 37°C", "37-40°C", "Above 45°C"). */
  datatype LevelRow = LevelRow(level: AlertLevel, name: string,
                               tempFrom: Option<real>, tempBelow: Option<real>,
                               heatFrom: Option<real>, heatBelow: Option<real>)

  const LevelTable: seq<LevelRow> := [
    LevelRow(Green, "Normal", None, Some(37.0), None, Some(40.0)),
    LevelRow(Yellow, "Caution", Some(37.0), Some(40.0), Some(40.0), Some(45.0)),
    LevelRow(Orange, "Warning", Some(40.0), Some(45.0), Some(45.0), Some(52.0)),
    LevelRow(Red, "Severe", Some(45.0), None, Some(52.0), None)]

  predicate InRange(from: Option<real>, below: Option<real>, v: real) {
    (from.None? || from.value <= v) && (below.None? || v < below.value)
  }

  /** The table lists the four levels in rank order; each range begins where the previous
      one ends. */
  lemma LevelTableContiguous()
    ensures |LevelTable| == 4
    ensures forall k :: 0 <= k < 4 ==> LevelRank(LevelTable[k].level) == k
    ensures forall k :: 0 <= k < 3 ==> LevelTable[k].tempBelow.Some? && LevelTable[k + 1].tempFrom == LevelTable[k].tempBelow
    ensures forall k :: 0 <= k < 3 ==> LevelTable[k].heatBelow.Some? && LevelTable[k + 1].heatFrom == LevelTable[k].heatBelow
    ensures LevelTable[0].tempFrom.None? && LevelTable[0].heatFrom.None?
    ensures LevelTable[3].tempBelow.None? && LevelTable[3].heatBelow.None?
  {
  }

  /** The table uses the thresholds of `getHeatwaveAlertLevel`: a reading whose temperature
      and heat index both lie in one row's ranges gets that row's level, and a row's level
      or higher is reached exactly when either input reaches the row's lower bound. */
  lemma LevelTableAgrees(k: nat, temp: real, heatIndex: real)
    requires k < 4
    ensures InRange(LevelTable[k].tempFrom, LevelTable[k].tempBelow, temp)
            && InRange(LevelTable[k].heatFrom, LevelTable[k].heatBelow, heatIndex)
            ==> HeatwaveAlertLevel(temp, heatIndex) == LevelTable[k].level
    ensures 0 < k ==> (LevelRank(HeatwaveAlertLevel(temp, heatIndex)) >= k
                       <==> temp >= LevelTable[k].tempFrom.value || heatIndex >= LevelTable[k].heatFrom.value)
  {
    AlertLevelBands(temp, heatIndex);
  }

  // ---------------------------------------------------------------------------------
  // POST /cooling-centers/:city
  // ---------------------------------------------------------------------------------

  /** `findOneAndUpdate({ city }, { $push: { coolingCenters } }, { new: true, sort: { recordedAt: -1 } })`
      and the updated list in the answer. With no matching reading the update returns `null`,
      reading `data.coolingCenters` throws, and the handler answers 500. */
  method AddCoolingCenter(heat: Collection<HeatwaveReading>, city: string, center: CoolingCenter)
    returns (r: Result<seq<CoolingCenter>>)
    modifies heat
    ensures var k := LatestIndex(old(heat.docs), (d: HeatwaveReading) => OfCity(d, city), RecordedAt);
      && (k.None? ==> r == Err(500) && heat.docs == old(heat.docs))
      && (k.Some? ==>
            var d := old(heat.docs)[k.value];
            && heat.docs == old(heat.docs)[k.value := d.(coolingCenters := d.coolingCenters + [center])]
            && r == Ok(d.coolingCenters + [center]))
  {
    var k := LatestIndex(heat.docs, (d: HeatwaveReading) => OfCity(d, city), RecordedAt);
    if k.None? {
      r := Err(500);
    } else {
      var d := heat.docs[k.value];
      var updated := d.(coolingCenters := d.coolingCenters + [center]);
      heat.docs := heat.docs[k.value := updated];
      r := Ok(heat.docs[k.value].coolingCenters);
    }
  }

  /** The list after an append is one longer, ends with the new centre, and keeps the
      previous centres in order; if the new centre is open, the open-centre view of that
      reading gains exactly it. */
  lemma AddedCenterShows(d: HeatwaveReading, center: CoolingCenter)
    ensures var after := d.coolingCenters + [center];
      && |after| == |d.coolingCenters| + 1 && after[|after| - 1] == center
      && Filter(after, IsOpen) == Filter(d.coolingCenters, IsOpen) + (if center.isOpen then [center] else [])
  {
    FilterAppend(d.coolingCenters, [center], IsOpen);
    assert Filter([center], IsOpen) == (if center.isOpen then [center] else []) by {
      assert [center][1..] == [];
    }
  }
}
