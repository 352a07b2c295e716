/** The flood routes: latest-reading lookups, the 24-hour risk map, the forecast slice, safe
    routes and areas to avoid, emergency contacts, and the waterlogging report and its
    verification. */
module FloodRoutes {
  import opened Wrappers
  import opened Text
  import opened Store
  import opened RouteQuery
  import opened FloodModel

  function RecordedAt(d: FloodReading): int {
    d.recordedAt
  }

  predicate OfCity(d: FloodReading, city: string) {
    CityMatches(city, d.city)
  }

  /** `GET /current/:city`: the newest reading of the city, or 404. */
  function Current(docs: seq<FloodReading>, city: string): (r: Result<FloodReading>)
    ensures r.Err? <==> forall i :: 0 <= i < |docs| ==> !OfCity(docs[i], city)
    ensures r.Err? ==> r.status == 404
    ensures r.Ok? ==> r.value in docs && OfCity(r.value, city)
    ensures r.Ok? ==> forall i :: 0 <= i < |docs| && OfCity(docs[i], city) ==> docs[i].recordedAt <= r.value.recordedAt
  {
    LatestOr404(docs, (d: FloodReading) => OfCity(d, city), RecordedAt)
  }

  // ---------------------------------------------------------------------------------
  // GET /risk-map/:city
  // ---------------------------------------------------------------------------------

  const Day: int := 24 * 60 * 60 * 1000

  /** `new Date() - new Date(w.reportedAt) < 24h`; an unset time gives `NaN`, which fails. */
  predicate Recent(w: WaterloggedArea, now: int) {
    w.reportedAt.Some? && now - w.reportedAt.value < Day
  }

  function RecentAreas(areas: seq<WaterloggedArea>, now: int): (r: seq<WaterloggedArea>)
    ensures IsSubsequence(r, areas)
    ensures forall w :: w in r <==> w in areas && Recent(w, now)
    ensures forall w :: multiset(r)[w] == if Recent(w, now) then multiset(areas)[w] else 0
  {
    var p := (w: WaterloggedArea) => Recent(w, now);
    FilterIsSubsequence(areas, p);
    FilterMembership(areas, p);
    FilterMultiplicity(areas, p);
    Filter(areas, p)
  }

  datatype RiskMap = RiskMap(city: string, overallRisk: RiskLevel, floodProneAreas: seq<FloodProneArea>,
                             waterloggedAreas: seq<WaterloggedArea>)

  /** `GET /risk-map/:city`: the newest reading's risk and areas, waterlogging limited to the
      reports of the last 24 hours, or 404. */
  function RiskMapOf(docs: seq<FloodReading>, city: string, now: int): (r: Result<RiskMap>)
    ensures r.Err? <==> Current(docs, city).Err?
    ensures r.Err? ==> r.status == 404
    ensures r.Ok? ==> var d := Current(docs, city).value;
      && r.value.city == d.city && r.value.overallRisk == d.riskLevel
      && r.value.floodProneAreas == d.floodProneAreas
      && r.value.waterloggedAreas == RecentAreas(d.waterloggedAreas, now)
  {
    match Current(docs, city)
    case Err(s) => Err(s)
    case Ok(d) => Ok(RiskMap(d.city, d.riskLevel, d.floodProneAreas, RecentAreas(d.waterloggedAreas, now)))
  }

  /** A report made at `at` stays on the risk map exactly while less than a day has passed. */
  lemma ReportedAreaWindow(areas: seq<WaterloggedArea>, w: WaterloggedArea, at: int, now: int)
    requires w.reportedAt == Some(at)
    ensures w in RecentAreas(areas + [w], now) <==> now - at < Day
  {
    assert w in areas + [w];
  }

  // ---------------------------------------------------------------------------------
  // GET /forecast/:city
  // ---------------------------------------------------------------------------------

  datatype ForecastView = ForecastView(city: string, state: string, currentRainfall: Rainfall,
                                       forecast: seq<RainForecast>)

  /** `GET /forecast/:city`: the newest reading's rainfall and forecast, cut to `days`
      entries, or 404. */
  function Forecast(docs: seq<FloodReading>, city: string, days: Option<string>): (r: Result<ForecastView>)
    ensures r.Err? <==> Current(docs, city).Err?
    ensures r.Err? ==> r.status == 404
    ensures r.Ok? ==> var d := Current(docs, city).value;
      && r.value.city == d.city && r.value.state == d.state && r.value.currentRainfall == d.rainfall
      && |r.value.forecast| <= |d.forecast| && r.value.forecast == d.forecast[..|r.value.forecast|]
      && (SliceEnd(days) >= 0 ==> |r.value.forecast| == Min(SliceEnd(days), |d.forecast|))
  {
    match Current(docs, city)
    case Err(s) => Err(s)
    case Ok(d) => Ok(ForecastView(d.city, d.state, d.rainfall, DaysSlice(d.forecast, days)))
  }

  // ---------------------------------------------------------------------------------
  // GET /safe-routes/:city
  // ---------------------------------------------------------------------------------

  datatype End = From | To

  function EndOf(x: SafeRoute, e: End): Option<string> {
    match e
    case From => x.from
    case To => x.to
  }

  /** The `from`/`to` narrowing: no filter when the parameter is missing or empty, otherwise
      a case-insensitive substring of the route's end. */
  predicate EndMatches(x: SafeRoute, e: End, q: Option<string>) {
    !Given(q) || (EndOf(x, e).Some? && CityMatches(q.value, EndOf(x, e).value))
  }

  /** `r.from.toLowerCase()` on a route without `from` throws. */
  predicate Breaks(x: SafeRoute, e: End, q: Option<string>) {
    Given(q) && EndOf(x, e).None?
  }

  /** `if (q) routes = routes.filter(r => r.<end>.toLowerCase().includes(q.toLowerCase()))`;
      a route without that end makes the handler answer 500. */
  function NarrowBy(routes: seq<SafeRoute>, e: End, q: Option<string>): (r: Result<seq<SafeRoute>>)
    ensures r.Err? <==> exists i :: 0 <= i < |routes| && Breaks(routes[i], e, q)
    ensures r.Err? ==> r.status == 500
    ensures r.Ok? ==> IsSubsequence(r.value, routes)
    ensures r.Ok? ==> forall x :: x in r.value <==> x in routes && EndMatches(x, e, q)
    ensures r.Ok? ==> forall x :: multiset(r.value)[x] == if EndMatches(x, e, q) then multiset(routes)[x] else 0
  {
    if !Given(q) then
      SubsequenceOfSelf(routes);
      Ok(routes)
    else if exists i :: 0 <= i < |routes| && Breaks(routes[i], e, q) then Err(500)
    else
      var p := (x: SafeRoute) => EndMatches(x, e, q);
      FilterIsSubsequence(routes, p);
      FilterMembership(routes, p);
      FilterMultiplicity(routes, p);
      Ok(Filter(routes, p))
  }

  predicate IsOpen(x: SafeRoute) {
    x.isOpen
  }

  function OpenRoutes(routes: seq<SafeRoute>): (r: seq<SafeRoute>)
    ensures IsSubsequence(r, routes)
    ensures forall x :: x in r <==> x in routes && x.isOpen
    ensures forall x :: multiset(r)[x] == if x.isOpen then multiset(routes)[x] else 0
  {
    FilterIsSubsequence(routes, IsOpen);
    FilterMembership(routes, IsOpen);
    FilterMultiplicity(routes, IsOpen);
    Filter(routes, IsOpen)
  }

  /** The open routes narrowed by `from` and then by `to`. */
  function MatchingRoutes(routes: seq<SafeRoute>, from: Option<string>, to: Option<string>): Result<seq<SafeRoute>> {
    match NarrowBy(OpenRoutes(routes), From, from)
    case Err(s) => Err(s)
    case Ok(a) => NarrowBy(a, To, to)
  }

  /** A route that makes the `from` filter throw, or passes it and makes the `to` filter throw. */
  predicate RouteBreaks(x: SafeRoute, from: Option<string>, to: Option<string>) {
    Breaks(x, From, from) || (EndMatches(x, From, from) && Breaks(x, To, to))
  }

  /** The safe routes are, in stored order, exactly the open routes whose ends match the
      given `from` and `to`; the handler fails only on an open route missing an end that is
      being filtered on. */
  lemma MatchingRoutesSpec(routes: seq<SafeRoute>, from: Option<string>, to: Option<string>)
    ensures var r := MatchingRoutes(routes, from, to);
      && (r.Ok? ==> IsSubsequence(r.value, routes))
      && (r.Ok? ==> forall x :: x in r.value <==>
            x in routes && x.isOpen && EndMatches(x, From, from) && EndMatches(x, To, to))
      && (r.Ok? ==>
            forall x :: multiset(r.value)[x] ==
              if x.isOpen && EndMatches(x, From, from) && EndMatches(x, To, to) then multiset(routes)[x] else 0)
      && (r.Err? <==> exists x :: x in routes && x.isOpen && RouteBreaks(x, from, to))
  {
    var open := OpenRoutes(routes);
    var a := NarrowBy(open, From, from);
    var r := MatchingRoutes(routes, from, to);
    if a.Ok? {
      var b := NarrowBy(a.value, To, to);
      if b.Ok? {
        SubsequenceTrans(b.value, a.value, open);
        SubsequenceTrans(b.value, open, routes);
      }
      assert r == b;
      if r.Err? {
        var i :| 0 <= i < |a.value| && Breaks(a.value[i], To, to);
        assert a.value[i] in a.value;
      }
      if exists x :: x in routes && x.isOpen && RouteBreaks(x, from, to) {
        var x :| x in routes && x.isOpen && RouteBreaks(x, from, to);
        assert x in open;
        assert !Breaks(x, From, from) by {
          var j :| 0 <= j < |open| && open[j] == x;
        }
        assert x in a.value;
        var j :| 0 <= j < |a.value| && a.value[j] == x;
        assert Breaks(a.value[j], To, to);
      }
    } else {
      var i :| 0 <= i < |open| && Breaks(open[i], From, from);
      assert open[i] in open;
    }
  }

  /** Where a waterlogged area is and how to recognise it. */
  datatype AreaRef = AreaRef(location: Option<string>, coordinates: Option<Coordinates>)

  predicate IsSevere(w: WaterloggedArea) {
    w.severity == Some("severe")
  }

  /** `areasToAvoid`: the severe waterlogged areas, in stored order, reduced to location and
      coordinates. */
  function AreasToAvoid(areas: seq<WaterloggedArea>): (r: seq<AreaRef>)
    ensures var severe := Filter(areas, IsSevere);
      |r| == |severe| && forall i :: 0 <= i < |r| ==> r[i] == AreaRef(severe[i].location, severe[i].coordinates)
  {
    var severe := Filter(areas, IsSevere);
    seq(|severe|, i requires 0 <= i < |severe| => AreaRef(severe[i].location, severe[i].coordinates))
  }

  /** Every severe area is avoided, and every avoided place is a severe area. */
  lemma AreasToAvoidExactly(areas: seq<WaterloggedArea>)
    ensures forall w :: w in areas && IsSevere(w) ==> AreaRef(w.location, w.coordinates) in AreasToAvoid(areas)
    ensures forall a :: a in AreasToAvoid(areas) ==>
              exists w :: w in areas && IsSevere(w) && a == AreaRef(w.location, w.coordinates)
  {
    var severe := Filter(areas, IsSevere);
    var r := AreasToAvoid(areas);
    FilterMembership(areas, IsSevere);
    forall w | w in areas && IsSevere(w) ensures AreaRef(w.location, w.coordinates) in r {
      var i :| 0 <= i < |severe| && severe[i] == w;
      assert r[i] == AreaRef(w.location, w.coordinates);
    }
    forall a | a in r ensures exists w :: w in areas && IsSevere(w) && a == AreaRef(w.location, w.coordinates) {
      var i :| 0 <= i < |r| && r[i] == a;
      assert severe[i] in severe;
    }
  }

  datatype RoutesView = RoutesView(safeRoutes: seq<SafeRoute>, areasToAvoid: seq<AreaRef>)

  /** `GET /safe-routes/:city`: 404 without a reading, 500 when a filtered end is missing,
      otherwise the matching routes and the severe areas of the newest reading. */
  function SafeRoutes(docs: seq<FloodReading>, city: string, from: Option<string>, to: Option<string>)
    : (r: Result<RoutesView>)
    ensures Current(docs, city).Err? ==> r == Err(404)
    ensures Current(docs, city).Ok? ==> var d := Current(docs, city).value;
      && (r.Err? <==> MatchingRoutes(d.safeRoutes, from, to).Err?)
      && (r.Err? ==> r.status == 500)
      && (r.Ok? ==> r.value == RoutesView(MatchingRoutes(d.safeRoutes, from, to).value, AreasToAvoid(d.waterloggedAreas)))
  {
    match Current(docs, city)
    case Err(s) => Err(s)
    case Ok(d) =>
      match MatchingRoutes(d.safeRoutes, from, to)
      case Err(s) => Err(s)
      case Ok(routes) => Ok(RoutesView(routes, AreasToAvoid(d.waterloggedAreas)))
  }

  // ---------------------------------------------------------------------------------
  // GET /emergency-contacts/:city
  // ---------------------------------------------------------------------------------

  const DefaultContacts: seq<Contact> := [
    Contact("National Emergency Number", "112", "emergency"), Contact("Disaster Management", "1078", "disaster"),
    Contact("Police", "100", "police"), Contact("Fire", "101", "fire"), Contact("Ambulance", "102", "ambulance")]

  /** `data?.emergencyContacts?.length ? data.emergencyContacts : defaultContacts`. */
  function EmergencyContacts(docs: seq<FloodReading>, city: string): (r: seq<Contact>)
    ensures Current(docs, city).Err? || Current(docs, city).value.emergencyContacts == [] ==> r == DefaultContacts
    ensures Current(docs, city).Ok? && Current(docs, city).value.emergencyContacts != [] ==>
              r == Current(docs, city).value.emergencyContacts
  {
    match Current(docs, city)
    case Err(_) => DefaultContacts
    case Ok(d) => if |d.emergencyContacts| > 0 then d.emergencyContacts else DefaultContacts
  }

  /** The answer is never an empty list: five defaults stand in for a missing or empty one. */
  lemma ContactsNeverEmpty(docs: seq<FloodReading>, city: string)
    ensures |EmergencyContacts(docs, city)| >= 1
    ensures |DefaultContacts| == 5 && DefaultContacts[0].phone == "112"
  {
  }

  // ---------------------------------------------------------------------------------
  // POST /report-waterlogging
  // ---------------------------------------------------------------------------------

  /** The entry `$push`ed by a waterlogging report: stamped with the time and the reporter,
      and not verified. */
  function NewArea(id: nat, location: Option<string>, coordinates: Option<Coordinates>, severity: Option<string>,
                   imageUrl: Option<string>, user: nat, now: int): (w: WaterloggedArea)
    ensures !w.isVerified && w.reportedAt == Some(now) && w.reportedBy == Some(user) && w.id == id
  {
    WaterloggedArea(id, location, coordinates, severity, Some(now), Some(user), imageUrl, false)
  }

  /** `findOneAndUpdate({ city }, { $push: { waterloggedAreas } }, { new: true, sort: { recordedAt: -1 } })`
      and the last element of the updated list. A missing `city` builds an empty pattern,
      which matches every reading; with no match, reading the result throws and the answer
      is 500. */
  method ReportWaterlogging(flood: Collection<FloodReading>, city: Option<string>, location: Option<string>,
                            coordinates: Option<Coordinates>, severity: Option<string>, imageUrl: Option<string>,
                            user: nat, id: nat, now: int)
    returns (r: Result<WaterloggedArea>)
    modifies flood
    ensures var k := LatestIndex(old(flood.docs), (d: FloodReading) => OfCity(d, city.GetOr("")), RecordedAt);
      var w := NewArea(id, location, coordinates, severity, imageUrl, user, now);
      && (k.None? ==> r == Err(500) && flood.docs == old(flood.docs))
      && (k.Some? ==>
            var d := old(flood.docs)[k.value];
            && flood.docs == old(flood.docs)[k.value := d.(waterloggedAreas := d.waterloggedAreas + [w])]
            && r == Ok(w))
  {
    var k := LatestIndex(flood.docs, (d: FloodReading) => OfCity(d, city.GetOr("")), RecordedAt);
    if k.None? {
      r := Err(500);
    } else {
      var w := NewArea(id, location, coordinates, severity, imageUrl, user, now);
      var d := flood.docs[k.value];
      var areas := d.waterloggedAreas + [w];
      flood.docs := flood.docs[k.value := d.(waterloggedAreas := areas)];
      r := Ok(areas[|areas| - 1]);
    }
  }

  /** Without a `city` every reading is a candidate. */
  lemma MissingCityMatchesAll(d: FloodReading)
    ensures OfCity(d, None.GetOr(""))
  {
    ContainsTrivial(Lower(d.city));
  }

  // ---------------------------------------------------------------------------------
  // PUT /verify-report/:reportId
  // ---------------------------------------------------------------------------------

  predicate HasArea(d: FloodReading, id: nat) {
    exists i :: 0 <= i < |d.waterloggedAreas| && d.waterloggedAreas[i].id == id
  }

  /** The positional `waterloggedAreas.$.isVerified` update: only the first area with the id
      changes, and only its flag. */
  function SetVerified(d: FloodReading, id: nat, isVerified: bool): (r: FloodReading)
    ensures |r.waterloggedAreas| == |d.waterloggedAreas|
    ensures r == d.(waterloggedAreas := r.waterloggedAreas)
    ensures var k := FirstIndex(d.waterloggedAreas, (w: WaterloggedArea) => w.id == id);
      forall i :: 0 <= i < |d.waterloggedAreas| ==>
        r.waterloggedAreas[i] == if k == Some(i) then d.waterloggedAreas[i].(isVerified := isVerified)
                                 else d.waterloggedAreas[i]
  {
    var k := FirstIndex(d.waterloggedAreas, (w: WaterloggedArea) => w.id == id);
    if k.None? then d
    else d.(waterloggedAreas := d.waterloggedAreas[k.value := d.waterloggedAreas[k.value].(isVerified := isVerified)])
  }

  /** In a reading that holds the id, the area with the id is the one updated: afterwards it
      carries the new flag, and every other area is as it was. */
  lemma SetVerifiedTargets(d: FloodReading, id: nat, isVerified: bool)
    requires HasArea(d, id)
    ensures var r := SetVerified(d, id, isVerified);
      exists i :: 0 <= i < |d.waterloggedAreas| && d.waterloggedAreas[i].id == id
        && r.waterloggedAreas[i] == d.waterloggedAreas[i].(isVerified := isVerified)
        && forall j :: 0 <= j < |d.waterloggedAreas| && j != i ==> r.waterloggedAreas[j] == d.waterloggedAreas[j]
  {
    var k := FirstIndex(d.waterloggedAreas, (w: WaterloggedArea) => w.id == id);
    var i :| 0 <= i < |d.waterloggedAreas| && d.waterloggedAreas[i].id == id;
    assert k.Some?;
  }

  /** `findOneAndUpdate({ city, 'waterloggedAreas._id': reportId }, { $set: … })` without a
      sort: the first reading in stored order that matches the city and holds the area. The
      answer is the same message whether or not anything matched. */
  method VerifyReport(flood: Collection<FloodReading>, city: Option<string>, reportId: nat, isVerified: bool)
    modifies flood
    ensures var k := FirstIndex(old(flood.docs), (d: FloodReading) => OfCity(d, city.GetOr("")) && HasArea(d, reportId));
      && (k.None? ==> flood.docs == old(flood.docs))
      && (k.Some? ==> flood.docs == old(flood.docs)[k.value := SetVerified(old(flood.docs)[k.value], reportId, isVerified)])
  {
    var k := FirstIndex(flood.docs, (d: FloodReading) => OfCity(d, city.GetOr("")) && HasArea(d, reportId));
    if k.Some? {
      flood.docs := flood.docs[k.value := SetVerified(flood.docs[k.value], reportId, isVerified)];
    }
  }
}
