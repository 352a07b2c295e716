/** `fetchExternalData`: one pass over the fixed city roster that stores a heatwave reading
    and an air-quality reading per city and raises threshold alerts. The two OpenWeather
    fetches, the clock and any exception a step throws are inputs of the model. */
module Ingestion {
  import opened Wrappers
  import opened Store
  import opened AirQualityModel
  import opened HeatwaveModel
  import opened AlertModel
  import opened Converters

  datatype City = City(name: string, state: string, lat: real, lng: real)

  /** The hard-coded roster, in iteration order. */
  const Cities: seq<City> := [
    City("Delhi", "Delhi", 28.6139, 77.2090),
    City("Mumbai", "Maharashtra", 19.0760, 72.8777),
    City("Chennai", "Tamil Nadu", 13.0827, 80.2707),
    City("Kolkata", "West Bengal", 22.5726, 88.3639),
    City("Bangalore", "Karnataka", 12.9716, 77.5946),
    City("Hyderabad", "Telangana", 17.3850, 78.4867),
    City("Ahmedabad", "Gujarat", 23.0225, 72.5714),
    City("Pune", "Maharashtra", 18.5204, 73.8567),
    City("Jaipur", "Rajasthan", 26.9124, 75.7873),
    City("Lucknow", "Uttar Pradesh", 26.8467, 80.9462)
  ]

  /** Every roster entry names its city and state (the schemas require both). */
  predicate ValidCity(c: City) {
    c.name != "" && c.state != ""
  }

  predicate ValidRoster(roster: seq<City>) {
    forall i :: 0 <= i < |roster| ==> ValidCity(roster[i])
  }

  lemma CitiesValid()
    ensures ValidRoster(Cities) && |Cities| == 10
  {
  }

  /** The `main` block of an OpenWeather current-weather response. */
  datatype WeatherMain = WeatherMain(temp: real, feelsLike: real, tempMin: real, tempMax: real, humidity: real)

  /** The store writes of one city, in the order the loop body attempts them. */
  datatype Step = HeatwaveReadingStep | HeatwaveAlertStep | AirReadingStep | AirAlertStep

  function StepIndex(s: Step): nat {
    match s
    case HeatwaveReadingStep => 0
    case HeatwaveAlertStep => 1
    case AirReadingStep => 2
    case AirAlertStep => 3
  }

  /** What the outside world does while one city is processed: the weather result (None
      when `fetchWeatherData` returned null), the pollution result, the step that throws
      if it is attempted (a malformed response or a failed write), and the clock. */
  datatype CityInput = CityInput(weather: Option<WeatherMain>, pollution: Option<PollutionResponse>,
                                 fault: Option<Step>, now: int)

  const Hour: int := 60 * 60 * 1000

  /** The heatwave reading stored for a city with weather data. */
  function HeatwaveReadingFor(city: City, w: WeatherMain, now: int): HeatwaveReading {
    var hi := HeatIndex(w.temp, w.humidity);
    HeatwaveReading(city.name, city.state, Coordinates(city.lat, city.lng),
                    Temperature(w.temp, w.feelsLike, w.tempMin, w.tempMax), hi, w.humidity,
                    HeatwaveAlertLevel(w.temp, hi), [], [], [], "OpenWeather", now)
  }

  /** The heatwave alert raised for a city, if any; `fmt` is JavaScript's number-to-string. */
  function HeatwaveAlertFor(city: City, w: WeatherMain, now: int, fmt: real -> string): Option<Alert>
    requires ValidCity(city)
  {
    var hi := HeatIndex(w.temp, w.humidity);
    var level := HeatwaveAlertLevel(w.temp, hi);
    if level == Red || level == Orange then
      var red := level == Red;
      var draft := AlertDraft(
        Some(HeatwaveAlert), Some(if red then Emergency else Warning),
        "Heatwave " + (if red then "Emergency" else "Warning") + " - " + city.name,
        "Temperature: " + fmt(w.temp) + "°C, Heat Index: " + fmt(hi) + "°C",
        city.name, Some(city.state), Some(now), Some(now + 24 * Hour), None, Some(System),
        Metadata(Some(w.temp), None, None, None));
      var created := NewAlert(draft, now);
      assert created.Ok?;
      Some(created.value)
    else None
  }

  /** A heatwave alert is raised exactly at orange and red: an emergency at red, a warning at
      orange, active and valid for 24 hours from the reading. */
  lemma HeatwaveAlertRaised(city: City, w: WeatherMain, now: int, fmt: real -> string)
    requires ValidCity(city)
    ensures var level := HeatwaveAlertLevel(w.temp, HeatIndex(w.temp, w.humidity));
      var r := HeatwaveAlertFor(city, w, now, fmt);
      && (r.Some? <==> level == Red || level == Orange)
      && (r.Some? ==>
           && r.value.alertType == HeatwaveAlert
           && r.value.severity == (if level == Red then Emergency else Warning)
           && r.value.validFrom == now && r.value.validUntil == Some(now + 24 * Hour)
           && r.value.city == city.name && r.value.state == Some(city.state)
           && r.value.isActive && r.value.issuedBy == System
           && r.value.metadata.temperature == Some(w.temp))
  {
  }

  /** `category.replace('_', ' ')`: the first underscore becomes a space. */
  function ReplaceFirstUnderscore(s: string): string
    decreases |s|
  {
    if s == [] then [] else if s[0] == '_' then " " + s[1..] else [s[0]] + ReplaceFirstUnderscore(s[1..])
  }

  /** The air-quality reading stored for a city with a converted AQI. */
  function AirReadingFor(city: City, c: ConvertedAqi, now: int): AirQualityReading {
    AirQualityReading(city.name, city.state, Coordinates(city.lat, city.lng),
                      Aqi(c.value as real, c.category), c.pollutants, None, [], NoRecommendations, [],
                      Trend(None, None), "OpenWeather", now)
  }

  /** The air-quality alert raised for a city, if any. */
  function AirAlertFor(city: City, c: ConvertedAqi, now: int, fmt: real -> string): Option<Alert>
    requires ValidCity(city)
  {
    if c.category in {Poor, VeryPoor, Severe} then
      var draft := AlertDraft(
        Some(AirQualityAlert),
        Some(if c.category == Severe then Emergency else if c.category == VeryPoor then Critical else Warning),
        "Air Quality Alert - " + city.name,
        "AQI: " + fmt(c.value as real) + " (" + ReplaceFirstUnderscore(CategoryName(c.category)) + ")",
        city.name, Some(city.state), Some(now), Some(now + 12 * Hour), None, Some(System),
        Metadata(None, None, Some(c.value as real), None));
      var created := NewAlert(draft, now);
      assert created.Ok?;
      Some(created.value)
    else None
  }

  /** An air-quality alert is raised exactly for poor, very poor and severe: a warning, a
      critical alert and an emergency respectively, active and valid for 12 hours. */
  lemma AirAlertRaised(city: City, c: ConvertedAqi, now: int, fmt: real -> string)
    requires ValidCity(city)
    ensures var r := AirAlertFor(city, c, now, fmt);
      && (r.Some? <==> c.category in {Poor, VeryPoor, Severe})
      && (r.Some? ==>
           && r.value.alertType == AirQualityAlert
           && r.value.severity == (if c.category == Severe then Emergency
                                   else if c.category == VeryPoor then Critical else Warning)
           && r.value.validFrom == now && r.value.validUntil == Some(now + 12 * Hour)
           && r.value.city == city.name && r.value.isActive && r.value.issuedBy == System
           && r.value.metadata.aqi == Some(c.value as real))
  {
  }

  /** Whether the loop body reaches the write at `s` when nothing throws. */
  predicate Attempted(city: City, input: CityInput, s: Step, fmt: real -> string)
    requires ValidCity(city)
  {
    match s
    case HeatwaveReadingStep => input.weather.Some?
    case HeatwaveAlertStep => input.weather.Some? && HeatwaveAlertFor(city, input.weather.value, input.now, fmt).Some?
    case AirReadingStep => input.pollution.Some? && ConvertToIndianAqi(input.pollution.value).Some?
    case AirAlertStep =>
      input.pollution.Some? && ConvertToIndianAqi(input.pollution.value).Some?
      && AirAlertFor(city, ConvertToIndianAqi(input.pollution.value).value, input.now, fmt).Some?
  }

  /** The write at `s` is performed: it is attempted and no earlier-or-equal attempted step threw. */
  predicate Done(city: City, input: CityInput, s: Step, fmt: real -> string)
    requires ValidCity(city)
  {
    && Attempted(city, input, s, fmt)
    && !(input.fault.Some? && Attempted(city, input, input.fault.value, fmt)
         && StepIndex(input.fault.value) <= StepIndex(s))
  }

  /** The heatwave readings one city contributes. */
  function CityHeatwave(city: City, input: CityInput, fmt: real -> string): seq<HeatwaveReading>
    requires ValidCity(city)
  {
    if Done(city, input, HeatwaveReadingStep, fmt)
    then [HeatwaveReadingFor(city, input.weather.value, input.now)] else []
  }

  /** The air-quality readings one city contributes. */
  function CityAir(city: City, input: CityInput, fmt: real -> string): seq<AirQualityReading>
    requires ValidCity(city)
  {
    if Done(city, input, AirReadingStep, fmt)
    then [AirReadingFor(city, ConvertToIndianAqi(input.pollution.value).value, input.now)] else []
  }

  /** The heatwave alert one city contributes. */
  function CityHeatwaveAlerts(city: City, input: CityInput, fmt: real -> string): seq<Alert>
    requires ValidCity(city)
  {
    if Done(city, input, HeatwaveAlertStep, fmt)
    then [HeatwaveAlertFor(city, input.weather.value, input.now, fmt).value] else []
  }

  /** The air-quality alert one city contributes. */
  function CityAirAlerts(city: City, input: CityInput, fmt: real -> string): seq<Alert>
    requires ValidCity(city)
  {
    if Done(city, input, AirAlertStep, fmt)
    then [AirAlertFor(city, ConvertToIndianAqi(input.pollution.value).value, input.now, fmt).value] else []
  }

  /** The alerts one city contributes: its heatwave alert, then its air-quality alert. */
  function CityAlerts(city: City, input: CityInput, fmt: real -> string): seq<Alert>
    requires ValidCity(city)
  {
    CityHeatwaveAlerts(city, input, fmt) + CityAirAlerts(city, input, fmt)
  }

  /** The documents one city adds to the three collections, or a whole pass adds. */
  datatype Writes = Writes(heat: seq<HeatwaveReading>, air: seq<AirQualityReading>, alerts: seq<Alert>)

  function Then(a: Writes, b: Writes): Writes {
    Writes(a.heat + b.heat, a.air + b.air, a.alerts + b.alerts)
  }

  const NoWrites := Writes([], [], [])

  lemma ThenAssociative(a: Writes, b: Writes, c: Writes)
    ensures Then(Then(a, b), c) == Then(a, Then(b, c))
  {
    assert (a.heat + b.heat) + c.heat == a.heat + (b.heat + c.heat);
    assert (a.air + b.air) + c.air == a.air + (b.air + c.air);
    assert (a.alerts + b.alerts) + c.alerts == a.alerts + (b.alerts + c.alerts);
  }

  /** What the heatwave half of the loop body writes: the reading unless it throws, then the
      alert when there is one and it does not throw. */
  function HeatwavePart(city: City, input: CityInput, fmt: real -> string): Writes
    requires ValidCity(city)
  {
    if input.weather.None? || input.fault == Some(HeatwaveReadingStep) then NoWrites
    else
      var reading := HeatwaveReadingFor(city, input.weather.value, input.now);
      var alert := HeatwaveAlertFor(city, input.weather.value, input.now, fmt);
      if alert.None? || input.fault == Some(HeatwaveAlertStep) then Writes([reading], [], [])
      else Writes([reading], [], [alert.value])
  }

  /** Whether one of the heatwave half's writes throws, which skips the air-quality half. */
  predicate HeatwaveThrows(city: City, input: CityInput, fmt: real -> string)
    requires ValidCity(city)
  {
    input.weather.Some?
    && (input.fault == Some(HeatwaveReadingStep)
        || (input.fault == Some(HeatwaveAlertStep)
            && HeatwaveAlertFor(city, input.weather.value, input.now, fmt).Some?))
  }

  /** What the air-quality half writes: the reading for a converted AQI unless it throws,
      then the alert when there is one and it does not throw. */
  function AirPart(city: City, input: CityInput, fmt: real -> string): Writes
    requires ValidCity(city)
  {
    if input.pollution.None? then NoWrites
    else
      var converted := ConvertToIndianAqi(input.pollution.value);
      if converted.None? || input.fault == Some(AirReadingStep) then NoWrites
      else
        var reading := AirReadingFor(city, converted.value, input.now);
        var alert := AirAlertFor(city, converted.value, input.now, fmt);
        if alert.None? || input.fault == Some(AirAlertStep) then Writes([], [reading], [])
        else Writes([], [reading], [alert.value])
  }

  /** What the loop body writes for one city, following its control flow. */
  function Outcome(city: City, input: CityInput, fmt: real -> string): Writes
    requires ValidCity(city)
  {
    if HeatwaveThrows(city, input, fmt) then HeatwavePart(city, input, fmt)
    else Then(HeatwavePart(city, input, fmt), AirPart(city, input, fmt))
  }

  /** The control-flow outcome agrees with the step-by-step description: a write is made
      exactly when it is attempted and no attempted step at or before it throws. */
  lemma OutcomeHeatwave(city: City, input: CityInput, fmt: real -> string)
    requires ValidCity(city)
    ensures Outcome(city, input, fmt).heat == CityHeatwave(city, input, fmt)
  {
  }

  lemma OutcomeAir(city: City, input: CityInput, fmt: real -> string)
    requires ValidCity(city)
    ensures Outcome(city, input, fmt).air == CityAir(city, input, fmt)
  {
    if input.fault.Some? && StepIndex(input.fault.value) <= 1 {
      assert Attempted(city, input, input.fault.value, fmt) <==> HeatwaveThrows(city, input, fmt);
    } else {
      assert !HeatwaveThrows(city, input, fmt);
    }
  }

  lemma HeatwaveAlertsAgree(city: City, input: CityInput, fmt: real -> string)
    requires ValidCity(city)
    ensures HeatwavePart(city, input, fmt).alerts == CityHeatwaveAlerts(city, input, fmt)
  {
  }

  lemma AirAlertsAgree(city: City, input: CityInput, fmt: real -> string)
    requires ValidCity(city)
    ensures (if HeatwaveThrows(city, input, fmt) then [] else AirPart(city, input, fmt).alerts)
            == CityAirAlerts(city, input, fmt)
  {
    if input.fault.Some? && StepIndex(input.fault.value) <= 1 {
      assert Attempted(city, input, input.fault.value, fmt) <==> HeatwaveThrows(city, input, fmt);
    } else {
      assert !HeatwaveThrows(city, input, fmt);
    }
  }

  lemma OutcomeAlerts(city: City, input: CityInput, fmt: real -> string)
    requires ValidCity(city)
    ensures Outcome(city, input, fmt).alerts == CityAlerts(city, input, fmt)
  {
    HeatwaveAlertsAgree(city, input, fmt);
    AirAlertsAgree(city, input, fmt);
  }

  /** The writes of several cities, one after the other. */
  function Concat(ws: seq<Writes>): Writes
    decreases |ws|
  {
    if ws == [] then NoWrites else Then(Concat(ws[..|ws| - 1]), ws[|ws| - 1])
  }

  lemma ThenNoWrites(a: Writes)
    ensures Then(a, NoWrites) == a && Then(NoWrites, a) == a
  {
    assert a.heat + [] == a.heat && a.air + [] == a.air && a.alerts + [] == a.alerts;
    assert [] + a.heat == a.heat && [] + a.air == a.air && [] + a.alerts == a.alerts;
  }

  /** One more city extends the concatenation by that city's writes. */
  lemma ConcatStep(ws: seq<Writes>, i: nat)
    requires i < |ws|
    ensures Concat(ws[..i + 1]) == Then(Concat(ws[..i]), ws[i])
  {
    assert ws[..i + 1][..i] == ws[..i];
  }

  /** Concatenation distributes over appending the city lists. */
  lemma {:induction false} ConcatAppend(a: seq<Writes>, b: seq<Writes>)
    ensures Concat(a + b) == Then(Concat(a), Concat(b))
    decreases |b|
  {
    if b == [] {
      assert a + b == a;
      ThenNoWrites(Concat(a));
    } else {
      var n := |b| - 1;
      ConcatAppend(a, b[..n]);
      assert (a + b)[..|a + b| - 1] == a + b[..n];
      assert (a + b)[|a + b| - 1] == b[n];
      ThenAssociative(Concat(a), Concat(b[..n]), b[n]);
    }
  }

  /** The outcome of every city of the roster, in roster order. */
  function Outcomes(roster: seq<City>, inputs: seq<CityInput>, fmt: real -> string): (r: seq<Writes>)
    requires |inputs| == |roster| && ValidRoster(roster)
    ensures |r| == |roster|
    ensures forall k :: 0 <= k < |roster| ==> r[k] == Outcome(roster[k], inputs[k], fmt)
  {
    seq(|roster|, k requires 0 <= k < |roster| => Outcome(roster[k], inputs[k], fmt))
  }

  /** What a pass over `roster` writes, city by city in roster order. */
  function Run(roster: seq<City>, inputs: seq<CityInput>, fmt: real -> string): Writes
    requires |inputs| == |roster| && ValidRoster(roster)
  {
    Concat(Outcomes(roster, inputs, fmt))
  }

  /** Fault isolation: whatever happens at city `k`, the cities before it and after it write
      exactly what they would write on their own. */
  lemma RunAround(roster: seq<City>, inputs: seq<CityInput>, fmt: real -> string, k: nat)
    requires |inputs| == |roster| && ValidRoster(roster) && k < |roster|
    ensures ValidRoster(roster[..k]) && ValidRoster(roster[k + 1..])
    ensures Run(roster, inputs, fmt)
            == Then(Then(Run(roster[..k], inputs[..k], fmt), Outcome(roster[k], inputs[k], fmt)),
                    Run(roster[k + 1..], inputs[k + 1..], fmt))
  {
    assert ValidRoster(roster[..k]) && ValidRoster(roster[k + 1..]);
    var os := Outcomes(roster, inputs, fmt);
    var before := Outcomes(roster[..k], inputs[..k], fmt);
    var after := Outcomes(roster[k + 1..], inputs[k + 1..], fmt);
    assert os[..k] == before;
    assert os[k + 1..] == after;
    assert os == os[..k + 1] + after;
    ConcatAppend(os[..k + 1], after);
    ConcatStep(os, k);
  }

  /** When the heatwave reading's write throws, the city writes nothing at all. */
  lemma FirstWriteThrows(city: City, input: CityInput, fmt: real -> string)
    requires ValidCity(city) && input.weather.Some? && input.fault == Some(HeatwaveReadingStep)
    ensures Outcome(city, input, fmt) == NoWrites
  {
  }

  /** A city without weather data writes no heatwave reading and no heatwave alert, and its
      air-quality reading is still written whenever the AQI converts and that write does not
      throw. */
  lemma NoWeatherSkipsOnlyHeatwave(city: City, input: CityInput, fmt: real -> string)
    requires ValidCity(city) && input.weather.None?
    ensures Outcome(city, input, fmt).heat == []
    ensures Outcome(city, input, fmt).air != []
            <==> input.pollution.Some? && ConvertToIndianAqi(input.pollution.value).Some?
                 && input.fault != Some(AirReadingStep)
  {
    ThenNoWrites(AirPart(city, input, fmt));
  }

  /** Weather data, when its write does not throw, yields exactly one heatwave reading. */
  lemma WeatherYieldsOneReading(city: City, input: CityInput, fmt: real -> string)
    requires ValidCity(city) && input.weather.Some? && input.fault != Some(HeatwaveReadingStep)
    ensures Outcome(city, input, fmt).heat == [HeatwaveReadingFor(city, input.weather.value, input.now)]
  {
  }

  /** Three cities, the second of which throws on its first write: the first and the third
      city write exactly what they would write on their own. */
  lemma SecondOfThreeThrows(roster: seq<City>, inputs: seq<CityInput>, fmt: real -> string)
    requires |roster| == 3 && |inputs| == 3 && ValidRoster(roster)
    requires inputs[1].weather.Some? && inputs[1].fault == Some(HeatwaveReadingStep)
    ensures Run(roster, inputs, fmt)
            == Then(Outcome(roster[0], inputs[0], fmt), Outcome(roster[2], inputs[2], fmt))
  {
    var os := Outcomes(roster, inputs, fmt);
    var first, second, third := os[0], os[1], os[2];
    assert second == NoWrites by {
      FirstWriteThrows(roster[1], inputs[1], fmt);
    }
    ThenNoWrites(first);
    assert Concat(os[..1]) == first by {
      ConcatStep(os, 0);
      assert os[..0] == [];
    }
    assert Concat(os[..2]) == first by {
      ConcatStep(os, 1);
    }
    ConcatStep(os, 2);
    assert os[..3] == os;
  }

  /** Delhi at 46 degrees and 30% humidity, with no pollution data: one red heatwave reading
      and one emergency heatwave alert valid for 24 hours, and nothing else. */
  lemma DelhiAtFortySix(w: WeatherMain, now: int, fmt: real -> string)
    requires w.temp == 46.0 && w.humidity == 30.0
    ensures var o := Outcome(Cities[0], CityInput(Some(w), None, None, now), fmt);
      && |o.heat| == 1 && o.heat[0].alertLevel == Red && o.heat[0].city == "Delhi"
      && |o.alerts| == 1 && o.alerts[0].severity == Emergency && o.alerts[0].alertType == HeatwaveAlert
      && o.alerts[0].validUntil == Some(now + 24 * Hour) && o.air == []
  {
    var hi := HeatIndex(w.temp, w.humidity);
    AlertLevelBands(w.temp, hi);
    HeatwaveAlertRaised(Cities[0], w, now, fmt);
  }

  /** The heatwave half of the loop body; `thrown` reports that one of its writes threw. */
  method ProcessHeatwave(city: City, input: CityInput, fmt: real -> string,
                         heat: Collection<HeatwaveReading>, alerts: Collection<Alert>)
    returns (thrown: bool)
    requires ValidCity(city)
    modifies heat, alerts
    ensures heat.docs == old(heat.docs) + HeatwavePart(city, input, fmt).heat
    ensures alerts.docs == old(alerts.docs) + HeatwavePart(city, input, fmt).alerts
    ensures thrown == HeatwaveThrows(city, input, fmt)
  {
    thrown := false;
    if input.weather.Some? {
      var w := input.weather.value;
      if input.fault == Some(HeatwaveReadingStep) { return true; }
      var _ := heat.Create(HeatwaveReadingFor(city, w, input.now));
      var alert := HeatwaveAlertFor(city, w, input.now, fmt);
      if alert.Some? {
        if input.fault == Some(HeatwaveAlertStep) { return true; }
        var _ := alerts.Create(alert.value);
      }
    }
  }

  /** The air-quality half of the loop body. */
  method ProcessAir(city: City, input: CityInput, fmt: real -> string,
                    air: Collection<AirQualityReading>, alerts: Collection<Alert>)
    requires ValidCity(city)
    modifies air, alerts
    ensures air.docs == old(air.docs) + AirPart(city, input, fmt).air
    ensures alerts.docs == old(alerts.docs) + AirPart(city, input, fmt).alerts
  {
    if input.pollution.Some? {
      var converted := ConvertToIndianAqi(input.pollution.value);
      if converted.Some? {
        if input.fault == Some(AirReadingStep) { return; }
        var _ := air.Create(AirReadingFor(city, converted.value, input.now));
        var alert := AirAlertFor(city, converted.value, input.now, fmt);
        if alert.Some? {
          if input.fault == Some(AirAlertStep) { return; }
          var _ := alerts.Create(alert.value);
        }
      }
    }
  }

  /** The body of the `for` loop for one city. A thrown step ends the city early (the
      `try` block); what was already stored stays stored. */
  method ProcessCity(city: City, input: CityInput, fmt: real -> string,
                     heat: Collection<HeatwaveReading>, air: Collection<AirQualityReading>,
                     alerts: Collection<Alert>)
    requires ValidCity(city)
    modifies heat, air, alerts
    ensures Writes(heat.docs, air.docs, alerts.docs)
            == Then(old(Writes(heat.docs, air.docs, alerts.docs)), Outcome(city, input, fmt))
  {
    ghost var before := Writes(heat.docs, air.docs, alerts.docs);
    var thrown := ProcessHeatwave(city, input, fmt, heat, alerts);
    ghost var heatPart := HeatwavePart(city, input, fmt);
    if !thrown {
      ProcessAir(city, input, fmt, air, alerts);
      ghost var airPart := AirPart(city, input, fmt);
      ThenAssociative(before, heatPart, airPart);
    }
  }

  /** `fetchExternalData`: every city of the roster is processed in order, each on its own. */
  method FetchExternalData(roster: seq<City>, inputs: seq<CityInput>, fmt: real -> string,
                           heat: Collection<HeatwaveReading>, air: Collection<AirQualityReading>,
                           alerts: Collection<Alert>)
    requires |inputs| == |roster| && ValidRoster(roster)
    modifies heat, air, alerts
    ensures heat.docs == old(heat.docs) + Run(roster, inputs, fmt).heat
    ensures air.docs == old(air.docs) + Run(roster, inputs, fmt).air
    ensures alerts.docs == old(alerts.docs) + Run(roster, inputs, fmt).alerts
  {
    ghost var base := Writes(heat.docs, air.docs, alerts.docs);
    ghost var os := Outcomes(roster, inputs, fmt);
    var i := 0;
    while i < |roster|
      invariant 0 <= i <= |roster|
      invariant Writes(heat.docs, air.docs, alerts.docs) == Then(base, Concat(os[..i]))
    {
      ProcessCity(roster[i], inputs[i], fmt, heat, air, alerts);
      ConcatStep(os, i);
      ThenAssociative(base, Concat(os[..i]), os[i]);
      i := i + 1;
    }
    assert os[..i] == os;
  }
}
