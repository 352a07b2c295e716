/** The WaterQuality model and the water-quality routes: the simulated-data generator, the
    generate-if-absent `/current` lookup, the latest-record lookups, and the user pollution
    reports pushed onto a record. */
module WaterQuality {
  import opened Wrappers
  import opened Text
  import opened Store
  import opened Converters

  // ---------------------------------------------------------------------------------
  // The stored document
  // ---------------------------------------------------------------------------------

  datatype WaterBodyType = River | Lake | Pond | Groundwater | TapWater | Reservoir

  function BodyTypeName(t: WaterBodyType): string {
    match t
    case River => "river"
    case Lake => "lake"
    case Pond => "pond"
    case Groundwater => "groundwater"
    case TapWater => "tap_water"
    case Reservoir => "reservoir"
  }

  /** `waterBody`: both fields are optional in the schema. */
  datatype WaterBody = WaterBody(name: Option<string>, bodyType: Option<WaterBodyType>)

  datatype WqiCategory = Excellent | Good | Fair | Poor | VeryPoor

  /** One measured parameter and whether it is within its drinking-water threshold; `unit`
      is the schema default, and `ph` has none. */
  datatype Parameter = Parameter(value: real, unit: Option<string>, safe: bool)

  datatype Parameters = Parameters(ph: Parameter, dissolvedOxygen: Parameter, bod: Parameter,
                                   turbidity: Parameter, totalColiform: Parameter, nitrate: Parameter,
                                   fluoride: Parameter, iron: Parameter)

  datatype TreatmentFacility = TreatmentFacility(name: string, address: string, phone: string,
                                                 coordinates: Coordinates)

  /** An entry of `userReports`; `status` is stored as given, since `$set` runs no validator. */
  datatype UserReport = UserReport(id: nat, reportedBy: nat, issue: string, description: string,
                                   imageUrl: Option<string>, coordinates: Option<Coordinates>,
                                   reportedAt: int, status: string)

  datatype WaterRecord = WaterRecord(
    city: string,
    state: string,
    waterBody: WaterBody,
    coordinates: Coordinates,
    wqiValue: real,
    wqiCategory: WqiCategory,
    parameters: Parameters,
    isSafeForDrinking: bool,
    isSafeForBathing: bool,
    safetyTips: seq<string>,
    treatmentFacilities: seq<TreatmentFacility>,
    userReports: seq<UserReport>,
    source: string,
    recordedAt: int)

  function RecordedAt(d: WaterRecord): int {
    d.recordedAt
  }

  /** Mongoose's `required` validators on the string fields `city` and `state`: an empty string
      fails them. (The required coordinates are numbers and always present here.) */
  predicate SchemaValid(d: WaterRecord) {
    d.city != "" && d.state != ""
  }

  // ---------------------------------------------------------------------------------
  // The simulated-data generator
  // ---------------------------------------------------------------------------------

  /** The city hash: the sum of the character codes of the city name. */
  function CityHash(city: string): (r: nat)
    ensures city == [] ==> r == 0
    decreases |city|
  {
    if city == [] then 0 else city[0] as nat + CityHash(city[1..])
  }

  lemma {:induction false} CityHashAppend(a: string, b: string)
    ensures CityHash(a + b) == CityHash(a) + CityHash(b)
    decreases |a|
  {
    if a != [] {
      assert (a + b)[1..] == a[1..] + b;
      CityHashAppend(a[1..], b);
    } else {
      assert a + b == b;
    }
  }

  /** The hash ignores the order of the parts of the name: "ab" + "cd" and "cd" + "ab" get the
      same hash, hence the same simulated data. */
  lemma SwappedPartsSameHash(a: string, b: string)
    ensures CityHash(a + b) == CityHash(b + a)
  {
    CityHashAppend(a, b);
    CityHashAppend(b, a);
  }

  /** `rand(min, max, seed)`: `frac(k)` stands for the fractional part of `Math.sin(k) * 10000`. */
  function Rand(lo: real, hi: real, frac: int -> real, hash: int, seed: int): real {
    lo + frac(hash + seed) * (hi - lo)
  }

  /** `Math.round(x * 10) / 10` and `Math.round(x * 100) / 100`. */
  function OneDecimal(x: real): real {
    Round(x * 10.0) as real / 10.0
  }

  function TwoDecimals(x: real): real {
    Round(x * 100.0) as real / 100.0
  }

  datatype Readings = Readings(ph: real, dissolvedOxygen: real, bod: real, turbidity: real,
                               totalColiform: real, nitrate: real, fluoride: real, iron: real)

  /** The eight simulated measurements of a city, seeds 1 to 8. */
  function SimulatedReadings(city: string, frac: int -> real): Readings {
    var h := CityHash(city);
    Readings(OneDecimal(Rand(6.8, 8.2, frac, h, 1)), OneDecimal(Rand(5.0, 8.0, frac, h, 2)),
             OneDecimal(Rand(1.0, 4.0, frac, h, 3)), OneDecimal(Rand(1.0, 8.0, frac, h, 4)),
             Round(Rand(10.0, 80.0, frac, h, 5)) as real, OneDecimal(Rand(5.0, 40.0, frac, h, 6)),
             OneDecimal(Rand(0.3, 1.2, frac, h, 7)), TwoDecimals(Rand(0.1, 0.4, frac, h, 8)))
  }

  /** One WQI term: whether its parameter is within the threshold, and the weight it adds
      when it is (`low`) and when it is not (`high`). */
  datatype Term = Term(safe: bool, low: int, high: int)

  function Weight(t: Term): int {
    if t.safe then t.low else t.high
  }

  /** The eight terms, in the order the index adds them. */
  function Terms(r: Readings): (ts: seq<Term>)
    ensures |ts| == 8
  {
    [Term(6.5 <= r.ph <= 8.5, 10, 20), Term(r.dissolvedOxygen >= 6.0, 10, 15),
     Term(r.bod <= 3.0, 10, 20), Term(r.turbidity <= 5.0, 10, 15),
     Term(r.totalColiform <= 50.0, 10, 20), Term(r.nitrate <= 45.0, 5, 15),
     Term(r.fluoride <= 1.5, 5, 10), Term(r.iron <= 0.3, 5, 10)]
  }

  function SumWeights(ts: seq<Term>): int
    decreases |ts|
  {
    if ts == [] then 0 else Weight(ts[0]) + SumWeights(ts[1..])
  }

  function SumLows(ts: seq<Term>): int
    decreases |ts|
  {
    if ts == [] then 0 else ts[0].low + SumLows(ts[1..])
  }

  function SumHighs(ts: seq<Term>): int
    decreases |ts|
  {
    if ts == [] then 0 else ts[0].high + SumHighs(ts[1..])
  }

  /** A sum of terms lies between the sum of their low weights and the sum of their high
      weights, reaching the low sum exactly when every term is safe. */
  lemma {:induction false} SumWeightsBetween(ts: seq<Term>)
    requires forall k :: 0 <= k < |ts| ==> ts[k].low < ts[k].high
    ensures SumLows(ts) <= SumWeights(ts) <= SumHighs(ts)
    ensures SumWeights(ts) == SumLows(ts) <==> forall k :: 0 <= k < |ts| ==> ts[k].safe
    decreases |ts|
  {
    if ts != [] {
      assert forall k :: 1 <= k < |ts| ==> ts[k] == ts[1..][k - 1];
      SumWeightsBetween(ts[1..]);
      if SumWeights(ts) == SumLows(ts) {
        forall k | 0 <= k < |ts| ensures ts[k].safe {
          if k > 0 {
            assert ts[k] == ts[1..][k - 1];
          }
        }
      }
    }
  }

  /** A sum over eight terms, written out. */
  lemma SumOfEight(ts: seq<Term>)
    requires |ts| == 8
    ensures SumWeights(ts) == Weight(ts[0]) + Weight(ts[1]) + Weight(ts[2]) + Weight(ts[3])
                              + Weight(ts[4]) + Weight(ts[5]) + Weight(ts[6]) + Weight(ts[7])
    ensures SumLows(ts) == ts[0].low + ts[1].low + ts[2].low + ts[3].low
                           + ts[4].low + ts[5].low + ts[6].low + ts[7].low
    ensures SumHighs(ts) == ts[0].high + ts[1].high + ts[2].high + ts[3].high
                            + ts[4].high + ts[5].high + ts[6].high + ts[7].high
  {
    SumsSplit(ts, 0);
    SumsSplit(ts, 1);
    SumsSplit(ts, 2);
    SumsSplit(ts, 3);
    SumsSplit(ts, 4);
    SumsSplit(ts, 5);
    SumsSplit(ts, 6);
    SumsSplit(ts, 7);
    assert ts[0..] == ts;
  }

  lemma SumsSplit(ts: seq<Term>, k: nat)
    requires k < |ts|
    ensures SumWeights(ts[k..]) == Weight(ts[k]) + SumWeights(ts[k + 1..])
    ensures SumLows(ts[k..]) == ts[k].low + SumLows(ts[k + 1..])
    ensures SumHighs(ts[k..]) == ts[k].high + SumHighs(ts[k + 1..])
  {
    assert ts[k..][1..] == ts[k + 1..];
  }

  /** The simplified water-quality index. */
  function Wqi(r: Readings): int {
    SumWeights(Terms(r))
  }

  /** Whatever the readings, the index is between 65 (all terms safe) and 125 (none). */
  lemma WqiRange(r: Readings)
    ensures 65 <= Wqi(r) <= 125
    ensures Wqi(r) == 65 <==> forall k :: 0 <= k < 8 ==> Terms(r)[k].safe
  {
    SumWeightsBetween(Terms(r));
    SumOfEight(Terms(r));
  }

  /** The category: poor above 75, fair above 50, good above 25, otherwise excellent. */
  function WqiCategoryOf(v: int): WqiCategory {
    if v > 75 then Poor else if v > 50 then Fair else if v > 25 then Good else Excellent
  }

  /** The four bands, each an exact interval; very_poor is never produced. */
  lemma WqiCategoryBands(v: int)
    ensures WqiCategoryOf(v) != VeryPoor
    ensures WqiCategoryOf(v) == Poor <==> v > 75
    ensures WqiCategoryOf(v) == Fair <==> 50 < v <= 75
    ensures WqiCategoryOf(v) == Good <==> 25 < v <= 50
    ensures WqiCategoryOf(v) == Excellent <==> v <= 25
  {
  }

  const SafeTips: seq<string> := ["Water is safe for drinking after basic filtration",
                                  "Use RO purifier for best results", "Store in clean containers"]
  const UnsafeTips: seq<string> := ["Boil water before drinking", "Use RO/UV purifier",
                                    "Avoid direct consumption",
                                    "Report to local authorities if issues persist"]

  /** The stored parameters; each `safe` flag is the condition of the matching WQI term. */
  function ParametersOf(r: Readings): Parameters {
    var ts := Terms(r);
    Parameters(Parameter(r.ph, None, ts[0].safe), Parameter(r.dissolvedOxygen, Some("mg/L"), ts[1].safe),
               Parameter(r.bod, Some("mg/L"), ts[2].safe), Parameter(r.turbidity, Some("NTU"), ts[3].safe),
               Parameter(r.totalColiform, Some("MPN/100mL"), ts[4].safe), Parameter(r.nitrate, Some("mg/L"), ts[5].safe),
               Parameter(r.fluoride, Some("mg/L"), ts[6].safe), Parameter(r.iron, Some("mg/L"), ts[7].safe))
  }

  /** `lat || 0`: a missing, unparsable or zero coordinate becomes 0. */
  function OrZero(x: Option<real>): real {
    if x.Some? then x.value else 0.0
  }

  /** The record `generateWaterQualityData(city, lat, lng)` returns, at time `now`. */
  function Generated(city: string, lat: Option<real>, lng: Option<real>, frac: int -> real, now: int): WaterRecord {
    FromReadings(city, lat, lng, SimulatedReadings(city, frac), now)
  }

  /** The generated record for given readings. */
  function FromReadings(city: string, lat: Option<real>, lng: Option<real>, r: Readings, now: int): WaterRecord {
    var v := Wqi(r);
    WaterRecord(city, "", WaterBody(Some("Municipal Tap Water"), Some(TapWater)),
                Coordinates(OrZero(lat), OrZero(lng)), v as real, WqiCategoryOf(v), ParametersOf(r),
                v <= 50, true, if v <= 50 then SafeTips else UnsafeTips, [], [], "Simulated Data", now)
  }

  /** `generateWaterQualityData`: the eight measurements drawn from the city hash, then the
      record scored from them. */
  method GenerateWaterQualityData(city: string, lat: Option<real>, lng: Option<real>, frac: int -> real, now: int)
    returns (rec: WaterRecord)
    ensures rec == Generated(city, lat, lng, frac, now)
  {
    var hash := CityHash(city);
    var ph := OneDecimal(Rand(6.8, 8.2, frac, hash, 1));
    var dissolvedOxygen := OneDecimal(Rand(5.0, 8.0, frac, hash, 2));
    var bod := OneDecimal(Rand(1.0, 4.0, frac, hash, 3));
    var turbidity := OneDecimal(Rand(1.0, 8.0, frac, hash, 4));
    var totalColiform := Round(Rand(10.0, 80.0, frac, hash, 5)) as real;
    var nitrate := OneDecimal(Rand(5.0, 40.0, frac, hash, 6));
    var fluoride := OneDecimal(Rand(0.3, 1.2, frac, hash, 7));
    var iron := TwoDecimals(Rand(0.1, 0.4, frac, hash, 8));
    var r := Readings(ph, dissolvedOxygen, bod, turbidity, totalColiform, nitrate, fluoride, iron);
    rec := ScoreReadings(city, lat, lng, r, now);
  }

  /** `let wqiValue = 0; wqiValue += ...`: the index accumulated term by term. */
  method AccumulateWqi(r: Readings) returns (wqiValue: int)
    ensures wqiValue == Wqi(r)
  {
    var ph, dissolvedOxygen, bod, turbidity := r.ph, r.dissolvedOxygen, r.bod, r.turbidity;
    var totalColiform, nitrate, fluoride, iron := r.totalColiform, r.nitrate, r.fluoride, r.iron;
    wqiValue := 0;
    wqiValue := wqiValue + (if 6.5 <= ph <= 8.5 then 10 else 20);
    wqiValue := wqiValue + (if dissolvedOxygen >= 6.0 then 10 else 15);
    wqiValue := wqiValue + (if bod <= 3.0 then 10 else 20);
    wqiValue := wqiValue + (if turbidity <= 5.0 then 10 else 15);
    wqiValue := wqiValue + (if totalColiform <= 50.0 then 10 else 20);
    wqiValue := wqiValue + (if nitrate <= 45.0 then 5 else 15);
    wqiValue := wqiValue + (if fluoride <= 1.5 then 5 else 10);
    wqiValue := wqiValue + (if iron <= 0.3 then 5 else 10);
    WqiWrittenOut(r);
  }

  /** The scoring half of `generateWaterQualityData`: the index, then the category
      reassigned down the chain, the safety flag and the tips. */
  method ScoreReadings(city: string, lat: Option<real>, lng: Option<real>, r: Readings, now: int)
    returns (rec: WaterRecord)
    ensures rec == FromReadings(city, lat, lng, r, now)
  {
    var wqiValue := AccumulateWqi(r);
    var category := Excellent;
    if wqiValue > 75 {
      category := Poor;
    } else if wqiValue > 50 {
      category := Fair;
    } else if wqiValue > 25 {
      category := Good;
    }
    var isSafe := wqiValue <= 50;

    rec := WaterRecord(city, "", WaterBody(Some("Municipal Tap Water"), Some(TapWater)),
                       Coordinates(OrZero(lat), OrZero(lng)), wqiValue as real, category,
                       ParametersOf(r), isSafe, true, if isSafe then SafeTips else UnsafeTips,
                       [], [], "Simulated Data", now);
  }

  /** A generated record is never safe for drinking: its index is at least 65, so it is
      categorised fair or poor, and it carries the four cautionary tips; bathing is always
      reported safe. Each parameter's `safe` flag is the condition that chose that term's
      low weight. */
  lemma GeneratedNeverSafe(city: string, lat: Option<real>, lng: Option<real>, frac: int -> real, now: int)
    ensures var g := Generated(city, lat, lng, frac, now);
      && 65.0 <= g.wqiValue <= 125.0
      && (g.wqiCategory == Fair || g.wqiCategory == Poor)
      && !g.isSafeForDrinking && g.isSafeForBathing
      && g.safetyTips == UnsafeTips && |g.safetyTips| == 4
  {
    WqiRange(SimulatedReadings(city, frac));
  }

  /** The index with its eight terms written out, in the order they are added. */
  lemma WqiWrittenOut(r: Readings)
    ensures Wqi(r) == (if 6.5 <= r.ph <= 8.5 then 10 else 20) + (if r.dissolvedOxygen >= 6.0 then 10 else 15)
                      + (if r.bod <= 3.0 then 10 else 20) + (if r.turbidity <= 5.0 then 10 else 15)
                      + (if r.totalColiform <= 50.0 then 10 else 20) + (if r.nitrate <= 45.0 then 5 else 15)
                      + (if r.fluoride <= 1.5 then 5 else 10) + (if r.iron <= 0.3 then 5 else 10)
  {
    SumOfEight(Terms(r));
  }

  /** The `safe` flags agree with the terms, so the index is exactly the sum of the weights
      the flags select. */
  lemma SafeFlagsChooseWeights(r: Readings)
    ensures var p := ParametersOf(r);
      Wqi(r) == (if p.ph.safe then 10 else 20) + (if p.dissolvedOxygen.safe then 10 else 15)
              + (if p.bod.safe then 10 else 20) + (if p.turbidity.safe then 10 else 15)
              + (if p.totalColiform.safe then 10 else 20) + (if p.nitrate.safe then 5 else 15)
              + (if p.fluoride.safe then 5 else 10) + (if p.iron.safe then 5 else 10)
  {
    SumOfEight(Terms(r));
  }

  /** With every `frac` value in [0, 1) (a fractional part), pH, nitrate and fluoride are
      always within their thresholds, so the index is at most 100. */
  lemma SimulatedWqiAtMost100(city: string, frac: int -> real)
    requires forall k :: 0.0 <= frac(k) < 1.0
    ensures var r := SimulatedReadings(city, frac);
      && 6.8 <= r.ph <= 8.2 && r.nitrate <= 40.0 && r.fluoride <= 1.2
      && ParametersOf(r).ph.safe && ParametersOf(r).nitrate.safe && ParametersOf(r).fluoride.safe
      && 65 <= Wqi(r) <= 100
  {
    var h := CityHash(city);
    var r := SimulatedReadings(city, frac);
    OneDecimalBounds(Rand(6.8, 8.2, frac, h, 1), 68, 82);
    OneDecimalBounds(Rand(5.0, 40.0, frac, h, 6), 50, 400);
    OneDecimalBounds(Rand(0.3, 1.2, frac, h, 7), 3, 12);
    var ts := Terms(r);
    assert ts[0].safe && ts[5].safe && ts[6].safe;
    SafeFlagsChooseWeights(r);
    WqiRange(r);
  }

  /** Rounding to one decimal keeps a value that lies in [lo/10, hi/10) within [lo/10, hi/10]. */
  lemma OneDecimalBounds(x: real, lo: int, hi: int)
    requires lo as real / 10.0 <= x < hi as real / 10.0
    ensures lo as real / 10.0 <= OneDecimal(x) <= hi as real / 10.0
  {
    var n := Round(x * 10.0);
    assert lo as real <= x * 10.0 < hi as real;
    assert lo <= n <= hi;
  }

  // ---------------------------------------------------------------------------------
  // GET /current/:city
  // ---------------------------------------------------------------------------------

  /** `{ city: new RegExp(city, 'i') }`, with `'waterBody.type' = waterBodyType` when given. */
  predicate CurrentQuery(d: WaterRecord, city: string, waterBodyType: Option<string>) {
    && CityMatches(city, d.city)
    && (Given(waterBodyType) ==> d.waterBody.bodyType.Some? && BodyTypeName(d.waterBody.bodyType.value) == waterBodyType.value)
  }

  function CurrentMatches(docs: seq<WaterRecord>, city: string, waterBodyType: Option<string>): seq<WaterRecord> {
    Filter(docs, (d: WaterRecord) => CurrentQuery(d, city, waterBodyType))
  }

  /** `WaterQuality.create(doc)`: the schema's validators run first; a rejected document is
      not stored and the handler answers 500. */
  method CreateValid(water: Collection<WaterRecord>, d: WaterRecord) returns (r: Result<WaterRecord>)
    modifies water
    ensures SchemaValid(d) ==> r == Ok(d) && water.docs == old(water.docs) + [d]
    ensures !SchemaValid(d) ==> r == Err(500) && water.docs == old(water.docs)
  {
    if SchemaValid(d) {
      var _ := water.Create(d);
      r := Ok(d);
    } else {
      r := Err(500);
    }
  }

  /** `GET /current/:city` as written: the 10 newest matching records; with none, a generated
      record is created, which the schema's validators reject (500) since its `state` is empty. */
  method CurrentWaterQuality(water: Collection<WaterRecord>, city: string, waterBodyType: Option<string>,
                             lat: Option<real>, lng: Option<real>, frac: int -> real, now: int)
    returns (r: Result<seq<WaterRecord>>)
    modifies water
    ensures var m := CurrentMatches(old(water.docs), city, waterBodyType);
      m != [] ==> r == Ok(Take(NewestFirst(m, RecordedAt), 10)) && water.docs == old(water.docs)
    ensures CurrentMatches(old(water.docs), city, waterBodyType) == [] ==> r == Err(500) && water.docs == old(water.docs)
  {
    var m := CurrentMatches(water.docs, city, waterBodyType);
    if m != [] {
      r := Ok(Take(NewestFirst(m, RecordedAt), 10));
    } else {
      var g := GenerateWaterQualityData(city, lat, lng, frac, now);
      var saved := CreateValid(water, g);
      r := if saved.Ok? then Ok([g]) else Err(saved.status);
    }
  }

  /** As written, the generated record always fails validation, so `/current` for a city with
      no stored record answers 500 and stores nothing. */
  lemma GeneratedRejected(city: string, lat: Option<real>, lng: Option<real>, frac: int -> real, now: int)
    ensures !SchemaValid(Generated(city, lat, lng, frac, now))
  {
  }

  /** Corrected `/current`: the generated record is saved and returned, as the handler's
      comment says is intended. */
  method CurrentWaterQualityIntended(water: Collection<WaterRecord>, city: string, waterBodyType: Option<string>,
                                     lat: Option<real>, lng: Option<real>, frac: int -> real, now: int)
    returns (r: seq<WaterRecord>)
    modifies water
    ensures var m := CurrentMatches(old(water.docs), city, waterBodyType);
      m != [] ==> r == Take(NewestFirst(m, RecordedAt), 10) && water.docs == old(water.docs)
    ensures var m := CurrentMatches(old(water.docs), city, waterBodyType);
      var g := Generated(city, lat, lng, frac, now);
      m == [] ==> r == [g] && water.docs == old(water.docs) + [g]
  {
    var m := CurrentMatches(water.docs, city, waterBodyType);
    if m != [] {
      r := Take(NewestFirst(m, RecordedAt), 10);
    } else {
      var g := GenerateWaterQualityData(city, lat, lng, frac, now);
      var _ := water.Create(g);
      r := [g];
    }
  }

  /** With the corrected handler a record is generated at most once: after the generated
      record is stored, the same request (with no water-body type, or `tap_water`) finds
      exactly that record. */
  lemma GeneratedIsFoundNext(docs: seq<WaterRecord>, city: string, waterBodyType: Option<string>,
                             lat: Option<real>, lng: Option<real>, frac: int -> real, now: int)
    requires CurrentMatches(docs, city, waterBodyType) == []
    requires !Given(waterBodyType) || waterBodyType.value == "tap_water"
    ensures var g := Generated(city, lat, lng, frac, now);
      CurrentMatches(docs + [g], city, waterBodyType) == [g]
  {
    var g := Generated(city, lat, lng, frac, now);
    var q := (d: WaterRecord) => CurrentQuery(d, city, waterBodyType);
    FilterAppend(docs, [g], q);
    ContainsTrivial(Lower(city));
    assert q(g);
    assert Filter([g], q) == [g] by {
      assert [g][1..] == [];
    }
  }

  // ---------------------------------------------------------------------------------
  // Latest-record lookups
  // ---------------------------------------------------------------------------------

  predicate TapWaterQuery(d: WaterRecord, city: string) {
    CityMatches(city, d.city) && d.waterBody.bodyType == Some(TapWater)
  }

  /** `GET /tap-water/:city`: the newest tap-water record of the city, or 404 when no record
      of the city is tap water. */
  function TapWaterRecord(docs: seq<WaterRecord>, city: string): (r: Result<WaterRecord>)
    ensures r.Err? <==> forall d :: d in docs ==> !TapWaterQuery(d, city)
    ensures r.Err? ==> r.status == 404
    ensures r.Ok? ==> r.value in docs && TapWaterQuery(r.value, city)
                      && forall d :: d in docs && TapWaterQuery(d, city) ==> d.recordedAt <= r.value.recordedAt
  {
    var r := LatestOr404(docs, (d: WaterRecord) => TapWaterQuery(d, city), RecordedAt);
    assert forall d :: d in docs ==> exists i :: 0 <= i < |docs| && docs[i] == d;
    r
  }

  /** `waterBody.name` matched by `new RegExp(name, 'i')`; a record without a name never matches. */
  predicate NameMatches(pattern: string, b: WaterBody) {
    b.name.Some? && CityMatches(pattern, b.name.value)
  }

  /** `GET /parameters/:city/:waterBodyName`: the newest record matching both, or 404. */
  function ParametersRecord(docs: seq<WaterRecord>, city: string, waterBodyName: string): (r: Result<WaterRecord>)
    ensures r.Err? <==> forall i :: 0 <= i < |docs| ==> !(CityMatches(city, docs[i].city) && NameMatches(waterBodyName, docs[i].waterBody))
    ensures r.Err? ==> r.status == 404
    ensures r.Ok? ==> r.value in docs && CityMatches(city, r.value.city) && NameMatches(waterBodyName, r.value.waterBody)
    ensures r.Ok? ==> forall i :: 0 <= i < |docs| && CityMatches(city, docs[i].city) && NameMatches(waterBodyName, docs[i].waterBody)
                        ==> docs[i].recordedAt <= r.value.recordedAt
  {
    LatestOr404(docs, (d: WaterRecord) => CityMatches(city, d.city) && NameMatches(waterBodyName, d.waterBody), RecordedAt)
  }

  /** `GET /treatment-facilities/:city`: the newest city record's facilities, or none. A stored
      array is truthy even when empty, so `|| []` only covers the missing record. */
  function TreatmentFacilities(docs: seq<WaterRecord>, city: string): (r: seq<TreatmentFacility>)
    ensures (forall i :: 0 <= i < |docs| ==> !CityMatches(city, docs[i].city)) ==> r == []
    ensures (exists i :: 0 <= i < |docs| && CityMatches(city, docs[i].city)) ==>
              exists k :: && 0 <= k < |docs| && CityMatches(city, docs[k].city) && r == docs[k].treatmentFacilities
                          && forall i :: 0 <= i < |docs| && CityMatches(city, docs[i].city) ==> docs[i].recordedAt <= docs[k].recordedAt
  {
    var k := LatestIndex(docs, (d: WaterRecord) => CityMatches(city, d.city), RecordedAt);
    if k.None? then [] else docs[k.value].treatmentFacilities
  }

  // ---------------------------------------------------------------------------------
  // User reports
  // ---------------------------------------------------------------------------------

  /** The record a report goes to: the city and the water-body name both match. */
  predicate ReportTarget(d: WaterRecord, city: string, waterBodyName: string) {
    CityMatches(city, d.city) && NameMatches(waterBodyName, d.waterBody)
  }

  /** `POST /report`: `findOneAndUpdate` with `$push` onto `userReports` of the newest matching
      record, a new report with status "pending"; 404 when nothing matches. The response is
      the last element of the updated list. */
  method SubmitReport(water: Collection<WaterRecord>, city: string, waterBodyName: string, user: nat,
                      issue: string, description: string, coordinates: Option<Coordinates>,
                      imageUrl: Option<string>, reportId: nat, now: int)
    returns (r: Result<UserReport>)
    modifies water
    ensures var k := LatestIndex(old(water.docs), (d: WaterRecord) => ReportTarget(d, city, waterBodyName), RecordedAt);
      && (k.None? ==> r == Err(404) && water.docs == old(water.docs))
      && (k.Some? ==>
            var rep := UserReport(reportId, user, issue, description, imageUrl, coordinates, now, "pending");
            && water.docs == old(water.docs)[k.value := old(water.docs)[k.value].(userReports := old(water.docs)[k.value].userReports + [rep])]
            && r == Ok(rep))
  {
    var k := LatestIndex(water.docs, (d: WaterRecord) => ReportTarget(d, city, waterBodyName), RecordedAt);
    if k.None? {
      r := Err(404);
    } else {
      var rep := UserReport(reportId, user, issue, description, imageUrl, coordinates, now, "pending");
      var d := water.docs[k.value];
      var updated := d.(userReports := d.userReports + [rep]);
      water.docs := water.docs[k.value := updated];
      r := Ok(updated.userReports[|updated.userReports| - 1]);
    }
  }

  /** A report flattened out of its record, carrying the record's water body. */
  datatype FlatReport = FlatReport(report: UserReport, waterBody: WaterBody)

  function WithBody(rs: seq<UserReport>, b: WaterBody): (r: seq<FlatReport>)
    ensures |r| == |rs|
    ensures forall i :: 0 <= i < |rs| ==> r[i] == FlatReport(rs[i], b)
  {
    seq(|rs|, i requires 0 <= i < |rs| => FlatReport(rs[i], b))
  }

  /** `data.flatMap(d => d.userReports.map(r => ({ ...r, waterBody: d.waterBody })))`. */
  function FlatReports(docs: seq<WaterRecord>): seq<FlatReport>
    decreases |docs|
  {
    if docs == [] then [] else WithBody(docs[0].userReports, docs[0].waterBody) + FlatReports(docs[1..])
  }

  /** Every flattened report is a report of one of the records, with that record's water
      body, and every report of every record appears. */
  lemma {:induction false} FlatReportsMembership(docs: seq<WaterRecord>, x: FlatReport)
    ensures x in FlatReports(docs) <==> exists d :: d in docs && x.report in d.userReports && x.waterBody == d.waterBody
    decreases |docs|
  {
    if docs != [] {
      FlatReportsMembership(docs[1..], x);
      var head := WithBody(docs[0].userReports, docs[0].waterBody);
      assert FlatReports(docs) == head + FlatReports(docs[1..]);
      if x in head {
        var i :| 0 <= i < |head| && head[i] == x;
        assert docs[0] in docs;
      }
      if x.report in docs[0].userReports && x.waterBody == docs[0].waterBody {
        var i :| 0 <= i < |docs[0].userReports| && docs[0].userReports[i] == x.report;
        assert head[i] == x;
      }
      if exists d :: d in docs[1..] && x.report in d.userReports && x.waterBody == d.waterBody {
        var d :| d in docs[1..] && x.report in d.userReports && x.waterBody == d.waterBody;
        assert d in docs;
      }
      if exists d :: d in docs && x.report in d.userReports && x.waterBody == d.waterBody {
        var d :| d in docs && x.report in d.userReports && x.waterBody == d.waterBody;
        if d != docs[0] {
          assert d in docs[1..];
        }
      }
    }
  }

  /** Flattening keeps every report: the length is the sum of the records' report counts. */
  function ReportCount(docs: seq<WaterRecord>): nat
    decreases |docs|
  {
    if docs == [] then 0 else |docs[0].userReports| + ReportCount(docs[1..])
  }

  lemma {:induction false} FlatReportsLength(docs: seq<WaterRecord>)
    ensures |FlatReports(docs)| == ReportCount(docs)
    decreases |docs|
  {
    if docs != [] {
      FlatReportsLength(docs[1..]);
    }
  }

  /** `GET /reports/:city`: the reports of the city's records, newest record first, narrowed to
      one status when `status` is given. */
  function CityReports(docs: seq<WaterRecord>, city: string, status: Option<string>): seq<FlatReport> {
    var all := FlatReports(NewestFirst(Filter(docs, (d: WaterRecord) => CityMatches(city, d.city)), RecordedAt));
    if Given(status) then Filter(all, (x: FlatReport) => x.report.status == status.value) else all
  }

  /** With a status filter the result is exactly the reports of that status, in the unfiltered
      order; without one it is every report of every matching record. */
  lemma CityReportsSpec(docs: seq<WaterRecord>, city: string, status: Option<string>)
    ensures var all := CityReports(docs, city, None);
      var r := CityReports(docs, city, status);
      && IsSubsequence(r, all)
      && (Given(status) ==> forall x :: x in r <==> x in all && x.report.status == status.value)
      && (Given(status) ==> forall x :: multiset(r)[x] == if x.report.status == status.value then multiset(all)[x] else 0)
      && (!Given(status) ==> r == all)
  {
    var all := CityReports(docs, city, None);
    if Given(status) {
      var p := (x: FlatReport) => x.report.status == status.value;
      FilterIsSubsequence(all, p);
      FilterMembership(all, p);
      FilterMultiplicity(all, p);
    } else {
      SubsequenceOfSelf(all);
    }
  }

  /** A report is listed (without a status filter) exactly when it belongs to a record whose
      city matches, and it carries that record's water body. */
  lemma CityReportsMembership(docs: seq<WaterRecord>, city: string, x: FlatReport)
    ensures x in CityReports(docs, city, None) <==>
      exists d :: d in docs && CityMatches(city, d.city) && x.report in d.userReports && x.waterBody == d.waterBody
  {
    var p := (d: WaterRecord) => CityMatches(city, d.city);
    var m := Filter(docs, p);
    var ordered := NewestFirst(m, RecordedAt);
    FlatReportsMembership(ordered, x);
    NewestFirstPermutes(m, RecordedAt);
    FilterMembership(docs, p);
    assert forall d :: d in ordered <==> d in m by {
      forall d ensures d in ordered <==> d in m {
        assert d in ordered <==> d in multiset(ordered);
        assert d in m <==> d in multiset(m);
      }
    }
  }

  /** `PUT /reports/:reportId/status`: in the first record (in stored order) that matches the
      city and water-body name and holds a report with that id, the first such report's status
      is set, unvalidated. Nothing changes when nothing matches; the answer is the same. */
  method UpdateReportStatus(water: Collection<WaterRecord>, city: string, waterBodyName: string,
                            reportId: nat, status: string)
    modifies water
    ensures var k := FirstIndex(old(water.docs), (d: WaterRecord) => ReportTarget(d, city, waterBodyName) && HasReport(d, reportId));
      && (k.None? ==> water.docs == old(water.docs))
      && (k.Some? ==> water.docs == old(water.docs)[k.value := SetReportStatus(old(water.docs)[k.value], reportId, status)])
  {
    var k := FirstIndex(water.docs, (d: WaterRecord) => ReportTarget(d, city, waterBodyName) && HasReport(d, reportId));
    if k.Some? {
      water.docs := water.docs[k.value := SetReportStatus(water.docs[k.value], reportId, status)];
    }
  }

  predicate HasReport(d: WaterRecord, reportId: nat) {
    exists i :: 0 <= i < |d.userReports| && d.userReports[i].id == reportId
  }

  /** The positional `userReports.$.status` update: only the first report with the id changes,
      and only its status. */
  function SetReportStatus(d: WaterRecord, reportId: nat, status: string): (r: WaterRecord)
    ensures |r.userReports| == |d.userReports|
    ensures r == d.(userReports := r.userReports)
    ensures var k := FirstIndex(d.userReports, (x: UserReport) => x.id == reportId);
      forall i :: 0 <= i < |d.userReports| ==>
        r.userReports[i] == if k == Some(i) then d.userReports[i].(status := status) else d.userReports[i]
  {
    var k := FirstIndex(d.userReports, (x: UserReport) => x.id == reportId);
    if k.None? then d
    else d.(userReports := d.userReports[k.value := d.userReports[k.value].(status := status)])
  }
}
