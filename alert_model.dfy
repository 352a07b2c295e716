/** The Alert model: its enums and defaults, and the `pre('find')` hook that narrows every `find`. */
module AlertModel {
  import opened Wrappers
  import opened Store

  datatype AlertType = HeatwaveAlert | FloodAlert | AirQualityAlert | WaterQualityAlert

  function TypeName(t: AlertType): string {
    match t
    case HeatwaveAlert => "heatwave"
    case FloodAlert => "flood"
    case AirQualityAlert => "air_quality"
    case WaterQualityAlert => "water_quality"
  }

  const AllTypes: seq<AlertType> := [HeatwaveAlert, FloodAlert, AirQualityAlert, WaterQualityAlert]

  datatype Severity = Info | Warning | Critical | Emergency

  function SeverityName(s: Severity): string {
    match s
    case Info => "info"
    case Warning => "warning"
    case Critical => "critical"
    case Emergency => "emergency"
  }

  /** The intended order of severities: info < warning < critical < emergency. */
  function SeverityRank(s: Severity): nat {
    match s
    case Info => 0
    case Warning => 1
    case Critical => 2
    case Emergency => 3
  }

  datatype IssuedBy = System | Authority | Imd | Cpcb

  function IssuedByName(i: IssuedBy): string {
    match i
    case System => "system"
    case Authority => "authority"
    case Imd => "imd"
    case Cpcb => "cpcb"
  }

  datatype Metadata = Metadata(temperature: Option<real>, rainfall: Option<real>, aqi: Option<real>, waterLevel: Option<real>)

  const NoMetadata := Metadata(None, None, None, None)

  datatype Alert = Alert(
    alertType: AlertType,
    severity: Severity,
    title: string,
    message: string,
    city: string,
    state: Option<string>,
    validFrom: int,
    validUntil: Option<int>,
    isActive: bool,
    issuedBy: IssuedBy,
    metadata: Metadata,
    createdAt: int)

  /** The fields a caller passes to `Alert.create`; absent ones are None. */
  datatype AlertDraft = AlertDraft(
    alertType: Option<AlertType>,
    severity: Option<Severity>,
    title: string,
    message: string,
    city: string,
    state: Option<string>,
    validFrom: Option<int>,
    validUntil: Option<int>,
    isActive: Option<bool>,
    issuedBy: Option<IssuedBy>,
    metadata: Metadata)

  /** Schema validation and defaults: `type`, `severity`, `title`, `message` and `city` are
      required (Mongoose rejects an empty string for a required string), `validFrom` defaults
      to the creation time, `isActive` to true and `issuedBy` to system. A failed validation
      throws, which the handlers turn into status 500. */
  function NewAlert(d: AlertDraft, now: int): (r: Result<Alert>)
    ensures r.Ok? <==> d.alertType.Some? && d.severity.Some? && d.title != "" && d.message != "" && d.city != ""
    ensures r.Err? ==> r.status == 500
    ensures r.Ok? ==> r.value.isActive == (d.isActive.None? || d.isActive.value)
    ensures r.Ok? ==> r.value.validFrom == (if d.validFrom.Some? then d.validFrom.value else now)
    ensures r.Ok? ==> r.value.issuedBy == (if d.issuedBy.Some? then d.issuedBy.value else System)
    ensures r.Ok? ==> r.value.alertType == d.alertType.value && r.value.severity == d.severity.value
    ensures r.Ok? ==> r.value.title == d.title && r.value.message == d.message && r.value.city == d.city
    ensures r.Ok? ==> r.value.state == d.state && r.value.validUntil == d.validUntil && r.value.createdAt == now
  {
    if d.alertType.None? || d.severity.None? || d.title == "" || d.message == "" || d.city == "" then Err(500)
    else Ok(Alert(d.alertType.value, d.severity.value, d.title, d.message, d.city, d.state,
                  d.validFrom.GetOr(now), d.validUntil, d.isActive.GetOr(true),
                  d.issuedBy.GetOr(System), d.metadata, now))
  }

  /** The condition `pre('find')` adds to every `Alert.find`. A missing `validUntil` does
      not satisfy `$gt`. */
  predicate PreFindHook(a: Alert, now: int) {
    a.isActive && a.validUntil.Some? && a.validUntil.value > now
  }

  /** `Alert.find(query)` over the store order: the caller's query ANDed with the hook. */
  function Find(docs: seq<Alert>, query: Alert -> bool, now: int): (r: seq<Alert>)
    ensures forall a :: a in r <==> a in docs && query(a) && PreFindHook(a, now)
    ensures IsSubsequence(r, docs)
    ensures forall a :: multiset(r)[a] == if query(a) && PreFindHook(a, now) then multiset(docs)[a] else 0
  {
    var q: Alert -> bool := a => query(a) && PreFindHook(a, now);
    FilterMembership(docs, q);
    FilterIsSubsequence(docs, q);
    FilterMultiplicity(docs, q);
    Filter(docs, q)
  }

  /** However the caller's query reads, no alert that is inactive, expired or without an
      expiry ever comes back from `find`. */
  lemma FindNeverReturnsExpired(docs: seq<Alert>, query: Alert -> bool, now: int, a: Alert)
    requires a in docs && (!a.isActive || a.validUntil.None? || a.validUntil.value <= now)
    ensures a !in Find(docs, query, now)
  {
  }
}
