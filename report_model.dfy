/** The Report model: enums, the stored citizen report, and the validation `create` and
    `save` run. */
module ReportModel {
  import opened Wrappers
  import opened Text
  import opened Store

  datatype ReportType = Waterlogging | Pollution | WaterContamination | HeatEmergency | OtherReport

  function TypeName(t: ReportType): string {
    match t
    case Waterlogging => "waterlogging"
    case Pollution => "pollution"
    case WaterContamination => "water_contamination"
    case HeatEmergency => "heat_emergency"
    case OtherReport => "other"
  }

  const TypeNames: seq<string> := ["waterlogging", "pollution", "water_contamination", "heat_emergency", "other"]

  function ParseType(s: string): (r: Option<ReportType>)
    ensures r.Some? <==> s in TypeNames
    ensures r.Some? ==> TypeName(r.value) == s
  {
    if s == "waterlogging" then Some(Waterlogging)
    else if s == "pollution" then Some(Pollution)
    else if s == "water_contamination" then Some(WaterContamination)
    else if s == "heat_emergency" then Some(HeatEmergency)
    else if s == "other" then Some(OtherReport)
    else None
  }

  datatype ReportSeverity = Low | Medium | High | Critical

  function SeverityName(s: ReportSeverity): string {
    match s
    case Low => "low"
    case Medium => "medium"
    case High => "high"
    case Critical => "critical"
  }

  const SeverityNames: seq<string> := ["low", "medium", "high", "critical"]

  function ParseSeverity(s: string): (r: Option<ReportSeverity>)
    ensures r.Some? <==> s in SeverityNames
    ensures r.Some? ==> SeverityName(r.value) == s
  {
    if s == "low" then Some(Low)
    else if s == "medium" then Some(Medium)
    else if s == "high" then Some(High)
    else if s == "critical" then Some(Critical)
    else None
  }

  /** The `status` enum. Updates run no validator, so a stored status is any string. */
  const StatusNames: seq<string> := ["pending", "verified", "in_progress", "resolved", "rejected"]

  datatype Location = Location(address: Option<string>, city: string, state: Option<string>, coordinates: Coordinates)

  datatype Image = Image(url: string, uploadedAt: int)

  datatype Resolution = Resolution(description: Option<string>, resolvedAt: int, resolvedBy: nat)

  datatype Upvote = Upvote(user: nat, votedAt: int)

  datatype Comment = Comment(user: nat, text: Option<string>, createdAt: int)

  datatype Report = Report(
    reportType: ReportType,
    title: string,
    description: string,
    reportedBy: nat,
    location: Location,
    images: seq<Image>,
    severity: ReportSeverity,
    status: string,
    verifiedBy: Option<nat>,
    assignedTo: Option<nat>,
    resolution: Option<Resolution>,
    upvotes: seq<Upvote>,
    comments: seq<Comment>,
    isPublic: bool,
    createdAt: int)

  /** What `POST /` hands to `Report.create`: the form fields (absent ones `None`), `lat`
      and `lng` after `parseFloat` (`None` for `NaN`), and the stored upload file names. */
  datatype ReportDraft = ReportDraft(
    reportType: Option<string>,
    title: Option<string>,
    description: Option<string>,
    address: Option<string>,
    city: Option<string>,
    state: Option<string>,
    lat: Option<real>,
    lng: Option<real>,
    severity: Option<string>,
    files: seq<string>)

  /** `severity || 'medium'`. */
  function SeverityOrDefault(s: Option<string>): string {
    if Given(s) then s.value else "medium"
  }

  function Images(files: seq<string>, now: int): (r: seq<Image>)
    ensures |r| == |files|
    ensures forall i :: 0 <= i < |files| ==> r[i] == Image("/uploads/reports/" + files[i], now)
  {
    seq(|files|, i requires 0 <= i < |files| => Image("/uploads/reports/" + files[i], now))
  }

  /** Validation of `Report.create`: `type` must be an enum value, `title`, `description`
      and `location.city` non-empty, both coordinates numbers, and the (defaulted) severity
      an enum value; a failure answers 500. The new report is pending, public, without
      votes or comments, and stamped with the creation time. */
  function NewReport(d: ReportDraft, user: nat, now: int): (r: Result<Report>)
    ensures r.Ok? <==> d.reportType.Some? && d.reportType.value in TypeNames
                       && Given(d.title) && Given(d.description) && Given(d.city)
                       && d.lat.Some? && d.lng.Some? && SeverityOrDefault(d.severity) in SeverityNames
    ensures r.Err? ==> r.status == 500
    ensures r.Ok? ==> && TypeName(r.value.reportType) == d.reportType.value
                      && SeverityName(r.value.severity) == SeverityOrDefault(d.severity)
                      && r.value.title == d.title.value && r.value.description == d.description.value
                      && r.value.location == Location(d.address, d.city.value, d.state, Coordinates(d.lat.value, d.lng.value))
                      && r.value.reportedBy == user && r.value.images == Images(d.files, now)
                      && r.value.status == "pending" && r.value.isPublic
                      && r.value.upvotes == [] && r.value.comments == []
                      && r.value.verifiedBy.None? && r.value.assignedTo.None? && r.value.resolution.None?
                      && r.value.createdAt == now
  {
    var t := if d.reportType.Some? then ParseType(d.reportType.value) else None;
    var s := ParseSeverity(SeverityOrDefault(d.severity));
    if t.None? || !Given(d.title) || !Given(d.description) || !Given(d.city) || d.lat.None? || d.lng.None? || s.None?
    then Err(500)
    else Ok(Report(t.value, d.title.value, d.description.value, user,
                   Location(d.address, d.city.value, d.state, Coordinates(d.lat.value, d.lng.value)),
                   Images(d.files, now), s.value, "pending", None, None, None, [], [], true, now))
  }

  /** A report without a severity is filed as medium; an empty one too. */
  lemma SeverityDefaultsToMedium(d: ReportDraft, user: nat, now: int)
    requires !Given(d.severity)
    ensures NewReport(d, user, now).Ok? ==> NewReport(d, user, now).value.severity == Medium
  {
  }

  /** What `document.save()` checks on a stored report: the (possibly updated) status must be
      an enum value. Every other field was validated by `create` and no handler changes it
      to something invalid. */
  predicate SaveValid(r: Report) {
    r.status in StatusNames
  }
}
