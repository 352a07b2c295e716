/** The alert routes: the active list, the history page, the per-type summary and
    deactivation. Request parameters arrive as strings; the clock is a parameter. */
module AlertRoutes {
  import opened Wrappers
  import opened Text
  import opened Store
  import opened AlertModel
  import opened JsParse
  import opened RouteQuery

  function CreatedAt(a: Alert): int {
    a.createdAt
  }

  /** The condition `/active` and `/summary` both write: the city matches, the alert is
      active, and it has not expired or has no expiry. */
  predicate ActiveCondition(a: Alert, city: string, now: int) {
    CityMatches(city, a.city) && a.isActive && (a.validUntil.None? || a.validUntil.value > now)
  }

  /** `/active`'s query: the condition above, plus `type` and `severity` when they are given. */
  predicate ActiveQuery(a: Alert, city: string, alertType: Option<string>, severity: Option<string>, now: int) {
    && ActiveCondition(a, city, now)
    && (Given(alertType) ==> TypeName(a.alertType) == alertType.value)
    && (Given(severity) ==> SeverityName(a.severity) == severity.value)
  }

  /** A missing or empty `type` or `severity` adds no condition; a given one adds exactly
      equality with the stored name. */
  lemma FiltersOnlyWhenGiven(a: Alert, city: string, alertType: Option<string>, severity: Option<string>, now: int)
    ensures !Given(alertType) && !Given(severity) ==> (ActiveQuery(a, city, alertType, severity, now) <==> ActiveCondition(a, city, now))
    ensures Given(alertType) ==>
      (ActiveQuery(a, city, alertType, severity, now)
       <==> ActiveQuery(a, city, None, severity, now) && TypeName(a.alertType) == alertType.value)
    ensures Given(severity) ==>
      (ActiveQuery(a, city, alertType, severity, now)
       <==> ActiveQuery(a, city, alertType, None, now) && SeverityName(a.severity) == severity.value)
  {
  }

  // ---------------------------------------------------------------------------------
  // Ordering by severity (as a string, descending) and then by creation time (descending)
  // ---------------------------------------------------------------------------------

  /** The position of each severity name in string order: critical < emergency < info < warning. */
  function StringRank(s: Severity): nat {
    match s
    case Critical => 0
    case Emergency => 1
    case Info => 2
    case Warning => 3
  }

  /** Comparing the stored names as strings is comparing their string ranks. */
  lemma SeverityNameOrder(a: Severity, b: Severity)
    ensures StrLess(SeverityName(a), SeverityName(b)) <==> StringRank(a) < StringRank(b)
  {
    if a == b {
      StrLessIrreflexive(SeverityName(a));
    } else {
      assert SeverityName(a)[0] != SeverityName(b)[0];
      StrLessFirst(SeverityName(a), SeverityName(b));
    }
  }

  function OfSeverity(s: seq<Alert>, sev: Severity): seq<Alert> {
    Filter(s, (a: Alert) => a.severity == sev)
  }

  /** `.sort({ severity: -1, createdAt: -1 })`: warning, info, emergency, critical, each
      group newest first (alerts created at the same instant keep their stored order). */
  function SeverityThenNewest(s: seq<Alert>): seq<Alert> {
    NewestFirst(OfSeverity(s, Warning), CreatedAt)
    + (NewestFirst(OfSeverity(s, Info), CreatedAt)
       + (NewestFirst(OfSeverity(s, Emergency), CreatedAt) + NewestFirst(OfSeverity(s, Critical), CreatedAt)))
  }

  /** Sorted by the string rank of the severity, descending, and within one severity by
      creation time, descending. */
  predicate SortedBySeverityThenNewest(r: seq<Alert>) {
    forall i, j :: 0 <= i < j < |r| ==>
      StringRank(r[i].severity) > StringRank(r[j].severity)
      || (r[i].severity == r[j].severity && r[i].createdAt >= r[j].createdAt)
  }

  /** Every element of `s` has string rank `k`. */
  predicate AllRanked(s: seq<Alert>, k: nat) {
    forall x :: x in s ==> StringRank(x.severity) == k
  }

  /** Every element of `s` has string rank below `k`. */
  predicate RankedBelow(s: seq<Alert>, k: nat) {
    forall x :: x in s ==> StringRank(x.severity) < k
  }

  /** A newest-first group of one severity. */
  lemma GroupSorted(s: seq<Alert>, sev: Severity)
    ensures var g := NewestFirst(OfSeverity(s, sev), CreatedAt);
      SortedBySeverityThenNewest(g) && AllRanked(g, StringRank(sev))
  {
    var f := OfSeverity(s, sev);
    var g := NewestFirst(f, CreatedAt);
    NewestFirstSorted(f, CreatedAt);
    NewestFirstPermutes(f, CreatedAt);
    forall x | x in g ensures x.severity == sev {
      assert x in multiset(g);
      assert x in multiset(f);
    }
    forall i, j | 0 <= i < j < |g|
      ensures StringRank(g[i].severity) > StringRank(g[j].severity)
              || (g[i].severity == g[j].severity && g[i].createdAt >= g[j].createdAt)
    {
      assert g[i] in g && g[j] in g;
      assert CreatedAt(g[i]) >= CreatedAt(g[j]);
    }
  }

  /** A group of rank `k` in front of a sorted run ranked below `k`. */
  lemma JoinSorted(a: seq<Alert>, b: seq<Alert>, k: nat)
    requires SortedBySeverityThenNewest(a) && SortedBySeverityThenNewest(b)
    requires AllRanked(a, k) && RankedBelow(b, k)
    ensures SortedBySeverityThenNewest(a + b) && RankedBelow(a + b, k + 1)
  {
    var r := a + b;
    forall i, j | 0 <= i < j < |r|
      ensures StringRank(r[i].severity) > StringRank(r[j].severity)
              || (r[i].severity == r[j].severity && r[i].createdAt >= r[j].createdAt)
    {
      if j < |a| {
        assert r[i] == a[i] && r[j] == a[j];
      } else if i >= |a| {
        assert r[i] == b[i - |a|] && r[j] == b[j - |a|];
      } else {
        assert r[i] == a[i] && r[j] == b[j - |a|];
        assert r[i] in a && r[j] in b;
      }
    }
  }

  lemma SeverityThenNewestSorted(s: seq<Alert>)
    ensures SortedBySeverityThenNewest(SeverityThenNewest(s))
  {
    var w := NewestFirst(OfSeverity(s, Warning), CreatedAt);
    var i := NewestFirst(OfSeverity(s, Info), CreatedAt);
    var e := NewestFirst(OfSeverity(s, Emergency), CreatedAt);
    var c := NewestFirst(OfSeverity(s, Critical), CreatedAt);
    GroupSorted(s, Warning);
    GroupSorted(s, Info);
    GroupSorted(s, Emergency);
    GroupSorted(s, Critical);
    JoinSorted(e, c, 1);
    JoinSorted(i, e + c, 2);
    JoinSorted(w, i + (e + c), 3);
  }

  /** Adding one element to any of four multisets adds it to their sum. */
  lemma AddToOne<T>(h: multiset<T>, w: multiset<T>, i: multiset<T>, e: multiset<T>, c: multiset<T>)
    ensures (h + w) + i + e + c == h + (w + i + e + c)
    ensures w + (h + i) + e + c == h + (w + i + e + c)
    ensures w + i + (h + e) + c == h + (w + i + e + c)
    ensures w + i + e + (h + c) == h + (w + i + e + c)
  {
  }

  /** Splitting by severity into four groups loses and duplicates nothing. */
  lemma {:induction false} SeverityGroupsPartition(s: seq<Alert>)
    ensures multiset(OfSeverity(s, Warning)) + multiset(OfSeverity(s, Info))
            + multiset(OfSeverity(s, Emergency)) + multiset(OfSeverity(s, Critical)) == multiset(s)
    decreases |s|
  {
    if s != [] {
      var t := s[1..];
      SeverityGroupsPartition(t);
      var w, i, e, c := multiset(OfSeverity(t, Warning)), multiset(OfSeverity(t, Info)),
                        multiset(OfSeverity(t, Emergency)), multiset(OfSeverity(t, Critical));
      var h := multiset{s[0]};
      assert s == [s[0]] + t;
      assert multiset(s) == h + multiset(t);
      AddToOne(h, w, i, e, c);
      forall sev: Severity
        ensures OfSeverity(s, sev) == (if s[0].severity == sev then [s[0]] else []) + OfSeverity(t, sev)
      {
      }
      forall sev: Severity | s[0].severity != sev ensures OfSeverity(s, sev) == OfSeverity(t, sev) {
        assert [] + OfSeverity(t, sev) == OfSeverity(t, sev);
      }
      forall sev: Severity | s[0].severity == sev ensures multiset(OfSeverity(s, sev)) == h + multiset(OfSeverity(t, sev)) {
      }
    }
  }

  /** The ordering is a permutation of the documents it orders. */
  lemma SeverityThenNewestPermutes(s: seq<Alert>)
    ensures multiset(SeverityThenNewest(s)) == multiset(s)
  {
    NewestFirstPermutes(OfSeverity(s, Warning), CreatedAt);
    NewestFirstPermutes(OfSeverity(s, Info), CreatedAt);
    NewestFirstPermutes(OfSeverity(s, Emergency), CreatedAt);
    NewestFirstPermutes(OfSeverity(s, Critical), CreatedAt);
    SeverityGroupsPartition(s);
  }

  // ---------------------------------------------------------------------------------
  // GET /active/:city
  // ---------------------------------------------------------------------------------

  /** `Alert.find(query)`: the route's query ANDed with the model's `pre('find')` hook. */
  function ActiveMatches(docs: seq<Alert>, city: string, alertType: Option<string>, severity: Option<string>, now: int): seq<Alert> {
    Find(docs, (a: Alert) => ActiveQuery(a, city, alertType, severity, now), now)
  }

  /** `GET /active/:city`. */
  function ActiveAlerts(docs: seq<Alert>, city: string, alertType: Option<string>, severity: Option<string>, now: int): seq<Alert> {
    SeverityThenNewest(ActiveMatches(docs, city, alertType, severity, now))
  }

  /** The active list holds exactly the stored alerts that satisfy the route's query and the
      hook, each as often as it is stored, ordered by severity string and then newest first. */
  lemma ActiveAlertsSpec(docs: seq<Alert>, city: string, alertType: Option<string>, severity: Option<string>, now: int)
    ensures var r := ActiveAlerts(docs, city, alertType, severity, now);
      && (forall a :: a in r <==> a in docs && ActiveQuery(a, city, alertType, severity, now) && PreFindHook(a, now))
      && multiset(r) == multiset(ActiveMatches(docs, city, alertType, severity, now))
      && SortedBySeverityThenNewest(r)
  {
    var m := ActiveMatches(docs, city, alertType, severity, now);
    SeverityThenNewestPermutes(m);
    SeverityThenNewestSorted(m);
    var r := ActiveAlerts(docs, city, alertType, severity, now);
    forall a ensures a in r <==> a in m {
      assert a in r <==> a in multiset(r);
      assert a in m <==> a in multiset(m);
    }
  }

  /** As written, the hook's `validUntil > now` overrides the route's `validUntil: null`
      branch: an alert without an expiry is never listed. */
  lemma NoExpiryNeverListed(docs: seq<Alert>, city: string, alertType: Option<string>, severity: Option<string>, now: int, a: Alert)
    requires a.validUntil.None?
    ensures a !in ActiveAlerts(docs, city, alertType, severity, now)
  {
    ActiveAlertsSpec(docs, city, alertType, severity, now);
  }

  /** The intended active list: the route's own query, with no expiry meaning "still valid". */
  function ActiveAlertsIntended(docs: seq<Alert>, city: string, alertType: Option<string>, severity: Option<string>, now: int): seq<Alert> {
    SeverityThenNewest(Filter(docs, (a: Alert) => ActiveQuery(a, city, alertType, severity, now)))
  }

  /** The intended list and the summary count the same alerts: without filters, an alert is
      listed exactly when the summary counts it. */
  lemma ActiveIntendedAgreesWithSummary(docs: seq<Alert>, city: string, now: int)
    ensures forall a :: a in ActiveAlertsIntended(docs, city, None, None, now) <==> a in SummaryMatched(docs, city, now)
    ensures multiset(ActiveAlertsIntended(docs, city, None, None, now)) == multiset(SummaryMatched(docs, city, now))
  {
    var q := (a: Alert) => ActiveQuery(a, city, None, None, now);
    var f := Filter(docs, q);
    var m := SummaryMatched(docs, city, now);
    FilterMembership(docs, q);
    FilterMembership(docs, (a: Alert) => ActiveCondition(a, city, now));
    SameFilter(docs, q, (a: Alert) => ActiveCondition(a, city, now));
    SeverityThenNewestPermutes(f);
    var r := ActiveAlertsIntended(docs, city, None, None, now);
    forall a ensures a in r <==> a in m {
      assert a in r <==> a in multiset(r);
      assert a in m <==> a in multiset(m);
    }
  }

  lemma {:induction false} SameFilter(s: seq<Alert>, p: Alert -> bool, q: Alert -> bool)
    requires forall a :: p(a) == q(a)
    ensures Filter(s, p) == Filter(s, q)
    decreases |s|
  {
    if s != [] {
      SameFilter(s[1..], p, q);
    }
  }

  /** Corrected: the intended list holds exactly the stored alerts that satisfy the query. */
  lemma ActiveIntendedSpec(docs: seq<Alert>, city: string, alertType: Option<string>, severity: Option<string>, now: int)
    ensures var r := ActiveAlertsIntended(docs, city, alertType, severity, now);
      && (forall a :: a in r <==> a in docs && ActiveQuery(a, city, alertType, severity, now))
      && SortedBySeverityThenNewest(r)
  {
    var q := (a: Alert) => ActiveQuery(a, city, alertType, severity, now);
    var f := Filter(docs, q);
    FilterMembership(docs, q);
    SeverityThenNewestPermutes(f);
    SeverityThenNewestSorted(f);
    var r := ActiveAlertsIntended(docs, city, alertType, severity, now);
    forall a ensures a in r <==> a in f {
      assert a in r <==> a in multiset(r);
      assert a in f <==> a in multiset(f);
    }
  }

  // ---------------------------------------------------------------------------------
  // GET /history/:city
  // ---------------------------------------------------------------------------------

  predicate HistoryQuery(a: Alert, city: string, alertType: Option<string>) {
    CityMatches(city, a.city) && (Given(alertType) ==> TypeName(a.alertType) == alertType.value)
  }

  datatype HistoryPage = HistoryPage(alerts: seq<Alert>, total: nat, limit: int, skip: nat, hasMore: bool)

  /** One page of `GET /history/:city` as written, for parsed counts: `find` is narrowed by
      the hook, `countDocuments` is not, so `total` also counts inactive and expired alerts. */
  function HistoryPageOf(docs: seq<Alert>, city: string, alertType: Option<string>,
                         skip: nat, limit: int, now: int): HistoryPage
  {
    var q := (a: Alert) => HistoryQuery(a, city, alertType);
    var page := Page(NewestFirst(Find(docs, q, now), CreatedAt), skip, limit);
    var total := Count(docs, q);
    HistoryPage(page, total, limit, skip, skip + |page| < total)
  }

  /** `GET /history/:city`: `skip` defaults to 0 and `limit` to 50; a `skip` that is `NaN` or
      negative, or a `limit` that is `NaN`, is refused by the database and answers 500. */
  function History(docs: seq<Alert>, city: string, alertType: Option<string>,
                   skip: Option<string>, limit: Option<string>, now: int): (r: Result<HistoryPage>)
    ensures r.Err? <==> Paging(skip, limit, 50).None?
    ensures r.Err? ==> r.status == 500
  {
    match Paging(skip, limit, 50)
    case None => Err(500)
    case Some(p) => Ok(HistoryPageOf(docs, city, alertType, p.0, p.1, now))
  }

  /** For parsed counts: every returned alert is a stored match the hook lets through, the
      total counts every stored match, and `hasMore` compares the two. */
  lemma HistoryPageOfSpec(docs: seq<Alert>, city: string, alertType: Option<string>,
                          skip: nat, limit: int, now: int)
    ensures var h := HistoryPageOf(docs, city, alertType, skip, limit, now);
      && h.skip == skip && h.limit == limit
      && (forall a :: a in h.alerts ==> a in docs && HistoryQuery(a, city, alertType) && PreFindHook(a, now))
      && h.total == |Filter(docs, (a: Alert) => HistoryQuery(a, city, alertType))|
      && (h.hasMore <==> h.skip + |h.alerts| < h.total)
  {
    var q := (a: Alert) => HistoryQuery(a, city, alertType);
    var f := Find(docs, q, now);
    var n := NewestFirst(f, CreatedAt);
    NewestFirstPermutes(f, CreatedAt);
    FilterLength(docs, q);
    forall a | a in HistoryPageOf(docs, city, alertType, skip, limit, now).alerts ensures a in f {
      assert a in n;
      assert a in multiset(n);
    }
  }

  /** The handler: which parameters it refuses, and for the rest the page of
      `HistoryPageOfSpec` at the parsed `skip` and `limit`. */
  lemma HistoryPageSpec(docs: seq<Alert>, city: string, alertType: Option<string>,
                        skip: Option<string>, limit: Option<string>, now: int)
    ensures var r := History(docs, city, alertType, skip, limit, now);
      && (r.Err? <==> || (skip.Some? && (ParseInt(skip.value).None? || ParseInt(skip.value).value < 0))
                      || (limit.Some? && ParseInt(limit.value).None?))
      && (r.Ok? ==>
            && r.value.skip == (if skip.None? then 0 else ParseInt(skip.value).value)
            && r.value.limit == (if limit.None? then 50 else ParseInt(limit.value).value)
            && r.value == HistoryPageOf(docs, city, alertType, r.value.skip, r.value.limit, now))
  {
  }

  /** `?skip=-5` reaches `.skip(-5)`, which the database refuses: the answer is 500. */
  lemma NegativeSkipRefused(docs: seq<Alert>, city: string, alertType: Option<string>, now: int)
    ensures History(docs, city, alertType, Some("-5"), None, now) == Err(500)
  {
    assert "-5" == "-" + DecimalString(4 + 1);
    assert Paging(Some("-5"), None, 50) == None by { PagingCases(4, 0, 50); }
  }

  /** As written, one expired alert and the first page: nothing is returned, the total is 1
      and `hasMore` is true, yet the next page is empty too. */
  lemma HasMoreWithoutNextPage()
    ensures var a := Alert(FloodAlert, Info, "t", "m", "Delhi", None, 0, Some(5), true, System, NoMetadata, 0);
      var r := History([a], "Delhi", None, None, None, 10);
      && r.Ok? && r.value.alerts == [] && r.value.total == 1 && r.value.hasMore
      && HistoryPageOf([a], "Delhi", None, r.value.skip + |r.value.alerts| + 1, 50, 10).alerts == []
  {
    var a := Alert(FloodAlert, Info, "t", "m", "Delhi", None, 0, Some(5), true, System, NoMetadata, 0);
    ContainsTrivial(Lower("Delhi"));
    assert HistoryQuery(a, "Delhi", None);
    assert !PreFindHook(a, 10);
    assert Find([a], (x: Alert) => HistoryQuery(x, "Delhi", None), 10) == [] by {
      FilterMembership([a], (x: Alert) => HistoryQuery(x, "Delhi", None) && PreFindHook(x, 10));
    }
    assert Count([a], (x: Alert) => HistoryQuery(x, "Delhi", None)) == 1 by {
      assert [a][1..] == [];
    }
  }

  /** The intended history page: the total counts what `find` can return. */
  function HistoryIntendedOf(docs: seq<Alert>, city: string, alertType: Option<string>,
                             skip: nat, limit: int, now: int): HistoryPage
  {
    var q := (a: Alert) => HistoryQuery(a, city, alertType);
    var all := NewestFirst(Find(docs, q, now), CreatedAt);
    var page := Page(all, skip, limit);
    HistoryPage(page, |all|, limit, skip, skip + |page| < |all|)
  }

  /** The intended handler, with the same parameter handling as the one written. */
  function HistoryIntended(docs: seq<Alert>, city: string, alertType: Option<string>,
                           skip: Option<string>, limit: Option<string>, now: int): (r: Result<HistoryPage>)
    ensures r.Err? <==> History(docs, city, alertType, skip, limit, now).Err?
    ensures r.Err? ==> r.status == 500
  {
    match Paging(skip, limit, 50)
    case None => Err(500)
    case Some(p) => Ok(HistoryIntendedOf(docs, city, alertType, p.0, p.1, now))
  }

  /** Corrected: `hasMore` holds exactly when the page that starts after this one is not empty. */
  lemma HasMoreMeansNextPage(docs: seq<Alert>, city: string, alertType: Option<string>,
                             skip: Option<string>, limit: Option<string>, now: int)
    ensures var r := HistoryIntended(docs, city, alertType, skip, limit, now);
      r.Ok? ==> (r.value.hasMore <==>
                 HistoryIntendedOf(docs, city, alertType, r.value.skip + |r.value.alerts|, r.value.limit, now).alerts != [])
  {
  }

  // ---------------------------------------------------------------------------------
  // GET /summary/:city
  // ---------------------------------------------------------------------------------

  /** The `$match` stage: the active condition, with no hook (aggregate does not run it). */
  function SummaryMatched(docs: seq<Alert>, city: string, now: int): seq<Alert> {
    Filter(docs, (a: Alert) => ActiveCondition(a, city, now))
  }

  function OfType(s: seq<Alert>, t: AlertType): seq<Alert> {
    Filter(s, (a: Alert) => a.alertType == t)
  }

  /** One `$group` result: `count`, `highestSeverity` and `latestAlert` for one type. */
  datatype TypeSummary = TypeSummary(alertType: AlertType, count: nat, highestSeverity: Severity, latestAlert: Alert)

  /** `$max: '$severity'`: the greatest severity name in string order. */
  function StringMaxSeverity(g: seq<Alert>): Severity
    requires g != []
    decreases |g|
  {
    if |g| == 1 then g[0].severity
    else
      var rest := StringMaxSeverity(g[1..]);
      if StrLess(SeverityName(rest), SeverityName(g[0].severity)) then g[0].severity else rest
  }

  /** The string maximum is some member's severity and no member's name is greater. */
  lemma {:induction false} StringMaxIsMax(g: seq<Alert>)
    requires g != []
    ensures exists k :: 0 <= k < |g| && g[k].severity == StringMaxSeverity(g)
    ensures forall k :: 0 <= k < |g| ==> !StrLess(SeverityName(StringMaxSeverity(g)), SeverityName(g[k].severity))
    ensures forall k :: 0 <= k < |g| ==> StringRank(g[k].severity) <= StringRank(StringMaxSeverity(g))
    decreases |g|
  {
    var m := StringMaxSeverity(g);
    forall k | 0 <= k < |g| ensures StringRank(g[k].severity) <= StringRank(m) {
      SeverityNameOrder(m, g[k].severity);
      if |g| > 1 {
        var rest := StringMaxSeverity(g[1..]);
        StringMaxIsMax(g[1..]);
        SeverityNameOrder(rest, g[0].severity);
        if k > 0 {
          assert g[k] == g[1..][k - 1];
        }
      }
    }
    forall k | 0 <= k < |g| ensures !StrLess(SeverityName(m), SeverityName(g[k].severity)) {
      SeverityNameOrder(m, g[k].severity);
    }
    if |g| > 1 {
      StringMaxIsMax(g[1..]);
      var j :| 0 <= j < |g[1..]| && g[1..][j].severity == StringMaxSeverity(g[1..]);
      assert g[j + 1].severity == StringMaxSeverity(g[1..]);
    } else {
      assert g[0].severity == m;
    }
  }

  /** The groups in one fixed order of types (MongoDB does not order `$group` output). */
  function SummaryOver(s: seq<Alert>, types: seq<AlertType>): seq<TypeSummary>
    decreases |types|
  {
    if types == [] then []
    else
      var g := OfType(s, types[0]);
      (if g == [] then [] else [TypeSummary(types[0], |g|, StringMaxSeverity(g), g[0])])
      + SummaryOver(s, types[1..])
  }

  /** `GET /summary/:city`'s `byType`, as written. */
  function Summary(docs: seq<Alert>, city: string, now: int): seq<TypeSummary> {
    SummaryOver(SummaryMatched(docs, city, now), AllTypes)
  }

  /** `totalActiveAlerts`: the sum of the per-type counts. */
  function TotalCount(sums: seq<TypeSummary>): nat
    decreases |sums|
  {
    if sums == [] then 0 else sums[0].count + TotalCount(sums[1..])
  }

  lemma {:induction false} TotalCountAppend(a: seq<TypeSummary>, b: seq<TypeSummary>)
    ensures TotalCount(a + b) == TotalCount(a) + TotalCount(b)
    decreases |a|
  {
    if a != [] {
      assert (a + b)[1..] == a[1..] + b;
      TotalCountAppend(a[1..], b);
    } else {
      assert a + b == b;
    }
  }

  /** Every alert has exactly one of the four types. */
  lemma {:induction false} TypesPartition(s: seq<Alert>)
    ensures |OfType(s, HeatwaveAlert)| + |OfType(s, FloodAlert)| + |OfType(s, AirQualityAlert)|
            + |OfType(s, WaterQualityAlert)| == |s|
    decreases |s|
  {
    if s != [] {
      TypesPartition(s[1..]);
    }
  }

  lemma {:induction false} SummaryOverFacts(s: seq<Alert>, types: seq<AlertType>)
    ensures TotalCount(SummaryOver(s, types)) == SumOfTypes(s, types)
    ensures forall e :: e in SummaryOver(s, types) ==>
      && e.alertType in types && OfType(s, e.alertType) != [] && e.count == |OfType(s, e.alertType)|
      && e.highestSeverity == StringMaxSeverity(OfType(s, e.alertType))
      && e.latestAlert == OfType(s, e.alertType)[0]
    ensures forall t :: t in types && OfType(s, t) != [] ==> exists e :: e in SummaryOver(s, types) && e.alertType == t
    decreases |types|
  {
    if types != [] {
      SummaryOverFacts(s, types[1..]);
      var g := OfType(s, types[0]);
      var head := if g == [] then [] else [TypeSummary(types[0], |g|, StringMaxSeverity(g), g[0])];
      TotalCountAppend(head, SummaryOver(s, types[1..]));
      if g != [] {
        assert TotalCount(head) == |g| by { assert head[1..] == []; }
      }
    }
  }

  lemma {:induction false} SummaryOverCovers(s: seq<Alert>, types: seq<AlertType>, t: AlertType)
    requires t in types && OfType(s, t) != []
    ensures exists e :: e in SummaryOver(s, types) && e.alertType == t
    decreases |types|
  {
    var g := OfType(s, types[0]);
    var head := if g == [] then [] else [TypeSummary(types[0], |g|, StringMaxSeverity(g), g[0])];
    assert SummaryOver(s, types) == head + SummaryOver(s, types[1..]);
    if types[0] == t {
      assert head[0] in SummaryOver(s, types);
    } else {
      SummaryOverCovers(s, types[1..], t);
      var e :| e in SummaryOver(s, types[1..]) && e.alertType == t;
      assert e in SummaryOver(s, types);
    }
  }

  function SumOfTypes(s: seq<Alert>, types: seq<AlertType>): nat
    decreases |types|
  {
    if types == [] then 0 else |OfType(s, types[0])| + SumOfTypes(s, types[1..])
  }

  /** No two entries of `r` are for the same type. */
  ghost predicate DistinctTypes(r: seq<TypeSummary>) {
    forall i, j :: 0 <= i < j < |r| ==> r[i].alertType != r[j].alertType
  }

  lemma {:induction false} SummaryOverDistinct(s: seq<Alert>, types: seq<AlertType>)
    requires forall i, j :: 0 <= i < j < |types| ==> types[i] != types[j]
    ensures DistinctTypes(SummaryOver(s, types))
    decreases |types|
  {
    if types != [] {
      SummaryOverDistinct(s, types[1..]);
      SummaryOverFacts(s, types[1..]);
      var r := SummaryOver(s, types);
      var rest := SummaryOver(s, types[1..]);
      if OfType(s, types[0]) != [] {
        forall i, j | 0 <= i < j < |r| ensures r[i].alertType != r[j].alertType {
          assert r[j] == rest[j - 1];
          assert rest[j - 1] in rest;
          if i > 0 {
            assert r[i] == rest[i - 1];
          } else {
            assert types[0] !in types[1..];
          }
        }
      }
    }
  }

  /** Every type that occurs among the matching alerts has an entry in the summary. */
  lemma SummaryCoversTypes(docs: seq<Alert>, city: string, now: int)
    ensures var m := SummaryMatched(docs, city, now);
      forall a :: a in m ==> exists e :: e in Summary(docs, city, now) && e.alertType == a.alertType
  {
    var m := SummaryMatched(docs, city, now);
    forall a | a in m ensures exists e :: e in Summary(docs, city, now) && e.alertType == a.alertType {
      FilterMembership(m, (x: Alert) => x.alertType == a.alertType);
      assert a in OfType(m, a.alertType);
      SummaryOverCovers(m, AllTypes, a.alertType);
    }
  }

  /** No type has two entries in the summary. */
  lemma SummaryDistinct(docs: seq<Alert>, city: string, now: int)
    ensures DistinctTypes(Summary(docs, city, now))
  {
    SummaryOverDistinct(SummaryMatched(docs, city, now), AllTypes);
  }

  /** As written, each entry reports its type's count among the matching alerts, their
      string-greatest severity and their first matching alert in stored order. */
  lemma SummaryEntries(docs: seq<Alert>, city: string, now: int)
    ensures var m := SummaryMatched(docs, city, now);
      forall e :: e in Summary(docs, city, now) ==>
        && OfType(m, e.alertType) != [] && e.count == |OfType(m, e.alertType)|
        && e.highestSeverity == StringMaxSeverity(OfType(m, e.alertType))
        && e.latestAlert == OfType(m, e.alertType)[0]
  {
    SummaryOverFacts(SummaryMatched(docs, city, now), AllTypes);
  }

  /** `totalActiveAlerts` is the number of matching alerts. */
  lemma SummaryTotal(docs: seq<Alert>, city: string, now: int)
    ensures TotalCount(Summary(docs, city, now)) == |SummaryMatched(docs, city, now)|
  {
    var m := SummaryMatched(docs, city, now);
    SummaryOverFacts(m, AllTypes);
    TypesPartition(m);
    assert SumOfTypes(m, AllTypes) == |m| by {
      assert AllTypes[1..][1..][1..][1..] == [];
    }
  }

  /** As written, a warning and an emergency of one type summarise as "warning": the string
      maximum is not the most severe. */
  lemma WarningOutranksEmergency(w: Alert, e: Alert)
    requires w.severity == Warning && e.severity == Emergency
    ensures StringMaxSeverity([w, e]) == Warning && SeverityMax([w, e]) == Emergency
  {
    SeverityNameOrder(Emergency, Warning);
    assert [w, e][1..] == [e];
  }

  /** As written, the `latestAlert` of a type is its first matching alert in stored order,
      which for two alerts created in turn is the older one. */
  lemma FirstIsNotLatest(older: Alert, newer: Alert)
    requires older.alertType == newer.alertType && older.createdAt < newer.createdAt
    ensures var g := [older, newer];
      g[0] == older && g[LatestIndex(g, Anything, CreatedAt).value] == newer
  {
    var g := [older, newer];
    assert Anything(newer);
    var k := LatestIndex(g, Anything, CreatedAt).value;
    assert CreatedAt(g[1]) <= CreatedAt(g[k]);
  }

  /** The most severe severity in the intended order info < warning < critical < emergency. */
  function SeverityMax(g: seq<Alert>): (r: Severity)
    requires g != []
    ensures exists k :: 0 <= k < |g| && g[k].severity == r
    ensures forall k :: 0 <= k < |g| ==> SeverityRank(g[k].severity) <= SeverityRank(r)
    decreases |g|
  {
    if |g| == 1 then g[0].severity
    else
      var rest := SeverityMax(g[1..]);
      assert forall k :: 1 <= k < |g| ==> g[k] == g[1..][k - 1];
      if SeverityRank(rest) < SeverityRank(g[0].severity) then g[0].severity else rest
  }

  /** The intended summary entry of one type: the most severe severity, the newest alert. */
  function IntendedEntry(g: seq<Alert>, t: AlertType): (r: TypeSummary)
    requires g != []
    ensures r.alertType == t && r.count == |g| && r.highestSeverity == SeverityMax(g)
    ensures r.latestAlert in g && forall a :: a in g ==> a.createdAt <= r.latestAlert.createdAt
  {
    assert Anything(g[0]);
    var k := LatestIndex(g, Anything, CreatedAt).value;
    assert forall a :: a in g ==> Anything(a);
    TypeSummary(t, |g|, SeverityMax(g), g[k])
  }

  function SummaryIntendedOver(s: seq<Alert>, types: seq<AlertType>): seq<TypeSummary>
    decreases |types|
  {
    if types == [] then []
    else
      var g := OfType(s, types[0]);
      (if g == [] then [] else [IntendedEntry(g, types[0])]) + SummaryIntendedOver(s, types[1..])
  }

  /** Corrected summary: the same groups and counts, with the intended severity order and
      the newest alert of each type. */
  function SummaryIntended(docs: seq<Alert>, city: string, now: int): seq<TypeSummary> {
    SummaryIntendedOver(SummaryMatched(docs, city, now), AllTypes)
  }

  lemma {:induction false} SummaryIntendedOverFacts(s: seq<Alert>, types: seq<AlertType>)
    ensures forall e :: e in SummaryIntendedOver(s, types) ==>
      var g := OfType(s, e.alertType);
      && g != [] && e.count == |g|
      && (forall a :: a in g ==> SeverityRank(a.severity) <= SeverityRank(e.highestSeverity))
      && (exists a :: a in g && a.severity == e.highestSeverity)
      && e.latestAlert in g && (forall a :: a in g ==> a.createdAt <= e.latestAlert.createdAt)
    decreases |types|
  {
    if types != [] {
      SummaryIntendedOverFacts(s, types[1..]);
      var g := OfType(s, types[0]);
      if g != [] {
        var e := IntendedEntry(g, types[0]);
        var k :| 0 <= k < |g| && g[k].severity == e.highestSeverity;
        assert g[k] in g;
        forall a | a in g ensures SeverityRank(a.severity) <= SeverityRank(e.highestSeverity) {
          var j :| 0 <= j < |g| && g[j] == a;
        }
      }
    }
  }

  /** Corrected: every entry reports its type's most severe alert level and newest alert. */
  lemma SummaryIntendedSpec(docs: seq<Alert>, city: string, now: int)
    ensures forall e :: e in SummaryIntended(docs, city, now) ==>
      var g := OfType(SummaryMatched(docs, city, now), e.alertType);
      && g != [] && e.count == |g|
      && (forall a :: a in g ==> SeverityRank(a.severity) <= SeverityRank(e.highestSeverity))
      && (exists a :: a in g && a.severity == e.highestSeverity)
      && e.latestAlert in g && (forall a :: a in g ==> a.createdAt <= e.latestAlert.createdAt)
  {
    SummaryIntendedOverFacts(SummaryMatched(docs, city, now), AllTypes);
  }

  /** An alert without an expiry that is active in the city is counted by the summary but,
      as written, never listed by `/active`. */
  lemma SummaryCountsWhatActiveHides(docs: seq<Alert>, city: string, now: int, a: Alert)
    requires a in docs && a.isActive && a.validUntil.None? && CityMatches(city, a.city)
    ensures a in SummaryMatched(docs, city, now)
    ensures a !in ActiveAlerts(docs, city, None, None, now)
  {
    FilterMembership(docs, (x: Alert) => ActiveCondition(x, city, now));
    NoExpiryNeverListed(docs, city, None, None, now, a);
  }

  // ---------------------------------------------------------------------------------
  // DELETE /:id
  // ---------------------------------------------------------------------------------

  /** `DELETE /:id`: `findByIdAndUpdate(id, { isActive: false })`; 404 for an unknown id. */
  method Deactivate(alerts: Collection<Alert>, id: nat) returns (status: int)
    modifies alerts
    ensures id < |old(alerts.docs)| ==>
      status == 200 && alerts.docs == old(alerts.docs)[id := old(alerts.docs)[id].(isActive := false)]
    ensures id >= |old(alerts.docs)| ==> status == 404 && alerts.docs == old(alerts.docs)
  {
    if id < |alerts.docs| {
      alerts.docs := alerts.docs[id := alerts.docs[id].(isActive := false)];
      status := 200;
    } else {
      status := 404;
    }
  }

  /** A deactivated alert drops out of both the active list and the summary, whatever the
      filters and the clock. */
  lemma DeactivatedIsGone(docs: seq<Alert>, id: nat, city: string, alertType: Option<string>, severity: Option<string>, now: int)
    requires id < |docs|
    ensures var d := docs[id].(isActive := false);
      && d !in ActiveAlerts(docs[id := d], city, alertType, severity, now)
      && d !in SummaryMatched(docs[id := d], city, now)
  {
    var d := docs[id].(isActive := false);
    ActiveAlertsSpec(docs[id := d], city, alertType, severity, now);
    FilterMembership(docs[id := d], (x: Alert) => ActiveCondition(x, city, now));
  }
}
