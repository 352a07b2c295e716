/** Query-string handling shared by the routes: the `days` parameter of the forecast routes
    and the `skip`/`limit` parameters of the paged listings. */
module RouteQuery {
  import opened Wrappers
  import opened Store
  import opened JsParse

  /** `slice(0, parseInt(days))` with `days` defaulting to 7: an absent parameter gives 7,
      a `NaN` gives 0. */
  function SliceEnd(days: Option<string>): int {
    if days.None? then 7 else ParseInt(days.value).GetOr(0)
  }

  /** `forecast.slice(0, parseInt(days))`. */
  function DaysSlice<T>(forecast: seq<T>, days: Option<string>): (r: seq<T>)
    ensures |r| <= |forecast| && r == forecast[..|r|]
    ensures SliceEnd(days) >= 0 ==> |r| == Min(SliceEnd(days), |forecast|)
    ensures SliceEnd(days) < 0 ==> |r| == if |forecast| + SliceEnd(days) < 0 then 0 else |forecast| + SliceEnd(days)
  {
    SliceTo(forecast, SliceEnd(days))
  }

  /** Without `days` the first seven entries are returned (all of a shorter list); with
      `days = String(n)` the first `n`; with `days = "-" + String(n + 1)` all but the last
      `n + 1`; with a `days` that is not a number, none. */
  lemma DaysSliceLength<T>(forecast: seq<T>, n: nat)
    ensures DaysSlice(forecast, None) == forecast[..Min(7, |forecast|)]
    ensures DaysSlice(forecast, Some(DecimalString(n))) == forecast[..Min(n, |forecast|)]
    ensures DaysSlice(forecast, Some("-" + DecimalString(n + 1))) == forecast[..Max(0, |forecast| - (n + 1))]
    ensures DaysSlice(forecast, Some("abc")) == []
  {
    ParseDecimal(n);
    ParseNegativeDecimal(n + 1);
    ParseIntNaN();
  }

  function Max(a: int, b: int): int {
    if a < b then b else a
  }

  /** `.skip(parseInt(skip)).limit(parseInt(limit))` with the handler's defaults: the pair
      of counts the cursor runs with, or `None` when the database refuses them (a `skip`
      that is `NaN` or negative, a `limit` that is `NaN`), which the handler answers 500. */
  function Paging(skip: Option<string>, limit: Option<string>, defaultLimit: int): (r: Option<(nat, int)>)
    ensures r.Some? <==> && (skip.None? || (ParseInt(skip.value).Some? && ParseInt(skip.value).value >= 0))
                         && (limit.None? || ParseInt(limit.value).Some?)
    ensures r.Some? ==> r.value.0 == (if skip.None? then 0 else ParseInt(skip.value).value)
    ensures r.Some? ==> r.value.1 == (if limit.None? then defaultLimit else ParseInt(limit.value).value)
  {
    var sk := if skip.None? then Some(0) else ParseInt(skip.value);
    var lim := if limit.None? then Some(defaultLimit) else ParseInt(limit.value);
    if sk.None? || sk.value < 0 || lim.None? then None else Some((sk.value as nat, lim.value))
  }

  /** No parameters give the defaults, decimal numerals are read as written, and a negative
      or non-numeric `skip` is refused. */
  lemma PagingCases(skip: nat, limit: nat, defaultLimit: int)
    ensures Paging(None, None, defaultLimit) == Some((0, defaultLimit))
    ensures Paging(Some(DecimalString(skip)), Some(DecimalString(limit)), defaultLimit) == Some((skip, limit as int))
    ensures Paging(Some("-" + DecimalString(skip + 1)), None, defaultLimit) == None
    ensures Paging(Some("abc"), None, defaultLimit) == None && Paging(None, Some("abc"), defaultLimit) == None
  {
    ParseDecimal(skip);
    ParseDecimal(limit);
    ParseNegativeDecimal(skip + 1);
    ParseIntNaN();
  }
}
