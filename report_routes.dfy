/** The citizen-report routes: creation with the upload filter, the paged listings, the
    nearby guard, and the in-place updates (upvote toggle, comments, status, assignment).
    A report's id is its index in the collection. */
module ReportRoutes {
  import opened Wrappers
  import opened Text
  import opened Store
  import opened JsParse
  import opened RouteQuery
  import opened ReportModel

  // ---------------------------------------------------------------------------------
  // The upload `fileFilter`
  // ---------------------------------------------------------------------------------

  /** The name without its trailing slashes. */
  function TrimTrailingSlashes(s: string): (r: string)
    ensures |r| <= |s| && r == s[..|r|]
    ensures r == [] || r[|r| - 1] != '/'
    decreases |s|
  {
    if s != [] && s[|s| - 1] == '/' then TrimTrailingSlashes(s[..|s| - 1]) else s
  }

  /** The position just after the last `/`, or 0. */
  function PartStart(s: string): (k: nat)
    ensures k <= |s|
    ensures forall i :: k <= i < |s| ==> s[i] != '/'
    ensures k > 0 ==> s[k - 1] == '/'
    decreases |s|
  {
    if s == [] then 0
    else if s[|s| - 1] == '/' then |s|
    else PartStart(s[..|s| - 1])
  }

  /** The index of the last `.` of `s`, if any. */
  function LastDot(s: string): (r: Option<nat>)
    ensures r.None? ==> forall i :: 0 <= i < |s| ==> s[i] != '.'
    ensures r.Some? ==> r.value < |s| && s[r.value] == '.' && forall i :: r.value < i < |s| ==> s[i] != '.'
    decreases |s|
  {
    if s == [] then None
    else if s[|s| - 1] == '.' then Some(|s| - 1)
    else LastDot(s[..|s| - 1])
  }

  /** `path.extname` (POSIX): from the last `.` of the last path segment to its end; the
      empty string when the segment has no `.`, starts with its only leading `.`, or is `..`. */
  function ExtName(name: string): (r: string)
    ensures r == [] || r[0] == '.'
    ensures forall i :: 0 <= i < |r| ==> r[i] != '/'
  {
    var s := TrimTrailingSlashes(name);
    var part := s[PartStart(s)..];
    match LastDot(part)
    case None => ""
    case Some(k) =>
      if k == 0 || part == ".." then "" else part[k..]
  }

  /** `/jpeg|jpg|png|gif/.test(s)`: the pattern is not anchored, so any occurrence counts. */
  predicate ImagePattern(s: string) {
    Contains(s, "jpeg") || Contains(s, "jpg") || Contains(s, "png") || Contains(s, "gif")
  }

  /** The multer `fileFilter`: the lower-cased extension and the declared mimetype must
      both match the pattern. */
  predicate FileFilter(originalName: string, mimetype: string) {
    ImagePattern(Lower(ExtName(originalName))) && ImagePattern(mimetype)
  }

  lemma {:induction false} LastDotAt(s: string, k: nat)
    requires k < |s| && s[k] == '.' && forall i :: k < i < |s| ==> s[i] != '.'
    ensures LastDot(s) == Some(k)
    decreases |s|
  {
    if k < |s| - 1 {
      LastDotAt(s[..|s| - 1], k);
    }
  }

  lemma {:induction false} PartStartNoSlash(s: string)
    requires forall i :: 0 <= i < |s| ==> s[i] != '/'
    ensures PartStart(s) == 0
    decreases |s|
  {
    if s != [] {
      PartStartNoSlash(s[..|s| - 1]);
    }
  }

  /** A plain name `base.ext` (no slash, no dot in `ext`, not starting with a dot) has the
      extension `.ext`. */
  lemma ExtNameOfDotted(base: string, ext: string)
    requires base != [] && base[0] != '.'
    requires forall i :: 0 <= i < |base| ==> base[i] != '/'
    requires forall i :: 0 <= i < |ext| ==> ext[i] != '/' && ext[i] != '.'
    ensures ExtName(base + "." + ext) == "." + ext
  {
    var s := base + "." + ext;
    assert s[|base|] == '.';
    forall i | |base| < i < |s| ensures s[i] != '.' && s[i] != '/' {
      assert s[i] == ext[i - |base| - 1];
    }
    assert s[|s| - 1] != '/';
    assert TrimTrailingSlashes(s) == s;
    PartStartNoSlash(s);
    assert s[0..] == s;
    LastDotAt(s, |base|);
    assert s[|base|..] == "." + ext;
  }

  /** A dot-file `.ext` has no extension at all. */
  lemma ExtNameOfDotFile(ext: string)
    requires forall i :: 0 <= i < |ext| ==> ext[i] != '/' && ext[i] != '.'
    ensures ExtName("." + ext) == ""
  {
    var s := "." + ext;
    forall i | 0 < i < |s| ensures s[i] != '.' && s[i] != '/' {
      assert s[i] == ext[i - 1];
    }
    assert s[|s| - 1] != '/';
    assert TrimTrailingSlashes(s) == s;
    PartStartNoSlash(s);
    assert s[0..] == s;
    LastDotAt(s, 0);
  }

  /** An image name and type are accepted, whatever the case of the extension. */
  lemma FileFilterAcceptsImages()
    ensures FileFilter("photo.PNG", "image/png")
  {
    ExtNameOfDotted("photo", "PNG");
    assert "photo" + "." + "PNG" == "photo.PNG";
    assert Lower(".PNG") == ".png";
    ContainsAt(".png", "png", 1);
    ContainsAt("image/png", "png", 6);
  }

  /** A dot-file has no extension, so it is refused whatever its type. */
  lemma FileFilterRefusesDotFile(mimetype: string)
    ensures !FileFilter(".png", mimetype)
  {
    ExtNameOfDotFile("png");
    assert "." + "png" == ".png";
    assert Lower("") == "";
  }

  /** The type alone does not admit a file. */
  lemma FileFilterNeedsBoth(name: string, mimetype: string)
    requires !ImagePattern(mimetype)
    ensures !FileFilter(name, mimetype)
  {
  }

  /** Because the pattern is unanchored, a mimetype that merely mentions an image word is
      accepted. */
  lemma FileFilterUnanchored()
    ensures FileFilter("a.png", "text/png-notes")
  {
    ExtNameOfDotted("a", "png");
    assert "a" + "." + "png" == "a.png";
    assert Lower(".png") == ".png";
    PngMentioned(".", "");
    assert "." + "png" + "" == ".png";
    assert "text/" + "png" + "-notes" == "text/png-notes";
    PngMentioned("text/", "-notes");
  }

  /** Any string with `png` inside it matches the pattern. */
  lemma PngMentioned(before: string, after: string)
    ensures ImagePattern(before + "png" + after)
  {
    var m := before + "png" + after;
    assert m[|before|..|before| + 3] == "png";
    ContainsAt(m, "png", |before|);
  }

  // ---------------------------------------------------------------------------------
  // POST /
  // ---------------------------------------------------------------------------------

  /** `Report.create(...)`: a valid draft is appended and answered with 201; an invalid one
      answers 500 and stores nothing. The draft's `files` are the uploads `FileFilter`
      accepted: multer and the server's error handler refuse a request with any other file
      before this handler runs. */
  method CreateReport(reports: Collection<Report>, d: ReportDraft, user: nat, now: int)
    returns (r: Result<Report>)
    modifies reports
    ensures NewReport(d, user, now).Err? ==> r == Err(500) && reports.docs == old(reports.docs)
    ensures NewReport(d, user, now).Ok? ==>
              r == NewReport(d, user, now) && reports.docs == old(reports.docs) + [r.value]
  {
    var n := NewReport(d, user, now);
    if n.Err? {
      r := Err(500);
    } else {
      var id := reports.Create(n.value);
      r := Ok(n.value);
    }
  }

  // ---------------------------------------------------------------------------------
  // GET /city/:city and GET /user/my-reports
  // ---------------------------------------------------------------------------------

  function CreatedAt(r: Report): int {
    r.createdAt
  }

  /** The `/city/:city` query: city pattern, public, and `type`/`status` only when given. */
  predicate CityQuery(r: Report, city: string, reportType: Option<string>, status: Option<string>) {
    && CityMatches(city, r.location.city) && r.isPublic
    && (Given(reportType) ==> TypeName(r.reportType) == reportType.value)
    && (Given(status) ==> r.status == status.value)
  }

  /** The `/user/my-reports` query: the caller's reports, and `status` only when given. */
  predicate MineQuery(r: Report, user: nat, status: Option<string>) {
    r.reportedBy == user && (Given(status) ==> r.status == status.value)
  }

  datatype Listing = Listing(reports: seq<Report>, total: nat, limit: int, skip: nat)

  /** The page of matches, newest first, with the total count of matches. */
  function ListingOf(docs: seq<Report>, q: Report -> bool, skip: nat, limit: int): Listing {
    Listing(Page(NewestFirst(Filter(docs, q), CreatedAt), skip, limit), Count(docs, q), limit, skip)
  }

  /** Every listed report satisfies the query, the reports come newest first, at most
      `limit` of them (all remaining when 0), and `total` counts every match. */
  lemma ListingOfSpec(docs: seq<Report>, q: Report -> bool, skip: nat, limit: int)
    ensures var l := ListingOf(docs, q, skip, limit);
      && (forall x :: x in l.reports ==> x in docs && q(x))
      && SortedNewestFirst(l.reports, CreatedAt)
      && l.total == |Filter(docs, q)|
      && (limit != 0 ==> |l.reports| <= if limit < 0 then -limit else limit)
      && (skip < l.total ==> skip + |l.reports| <= l.total)
  {
    var f := Filter(docs, q);
    var all := NewestFirst(f, CreatedAt);
    var page := Page(all, skip, limit);
    NewestFirstPermutes(f, CreatedAt);
    NewestFirstSorted(f, CreatedAt);
    FilterMembership(docs, q);
    FilterLength(docs, q);
    assert |all| == |f| by {
      assert |multiset(all)| == |multiset(f)|;
    }
    forall x | x in page ensures x in docs && q(x) {
      assert page == all[skip..][..|page|];
      assert x in all;
      assert x in multiset(all);
    }
    SortedSlice(all, skip, |page|);
  }

  /** A contiguous slice of a newest-first list is newest first. */
  lemma SortedSlice(s: seq<Report>, skip: nat, n: nat)
    requires SortedNewestFirst(s, CreatedAt)
    requires skip < |s| ==> n <= |s| - skip
    requires skip >= |s| ==> n == 0
    ensures SortedNewestFirst(if skip < |s| then s[skip..][..n] else [], CreatedAt)
  {
    if skip < |s| {
      var t := s[skip..][..n];
      forall i, j | 0 <= i < j < |t| ensures CreatedAt(t[i]) >= CreatedAt(t[j]) {
        assert t[i] == s[skip + i] && t[j] == s[skip + j];
      }
    }
  }

  /** `find(query).sort({ createdAt: -1 }).skip(parseInt(skip)).limit(parseInt(limit))` with
      `countDocuments(query)`. `limit` defaults to 20 and `skip` to 0; a `limit` that is not
      a number, or a `skip` that is not a non-negative number, is refused by the database
      and answers 500. */
  function Listed(docs: seq<Report>, q: Report -> bool, skip: Option<string>, limit: Option<string>)
    : (r: Result<Listing>)
    ensures r.Err? <==> Paging(skip, limit, 20).None?
    ensures r.Err? ==> r.status == 500
    ensures r.Ok? ==> r.value == ListingOf(docs, q, Paging(skip, limit, 20).value.0, Paging(skip, limit, 20).value.1)
  {
    match Paging(skip, limit, 20)
    case None => Err(500)
    case Some(p) => Ok(ListingOf(docs, q, p.0, p.1))
  }

  /** With no query parameters the first page holds the 20 newest matches; decimal
      parameters are read as written. */
  lemma ListedDefaults(docs: seq<Report>, q: Report -> bool, skip: nat, limit: nat)
    ensures Listed(docs, q, None, None) == Ok(ListingOf(docs, q, 0, 20))
    ensures Listed(docs, q, Some(DecimalString(skip)), Some(DecimalString(limit))) == Ok(ListingOf(docs, q, skip, limit))
    ensures |ListingOf(docs, q, 0, 20).reports| == Min(20, |Filter(docs, q)|)
  {
    PagingCases(skip, limit, 20);
    NewestFirstPermutes(Filter(docs, q), CreatedAt);
    assert |NewestFirst(Filter(docs, q), CreatedAt)| == |Filter(docs, q)| by {
      assert |multiset(NewestFirst(Filter(docs, q), CreatedAt))| == |multiset(Filter(docs, q))|;
    }
  }

  function CityReports(docs: seq<Report>, city: string, reportType: Option<string>, status: Option<string>,
                       skip: Option<string>, limit: Option<string>): Result<Listing>
  {
    Listed(docs, (r: Report) => CityQuery(r, city, reportType, status), skip, limit)
  }

  function MyReports(docs: seq<Report>, user: nat, status: Option<string>,
                     skip: Option<string>, limit: Option<string>): Result<Listing>
  {
    Listed(docs, (r: Report) => MineQuery(r, user, status), skip, limit)
  }

  // ---------------------------------------------------------------------------------
  // GET /nearby and GET /:id
  // ---------------------------------------------------------------------------------

  /** `GET /nearby`: 400 unless both `lat` and `lng` are given; otherwise the public reports
      (of the given `type`) that `within` places inside the radius. The great-circle
      distance is the caller's `within`. */
  function Nearby(docs: seq<Report>, lat: Option<string>, lng: Option<string>, reportType: Option<string>,
                  within: Report -> bool): (r: Result<seq<Report>>)
    ensures r.Err? <==> !Given(lat) || !Given(lng)
    ensures r.Err? ==> r.status == 400
    ensures r.Ok? ==> IsSubsequence(r.value, docs)
    ensures r.Ok? ==> forall x :: x in r.value <==>
              x in docs && x.isPublic && (Given(reportType) ==> TypeName(x.reportType) == reportType.value) && within(x)
    ensures r.Ok? ==>
      forall x :: multiset(r.value)[x] ==
        if x.isPublic && (Given(reportType) ==> TypeName(x.reportType) == reportType.value) && within(x)
        then multiset(docs)[x] else 0
  {
    if !Given(lat) || !Given(lng) then Err(400)
    else
      var p := (x: Report) => x.isPublic && (Given(reportType) ==> TypeName(x.reportType) == reportType.value) && within(x);
      FilterIsSubsequence(docs, p);
      FilterMembership(docs, p);
      FilterMultiplicity(docs, p);
      Ok(Filter(docs, p))
  }

  /** `findById`: the report with the id, or 404. */
  function ById(docs: seq<Report>, id: nat): (r: Result<Report>)
    ensures r.Err? <==> id >= |docs|
    ensures r.Err? ==> r.status == 404
    ensures r.Ok? ==> r.value == docs[id]
  {
    if id < |docs| then Ok(docs[id]) else Err(404)
  }

  // ---------------------------------------------------------------------------------
  // POST /:id/upvote
  // ---------------------------------------------------------------------------------

  predicate VotedBy(v: Upvote, user: nat) {
    v.user == user
  }

  predicate HasVoted(upvotes: seq<Upvote>, user: nat) {
    exists i :: 0 <= i < |upvotes| && upvotes[i].user == user
  }

  /** The votes of everyone but `user`. */
  function OthersVotes(upvotes: seq<Upvote>, user: nat): seq<Upvote> {
    Filter(upvotes, (v: Upvote) => !VotedBy(v, user))
  }

  /** The toggle: a user who has voted loses every vote of theirs, one who has not gains one. */
  function ToggleUpvote(upvotes: seq<Upvote>, user: nat, now: int): seq<Upvote> {
    if HasVoted(upvotes, user) then OthersVotes(upvotes, user) else upvotes + [Upvote(user, now)]
  }

  /** After the toggle, a user who had voted has no vote left; one who had not has
      exactly one, at the end, stamped now. */
  lemma ToggleFlipsVote(upvotes: seq<Upvote>, user: nat, now: int)
    ensures var t := ToggleUpvote(upvotes, user, now);
      && (HasVoted(upvotes, user) ==> !HasVoted(t, user))
      && (!HasVoted(upvotes, user) ==> |t| == |upvotes| + 1 && t[|upvotes|] == Upvote(user, now)
                                       && Count(t, (v: Upvote) => VotedBy(v, user)) == 1)
  {
    var t := ToggleUpvote(upvotes, user, now);
    var mine := (v: Upvote) => VotedBy(v, user);
    if !HasVoted(upvotes, user) {
      NoVoteNoCount(upvotes, user);
      CountAppend(upvotes, [Upvote(user, now)], mine);
      assert Count([Upvote(user, now)], mine) == 1 by {
        assert [Upvote(user, now)][1..] == [];
      }
    }
  }

  /** Other users' votes are the same, in the same order, before and after the toggle. */
  lemma ToggleKeepsOthers(upvotes: seq<Upvote>, user: nat, now: int)
    ensures OthersVotes(ToggleUpvote(upvotes, user, now), user) == OthersVotes(upvotes, user)
  {
    var others := (v: Upvote) => !VotedBy(v, user);
    if HasVoted(upvotes, user) {
      FilterIdempotent(upvotes, others);
    } else {
      FilterAppend(upvotes, [Upvote(user, now)], others);
      assert Filter([Upvote(user, now)], others) == [] by {
        assert [Upvote(user, now)][1..] == [];
      }
      assert Filter(upvotes, others) + [] == Filter(upvotes, others);
    }
  }

  /** Toggling twice restores the list of a user who had not voted. */
  lemma ToggleTwiceRestores(upvotes: seq<Upvote>, user: nat, now: int, later: int)
    requires !HasVoted(upvotes, user)
    ensures ToggleUpvote(ToggleUpvote(upvotes, user, now), user, later) == upvotes
  {
    var t := upvotes + [Upvote(user, now)];
    assert t[|upvotes|].user == user;
    var others := (v: Upvote) => !VotedBy(v, user);
    FilterAppend(upvotes, [Upvote(user, now)], others);
    assert Filter([Upvote(user, now)], others) == [] by {
      assert [Upvote(user, now)][1..] == [];
    }
    FilterAllKept(upvotes, others);
    assert Filter(upvotes, others) + [] == upvotes;
  }

  lemma {:induction false} NoVoteNoCount(upvotes: seq<Upvote>, user: nat)
    requires !HasVoted(upvotes, user)
    ensures Count(upvotes, (v: Upvote) => VotedBy(v, user)) == 0
    decreases |upvotes|
  {
    if upvotes != [] {
      NoVoteNoCount(upvotes[1..], user);
    }
  }

  lemma {:induction false} CountAppend<T>(a: seq<T>, b: seq<T>, p: T -> bool)
    ensures Count(a + b, p) == Count(a, p) + Count(b, p)
    decreases |a|
  {
    if a != [] {
      assert (a + b)[1..] == a[1..] + b;
      CountAppend(a[1..], b, p);
    } else {
      assert a + b == b;
    }
  }

  lemma {:induction false} FilterIdempotent<T>(s: seq<T>, p: T -> bool)
    ensures Filter(Filter(s, p), p) == Filter(s, p)
    decreases |s|
  {
    if s != [] {
      FilterIdempotent(s[1..], p);
      var f := Filter(s, p);
      if p(s[0]) {
        assert f == [s[0]] + Filter(s[1..], p);
        assert f[1..] == Filter(s[1..], p);
        assert Filter(f, p) == [f[0]] + Filter(f[1..], p);
      } else {
        assert f == Filter(s[1..], p);
      }
    }
  }

  datatype UpvoteAnswer = UpvoteAnswer(removed: bool, upvoteCount: nat)

  /** `POST /:id/upvote`: 404 for an unknown id; otherwise the toggle, then `save()`, which
      validates the whole report (a status left outside the enum by an earlier update makes
      it throw, answering 500 with nothing saved). The count is the new list's length. */
  method ToggleVote(reports: Collection<Report>, id: nat, user: nat, now: int) returns (r: Result<UpvoteAnswer>)
    modifies reports
    ensures id >= |old(reports.docs)| ==> r == Err(404) && reports.docs == old(reports.docs)
    ensures id < |old(reports.docs)| && !SaveValid(old(reports.docs)[id]) ==>
              r == Err(500) && reports.docs == old(reports.docs)
    ensures id < |old(reports.docs)| && SaveValid(old(reports.docs)[id]) ==>
              var d := old(reports.docs)[id];
              var t := ToggleUpvote(d.upvotes, user, now);
              && reports.docs == old(reports.docs)[id := d.(upvotes := t)]
              && r == Ok(UpvoteAnswer(HasVoted(d.upvotes, user), |t|))
  {
    if id >= |reports.docs| {
      r := Err(404);
      return;
    }
    var d := reports.docs[id];
    var already := HasVoted(d.upvotes, user);
    var upvotes := d.upvotes;
    if already {
      upvotes := OthersVotes(upvotes, user);
    } else {
      upvotes := upvotes + [Upvote(user, now)];
    }
    var updated := d.(upvotes := upvotes);
    if !SaveValid(updated) {
      r := Err(500);
      return;
    }
    reports.docs := reports.docs[id := updated];
    r := Ok(UpvoteAnswer(already, |upvotes|));
  }

  // ---------------------------------------------------------------------------------
  // POST /:id/comments, PUT /:id/status, PUT /:id/assign
  // ---------------------------------------------------------------------------------

  /** `findByIdAndUpdate(id, { $push: { comments } })`: 404 for an unknown id; otherwise
      exactly one comment is appended and the whole list answered. */
  method AddComment(reports: Collection<Report>, id: nat, user: nat, text: Option<string>, now: int)
    returns (r: Result<seq<Comment>>)
    modifies reports
    ensures id >= |old(reports.docs)| ==> r == Err(404) && reports.docs == old(reports.docs)
    ensures id < |old(reports.docs)| ==>
              var d := old(reports.docs)[id];
              var cs := d.comments + [Comment(user, text, now)];
              && reports.docs == old(reports.docs)[id := d.(comments := cs)]
              && r == Ok(cs)
  {
    if id >= |reports.docs| {
      r := Err(404);
    } else {
      var d := reports.docs[id];
      var updated := d.(comments := d.comments + [Comment(user, text, now)]);
      reports.docs := reports.docs[id := updated];
      r := Ok(updated.comments);
    }
  }

  /** The `updateData` of the status handler: the status, plus `verifiedBy` for `verified`
      and a `resolution` for `resolved`. The update runs no validator. */
  function StatusUpdate(d: Report, status: string, user: nat, resolutionDescription: Option<string>, now: int)
    : (r: Report)
  {
    if status == "verified" then d.(status := status, verifiedBy := Some(user))
    else if status == "resolved" then d.(status := status, resolution := Some(Resolution(resolutionDescription, now, user)))
    else d.(status := status)
  }

  /** Only the status changes, except that `verified` also records the verifier and
      `resolved` also records the resolution. */
  lemma StatusUpdateChanges(d: Report, status: string, user: nat, resolutionDescription: Option<string>, now: int)
    ensures var r := StatusUpdate(d, status, user, resolutionDescription, now);
      && r.status == status
      && r.verifiedBy == (if status == "verified" then Some(user) else d.verifiedBy)
      && r.resolution == (if status == "resolved" then Some(Resolution(resolutionDescription, now, user)) else d.resolution)
      && r == d.(status := r.status, verifiedBy := r.verifiedBy, resolution := r.resolution)
  {
  }

  method UpdateStatus(reports: Collection<Report>, id: nat, status: string, user: nat,
                      resolutionDescription: Option<string>, now: int)
    returns (r: Result<Report>)
    modifies reports
    ensures id >= |old(reports.docs)| ==> r == Err(404) && reports.docs == old(reports.docs)
    ensures id < |old(reports.docs)| ==>
              var u := StatusUpdate(old(reports.docs)[id], status, user, resolutionDescription, now);
              reports.docs == old(reports.docs)[id := u] && r == Ok(u)
  {
    if id >= |reports.docs| {
      r := Err(404);
    } else {
      var u := StatusUpdate(reports.docs[id], status, user, resolutionDescription, now);
      reports.docs := reports.docs[id := u];
      r := Ok(u);
    }
  }

  /** `findByIdAndUpdate(id, { assignedTo, status: 'in_progress' })`. */
  method Assign(reports: Collection<Report>, id: nat, assignedTo: Option<nat>) returns (r: Result<Report>)
    modifies reports
    ensures id >= |old(reports.docs)| ==> r == Err(404) && reports.docs == old(reports.docs)
    ensures id < |old(reports.docs)| ==>
              var u := old(reports.docs)[id].(assignedTo := assignedTo, status := "in_progress");
              reports.docs == old(reports.docs)[id := u] && r == Ok(u)
  {
    if id >= |reports.docs| {
      r := Err(404);
    } else {
      var u := reports.docs[id].(assignedTo := assignedTo, status := "in_progress");
      reports.docs := reports.docs[id := u];
      r := Ok(u);
    }
  }

  /** Only the free-form status update can leave a report that `save()` refuses; an
      assignment always leaves a valid status. */
  lemma AssignKeepsSaveValid(d: Report, assignedTo: Option<nat>)
    ensures SaveValid(d.(assignedTo := assignedTo, status := "in_progress"))
  {
  }

  /** A status outside the enum is stored by the status update, and then blocks every upvote. */
  lemma InvalidStatusBlocksUpvote(d: Report, user: nat, now: int)
    ensures !SaveValid(StatusUpdate(d, "closed", user, None, now))
  {
  }
}
