/** The frontend location catalogue: states with their districts, flattened into searchable
    locations, the search box's matching and the lookup by name. */
module Locations {
  import opened Wrappers
  import opened Text
  import opened Store

  datatype District = District(name: string, lat: real, lng: real)

  datatype State = State(name: string, code: string, districts: seq<District>)

  datatype Location = Location(name: string, state: string, stateCode: string, lat: real, lng: real,
                               fullName: string)

  /** The entry of one district of a state; the full name is `"<district>, <state>"`. */
  function Entry(st: State, d: District): Location {
    Location(d.name, st.name, st.code, d.lat, d.lng, d.name + ", " + st.name)
  }

  /** The entries of one state's districts, in district order. */
  function Entries(st: State): (r: seq<Location>)
    ensures |r| == |st.districts|
    ensures forall j :: 0 <= j < |r| ==> r[j] == Entry(st, st.districts[j])
  {
    seq(|st.districts|, j requires 0 <= j < |st.districts| => Entry(st, st.districts[j]))
  }

  /** All entries, state by state and, within a state, district by district. */
  function Flatten(states: seq<State>): seq<Location>
    decreases |states|
  {
    if states == [] then [] else Flatten(states[..|states| - 1]) + Entries(states[|states| - 1])
  }

  function DistrictCount(states: seq<State>): nat
    decreases |states|
  {
    if states == [] then 0 else DistrictCount(states[..|states| - 1]) + |states[|states| - 1].districts|
  }

  /** `getAllLocations()`: the `forEach` over states and, inside, over districts, pushing one
      entry per district. */
  method GetAllLocations(states: seq<State>) returns (locations: seq<Location>)
    ensures locations == Flatten(states)
  {
    locations := [];
    var i := 0;
    while i < |states|
      invariant 0 <= i <= |states|
      invariant locations == Flatten(states[..i])
    {
      var st := states[i];
      var j := 0;
      while j < |st.districts|
        invariant 0 <= j <= |st.districts|
        invariant locations == Flatten(states[..i]) + Entries(st)[..j]
      {
        locations := locations + [Entry(st, st.districts[j])];
        assert Entries(st)[..j + 1] == Entries(st)[..j] + [Entries(st)[j]];
        j := j + 1;
      }
      assert Entries(st)[..j] == Entries(st);
      assert states[..i + 1][..i] == states[..i];
      i := i + 1;
    }
    assert states[..i] == states;
  }

  /** There is one entry per district, and the entries are exactly the districts paired with
      their states. */
  lemma {:induction false} FlattenSpec(states: seq<State>)
    ensures |Flatten(states)| == DistrictCount(states)
    ensures forall loc :: loc in Flatten(states) <==>
              exists i, j :: 0 <= i < |states| && 0 <= j < |states[i].districts| && loc == Entry(states[i], states[i].districts[j])
    decreases |states|
  {
    if states != [] {
      var init := states[..|states| - 1];
      var last := states[|states| - 1];
      FlattenSpec(init);
      var e := Entries(last);
      forall loc | loc in Flatten(states)
        ensures exists i, j :: 0 <= i < |states| && 0 <= j < |states[i].districts| && loc == Entry(states[i], states[i].districts[j])
      {
        if loc in Flatten(init) {
          var i, j :| 0 <= i < |init| && 0 <= j < |init[i].districts| && loc == Entry(init[i], init[i].districts[j]);
          assert init[i] == states[i];
        } else {
          assert loc in e;
          var j :| 0 <= j < |e| && e[j] == loc;
          assert loc == Entry(states[|states| - 1], states[|states| - 1].districts[j]);
        }
      }
      forall loc | exists i, j :: 0 <= i < |states| && 0 <= j < |states[i].districts| && loc == Entry(states[i], states[i].districts[j])
        ensures loc in Flatten(states)
      {
        var i, j :| 0 <= i < |states| && 0 <= j < |states[i].districts| && loc == Entry(states[i], states[i].districts[j]);
        if i < |init| {
          assert init[i] == states[i];
          assert loc in Flatten(init);
        } else {
          assert e[j] == loc;
        }
      }
    }
  }

  /** The full name joins the district and the state with a comma and a space. */
  lemma FullNameShape(st: State, d: District)
    ensures var loc := Entry(st, d);
      && loc.fullName == loc.name + ", " + loc.state
      && IsPrefix(loc.name, loc.fullName)
      && |loc.fullName| == |d.name| + 2 + |st.name|
  {
    var f := d.name + ", " + st.name;
    assert f[..|d.name|] == d.name;
  }

  // ---------------------------------------------------------------------------------
  // searchLocations
  // ---------------------------------------------------------------------------------

  /** `s.toLowerCase().replace(/\s+/g, '')`. */
  function Squeezed(s: string): string {
    StripWhitespace(Lower(s))
  }

  /** The search predicate: the squeezed query in the squeezed name, state or full name, or
      the lower-cased query in the lower-cased name or state. */
  predicate SearchMatch(query: string, loc: Location) {
    var q := Squeezed(query);
    || Contains(Squeezed(loc.name), q)
    || Contains(Squeezed(loc.state), q)
    || Contains(Squeezed(loc.fullName), q)
    || Contains(Lower(loc.name), Lower(query))
    || Contains(Lower(loc.state), Lower(query))
  }

  const MaxResults: nat := 15

  /** The entries the search predicate accepts, kept in catalogue order (`filter`). */
  function Matching(states: seq<State>, query: string): (m: seq<Location>)
    ensures IsSubsequence(m, Flatten(states))
    ensures forall x :: x in m <==> x in Flatten(states) && SearchMatch(query, x)
    ensures forall x :: multiset(m)[x] == if SearchMatch(query, x) then multiset(Flatten(states))[x] else 0
  {
    var all := Flatten(states);
    var p := (loc: Location) => SearchMatch(query, loc);
    FilterIsSubsequence(all, p);
    FilterMembership(all, p);
    FilterMultiplicity(all, p);
    Filter(all, p)
  }

  /** `searchLocations(query)`: nothing for a query shorter than two characters, otherwise
      the first 15 matching entries in catalogue order (`.slice(0, 15)`). */
  function SearchLocations(states: seq<State>, query: string): (r: seq<Location>)
    ensures |query| < 2 ==> r == []
    ensures |query| >= 2 ==> r == Matching(states, query)[..Min(MaxResults, |Matching(states, query)|)]
    ensures |r| <= MaxResults
    ensures forall x :: x in r ==> x in Flatten(states) && SearchMatch(query, x)
    ensures IsSubsequence(r, Flatten(states))
  {
    if |query| < 2 then []
    else
      var m := Matching(states, query);
      var r := Take(m, MaxResults);
      TakeIsSubsequence(m, MaxResults);
      SubsequenceTrans(r, m, Flatten(states));
      assert forall x :: x in r ==> x in m;
      r
  }

  lemma TakeIsSubsequence<T>(s: seq<T>, n: nat)
    ensures IsSubsequence(Take(s, n), s)
  {
    var t := Take(s, n);
    PrefixIsSubsequence(t, s);
  }

  lemma {:induction false} PrefixIsSubsequence<T>(a: seq<T>, s: seq<T>)
    requires |a| <= |s| && a == s[..|a|]
    ensures IsSubsequence(a, s)
    decreases |s|
  {
    if a != [] {
      assert a[1..] == s[1..][..|a| - 1];
      PrefixIsSubsequence(a[1..], s[1..]);
    }
  }

  /** Nothing is left out unless the 15 slots are full: with fewer than 15 matches, every
      matching entry is listed. */
  lemma SearchComplete(states: seq<State>, query: string, loc: Location)
    requires |query| >= 2 && loc in Flatten(states) && SearchMatch(query, loc)
    ensures loc !in SearchLocations(states, query) ==> |SearchLocations(states, query)| == MaxResults
  {
    var all := Flatten(states);
    var p := (l: Location) => SearchMatch(query, l);
    FilterMembership(all, p);
    assert loc in Filter(all, p);
  }

  /** The query's case does not matter. */
  lemma SearchIgnoresCase(states: seq<State>, query: string)
    ensures SearchLocations(states, Lower(query)) == SearchLocations(states, query)
  {
    LowerIdempotent(query);
    if |query| >= 2 {
      FilterExt(Flatten(states), (loc: Location) => SearchMatch(Lower(query), loc), (loc: Location) => SearchMatch(query, loc));
    }
  }

  /** A query of two or more blanks squeezes to nothing, which every entry contains: the
      first fifteen entries come back. */
  lemma BlankQueryListsFirst(states: seq<State>, query: string)
    requires |query| >= 2 && forall i :: 0 <= i < |query| ==> IsWhitespace(query[i])
    ensures SearchLocations(states, query) == Take(Flatten(states), MaxResults)
  {
    var q := Squeezed(query);
    StripAllWhitespace(Lower(query));
    var all := Flatten(states);
    var p := (loc: Location) => SearchMatch(query, loc);
    forall i | 0 <= i < |all| ensures p(all[i]) {
      ContainsTrivial(Squeezed(all[i].name));
    }
    FilterAllKept(all, p);
  }

  // ---------------------------------------------------------------------------------
  // getLocationByName
  // ---------------------------------------------------------------------------------

  predicate NamedBy(loc: Location, name: string) {
    Lower(loc.name) == Lower(name) || Lower(loc.fullName) == Lower(name)
  }

  /** `k` is the first position of `all` named by `name`. */
  predicate FirstNamed(all: seq<Location>, name: string, k: int) {
    0 <= k < |all| && NamedBy(all[k], name) && forall i :: 0 <= i < k ==> !NamedBy(all[i], name)
  }

  /** `getLocationByName(name)`: the first entry whose name or full name equals `name` up to
      case, or nothing. */
  function GetLocationByName(states: seq<State>, name: string): (r: Option<Location>)
    ensures r.None? <==> forall x :: x in Flatten(states) ==> !NamedBy(x, name)
    ensures r.Some? ==> r.value in Flatten(states) && NamedBy(r.value, name)
    ensures r.Some? ==> exists k :: FirstNamed(Flatten(states), name, k) && Flatten(states)[k] == r.value
  {
    var all := Flatten(states);
    var k := FirstIndex(all, (loc: Location) => NamedBy(loc, name));
    if k.None? then None else Some(all[k.value])
  }

  /** A name the lookup resolves, if at least two characters long, is also offered by the
      search, unless the fifteen slots are already taken. */
  lemma LookupIsSearchable(states: seq<State>, name: string)
    requires |name| >= 2 && GetLocationByName(states, name).Some?
    ensures var loc := GetLocationByName(states, name).value;
      loc in SearchLocations(states, name) || |SearchLocations(states, name)| == MaxResults
  {
    var loc := GetLocationByName(states, name).value;
    if Lower(loc.name) == Lower(name) {
      ContainsTrivial(Lower(loc.name));
    } else {
      ContainsTrivial(Lower(loc.fullName));
      assert Contains(Squeezed(loc.fullName), Squeezed(name)) by {
        ContainsTrivial(Squeezed(loc.fullName));
      }
    }
    SearchComplete(states, name, loc);
  }
}
