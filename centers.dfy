/** The list of nearby recycling and scrap centers built from an Overpass
    API answer: each element becomes a center through field fallbacks, the
    ones without numeric coordinates are dropped, the rest are ranked by
    their distance from the user and the nearest eight are kept. The
    distance is a parameter (the great-circle formula is floating-point
    trigonometry); the answer is a parsed JSON value. */
module NearbyCenters {
  import opened Wrappers
  import opened StableSort

  // ---------------------------------------------------------------------
  // JavaScript values read from the parsed answer
  // ---------------------------------------------------------------------

  /** A parsed JSON value, plus `undefined` for a member that is absent.
      A number is an exact real; the infinities that `JSON.parse` gives for
      out-of-range literals are not among the values. */
  datatype Json =
    | Undefined
    | Null
    | Bool(b: bool)
    | Num(n: real)
    | Str(s: string)
    | Arr(items: seq<Json>)
    | Obj(members: map<string, Json>)

  predicate Nullish(v: Json)
  {
    v.Undefined? || v.Null?
  }

  /** JavaScript truthiness: `undefined`, `null`, `false`, `0` and `""`
      are falsy. */
  predicate Truthy(v: Json)
  {
    match v
    case Undefined => false
    case Null => false
    case Bool(b) => b
    case Num(n) => n != 0.0
    case Str(s) => s != ""
    case Arr(_) => true
    case Obj(_) => true
  }

  /** `v.key` on a value that is neither null nor undefined. Only objects
      have the members read here. */
  function Member(v: Json, key: string): Json
    requires !Nullish(v)
  {
    if v.Obj? && key in v.members then v.members[key] else Undefined
  }

  /** `v?.key`. */
  function OptMember(v: Json, key: string): Json
  {
    if Nullish(v) then Undefined else Member(v, key)
  }

  /** `a || b`. */
  function Or(a: Json, b: Json): Json
  {
    if Truthy(a) then a else b
  }

  /** `a ?? b`. */
  function Coalesce(a: Json, b: Json): Json
  {
    if Nullish(a) then b else a
  }

  // ---------------------------------------------------------------------
  // Element -> center
  // ---------------------------------------------------------------------

  const DefaultName: Json := Str("Recycling / Scrap Center")

  /** The object built for one element, before the coordinate filter. */
  datatype Entry = Entry(id: Json, name: Json, lat: Json, lon: Json, phone: Json)

  /** The mapping of one element. Reading `el.id` of a null element throws,
      hence the precondition; NormaliseAll models that throw. */
  function Normalise(el: Json): Entry
    requires !Nullish(el)
  {
    var tags := Member(el, "tags");
    var center := Member(el, "center");
    Entry(
      Member(el, "id"),
      Or(OptMember(tags, "name"), Or(OptMember(tags, "operator"), DefaultName)),
      Coalesce(Member(el, "lat"), OptMember(center, "lat")),
      Coalesce(Member(el, "lon"), OptMember(center, "lon")),
      Or(OptMember(tags, "phone"), Or(OptMember(tags, "contact:phone"), Undefined)))
  }

  /** The name falls through `tags.name`, then `tags.operator`, to the
      default name, skipping falsy values; so it is never falsy. */
  lemma NameFallback(el: Json)
    requires !Nullish(el)
    ensures var tags := Member(el, "tags"); var name := Normalise(el).name;
      && Truthy(name)
      && (Truthy(OptMember(tags, "name")) ==> name == OptMember(tags, "name"))
      && (!Truthy(OptMember(tags, "name")) && Truthy(OptMember(tags, "operator")) ==>
            name == OptMember(tags, "operator"))
      && (!Truthy(OptMember(tags, "name")) && !Truthy(OptMember(tags, "operator")) ==> name == DefaultName)
  {
  }

  /** The phone is `tags.phone`, else `tags["contact:phone"]`, skipping
      falsy values, else undefined: it is undefined or truthy. */
  lemma PhoneFallback(el: Json)
    requires !Nullish(el)
    ensures var tags := Member(el, "tags"); var phone := Normalise(el).phone;
      && (phone == Undefined || Truthy(phone))
      && (Truthy(OptMember(tags, "phone")) ==> phone == OptMember(tags, "phone"))
      && (!Truthy(OptMember(tags, "phone")) ==>
            phone == if Truthy(OptMember(tags, "contact:phone")) then OptMember(tags, "contact:phone") else Undefined)
  {
  }

  /** A coordinate is the element's own one unless that is null or
      undefined, and then the one of its `center`; a present value is kept
      whatever its type, even when `center` has a number. */
  lemma CoordinatesPreferOwn(el: Json)
    requires !Nullish(el)
    ensures var e := Normalise(el); var center := Member(el, "center");
      && (!Nullish(Member(el, "lat")) ==> e.lat == Member(el, "lat"))
      && (Nullish(Member(el, "lat")) ==> e.lat == OptMember(center, "lat"))
      && (!Nullish(Member(el, "lon")) ==> e.lon == Member(el, "lon"))
      && (Nullish(Member(el, "lon")) ==> e.lon == OptMember(center, "lon"))
  {
  }

  /** An element mapped without throwing: the map callback throws on the
      first null element, and then nothing is returned. */
  function NormaliseAll(items: seq<Json>): (r: Option<seq<Entry>>)
    ensures r.Some? <==> forall k | 0 <= k < |items| :: !Nullish(items[k])
    ensures r.Some? ==> |r.value| == |items| && forall k | 0 <= k < |items| :: r.value[k] == Normalise(items[k])
  {
    if items == [] then Some([])
    else if Nullish(items[0]) then None
    else match NormaliseAll(items[1..])
      case None => None
      case Some(rest) => Some([Normalise(items[0])] + rest)
  }

  // ---------------------------------------------------------------------
  // Coordinate filter
  // ---------------------------------------------------------------------

  /** A center that passed the `typeof === "number"` test on both
      coordinates. */
  datatype Center = Center(id: Json, name: Json, lat: real, lon: real, phone: Json)

  predicate HasCoordinates(e: Entry)
  {
    e.lat.Num? && e.lon.Num?
  }

  function AsCenter(e: Entry): Center
    requires HasCoordinates(e)
  {
    Center(e.id, e.name, e.lat.n, e.lon.n, e.phone)
  }

  /** The entries with numeric coordinates, in order. */
  function Located(es: seq<Entry>): (cs: seq<Center>)
    ensures |cs| <= |es|
    ensures forall c | c in cs :: exists k | 0 <= k < |es| :: HasCoordinates(es[k]) && c == AsCenter(es[k])
    ensures forall k | 0 <= k < |es| && HasCoordinates(es[k]) :: AsCenter(es[k]) in cs
  {
    if es == [] then []
    else
      var rest := Located(es[1..]);
      assert forall k | 1 <= k < |es| :: es[k] == es[1..][k - 1];
      if HasCoordinates(es[0]) then [AsCenter(es[0])] + rest else rest
  }

  /** An entry without numeric coordinates contributes nothing. */
  lemma {:induction false} LocatedSkips(es: seq<Entry>, e: Entry)
    requires !HasCoordinates(e)
    ensures Located([e] + es) == Located(es)
  {
    assert ([e] + es)[1..] == es;
  }

  /** The filter keeps the order of its input: filtering a concatenation
      is concatenating the filtered parts. */
  lemma {:induction false} LocatedAppend(a: seq<Entry>, b: seq<Entry>)
    ensures Located(a + b) == Located(a) + Located(b)
    decreases |a|
  {
    if a == [] {
      assert a + b == b;
    } else {
      assert (a + b)[0] == a[0] && (a + b)[1..] == a[1..] + b;
      LocatedAppend(a[1..], b);
    }
  }

  /** A single entry is kept, once, exactly when both its coordinates are
      numbers. With LocatedAppend this determines the filter. */
  lemma LocatedSingle(e: Entry)
    ensures Located([e]) == if HasCoordinates(e) then [AsCenter(e)] else []
  {
    assert [e][1..] == [];
  }

  /** The positions of the entries with numeric coordinates, from first
      to last. */
  function LocatedPositions(es: seq<Entry>): (idx: seq<nat>)
    ensures forall i | 0 <= i < |idx| :: idx[i] < |es|
    decreases |es|
  {
    if es == [] then []
    else
      var n := |es| - 1;
      var t := LocatedPositions(es[..n]);
      if HasCoordinates(es[n]) then t + [n] else t
  }

  /** The filter's result is the entries at those positions, in that
      order: one center per position, the i-th from the i-th position. */
  lemma {:induction false} LocatedAtPositions(es: seq<Entry>)
    ensures |LocatedPositions(es)| == |Located(es)|
    ensures forall i | 0 <= i < |Located(es)| ::
              var k := LocatedPositions(es)[i];
              HasCoordinates(es[k]) && Located(es)[i] == AsCenter(es[k])
    decreases |es|
  {
    if es != [] {
      var n := |es| - 1;
      var p, t := es[..n], LocatedPositions(es[..n]);
      LocatedAtPositions(p);
      assert p + [es[n]] == es;
      LocatedAppend(p, [es[n]]);
      LocatedSingle(es[n]);
      assert forall i | 0 <= i < |t| :: p[t[i]] == es[t[i]];
    }
  }

  /** The positions increase strictly, so no entry is kept twice and the
      kept ones stay in input order. */
  lemma {:induction false} LocatedPositionsIncrease(es: seq<Entry>)
    ensures forall i, j | 0 <= i < j < |LocatedPositions(es)| ::
              LocatedPositions(es)[i] < LocatedPositions(es)[j]
    decreases |es|
  {
    if es != [] {
      LocatedPositionsIncrease(es[..|es| - 1]);
    }
  }

  /** Every entry with numeric coordinates has its position listed. */
  lemma {:induction false} LocatedPositionsComplete(es: seq<Entry>)
    ensures forall k | 0 <= k < |es| && HasCoordinates(es[k]) :: k in LocatedPositions(es)
    decreases |es|
  {
    if es != [] {
      var n := |es| - 1;
      LocatedPositionsComplete(es[..n]);
      assert forall k | 0 <= k < n :: es[..n][k] == es[k];
    }
  }

  // ---------------------------------------------------------------------
  // Ranking and truncation
  // ---------------------------------------------------------------------

  /** A center with its distance from the user, `{ ...c, distance }`. */
  datatype Ranked = Ranked(center: Center, distance: real)

  function DistanceOf(r: Ranked): real
  {
    r.distance
  }

  /** How many centers are shown. */
  const MaxShown: nat := 8

  /** `distance(lat, lon)` is the distance of a point from the user. */
  function Rank(cs: seq<Center>, distance: (real, real) -> real): (rs: seq<Ranked>)
    ensures |rs| == |cs|
    ensures forall k | 0 <= k < |cs| :: rs[k] == Ranked(cs[k], distance(cs[k].lat, cs[k].lon))
  {
    seq(|cs|, k requires 0 <= k < |cs| => Ranked(cs[k], distance(cs[k].lat, cs[k].lon)))
  }

  /** `list.map(...).sort((a, b) => a.distance - b.distance).slice(0, 8)`. */
  function Nearest(cs: seq<Center>, distance: (real, real) -> real): seq<Ranked>
  {
    var sorted := SortBy(Rank(cs, distance), DistanceOf);
    SortBySortsAndPermutes(Rank(cs, distance), DistanceOf);
    sorted[..if |sorted| < MaxShown then |sorted| else MaxShown]
  }

  /** `data?.elements || []`: None when the elements are truthy but not an
      array, where calling `.map` on them throws. */
  function Elements(data: Json): (r: Option<seq<Json>>)
    ensures !Truthy(OptMember(data, "elements")) ==> r == Some([])
  {
    var e := OptMember(data, "elements");
    if !Truthy(e) then Some([])
    else if e.Arr? then Some(e.items)
    else None
  }

  /** The list the component shows for a parsed answer, or None when
      building it throws (the catch branch then leaves the list as it was). */
  function FetchCenters(data: Json, distance: (real, real) -> real): Option<seq<Ranked>>
  {
    match Elements(data)
    case None => None
    case Some(items) =>
      match NormaliseAll(items)
      case None => None
      case Some(entries) => Some(Nearest(Located(entries), distance))
  }

  // ---------------------------------------------------------------------
  // Properties
  // ---------------------------------------------------------------------

  /** An answer without elements gives an empty list. */
  lemma NoElementsNoCenters(data: Json, distance: (real, real) -> real)
    requires !Truthy(OptMember(data, "elements"))
    ensures FetchCenters(data, distance) == Some([])
  {
    assert Located([]) == [];
    assert Rank([], distance) == [];
  }

  /** Building the list throws exactly when the elements are truthy but not
      an array, or one of them is null. */
  lemma FetchFailsOnlyOnMalformedElements(data: Json, distance: (real, real) -> real)
    ensures FetchCenters(data, distance).None? <==>
      var e := OptMember(data, "elements");
      Truthy(e) && (!e.Arr? || exists k | 0 <= k < |e.items| :: Nullish(e.items[k]))
  {
  }

  /** At most eight centers are shown, and fewer only when fewer have
      coordinates. */
  lemma NearestLength(cs: seq<Center>, distance: (real, real) -> real)
    ensures |Nearest(cs, distance)| == if |cs| < MaxShown then |cs| else MaxShown
  {
    SortBySortsAndPermutes(Rank(cs, distance), DistanceOf);
  }

  /** The shown centers are in non-decreasing order of distance, each with
      its own distance. */
  lemma NearestSorted(cs: seq<Center>, distance: (real, real) -> real)
    ensures SortedBy(Nearest(cs, distance), DistanceOf)
    ensures forall r | r in Nearest(cs, distance) :: r.distance == distance(r.center.lat, r.center.lon)
  {
    var rs := Rank(cs, distance);
    var sorted := SortBy(rs, DistanceOf);
    SortBySortsAndPermutes(rs, DistanceOf);
    forall r | r in Nearest(cs, distance)
      ensures r.distance == distance(r.center.lat, r.center.lon)
    {
      assert r in sorted;
      assert r in multiset(rs);
    }
  }

  /** The shown centers come from the located ones, and every center left
      out is at least as far as every center shown. */
  lemma NearestAreNearest(cs: seq<Center>, distance: (real, real) -> real)
    ensures multiset(Nearest(cs, distance)) <= multiset(Rank(cs, distance))
    ensures forall x, y | x in multiset(Rank(cs, distance)) - multiset(Nearest(cs, distance)) && y in Nearest(cs, distance) ::
      y.distance <= x.distance
  {
    var rs := Rank(cs, distance);
    var sorted := SortBy(rs, DistanceOf);
    SortBySortsAndPermutes(rs, DistanceOf);
    var n := if |sorted| < MaxShown then |sorted| else MaxShown;
    assert sorted == sorted[..n] + sorted[n..];
    assert Nearest(cs, distance) == sorted[..n];
    assert multiset(rs) == multiset(sorted[..n]) + multiset(sorted[n..]);
    forall x, y | x in multiset(rs) - multiset(sorted[..n]) && y in sorted[..n]
      ensures y.distance <= x.distance
    {
      assert x in sorted[n..];
      var i :| 0 <= i < n && sorted[i] == y;
      var j :| 0 <= j < |sorted[n..]| && sorted[n..][j] == x;
      assert sorted[n + j] == x;
    }
  }

  /** Centers at the same distance are shown in the order of the answer:
      those shown are the first ones of that distance. */
  lemma NearestStable(cs: seq<Center>, distance: (real, real) -> real, d: real)
    ensures var shown := WithKey(Nearest(cs, distance), DistanceOf, d);
      var all := WithKey(Rank(cs, distance), DistanceOf, d);
      |shown| <= |all| && shown == all[..|shown|]
  {
    var rs := Rank(cs, distance);
    var sorted := SortBy(rs, DistanceOf);
    SortBySortsAndPermutes(rs, DistanceOf);
    SortByStable(rs, DistanceOf, d);
    var n := if |sorted| < MaxShown then |sorted| else MaxShown;
    assert sorted == sorted[..n] + sorted[n..];
    WithKeyAppend(sorted[..n], sorted[n..], DistanceOf, d);
  }

  /** Every shown center has numeric coordinates taken from an element:
      an element whose `lat ?? center.lat` or `lon ?? center.lon` is not a
      number is never shown. How many are shown is NearestLength's and
      LocatedAtPositions' concern, which are nearer is NearestAreNearest's. */
  lemma ShownCentersAreLocated(data: Json, distance: (real, real) -> real)
    requires FetchCenters(data, distance).Some?
    ensures var items := Elements(data).value; var entries := NormaliseAll(items).value;
      && Elements(data).Some? && NormaliseAll(items).Some?
      && FetchCenters(data, distance).value == Nearest(Located(entries), distance)
      && (forall r | r in FetchCenters(data, distance).value ::
            exists k | 0 <= k < |items| :: HasCoordinates(Normalise(items[k])) && r.center == AsCenter(Normalise(items[k])))
  {
    var items := Elements(data).value;
    var entries := NormaliseAll(items).value;
    var cs := Located(entries);
    var rs := Rank(cs, distance);
    NearestAreNearest(cs, distance);
    forall r | r in Nearest(cs, distance)
      ensures exists k | 0 <= k < |items| :: HasCoordinates(Normalise(items[k])) && r.center == AsCenter(Normalise(items[k]))
    {
      assert r in multiset(rs);
      var i :| 0 <= i < |rs| && rs[i] == r;
      assert cs[i] in cs;
    }
  }
}
