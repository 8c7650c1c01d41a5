/** The structural transform: rebuild a geometry of the same shape with every
    coordinate pair passed through the caller's mapping. `TransformGeom` is the
    specification; `TransformCoordSeq` and `TransformGeomTraced` are the
    step-by-step procedures, which also return the arguments the mapping was
    called with, in call order. */
module Transform {
  import opened Shapes

  /** The position rewritten by one call: x from component 0, y from component 1. */
  function Apply(f: Mapping, c: Coord): Coord
  {
    Coord(f(c.x, c.y).0, f(c.x, c.y).1)
  }

  function MapCoords(f: Mapping, s: seq<Coord>): (r: seq<Coord>)
    ensures |r| == |s|
    ensures forall i :: 0 <= i < |s| ==> r[i] == Apply(f, s[i])
  {
    seq(|s|, i requires 0 <= i < |s| => Apply(f, s[i]))
  }

  /** The mapped copy of a coordinate sequence: same dimension count, position i
      holds the mapping of position i. */
  function MapCoordSeq(f: Mapping, cs: CoordSeq): CoordSeq
  {
    CoordSeq(cs.dims, MapCoords(f, cs.coords))
  }

  function MapRings(f: Mapping, rings: seq<CoordSeq>): (r: seq<CoordSeq>)
    ensures |r| == |rings|
    ensures forall i :: 0 <= i < |rings| ==> r[i] == MapCoordSeq(f, rings[i])
  {
    seq(|rings|, i requires 0 <= i < |rings| => MapCoordSeq(f, rings[i]))
  }

  /** The transform of a geometry, or None (the null result) when some part of it
      is of a kind the transform does not handle. */
  function TransformGeom(f: Mapping, g: Geom): (r: Option<Geom>)
    ensures r.Some? <==> Supported(g)
    ensures r.Some? ==> SameShape(g, r.value)
  {
    match g
    case Point(cs) => Some(Point(MapCoordSeq(f, cs)))
    case LineString(cs) => Some(LineString(MapCoordSeq(f, cs)))
    case LinearRing(cs) => Some(LinearRing(MapCoordSeq(f, cs)))
    case Polygon(shell, holes) => Some(Polygon(MapCoordSeq(f, shell), MapRings(f, holes)))
    case Collection(k, ms) =>
      if forall i :: 0 <= i < |ms| ==> Supported(ms[i]) then
        Some(Collection(k, seq(|ms|, i requires 0 <= i < |ms| && Supported(ms[i]) => TransformGeom(f, ms[i]).value)))
      else
        None
    case Other(_) => None
  }

  /** Clone the sequence, then overwrite each position, in ascending order, with
      the mapping of its original value. `calls` lists the arguments of the
      mapping calls in the order they are made. */
  method TransformCoordSeq(f: Mapping, cs: CoordSeq) returns (out: CoordSeq, calls: seq<Coord>)
    ensures out == MapCoordSeq(f, cs)
    ensures calls == cs.coords
  {
    var size := |cs.coords|;
    var clone := new Coord[size](i requires 0 <= i < size => cs.coords[i]);
    calls := [];
    var i := 0;
    while i < size
      invariant 0 <= i <= size
      invariant calls == cs.coords[..i]
      invariant forall k :: 0 <= k < i ==> clone[k] == Apply(f, cs.coords[k])
      invariant forall k :: i <= k < size ==> clone[k] == cs.coords[k]
    {
      var c := clone[i];
      calls := calls + [c];
      clone[i] := Apply(f, c);
      i := i + 1;
    }
    out := CoordSeq(cs.dims, clone[..]);
  }

  /** Appending one more list to the prefix of a list of lists appends it to the
      flattened prefix. */
  lemma FlattenStep(ss: seq<seq<Coord>>, i: nat)
    requires i < |ss|
    ensures Flatten(ss[..i + 1]) == Flatten(ss[..i]) + ss[i]
  {
    assert ss[..i + 1][..i] == ss[..i];
  }

  /** Polygon case: the shell first, then each hole in ascending order, each
      into the ring array the polygon is built from. */
  method TransformPolygon(f: Mapping, shell: CoordSeq, holes: seq<CoordSeq>) returns (r: Option<Geom>, calls: seq<Coord>)
    ensures r == TransformGeom(f, Polygon(shell, holes))
    ensures calls == Coords(Polygon(shell, holes))
  {
    var newShell;
    newShell, calls := TransformCoordSeq(f, shell);
    var n := |holes|;
    var rings := new CoordSeq[n];
    var i := 0;
    while i < n
      invariant 0 <= i <= n
      invariant forall j :: 0 <= j < i ==> rings[j] == MapCoordSeq(f, holes[j])
      invariant calls == shell.coords + Flatten(RingCoords(holes)[..i])
    {
      var ring, c := TransformCoordSeq(f, holes[i]);
      rings[i] := ring;
      FlattenStep(RingCoords(holes), i);
      calls := calls + c;
      i := i + 1;
    }
    assert RingCoords(holes)[..n] == RingCoords(holes);
    assert rings[..] == MapRings(f, holes);
    r := Some(Polygon(newShell, rings[..]));
  }

  function Values(os: seq<Option<Geom>>): (r: seq<Geom>)
    requires forall j :: 0 <= j < |os| ==> os[j].Some?
    ensures |r| == |os| && forall j :: 0 <= j < |os| ==> Some(r[j]) == os[j]
  {
    seq(|os|, j requires 0 <= j < |os| => os[j].value)
  }

  /** A collection transforms to the collection of its members' transforms when
      every member has one, and to null otherwise. */
  lemma CollectionAssembly(f: Mapping, k: CollectionKind, ms: seq<Geom>, built: seq<Option<Geom>>)
    requires |built| == |ms|
    requires forall j :: 0 <= j < |ms| ==> built[j] == TransformGeom(f, ms[j])
    ensures (forall j :: 0 <= j < |built| ==> built[j].Some?) ==> TransformGeom(f, Collection(k, ms)) == Some(Collection(k, Values(built)))
    ensures !(forall j :: 0 <= j < |built| ==> built[j].Some?) ==> TransformGeom(f, Collection(k, ms)) == None
  {
    if forall j :: 0 <= j < |built| ==> built[j].Some? {
      assert Supported(Collection(k, ms));
      var expected := TransformGeom(f, Collection(k, ms)).value.members;
      assert Values(built) == expected;
    }
  }

  /** Rebuild by kind, recursively, making the mapping calls in traversal order:
      a polygon's shell before its holes, holes and members in ascending order. */
  method TransformGeomTraced(f: Mapping, g: Geom) returns (r: Option<Geom>, calls: seq<Coord>)
    ensures r == TransformGeom(f, g)
    ensures calls == Coords(g)
    decreases g
  {
    match g
    case Point(cs) =>
      var out;
      out, calls := TransformCoordSeq(f, cs);
      r := Some(Point(out));
    case LineString(cs) =>
      var out;
      out, calls := TransformCoordSeq(f, cs);
      r := Some(LineString(out));
    case LinearRing(cs) =>
      var out;
      out, calls := TransformCoordSeq(f, cs);
      r := Some(LinearRing(out));
    case Polygon(shell, holes) =>
      r, calls := TransformPolygon(f, shell, holes);
    case Collection(k, ms) =>
      var n := |ms|;
      var geoms := new Option<Geom>[n];
      calls := [];
      var i := 0;
      while i < n
        invariant 0 <= i <= n
        invariant forall j :: 0 <= j < i ==> geoms[j] == TransformGeom(f, ms[j])
        invariant calls == Flatten(MemberCoords(ms)[..i])
      {
        var m, c := TransformGeomTraced(f, ms[i]);
        geoms[i] := m;
        FlattenStep(MemberCoords(ms), i);
        calls := calls + c;
        i := i + 1;
      }
      assert MemberCoords(ms)[..n] == MemberCoords(ms);
      var built := geoms[..];
      CollectionAssembly(f, k, ms, built);
      if forall j :: 0 <= j < n ==> built[j].Some? {
        r := Some(Collection(k, Values(built)));
      } else {
        r := None;
      }
    case Other(_) =>
      r, calls := None, [];
  }

  /** Flattening commutes with mapping every coordinate. */
  lemma {:induction false} FlattenMapped(f: Mapping, ss: seq<seq<Coord>>, ts: seq<seq<Coord>>)
    requires |ss| == |ts|
    requires forall i :: 0 <= i < |ss| ==> ts[i] == MapCoords(f, ss[i])
    ensures Flatten(ts) == MapCoords(f, Flatten(ss))
  {
    if ss != [] {
      var n := |ss| - 1;
      FlattenMapped(f, ss[..n], ts[..n]);
      assert MapCoords(f, Flatten(ss[..n]) + ss[n]) == MapCoords(f, Flatten(ss[..n])) + MapCoords(f, ss[n]);
    }
  }

  /** The transform's coordinates, read in traversal order, are the mapped
      coordinates of the input in the same order. */
  lemma {:induction false} TransformMapsCoords(f: Mapping, g: Geom)
    requires Supported(g)
    ensures Coords(TransformGeom(f, g).value) == MapCoords(f, Coords(g))
    decreases g
  {
    match g
    case Point(_) =>
    case LineString(_) =>
    case LinearRing(_) =>
    case Polygon(shell, holes) =>
      var mapped := MapRings(f, holes);
      FlattenMapped(f, RingCoords(holes), RingCoords(mapped));
      assert MapCoords(f, shell.coords + Flatten(RingCoords(holes)))
          == MapCoords(f, shell.coords) + MapCoords(f, Flatten(RingCoords(holes)));
    case Collection(k, ms) =>
      var out := TransformGeom(f, g).value.members;
      forall i | 0 <= i < |ms|
        ensures Coords(out[i]) == MapCoords(f, Coords(ms[i]))
      {
        TransformMapsCoords(f, ms[i]);
      }
      FlattenMapped(f, MemberCoords(ms), MemberCoords(out));
      assert Coords(g) == Flatten(MemberCoords(ms));
      assert Coords(TransformGeom(f, g).value) == Flatten(MemberCoords(out));
  }

  /** The mapping that returns its arguments unchanged. */
  function Identity(): Mapping
  {
    (x: real, y: real) => (x, y)
  }

  lemma MapIdentity(cs: CoordSeq)
    ensures MapCoordSeq(Identity(), cs) == cs
  {
    assert MapCoords(Identity(), cs.coords) == cs.coords;
  }

  /** With the identity mapping the transform rebuilds the input exactly. */
  lemma {:induction false} TransformIdentity(g: Geom)
    requires Supported(g)
    ensures TransformGeom(Identity(), g) == Some(g)
    decreases g
  {
    match g
    case Point(cs) => MapIdentity(cs);
    case LineString(cs) => MapIdentity(cs);
    case LinearRing(cs) => MapIdentity(cs);
    case Polygon(shell, holes) =>
      MapIdentity(shell);
      forall i | 0 <= i < |holes| ensures MapCoordSeq(Identity(), holes[i]) == holes[i] {
        MapIdentity(holes[i]);
      }
      assert MapRings(Identity(), holes) == holes;
    case Collection(k, ms) =>
      var out := TransformGeom(Identity(), g).value.members;
      forall i | 0 <= i < |ms| ensures out[i] == ms[i] {
        TransformIdentity(ms[i]);
      }
      assert out == ms;
  }
}
