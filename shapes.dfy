/** The geometry values the engine stores behind each native handle: the eight
    kinds of the OGC Simple Features model the binding knows (Point, LineString,
    LinearRing, Polygon and the four collection kinds), and any other kind the
    engine may hold. Coordinates are pairs of reals that the model never computes
    on; the structural accessors below are the engine calls the binding makes. */
module Shapes {

  datatype Option<T> = None | Some(value: T)

  /** The caller's coordinate mapping (x, y) -> [x', y']. */
  type Mapping = (real, real) -> (real, real)

  /** One position of a coordinate sequence (its X and Y ordinates). */
  datatype Coord = Coord(x: real, y: real)

  /** A coordinate sequence: a fixed dimension count and the positions in order. */
  datatype CoordSeq = CoordSeq(dims: nat, coords: seq<Coord>)

  datatype CollectionKind = MultiPoint | MultiLineString | MultiPolygon | GeometryCollection

  /** A geometry tree. A polygon's shell and holes are linear rings, given here
      by their coordinate sequences. `Other` stands for a kind outside the eight
      (the curved kinds of newer engines), named by its type string. */
  datatype Geom =
    | Point(cs: CoordSeq)
    | LineString(cs: CoordSeq)
    | LinearRing(cs: CoordSeq)
    | Polygon(shell: CoordSeq, holes: seq<CoordSeq>)
    | Collection(kind: CollectionKind, members: seq<Geom>)
    | Other(name: string)

  /** No part of the tree is of an unknown kind. */
  predicate Supported(g: Geom)
  {
    match g
    case Other(_) => false
    case Collection(_, ms) => forall i :: 0 <= i < |ms| ==> Supported(ms[i])
    case _ => true
  }

  /** Two coordinate sequences of the same size and dimension count. */
  predicate SameSize(a: CoordSeq, b: CoordSeq)
  {
    a.dims == b.dims && |a.coords| == |b.coords|
  }

  /** Same kind, same ring count, same member count and kinds in the same order,
      same size of every coordinate sequence: everything but coordinate values. */
  predicate SameShape(a: Geom, b: Geom)
  {
    match a
    case Point(cs) => b.Point? && SameSize(cs, b.cs)
    case LineString(cs) => b.LineString? && SameSize(cs, b.cs)
    case LinearRing(cs) => b.LinearRing? && SameSize(cs, b.cs)
    case Polygon(shell, holes) =>
      && b.Polygon?
      && SameSize(shell, b.shell)
      && |holes| == |b.holes|
      && (forall i :: 0 <= i < |holes| ==> SameSize(holes[i], b.holes[i]))
    case Collection(k, ms) =>
      && b.Collection?
      && k == b.kind
      && |ms| == |b.members|
      && (forall i :: 0 <= i < |ms| ==> SameShape(ms[i], b.members[i]))
    case Other(_) => a == b
  }

  /** Concatenation of a sequence of coordinate lists, in order. */
  function Flatten(ss: seq<seq<Coord>>): seq<Coord>
  {
    if ss == [] then [] else Flatten(ss[..|ss| - 1]) + ss[|ss| - 1]
  }

  function RingCoords(rings: seq<CoordSeq>): seq<seq<Coord>>
  {
    seq(|rings|, i requires 0 <= i < |rings| => rings[i].coords)
  }

  /** The coordinates of each member, member by member. */
  function MemberCoords(ms: seq<Geom>): seq<seq<Coord>>
    decreases ms
  {
    seq(|ms|, i requires 0 <= i < |ms| => Coords(ms[i]))
  }

  /** Every coordinate of the tree in traversal order: a sequence position by
      position; a polygon's shell, then its holes in order; a collection's
      members in order. Kinds outside the eight contribute none. */
  function Coords(g: Geom): seq<Coord>
    decreases g
  {
    match g
    case Point(cs) => cs.coords
    case LineString(cs) => cs.coords
    case LinearRing(cs) => cs.coords
    case Polygon(shell, holes) => shell.coords + Flatten(RingCoords(holes))
    case Collection(_, ms) => Flatten(MemberCoords(ms))
    case Other(_) => []
  }

  // The engine's structural accessors, as the binding calls them.

  predicate IsLine(g: Geom)
  {
    g.LineString? || g.LinearRing?
  }

  /** Point count of a line string or linear ring; -1 for any other kind. */
  function NumPoints(g: Geom): (r: int)
    ensures -1 <= r
    ensures r == -1 <==> !IsLine(g)
    ensures IsLine(g) ==> r == |g.cs.coords|
  {
    if IsLine(g) then |g.cs.coords| else -1
  }

  /** A new point at position n of a line; null for a bad index or kind. */
  function PointN(g: Geom, n: int): (r: Option<Geom>)
    ensures r.Some? <==> 0 <= n < NumPoints(g)
    ensures r.Some? ==> PointXY(r.value) == Some(g.cs.coords[n])
  {
    if IsLine(g) && 0 <= n < |g.cs.coords| then Some(Point(CoordSeq(g.cs.dims, [g.cs.coords[n]])))
    else None
  }

  /** Member count of a collection; 1 for any other geometry. */
  function NumGeometries(g: Geom): (r: nat)
    ensures g.Collection? ==> r == |g.members|
    ensures !g.Collection? ==> r == 1
  {
    if g.Collection? then |g.members| else 1
  }

  /** Member n of a collection (the geometry itself for a single geometry);
      null for a negative index. */
  function GeometryN(g: Geom, n: int): (r: Option<Geom>)
    ensures r.Some? <==> 0 <= n && (g.Collection? ==> n < NumGeometries(g))
    ensures r.Some? && !g.Collection? ==> r.value == g
  {
    if n < 0 then None
    else if g.Collection? then (if n < |g.members| then Some(g.members[n]) else None)
    else Some(g)
  }

  /** X and Y of a non-empty point; the engine reports a failure otherwise. */
  function PointXY(g: Geom): (r: Option<Coord>)
    ensures r.Some? <==> g.Point? && |g.cs.coords| > 0
    ensures r.Some? ==> r.value == g.cs.coords[0]
  {
    if g.Point? && |g.cs.coords| > 0 then Some(g.cs.coords[0]) else None
  }
}
