/** The Geometry object a script holds: it owns one native pointer, checks the
    arguments of each call, normalises indices, fills in defaults, maps the
    engine's tri-state predicate results, and wraps every geometry the engine
    builds into a new Geometry object that owns it. */
module Wrapper {
  import opened Shapes
  import opened Handles
  import opened Host
  import opened Transform

  // Buffer style constants of the engine.
  const CapRound: int := 1
  const JoinRound: int := 1
  /** Segments per quarter circle when the caller gives none. */
  const DefaultQuadSegs: int := 16

  /** The arguments of one buffer call into the engine. */
  datatype BufferParams = BufferParams(width: real, quadSegs: int, endCapStyle: int, joinStyle: int, mitreLimit: real)

  /** The SRID a `setSRID` call stores, or what it throws. */
  function SridArg(args: seq<Value>): (r: Outcome<int>)
    ensures |args| == 0 ==> r == Throw(PlainError("Missing argument: SRID"))
    ensures |args| > 0 && !args[0].Number? ==> r == Throw(TypeError("Invalid argument: SRID"))
    ensures |args| > 0 && args[0].Number? ==> r == Ok(ToInt32(args[0].n))
  {
    if |args| < 1 then Throw(PlainError("Missing argument: SRID"))
    else if !args[0].Number? then Throw(TypeError("Invalid argument: SRID"))
    else Ok(ToInt32(args[0].n))
  }

  /** The position `getPointN` asks the engine for, on a geometry whose engine
      point count is `num` (-1 when it is not a line), or what it throws. The
      checks run in this order: a missing argument, a non-number, a geometry
      that is not a line, then the upper bound of the normalised index. A
      negative index counts from the end; there is no lower bound check. */
  function PointIndex(args: seq<Value>, num: int): (r: Outcome<int>)
    requires -1 <= num
    ensures |args| == 0 ==> r == Throw(PlainError("Missing argument: n"))
    ensures |args| > 0 && !args[0].Number? ==> r == Throw(TypeError("Invalid argument: n"))
    ensures |args| > 0 && args[0].Number? && num == -1 ==> r == Throw(TypeError("Unexpected geometry: expected LineString"))
    ensures r.Ok? <==> |args| > 0 && args[0].Number? && 0 <= num && ToInt32(args[0].n) < num
    ensures r.Ok? ==> r.value < num
    ensures r.Ok? ==> r.value == if ToInt32(args[0].n) < 0 then num + ToInt32(args[0].n) else ToInt32(args[0].n)
    ensures r.Throw? && |args| > 0 && args[0].Number? && 0 <= num ==> r == Throw(PlainError("Invalid range: n"))
  {
    if |args| < 1 then Throw(PlainError("Missing argument: n"))
    else if !args[0].Number? then Throw(TypeError("Invalid argument: n"))
    else
      var n := ToInt32(args[0].n);
      if num == -1 then Throw(TypeError("Unexpected geometry: expected LineString"))
      else
        var k := if n < 0 then num + n else n;
        if k >= num then Throw(PlainError("Invalid range: n")) else Ok(k)
  }

  /** For indices from -num to num - 1, the position selected is the index
      modulo the point count: -1 is the last point, -num the first. */
  lemma NegativeIndexCountsFromEnd(n: int, num: int)
    requires 0 < num < TwoTo31
    requires -num <= n < num
    ensures PointIndex([Number(n as real)], num) == Ok((n + num) % num)
    ensures n < 0 ==> PointIndex([Number(n as real)], num) == PointIndex([Number((n + num) as real)], num)
  {
    ToInt32Exact(n);
    if n < 0 {
      ToInt32Exact(n + num);
      ModSmall(n + num, num);
    } else {
      ModOnce(n + num, num);
    }
  }

  lemma ModSmall(a: int, b: int)
    requires 0 <= a < b
    ensures a % b == a
  {
  }

  lemma ModOnce(a: int, b: int)
    requires 0 < b <= a < b + b
    ensures a % b == a - b
  {
    ModSmall(a - b, b);
    assert (a - b) % b == a % b;
  }

  /** An index below -num passes every check and reaches the engine as a
      negative position. */
  lemma IndexBelowRangeReachesEngine(n: int, num: int)
    requires 0 <= num < TwoTo31
    requires -TwoTo31 <= n < -num
    ensures PointIndex([Number(n as real)], num) == Ok(num + n)
    ensures num + n < 0
  {
    ToInt32Exact(n);
  }

  /** The member `getGeometryN` asks the engine for, on a geometry with `num`
      members, or what it throws. The index is used as given: only the upper
      bound is checked. */
  function GeometryIndex(args: seq<Value>, num: int): (r: Outcome<int>)
    ensures |args| == 0 ==> r == Throw(PlainError("Missing argument: n"))
    ensures |args| > 0 && !args[0].Number? ==> r == Throw(TypeError("Invalid argument: n"))
    ensures r.Ok? <==> |args| > 0 && args[0].Number? && ToInt32(args[0].n) < num
    ensures r.Ok? ==> r.value == ToInt32(args[0].n)
    ensures r.Throw? && |args| > 0 && args[0].Number? ==> r == Throw(PlainError("Invalid range: n"))
  {
    if |args| < 1 then Throw(PlainError("Missing argument: n"))
    else if !args[0].Number? then Throw(TypeError("Invalid argument: n"))
    else
      var n := ToInt32(args[0].n);
      if n >= num then Throw(PlainError("Invalid range: n")) else Ok(n)
  }

  /** The buffer call's parameters. An optional argument takes its default
      unless the call has more arguments than its position; the mitre limit is
      always 0. Arguments are read in order, and a non-number makes the host
      throw. */
  function BufferArgs(args: seq<Value>): (r: Outcome<BufferParams>)
    ensures |args| == 0 ==> r == Throw(PlainError("Missing argument: width"))
    ensures r.Ok? <==> |args| > 0 && forall i :: 0 <= i < |args| && i < 4 ==> args[i].Number?
    ensures r.Ok? ==> r.value.width == args[0].n && r.value.mitreLimit == 0.0
    ensures r.Ok? ==> r.value.quadSegs == if |args| > 1 then ToInt32(args[1].n) else DefaultQuadSegs
    ensures r.Ok? ==> r.value.endCapStyle == if |args| > 2 then ToInt32(args[2].n) else CapRound
    ensures r.Ok? ==> r.value.joinStyle == if |args| > 3 then ToInt32(args[3].n) else JoinRound
  {
    if |args| < 1 then Throw(PlainError("Missing argument: width"))
    else
      var width :- NumberValue(args[0]);
      var quadSegs :- if |args| > 1 then Int32Value(args[1]) else Ok(DefaultQuadSegs);
      var endCapStyle :- if |args| > 2 then Int32Value(args[2]) else Ok(CapRound);
      var joinStyle :- if |args| > 3 then Int32Value(args[3]) else Ok(JoinRound);
      Ok(BufferParams(width, quadSegs, endCapStyle, joinStyle, 0.0))
  }

  /** The explicit defaults, as the arguments a caller would write. */
  function ExplicitDefaults(): seq<Value>
  {
    [Number(DefaultQuadSegs as real), Number(CapRound as real), Number(JoinRound as real)]
  }

  /** Leaving out trailing optional arguments is the same as passing their
      defaults explicitly. */
  lemma BufferDefaultsAreExplicit(args: seq<Value>)
    requires 1 <= |args| <= 4
    requires forall i :: 0 <= i < |args| ==> args[i].Number?
    ensures BufferArgs(args) == BufferArgs(args + ExplicitDefaults()[|args| - 1..])
  {
    ToInt32Exact(DefaultQuadSegs);
    ToInt32Exact(CapRound);
    ToInt32Exact(JoinRound);
    var full := args + ExplicitDefaults()[|args| - 1..];
    assert |full| == 4;
    forall i | |args| <= i < 4 ensures full[i] == ExplicitDefaults()[i - 1] {
    }
  }

  /** The host value a predicate returns for the engine's tri-state result:
      0 is false, 1 is true, and the error state is `undefined`. Nothing is
      thrown, and the error state never reads as false. */
  function PredicateValue(code: int): (v: Value)
    ensures v.Boolean? <==> code == 0 || code == 1
    ensures v.Boolean? ==> (v.b <==> code == 1)
    ensures !v.Boolean? ==> v.Undefined?
  {
    if code == 0 then Boolean(false)
    else if code == 1 then Boolean(true)
    else Undefined
  }

  /** The mapping a `transform` call applies, or what it throws. */
  function MappingArg(args: seq<Value>): (r: Outcome<Mapping>)
    ensures |args| == 0 ==> r.Throw? && r.error == PlainError("Missing argument: fn")
    ensures |args| > 0 && !args[0].Func? ==> r.Throw? && r.error == TypeError("Invalid argument: fn")
    ensures r.Ok? <==> |args| > 0 && args[0].Func?
    ensures r.Ok? ==> r.value == args[0].f
  {
    if |args| < 1 then Throw(PlainError("Missing argument: fn"))
    else if !args[0].Func? then Throw(TypeError("Invalid argument: fn"))
    else Ok(args[0].f)
  }

  class Geometry {
    const engine: Engine
    var ptr: Ptr

    /** The owned pointer is a live handle. */
    ghost predicate Valid()
      reads this, engine
    {
      engine.Valid() && ptr.Ref? && ptr.id in engine.store
    }

    /** What the owned handle holds. */
    function Held(): Native
      reads this, engine
      requires Valid()
    {
      engine.store[ptr.id]
    }

    /** Take ownership of the pointer the engine returned, unchecked. */
    constructor (engine: Engine, ptr: Ptr)
      ensures this.engine == engine && this.ptr == ptr
    {
      this.engine := engine;
      this.ptr := ptr;
    }

    /** Release the owned pointer, and with it exactly what it owns. */
    method Release()
      requires engine.Valid()
      requires ptr.Ref? ==> ptr.id in engine.store
      modifies engine
      ensures engine.Valid()
      ensures engine.store == if ptr.Ref? then old(engine.store) - Footprint(ptr.id, old(engine.store)) else old(engine.store)
    {
      engine.Destroy(ptr);
    }

    /** The SRID tag of the owned handle: what `SetSRID` stored last, or the
        value the handle was created with; always a C `int`. */
    function GetSRID(): (s: int)
      reads this, engine
      requires Valid()
      ensures IsInt32(s)
      ensures s == engine.store[ptr.id].srid
    {
      Held().srid
    }

    /** Validate the argument, then set the SRID; an error changes nothing, and
        afterwards `GetSRID` reads back the stored value. */
    method SetSRID(args: seq<Value>) returns (r: Outcome<()>)
      requires Valid()
      modifies engine
      ensures Valid()
      ensures SridArg(args).Throw? ==> r == Throw(SridArg(args).error) && engine.store == old(engine.store)
      ensures SridArg(args).Ok? ==> r.Ok? && GetSRID() == SridArg(args).value
      ensures SridArg(args).Ok? ==> engine.store == old(engine.store)[ptr.id := old(Held()).(srid := SridArg(args).value)]
    {
      var srid := SridArg(args);
      if srid.Throw? {
        return Throw(srid.error);
      }
      engine.SetSrid(ptr.id, srid.value);
      r := Ok(());
    }

    /** The point count of a line; -1 when this is not a line. */
    function GetNumPoints(): (n: int)
      reads this, engine
      requires Valid()
      ensures n == -1 <==> !IsLine(Held().geom)
    {
      NumPoints(Held().geom)
    }

    /** The normalised position's point as a new Geometry that owns it; errors
        build nothing. */
    method GetPointN(args: seq<Value>) returns (r: Outcome<Geometry>)
      requires Valid()
      modifies engine
      ensures Valid()
      ensures var idx := PointIndex(args, NumPoints(old(Held()).geom));
        && (idx.Throw? ==> r == Throw(idx.error) && engine.store == old(engine.store))
        && (idx.Ok? ==>
              && r.Ok? && fresh(r.value) && r.value.engine == engine
              && Adopted(r.value.ptr, PointN(old(Held()).geom, idx.value), DefaultSrid, old(engine.store), engine.store))
    {
      var g := Held().geom;
      var idx := PointIndex(args, NumPoints(g));
      if idx.Throw? {
        return Throw(idx.error);
      }
      var p := engine.Allocate(PointN(g, idx.value), DefaultSrid);
      var w := new Geometry(engine, p);
      r := Ok(w);
    }

    /** A clone of member n as a new Geometry that owns it: a handle distinct
        from every live one, this object's included. A single geometry is its
        own member 0, and its clone keeps its SRID. */
    method GetGeometryN(args: seq<Value>) returns (r: Outcome<Geometry>)
      requires Valid()
      modifies engine
      ensures Valid()
      ensures var idx := GeometryIndex(args, NumGeometries(old(Held()).geom));
        && (idx.Throw? ==> r == Throw(idx.error) && engine.store == old(engine.store))
        && (idx.Ok? ==>
              && r.Ok? && fresh(r.value) && r.value.engine == engine
              && Took(r.value.ptr, GeometryN(old(Held()).geom, idx.value), old(engine.store), engine.store)
              && (!old(Held()).geom.Collection? && r.value.ptr.Ref? ==> engine.store[r.value.ptr.id].srid == old(Held()).srid))
      ensures r.Ok? && r.value.ptr.Ref? ==> r.value.ptr != ptr
    {
      var g := Held().geom;
      var idx := GeometryIndex(args, NumGeometries(g));
      if idx.Throw? {
        return Throw(idx.error);
      }
      var member := GeometryN(g, idx.value);
      var p := engine.Allocate(member, Held().srid);
      var w := new Geometry(engine, p);
      r := Ok(w);
    }

    /** Buffer with the parameters `BufferArgs` gives; `op` is the engine's
        buffering, whose result the new Geometry owns. */
    method Buffer(args: seq<Value>, op: (Geom, BufferParams) -> Option<Geom>) returns (r: Outcome<Geometry>)
      requires Valid()
      modifies engine
      ensures Valid()
      ensures BufferArgs(args).Throw? ==> r == Throw(BufferArgs(args).error) && engine.store == old(engine.store)
      ensures BufferArgs(args).Ok? ==>
        && r.Ok? && fresh(r.value) && r.value.engine == engine
        && Took(r.value.ptr, op(old(Held()).geom, BufferArgs(args).value), old(engine.store), engine.store)
    {
      var params := BufferArgs(args);
      if params.Throw? {
        return Throw(params.error);
      }
      var p := engine.Allocate(op(Held().geom, params.value), Held().srid);
      var w := new Geometry(engine, p);
      r := Ok(w);
    }

    /** Check the argument, run the structural transform, and wrap its result
        without a null check: an unsupported kind gives a Geometry holding a
        null pointer. */
    method Transform(args: seq<Value>) returns (r: Outcome<Geometry>)
      requires Valid()
      modifies engine
      ensures Valid()
      ensures MappingArg(args).Throw? ==> r == Throw(MappingArg(args).error) && engine.store == old(engine.store)
      ensures MappingArg(args).Ok? ==>
        && r.Ok? && fresh(r.value) && r.value.engine == engine
        && Adopted(r.value.ptr, TransformGeom(MappingArg(args).value, old(Held()).geom), DefaultSrid, old(engine.store), engine.store)
    {
      var fn := MappingArg(args);
      if fn.Throw? {
        return Throw(fn.error);
      }
      var result, calls := TransformGeomTraced(fn.value, Held().geom);
      var p := engine.Allocate(result, DefaultSrid);
      var w := new Geometry(engine, p);
      r := Ok(w);
    }

    /** A unary predicate: `test` is the engine's tri-state check. */
    function PredicateTemplate(test: Geom -> int): (v: Value)
      reads this, engine
      requires Valid()
      ensures v.Boolean? || v.Undefined?
      ensures v.Boolean? <==> test(Held().geom) == 0 || test(Held().geom) == 1
      ensures v.Boolean? ==> (v.b <==> test(Held().geom) == 1)
    {
      PredicateValue(test(Held().geom))
    }

    /** A predicate on this geometry and the Geometry argument: `test` is the
        engine's tri-state check. A missing argument or a non-Geometry throws;
        an engine error gives `undefined`. */
    function UnaryPredicateTemplate(args: seq<Value>, test: (Geom, Geom) -> int): (r: Outcome<Value>)
      reads this, engine
      requires Valid() && LiveArgs(args, engine.store)
      ensures |args| == 0 ==> r.Throw? && r.error == PlainError("Missing argument: Geometry")
      ensures |args| > 0 ==> (r.Ok? <==> args[0].Object? && args[0].wrapped.Some?)
      ensures r.Throw? && |args| > 0 ==> r.error == PlainError("Invalid argument")
      ensures r.Ok? ==> r.value.Boolean? || r.value.Undefined?
      ensures r.Ok? ==>
        var c := test(Held().geom, engine.store[args[0].wrapped.value.id].geom);
        && (r.value.Boolean? <==> c == 0 || c == 1)
        && (r.value.Boolean? ==> (r.value.b <==> c == 1))
    {
      if |args| < 1 then Throw(PlainError("Missing argument: Geometry"))
      else
        var other :- Unwrap(args[0]);
        assert Live(args[0], engine.store);
        Ok(PredicateValue(test(Held().geom, engine.store[other.id].geom)))
    }
  }
}
