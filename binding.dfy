/** The module's free functions: text parsing and formatting, the point,
    line-string and collection constructors, and the engine's error callback,
    which keeps the last error message in a fixed 256-character buffer. */
module Binding {
  import opened Shapes
  import opened Handles
  import opened Host
  import opened Wrapper

  /** Text without a terminator character: what a formatted C string can hold. */
  type CText = s: string | '\0' !in s

  const ErrorBufferSize: nat := 256
  /** The formatter is given one less than the buffer size, so it writes at most
      this many characters before its terminator. */
  const MaxMessage: nat := 254

  function Min(a: int, b: int): int
  {
    if a < b then a else b
  }

  /** The text of a C string stored in `s`: everything before the first
      terminator, or all of `s` when there is none. */
  function CString(s: seq<char>): (r: string)
    ensures r <= s
    ensures '\0' !in r
    ensures |r| < |s| ==> s[|r|] == '\0'
  {
    if s == [] || s[0] == '\0' then [] else [s[0]] + CString(s[1..])
  }

  /** Text followed by a terminator reads back as that text, whatever follows. */
  lemma {:induction false} CStringOfTerminated(p: seq<char>, rest: seq<char>)
    requires '\0' !in p
    ensures CString(p + ['\0'] + rest) == p
  {
    if p != [] {
      assert (p + ['\0'] + rest)[1..] == p[1..] + ['\0'] + rest;
      CStringOfTerminated(p[1..], rest);
    }
  }

  /** The process-wide last-error buffer and the error callback writing it. */
  class ErrorSink {
    const buf: array<char>

    ghost predicate Valid()
      reads this
    {
      buf.Length == ErrorBufferSize
    }

    /** The buffer starts zero-filled: the last error is empty. */
    constructor ()
      ensures Valid() && fresh(buf)
      ensures LastError() == []
    {
      buf := new char[ErrorBufferSize](_ => '\0');
    }

    /** The buffer read as a C string: the characters before the first
        terminator. */
    function LastError(): (s: string)
      reads this, buf
      requires Valid()
      ensures s <= buf[..] && '\0' !in s
      ensures |s| < ErrorBufferSize ==> buf[|s|] == '\0'
    {
      CString(buf[..])
    }

    /** The engine's error callback: store the message, cut to `MaxMessage`
        characters, and a terminator; the rest of the buffer is left as it was. */
    method Report(msg: CText)
      requires Valid()
      modifies buf
      ensures LastError() == msg[..Min(|msg|, MaxMessage)]
      ensures forall i :: Min(|msg|, MaxMessage) < i < ErrorBufferSize ==> buf[i] == old(buf[i])
    {
      var k := Min(|msg|, MaxMessage);
      var i := 0;
      while i < k
        invariant 0 <= i <= k
        invariant forall j :: 0 <= j < i ==> buf[j] == msg[j]
        invariant forall j :: k < j < ErrorBufferSize ==> buf[j] == old(buf[j])
      {
        buf[i] := msg[i];
        i := i + 1;
      }
      buf[k] := '\0';
      assert buf[..] == msg[..k] + ['\0'] + buf[k + 1..];
      CStringOfTerminated(msg[..k], buf[k + 1..]);
    }
  }

  /** What the engine's text reader gives: a geometry, or a failure whose
      message it first passes to the error callback. The reader is handed a C
      string, so it sees the text only up to its first terminator. */
  datatype ParseResult = Parsed(g: Geom) | Unparsable(message: CText)

  /** The text `readWKT` parses, or what it throws before parsing. */
  function WktArg(args: seq<Value>): (r: Outcome<string>)
    ensures |args| == 0 ==> r == Throw(PlainError("Missing argument: WKT"))
    ensures |args| > 0 && !args[0].Str? ==> r == Throw(TypeError("Invalid argument: WKT"))
    ensures |args| > 0 && args[0].Str? ==> r == Ok(args[0].s)
  {
    if |args| < 1 then Throw(PlainError("Missing argument: WKT"))
    else if !args[0].Str? then Throw(TypeError("Invalid argument: WKT"))
    else Ok(args[0].s)
  }

  /** Parse text into a new Geometry. A parse failure throws an Error whose
      message is the last error text the engine reported, as the buffer holds it. */
  method ReadWKT(args: seq<Value>, parse: string -> ParseResult, engine: Engine, sink: ErrorSink) returns (r: Outcome<Geometry>)
    requires engine.Valid() && sink.Valid()
    modifies engine, sink.buf
    ensures engine.Valid()
    ensures WktArg(args).Throw? ==> r == Throw(WktArg(args).error) && engine.store == old(engine.store)
    ensures WktArg(args).Ok? && parse(CString(WktArg(args).value)).Unparsable? ==>
      var msg := parse(CString(WktArg(args).value)).message;
      && r == Throw(PlainError(msg[..Min(|msg|, MaxMessage)]))
      && engine.store == old(engine.store)
    ensures WktArg(args).Ok? && parse(CString(WktArg(args).value)).Parsed? ==>
      && r.Ok? && fresh(r.value) && r.value.engine == engine
      && Adopted(r.value.ptr, Some(parse(CString(WktArg(args).value)).g), DefaultSrid, old(engine.store), engine.store)
  {
    var wkt := WktArg(args);
    if wkt.Throw? {
      return Throw(wkt.error);
    }
    var parsed := parse(CString(wkt.value));
    if parsed.Unparsable? {
      sink.Report(parsed.message);
      return Throw(PlainError(sink.LastError()));
    }
    var p := engine.Allocate(Some(parsed.g), DefaultSrid);
    var w := new Geometry(engine, p);
    r := Ok(w);
  }

  /** Format a Geometry argument as text; `format` is the engine's writer. A
      missing argument, a non-object and an object that is not a Geometry throw,
      in that order. */
  function WriteWKT(args: seq<Value>, store: map<Handle, Native>, format: Geom -> string): (r: Outcome<string>)
    requires LiveArgs(args, store)
    ensures |args| == 0 ==> r == Throw(PlainError("Missing argument: Geometry"))
    ensures |args| > 0 && !IsObject(args[0]) ==> r == Throw(TypeError("Invalid argument: Geometry"))
    ensures |args| > 0 && IsObject(args[0]) && !(args[0].Object? && args[0].wrapped.Some?) ==> r == Throw(PlainError("Invalid argument"))
    ensures r.Ok? <==> |args| > 0 && args[0].Object? && args[0].wrapped.Some?
    ensures r.Ok? ==> r.value == format(store[args[0].wrapped.value.id].geom)
  {
    if |args| < 1 then Throw(PlainError("Missing argument: Geometry"))
    else if !IsObject(args[0]) then Throw(TypeError("Invalid argument: Geometry"))
    else
      var p :- Unwrap(args[0]);
      assert Live(args[0], store);
      Ok(format(store[p.id].geom))
  }

  /** The coordinates `createPoint` builds from, or what it throws: the
      argument count first, then x, then y. */
  function PointArgs(args: seq<Value>): (r: Outcome<Coord>)
    ensures |args| < 2 ==> r == Throw(PlainError("Missing argument(s): x, y"))
    ensures |args| >= 2 && !args[0].Number? ==> r == Throw(TypeError("Invalid argument: x"))
    ensures |args| >= 2 && args[0].Number? && !args[1].Number? ==> r == Throw(TypeError("Invalid argument: y"))
    ensures r.Ok? <==> |args| >= 2 && args[0].Number? && args[1].Number?
    ensures r.Ok? ==> r.value == Coord(args[0].n, args[1].n)
  {
    if |args| < 2 then Throw(PlainError("Missing argument(s): x, y"))
    else if !args[0].Number? then Throw(TypeError("Invalid argument: x"))
    else if !args[1].Number? then Throw(TypeError("Invalid argument: y"))
    else Ok(Coord(args[0].n, args[1].n))
  }

  /** A two-dimensional point from x and y. */
  method CreatePoint(args: seq<Value>, engine: Engine) returns (r: Outcome<Geometry>)
    requires engine.Valid()
    modifies engine
    ensures engine.Valid()
    ensures PointArgs(args).Throw? ==> r == Throw(PointArgs(args).error) && engine.store == old(engine.store)
    ensures PointArgs(args).Ok? ==>
      && r.Ok? && fresh(r.value) && r.value.engine == engine
      && Adopted(r.value.ptr, Some(Point(CoordSeq(2, [PointArgs(args).value]))), DefaultSrid, old(engine.store), engine.store)
  {
    var xy := PointArgs(args);
    if xy.Throw? {
      return Throw(xy.error);
    }
    var p := engine.Allocate(Some(Point(CoordSeq(2, [xy.value]))), DefaultSrid);
    var w := new Geometry(engine, p);
    r := Ok(w);
  }

  /** What the validation pass of a constructor demands of each array element:
      a Geometry object, and for a line string a point. */
  datatype ElementCheck = AnyGeometry | PointOnly

  /** The error an element raises in the validation pass, if any. */
  function ElementError(check: ElementCheck, v: Value, store: map<Handle, Native>): Option<JsError>
    requires Live(v, store)
  {
    if !(v.Object? && v.wrapped.Some?) then Some(PlainError("Invalid argument"))
    else if check == PointOnly && !store[v.wrapped.value.id].geom.Point? then Some(TypeError("Invalid argument: [Point]"))
    else None
  }

  predicate AllLive(items: seq<Value>, store: map<Handle, Native>)
  {
    forall i :: 0 <= i < |items| ==> Live(items[i], store)
  }

  /** The first error in array order, if any element raises one. */
  function FirstError(check: ElementCheck, items: seq<Value>, store: map<Handle, Native>): (r: Option<JsError>)
    requires AllLive(items, store)
    ensures r.None? <==> forall i :: 0 <= i < |items| ==> ElementError(check, items[i], store).None?
    ensures r.Some? ==>
      exists i :: (0 <= i < |items| && r == ElementError(check, items[i], store)
                   && forall j :: 0 <= j < i ==> ElementError(check, items[j], store).None?)
  {
    if items == [] then None
    else if ElementError(check, items[0], store).Some? then ElementError(check, items[0], store)
    else
      var rest := FirstError(check, items[1..], store);
      assert forall i :: 1 <= i < |items| ==> items[1..][i - 1] == items[i];
      rest
  }

  /** The validation pass: examine every element in order, stopping at the
      first one that fails. */
  method Validate(check: ElementCheck, items: seq<Value>, store: map<Handle, Native>) returns (err: Option<JsError>)
    requires AllLive(items, store)
    ensures err == FirstError(check, items, store)
  {
    var i := 0;
    while i < |items|
      invariant 0 <= i <= |items|
      invariant FirstError(check, items, store) == FirstError(check, items[i..], store)
    {
      var e := ElementError(check, items[i], store);
      if e.Some? {
        return e;
      }
      assert items[i..][1..] == items[i + 1..];
      i := i + 1;
    }
    err := None;
  }

  /** Every element is a Geometry object with a live handle. */
  predicate AllWrapped(items: seq<Value>, store: map<Handle, Native>)
  {
    forall i :: 0 <= i < |items| ==>
      items[i].Object? && items[i].wrapped.Some? && items[i].wrapped.value.Ref? && items[i].wrapped.value.id in store
  }

  lemma PassedValidation(check: ElementCheck, items: seq<Value>, store: map<Handle, Native>)
    requires AllLive(items, store)
    requires FirstError(check, items, store).None?
    ensures AllWrapped(items, store)
  {
    forall i | 0 <= i < |items|
      ensures items[i].Object? && items[i].wrapped.Some? && items[i].wrapped.value.Ref? && items[i].wrapped.value.id in store
    {
      assert ElementError(check, items[i], store).None?;
      assert Live(items[i], store);
    }
  }

  /** The geometries the elements' handles hold, in order. */
  function Targets(items: seq<Value>, store: map<Handle, Native>): (r: seq<Geom>)
    requires AllWrapped(items, store)
    ensures |r| == |items|
  {
    seq(|items|, i requires 0 <= i < |items| && AllWrapped(items, store) => store[items[i].wrapped.value.id].geom)
  }

  /** The value the C doubles `x` and `y` hold before the first read. */
  const Unset: Coord := Coord(0.0, 0.0)

  /** The positions the line-string fill loop writes: each point's X and Y; for
      an empty point, whose X and Y the engine cannot read, the values read
      last, carried over. */
  function FillCoords(points: seq<Geom>): (r: seq<Coord>)
    ensures |r| == |points|
  {
    if points == [] then []
    else
      var prev := FillCoords(points[..|points| - 1]);
      var carried := if prev == [] then Unset else prev[|prev| - 1];
      var xy := PointXY(points[|points| - 1]);
      prev + [if xy.Some? then xy.value else carried]
  }

  /** Position i holds the coordinates of point i whenever that point has any;
      otherwise it repeats position i - 1. */
  lemma {:induction false} FillCoordsAt(points: seq<Geom>, i: nat)
    requires i < |points|
    ensures PointXY(points[i]).Some? ==> FillCoords(points)[i] == PointXY(points[i]).value
    ensures PointXY(points[i]).None? && 0 < i ==> FillCoords(points)[i] == FillCoords(points)[i - 1]
  {
    var n := |points| - 1;
    if i < n {
      FillCoordsAt(points[..n], i);
      assert points[..n][i] == points[i];
      if 0 < i {
        assert FillCoords(points)[i - 1] == FillCoords(points[..n])[i - 1];
      }
    }
  }

  /** A line built from non-empty points has exactly their coordinates, in order. */
  lemma LineFromPoints(points: seq<Geom>)
    requires forall i :: 0 <= i < |points| ==> PointXY(points[i]).Some?
    ensures |FillCoords(points)| == |points|
    ensures forall i :: 0 <= i < |points| ==> FillCoords(points)[i] == PointXY(points[i]).value
  {
    forall i | 0 <= i < |points| ensures FillCoords(points)[i] == PointXY(points[i]).value {
      FillCoordsAt(points, i);
    }
  }

  /** The fill loop: a new two-dimensional sequence of `|points|` positions,
      position i set from point i's X and Y, in ascending order. */
  method FillLineCoords(points: seq<Geom>) returns (cs: CoordSeq)
    ensures cs == CoordSeq(2, FillCoords(points))
  {
    var size := |points|;
    var coordSeq := new Coord[size];
    var xy := Unset;
    var i := 0;
    while i < size
      invariant 0 <= i <= size
      invariant coordSeq[..i] == FillCoords(points[..i])
      invariant xy == if i == 0 then Unset else coordSeq[i - 1]
    {
      var read := PointXY(points[i]);
      if read.Some? {
        xy := read.value;
      }
      assert points[..i + 1][..i] == points[..i];
      coordSeq[i] := xy;
      i := i + 1;
    }
    assert points[..size] == points;
    cs := CoordSeq(2, coordSeq[..]);
  }

  /** Build a line string from an array of points. Every check, the check of
      every element included, runs before anything is built; an error builds
      nothing. */
  method CreateLineString(args: seq<Value>, engine: Engine) returns (r: Outcome<Geometry>)
    requires engine.Valid() && LiveArgs(args, engine.store)
    modifies engine
    ensures engine.Valid()
    ensures |args| == 0 ==> r == Throw(PlainError("Missing argument: [Point]"))
    ensures |args| > 0 && !args[0].Array? ==> r == Throw(PlainError("An array was expected"))
    ensures |args| > 0 && args[0].Array? && |args[0].items| < 2 ==> r == Throw(PlainError("Invalid argument: [Point]"))
    ensures |args| > 0 && args[0].Array? && |args[0].items| >= 2 ==>
      var items := args[0].items;
      assert Live(args[0], old(engine.store));
      && (FirstError(PointOnly, items, old(engine.store)).Some? ==> r == Throw(FirstError(PointOnly, items, old(engine.store)).value))
      && (FirstError(PointOnly, items, old(engine.store)).None? ==>
            && AllWrapped(items, old(engine.store))
            && r.Ok? && fresh(r.value) && r.value.engine == engine
            && Adopted(r.value.ptr, Some(LineString(CoordSeq(2, FillCoords(Targets(items, old(engine.store)))))), DefaultSrid, old(engine.store), engine.store))
    ensures r.Throw? ==> engine.store == old(engine.store)
  {
    if |args| < 1 {
      return Throw(PlainError("Missing argument: [Point]"));
    }
    if !args[0].Array? {
      return Throw(PlainError("An array was expected"));
    }
    var items := args[0].items;
    if |items| < 2 {
      return Throw(PlainError("Invalid argument: [Point]"));
    }
    assert Live(args[0], engine.store);
    var err := Validate(PointOnly, items, engine.store);
    if err.Some? {
      return Throw(err.value);
    }
    PassedValidation(PointOnly, items, engine.store);
    var cs := FillLineCoords(Targets(items, engine.store));
    var p := engine.Allocate(Some(LineString(cs)), DefaultSrid);
    var w := new Geometry(engine, p);
    r := Ok(w);
  }

  /** The step from `before` to `after` cloned every element's handle: part i
      is a handle unknown before, distinct from the other parts, holding a copy
      of element i's geometry and SRID; the entries live before are unchanged,
      and the table gains nothing else. */
  ghost predicate Cloned(items: seq<Value>, parts: seq<Handle>, before: map<Handle, Native>, after: map<Handle, Native>)
    requires AllWrapped(items, before)
  {
    && |parts| == |items|
    && (forall i :: 0 <= i < |parts| ==> Unknown(parts[i], before))
    && (forall i, j :: 0 <= i < j < |parts| ==> parts[i] != parts[j])
    && (forall i :: 0 <= i < |parts| ==>
          parts[i] in after && after[parts[i]] == Native(before[items[i].wrapped.value.id].geom, before[items[i].wrapped.value.id].srid, []))
    && (forall h :: h in before ==> h in after && after[h] == before[h])
    && (forall h :: h in after ==> h in before || h in parts)
  }

  /** The clone loop: clone each element's handle, in order, into the array the
      collection is built from. */
  method CloneMembers(items: seq<Value>, engine: Engine) returns (parts: seq<Handle>)
    requires engine.Valid() && AllWrapped(items, engine.store)
    modifies engine
    ensures engine.Valid()
    ensures Cloned(items, parts, old(engine.store), engine.store)
  {
    ghost var before := engine.store;
    var n := |items|;
    var geoms := new Handle[n];
    var i := 0;
    while i < n
      invariant 0 <= i <= n
      invariant engine.Valid()
      invariant Cloned(items[..i], geoms[..i], before, engine.store)
    {
      var c := engine.Clone(items[i].wrapped.value.id);
      geoms[i] := c;
      assert items[..i + 1][..i] == items[..i] && items[..i + 1][i] == items[i];
      i := i + 1;
    }
    assert items[..n] == items;
    parts := geoms[..];
  }

  /** The new handle `c` holds a GeometryCollection whose member i is element
      i's geometry, with the default SRID, and owns as its parts fresh clones of
      the elements; every entry live before is unchanged. */
  ghost predicate Assembled(c: Handle, items: seq<Value>, before: map<Handle, Native>, after: map<Handle, Native>)
    requires AllWrapped(items, before)
  {
    && Unknown(c, before) && c in after
    && after[c].geom == Collection(GeometryCollection, Targets(items, before))
    && after[c].srid == DefaultSrid
    && Cloned(items, after[c].parts, before, after - {c})
  }

  /** Build a geometry collection from an array of Geometry objects. Every
      element is checked before any is cloned; the collection takes ownership
      of clones of the inputs, in order, under a handle of its own. */
  method CreateCollection(args: seq<Value>, engine: Engine) returns (r: Outcome<Geometry>)
    requires engine.Valid() && LiveArgs(args, engine.store)
    modifies engine
    ensures engine.Valid()
    ensures |args| == 0 ==> r == Throw(PlainError("Missing argument: [Geometry]"))
    ensures |args| > 0 && !args[0].Array? ==> r == Throw(PlainError("An array was expected"))
    ensures |args| > 0 && args[0].Array? ==>
      var items := args[0].items;
      assert Live(args[0], old(engine.store));
      && (FirstError(AnyGeometry, items, old(engine.store)).Some? ==> r == Throw(FirstError(AnyGeometry, items, old(engine.store)).value))
      && (FirstError(AnyGeometry, items, old(engine.store)).None? ==>
            && AllWrapped(items, old(engine.store))
            && r.Ok? && fresh(r.value) && r.value.engine == engine && r.value.ptr.Ref?
            && Assembled(r.value.ptr.id, items, old(engine.store), engine.store))
    ensures r.Throw? ==> engine.store == old(engine.store)
  {
    if |args| < 1 {
      return Throw(PlainError("Missing argument: [Geometry]"));
    }
    if !args[0].Array? {
      return Throw(PlainError("An array was expected"));
    }
    var items := args[0].items;
    assert Live(args[0], engine.store);
    var err := Validate(AnyGeometry, items, engine.store);
    if err.Some? {
      return Throw(err.value);
    }
    PassedValidation(AnyGeometry, items, engine.store);
    ghost var before := engine.store;
    var parts := CloneMembers(items, engine);
    ghost var cloned := engine.store;
    var c := engine.Assemble(GeometryCollection, parts);
    assert PartGeoms(parts, cloned) == Targets(items, before);
    assert engine.store - {c} == cloned;
    var w := new Geometry(engine, Ref(c));
    r := Ok(w);
  }

  /** Build a collection from two geometries, then destroy the first input: the
      collection owns two clones, distinct from both inputs' handles, and they
      are still live and still hold the inputs' geometries. */
  method CollectionOutlivesInputs(engine: Engine, a: Geometry, b: Geometry) returns (c: Geometry)
    requires a.engine == engine && b.engine == engine
    requires a.Valid() && b.Valid()
    modifies engine
    ensures engine.Valid()
    ensures a.ptr.id !in engine.store
    ensures c.Valid() && c.engine == engine
    ensures c.Held().geom == Collection(GeometryCollection, [old(a.Held().geom), old(b.Held().geom)])
    ensures |c.Held().parts| == 2
    ensures forall q :: q in c.Held().parts ==> q in engine.store && q != a.ptr.id && q != b.ptr.id
    ensures engine.store[c.Held().parts[0]].geom == old(a.Held().geom)
    ensures engine.store[c.Held().parts[1]].geom == old(b.Held().geom)
  {
    var args := [Array([Object(Some(a.ptr)), Object(Some(b.ptr))])];
    assert Live(args[0], engine.store);
    var made := CreateCollection(args, engine);
    var items := args[0].items;
    assert FirstError(AnyGeometry, items, old(engine.store)).None?;
    c := made.value;
    assert Targets(items, old(engine.store)) == [old(a.Held().geom), old(b.Held().geom)];
    ghost var parts := engine.store[c.ptr.id].parts;
    assert forall q :: q in parts ==> Unknown(q, old(engine.store));
    a.Release();
  }
}
