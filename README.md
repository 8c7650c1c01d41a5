# geosjs core, modelled in Dafny

geosjs is a Node-API binding that exposes the GEOS geometry engine to
JavaScript. This project models the binding's own logic. GEOS itself is
treated as a set of uninterpreted operations.

It covers three parts:

- **The structural transform** (`src/transform.cc`). It rebuilds a geometry of the same kind, passing every coordinate pair through a caller-supplied mapping.
  - `Transform.TransformGeom` is the specification.
  - `Transform.TransformCoordSeq` and `Transform.TransformGeomTraced` are the step-by-step procedures. They clone into arrays and fill them in loops.
  - The procedures also return the arguments the mapping received, in call order. That is how the call count and call order are stated.
- **The `Geometry` wrapper** (`src/geometry.cc`): a class that owns one native handle. Its methods cover:
  - SRID get and set;
  - point counts;
  - negative-index normalisation and the range checks of `getPointN` and `getGeometryN`;
  - the `buffer` defaults;
  - the argument checks of `transform`;
  - the tri-state predicate results.
- **The free constructors** (`src/binding.cc`):
  - `readWKT`, `writeWKT`, `createPoint`, `createLineString` and `createCollection`, with their fixed-order checks;
  - the validation pass over every element before anything is built;
  - the coordinate fill loop and the clone loop;
  - the engine's error callback, which writes into a 256-character buffer.

The engine's native heap is a table of live handles (`Handles.Engine`):

- building or cloning a geometry yields a handle that no live entry is or owns (`Handles.Unknown`);
- a clone copies the geometry and its SRID (`Handles.Engine.Clone`);
- a collection assembled from handles takes ownership of them: they stay live as its parts (`Handles.Engine.Assemble`);
- destroying a handle removes it together with the parts it owns.

Every operation that hands out a single geometry from one engine call is stated with `Handles.Took`:

- a null engine result builds nothing;
- any other result gets a fresh handle holding exactly that geometry.

`Handles.Adopted` is `Handles.Took` plus the new handle's SRID. The operations that build a new geometry (`readWKT`, `createPoint`, `createLineString`, `getPointN`, `transform`) use it with SRID 0.

`createCollection` is stated differently, with `Binding.Assembled`, because it makes several handles. The SRID of a clone is stated by `Handles.Engine.Clone` itself. `getGeometryN` on a non-collection states it by a clause of its own.

Host values (`Host.Value`) model what a script can pass, and `Host.Outcome` models "returns or throws". `Host.ToInt32` models the host's signed 32-bit conversion of numbers: truncate toward zero, then wrap modulo 2^32.

Where the code falls short of what its own comments announce, the model follows the code:

- `getPointN` is documented to support negative indexes (src/geometry.cc:130-131), but it forwards an index below `-num` to the engine;
- `getGeometryN` has no negative-index support and no lower-bound check;
- a null engine result is wrapped without a check, so the transform of an unsupported kind gives a Geometry holding a null pointer;
- a predicate whose engine check fails returns `undefined`; throwing the last error is left as a to-do (src/geometry.cc:491, 543).

## Model

| member | source | states |
|---|---|---|
| Transform.TransformCoordSeq | src/transform.cc:3-37 | The output is a clone with the same dimension count and size, and position i holds the mapping of input position i (x from component 0, y from component 1). The mapping is called exactly once per position, in ascending order. |
| Transform.TransformGeom | src/transform.cc:39-100 | The result is non-null exactly when every part of the geometry is of a handled kind, and then it has the same shape: same kind, same coordinate sequence sizes and dimensions, same hole count, same collection kind and member count. |
| Transform.TransformPolygon | src/transform.cc:68-81 | The shell is mapped first, then each hole in ascending order. The result equals the specification's polygon transform, and the mapping calls run over the shell's coordinates, then over each hole's coordinates. |
| Transform.CollectionAssembly | src/transform.cc:83-95 | A collection transforms to a collection of the same kind whose member i is the transform of member i when every member has one, and to null otherwise. |
| Transform.TransformGeomTraced | src/transform.cc:39-100 | The recursive rebuild returns exactly the specification's result. Its mapping calls are the input's coordinates in traversal order: shell before holes, members in ascending order. |
| Transform.TransformMapsCoords | src/transform.cc:19-95 | For a handled geometry, the result's coordinates in traversal order are the mapped input coordinates in the same order. |
| Transform.TransformIdentity | src/transform.cc:19-95 | With the identity mapping, the transform of a handled geometry is the geometry itself. |
| Shapes.NumPoints | src/geometry.cc:123-126 | The engine's point count is the number of positions of a line string or ring, and -1 exactly for any other geometry. |
| Shapes.PointN | src/geometry.cc:162 | The engine gives a point exactly for an index in [0, point count), and that point carries the line's coordinate at that index. |
| Shapes.GeometryN | src/geometry.cc:255 | The engine gives a member for a non-negative index below a collection's member count, and a non-collection itself for any non-negative index; a negative index gives null. |
| Shapes.NumGeometries | src/geometry.cc:248 | The engine counts the members of a collection, and counts any other geometry as one. |
| Shapes.PointXY | src/binding.cc:133-134 | Reading x and y succeeds exactly on a non-empty point, and gives its single coordinate. |
| Host.ToInt32 | src/geometry.cc:104 | The signed 32-bit conversion lies in [-2^31, 2^31) and agrees with the truncated number modulo 2^32. |
| Host.ToInt32Exact | src/geometry.cc:147 | A whole number already in the signed 32-bit range converts to itself. |
| Host.NumberValue | src/geometry.cc:339 | An unchecked read of a number gives that number, and on any other value throws the Error "A number was expected". |
| Host.Int32Value | src/geometry.cc:343-353 | An unchecked read of a 32-bit integer gives the signed 32-bit conversion of a number, which lies in the C `int` range, and on any other value throws "A number was expected". |
| Host.Unwrap | src/binding.cc:84-85 | Unwrapping succeeds exactly on an object that wraps a geometry, and gives its pointer; on anything else it throws the Error "Invalid argument". |
| Wrapper.Geometry.constructor | src/geometry.cc:67-72 | The wrapper takes the pointer it is given, unchecked. |
| Handles.Engine.Clone | src/binding.cc:204 | A clone is a new handle that no live entry is or owns, holding the source's geometry and SRID; every other entry is unchanged. |
| Handles.Engine.Assemble | src/binding.cc:207-211 | The new collection handle is unknown before, has the given kind, and member i is part i's geometry. It owns the parts, which stay live; its SRID is the default. |
| Handles.Engine.Destroy | src/geometry.cc:74-76 | Destroying a handle removes it and exactly the parts it owns; null removes nothing. |
| Wrapper.Geometry.Release | src/geometry.cc:74-76 | The destructor removes exactly the owned handle, with the parts it owns, from the live table; a null pointer removes nothing. |
| Wrapper.SridArg | src/geometry.cc:91-104 | A missing argument is the Error "Missing argument: SRID", and a non-number is the TypeError "Invalid argument: SRID". Otherwise the value is the argument's 32-bit conversion. |
| Wrapper.Geometry.GetSRID | src/geometry.cc:82-85 | The SRID read back is the one stored on the owned handle, and it always lies in the C `int` range, because every stored SRID does (`Handles.Engine.Valid`). |
| Wrapper.Geometry.SetSRID | src/geometry.cc:82-106 | A rejected argument changes nothing. Otherwise only the owned handle's SRID changes, and `GetSRID` then reads back the converted value. |
| Wrapper.Geometry.GetNumPoints | src/geometry.cc:123-126 | The count is -1 exactly when the owned geometry is not a line. |
| Wrapper.PointIndex | src/geometry.cc:134-160 | The checks run in order: missing argument, non-number, the non-line TypeError (before normalisation), then "Invalid range: n". An index is accepted exactly when its 32-bit value is below the point count, and a negative index is replaced by count plus index. |
| Wrapper.NegativeIndexCountsFromEnd | src/geometry.cc:155-156 | For -num <= n < num the accepted index is (n + num) mod num, and a negative n selects the same point as n + num (so -1 is the last point). |
| Wrapper.IndexBelowRangeReachesEngine | src/geometry.cc:155-162 | An index below -num passes the range check as a negative position, so the binding hands it to the engine. |
| Wrapper.Geometry.GetPointN | src/geometry.cc:134-165 | A rejected index throws its error and builds nothing. Otherwise the engine's point at the normalised index is adopted under a fresh handle; the engine's null is wrapped as it is. |
| Wrapper.GeometryIndex | src/geometry.cc:234-253 | A missing argument and then a non-number throw, in that order. Any 32-bit value below the member count is accepted unchanged, negative values included; anything else is "Invalid range: n". |
| Wrapper.Geometry.GetGeometryN | src/geometry.cc:234-258 | A rejected index builds nothing. Otherwise the engine's member n is cloned under a fresh handle, distinct from the parent's. For a single geometry, which is its own member 0, the clone keeps the parent's SRID. |
| Wrapper.BufferArgs | src/geometry.cc:331-355 | A missing width is an Error, and a non-number among the first four arguments throws. Each optional style takes its argument when the argument count exceeds its position, and 16 segments, round cap or round join otherwise. The mitre limit is always 0.0. |
| Wrapper.BufferDefaultsAreExplicit | src/geometry.cc:341-354 | Omitting trailing optional arguments gives the same parameters as passing 16, round cap and round join explicitly. |
| Wrapper.Geometry.Buffer | src/geometry.cc:331-367 | Rejected arguments build nothing. Otherwise the engine's buffer of the owned geometry, with those parameters, is taken under a fresh handle; its SRID is not stated. |
| Wrapper.MappingArg | src/geometry.cc:458-471 | A missing argument is the Error "Missing argument: fn", and a non-function is the TypeError "Invalid argument: fn". Otherwise the result is the function's mapping. |
| Wrapper.Geometry.Transform | src/geometry.cc:458-476 | Rejected arguments build nothing. Otherwise the transform of the owned geometry is adopted unchecked: a null transform gives a wrapper of a null pointer. |
| Wrapper.PredicateValue | src/geometry.cc:483-494 | Engine result 0 gives false and 1 gives true. Any other result gives undefined, and nothing is thrown. |
| Wrapper.Geometry.PredicateTemplate | src/geometry.cc:480-495 | The engine check of the owned geometry gives false for 0, true for 1, and undefined for anything else. |
| Wrapper.Geometry.UnaryPredicateTemplate | src/geometry.cc:524-547 | A missing argument is "Missing argument: Geometry", and a non-Geometry argument is "Invalid argument". Otherwise the engine check of this geometry and the argument's geometry gives false for 0, true for 1, and undefined for anything else, never a throw. |
| Binding.CString | src/binding.cc:10-14 | The stored text is the prefix of the buffer before its first terminator, and it contains no terminator. |
| Binding.CStringOfTerminated | src/binding.cc:29 | Text followed by a terminator reads back as exactly that text, whatever follows. |
| Binding.ErrorSink.constructor | src/binding.cc:10 | The zero-filled buffer holds the empty message. |
| Binding.ErrorSink.LastError | src/binding.cc:12-14 | The last error reads the buffer as a C string: a terminator-free prefix of the buffer, followed in the buffer by a terminator whenever it is shorter than the buffer. |
| Binding.ErrorSink.Report | src/binding.cc:26-31 | After the callback, the last error is the message cut to at most 254 characters. The buffer past the terminator is unchanged. |
| Binding.WktArg | src/binding.cc:44-54 | A missing argument is the Error "Missing argument: WKT", and a non-string is the TypeError "Invalid argument: WKT". Otherwise the result is the string. |
| Binding.ReadWKT | src/binding.cc:41-64 | Argument errors and parse failures build nothing. The engine parses the argument as a C string, so only up to its first terminator. A parse failure throws an Error carrying the engine's reported message, cut as the buffer holds it. A parsed geometry is adopted under a fresh handle. |
| Binding.WriteWKT | src/binding.cc:71-91 | Checks run in order: missing argument, non-object (TypeError), non-Geometry object ("Invalid argument"). The result is the formatted geometry exactly when the argument is a Geometry object. |
| Binding.PointArgs | src/binding.cc:153-169 | Fewer than two arguments is "Missing argument(s): x, y". Then x is checked before y, each with its own TypeError. Success is exactly two numbers, giving their coordinate. |
| Binding.CreatePoint | src/binding.cc:150-173 | Rejected arguments build nothing. Otherwise a two-dimensional point at (x, y) is adopted under a fresh handle. |
| Binding.FirstError | src/binding.cc:116-123 | There is no error exactly when every element passes. Otherwise the error is the one raised by the first element that fails, and every earlier element passes. |
| Binding.Validate | src/binding.cc:116-123 | The validation loop stops at and returns the first element error, or none. |
| Binding.PassedValidation | src/binding.cc:192-201 | Every element that passes validation is a Geometry object with a live handle, so the clone loop can read it. |
| Binding.FillCoordsAt | src/binding.cc:127-136 | Position i holds the x and y of point i when the engine can read them. For an empty point, the previous position's values are carried over. |
| Binding.LineFromPoints | src/binding.cc:125-136 | A line built from non-empty points has exactly as many positions as points, and position i is the x and y of point i. |
| Binding.FillLineCoords | src/binding.cc:125-136 | The fill loop produces the two-dimensional sequence that the coordinate specification describes. |
| Binding.CreateLineString | src/binding.cc:98-142 | Checks run in order: missing argument, non-array, fewer than two elements, then the first element that is not a Geometry or not a Point. Every check runs before anything is built, and an error builds nothing. Success adopts a line string of the filled coordinates. |
| Binding.CloneMembers | src/binding.cc:198-205 | There is one clone per input. Clone i is a fresh handle, distinct from the other clones and unknown before, holding input i's geometry and SRID. Every entry live before is unchanged, and nothing else is added. |
| Binding.CreateCollection | src/binding.cc:180-216 | Checks run in order: missing argument, non-array, then the first non-Geometry element. Any error builds nothing. Success gives a fresh handle holding a GeometryCollection whose members are the inputs' geometries, in order. It owns as parts fresh clones of the inputs, and every entry live before is unchanged. |
| Binding.CollectionOutlivesInputs | src/binding.cc:203-211 | The collection's parts are two handles distinct from both inputs'. After the first input is destroyed, both parts are still live and still hold the inputs' geometries, and so does the collection. |

## Left out

- Host marshalling (class definition, instance creation, handle scopes, external wrappers): the model passes argument values and pointers directly.
- GEOS algorithms (buffer geometry, set operations, hull, boundary, make-valid, interpolation, predicate semantics, text grammar and formatter): these are parameters of the operations that call them (`op`, `test`, `parse`, `format`), with no further properties.
- The other `Geometry` methods (`getType`, `getStartPoint`, `getEndPoint`, `getX`, `getY`, `getNumGeometries`, `difference`, `union`, `intersection`, `convexHull`, `asPolygon`, `asBoundary`, `asValid`, `interpolate`, `interpolateNormalized`): they are outside the modelled core, together with their own argument checks and null-result errors.
- Z ordinates: coordinates are (x, y) pairs, because every write in the modelled code sets only x and y.
- Coordinates are exact reals rather than doubles; no arithmetic is done on them.
- NaN and infinite numbers in `Host.ToInt32`: the conversion is stated for finite numbers only.
- Transform.TransformCoordSeq: the mapping is a pure function that always returns two numbers. A script function with side effects, a throw, or a non-object or non-number result is not modelled.
- Transform.TransformGeom: a collection member of an unhandled kind makes the whole result null. In the code the null member is passed on to the engine, which has no defined behaviour for it.
- Wrapper.Geometry.GetGeometryN: for a negative index the engine's null is adopted as a null wrapper. In the code that null is cloned first, which has no defined behaviour.
- Binding.FillLineCoords: before the first successful read, the uninitialised C doubles are taken to be (0, 0). Every position before the first non-empty point is affected.
- Operations on a wrapper holding a null pointer, and arguments whose handle was already destroyed: the operations require a live handle (`Valid`, `Host.Live`).
- Wrapper.Geometry.GetGeometryN: the SRID of a member cloned out of a collection is not stated; the engine keeps a SRID per member, which the model does not track. A single geometry's clone keeps its SRID.
- Wrapper.Geometry.Buffer: the SRID of the result is not stated; whether the engine copies the input's SRID onto it depends on the engine's version.
- Binding.ErrorSink.Report: the cut counts characters, while the C formatter counts bytes of the UTF-8 message; a message with multi-byte characters keeps fewer characters in the code, and may end inside a character.
- Binding.ReadWKT: the thrown message is the reported message cut at 254 characters rather than at 254 UTF-8 bytes, for the reason given for `Binding.ErrorSink.Report`.
- Formatting of the error callback's message: the callback receives the formatted text; the format string and its arguments are not modelled.
- The notice callback's printing: it is output only.
- The process-wide reader, writer and error buffer shared between threads: the model is sequential.
