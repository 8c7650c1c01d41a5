/** The host side of a call: the argument values a script passes, the two kinds
    of exception the binding throws, and the number conversions the host
    applies when the binding reads an argument. */
module Host {
  import opened Shapes
  import opened Handles

  /** A thrown exception: an `Error` or a `TypeError`, with its message. */
  datatype JsError = PlainError(message: string) | TypeError(message: string)

  /** A call either returns a value or throws. */
  datatype Outcome<+T> = Ok(value: T) | Throw(error: JsError) {
    predicate IsFailure() {
      Throw?
    }

    function PropagateFailure<U>(): Outcome<U>
      requires Throw?
    {
      Throw(error)
    }

    function Extract(): T
      requires Ok?
    {
      value
    }
  }

  /** An argument value. `Object(None)` is a plain object; `Object(Some(p))` is a
      Geometry object, whose native pointer is `p`. A function argument is the
      coordinate mapping it computes. */
  datatype Value =
    | Undefined
    | Null
    | Boolean(b: bool)
    | Number(n: real)
    | Str(s: string)
    | Array(items: seq<Value>)
    | Func(f: Mapping)
    | Object(wrapped: Option<Ptr>)

  /** Arrays and functions are objects too; null is not. */
  predicate IsObject(v: Value)
  {
    v.Array? || v.Func? || v.Object?
  }

  /** Rounding toward zero. */
  function Trunc(r: real): (t: int)
    ensures 0.0 <= r ==> 0 <= t && t as real <= r < t as real + 1.0
    ensures r < 0.0 ==> t <= 0 && t as real - 1.0 < r <= t as real
  {
    if r >= 0.0 then r.Floor else -((-r).Floor)
  }

  const TwoTo31: int := 0x8000_0000
  const TwoTo32: int := 0x1_0000_0000

  /** The host's signed 32-bit conversion of a number: truncate toward zero,
      then keep the low 32 bits, read as a two's-complement integer. */
  function ToInt32(r: real): (n: int)
    ensures -TwoTo31 <= n < TwoTo31
    ensures (n - Trunc(r)) % TwoTo32 == 0
  {
    var m := Trunc(r) % TwoTo32;
    if m >= TwoTo31 then m - TwoTo32 else m
  }

  /** A whole number in the signed 32-bit range converts to itself. */
  lemma ToInt32Exact(k: int)
    requires -TwoTo31 <= k < TwoTo31
    ensures ToInt32(k as real) == k
  {
    assert Trunc(k as real) == k;
  }

  /** Reading a number through an unchecked cast: anything but a number makes
      the host throw. */
  function NumberValue(v: Value): (r: Outcome<real>)
    ensures r.Ok? <==> v.Number?
    ensures r.Ok? ==> r.value == v.n
    ensures r.Throw? ==> r.error == PlainError("A number was expected")
  {
    if v.Number? then Ok(v.n) else Throw(PlainError("A number was expected"))
  }

  /** Reading a signed 32-bit integer through an unchecked cast. */
  function Int32Value(v: Value): (r: Outcome<int>)
    ensures r.Ok? <==> v.Number?
    ensures r.Ok? ==> r.value == ToInt32(v.n) && IsInt32(r.value)
    ensures r.Throw? ==> r.error == PlainError("A number was expected")
  {
    var x :- NumberValue(v);
    Ok(ToInt32(x))
  }

  /** The native pointer of a Geometry object; anything else makes the host
      throw. */
  function Unwrap(v: Value): (r: Outcome<Ptr>)
    ensures r.Ok? <==> v.Object? && v.wrapped.Some?
    ensures r.Ok? ==> r.value == v.wrapped.value
    ensures r.Throw? ==> r.error == PlainError("Invalid argument")
  {
    if v.Object? && v.wrapped.Some? then Ok(v.wrapped.value) else Throw(PlainError("Invalid argument"))
  }

  /** Every Geometry object reachable from the value holds a live handle: a
      script can only reach Geometry objects whose handles were not destroyed. */
  predicate Live(v: Value, store: map<Handle, Native>)
  {
    match v
    case Object(Some(p)) => p.Ref? && p.id in store
    case Array(items) => forall i :: 0 <= i < |items| ==> Live(items[i], store)
    case _ => true
  }

  predicate LiveArgs(args: seq<Value>, store: map<Handle, Native>)
  {
    forall i :: 0 <= i < |args| ==> Live(args[i], store)
  }
}
