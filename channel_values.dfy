/**
 * Values that cross the platform channel: the loosely typed argument bag of a method call and
 * the `Map<String, Any?>` payloads sent back. A value keeps the runtime type it arrives with;
 * asking for it as another type is the failed cast of `call.argument<T>(key)`.
 */
module ChannelValues {
  import opened KotlinTypes

  datatype Value =
    | Null
    | Bool(b: bool)
    | Int(i: Int32)
    | Long(l: Int64)
    | Double(d: real)
    | Str(s: string)
    | List(items: seq<Value>)
    | Map(entries: map<string, Value>)

  type Payload = map<string, Value>

  /** A nullable string as a payload value. */
  function OfString(o: Option<string>): (v: Value)
    ensures o.None? <==> v == Null
    ensures o.Some? ==> v == Str(o.value)
  {
    match o
    case None => Null
    case Some(s) => Str(s)
  }

  /** A nullable `Long` as a payload value. */
  function OfLong(o: Option<Int64>): (v: Value)
    ensures o.None? <==> v == Null
    ensures o.Some? ==> v == Long(o.value)
  {
    match o
    case None => Null
    case Some(l) => Long(l)
  }

  /** The argument whose runtime type did not match the type asked for (a `ClassCastException`). */
  datatype CastFailure = CastFailure(key: string)

  /** `call.argument<String>(key)`: absent and `null` read as `null`. */
  function StringArgument(args: Payload, key: string): (r: Result<Option<string>, CastFailure>)
    ensures key !in args || args[key] == Null ==> r == Success(None)
    ensures key in args && args[key].Str? ==> r == Success(Some(args[key].s))
    ensures r.Failure? <==> key in args && !(args[key].Null? || args[key].Str?)
  {
    if key !in args then Success(None)
    else match args[key]
      case Null => Success(None)
      case Str(s) => Success(Some(s))
      case _ => Failure(CastFailure(key))
  }

  /** `call.argument<Long>(key)`: a 32-bit `Int` does not cast to `Long`. */
  function LongArgument(args: Payload, key: string): (r: Result<Option<Int64>, CastFailure>)
    ensures key !in args || args[key] == Null ==> r == Success(None)
    ensures key in args && args[key].Long? ==> r == Success(Some(args[key].l))
    ensures r.Failure? <==> key in args && !(args[key].Null? || args[key].Long?)
  {
    if key !in args then Success(None)
    else match args[key]
      case Null => Success(None)
      case Long(l) => Success(Some(l))
      case _ => Failure(CastFailure(key))
  }

  /** `call.argument<Int>(key)`. */
  function IntArgument(args: Payload, key: string): (r: Result<Option<Int32>, CastFailure>)
    ensures key !in args || args[key] == Null ==> r == Success(None)
    ensures key in args && args[key].Int? ==> r == Success(Some(args[key].i))
    ensures r.Failure? <==> key in args && !(args[key].Null? || args[key].Int?)
  {
    if key !in args then Success(None)
    else match args[key]
      case Null => Success(None)
      case Int(i) => Success(Some(i))
      case _ => Failure(CastFailure(key))
  }

  /** `call.argument<Boolean>(key)`. */
  function BoolArgument(args: Payload, key: string): (r: Result<Option<bool>, CastFailure>)
    ensures key !in args || args[key] == Null ==> r == Success(None)
    ensures key in args && args[key].Bool? ==> r == Success(Some(args[key].b))
    ensures r.Failure? <==> key in args && !(args[key].Null? || args[key].Bool?)
  {
    if key !in args then Success(None)
    else match args[key]
      case Null => Success(None)
      case Bool(b) => Success(Some(b))
      case _ => Failure(CastFailure(key))
  }
}
