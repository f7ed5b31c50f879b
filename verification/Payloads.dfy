/** Decoded JSON payloads and the Python conversions that read them. */
module Payloads {
  import opened Common

  datatype Float = Finite(v: real) | Infinite(negative: bool) | NotANumber

  /** A decoded payload; objects keep their keys in order, and a key need not be text. */
  datatype Json =
    | Null
    | Bool(b: bool)
    | Integer(i: int)
    | Number(f: Float)
    | Text(s: string)
    | List(items: seq<Json>)
    | Object(fields: seq<(Json, Json)>)

  /** A conversion yields a value, raises `TypeError` or `ValueError`, or raises something else. */
  datatype Converted<T> = Is(value: T) | Refused | Overflows

  /** The conversions of the language: `float`, `int`, a lenient boolean, `fromtimestamp` of
      epoch milliseconds, and the wall clock of New York at an instant. */
  datatype Python = Python(
    toFloat: Json -> Converted<Float>,
    toInt: Json -> Converted<int>,
    toBool: Json -> Converted<bool>,
    toInstant: int -> Converted<real>,
    eastern: real -> Eastern
  )

  /** A day number, and the time of that day in minutes. */
  datatype Eastern = Eastern(day: int, minute: real)

  datatype Result<+T> = Ok(value: T) | Raises {
    predicate IsFailure() { Raises? }
    function PropagateFailure<U>(): Result<U> requires IsFailure() { Raises }
    function Extract(): T requires !IsFailure() { value }
  }

  function Get(fields: seq<(Json, Json)>, name: string): Json {
    if fields == [] then Null
    else if fields[0].0 == Text(name) then fields[0].1
    else Get(fields[1..], name)
  }

  lemma {:induction false} GetNth(fields: seq<(Json, Json)>, i: nat, name: string)
    requires i < |fields| && fields[i].0 == Text(name)
    requires forall j :: 0 <= j < i ==> fields[j].0 != Text(name)
    ensures Get(fields, name) == fields[i].1
  {
    if i > 0 {
      GetNth(fields[1..], i - 1, name);
    }
  }

  /** A field that is absent, null or unreadable reads as `None`. */
  function ReadFloat(py: Python, o: seq<(Json, Json)>, name: string): Result<Option<Float>> {
    var v := Get(o, name);
    if v.Null? then Ok(None)
    else
      match py.toFloat(v)
      case Is(x) => Ok(Some(x))
      case Refused => Ok(None)
      case Overflows => Raises
  }

  function ReadInt(py: Python, o: seq<(Json, Json)>, name: string): Result<Option<int>> {
    var v := Get(o, name);
    if v.Null? then Ok(None)
    else
      match py.toInt(v)
      case Is(x) => Ok(Some(x))
      case Refused => Ok(None)
      case Overflows => Raises
  }

  predicate IsFinite(x: Option<Float>) {
    x.Some? && x.value.Finite?
  }

  predicate IsNegative(x: Float) {
    (x.Finite? && x.v < 0.0) || (x.Infinite? && x.negative)
  }

  predicate FiniteOrNone(x: Option<Float>) {
    x.None? || x.value.Finite?
  }

  predicate NonnegativeOrNone(x: Option<Float>) {
    x.None? || (x.value.Finite? && x.value.v >= 0.0)
  }

  predicate ContainsText(text: string, part: string) {
    |part| <= |text| && (text[..|part|] == part || (text != [] && ContainsText(text[1..], part)))
  }
}
