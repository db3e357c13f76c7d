/**
 * JSON values as they cross the wire between the pages and the backend.
 * - The browser side: JavaScript truthiness, the `a || b` fallback and
 *   how JSON.stringify writes a number.
 * - The backend side: how Go's encoding/json fills the typed fields of a
 *   request struct. A missing key or a null leaves the zero value (nil for
 *   a pointer or a slice). A value of the wrong JSON type is an error,
 *   which makes gin's ShouldBindJSON fail.
 */
module JsonValues {
  import opened Wrappers
  import opened Numbers

  /** A parsed JSON value; an object's fields form a map. */
  datatype Json = JNull | JBool(b: bool) | JNum(n: real) | JStr(s: string) | JArr(items: seq<Json>) | JObj(fields: map<string, Json>)

  /** JavaScript truthiness of a JSON value. */
  predicate Truthy(j: Json)
  {
    match j
    case JNull => false
    case JBool(b) => b
    case JNum(n) => n != 0.0
    case JStr(s) => s != ""
    case _ => true
  }

  /** `j.k` on a value that is not null: only objects have the fields the client reads. */
  function Field(j: Json, k: string): (r: Option<Json>)
    ensures r.Some? <==> j.JObj? && k in j.fields
  {
    if j.JObj? && k in j.fields then Some(j.fields[k]) else None
  }

  /** `obj.k` on an object held as a map from its keys; None stands for `undefined`. */
  function Get<K>(obj: map<K, Json>, k: K): Option<Json>
  {
    if k in obj then Some(obj[k]) else None
  }

  /** An optional value that JavaScript treats as true; `undefined` is false. */
  predicate Holds(v: Option<Json>)
  {
    v.Some? && Truthy(v.value)
  }

  /** JavaScript's `a || b`: the first operand when it is truthy, else the second. */
  function Or(a: Option<Json>, b: Option<Json>): (r: Option<Json>)
    ensures Holds(r) <==> Holds(a) || Holds(b)
    ensures Holds(a) ==> r == a
    ensures !Holds(a) ==> r == b
  {
    if Holds(a) then a else b
  }

  /** JSON.stringify of a number: NaN and the infinities are written as null. */
  function NumberJson(f: Float): (j: Json)
    ensures j.JNum? <==> f.Finite?
    ensures f.Finite? ==> j == JNum(f.value)
  {
    match f
    case Finite(x) => JNum(x)
    case _ => JNull
  }

  // ---------------------------------------------------------------------
  // Go's encoding/json into typed struct fields
  // ---------------------------------------------------------------------

  /** The value at a key is of a JSON type the Go field cannot hold. */
  datatype DecodeError = WrongType

  /** Missing keys and nulls leave a Go field at its zero value. */
  predicate Unset(v: Option<Json>)
  {
    v.None? || v.value == JNull
  }

  /** A `string` field: "" when unset. */
  function DecodeString(v: Option<Json>): (r: Result<string, DecodeError>)
    ensures r.Ok? <==> Unset(v) || v.value.JStr?
    ensures Unset(v) ==> r == Ok("")
    ensures v.Some? && v.value.JStr? ==> r == Ok(v.value.s)
  {
    if Unset(v) then Ok("")
    else if v.value.JStr? then Ok(v.value.s)
    else Err(WrongType)
  }

  /** A `*string` field: nil when unset. */
  function DecodeStringPtr(v: Option<Json>): (r: Result<Option<string>, DecodeError>)
    ensures r.Ok? <==> Unset(v) || v.value.JStr?
    ensures Unset(v) ==> r == Ok(None)
    ensures v.Some? && v.value.JStr? ==> r == Ok(Some(v.value.s))
  {
    if Unset(v) then Ok(None)
    else if v.value.JStr? then Ok(Some(v.value.s))
    else Err(WrongType)
  }

  /** A `float64` field: 0 when unset. */
  function DecodeFloat(v: Option<Json>): (r: Result<real, DecodeError>)
    ensures r.Ok? <==> Unset(v) || v.value.JNum?
    ensures Unset(v) ==> r == Ok(0.0)
    ensures v.Some? && v.value.JNum? ==> r == Ok(v.value.n)
  {
    if Unset(v) then Ok(0.0)
    else if v.value.JNum? then Ok(v.value.n)
    else Err(WrongType)
  }

  /** A `*float64` field: nil when unset. */
  function DecodeFloatPtr(v: Option<Json>): (r: Result<Option<real>, DecodeError>)
    ensures r.Ok? <==> Unset(v) || v.value.JNum?
    ensures Unset(v) ==> r == Ok(None)
    ensures v.Some? && v.value.JNum? ==> r == Ok(Some(v.value.n))
  {
    if Unset(v) then Ok(None)
    else if v.value.JNum? then Ok(Some(v.value.n))
    else Err(WrongType)
  }

  /** A number with no fractional part. */
  predicate Integral(n: real)
  {
    n == n.Floor as real
  }

  /** An `int` field: 0 when unset; a number with a fraction does not fit. */
  function DecodeInt(v: Option<Json>): (r: Result<int, DecodeError>)
    ensures r.Ok? <==> Unset(v) || (v.value.JNum? && Integral(v.value.n))
    ensures Unset(v) ==> r == Ok(0)
    ensures r.Ok? && !Unset(v) ==> r.value as real == v.value.n
  {
    if Unset(v) then Ok(0)
    else if v.value.JNum? && Integral(v.value.n) then Ok(v.value.n.Floor)
    else Err(WrongType)
  }

  /** A `bool` field: false when unset. */
  function DecodeBool(v: Option<Json>): (r: Result<bool, DecodeError>)
    ensures r.Ok? <==> Unset(v) || v.value.JBool?
    ensures Unset(v) ==> r == Ok(false)
    ensures v.Some? && v.value.JBool? ==> r == Ok(v.value.b)
  {
    if Unset(v) then Ok(false)
    else if v.value.JBool? then Ok(v.value.b)
    else Err(WrongType)
  }

  /** An element of a string array is a string, or null read as "". */
  predicate StringItem(j: Json)
  {
    j == JNull || j.JStr?
  }

  /** The elements of a JSON array decoded into a Go `[]string`. */
  function DecodeItems(items: seq<Json>): (r: Result<seq<string>, DecodeError>)
    ensures r.Ok? <==> forall i :: 0 <= i < |items| ==> StringItem(items[i])
    ensures r.Ok? ==> |r.value| == |items|
    ensures r.Ok? ==> forall i :: 0 <= i < |items| ==> r.value[i] == (if items[i].JStr? then items[i].s else "")
  {
    if items == [] then Ok([])
    else if !StringItem(items[0]) then Err(WrongType)
    else
      match DecodeItems(items[1..])
      case Err(e) => Err(e)
      case Ok(rest) =>
        Ok([if items[0].JStr? then items[0].s else ""] + rest)
  }

  /**
   * A `[]string` or `*[]string` field: nil when unset, else the decoded
   * array (an empty array is an empty, non-nil slice).
   */
  function DecodeStrings(v: Option<Json>): (r: Result<Option<seq<string>>, DecodeError>)
    ensures Unset(v) ==> r == Ok(None)
    ensures r.Ok? && r.value.Some? ==> v.Some? && v.value.JArr?
    ensures v.Some? && v.value.JArr? ==> r == (match DecodeItems(v.value.items) case Ok(ss) => Ok(Some(ss)) case Err(e) => Err(e))
  {
    if Unset(v) then Ok(None)
    else if v.value.JArr? then
      (match DecodeItems(v.value.items)
       case Ok(ss) => Ok(Some(ss))
       case Err(e) => Err(e))
    else Err(WrongType)
  }

  /** How JSON.stringify writes an array of strings. */
  function StringsJson(ss: seq<string>): (j: Json)
    ensures j.JArr? && |j.items| == |ss|
    ensures forall i :: 0 <= i < |ss| ==> j.items[i] == JStr(ss[i])
  {
    JArr(seq(|ss|, i requires 0 <= i < |ss| => JStr(ss[i])))
  }

  /** A string array written by the browser decodes to the same strings in Go. */
  lemma StringsRoundTrip(ss: seq<string>)
    ensures DecodeStrings(Some(StringsJson(ss))) == Ok(Some(ss))
  {
    var items := StringsJson(ss).items;
    assert DecodeItems(items).Ok?;
    assert DecodeItems(items).value == ss;
  }

  /** An array holding an object (or a number, a boolean, an array) does not decode into strings. */
  lemma NonStringItemRefused(items: seq<Json>, i: nat)
    requires i < |items| && !StringItem(items[i])
    ensures DecodeStrings(Some(JArr(items))) == Err(WrongType)
  {
    assert DecodeItems(items).Err?;
    assert DecodeItems(items).error.WrongType?;
  }
}
