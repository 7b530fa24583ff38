/**
 * The JSON values the codecs read and write, and the handful of
 * nlohmann::json operations they use: `find`, `at`, `operator[]` for
 * writing, `erase`, and the strict `get<T>` conversions. A C++ exception
 * becomes a `Fail` result.
 */
module Json {

  /** The `std::int64_t` of the source. */
  newtype int64 = x: int | -0x8000_0000_0000_0000 <= x < 0x8000_0000_0000_0000

  datatype Option<T> = None | Some(value: T)

  /** A JSON value. Numbers are integers only; object keys are unique. */
  datatype Json =
    | Null
    | Bool(b: bool)
    | Int(n: int64)
    | Str(s: string)
    | Arr(items: seq<Json>)
    | Obj(fields: map<string, Json>)

  /**
   * What the source throws: nlohmann's type_error (wrong JSON type),
   * nlohmann's out_of_range (a key `at` did not find), or the codec's own
   * runtime_error "Unknown X" for a string outside an enumeration.
   */
  datatype Error =
    | TypeError(expected: string)
    | OutOfRange(key: string)
    | Unknown(enumeration: string)

  datatype Result<T> = Ok(value: T) | Fail(error: Error) {
    predicate IsFailure() { Fail? }
    function PropagateFailure<U>(): Result<U>
      requires Fail?
    {
      Fail(error)
    }
    function Extract(): T
      requires Ok?
    {
      value
    }
  }

  /** `j.find(key)`: the member under `key`; nothing for a non-object. */
  function Find(j: Json, key: string): Option<Json> {
    if j.Obj? && key in j.fields then Some(j.fields[key]) else None
  }

  /** `j.at(key)`: throws type_error on a non-object, out_of_range on a missing key. */
  function At(j: Json, key: string): (r: Result<Json>)
    ensures r.Ok? <==> Find(j, key).Some?
    ensures r.Ok? ==> Find(j, key) == Some(r.value)
    ensures !j.Obj? ==> r == Fail(TypeError("object"))
  {
    if !j.Obj? then Fail(TypeError("object"))
    else if key in j.fields then Ok(j.fields[key])
    else Fail(OutOfRange(key))
  }

  /** The members of a value `operator[]` may write into: none for null. */
  function Members(j: Json): map<string, Json>
    requires j.Null? || j.Obj?
  {
    if j.Obj? then j.fields else map[]
  }

  /**
   * `j[key] = v` on a null or object value: null first becomes an empty
   * object, then the member is inserted or overwritten.
   */
  function Put(j: Json, key: string, v: Json): (r: Json)
    requires j.Null? || j.Obj?
    ensures r.Obj?
    ensures Find(r, key) == Some(v)
    ensures forall k | k != key :: Find(r, k) == Find(j, k)
  {
    Obj(Members(j)[key := v])
  }

  /** `j[key] = v` on any value: every non-object other than null throws. */
  function Insert(j: Json, key: string, v: Json): (r: Result<Json>)
    ensures r.Ok? <==> j.Null? || j.Obj?
    ensures r.Ok? ==> r.value == Put(j, key, v)
  {
    if j.Null? || j.Obj? then Ok(Put(j, key, v)) else Fail(TypeError("object"))
  }

  /** `j.erase(key)`: removes the member if present; throws on a non-object, null included. */
  function Erase(j: Json, key: string): (r: Result<Json>)
    ensures r.Ok? <==> j.Obj?
    ensures r.Ok? ==> r.value.Obj? && Find(r.value, key).None?
    ensures r.Ok? ==> forall k | k != key :: Find(r.value, k) == Find(j, k)
  {
    if j.Obj? then Ok(Obj(j.fields - {key})) else Fail(TypeError("object"))
  }

  /**
   * The object a sequence of member writes produces, given, for each key
   * a codec may write, the value written or nothing. A codec that writes
   * no member leaves its output as it was default-constructed: null.
   */
  function Object(entries: map<string, Option<Json>>): (j: Json)
    ensures j.Null? || j.Obj?
  {
    var fields := map key | key in entries && entries[key].Some? :: entries[key].value;
    if fields == map[] then Null else Obj(fields)
  }

  lemma FindObject(entries: map<string, Option<Json>>, key: string)
    ensures Find(Object(entries), key) == if key in entries then entries[key] else None
  {
    var fields := map key | key in entries && entries[key].Some? :: entries[key].value;
    if key in entries && entries[key].Some? {
      assert key in fields;
    }
  }

  /**
   * Writing one more member into the result of `Object` is `Object` with
   * one more entry: a codec's step-by-step writes build exactly the
   * object of its entries.
   */
  lemma PutObject(entries: map<string, Option<Json>>, key: string, v: Json)
    ensures Put(Object(entries), key, v) == Object(entries[key := Some(v)])
  {
    var before := map k | k in entries && entries[k].Some? :: entries[k].value;
    var updated := entries[key := Some(v)];
    var after := map k | k in updated && updated[k].Some? :: updated[k].value;
    assert key in after;
    assert after == before[key := v];
  }

  /** An entry that holds nothing writes nothing. */
  lemma ObjectSkipsNone(entries: map<string, Option<Json>>, key: string)
    ensures Object(entries[key := None]) == Object(entries - {key})
  {
    var cleared := entries[key := None];
    var removed := entries - {key};
    var a := map k | k in cleared && cleared[k].Some? :: cleared[k].value;
    var b := map k | k in removed && removed[k].Some? :: removed[k].value;
    assert a == b;
  }

  /** `json(b)`, `json(n)`, `json(s)` as functions, so that codecs can pass them. */
  function OfBool(b: bool): Json { Bool(b) }
  function OfInt(n: int64): Json { Int(n) }
  function OfString(s: string): Json { Str(s) }
  /** `json(v)` for a payload held as an uninterpreted JSON value. */
  function OfJson(v: Json): Json { v }

  /** `get<bool>()`: only a boolean converts. */
  function GetBool(j: Json): (r: Result<bool>)
    ensures r.Ok? <==> j.Bool?
    ensures r.Ok? ==> OfBool(r.value) == j
  {
    if j.Bool? then Ok(j.b) else Fail(TypeError("boolean"))
  }

  /** `get<std::int64_t>()` restricted to integer numbers. */
  function GetInt(j: Json): (r: Result<int64>)
    ensures r.Ok? <==> j.Int?
    ensures r.Ok? ==> OfInt(r.value) == j
  {
    if j.Int? then Ok(j.n) else Fail(TypeError("number"))
  }

  /** `get<std::string>()`: only a string converts. */
  function GetString(j: Json): (r: Result<string>)
    ensures r.Ok? <==> j.Str?
    ensures r.Ok? ==> OfString(r.value) == j
  {
    if j.Str? then Ok(j.s) else Fail(TypeError("string"))
  }

  /** `get<json>()`: always succeeds with the value itself. */
  function GetJson(j: Json): Result<Json> {
    Ok(j)
  }
}
