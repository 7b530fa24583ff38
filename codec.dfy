/**
 * The presence convention every optional member follows (`to_optJson` and
 * `from_optJson`), the `at(...).get_to(...)` reads of required members,
 * and the array conversion of `std::vector`.
 *
 * A record encoder is modelled as `Object(entries)`: for every key the
 * record may write, the value written, or nothing when an optional member
 * is absent. `Json.PutObject` shows that this is what writing the members
 * one after the other produces. The field lemmas below each give one
 * member's round trip through such an object.
 */
module Codec {
  import opened Json

  /** `to_optJson(j, key, p)`: writes the member only when `p` holds a value. */
  function ToOptJson<T>(j: Json, key: string, p: Option<T>, encode: T -> Json): (r: Json)
    requires j.Null? || j.Obj?
    ensures r.Null? || r.Obj?
    ensures Find(r, key) == if p.Some? then Some(encode(p.value)) else Find(j, key)
    ensures forall k | k != key :: Find(r, k) == Find(j, k)
  {
    if p.Some? then Put(j, key, encode(p.value)) else j
  }

  /** `from_optJson(j, key, p)`: reads the member only when `find` sees it. */
  function FromOptJson<T>(j: Json, key: string, decode: Json -> Result<T>): (r: Result<Option<T>>)
    ensures Find(j, key).None? ==> r == Ok(None)
    ensures Find(j, key).Some? ==> (r.Ok? <==> decode(Find(j, key).value).Ok?)
    ensures r.Ok? && Find(j, key).Some? ==> r.value == Some(decode(Find(j, key).value).value)
  {
    match Find(j, key)
    case None => Ok(None)
    case Some(v) =>
      var x :- decode(v);
      Ok(Some(x))
  }

  /**
   * The presence law: after `to_optJson` into a value that lacks the key,
   * `from_optJson` gives back exactly the optional, present or absent.
   */
  lemma OptJsonRoundTrip<T>(j: Json, key: string, p: Option<T>, encode: T -> Json, decode: Json -> Result<T>)
    requires j.Null? || j.Obj?
    requires Find(j, key).None?
    requires p.Some? ==> decode(encode(p.value)) == Ok(p.value)
    ensures Find(ToOptJson(j, key, p, encode), key).Some? <==> p.Some?
    ensures FromOptJson(ToOptJson(j, key, p, encode), key, decode) == Ok(p)
  {
  }

  /** The entry `to_optJson` contributes to a record's object. */
  function Opt<T>(p: Option<T>, encode: T -> Json): (e: Option<Json>)
    ensures e.Some? <==> p.Some?
    ensures e.Some? ==> e.value == encode(p.value)
  {
    if p.Some? then Some(encode(p.value)) else None
  }

  /** `Opt` for the three primitive member types. */
  function OptBool(p: Option<bool>): (e: Option<Json>)
    ensures e == Opt(p, OfBool)
  {
    if p.Some? then Some(Bool(p.value)) else None
  }

  function OptInt(p: Option<int64>): (e: Option<Json>)
    ensures e == Opt(p, OfInt)
  {
    if p.Some? then Some(Int(p.value)) else None
  }

  function OptString(p: Option<string>): (e: Option<Json>)
    ensures e == Opt(p, OfString)
  {
    if p.Some? then Some(Str(p.value)) else None
  }

  /** `j.at(key).get_to(field)` with a given conversion. */
  function Required<T>(j: Json, key: string, decode: Json -> Result<T>): (r: Result<T>)
    ensures Find(j, key).None? ==> r.Fail?
    ensures Find(j, key).Some? ==> r == decode(Find(j, key).value)
  {
    var v :- At(j, key);
    decode(v)
  }

  /** `Required` for the three primitive member types. */
  function RequiredBool(j: Json, key: string): (r: Result<bool>)
    ensures r == Required(j, key, GetBool)
  {
    var v :- At(j, key);
    if v.Bool? then Ok(v.b) else Fail(TypeError("boolean"))
  }

  function RequiredInt(j: Json, key: string): (r: Result<int64>)
    ensures r == Required(j, key, GetInt)
  {
    var v :- At(j, key);
    if v.Int? then Ok(v.n) else Fail(TypeError("number"))
  }

  function RequiredString(j: Json, key: string): (r: Result<string>)
    ensures r == Required(j, key, GetString)
  {
    var v :- At(j, key);
    if v.Str? then Ok(v.s) else Fail(TypeError("string"))
  }

  /** `from_optJson` for the three primitive member types. */
  function OptionalBool(j: Json, key: string): (r: Result<Option<bool>>)
    ensures r == FromOptJson(j, key, GetBool)
  {
    match Find(j, key)
    case None => Ok(None)
    case Some(v) => if v.Bool? then Ok(Some(v.b)) else Fail(TypeError("boolean"))
  }

  function OptionalInt(j: Json, key: string): (r: Result<Option<int64>>)
    ensures r == FromOptJson(j, key, GetInt)
  {
    match Find(j, key)
    case None => Ok(None)
    case Some(v) => if v.Int? then Ok(Some(v.n)) else Fail(TypeError("number"))
  }

  function OptionalString(j: Json, key: string): (r: Result<Option<string>>)
    ensures r == FromOptJson(j, key, GetString)
  {
    match Find(j, key)
    case None => Ok(None)
    case Some(v) => if v.Str? then Ok(Some(v.s)) else Fail(TypeError("string"))
  }

  /**
   * `from_optJson` for a JSON payload: `get<json>()` accepts any value, so
   * this read cannot fail and the member is whatever the key holds.
   */
  function OptionalJson(j: Json, key: string): (r: Option<Json>)
    ensures FromOptJson(j, key, GetJson) == Ok(r)
  {
    Find(j, key)
  }

  // Round trips of one member through `Object(entries)`.

  lemma RequiredRoundTrip<T>(entries: map<string, Option<Json>>, key: string, x: T, encode: T -> Json, decode: Json -> Result<T>)
    requires key in entries && entries[key] == Some(encode(x))
    requires decode(encode(x)) == Ok(x)
    ensures Required(Object(entries), key, decode) == Ok(x)
  {
    FindObject(entries, key);
  }

  lemma OptionalRoundTrip<T>(entries: map<string, Option<Json>>, key: string, p: Option<T>, encode: T -> Json, decode: Json -> Result<T>)
    requires key in entries && entries[key] == Opt(p, encode)
    requires p.Some? ==> decode(encode(p.value)) == Ok(p.value)
    ensures FromOptJson(Object(entries), key, decode) == Ok(p)
  {
    FindObject(entries, key);
  }

  lemma RequiredBoolRoundTrip(entries: map<string, Option<Json>>, key: string, x: bool)
    requires key in entries && entries[key] == Some(Bool(x))
    ensures RequiredBool(Object(entries), key) == Ok(x)
  {
    FindObject(entries, key);
  }

  lemma RequiredIntRoundTrip(entries: map<string, Option<Json>>, key: string, x: int64)
    requires key in entries && entries[key] == Some(Int(x))
    ensures RequiredInt(Object(entries), key) == Ok(x)
  {
    FindObject(entries, key);
  }

  lemma RequiredStringRoundTrip(entries: map<string, Option<Json>>, key: string, x: string)
    requires key in entries && entries[key] == Some(Str(x))
    ensures RequiredString(Object(entries), key) == Ok(x)
  {
    FindObject(entries, key);
  }

  lemma OptionalBoolRoundTrip(entries: map<string, Option<Json>>, key: string, p: Option<bool>)
    requires key in entries && entries[key] == OptBool(p)
    ensures OptionalBool(Object(entries), key) == Ok(p)
  {
    FindObject(entries, key);
  }

  lemma OptionalIntRoundTrip(entries: map<string, Option<Json>>, key: string, p: Option<int64>)
    requires key in entries && entries[key] == OptInt(p)
    ensures OptionalInt(Object(entries), key) == Ok(p)
  {
    FindObject(entries, key);
  }

  lemma OptionalStringRoundTrip(entries: map<string, Option<Json>>, key: string, p: Option<string>)
    requires key in entries && entries[key] == OptString(p)
    ensures OptionalString(Object(entries), key) == Ok(p)
  {
    FindObject(entries, key);
  }

  lemma OptionalJsonRoundTrip(entries: map<string, Option<Json>>, key: string, p: Option<Json>)
    requires key in entries && entries[key] == p
    ensures OptionalJson(Object(entries), key) == p
  {
    FindObject(entries, key);
  }

  /** The keys of `Object(entries)` are exactly the entries that hold a value. */
  lemma ObjectKeys(entries: map<string, Option<Json>>)
    ensures Object(entries).Obj? <==> exists k :: k in entries && entries[k].Some?
    ensures Object(entries).Obj? ==> Object(entries).fields.Keys == set k | k in entries && entries[k].Some?
  {
    var fields := map key | key in entries && entries[key].Some? :: entries[key].value;
    if k :| k in entries && entries[k].Some? {
      assert k in fields;
    }
  }

  // std::vector<T> <-> JSON array.

  /** `json(xs)` for a vector: an array of the elements' encodings, in order. */
  function EncodeList<T>(xs: seq<T>, encode: T -> Json): (j: Json)
    ensures j.Arr? && |j.items| == |xs|
    ensures forall i | 0 <= i < |xs| :: j.items[i] == encode(xs[i])
  {
    Arr(seq(|xs|, i requires 0 <= i < |xs| => encode(xs[i])))
  }

  /** `get<std::vector<T>>()`: an array is required; elements convert in order and the first failure wins. */
  function DecodeList<T>(j: Json, decode: Json -> Result<T>): (r: Result<seq<T>>)
    ensures !j.Arr? ==> r == Fail(TypeError("array"))
    ensures j.Arr? ==> r == DecodeItems(j.items, decode)
  {
    if j.Arr? then DecodeItems(j.items, decode) else Fail(TypeError("array"))
  }

  function DecodeItems<T>(items: seq<Json>, decode: Json -> Result<T>): (r: Result<seq<T>>)
    ensures r.Ok? <==> forall i | 0 <= i < |items| :: decode(items[i]).Ok?
    ensures r.Ok? ==> |r.value| == |items| && forall i | 0 <= i < |items| :: decode(items[i]) == Ok(r.value[i])
  {
    if |items| == 0 then Ok([])
    else
      var x :- decode(items[0]);
      var rest :- DecodeItems(items[1..], decode);
      assert forall i | 1 <= i < |items| :: items[i] == items[1..][i - 1];
      Ok([x] + rest)
  }

  lemma {:induction false} ListRoundTrip<T>(xs: seq<T>, encode: T -> Json, decode: Json -> Result<T>)
    requires forall x | x in xs :: decode(encode(x)) == Ok(x)
    ensures DecodeList(EncodeList(xs, encode), decode) == Ok(xs)
  {
    var items := EncodeList(xs, encode).items;
    assert forall i | 0 <= i < |items| :: decode(items[i]) == Ok(xs[i]);
    var r := DecodeItems(items, decode);
    assert r.Ok?;
    assert r.value == xs;
  }

  /** The entries a required and an optional vector member contribute. */
  function OptList<T>(p: Option<seq<T>>, encode: T -> Json): (e: Option<Json>)
    ensures e.Some? <==> p.Some?
    ensures e.Some? ==> e.value == EncodeList(p.value, encode)
  {
    if p.Some? then Some(EncodeList(p.value, encode)) else None
  }

  function RequiredList<T>(j: Json, key: string, decode: Json -> Result<T>): (r: Result<seq<T>>)
    ensures Find(j, key).None? ==> r.Fail?
    ensures Find(j, key).Some? ==> r == DecodeList(Find(j, key).value, decode)
  {
    var v :- At(j, key);
    DecodeList(v, decode)
  }

  function OptionalList<T>(j: Json, key: string, decode: Json -> Result<T>): (r: Result<Option<seq<T>>>)
    ensures Find(j, key).None? ==> r == Ok(None)
    ensures Find(j, key).Some? ==> (r.Ok? <==> DecodeList(Find(j, key).value, decode).Ok?)
    ensures Find(j, key).Some? && r.Ok? ==> r.value == Some(DecodeList(Find(j, key).value, decode).value)
  {
    match Find(j, key)
    case None => Ok(None)
    case Some(v) =>
      var xs :- DecodeList(v, decode);
      Ok(Some(xs))
  }

  lemma RequiredListRoundTrip<T>(entries: map<string, Option<Json>>, key: string, xs: seq<T>, encode: T -> Json, decode: Json -> Result<T>)
    requires key in entries && entries[key] == Some(EncodeList(xs, encode))
    requires forall x | x in xs :: decode(encode(x)) == Ok(x)
    ensures RequiredList(Object(entries), key, decode) == Ok(xs)
  {
    FindObject(entries, key);
    ListRoundTrip(xs, encode, decode);
  }

  lemma OptionalListRoundTrip<T>(entries: map<string, Option<Json>>, key: string, p: Option<seq<T>>, encode: T -> Json, decode: Json -> Result<T>)
    requires key in entries && entries[key] == OptList(p, encode)
    requires p.Some? ==> forall x | x in p.value :: decode(encode(x)) == Ok(x)
    ensures OptionalList(Object(entries), key, decode) == Ok(p)
  {
    FindObject(entries, key);
    if p.Some? {
      ListRoundTrip(p.value, encode, decode);
    }
  }
}
