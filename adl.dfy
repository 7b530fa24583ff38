/**
 * The two custom nlohmann serialisers of the codec: the variant of an
 * integer or a string (module and stack-frame ids), and the environment
 * map of a runInTerminal request, whose absent values travel as JSON null.
 */
module Adl {
  import opened Json

  /** `std::variant<std::int64_t, std::string>`. */
  datatype IntOrString = Number(n: int64) | Text(text: string)

  /** Whichever alternative the variant holds becomes a number or a string. */
  function EncodeIntOrString(v: IntOrString): (j: Json)
    ensures DecodeIntOrString(j) == Ok(v)
  {
    match v
    case Number(n) => Int(n)
    case Text(text) => Str(text)
  }

  /** A number decodes as the integer alternative; anything else must be a string. */
  function DecodeIntOrString(j: Json): (r: Result<IntOrString>)
    ensures r.Ok? <==> j.Int? || j.Str?
    ensures j.Int? ==> r == Ok(Number(j.n))
    ensures !j.Int? && !j.Str? ==> r == Fail(TypeError("string"))
  {
    if j.Int? then Ok(Number(j.n))
    else
      var text :- GetString(j);
      Ok(Text(text))
  }

  /** `std::map<std::string, std::optional<std::string>>`. */
  type Environment = map<string, Option<string>>

  /** The JSON one entry's value becomes: its string, or null when it holds none. */
  function EncodeValue(value: Option<string>): Json {
    if value.Some? then Str(value.value) else Null
  }

  /**
   * The JSON the map serialiser produces: one member per entry. An empty
   * map writes nothing and leaves the default-constructed null.
   */
  function EncodeEnvironment(env: Environment): (j: Json)
    ensures j.Null? <==> env == map[]
    ensures j.Obj? ==> j.fields == map key | key in env :: EncodeValue(env[key])
  {
    var entries := map key | key in env :: Some(EncodeValue(env[key]));
    var fields := map key | key in entries && entries[key].Some? :: entries[key].value;
    assert fields == map key | key in env :: EncodeValue(env[key]);
    Object(entries)
  }

  /** What the serialiser's loop has written once the keys in `done` are handled. */
  function Written(env: Environment, done: set<string>): Json
    requires done <= env.Keys
  {
    if done == {} then Null else Obj(map key | key in done :: EncodeValue(env[key]))
  }

  lemma WriteStep(env: Environment, done: set<string>, key: string)
    requires done <= env.Keys && key in env
    ensures Put(Written(env, done), key, EncodeValue(env[key])) == Written(env, done + {key})
  {
    assert Members(Written(env, done))[key := EncodeValue(env[key])] == map k | k in done + {key} :: EncodeValue(env[k]);
  }

  lemma WrittenAll(env: Environment)
    ensures Written(env, env.Keys) == EncodeEnvironment(env)
  {
    if env != map[] {
      var key :| key in env;
      assert key in env.Keys;
    }
  }

  /** The map serialiser's `to_json`: a loop writing one member per entry. */
  method WriteEnvironment(env: Environment) returns (j: Json)
    ensures j == EncodeEnvironment(env)
  {
    j := Null;
    var done: set<string> := {};
    var rest := env.Keys;
    while rest != {}
      invariant done + rest == env.Keys && done !! rest
      invariant j == Written(env, done)
      decreases |rest|
    {
      var key :| key in rest;
      WriteStep(env, done, key);
      j := Put(j, key, EncodeValue(env[key]));
      done := done + {key};
      rest := rest - {key};
    }
    WrittenAll(env);
  }

  /** The decimal digits nlohmann gives an array element as its key in `items()`. */
  function Decimal(n: nat): string
    decreases n
  {
    var digit := ['0', '1', '2', '3', '4', '5', '6', '7', '8', '9'][n % 10];
    if n < 10 then [digit] else Decimal(n / 10) + [digit]
  }

  /** The elements of an array keyed by their indices, later indices last. */
  function IndexedItems(items: seq<Json>): map<string, Json>
    decreases |items|
  {
    if |items| == 0 then map[]
    else IndexedItems(items[..|items| - 1])[Decimal(|items| - 1) := items[|items| - 1]]
  }

  /**
   * The key/value pairs `j.items()` visits: the members of an object, the
   * elements of an array under their indices, nothing for null, and the
   * value itself under the empty key for any other value.
   */
  function Items(j: Json): map<string, Json> {
    match j
    case Null => map[]
    case Obj(fields) => fields
    case Arr(items) => IndexedItems(items)
    case _ => map["" := j]
  }

  /** What the loop body accepts as one entry's value: null or a string. */
  predicate IsValue(v: Json) {
    v.Null? || v.Str?
  }

  function DecodeValue(v: Json): Option<string>
    requires IsValue(v)
  {
    if v.Null? then None else Some(v.s)
  }

  /** The entries read from the visited pairs whose keys are in `done`. */
  function ReadSoFar(items: map<string, Json>, done: set<string>): Environment
    requires done <= items.Keys
    requires forall key | key in done :: IsValue(items[key])
  {
    map key | key in done :: DecodeValue(items[key])
  }

  /**
   * The map serialiser's `from_json`, as a result: every visited value must
   * be null or a string (`get<std::string>` throws on anything else), and
   * the map holds one entry per visited key.
   */
  function DecodeEnvironment(j: Json): (r: Result<Environment>)
    ensures r.Ok? <==> forall key | key in Items(j) :: IsValue(Items(j)[key])
    ensures r.Fail? ==> r.error == TypeError("string")
    ensures r.Ok? ==> r.value.Keys == Items(j).Keys
    ensures r.Ok? ==> forall key | key in Items(j) && Items(j)[key].Null? :: r.value[key] == None
    ensures r.Ok? ==> forall key | key in Items(j) && Items(j)[key].Str? :: r.value[key] == Some(Items(j)[key].s)
  {
    DecodeItems(Items(j))
  }

  function DecodeItems(items: map<string, Json>): Result<Environment> {
    if forall key | key in items :: IsValue(items[key])
    then Ok(ReadSoFar(items, items.Keys))
    else Fail(TypeError("string"))
  }

  lemma ReadStep(items: map<string, Json>, done: set<string>, key: string)
    requires done <= items.Keys && key in items
    requires forall k | k in done :: IsValue(items[k])
    requires IsValue(items[key])
    ensures ReadSoFar(items, done)[key := DecodeValue(items[key])] == ReadSoFar(items, done + {key})
  {
  }

  /** The map serialiser's `from_json`: a loop reading one entry per visited pair. */
  method ReadEnvironment(j: Json) returns (r: Result<Environment>)
    ensures r == DecodeEnvironment(j)
  {
    r := ReadItems(Items(j));
  }

  method ReadItems(items: map<string, Json>) returns (r: Result<Environment>)
    ensures r == DecodeItems(items)
  {
    var env: Environment := map[];
    var done: set<string> := {};
    var rest := items.Keys;
    while rest != {}
      invariant done + rest == items.Keys && done !! rest
      invariant forall key | key in done :: IsValue(items[key])
      invariant env == ReadSoFar(items, done)
      decreases |rest|
    {
      var key :| key in rest;
      var value := items[key];
      if value.Null? {
        ReadStep(items, done, key);
        env := env[key := None];
      } else if value.Str? {
        ReadStep(items, done, key);
        env := env[key := Some(value.s)];
      } else {
        return Fail(TypeError("string"));
      }
      done := done + {key};
      rest := rest - {key};
    }
    return Ok(env);
  }

  /** Decoding what the map serialiser wrote gives back the map, absent values included. */
  lemma EnvironmentRoundTrip(env: Environment)
    ensures DecodeEnvironment(EncodeEnvironment(env)) == Ok(env)
  {
    var j := EncodeEnvironment(env);
    var items := Items(j);
    assert items == map key | key in env :: EncodeValue(env[key]);
    assert forall key | key in items :: IsValue(items[key]);
    var decoded := ReadSoFar(items, items.Keys);
    assert decoded.Keys == env.Keys;
    assert forall key | key in decoded :: decoded[key] == env[key];
    assert decoded == env;
  }

  /** The same for an optional map: present maps survive the trip. */
  lemma OptionalEnvironmentRoundTrip(env: Option<Environment>)
    ensures env.Some? ==> DecodeEnvironment(EncodeEnvironment(env.value)) == Ok(env.value)
  {
    if env.Some? {
      EnvironmentRoundTrip(env.value);
    }
  }
}
