/**
 * The earlier, stand-alone header `dap.hpp`: its encoders build the
 * object from an initializer list of the required members and then add
 * the optional ones one by one with `to_optJson`, changing the value in
 * place. Each method below follows those steps and is proved to write
 * exactly what the codec of the same record in `Types` writes, so the
 * round trips proved there hold for the earlier header as well.
 */
module Legacy {
  import opened Json
  import opened Codec
  import opened Enums
  import Types

  /** `to_optJson` into an object built from entries that do not mention `key` yet. */
  lemma ToOptJsonObject<T>(entries: map<string, Option<Json>>, key: string, p: Option<T>, encode: T -> Json)
    requires key !in entries
    ensures ToOptJson(Object(entries), key, p, encode) == Object(entries[key := Opt(p, encode)])
  {
    if p.Some? {
      PutObject(entries, key, encode(p.value));
    } else {
      ObjectSkipsNone(entries, key);
      assert entries - {key} == entries;
    }
  }

  /** `to_optJson` into an object: the key joins the object's keys exactly when the value is present. */
  lemma ToOptJsonKeys<T>(j: Json, key: string, p: Option<T>, encode: T -> Json)
    requires j.Obj?
    ensures ToOptJson(j, key, p, encode).Obj?
    ensures ToOptJson(j, key, p, encode).fields.Keys == j.fields.Keys + (if p.Some? then {key} else {})
  {
  }

  /** `to_json(j, ExceptionBreakpointsFilter)`: both labels, then each optional member that is present. */
  method WriteExceptionBreakpointsFilter(x: Types.ExceptionBreakpointsFilter) returns (j: Json)
    ensures j == Types.EncodeExceptionBreakpointsFilter(x)
    ensures j.Obj? && j.fields.Keys == {"filter", "label"}
      + (if x.description.Some? then {"description"} else {})
      + (if x.default_.Some? then {"default"} else {})
      + (if x.supportsCondition.Some? then {"supportsCondition"} else {})
      + (if x.conditionDescription.Some? then {"conditionDescription"} else {})
  {
    ghost var entries: map<string, Option<Json>> := map[];
    j := Null;
    assert j == Object(entries);
    PutObject(entries, "filter", Str(x.filter));
    j := Put(j, "filter", Str(x.filter));
    entries := entries["filter" := Some(Str(x.filter))];
    PutObject(entries, "label", Str(x.label_));
    j := Put(j, "label", Str(x.label_));
    entries := entries["label" := Some(Str(x.label_))];
    ghost var keys := {"filter", "label"};
    assert j.fields.Keys == keys;
    ToOptJsonObject(entries, "description", x.description, OfString);
    ToOptJsonKeys(j, "description", x.description, OfString);
    j := ToOptJson(j, "description", x.description, OfString);
    entries := entries["description" := OptString(x.description)];
    keys := keys + (if x.description.Some? then {"description"} else {});
    ToOptJsonObject(entries, "default", x.default_, OfBool);
    ToOptJsonKeys(j, "default", x.default_, OfBool);
    j := ToOptJson(j, "default", x.default_, OfBool);
    entries := entries["default" := OptBool(x.default_)];
    keys := keys + (if x.default_.Some? then {"default"} else {});
    ToOptJsonObject(entries, "supportsCondition", x.supportsCondition, OfBool);
    ToOptJsonKeys(j, "supportsCondition", x.supportsCondition, OfBool);
    j := ToOptJson(j, "supportsCondition", x.supportsCondition, OfBool);
    entries := entries["supportsCondition" := OptBool(x.supportsCondition)];
    keys := keys + (if x.supportsCondition.Some? then {"supportsCondition"} else {});
    ToOptJsonObject(entries, "conditionDescription", x.conditionDescription, OfString);
    ToOptJsonKeys(j, "conditionDescription", x.conditionDescription, OfString);
    j := ToOptJson(j, "conditionDescription", x.conditionDescription, OfString);
    entries := entries["conditionDescription" := OptString(x.conditionDescription)];
    keys := keys + (if x.conditionDescription.Some? then {"conditionDescription"} else {});
  }

  /** `to_json(j, ExceptionFilterOptions)`: the filter id, then the condition when present. */
  method WriteExceptionFilterOptions(x: Types.ExceptionFilterOptions) returns (j: Json)
    ensures j == Types.EncodeExceptionFilterOptions(x)
    ensures j.Obj? && j.fields.Keys == {"filterId"} + (if x.condition.Some? then {"condition"} else {})
  {
    ghost var entries: map<string, Option<Json>> := map[];
    j := Null;
    assert j == Object(entries);
    PutObject(entries, "filterId", Str(x.filterId));
    j := Put(j, "filterId", Str(x.filterId));
    entries := entries["filterId" := Some(Str(x.filterId))];
    ToOptJsonObject(entries, "condition", x.condition, OfString);
    ToOptJsonKeys(j, "condition", x.condition, OfString);
    j := ToOptJson(j, "condition", x.condition, OfString);
    entries := entries["condition" := OptString(x.condition)];
  }

  /** `to_json(j, ExceptionPathSegment)`: the names as an array, then `negate` when present. */
  method WriteExceptionPathSegment(x: Types.ExceptionPathSegment) returns (j: Json)
    ensures j == Types.EncodeExceptionPathSegment(x)
    ensures j.Obj? && j.fields.Keys == {"name"} + (if x.negate.Some? then {"negate"} else {})
  {
    ghost var entries: map<string, Option<Json>> := map[];
    j := Null;
    assert j == Object(entries);
    PutObject(entries, "name", EncodeList(x.name, OfString));
    j := Put(j, "name", EncodeList(x.name, OfString));
    entries := entries["name" := Some(EncodeList(x.name, OfString))];
    ToOptJsonObject(entries, "negate", x.negate, OfBool);
    ToOptJsonKeys(j, "negate", x.negate, OfBool);
    j := ToOptJson(j, "negate", x.negate, OfBool);
    entries := entries["negate" := OptBool(x.negate)];
  }

  /** `to_json(j, ExceptionBreakMode)`: the switch over the four modes. */
  method WriteExceptionBreakMode(e: ExceptionBreakMode) returns (j: Json)
    ensures j == EncodeExceptionBreakMode(e)
    ensures DecodeExceptionBreakMode(j) == Ok(e)
  {
    match e {
      case Never => j := Str("never");
      case Always => j := Str("always");
      case Unhandled => j := Str("unhandled");
      case UserUnhandled => j := Str("userUnhandled");
    }
  }

  /** `to_json(j, ExceptionOptions)`: the break mode, then the path when present. */
  method WriteExceptionOptions(x: Types.ExceptionOptions) returns (j: Json)
    ensures j == Types.EncodeExceptionOptions(x)
    ensures j.Obj? && j.fields.Keys == {"breakMode"} + (if x.path.Some? then {"path"} else {})
  {
    var mode := WriteExceptionBreakMode(x.breakMode);
    ghost var entries: map<string, Option<Json>> := map[];
    j := Null;
    assert j == Object(entries);
    PutObject(entries, "breakMode", mode);
    j := Put(j, "breakMode", mode);
    entries := entries["breakMode" := Some(mode)];
    ToOptJsonObject(entries, "path", x.path, (segments: seq<Types.ExceptionPathSegment>) => EncodeList(segments, Types.EncodeExceptionPathSegment));
    ToOptJsonKeys(j, "path", x.path, (segments: seq<Types.ExceptionPathSegment>) => EncodeList(segments, Types.EncodeExceptionPathSegment));
    j := ToOptJson(j, "path", x.path, (segments: seq<Types.ExceptionPathSegment>) => EncodeList(segments, Types.EncodeExceptionPathSegment));
    entries := entries["path" := OptList(x.path, Types.EncodeExceptionPathSegment)];
  }

  /**
   * `to_json(j, ExceptionDetails)`: starting from the default-constructed
   * null value, each member that is present; with none present the
   * result stays null.
   */
  method WriteExceptionDetails(x: Types.ExceptionDetails) returns (j: Json)
    ensures j == Types.EncodeExceptionDetails(x)
    ensures j.Null? <==> x.message.None? && x.typeName.None? && x.fullTypeName.None? && x.evaluateName.None? && x.stackTrace.None? && x.innerExceptions.NoInnerExceptions?
  {
    ghost var entries: map<string, Option<Json>> := map[];
    j := Null;
    assert j == Object(entries);
    ToOptJsonObject(entries, "message", x.message, OfString);
    j := ToOptJson(j, "message", x.message, OfString);
    entries := entries["message" := OptString(x.message)];
    ToOptJsonObject(entries, "typeName", x.typeName, OfString);
    j := ToOptJson(j, "typeName", x.typeName, OfString);
    entries := entries["typeName" := OptString(x.typeName)];
    ToOptJsonObject(entries, "fullTypeName", x.fullTypeName, OfString);
    j := ToOptJson(j, "fullTypeName", x.fullTypeName, OfString);
    entries := entries["fullTypeName" := OptString(x.fullTypeName)];
    ToOptJsonObject(entries, "evaluateName", x.evaluateName, OfString);
    j := ToOptJson(j, "evaluateName", x.evaluateName, OfString);
    entries := entries["evaluateName" := OptString(x.evaluateName)];
    ToOptJsonObject(entries, "stackTrace", x.stackTrace, OfString);
    j := ToOptJson(j, "stackTrace", x.stackTrace, OfString);
    entries := entries["stackTrace" := OptString(x.stackTrace)];
    var inner := Types.EncodeInnerExceptions(x.innerExceptions);
    ToOptJsonObject(entries, "innerExceptions", inner, OfJson);
    j := ToOptJson(j, "innerExceptions", inner, OfJson);
    entries := entries["innerExceptions" := inner];
    assert entries == Types.ExceptionDetailsEntries(x);
    ObjectKeys(entries);
  }

  /**
   * `from_json(j, ExceptionBreakpointsFilter)`: the two labels with `at`,
   * then each optional member, filling the record one member at a time; the
   * first read that throws ends it.
   */
  method ReadExceptionBreakpointsFilter(j: Json) returns (r: Result<Types.ExceptionBreakpointsFilter>)
    ensures r == Types.DecodeExceptionBreakpointsFilter(j)
  {
    var filter := RequiredString(j, "filter");
    if filter.Fail? {
      return Fail(filter.error);
    }
    var label_ := RequiredString(j, "label");
    if label_.Fail? {
      return Fail(label_.error);
    }
    var description := OptionalString(j, "description");
    if description.Fail? {
      return Fail(description.error);
    }
    var default_ := OptionalBool(j, "default");
    if default_.Fail? {
      return Fail(default_.error);
    }
    var supportsCondition := OptionalBool(j, "supportsCondition");
    if supportsCondition.Fail? {
      return Fail(supportsCondition.error);
    }
    var conditionDescription := OptionalString(j, "conditionDescription");
    if conditionDescription.Fail? {
      return Fail(conditionDescription.error);
    }
    r := Ok(Types.ExceptionBreakpointsFilter(filter.value, label_.value, description.value, default_.value, supportsCondition.value, conditionDescription.value));
  }

  /** `from_json(j, ExceptionFilterOptions)`: the filter id, then the condition when present. */
  method ReadExceptionFilterOptions(j: Json) returns (r: Result<Types.ExceptionFilterOptions>)
    ensures r == Types.DecodeExceptionFilterOptions(j)
  {
    var filterId := RequiredString(j, "filterId");
    if filterId.Fail? {
      return Fail(filterId.error);
    }
    var condition := OptionalString(j, "condition");
    if condition.Fail? {
      return Fail(condition.error);
    }
    r := Ok(Types.ExceptionFilterOptions(filterId.value, condition.value));
  }

  /** `from_json(j, ExceptionPathSegment)`: the names as a list of strings, then `negate` when present. */
  method ReadExceptionPathSegment(j: Json) returns (r: Result<Types.ExceptionPathSegment>)
    ensures r == Types.DecodeExceptionPathSegment(j)
  {
    var name := RequiredList(j, "name", GetString);
    if name.Fail? {
      return Fail(name.error);
    }
    var negate := OptionalBool(j, "negate");
    if negate.Fail? {
      return Fail(negate.error);
    }
    r := Ok(Types.ExceptionPathSegment(negate.value, name.value));
  }

  /**
   * `from_json(j, ExceptionBreakMode)`: the string, then the chain of
   * comparisons; whatever it accepts is exactly what the encoder writes.
   */
  method ReadExceptionBreakMode(j: Json) returns (r: Result<ExceptionBreakMode>)
    ensures r == DecodeExceptionBreakMode(j)
    ensures r.Ok? ==> EncodeExceptionBreakMode(r.value) == j
  {
    if !j.Str? {
      return Fail(TypeError("string"));
    }
    var breakMode := j.s;
    if breakMode == "never" {
      r := Ok(ExceptionBreakMode.Never);
    } else if breakMode == "always" {
      r := Ok(ExceptionBreakMode.Always);
    } else if breakMode == "unhandled" {
      r := Ok(ExceptionBreakMode.Unhandled);
    } else if breakMode == "userUnhandled" {
      r := Ok(ExceptionBreakMode.UserUnhandled);
    } else {
      r := Fail(Unknown("ExceptionBreakMode"));
    }
  }

  /** `from_json(j, ExceptionOptions)`: the break mode, then the path when present. */
  method ReadExceptionOptions(j: Json) returns (r: Result<Types.ExceptionOptions>)
    ensures r == Types.DecodeExceptionOptions(j)
  {
    var wire := At(j, "breakMode");
    if wire.Fail? {
      return Fail(wire.error);
    }
    var breakMode := ReadExceptionBreakMode(wire.value);
    if breakMode.Fail? {
      return Fail(breakMode.error);
    }
    var path := OptionalList(j, "path", Types.DecodeExceptionPathSegment);
    if path.Fail? {
      return Fail(path.error);
    }
    r := Ok(Types.ExceptionOptions(path.value, breakMode.value));
  }

  /**
   * `from_json(j, ExceptionDetails)`: each member only when its key is
   * found, so a value with none of them, or one that is not an object,
   * reads as a record with every member absent.
   */
  method ReadExceptionDetails(j: Json) returns (r: Result<Types.ExceptionDetails>)
    ensures r == Types.DecodeExceptionDetails(j)
    ensures !j.Obj? || (forall key | key in j.fields :: key !in {"message", "typeName", "fullTypeName", "evaluateName", "stackTrace", "innerExceptions"})
      ==> r == Ok(Types.ExceptionDetails(None, None, None, None, None, Types.NoInnerExceptions))
  {
    var message := OptionalString(j, "message");
    if message.Fail? {
      return Fail(message.error);
    }
    var typeName := OptionalString(j, "typeName");
    if typeName.Fail? {
      return Fail(typeName.error);
    }
    var fullTypeName := OptionalString(j, "fullTypeName");
    if fullTypeName.Fail? {
      return Fail(fullTypeName.error);
    }
    var evaluateName := OptionalString(j, "evaluateName");
    if evaluateName.Fail? {
      return Fail(evaluateName.error);
    }
    var stackTrace := OptionalString(j, "stackTrace");
    if stackTrace.Fail? {
      return Fail(stackTrace.error);
    }
    var innerExceptions: Result<Types.InnerExceptions> := Ok(Types.NoInnerExceptions);
    if j.Obj? && "innerExceptions" in j.fields {
      innerExceptions := Types.DecodeInnerExceptionList(j.fields["innerExceptions"]);
      if innerExceptions.Fail? {
        return Fail(innerExceptions.error);
      }
    }
    r := Ok(Types.ExceptionDetails(message.value, typeName.value, fullTypeName.value, evaluateName.value, stackTrace.value, innerExceptions.value));
  }
}
