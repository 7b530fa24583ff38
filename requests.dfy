/**
 * The requests: each concrete request extends `Request` and writes its own
 * members under `arguments`.
 */
module Requests {
  import opened Json
  import opened Codec
  import opened Adl
  import opened Enums
  import opened Types
  import opened Envelope

  /**
   * `CancelRequest`. Its encoder writes `arguments` under a guard that
   * tests `progressId` twice, so a request id travels only alongside a
   * progress id; the decoder reads `arguments` only when present.
   */
  datatype CancelRequest = CancelRequest(header: Request, requestId: Option<int64>, progressId: Option<string>)

  function EncodeCancelRequest(p: CancelRequest): (r: Result<Json>)
    ensures r.Fail? <==> p.header.command in CommandTypeUnwritable
    ensures r.Ok? ==> (Find(r.value, "arguments").Some? <==> p.progressId.Some?)
    ensures r.Ok? ==> DecodeCancelRequest(r.value) == Ok(if p.progressId.Some? then p else p.(requestId := None))
  {
    var header :- EncodeRequest(p.header);
    if p.progressId.Some? || p.progressId.Some? then
      var entries := map["requestId" := OptInt(p.requestId), "progressId" := OptString(p.progressId)];
      OptionalIntRoundTrip(entries, "requestId", p.requestId);
      OptionalStringRoundTrip(entries, "progressId", p.progressId);
      RequestFrame(header, "arguments", Object(entries));
      Ok(Put(header, "arguments", Object(entries)))
    else
      Ok(header)
  }

  function DecodeCancelRequest(j: Json): (r: Result<CancelRequest>)
    ensures r.Ok? ==> DecodeRequest(j) == Ok(r.value.header)
    ensures DecodeRequest(j).Ok? && Find(j, "arguments").None? ==> r == Ok(CancelRequest.CancelRequest(DecodeRequest(j).value, None, None))
  {
    var header :- DecodeRequest(j);
    match Find(j, "arguments")
    case None => Ok(CancelRequest.CancelRequest(header, None, None))
    case Some(arguments) =>
      var requestId :- OptionalInt(arguments, "requestId");
      var progressId :- OptionalString(arguments, "progressId");
      Ok(CancelRequest.CancelRequest(header, requestId, progressId))
  }

  /** The round trip is exact unless a request id is sent without a progress id, which is lost. */
  lemma CancelRequestRoundTrip(p: CancelRequest)
    requires p.header.command !in CommandTypeUnwritable
    ensures EncodeCancelRequest(p).Ok?
    ensures DecodeCancelRequest(EncodeCancelRequest(p).value) == Ok(p) <==> p.progressId.Some? || p.requestId.None?
  {
    if p.progressId.None? && p.requestId.Some? {
      assert p.(requestId := None) != p;
    }
  }

  datatype RunInTerminalRequest = RunInTerminalRequest(header: Request, kind: Option<RunInTerminalKind>, title: Option<string>, cwd: string, args: seq<string>, env: Option<Environment>)

  /** The members the encoder writes under `arguments`; absent optionals write none. */
  function RunInTerminalRequestEntries(p: RunInTerminalRequest): map<string, Option<Json>> {
    map[
      "kind" := Opt(p.kind, EncodeRunInTerminalKind),
      "title" := OptString(p.title),
      "cwd" := Some(OfString(p.cwd)),
      "args" := Some(EncodeList(p.args, OfString)),
      "env" := Opt(p.env, EncodeEnvironment)
    ]
  }

  lemma RunInTerminalRequestMembersRoundTrip0(p: RunInTerminalRequest)
    ensures FromOptJson(Object(RunInTerminalRequestEntries(p)), "kind", DecodeRunInTerminalKind) == Ok(p.kind)
    ensures OptionalString(Object(RunInTerminalRequestEntries(p)), "title") == Ok(p.title)
    ensures RequiredString(Object(RunInTerminalRequestEntries(p)), "cwd") == Ok(p.cwd)
  {
    var entries := RunInTerminalRequestEntries(p);
    OptionalRoundTrip(entries, "kind", p.kind, EncodeRunInTerminalKind, DecodeRunInTerminalKind);
    OptionalStringRoundTrip(entries, "title", p.title);
    RequiredStringRoundTrip(entries, "cwd", p.cwd);
  }

  lemma RunInTerminalRequestMembersRoundTrip1(p: RunInTerminalRequest)
    ensures RequiredList(Object(RunInTerminalRequestEntries(p)), "args", GetString) == Ok(p.args)
    ensures FromOptJson(Object(RunInTerminalRequestEntries(p)), "env", DecodeEnvironment) == Ok(p.env)
  {
    var entries := RunInTerminalRequestEntries(p);
    RequiredListRoundTrip(entries, "args", p.args, OfString, GetString);
    OptionalEnvironmentRoundTrip(p.env);
    OptionalRoundTrip(entries, "env", p.env, EncodeEnvironment, DecodeEnvironment);
  }

  function EncodeRunInTerminalRequest(p: RunInTerminalRequest): (r: Result<Json>)
    ensures r.Fail? <==> p.header.command in CommandTypeUnwritable
    ensures r.Ok? ==> DecodeRunInTerminalRequest(r.value) == Ok(p)
  {
    var header :- EncodeRequest(p.header);
    RunInTerminalRequestMembersRoundTrip0(p);
    RunInTerminalRequestMembersRoundTrip1(p);
    var entries := RunInTerminalRequestEntries(p);
    RequestFrame(header, "arguments", Object(entries));
    Ok(Put(header, "arguments", Object(entries)))
  }

  function DecodeRunInTerminalRequest(j: Json): (r: Result<RunInTerminalRequest>)
    ensures r.Ok? ==> DecodeRequest(j) == Ok(r.value.header) && Find(j, "arguments").Some?
    ensures r.Ok? ==> Find(Find(j, "arguments").value, "cwd").Some? && Find(Find(j, "arguments").value, "args").Some?
  {
    var header :- DecodeRequest(j);
    var arguments :- At(j, "arguments");
    var kind :- FromOptJson(arguments, "kind", DecodeRunInTerminalKind);
    var title :- OptionalString(arguments, "title");
    var cwd :- RequiredString(arguments, "cwd");
    var args :- RequiredList(arguments, "args", GetString);
    var env :- FromOptJson(arguments, "env", DecodeEnvironment);
    Ok(RunInTerminalRequest.RunInTerminalRequest(header, kind, title, cwd, args, env))
  }

  datatype InitializeRequest = InitializeRequest(header: Request, clientId: Option<string>, clientName: Option<string>, adapterId: string, locale: Option<string>, lineStartAt1: Option<bool>, columnStartAt1: Option<bool>, supportsVariableType: Option<bool>, supportsVariablePaging: Option<bool>, supportsRunInTerminalRequest: Option<bool>, supportsMemoryReferences: Option<bool>, supportsProgressReporting: Option<bool>, supportsInvalidatedEvent: Option<bool>, supportsMemoryEvent: Option<bool>)

  /** The members the encoder writes under `arguments`; absent optionals write none. */
  function InitializeRequestEntries(p: InitializeRequest): map<string, Option<Json>> {
    map[
      "clientID" := OptString(p.clientId),
      "clientName" := OptString(p.clientName),
      "adapterID" := Some(OfString(p.adapterId)),
      "locale" := OptString(p.locale),
      "lineStartAt1" := OptBool(p.lineStartAt1),
      "columnStartAt1" := OptBool(p.columnStartAt1),
      "supportsVariableType" := OptBool(p.supportsVariableType),
      "supportsVariablePaging" := OptBool(p.supportsVariablePaging),
      "supportsRunInTerminalRequest" := OptBool(p.supportsRunInTerminalRequest),
      "supportsMemoryReferences" := OptBool(p.supportsMemoryReferences),
      "supportsProgressReporting" := OptBool(p.supportsProgressReporting),
      "supportsInvalidatedEvent" := OptBool(p.supportsInvalidatedEvent),
      "supportsMemoryEvent" := OptBool(p.supportsMemoryEvent)
    ]
  }

  lemma InitializeRequestMembersRoundTrip0(p: InitializeRequest)
    ensures OptionalString(Object(InitializeRequestEntries(p)), "clientID") == Ok(p.clientId)
    ensures OptionalString(Object(InitializeRequestEntries(p)), "clientName") == Ok(p.clientName)
    ensures RequiredString(Object(InitializeRequestEntries(p)), "adapterID") == Ok(p.adapterId)
  {
    var entries := InitializeRequestEntries(p);
    OptionalStringRoundTrip(entries, "clientID", p.clientId);
    OptionalStringRoundTrip(entries, "clientName", p.clientName);
    RequiredStringRoundTrip(entries, "adapterID", p.adapterId);
  }

  lemma InitializeRequestMembersRoundTrip1(p: InitializeRequest)
    ensures OptionalString(Object(InitializeRequestEntries(p)), "locale") == Ok(p.locale)
    ensures OptionalBool(Object(InitializeRequestEntries(p)), "lineStartAt1") == Ok(p.lineStartAt1)
    ensures OptionalBool(Object(InitializeRequestEntries(p)), "columnStartAt1") == Ok(p.columnStartAt1)
  {
    var entries := InitializeRequestEntries(p);
    OptionalStringRoundTrip(entries, "locale", p.locale);
    OptionalBoolRoundTrip(entries, "lineStartAt1", p.lineStartAt1);
    OptionalBoolRoundTrip(entries, "columnStartAt1", p.columnStartAt1);
  }

  lemma InitializeRequestMembersRoundTrip2(p: InitializeRequest)
    ensures OptionalBool(Object(InitializeRequestEntries(p)), "supportsVariableType") == Ok(p.supportsVariableType)
    ensures OptionalBool(Object(InitializeRequestEntries(p)), "supportsVariablePaging") == Ok(p.supportsVariablePaging)
    ensures OptionalBool(Object(InitializeRequestEntries(p)), "supportsRunInTerminalRequest") == Ok(p.supportsRunInTerminalRequest)
  {
    var entries := InitializeRequestEntries(p);
    OptionalBoolRoundTrip(entries, "supportsVariableType", p.supportsVariableType);
    OptionalBoolRoundTrip(entries, "supportsVariablePaging", p.supportsVariablePaging);
    OptionalBoolRoundTrip(entries, "supportsRunInTerminalRequest", p.supportsRunInTerminalRequest);
  }

  lemma InitializeRequestMembersRoundTrip3(p: InitializeRequest)
    ensures OptionalBool(Object(InitializeRequestEntries(p)), "supportsMemoryReferences") == Ok(p.supportsMemoryReferences)
    ensures OptionalBool(Object(InitializeRequestEntries(p)), "supportsProgressReporting") == Ok(p.supportsProgressReporting)
    ensures OptionalBool(Object(InitializeRequestEntries(p)), "supportsInvalidatedEvent") == Ok(p.supportsInvalidatedEvent)
  {
    var entries := InitializeRequestEntries(p);
    OptionalBoolRoundTrip(entries, "supportsMemoryReferences", p.supportsMemoryReferences);
    OptionalBoolRoundTrip(entries, "supportsProgressReporting", p.supportsProgressReporting);
    OptionalBoolRoundTrip(entries, "supportsInvalidatedEvent", p.supportsInvalidatedEvent);
  }

  lemma InitializeRequestMembersRoundTrip4(p: InitializeRequest)
    ensures OptionalBool(Object(InitializeRequestEntries(p)), "supportsMemoryEvent") == Ok(p.supportsMemoryEvent)
  {
    var entries := InitializeRequestEntries(p);
    OptionalBoolRoundTrip(entries, "supportsMemoryEvent", p.supportsMemoryEvent);
  }

  function EncodeInitializeRequest(p: InitializeRequest): (r: Result<Json>)
    ensures r.Fail? <==> p.header.command in CommandTypeUnwritable
    ensures r.Ok? ==> DecodeInitializeRequest(r.value) == Ok(p)
  {
    var header :- EncodeRequest(p.header);
    InitializeRequestMembersRoundTrip0(p);
    InitializeRequestMembersRoundTrip1(p);
    InitializeRequestMembersRoundTrip2(p);
    InitializeRequestMembersRoundTrip3(p);
    InitializeRequestMembersRoundTrip4(p);
    var entries := InitializeRequestEntries(p);
    RequestFrame(header, "arguments", Object(entries));
    Ok(Put(header, "arguments", Object(entries)))
  }

  function DecodeInitializeRequest(j: Json): (r: Result<InitializeRequest>)
    ensures r.Ok? ==> DecodeRequest(j) == Ok(r.value.header) && Find(j, "arguments").Some?
    ensures r.Ok? ==> Find(Find(j, "arguments").value, "adapterID").Some?
  {
    var header :- DecodeRequest(j);
    var arguments :- At(j, "arguments");
    var clientId :- OptionalString(arguments, "clientID");
    var clientName :- OptionalString(arguments, "clientName");
    var adapterId :- RequiredString(arguments, "adapterID");
    var locale :- OptionalString(arguments, "locale");
    var lineStartAt1 :- OptionalBool(arguments, "lineStartAt1");
    var columnStartAt1 :- OptionalBool(arguments, "columnStartAt1");
    var supportsVariableType :- OptionalBool(arguments, "supportsVariableType");
    var supportsVariablePaging :- OptionalBool(arguments, "supportsVariablePaging");
    var supportsRunInTerminalRequest :- OptionalBool(arguments, "supportsRunInTerminalRequest");
    var supportsMemoryReferences :- OptionalBool(arguments, "supportsMemoryReferences");
    var supportsProgressReporting :- OptionalBool(arguments, "supportsProgressReporting");
    var supportsInvalidatedEvent :- OptionalBool(arguments, "supportsInvalidatedEvent");
    var supportsMemoryEvent :- OptionalBool(arguments, "supportsMemoryEvent");
    Ok(InitializeRequest.InitializeRequest(header, clientId, clientName, adapterId, locale, lineStartAt1, columnStartAt1, supportsVariableType, supportsVariablePaging, supportsRunInTerminalRequest, supportsMemoryReferences, supportsProgressReporting, supportsInvalidatedEvent, supportsMemoryEvent))
  }

  /**
   * `LaunchRequest`: a free-form `arguments` object on which `noDebug` and
   * `__restart` (held as `restartData`) are overlaid. Decoding copies the
   * wire object, erases those two keys from the copy and reads them into
   * their own members.
   */
  datatype LaunchRequest = LaunchRequest(header: Request, arguments: Json, noDebug: Option<bool>, restartData: Option<Json>)

  /** `to_optJson` into a value that may be neither null nor an object: writing throws there. */
  function OverlayOpt<T>(j: Json, key: string, p: Option<T>, encode: T -> Json): (r: Result<Json>)
    ensures r.Fail? <==> p.Some? && !(j.Null? || j.Obj?)
    ensures r.Ok? && p.None? ==> r.value == j
    ensures r.Ok? && p.Some? ==> r.value == Put(j, key, encode(p.value))
  {
    if p.Some? then Insert(j, key, encode(p.value)) else Ok(j)
  }

  /** The free-form arguments exactly as a decoder keeps them: an object without `noDebug` and `__restart`. */
  predicate LaunchArgumentsExact(arguments: Json) {
    arguments.Obj? && "noDebug" !in arguments.fields && "__restart" !in arguments.fields
  }

  function EncodeLaunchRequest(p: LaunchRequest): (r: Result<Json>)
    ensures r.Fail? <==> p.header.command in CommandTypeUnwritable || (!(p.arguments.Null? || p.arguments.Obj?) && (p.noDebug.Some? || p.restartData.Some?))
    ensures r.Ok? ==> DecodeRequest(r.value) == Ok(p.header) && Find(r.value, "arguments").Some?
  {
    var header :- EncodeRequest(p.header);
    var arguments := p.arguments;
    var arguments :- OverlayOpt(arguments, "noDebug", p.noDebug, OfBool);
    var arguments :- OverlayOpt(arguments, "__restart", p.restartData, OfJson);
    RequestFrame(header, "arguments", arguments);
    Ok(Put(header, "arguments", arguments))
  }

  function DecodeLaunchRequest(j: Json): (r: Result<LaunchRequest>)
    ensures r.Ok? ==> DecodeRequest(j) == Ok(r.value.header) && Find(j, "arguments").Some?
    ensures r.Ok? ==> LaunchArgumentsExact(r.value.arguments)
    ensures r.Ok? ==> forall k | k != "noDebug" && k != "__restart" :: Find(r.value.arguments, k) == Find(Find(j, "arguments").value, k)
    ensures r.Ok? ==> OptionalBool(Find(j, "arguments").value, "noDebug") == Ok(r.value.noDebug)
    ensures r.Ok? ==> r.value.restartData == OptionalJson(Find(j, "arguments").value, "__restart")
  {
    var header :- DecodeRequest(j);
    var arguments :- At(j, "arguments");
    var copy :- Erase(arguments, "noDebug");
    var copy := Erase(copy, "__restart").value;
    var noDebug :- OptionalBool(arguments, "noDebug");
    var restartData := OptionalJson(arguments, "__restart");
    Ok(LaunchRequest.LaunchRequest(header, copy, noDebug, restartData))
  }

  /**
   * The decoder as the source writes it, erasing from its copy of the
   * wire arguments in place.
   */
  method ReadLaunchRequest(j: Json) returns (r: Result<LaunchRequest>)
    ensures r == DecodeLaunchRequest(j)
  {
    var header := DecodeRequest(j);
    if header.Fail? {
      return Fail(header.error);
    }
    var wire := At(j, "arguments");
    if wire.Fail? {
      return Fail(wire.error);
    }
    var arguments := wire.value;
    var erased := Erase(arguments, "noDebug");
    if erased.Fail? {
      return Fail(erased.error);
    }
    arguments := erased.value;
    erased := Erase(arguments, "__restart");
    arguments := erased.value;
    var noDebug := OptionalBool(wire.value, "noDebug");
    if noDebug.Fail? {
      return Fail(noDebug.error);
    }
    r := Ok(LaunchRequest.LaunchRequest(header.value, arguments, noDebug.value, OptionalJson(wire.value, "__restart")));
  }

  /**
   * The round trip is exact exactly when the free-form arguments are an
   * object that does not already hold `noDebug` or `__restart`.
   */
  lemma LaunchRequestRoundTrip(p: LaunchRequest)
    requires p.header.command !in CommandTypeUnwritable
    ensures EncodeLaunchRequest(p).Ok? && DecodeLaunchRequest(EncodeLaunchRequest(p).value) == Ok(p) <==> LaunchArgumentsExact(p.arguments)
  {
    if LaunchArgumentsExact(p.arguments) {
      var header := EncodeRequest(p.header).value;
      var arguments := LaunchOverlayReadBack(p.arguments, p.noDebug, p.restartData);
      assert EncodeLaunchRequest(p) == Ok(Put(header, "arguments", arguments));
      var j := Put(header, "arguments", arguments);
      RequestFrame(header, "arguments", arguments);
      assert At(j, "arguments") == Ok(arguments);
    }
  }

  /** Overlaying the two members on exact arguments, then erasing them again, gives back the arguments and the members. */
  lemma LaunchOverlayReadBack(arguments: Json, noDebug: Option<bool>, restartData: Option<Json>) returns (overlaid: Json)
    requires LaunchArgumentsExact(arguments)
    ensures OverlayOpt(arguments, "noDebug", noDebug, OfBool).Ok?
    ensures OverlayOpt(OverlayOpt(arguments, "noDebug", noDebug, OfBool).value, "__restart", restartData, OfJson) == Ok(overlaid)
    ensures overlaid.Obj? && Obj((overlaid.fields - {"noDebug"}) - {"__restart"}) == arguments
    ensures OptionalBool(overlaid, "noDebug") == Ok(noDebug) && OptionalJson(overlaid, "__restart") == restartData
  {
    var once := OverlayOpt(arguments, "noDebug", noDebug, OfBool).value;
    overlaid := OverlayOpt(once, "__restart", restartData, OfJson).value;
    assert Find(overlaid, "noDebug") == Find(once, "noDebug");
    assert (overlaid.fields - {"noDebug"}) - {"__restart"} == arguments.fields;
  }

  /**
   * `AttachRequest`: a free-form `arguments` object on which `__restart`
   * (held as `restartData`) is overlaid; decoding erases it from the copy.
   */
  datatype AttachRequest = AttachRequest(header: Request, arguments: Json, restartData: Option<Json>)

  /** The free-form arguments exactly as a decoder keeps them: an object without `__restart`. */
  predicate AttachArgumentsExact(arguments: Json) {
    arguments.Obj? && "__restart" !in arguments.fields
  }

  function EncodeAttachRequest(p: AttachRequest): (r: Result<Json>)
    ensures r.Fail? <==> p.header.command in CommandTypeUnwritable || (!(p.arguments.Null? || p.arguments.Obj?) && p.restartData.Some?)
    ensures r.Ok? ==> DecodeRequest(r.value) == Ok(p.header) && Find(r.value, "arguments").Some?
  {
    var header :- EncodeRequest(p.header);
    var arguments := p.arguments;
    var arguments :- OverlayOpt(arguments, "__restart", p.restartData, OfJson);
    RequestFrame(header, "arguments", arguments);
    Ok(Put(header, "arguments", arguments))
  }

  function DecodeAttachRequest(j: Json): (r: Result<AttachRequest>)
    ensures r.Ok? ==> DecodeRequest(j) == Ok(r.value.header) && Find(j, "arguments").Some?
    ensures r.Ok? ==> AttachArgumentsExact(r.value.arguments)
    ensures r.Ok? ==> forall k | k != "__restart" :: Find(r.value.arguments, k) == Find(Find(j, "arguments").value, k)
    ensures r.Ok? ==> r.value.restartData == OptionalJson(Find(j, "arguments").value, "__restart")
  {
    var header :- DecodeRequest(j);
    var arguments :- At(j, "arguments");
    var copy :- Erase(arguments, "__restart");
    var restartData := OptionalJson(arguments, "__restart");
    Ok(AttachRequest.AttachRequest(header, copy, restartData))
  }

  /** The decoder as the source writes it, erasing from its copy of the wire arguments in place. */
  method ReadAttachRequest(j: Json) returns (r: Result<AttachRequest>)
    ensures r == DecodeAttachRequest(j)
  {
    var header := DecodeRequest(j);
    if header.Fail? {
      return Fail(header.error);
    }
    var wire := At(j, "arguments");
    if wire.Fail? {
      return Fail(wire.error);
    }
    var arguments := wire.value;
    var erased := Erase(arguments, "__restart");
    if erased.Fail? {
      return Fail(erased.error);
    }
    arguments := erased.value;
    r := Ok(AttachRequest.AttachRequest(header.value, arguments, OptionalJson(wire.value, "__restart")));
  }

  /**
   * The round trip is exact exactly when the free-form arguments are an
   * object that does not already hold `__restart`.
   */
  lemma AttachRequestRoundTrip(p: AttachRequest)
    requires p.header.command !in CommandTypeUnwritable
    ensures EncodeAttachRequest(p).Ok? && DecodeAttachRequest(EncodeAttachRequest(p).value) == Ok(p) <==> AttachArgumentsExact(p.arguments)
  {
    if AttachArgumentsExact(p.arguments) {
      var header := EncodeRequest(p.header).value;
      var arguments := OverlayOpt(p.arguments, "__restart", p.restartData, OfJson).value;
      assert EncodeAttachRequest(p) == Ok(Put(header, "arguments", arguments));
      RequestFrame(header, "arguments", arguments);
      assert arguments.fields - {"__restart"} == p.arguments.fields;
    }
  }

  /**
   * `RestartRequest`: `arguments` is written only when one of its members
   * is present. The member `__restart` is held as `restartData`.
   */
  datatype RestartRequest = RestartRequest(header: Request, noDebug: Option<bool>, restartData: Option<Json>)

  function EncodeRestartRequest(p: RestartRequest): (r: Result<Json>)
    ensures r.Fail? <==> p.header.command in CommandTypeUnwritable
    ensures r.Ok? ==> (Find(r.value, "arguments").Some? <==> p.noDebug.Some? || p.restartData.Some?)
    ensures r.Ok? ==> DecodeRestartRequest(r.value) == Ok(p)
  {
    var header :- EncodeRequest(p.header);
    if p.noDebug.Some? || p.restartData.Some? then
      var entries := map["noDebug" := OptBool(p.noDebug), "__restart" := p.restartData];
      OptionalBoolRoundTrip(entries, "noDebug", p.noDebug);
      OptionalJsonRoundTrip(entries, "__restart", p.restartData);
      RequestFrame(header, "arguments", Object(entries));
      Ok(Put(header, "arguments", Object(entries)))
    else
      Ok(header)
  }

  function DecodeRestartRequest(j: Json): (r: Result<RestartRequest>)
    ensures r.Ok? ==> DecodeRequest(j) == Ok(r.value.header)
    ensures DecodeRequest(j).Ok? && Find(j, "arguments").None? ==> r == Ok(RestartRequest.RestartRequest(DecodeRequest(j).value, None, None))
  {
    var header :- DecodeRequest(j);
    match Find(j, "arguments")
    case None => Ok(RestartRequest.RestartRequest(header, None, None))
    case Some(arguments) =>
      var noDebug :- OptionalBool(arguments, "noDebug");
      var restartData := OptionalJson(arguments, "__restart");
      Ok(RestartRequest.RestartRequest(header, noDebug, restartData))
  }

  /** `DisconnectRequest`: `arguments` is written only when one of its members is present. */
  datatype DisconnectRequest = DisconnectRequest(header: Request, restart: Option<bool>, terminateDebuggee: Option<bool>, suspendDebuggee: Option<bool>)

  function EncodeDisconnectRequest(p: DisconnectRequest): (r: Result<Json>)
    ensures r.Fail? <==> p.header.command in CommandTypeUnwritable
    ensures r.Ok? ==> (Find(r.value, "arguments").Some? <==> p.restart.Some? || p.terminateDebuggee.Some? || p.suspendDebuggee.Some?)
    ensures r.Ok? ==> DecodeDisconnectRequest(r.value) == Ok(p)
  {
    var header :- EncodeRequest(p.header);
    if p.restart.Some? || p.terminateDebuggee.Some? || p.suspendDebuggee.Some? then
      var entries := map["restart" := OptBool(p.restart), "terminateDebuggee" := OptBool(p.terminateDebuggee), "suspendDebuggee" := OptBool(p.suspendDebuggee)];
      OptionalBoolRoundTrip(entries, "restart", p.restart);
      OptionalBoolRoundTrip(entries, "terminateDebuggee", p.terminateDebuggee);
      OptionalBoolRoundTrip(entries, "suspendDebuggee", p.suspendDebuggee);
      RequestFrame(header, "arguments", Object(entries));
      Ok(Put(header, "arguments", Object(entries)))
    else
      Ok(header)
  }

  function DecodeDisconnectRequest(j: Json): (r: Result<DisconnectRequest>)
    ensures r.Ok? ==> DecodeRequest(j) == Ok(r.value.header)
    ensures DecodeRequest(j).Ok? && Find(j, "arguments").None? ==> r == Ok(DisconnectRequest.DisconnectRequest(DecodeRequest(j).value, None, None, None))
  {
    var header :- DecodeRequest(j);
    match Find(j, "arguments")
    case None => Ok(DisconnectRequest.DisconnectRequest(header, None, None, None))
    case Some(arguments) =>
      var restart :- OptionalBool(arguments, "restart");
      var terminateDebuggee :- OptionalBool(arguments, "terminateDebuggee");
      var suspendDebuggee :- OptionalBool(arguments, "suspendDebuggee");
      Ok(DisconnectRequest.DisconnectRequest(header, restart, terminateDebuggee, suspendDebuggee))
  }

  /** `TerminateRequest`: `arguments` is written only to carry `restart`. */
  datatype TerminateRequest = TerminateRequest(header: Request, restart: Option<bool>)

  function EncodeTerminateRequest(p: TerminateRequest): (r: Result<Json>)
    ensures r.Fail? <==> p.header.command in CommandTypeUnwritable
    ensures r.Ok? ==> Find(r.value, "arguments") == if p.restart.Some? then Some(Obj(map["restart" := Bool(p.restart.value)])) else None
    ensures r.Ok? ==> DecodeTerminateRequest(r.value) == Ok(p)
  {
    var header :- EncodeRequest(p.header);
    if p.restart.Some? then
      var arguments := Put(Null, "restart", Bool(p.restart.value));
      RequestFrame(header, "arguments", arguments);
      Ok(Put(header, "arguments", arguments))
    else
      Ok(header)
  }

  function DecodeTerminateRequest(j: Json): (r: Result<TerminateRequest>)
    ensures r.Ok? ==> DecodeRequest(j) == Ok(r.value.header)
    ensures DecodeRequest(j).Ok? && Find(j, "arguments").None? ==> r == Ok(TerminateRequest.TerminateRequest(DecodeRequest(j).value, None))
  {
    var header :- DecodeRequest(j);
    match Find(j, "arguments")
    case None => Ok(TerminateRequest.TerminateRequest(header, None))
    case Some(arguments) =>
      var restart :- OptionalBool(arguments, "restart");
      Ok(TerminateRequest.TerminateRequest(header, restart))
  }

  datatype BreakpointLocationsRequest = BreakpointLocationsRequest(header: Request, source: Source, line: int64, column: Option<int64>, endLine: Option<int64>, endColumn: Option<int64>)

  /** The members the encoder writes under `arguments`; absent optionals write none. */
  function BreakpointLocationsRequestEntries(p: BreakpointLocationsRequest): map<string, Option<Json>> {
    map[
      "source" := Some(EncodeSource(p.source)),
      "line" := Some(OfInt(p.line)),
      "column" := OptInt(p.column),
      "endLine" := OptInt(p.endLine),
      "endColumn" := OptInt(p.endColumn)
    ]
  }

  lemma BreakpointLocationsRequestMembersRoundTrip0(p: BreakpointLocationsRequest)
    ensures Required(Object(BreakpointLocationsRequestEntries(p)), "source", DecodeSource) == Ok(p.source)
    ensures RequiredInt(Object(BreakpointLocationsRequestEntries(p)), "line") == Ok(p.line)
    ensures OptionalInt(Object(BreakpointLocationsRequestEntries(p)), "column") == Ok(p.column)
  {
    var entries := BreakpointLocationsRequestEntries(p);
    RequiredRoundTrip(entries, "source", p.source, EncodeSource, DecodeSource);
    RequiredIntRoundTrip(entries, "line", p.line);
    OptionalIntRoundTrip(entries, "column", p.column);
  }

  lemma BreakpointLocationsRequestMembersRoundTrip1(p: BreakpointLocationsRequest)
    ensures OptionalInt(Object(BreakpointLocationsRequestEntries(p)), "endLine") == Ok(p.endLine)
    ensures OptionalInt(Object(BreakpointLocationsRequestEntries(p)), "endColumn") == Ok(p.endColumn)
  {
    var entries := BreakpointLocationsRequestEntries(p);
    OptionalIntRoundTrip(entries, "endLine", p.endLine);
    OptionalIntRoundTrip(entries, "endColumn", p.endColumn);
  }

  function EncodeBreakpointLocationsRequest(p: BreakpointLocationsRequest): (r: Result<Json>)
    ensures r.Fail? <==> p.header.command in CommandTypeUnwritable
    ensures r.Ok? ==> DecodeBreakpointLocationsRequest(r.value) == Ok(p)
  {
    var header :- EncodeRequest(p.header);
    BreakpointLocationsRequestMembersRoundTrip0(p);
    BreakpointLocationsRequestMembersRoundTrip1(p);
    var entries := BreakpointLocationsRequestEntries(p);
    RequestFrame(header, "arguments", Object(entries));
    Ok(Put(header, "arguments", Object(entries)))
  }

  function DecodeBreakpointLocationsRequest(j: Json): (r: Result<BreakpointLocationsRequest>)
    ensures r.Ok? ==> DecodeRequest(j) == Ok(r.value.header) && Find(j, "arguments").Some?
    ensures r.Ok? ==> Find(Find(j, "arguments").value, "source").Some? && Find(Find(j, "arguments").value, "line").Some?
  {
    var header :- DecodeRequest(j);
    var arguments :- At(j, "arguments");
    var source :- Required(arguments, "source", DecodeSource);
    var line :- RequiredInt(arguments, "line");
    var column :- OptionalInt(arguments, "column");
    var endLine :- OptionalInt(arguments, "endLine");
    var endColumn :- OptionalInt(arguments, "endColumn");
    Ok(BreakpointLocationsRequest.BreakpointLocationsRequest(header, source, line, column, endLine, endColumn))
  }

  datatype SetBreakpointsRequest = SetBreakpointsRequest(header: Request, source: Source, breakpoints: Option<seq<SourceBreakpoint>>, lines: Option<seq<int64>>, sourceModified: Option<bool>)

  /** The members the encoder writes under `arguments`; absent optionals write none. */
  function SetBreakpointsRequestEntries(p: SetBreakpointsRequest): map<string, Option<Json>> {
    map[
      "source" := Some(EncodeSource(p.source)),
      "breakpoints" := OptList(p.breakpoints, EncodeSourceBreakpoint),
      "lines" := OptList(p.lines, OfInt),
      "sourceModified" := OptBool(p.sourceModified)
    ]
  }

  lemma SetBreakpointsRequestMembersRoundTrip0(p: SetBreakpointsRequest)
    ensures Required(Object(SetBreakpointsRequestEntries(p)), "source", DecodeSource) == Ok(p.source)
    ensures OptionalList(Object(SetBreakpointsRequestEntries(p)), "breakpoints", DecodeSourceBreakpoint) == Ok(p.breakpoints)
    ensures OptionalList(Object(SetBreakpointsRequestEntries(p)), "lines", GetInt) == Ok(p.lines)
  {
    var entries := SetBreakpointsRequestEntries(p);
    RequiredRoundTrip(entries, "source", p.source, EncodeSource, DecodeSource);
    OptionalListRoundTrip(entries, "breakpoints", p.breakpoints, EncodeSourceBreakpoint, DecodeSourceBreakpoint);
    OptionalListRoundTrip(entries, "lines", p.lines, OfInt, GetInt);
  }

  lemma SetBreakpointsRequestMembersRoundTrip1(p: SetBreakpointsRequest)
    ensures OptionalBool(Object(SetBreakpointsRequestEntries(p)), "sourceModified") == Ok(p.sourceModified)
  {
    var entries := SetBreakpointsRequestEntries(p);
    OptionalBoolRoundTrip(entries, "sourceModified", p.sourceModified);
  }

  function EncodeSetBreakpointsRequest(p: SetBreakpointsRequest): (r: Result<Json>)
    ensures r.Fail? <==> p.header.command in CommandTypeUnwritable
    ensures r.Ok? ==> DecodeSetBreakpointsRequest(r.value) == Ok(p)
  {
    var header :- EncodeRequest(p.header);
    SetBreakpointsRequestMembersRoundTrip0(p);
    SetBreakpointsRequestMembersRoundTrip1(p);
    var entries := SetBreakpointsRequestEntries(p);
    RequestFrame(header, "arguments", Object(entries));
    Ok(Put(header, "arguments", Object(entries)))
  }

  function DecodeSetBreakpointsRequest(j: Json): (r: Result<SetBreakpointsRequest>)
    ensures r.Ok? ==> DecodeRequest(j) == Ok(r.value.header) && Find(j, "arguments").Some?
    ensures r.Ok? ==> Find(Find(j, "arguments").value, "source").Some?
  {
    var header :- DecodeRequest(j);
    var arguments :- At(j, "arguments");
    var source :- Required(arguments, "source", DecodeSource);
    var breakpoints :- OptionalList(arguments, "breakpoints", DecodeSourceBreakpoint);
    var lines :- OptionalList(arguments, "lines", GetInt);
    var sourceModified :- OptionalBool(arguments, "sourceModified");
    Ok(SetBreakpointsRequest.SetBreakpointsRequest(header, source, breakpoints, lines, sourceModified))
  }

  datatype SetFunctionBreakpointsRequest = SetFunctionBreakpointsRequest(header: Request, breakpoints: seq<FunctionBreakpoint>)

  function EncodeSetFunctionBreakpointsRequest(p: SetFunctionBreakpointsRequest): (r: Result<Json>)
    ensures r.Fail? <==> p.header.command in CommandTypeUnwritable
    ensures r.Ok? ==> DecodeSetFunctionBreakpointsRequest(r.value) == Ok(p)
  {
    var header :- EncodeRequest(p.header);
    var entries := map[
      "breakpoints" := Some(EncodeList(p.breakpoints, EncodeFunctionBreakpoint))
    ];
    RequiredListRoundTrip(entries, "breakpoints", p.breakpoints, EncodeFunctionBreakpoint, DecodeFunctionBreakpoint);
    RequestFrame(header, "arguments", Object(entries));
    Ok(Put(header, "arguments", Object(entries)))
  }

  function DecodeSetFunctionBreakpointsRequest(j: Json): (r: Result<SetFunctionBreakpointsRequest>)
    ensures r.Ok? ==> DecodeRequest(j) == Ok(r.value.header) && Find(j, "arguments").Some?
    ensures r.Ok? ==> Find(Find(j, "arguments").value, "breakpoints").Some?
  {
    var header :- DecodeRequest(j);
    var arguments :- At(j, "arguments");
    var breakpoints :- RequiredList(arguments, "breakpoints", DecodeFunctionBreakpoint);
    Ok(SetFunctionBreakpointsRequest.SetFunctionBreakpointsRequest(header, breakpoints))
  }

  datatype SetExceptionBreakpointsRequest = SetExceptionBreakpointsRequest(header: Request, filters: seq<string>, filterOptions: Option<seq<ExceptionFilterOptions>>, exceptionOptions: Option<seq<ExceptionOptions>>)

  function EncodeSetExceptionBreakpointsRequest(p: SetExceptionBreakpointsRequest): (r: Result<Json>)
    ensures r.Fail? <==> p.header.command in CommandTypeUnwritable
    ensures r.Ok? ==> DecodeSetExceptionBreakpointsRequest(r.value) == Ok(p)
  {
    var header :- EncodeRequest(p.header);
    var entries := map[
      "filters" := Some(EncodeList(p.filters, OfString)),
      "filterOptions" := OptList(p.filterOptions, EncodeExceptionFilterOptions),
      "exceptionOptions" := OptList(p.exceptionOptions, EncodeExceptionOptions)
    ];
    RequiredListRoundTrip(entries, "filters", p.filters, OfString, GetString);
    OptionalListRoundTrip(entries, "filterOptions", p.filterOptions, EncodeExceptionFilterOptions, DecodeExceptionFilterOptions);
    OptionalListRoundTrip(entries, "exceptionOptions", p.exceptionOptions, EncodeExceptionOptions, DecodeExceptionOptions);
    RequestFrame(header, "arguments", Object(entries));
    Ok(Put(header, "arguments", Object(entries)))
  }

  function DecodeSetExceptionBreakpointsRequest(j: Json): (r: Result<SetExceptionBreakpointsRequest>)
    ensures r.Ok? ==> DecodeRequest(j) == Ok(r.value.header) && Find(j, "arguments").Some?
    ensures r.Ok? ==> Find(Find(j, "arguments").value, "filters").Some?
  {
    var header :- DecodeRequest(j);
    var arguments :- At(j, "arguments");
    var filters :- RequiredList(arguments, "filters", GetString);
    var filterOptions :- OptionalList(arguments, "filterOptions", DecodeExceptionFilterOptions);
    var exceptionOptions :- OptionalList(arguments, "exceptionOptions", DecodeExceptionOptions);
    Ok(SetExceptionBreakpointsRequest.SetExceptionBreakpointsRequest(header, filters, filterOptions, exceptionOptions))
  }

  datatype DataBreakpointInfoRequest = DataBreakpointInfoRequest(header: Request, variablesReference: Option<int64>, name: string)

  function EncodeDataBreakpointInfoRequest(p: DataBreakpointInfoRequest): (r: Result<Json>)
    ensures r.Fail? <==> p.header.command in CommandTypeUnwritable
    ensures r.Ok? ==> DecodeDataBreakpointInfoRequest(r.value) == Ok(p)
  {
    var header :- EncodeRequest(p.header);
    var entries := map[
      "variablesReference" := OptInt(p.variablesReference),
      "name" := Some(OfString(p.name))
    ];
    OptionalIntRoundTrip(entries, "variablesReference", p.variablesReference);
    RequiredStringRoundTrip(entries, "name", p.name);
    RequestFrame(header, "arguments", Object(entries));
    Ok(Put(header, "arguments", Object(entries)))
  }

  function DecodeDataBreakpointInfoRequest(j: Json): (r: Result<DataBreakpointInfoRequest>)
    ensures r.Ok? ==> DecodeRequest(j) == Ok(r.value.header) && Find(j, "arguments").Some?
    ensures r.Ok? ==> Find(Find(j, "arguments").value, "name").Some?
  {
    var header :- DecodeRequest(j);
    var arguments :- At(j, "arguments");
    var variablesReference :- OptionalInt(arguments, "variablesReference");
    var name :- RequiredString(arguments, "name");
    Ok(DataBreakpointInfoRequest.DataBreakpointInfoRequest(header, variablesReference, name))
  }

  datatype SetDataBreakpointsRequest = SetDataBreakpointsRequest(header: Request, breakpoints: seq<DataBreakpoint>)

  function EncodeSetDataBreakpointsRequest(p: SetDataBreakpointsRequest): (r: Result<Json>)
    ensures r.Fail? <==> p.header.command in CommandTypeUnwritable
    ensures r.Ok? ==> DecodeSetDataBreakpointsRequest(r.value) == Ok(p)
  {
    var header :- EncodeRequest(p.header);
    var entries := map[
      "breakpoints" := Some(EncodeList(p.breakpoints, EncodeDataBreakpoint))
    ];
    RequiredListRoundTrip(entries, "breakpoints", p.breakpoints, EncodeDataBreakpoint, DecodeDataBreakpoint);
    RequestFrame(header, "arguments", Object(entries));
    Ok(Put(header, "arguments", Object(entries)))
  }

  function DecodeSetDataBreakpointsRequest(j: Json): (r: Result<SetDataBreakpointsRequest>)
    ensures r.Ok? ==> DecodeRequest(j) == Ok(r.value.header) && Find(j, "arguments").Some?
    ensures r.Ok? ==> Find(Find(j, "arguments").value, "breakpoints").Some?
  {
    var header :- DecodeRequest(j);
    var arguments :- At(j, "arguments");
    var breakpoints :- RequiredList(arguments, "breakpoints", DecodeDataBreakpoint);
    Ok(SetDataBreakpointsRequest.SetDataBreakpointsRequest(header, breakpoints))
  }

  datatype SetInstructionBreakpointsRequest = SetInstructionBreakpointsRequest(header: Request, breakpoints: seq<InstructionBreakpoint>)

  function EncodeSetInstructionBreakpointsRequest(p: SetInstructionBreakpointsRequest): (r: Result<Json>)
    ensures r.Fail? <==> p.header.command in CommandTypeUnwritable
    ensures r.Ok? ==> DecodeSetInstructionBreakpointsRequest(r.value) == Ok(p)
  {
    var header :- EncodeRequest(p.header);
    var entries := map[
      "breakpoints" := Some(EncodeList(p.breakpoints, EncodeInstructionBreakpoint))
    ];
    RequiredListRoundTrip(entries, "breakpoints", p.breakpoints, EncodeInstructionBreakpoint, DecodeInstructionBreakpoint);
    RequestFrame(header, "arguments", Object(entries));
    Ok(Put(header, "arguments", Object(entries)))
  }

  function DecodeSetInstructionBreakpointsRequest(j: Json): (r: Result<SetInstructionBreakpointsRequest>)
    ensures r.Ok? ==> DecodeRequest(j) == Ok(r.value.header) && Find(j, "arguments").Some?
    ensures r.Ok? ==> Find(Find(j, "arguments").value, "breakpoints").Some?
  {
    var header :- DecodeRequest(j);
    var arguments :- At(j, "arguments");
    var breakpoints :- RequiredList(arguments, "breakpoints", DecodeInstructionBreakpoint);
    Ok(SetInstructionBreakpointsRequest.SetInstructionBreakpointsRequest(header, breakpoints))
  }

  datatype ContinueBaseRequest = ContinueBaseRequest(header: Request, threadId: int64, singleThread: Option<bool>)

  function EncodeContinueBaseRequest(p: ContinueBaseRequest): (r: Result<Json>)
    ensures r.Fail? <==> p.header.command in CommandTypeUnwritable
    ensures r.Ok? ==> DecodeContinueBaseRequest(r.value) == Ok(p)
  {
    var header :- EncodeRequest(p.header);
    var entries := map[
      "threadId" := Some(OfInt(p.threadId)),
      "singleThread" := OptBool(p.singleThread)
    ];
    RequiredIntRoundTrip(entries, "threadId", p.threadId);
    OptionalBoolRoundTrip(entries, "singleThread", p.singleThread);
    RequestFrame(header, "arguments", Object(entries));
    Ok(Put(header, "arguments", Object(entries)))
  }

  function DecodeContinueBaseRequest(j: Json): (r: Result<ContinueBaseRequest>)
    ensures r.Ok? ==> DecodeRequest(j) == Ok(r.value.header) && Find(j, "arguments").Some?
    ensures r.Ok? ==> Find(Find(j, "arguments").value, "threadId").Some?
  {
    var header :- DecodeRequest(j);
    var arguments :- At(j, "arguments");
    var threadId :- RequiredInt(arguments, "threadId");
    var singleThread :- OptionalBool(arguments, "singleThread");
    Ok(ContinueBaseRequest.ContinueBaseRequest(header, threadId, singleThread))
  }

  datatype NextBaseRequest = NextBaseRequest(header: Request, threadId: int64, singleThread: Option<bool>, granularity: Option<SteppingGranularity>)

  function EncodeNextBaseRequest(p: NextBaseRequest): (r: Result<Json>)
    ensures r.Fail? <==> p.header.command in CommandTypeUnwritable
    ensures r.Ok? ==> DecodeNextBaseRequest(r.value) == Ok(p)
  {
    var header :- EncodeRequest(p.header);
    var entries := map[
      "threadId" := Some(OfInt(p.threadId)),
      "singleThread" := OptBool(p.singleThread),
      "granularity" := Opt(p.granularity, EncodeSteppingGranularity)
    ];
    RequiredIntRoundTrip(entries, "threadId", p.threadId);
    OptionalBoolRoundTrip(entries, "singleThread", p.singleThread);
    OptionalRoundTrip(entries, "granularity", p.granularity, EncodeSteppingGranularity, DecodeSteppingGranularity);
    RequestFrame(header, "arguments", Object(entries));
    Ok(Put(header, "arguments", Object(entries)))
  }

  function DecodeNextBaseRequest(j: Json): (r: Result<NextBaseRequest>)
    ensures r.Ok? ==> DecodeRequest(j) == Ok(r.value.header) && Find(j, "arguments").Some?
    ensures r.Ok? ==> Find(Find(j, "arguments").value, "threadId").Some?
  {
    var header :- DecodeRequest(j);
    var arguments :- At(j, "arguments");
    var threadId :- RequiredInt(arguments, "threadId");
    var singleThread :- OptionalBool(arguments, "singleThread");
    var granularity :- FromOptJson(arguments, "granularity", DecodeSteppingGranularity);
    Ok(NextBaseRequest.NextBaseRequest(header, threadId, singleThread, granularity))
  }

  datatype StepInRequest = StepInRequest(header: Request, threadId: int64, singleThread: Option<bool>, targetId: Option<int64>, granularity: Option<SteppingGranularity>)

  /** The members the encoder writes under `arguments`; absent optionals write none. */
  function StepInRequestEntries(p: StepInRequest): map<string, Option<Json>> {
    map[
      "threadId" := Some(OfInt(p.threadId)),
      "singleThread" := OptBool(p.singleThread),
      "targetId" := OptInt(p.targetId),
      "granularity" := Opt(p.granularity, EncodeSteppingGranularity)
    ]
  }

  lemma StepInRequestMembersRoundTrip0(p: StepInRequest)
    ensures RequiredInt(Object(StepInRequestEntries(p)), "threadId") == Ok(p.threadId)
    ensures OptionalBool(Object(StepInRequestEntries(p)), "singleThread") == Ok(p.singleThread)
    ensures OptionalInt(Object(StepInRequestEntries(p)), "targetId") == Ok(p.targetId)
  {
    var entries := StepInRequestEntries(p);
    RequiredIntRoundTrip(entries, "threadId", p.threadId);
    OptionalBoolRoundTrip(entries, "singleThread", p.singleThread);
    OptionalIntRoundTrip(entries, "targetId", p.targetId);
  }

  lemma StepInRequestMembersRoundTrip1(p: StepInRequest)
    ensures FromOptJson(Object(StepInRequestEntries(p)), "granularity", DecodeSteppingGranularity) == Ok(p.granularity)
  {
    var entries := StepInRequestEntries(p);
    OptionalRoundTrip(entries, "granularity", p.granularity, EncodeSteppingGranularity, DecodeSteppingGranularity);
  }

  function EncodeStepInRequest(p: StepInRequest): (r: Result<Json>)
    ensures r.Fail? <==> p.header.command in CommandTypeUnwritable
    ensures r.Ok? ==> DecodeStepInRequest(r.value) == Ok(p)
  {
    var header :- EncodeRequest(p.header);
    StepInRequestMembersRoundTrip0(p);
    StepInRequestMembersRoundTrip1(p);
    var entries := StepInRequestEntries(p);
    RequestFrame(header, "arguments", Object(entries));
    Ok(Put(header, "arguments", Object(entries)))
  }

  function DecodeStepInRequest(j: Json): (r: Result<StepInRequest>)
    ensures r.Ok? ==> DecodeRequest(j) == Ok(r.value.header) && Find(j, "arguments").Some?
    ensures r.Ok? ==> Find(Find(j, "arguments").value, "threadId").Some?
  {
    var header :- DecodeRequest(j);
    var arguments :- At(j, "arguments");
    var threadId :- RequiredInt(arguments, "threadId");
    var singleThread :- OptionalBool(arguments, "singleThread");
    var targetId :- OptionalInt(arguments, "targetId");
    var granularity :- FromOptJson(arguments, "granularity", DecodeSteppingGranularity);
    Ok(StepInRequest.StepInRequest(header, threadId, singleThread, targetId, granularity))
  }

  datatype RestartFrameBaseRequest = RestartFrameBaseRequest(header: Request, frameId: int64)

  function EncodeRestartFrameBaseRequest(p: RestartFrameBaseRequest): (r: Result<Json>)
    ensures r.Fail? <==> p.header.command in CommandTypeUnwritable
    ensures r.Ok? ==> DecodeRestartFrameBaseRequest(r.value) == Ok(p)
  {
    var header :- EncodeRequest(p.header);
    var entries := map[
      "frameId" := Some(OfInt(p.frameId))
    ];
    RequiredIntRoundTrip(entries, "frameId", p.frameId);
    RequestFrame(header, "arguments", Object(entries));
    Ok(Put(header, "arguments", Object(entries)))
  }

  function DecodeRestartFrameBaseRequest(j: Json): (r: Result<RestartFrameBaseRequest>)
    ensures r.Ok? ==> DecodeRequest(j) == Ok(r.value.header) && Find(j, "arguments").Some?
    ensures r.Ok? ==> Find(Find(j, "arguments").value, "frameId").Some?
  {
    var header :- DecodeRequest(j);
    var arguments :- At(j, "arguments");
    var frameId :- RequiredInt(arguments, "frameId");
    Ok(RestartFrameBaseRequest.RestartFrameBaseRequest(header, frameId))
  }

  datatype GotoRequest = GotoRequest(header: Request, threadId: int64, targetId: int64)

  function EncodeGotoRequest(p: GotoRequest): (r: Result<Json>)
    ensures r.Fail? <==> p.header.command in CommandTypeUnwritable
    ensures r.Ok? ==> DecodeGotoRequest(r.value) == Ok(p)
  {
    var header :- EncodeRequest(p.header);
    var entries := map[
      "threadId" := Some(OfInt(p.threadId)),
      "targetId" := Some(OfInt(p.targetId))
    ];
    RequiredIntRoundTrip(entries, "threadId", p.threadId);
    RequiredIntRoundTrip(entries, "targetId", p.targetId);
    RequestFrame(header, "arguments", Object(entries));
    Ok(Put(header, "arguments", Object(entries)))
  }

  function DecodeGotoRequest(j: Json): (r: Result<GotoRequest>)
    ensures r.Ok? ==> DecodeRequest(j) == Ok(r.value.header) && Find(j, "arguments").Some?
    ensures r.Ok? ==> Find(Find(j, "arguments").value, "threadId").Some? && Find(Find(j, "arguments").value, "targetId").Some?
  {
    var header :- DecodeRequest(j);
    var arguments :- At(j, "arguments");
    var threadId :- RequiredInt(arguments, "threadId");
    var targetId :- RequiredInt(arguments, "targetId");
    Ok(GotoRequest.GotoRequest(header, threadId, targetId))
  }

  datatype PauseBaseRequest = PauseBaseRequest(header: Request, threadId: int64)

  function EncodePauseBaseRequest(p: PauseBaseRequest): (r: Result<Json>)
    ensures r.Fail? <==> p.header.command in CommandTypeUnwritable
    ensures r.Ok? ==> DecodePauseBaseRequest(r.value) == Ok(p)
  {
    var header :- EncodeRequest(p.header);
    var entries := map[
      "threadId" := Some(OfInt(p.threadId))
    ];
    RequiredIntRoundTrip(entries, "threadId", p.threadId);
    RequestFrame(header, "arguments", Object(entries));
    Ok(Put(header, "arguments", Object(entries)))
  }

  function DecodePauseBaseRequest(j: Json): (r: Result<PauseBaseRequest>)
    ensures r.Ok? ==> DecodeRequest(j) == Ok(r.value.header) && Find(j, "arguments").Some?
    ensures r.Ok? ==> Find(Find(j, "arguments").value, "threadId").Some?
  {
    var header :- DecodeRequest(j);
    var arguments :- At(j, "arguments");
    var threadId :- RequiredInt(arguments, "threadId");
    Ok(PauseBaseRequest.PauseBaseRequest(header, threadId))
  }

  datatype StackTraceRequest = StackTraceRequest(header: Request, threadId: int64, startFrame: Option<int64>, levels: Option<int64>, format: Option<StackFrameFormat>)

  /** The members the encoder writes under `arguments`; absent optionals write none. */
  function StackTraceRequestEntries(p: StackTraceRequest): map<string, Option<Json>> {
    map[
      "threadId" := Some(OfInt(p.threadId)),
      "startFrame" := OptInt(p.startFrame),
      "levels" := OptInt(p.levels),
      "format" := Opt(p.format, EncodeStackFrameFormat)
    ]
  }

  lemma StackTraceRequestMembersRoundTrip0(p: StackTraceRequest)
    ensures RequiredInt(Object(StackTraceRequestEntries(p)), "threadId") == Ok(p.threadId)
    ensures OptionalInt(Object(StackTraceRequestEntries(p)), "startFrame") == Ok(p.startFrame)
    ensures OptionalInt(Object(StackTraceRequestEntries(p)), "levels") == Ok(p.levels)
  {
    var entries := StackTraceRequestEntries(p);
    RequiredIntRoundTrip(entries, "threadId", p.threadId);
    OptionalIntRoundTrip(entries, "startFrame", p.startFrame);
    OptionalIntRoundTrip(entries, "levels", p.levels);
  }

  lemma StackTraceRequestMembersRoundTrip1(p: StackTraceRequest)
    ensures FromOptJson(Object(StackTraceRequestEntries(p)), "format", DecodeStackFrameFormat) == Ok(p.format)
  {
    var entries := StackTraceRequestEntries(p);
    OptionalRoundTrip(entries, "format", p.format, EncodeStackFrameFormat, DecodeStackFrameFormat);
  }

  function EncodeStackTraceRequest(p: StackTraceRequest): (r: Result<Json>)
    ensures r.Fail? <==> p.header.command in CommandTypeUnwritable
    ensures r.Ok? ==> DecodeStackTraceRequest(r.value) == Ok(p)
  {
    var header :- EncodeRequest(p.header);
    StackTraceRequestMembersRoundTrip0(p);
    StackTraceRequestMembersRoundTrip1(p);
    var entries := StackTraceRequestEntries(p);
    RequestFrame(header, "arguments", Object(entries));
    Ok(Put(header, "arguments", Object(entries)))
  }

  function DecodeStackTraceRequest(j: Json): (r: Result<StackTraceRequest>)
    ensures r.Ok? ==> DecodeRequest(j) == Ok(r.value.header) && Find(j, "arguments").Some?
    ensures r.Ok? ==> Find(Find(j, "arguments").value, "threadId").Some?
  {
    var header :- DecodeRequest(j);
    var arguments :- At(j, "arguments");
    var threadId :- RequiredInt(arguments, "threadId");
    var startFrame :- OptionalInt(arguments, "startFrame");
    var levels :- OptionalInt(arguments, "levels");
    var format :- FromOptJson(arguments, "format", DecodeStackFrameFormat);
    Ok(StackTraceRequest.StackTraceRequest(header, threadId, startFrame, levels, format))
  }

  datatype VariablesRequest = VariablesRequest(header: Request, variablesReference: int64, filter: Option<VariablesFilter>, start: Option<int64>, count: Option<int64>, format: Option<ValueFormat>)

  /** The members the encoder writes under `arguments`; absent optionals write none. */
  function VariablesRequestEntries(p: VariablesRequest): map<string, Option<Json>> {
    map[
      "variablesReference" := Some(OfInt(p.variablesReference)),
      "filter" := Opt(p.filter, EncodeVariablesFilter),
      "start" := OptInt(p.start),
      "count" := OptInt(p.count),
      "format" := Opt(p.format, EncodeValueFormat)
    ]
  }

  lemma VariablesRequestMembersRoundTrip0(p: VariablesRequest)
    ensures RequiredInt(Object(VariablesRequestEntries(p)), "variablesReference") == Ok(p.variablesReference)
    ensures FromOptJson(Object(VariablesRequestEntries(p)), "filter", DecodeVariablesFilter) == Ok(p.filter)
    ensures OptionalInt(Object(VariablesRequestEntries(p)), "start") == Ok(p.start)
  {
    var entries := VariablesRequestEntries(p);
    RequiredIntRoundTrip(entries, "variablesReference", p.variablesReference);
    OptionalRoundTrip(entries, "filter", p.filter, EncodeVariablesFilter, DecodeVariablesFilter);
    OptionalIntRoundTrip(entries, "start", p.start);
  }

  lemma VariablesRequestMembersRoundTrip1(p: VariablesRequest)
    ensures OptionalInt(Object(VariablesRequestEntries(p)), "count") == Ok(p.count)
    ensures FromOptJson(Object(VariablesRequestEntries(p)), "format", DecodeValueFormat) == Ok(p.format)
  {
    var entries := VariablesRequestEntries(p);
    OptionalIntRoundTrip(entries, "count", p.count);
    OptionalRoundTrip(entries, "format", p.format, EncodeValueFormat, DecodeValueFormat);
  }

  function EncodeVariablesRequest(p: VariablesRequest): (r: Result<Json>)
    ensures r.Fail? <==> p.header.command in CommandTypeUnwritable
    ensures r.Ok? ==> DecodeVariablesRequest(r.value) == Ok(p)
  {
    var header :- EncodeRequest(p.header);
    VariablesRequestMembersRoundTrip0(p);
    VariablesRequestMembersRoundTrip1(p);
    var entries := VariablesRequestEntries(p);
    RequestFrame(header, "arguments", Object(entries));
    Ok(Put(header, "arguments", Object(entries)))
  }

  function DecodeVariablesRequest(j: Json): (r: Result<VariablesRequest>)
    ensures r.Ok? ==> DecodeRequest(j) == Ok(r.value.header) && Find(j, "arguments").Some?
    ensures r.Ok? ==> Find(Find(j, "arguments").value, "variablesReference").Some?
  {
    var header :- DecodeRequest(j);
    var arguments :- At(j, "arguments");
    var variablesReference :- RequiredInt(arguments, "variablesReference");
    var filter :- FromOptJson(arguments, "filter", DecodeVariablesFilter);
    var start :- OptionalInt(arguments, "start");
    var count :- OptionalInt(arguments, "count");
    var format :- FromOptJson(arguments, "format", DecodeValueFormat);
    Ok(VariablesRequest.VariablesRequest(header, variablesReference, filter, start, count, format))
  }

  datatype SetVariableRequest = SetVariableRequest(header: Request, variablesReference: int64, name: string, value: string, format: Option<ValueFormat>)

  /** The members the encoder writes under `arguments`; absent optionals write none. */
  function SetVariableRequestEntries(p: SetVariableRequest): map<string, Option<Json>> {
    map[
      "variablesReference" := Some(OfInt(p.variablesReference)),
      "name" := Some(OfString(p.name)),
      "value" := Some(OfString(p.value)),
      "format" := Opt(p.format, EncodeValueFormat)
    ]
  }

  lemma SetVariableRequestMembersRoundTrip0(p: SetVariableRequest)
    ensures RequiredInt(Object(SetVariableRequestEntries(p)), "variablesReference") == Ok(p.variablesReference)
    ensures RequiredString(Object(SetVariableRequestEntries(p)), "name") == Ok(p.name)
    ensures RequiredString(Object(SetVariableRequestEntries(p)), "value") == Ok(p.value)
  {
    var entries := SetVariableRequestEntries(p);
    RequiredIntRoundTrip(entries, "variablesReference", p.variablesReference);
    RequiredStringRoundTrip(entries, "name", p.name);
    RequiredStringRoundTrip(entries, "value", p.value);
  }

  lemma SetVariableRequestMembersRoundTrip1(p: SetVariableRequest)
    ensures FromOptJson(Object(SetVariableRequestEntries(p)), "format", DecodeValueFormat) == Ok(p.format)
  {
    var entries := SetVariableRequestEntries(p);
    OptionalRoundTrip(entries, "format", p.format, EncodeValueFormat, DecodeValueFormat);
  }

  function EncodeSetVariableRequest(p: SetVariableRequest): (r: Result<Json>)
    ensures r.Fail? <==> p.header.command in CommandTypeUnwritable
    ensures r.Ok? ==> DecodeSetVariableRequest(r.value) == Ok(p)
  {
    var header :- EncodeRequest(p.header);
    SetVariableRequestMembersRoundTrip0(p);
    SetVariableRequestMembersRoundTrip1(p);
    var entries := SetVariableRequestEntries(p);
    RequestFrame(header, "arguments", Object(entries));
    Ok(Put(header, "arguments", Object(entries)))
  }

  function DecodeSetVariableRequest(j: Json): (r: Result<SetVariableRequest>)
    ensures r.Ok? ==> DecodeRequest(j) == Ok(r.value.header) && Find(j, "arguments").Some?
    ensures r.Ok? ==> Find(Find(j, "arguments").value, "variablesReference").Some? && Find(Find(j, "arguments").value, "name").Some? && Find(Find(j, "arguments").value, "value").Some?
  {
    var header :- DecodeRequest(j);
    var arguments :- At(j, "arguments");
    var variablesReference :- RequiredInt(arguments, "variablesReference");
    var name :- RequiredString(arguments, "name");
    var value :- RequiredString(arguments, "value");
    var format :- FromOptJson(arguments, "format", DecodeValueFormat);
    Ok(SetVariableRequest.SetVariableRequest(header, variablesReference, name, value, format))
  }

  datatype SourceRequest = SourceRequest(header: Request, source: Option<Source>, sourceReference: int64)

  function EncodeSourceRequest(p: SourceRequest): (r: Result<Json>)
    ensures r.Fail? <==> p.header.command in CommandTypeUnwritable
    ensures r.Ok? ==> DecodeSourceRequest(r.value) == Ok(p)
  {
    var header :- EncodeRequest(p.header);
    var entries := map[
      "source" := Opt(p.source, EncodeSource),
      "sourceReference" := Some(OfInt(p.sourceReference))
    ];
    OptionalRoundTrip(entries, "source", p.source, EncodeSource, DecodeSource);
    RequiredIntRoundTrip(entries, "sourceReference", p.sourceReference);
    RequestFrame(header, "arguments", Object(entries));
    Ok(Put(header, "arguments", Object(entries)))
  }

  function DecodeSourceRequest(j: Json): (r: Result<SourceRequest>)
    ensures r.Ok? ==> DecodeRequest(j) == Ok(r.value.header) && Find(j, "arguments").Some?
    ensures r.Ok? ==> Find(Find(j, "arguments").value, "sourceReference").Some?
  {
    var header :- DecodeRequest(j);
    var arguments :- At(j, "arguments");
    var source :- FromOptJson(arguments, "source", DecodeSource);
    var sourceReference :- RequiredInt(arguments, "sourceReference");
    Ok(SourceRequest.SourceRequest(header, source, sourceReference))
  }

  datatype TerminateThreadsRequest = TerminateThreadsRequest(header: Request, threadIds: Option<seq<int64>>)

  function EncodeTerminateThreadsRequest(p: TerminateThreadsRequest): (r: Result<Json>)
    ensures r.Fail? <==> p.header.command in CommandTypeUnwritable
    ensures r.Ok? ==> DecodeTerminateThreadsRequest(r.value) == Ok(p)
  {
    var header :- EncodeRequest(p.header);
    var entries := map[
      "threadIds" := OptList(p.threadIds, OfInt)
    ];
    OptionalListRoundTrip(entries, "threadIds", p.threadIds, OfInt, GetInt);
    RequestFrame(header, "arguments", Object(entries));
    Ok(Put(header, "arguments", Object(entries)))
  }

  function DecodeTerminateThreadsRequest(j: Json): (r: Result<TerminateThreadsRequest>)
    ensures r.Ok? ==> DecodeRequest(j) == Ok(r.value.header) && Find(j, "arguments").Some?
  {
    var header :- DecodeRequest(j);
    var arguments :- At(j, "arguments");
    var threadIds :- OptionalList(arguments, "threadIds", GetInt);
    Ok(TerminateThreadsRequest.TerminateThreadsRequest(header, threadIds))
  }

  datatype ModulesRequest = ModulesRequest(header: Request, startModule: Option<int64>, moduleCount: Option<int64>)

  function EncodeModulesRequest(p: ModulesRequest): (r: Result<Json>)
    ensures r.Fail? <==> p.header.command in CommandTypeUnwritable
    ensures r.Ok? ==> DecodeModulesRequest(r.value) == Ok(p)
  {
    var header :- EncodeRequest(p.header);
    var entries := map[
      "startModule" := OptInt(p.startModule),
      "moduleCount" := OptInt(p.moduleCount)
    ];
    OptionalIntRoundTrip(entries, "startModule", p.startModule);
    OptionalIntRoundTrip(entries, "moduleCount", p.moduleCount);
    RequestFrame(header, "arguments", Object(entries));
    Ok(Put(header, "arguments", Object(entries)))
  }

  function DecodeModulesRequest(j: Json): (r: Result<ModulesRequest>)
    ensures r.Ok? ==> DecodeRequest(j) == Ok(r.value.header) && Find(j, "arguments").Some?
  {
    var header :- DecodeRequest(j);
    var arguments :- At(j, "arguments");
    var startModule :- OptionalInt(arguments, "startModule");
    var moduleCount :- OptionalInt(arguments, "moduleCount");
    Ok(ModulesRequest.ModulesRequest(header, startModule, moduleCount))
  }

  datatype EvaluateRequest = EvaluateRequest(header: Request, expression: string, frameId: Option<int64>, context: Option<string>, format: Option<ValueFormat>)

  /** The members the encoder writes under `arguments`; absent optionals write none. */
  function EvaluateRequestEntries(p: EvaluateRequest): map<string, Option<Json>> {
    map[
      "expression" := Some(OfString(p.expression)),
      "frameId" := OptInt(p.frameId),
      "context" := OptString(p.context),
      "format" := Opt(p.format, EncodeValueFormat)
    ]
  }

  lemma EvaluateRequestMembersRoundTrip0(p: EvaluateRequest)
    ensures RequiredString(Object(EvaluateRequestEntries(p)), "expression") == Ok(p.expression)
    ensures OptionalInt(Object(EvaluateRequestEntries(p)), "frameId") == Ok(p.frameId)
    ensures OptionalString(Object(EvaluateRequestEntries(p)), "context") == Ok(p.context)
  {
    var entries := EvaluateRequestEntries(p);
    RequiredStringRoundTrip(entries, "expression", p.expression);
    OptionalIntRoundTrip(entries, "frameId", p.frameId);
    OptionalStringRoundTrip(entries, "context", p.context);
  }

  lemma EvaluateRequestMembersRoundTrip1(p: EvaluateRequest)
    ensures FromOptJson(Object(EvaluateRequestEntries(p)), "format", DecodeValueFormat) == Ok(p.format)
  {
    var entries := EvaluateRequestEntries(p);
    OptionalRoundTrip(entries, "format", p.format, EncodeValueFormat, DecodeValueFormat);
  }

  function EncodeEvaluateRequest(p: EvaluateRequest): (r: Result<Json>)
    ensures r.Fail? <==> p.header.command in CommandTypeUnwritable
    ensures r.Ok? ==> DecodeEvaluateRequest(r.value) == Ok(p)
  {
    var header :- EncodeRequest(p.header);
    EvaluateRequestMembersRoundTrip0(p);
    EvaluateRequestMembersRoundTrip1(p);
    var entries := EvaluateRequestEntries(p);
    RequestFrame(header, "arguments", Object(entries));
    Ok(Put(header, "arguments", Object(entries)))
  }

  function DecodeEvaluateRequest(j: Json): (r: Result<EvaluateRequest>)
    ensures r.Ok? ==> DecodeRequest(j) == Ok(r.value.header) && Find(j, "arguments").Some?
    ensures r.Ok? ==> Find(Find(j, "arguments").value, "expression").Some?
  {
    var header :- DecodeRequest(j);
    var arguments :- At(j, "arguments");
    var expression :- RequiredString(arguments, "expression");
    var frameId :- OptionalInt(arguments, "frameId");
    var context :- OptionalString(arguments, "context");
    var format :- FromOptJson(arguments, "format", DecodeValueFormat);
    Ok(EvaluateRequest.EvaluateRequest(header, expression, frameId, context, format))
  }

  datatype SetExpressionRequest = SetExpressionRequest(header: Request, expression: string, value: string, frameId: Option<int64>, format: Option<ValueFormat>)

  /** The members the encoder writes under `arguments`; absent optionals write none. */
  function SetExpressionRequestEntries(p: SetExpressionRequest): map<string, Option<Json>> {
    map[
      "expression" := Some(OfString(p.expression)),
      "value" := Some(OfString(p.value)),
      "frameId" := OptInt(p.frameId),
      "format" := Opt(p.format, EncodeValueFormat)
    ]
  }

  lemma SetExpressionRequestMembersRoundTrip0(p: SetExpressionRequest)
    ensures RequiredString(Object(SetExpressionRequestEntries(p)), "expression") == Ok(p.expression)
    ensures RequiredString(Object(SetExpressionRequestEntries(p)), "value") == Ok(p.value)
    ensures OptionalInt(Object(SetExpressionRequestEntries(p)), "frameId") == Ok(p.frameId)
  {
    var entries := SetExpressionRequestEntries(p);
    RequiredStringRoundTrip(entries, "expression", p.expression);
    RequiredStringRoundTrip(entries, "value", p.value);
    OptionalIntRoundTrip(entries, "frameId", p.frameId);
  }

  lemma SetExpressionRequestMembersRoundTrip1(p: SetExpressionRequest)
    ensures FromOptJson(Object(SetExpressionRequestEntries(p)), "format", DecodeValueFormat) == Ok(p.format)
  {
    var entries := SetExpressionRequestEntries(p);
    OptionalRoundTrip(entries, "format", p.format, EncodeValueFormat, DecodeValueFormat);
  }

  function EncodeSetExpressionRequest(p: SetExpressionRequest): (r: Result<Json>)
    ensures r.Fail? <==> p.header.command in CommandTypeUnwritable
    ensures r.Ok? ==> DecodeSetExpressionRequest(r.value) == Ok(p)
  {
    var header :- EncodeRequest(p.header);
    SetExpressionRequestMembersRoundTrip0(p);
    SetExpressionRequestMembersRoundTrip1(p);
    var entries := SetExpressionRequestEntries(p);
    RequestFrame(header, "arguments", Object(entries));
    Ok(Put(header, "arguments", Object(entries)))
  }

  function DecodeSetExpressionRequest(j: Json): (r: Result<SetExpressionRequest>)
    ensures r.Ok? ==> DecodeRequest(j) == Ok(r.value.header) && Find(j, "arguments").Some?
    ensures r.Ok? ==> Find(Find(j, "arguments").value, "expression").Some? && Find(Find(j, "arguments").value, "value").Some?
  {
    var header :- DecodeRequest(j);
    var arguments :- At(j, "arguments");
    var expression :- RequiredString(arguments, "expression");
    var value :- RequiredString(arguments, "value");
    var frameId :- OptionalInt(arguments, "frameId");
    var format :- FromOptJson(arguments, "format", DecodeValueFormat);
    Ok(SetExpressionRequest.SetExpressionRequest(header, expression, value, frameId, format))
  }

  datatype StepInTargetsRequest = StepInTargetsRequest(header: Request, frameId: int64)

  function EncodeStepInTargetsRequest(p: StepInTargetsRequest): (r: Result<Json>)
    ensures r.Fail? <==> p.header.command in CommandTypeUnwritable
    ensures r.Ok? ==> DecodeStepInTargetsRequest(r.value) == Ok(p)
  {
    var header :- EncodeRequest(p.header);
    var entries := map[
      "frameId" := Some(OfInt(p.frameId))
    ];
    RequiredIntRoundTrip(entries, "frameId", p.frameId);
    RequestFrame(header, "arguments", Object(entries));
    Ok(Put(header, "arguments", Object(entries)))
  }

  function DecodeStepInTargetsRequest(j: Json): (r: Result<StepInTargetsRequest>)
    ensures r.Ok? ==> DecodeRequest(j) == Ok(r.value.header) && Find(j, "arguments").Some?
    ensures r.Ok? ==> Find(Find(j, "arguments").value, "frameId").Some?
  {
    var header :- DecodeRequest(j);
    var arguments :- At(j, "arguments");
    var frameId :- RequiredInt(arguments, "frameId");
    Ok(StepInTargetsRequest.StepInTargetsRequest(header, frameId))
  }

  datatype GotoTargetsRequest = GotoTargetsRequest(header: Request, source: Source, line: int64, column: Option<int64>)

  function EncodeGotoTargetsRequest(p: GotoTargetsRequest): (r: Result<Json>)
    ensures r.Fail? <==> p.header.command in CommandTypeUnwritable
    ensures r.Ok? ==> DecodeGotoTargetsRequest(r.value) == Ok(p)
  {
    var header :- EncodeRequest(p.header);
    var entries := map[
      "source" := Some(EncodeSource(p.source)),
      "line" := Some(OfInt(p.line)),
      "column" := OptInt(p.column)
    ];
    RequiredRoundTrip(entries, "source", p.source, EncodeSource, DecodeSource);
    RequiredIntRoundTrip(entries, "line", p.line);
    OptionalIntRoundTrip(entries, "column", p.column);
    RequestFrame(header, "arguments", Object(entries));
    Ok(Put(header, "arguments", Object(entries)))
  }

  function DecodeGotoTargetsRequest(j: Json): (r: Result<GotoTargetsRequest>)
    ensures r.Ok? ==> DecodeRequest(j) == Ok(r.value.header) && Find(j, "arguments").Some?
    ensures r.Ok? ==> Find(Find(j, "arguments").value, "source").Some? && Find(Find(j, "arguments").value, "line").Some?
  {
    var header :- DecodeRequest(j);
    var arguments :- At(j, "arguments");
    var source :- Required(arguments, "source", DecodeSource);
    var line :- RequiredInt(arguments, "line");
    var column :- OptionalInt(arguments, "column");
    Ok(GotoTargetsRequest.GotoTargetsRequest(header, source, line, column))
  }

  datatype CompletionsRequest = CompletionsRequest(header: Request, frameId: Option<int64>, text: string, column: int64, line: Option<int64>)

  /** The members the encoder writes under `arguments`; absent optionals write none. */
  function CompletionsRequestEntries(p: CompletionsRequest): map<string, Option<Json>> {
    map[
      "frameId" := OptInt(p.frameId),
      "text" := Some(OfString(p.text)),
      "column" := Some(OfInt(p.column)),
      "line" := OptInt(p.line)
    ]
  }

  lemma CompletionsRequestMembersRoundTrip0(p: CompletionsRequest)
    ensures OptionalInt(Object(CompletionsRequestEntries(p)), "frameId") == Ok(p.frameId)
    ensures RequiredString(Object(CompletionsRequestEntries(p)), "text") == Ok(p.text)
    ensures RequiredInt(Object(CompletionsRequestEntries(p)), "column") == Ok(p.column)
  {
    var entries := CompletionsRequestEntries(p);
    OptionalIntRoundTrip(entries, "frameId", p.frameId);
    RequiredStringRoundTrip(entries, "text", p.text);
    RequiredIntRoundTrip(entries, "column", p.column);
  }

  lemma CompletionsRequestMembersRoundTrip1(p: CompletionsRequest)
    ensures OptionalInt(Object(CompletionsRequestEntries(p)), "line") == Ok(p.line)
  {
    var entries := CompletionsRequestEntries(p);
    OptionalIntRoundTrip(entries, "line", p.line);
  }

  function EncodeCompletionsRequest(p: CompletionsRequest): (r: Result<Json>)
    ensures r.Fail? <==> p.header.command in CommandTypeUnwritable
    ensures r.Ok? ==> DecodeCompletionsRequest(r.value) == Ok(p)
  {
    var header :- EncodeRequest(p.header);
    CompletionsRequestMembersRoundTrip0(p);
    CompletionsRequestMembersRoundTrip1(p);
    var entries := CompletionsRequestEntries(p);
    RequestFrame(header, "arguments", Object(entries));
    Ok(Put(header, "arguments", Object(entries)))
  }

  function DecodeCompletionsRequest(j: Json): (r: Result<CompletionsRequest>)
    ensures r.Ok? ==> DecodeRequest(j) == Ok(r.value.header) && Find(j, "arguments").Some?
    ensures r.Ok? ==> Find(Find(j, "arguments").value, "text").Some? && Find(Find(j, "arguments").value, "column").Some?
  {
    var header :- DecodeRequest(j);
    var arguments :- At(j, "arguments");
    var frameId :- OptionalInt(arguments, "frameId");
    var text :- RequiredString(arguments, "text");
    var column :- RequiredInt(arguments, "column");
    var line :- OptionalInt(arguments, "line");
    Ok(CompletionsRequest.CompletionsRequest(header, frameId, text, column, line))
  }

  datatype ReadMemoryRequest = ReadMemoryRequest(header: Request, memoryReference: string, offset: Option<int64>, count: int64)

  function EncodeReadMemoryRequest(p: ReadMemoryRequest): (r: Result<Json>)
    ensures r.Fail? <==> p.header.command in CommandTypeUnwritable
    ensures r.Ok? ==> DecodeReadMemoryRequest(r.value) == Ok(p)
  {
    var header :- EncodeRequest(p.header);
    var entries := map[
      "memoryReference" := Some(OfString(p.memoryReference)),
      "offset" := OptInt(p.offset),
      "count" := Some(OfInt(p.count))
    ];
    RequiredStringRoundTrip(entries, "memoryReference", p.memoryReference);
    OptionalIntRoundTrip(entries, "offset", p.offset);
    RequiredIntRoundTrip(entries, "count", p.count);
    RequestFrame(header, "arguments", Object(entries));
    Ok(Put(header, "arguments", Object(entries)))
  }

  function DecodeReadMemoryRequest(j: Json): (r: Result<ReadMemoryRequest>)
    ensures r.Ok? ==> DecodeRequest(j) == Ok(r.value.header) && Find(j, "arguments").Some?
    ensures r.Ok? ==> Find(Find(j, "arguments").value, "memoryReference").Some? && Find(Find(j, "arguments").value, "count").Some?
  {
    var header :- DecodeRequest(j);
    var arguments :- At(j, "arguments");
    var memoryReference :- RequiredString(arguments, "memoryReference");
    var offset :- OptionalInt(arguments, "offset");
    var count :- RequiredInt(arguments, "count");
    Ok(ReadMemoryRequest.ReadMemoryRequest(header, memoryReference, offset, count))
  }

  datatype WriteMemoryRequest = WriteMemoryRequest(header: Request, memoryReference: string, offset: Option<int64>, allowPartial: Option<bool>, data: string)

  /** The members the encoder writes under `arguments`; absent optionals write none. */
  function WriteMemoryRequestEntries(p: WriteMemoryRequest): map<string, Option<Json>> {
    map[
      "memoryReference" := Some(OfString(p.memoryReference)),
      "offset" := OptInt(p.offset),
      "allowPartial" := OptBool(p.allowPartial),
      "data" := Some(OfString(p.data))
    ]
  }

  lemma WriteMemoryRequestMembersRoundTrip0(p: WriteMemoryRequest)
    ensures RequiredString(Object(WriteMemoryRequestEntries(p)), "memoryReference") == Ok(p.memoryReference)
    ensures OptionalInt(Object(WriteMemoryRequestEntries(p)), "offset") == Ok(p.offset)
    ensures OptionalBool(Object(WriteMemoryRequestEntries(p)), "allowPartial") == Ok(p.allowPartial)
  {
    var entries := WriteMemoryRequestEntries(p);
    RequiredStringRoundTrip(entries, "memoryReference", p.memoryReference);
    OptionalIntRoundTrip(entries, "offset", p.offset);
    OptionalBoolRoundTrip(entries, "allowPartial", p.allowPartial);
  }

  lemma WriteMemoryRequestMembersRoundTrip1(p: WriteMemoryRequest)
    ensures RequiredString(Object(WriteMemoryRequestEntries(p)), "data") == Ok(p.data)
  {
    var entries := WriteMemoryRequestEntries(p);
    RequiredStringRoundTrip(entries, "data", p.data);
  }

  function EncodeWriteMemoryRequest(p: WriteMemoryRequest): (r: Result<Json>)
    ensures r.Fail? <==> p.header.command in CommandTypeUnwritable
    ensures r.Ok? ==> DecodeWriteMemoryRequest(r.value) == Ok(p)
  {
    var header :- EncodeRequest(p.header);
    WriteMemoryRequestMembersRoundTrip0(p);
    WriteMemoryRequestMembersRoundTrip1(p);
    var entries := WriteMemoryRequestEntries(p);
    RequestFrame(header, "arguments", Object(entries));
    Ok(Put(header, "arguments", Object(entries)))
  }

  function DecodeWriteMemoryRequest(j: Json): (r: Result<WriteMemoryRequest>)
    ensures r.Ok? ==> DecodeRequest(j) == Ok(r.value.header) && Find(j, "arguments").Some?
    ensures r.Ok? ==> Find(Find(j, "arguments").value, "memoryReference").Some? && Find(Find(j, "arguments").value, "data").Some?
  {
    var header :- DecodeRequest(j);
    var arguments :- At(j, "arguments");
    var memoryReference :- RequiredString(arguments, "memoryReference");
    var offset :- OptionalInt(arguments, "offset");
    var allowPartial :- OptionalBool(arguments, "allowPartial");
    var data :- RequiredString(arguments, "data");
    Ok(WriteMemoryRequest.WriteMemoryRequest(header, memoryReference, offset, allowPartial, data))
  }

  datatype DisassembleRequest = DisassembleRequest(header: Request, memoryReference: string, offset: Option<int64>, instructionOffset: Option<int64>, instructionCount: int64, resolveSymbols: Option<bool>)

  /** The members the encoder writes under `arguments`; absent optionals write none. */
  function DisassembleRequestEntries(p: DisassembleRequest): map<string, Option<Json>> {
    map[
      "memoryReference" := Some(OfString(p.memoryReference)),
      "offset" := OptInt(p.offset),
      "instructionOffset" := OptInt(p.instructionOffset),
      "instructionCount" := Some(OfInt(p.instructionCount)),
      "resolveSymbols" := OptBool(p.resolveSymbols)
    ]
  }

  lemma DisassembleRequestMembersRoundTrip0(p: DisassembleRequest)
    ensures RequiredString(Object(DisassembleRequestEntries(p)), "memoryReference") == Ok(p.memoryReference)
    ensures OptionalInt(Object(DisassembleRequestEntries(p)), "offset") == Ok(p.offset)
    ensures OptionalInt(Object(DisassembleRequestEntries(p)), "instructionOffset") == Ok(p.instructionOffset)
  {
    var entries := DisassembleRequestEntries(p);
    RequiredStringRoundTrip(entries, "memoryReference", p.memoryReference);
    OptionalIntRoundTrip(entries, "offset", p.offset);
    OptionalIntRoundTrip(entries, "instructionOffset", p.instructionOffset);
  }

  lemma DisassembleRequestMembersRoundTrip1(p: DisassembleRequest)
    ensures RequiredInt(Object(DisassembleRequestEntries(p)), "instructionCount") == Ok(p.instructionCount)
    ensures OptionalBool(Object(DisassembleRequestEntries(p)), "resolveSymbols") == Ok(p.resolveSymbols)
  {
    var entries := DisassembleRequestEntries(p);
    RequiredIntRoundTrip(entries, "instructionCount", p.instructionCount);
    OptionalBoolRoundTrip(entries, "resolveSymbols", p.resolveSymbols);
  }

  function EncodeDisassembleRequest(p: DisassembleRequest): (r: Result<Json>)
    ensures r.Fail? <==> p.header.command in CommandTypeUnwritable
    ensures r.Ok? ==> DecodeDisassembleRequest(r.value) == Ok(p)
  {
    var header :- EncodeRequest(p.header);
    DisassembleRequestMembersRoundTrip0(p);
    DisassembleRequestMembersRoundTrip1(p);
    var entries := DisassembleRequestEntries(p);
    RequestFrame(header, "arguments", Object(entries));
    Ok(Put(header, "arguments", Object(entries)))
  }

  function DecodeDisassembleRequest(j: Json): (r: Result<DisassembleRequest>)
    ensures r.Ok? ==> DecodeRequest(j) == Ok(r.value.header) && Find(j, "arguments").Some?
    ensures r.Ok? ==> Find(Find(j, "arguments").value, "memoryReference").Some? && Find(Find(j, "arguments").value, "instructionCount").Some?
  {
    var header :- DecodeRequest(j);
    var arguments :- At(j, "arguments");
    var memoryReference :- RequiredString(arguments, "memoryReference");
    var offset :- OptionalInt(arguments, "offset");
    var instructionOffset :- OptionalInt(arguments, "instructionOffset");
    var instructionCount :- RequiredInt(arguments, "instructionCount");
    var resolveSymbols :- OptionalBool(arguments, "resolveSymbols");
    Ok(DisassembleRequest.DisassembleRequest(header, memoryReference, offset, instructionOffset, instructionCount, resolveSymbols))
  }
}
