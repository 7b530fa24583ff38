/**
 * The responses: each concrete response extends `Response` and writes its
 * own members under `body`.
 */
module Responses {
  import opened Json
  import opened Codec
  import opened Adl
  import opened Enums
  import opened Types
  import opened Envelope

  datatype RunInTerminalResponse = RunInTerminalResponse(header: Response, processId: Option<int64>, shellProcessId: Option<int64>)

  function EncodeRunInTerminalResponse(p: RunInTerminalResponse): (r: Result<Json>)
    ensures r.Fail? <==> p.header.command in CommandTypeUnwritable
    ensures r.Ok? ==> DecodeRunInTerminalResponse(r.value) == Ok(p)
  {
    var header :- EncodeResponse(p.header);
    var entries := map[
      "processId" := OptInt(p.processId),
      "shellProcessId" := OptInt(p.shellProcessId)
    ];
    OptionalIntRoundTrip(entries, "processId", p.processId);
    OptionalIntRoundTrip(entries, "shellProcessId", p.shellProcessId);
    ResponseFrame(header, "body", Object(entries));
    Ok(Put(header, "body", Object(entries)))
  }

  function DecodeRunInTerminalResponse(j: Json): (r: Result<RunInTerminalResponse>)
    ensures r.Ok? ==> DecodeResponse(j) == Ok(r.value.header) && Find(j, "body").Some?
  {
    var header :- DecodeResponse(j);
    var body :- At(j, "body");
    var processId :- OptionalInt(body, "processId");
    var shellProcessId :- OptionalInt(body, "shellProcessId");
    Ok(RunInTerminalResponse.RunInTerminalResponse(header, processId, shellProcessId))
  }

  /** `InitializeResponse`: the capabilities, when present, are the whole `body`. */
  datatype InitializeResponse = InitializeResponse(header: Response, body: Option<Capabilities>)

  function EncodeInitializeResponse(p: InitializeResponse): (r: Result<Json>)
    ensures r.Fail? <==> p.header.command in CommandTypeUnwritable
    ensures r.Ok? ==> (Find(r.value, "body").Some? <==> p.body.Some?)
    ensures r.Ok? ==> DecodeInitializeResponse(r.value) == Ok(p)
  {
    var header :- EncodeResponse(p.header);
    ResponseOptBody(header, p.body, EncodeCapabilities, DecodeCapabilities);
    Ok(ToOptJson(header, "body", p.body, EncodeCapabilities))
  }

  /** A `body` that `to_optJson` adds to a response: the header still reads back, and the body is there exactly when given and reads back. */
  lemma ResponseOptBody<T>(header: Json, body: Option<T>, encode: T -> Json, decode: Json -> Result<T>)
    requires header.Obj? && Find(header, "body").None?
    requires body.Some? ==> decode(encode(body.value)) == Ok(body.value)
    ensures DecodeResponse(ToOptJson(header, "body", body, encode)) == DecodeResponse(header)
    ensures Find(ToOptJson(header, "body", body, encode), "body").Some? <==> body.Some?
    ensures FromOptJson(ToOptJson(header, "body", body, encode), "body", decode) == Ok(body)
  {
    OptJsonRoundTrip(header, "body", body, encode, decode);
    if body.Some? {
      ResponseFrame(header, "body", encode(body.value));
    }
  }

  function DecodeInitializeResponse(j: Json): (r: Result<InitializeResponse>)
    ensures r.Ok? ==> DecodeResponse(j) == Ok(r.value.header)
    ensures DecodeResponse(j).Ok? && Find(j, "body").None? ==> r == Ok(InitializeResponse.InitializeResponse(DecodeResponse(j).value, None))
  {
    var header :- DecodeResponse(j);
    var body :- FromOptJson(j, "body", DecodeCapabilities);
    Ok(InitializeResponse.InitializeResponse(header, body))
  }

  datatype BreakpointLocationsResponse = BreakpointLocationsResponse(header: Response, breakpoints: seq<BreakpointLocation>)

  function EncodeBreakpointLocationsResponse(p: BreakpointLocationsResponse): (r: Result<Json>)
    ensures r.Fail? <==> p.header.command in CommandTypeUnwritable
    ensures r.Ok? ==> DecodeBreakpointLocationsResponse(r.value) == Ok(p)
  {
    var header :- EncodeResponse(p.header);
    var entries := map[
      "breakpoints" := Some(EncodeList(p.breakpoints, EncodeBreakpointLocation))
    ];
    RequiredListRoundTrip(entries, "breakpoints", p.breakpoints, EncodeBreakpointLocation, DecodeBreakpointLocation);
    ResponseFrame(header, "body", Object(entries));
    Ok(Put(header, "body", Object(entries)))
  }

  function DecodeBreakpointLocationsResponse(j: Json): (r: Result<BreakpointLocationsResponse>)
    ensures r.Ok? ==> DecodeResponse(j) == Ok(r.value.header) && Find(j, "body").Some?
    ensures r.Ok? ==> Find(Find(j, "body").value, "breakpoints").Some?
  {
    var header :- DecodeResponse(j);
    var body :- At(j, "body");
    var breakpoints :- RequiredList(body, "breakpoints", DecodeBreakpointLocation);
    Ok(BreakpointLocationsResponse.BreakpointLocationsResponse(header, breakpoints))
  }

  datatype SetBreakpointsResponse = SetBreakpointsResponse(header: Response, breakpoints: Option<seq<SourceBreakpoint>>)

  function EncodeSetBreakpointsResponse(p: SetBreakpointsResponse): (r: Result<Json>)
    ensures r.Fail? <==> p.header.command in CommandTypeUnwritable
    ensures r.Ok? ==> DecodeSetBreakpointsResponse(r.value) == Ok(p)
  {
    var header :- EncodeResponse(p.header);
    var entries := map[
      "breakpoints" := OptList(p.breakpoints, EncodeSourceBreakpoint)
    ];
    OptionalListRoundTrip(entries, "breakpoints", p.breakpoints, EncodeSourceBreakpoint, DecodeSourceBreakpoint);
    ResponseFrame(header, "arguments", Object(entries));
    Ok(Put(header, "arguments", Object(entries)))
  }

  function DecodeSetBreakpointsResponse(j: Json): (r: Result<SetBreakpointsResponse>)
    ensures r.Ok? ==> DecodeResponse(j) == Ok(r.value.header) && Find(j, "arguments").Some?
  {
    var header :- DecodeResponse(j);
    var arguments :- At(j, "arguments");
    var breakpoints :- OptionalList(arguments, "breakpoints", DecodeSourceBreakpoint);
    Ok(SetBreakpointsResponse.SetBreakpointsResponse(header, breakpoints))
  }

  datatype SetFunctionBreakpointsBaseResponse = SetFunctionBreakpointsBaseResponse(header: Response, breakpoints: seq<Breakpoint>)

  function EncodeSetFunctionBreakpointsBaseResponse(p: SetFunctionBreakpointsBaseResponse): (r: Result<Json>)
    ensures r.Fail? <==> p.header.command in CommandTypeUnwritable
    ensures r.Ok? ==> DecodeSetFunctionBreakpointsBaseResponse(r.value) == Ok(p)
  {
    var header :- EncodeResponse(p.header);
    var entries := map[
      "breakpoints" := Some(EncodeList(p.breakpoints, EncodeBreakpoint))
    ];
    RequiredListRoundTrip(entries, "breakpoints", p.breakpoints, EncodeBreakpoint, DecodeBreakpoint);
    ResponseFrame(header, "body", Object(entries));
    Ok(Put(header, "body", Object(entries)))
  }

  function DecodeSetFunctionBreakpointsBaseResponse(j: Json): (r: Result<SetFunctionBreakpointsBaseResponse>)
    ensures r.Ok? ==> DecodeResponse(j) == Ok(r.value.header) && Find(j, "body").Some?
    ensures r.Ok? ==> Find(Find(j, "body").value, "breakpoints").Some?
  {
    var header :- DecodeResponse(j);
    var body :- At(j, "body");
    var breakpoints :- RequiredList(body, "breakpoints", DecodeBreakpoint);
    Ok(SetFunctionBreakpointsBaseResponse.SetFunctionBreakpointsBaseResponse(header, breakpoints))
  }

  /** `SetExceptionBreakpointsResponse`: `body` is written only to carry the breakpoint list. */
  datatype SetExceptionBreakpointsResponse = SetExceptionBreakpointsResponse(header: Response, breakpoints: Option<seq<Breakpoint>>)

  function EncodeSetExceptionBreakpointsResponse(p: SetExceptionBreakpointsResponse): (r: Result<Json>)
    ensures r.Fail? <==> p.header.command in CommandTypeUnwritable
    ensures r.Ok? ==> (Find(r.value, "body").Some? <==> p.breakpoints.Some?)
    ensures r.Ok? ==> DecodeSetExceptionBreakpointsResponse(r.value) == Ok(p)
  {
    var header :- EncodeResponse(p.header);
    if p.breakpoints.Some? then
      var entries := map["breakpoints" := OptList(p.breakpoints, EncodeBreakpoint)];
      OptionalListRoundTrip(entries, "breakpoints", p.breakpoints, EncodeBreakpoint, DecodeBreakpoint);
      PutObject(map[], "breakpoints", EncodeList(p.breakpoints.value, EncodeBreakpoint));
      assert Object(map[]) == Null;
      ResponseFrame(header, "body", Object(entries));
      Ok(Put(header, "body", Put(Null, "breakpoints", EncodeList(p.breakpoints.value, EncodeBreakpoint))))
    else
      Ok(header)
  }

  function DecodeSetExceptionBreakpointsResponse(j: Json): (r: Result<SetExceptionBreakpointsResponse>)
    ensures r.Ok? ==> DecodeResponse(j) == Ok(r.value.header)
    ensures DecodeResponse(j).Ok? && Find(j, "body").None? ==> r == Ok(SetExceptionBreakpointsResponse.SetExceptionBreakpointsResponse(DecodeResponse(j).value, None))
  {
    var header :- DecodeResponse(j);
    match Find(j, "body")
    case None => Ok(SetExceptionBreakpointsResponse.SetExceptionBreakpointsResponse(header, None))
    case Some(body) =>
      var breakpoints :- OptionalList(body, "breakpoints", DecodeBreakpoint);
      Ok(SetExceptionBreakpointsResponse.SetExceptionBreakpointsResponse(header, breakpoints))
  }

  /**
   * `DataBreakpointInfoResponse`: `body` and its `dataId` are always
   * written, an absent id as an explicit null.
   */
  datatype DataBreakpointInfoResponse = DataBreakpointInfoResponse(header: Response, dataId: Option<string>, description: string, accessTypes: Option<seq<DataBreakpointAccessType>>, canPersist: Option<bool>)

  /** The value written under `dataId`: the id, or null. */
  function DataIdJson(dataId: Option<string>): (v: Json)
    ensures v.Null? <==> dataId.None?
    ensures DecodeDataId(v) == Ok(dataId)
  {
    if dataId.Some? then Str(dataId.value) else Null
  }

  /** Null reads as no id; any other value must be a string. */
  function DecodeDataId(v: Json): (r: Result<Option<string>>)
    ensures r.Ok? <==> v.Null? || v.Str?
    ensures v.Null? ==> r == Ok(None)
    ensures v.Str? ==> r == Ok(Some(v.s))
    ensures !v.Null? && !v.Str? ==> r == Fail(TypeError("string"))
  {
    if v.Null? then Ok(None)
    else
      var s :- GetString(v);
      Ok(Some(s))
  }

  function DataBreakpointInfoResponseEntries(p: DataBreakpointInfoResponse): map<string, Option<Json>> {
    map[
      "dataId" := Some(DataIdJson(p.dataId)),
      "description" := Some(OfString(p.description)),
      "accessTypes" := OptList(p.accessTypes, EncodeDataBreakpointAccessType),
      "canPersist" := OptBool(p.canPersist)
    ]
  }

  lemma DataBreakpointInfoResponseMembersRoundTrip(p: DataBreakpointInfoResponse)
    ensures Find(Object(DataBreakpointInfoResponseEntries(p)), "dataId") == Some(DataIdJson(p.dataId))
    ensures RequiredString(Object(DataBreakpointInfoResponseEntries(p)), "description") == Ok(p.description)
    ensures OptionalList(Object(DataBreakpointInfoResponseEntries(p)), "accessTypes", DecodeDataBreakpointAccessType) == Ok(p.accessTypes)
    ensures OptionalBool(Object(DataBreakpointInfoResponseEntries(p)), "canPersist") == Ok(p.canPersist)
  {
    var entries := DataBreakpointInfoResponseEntries(p);
    FindObject(entries, "dataId");
    RequiredStringRoundTrip(entries, "description", p.description);
    OptionalListRoundTrip(entries, "accessTypes", p.accessTypes, EncodeDataBreakpointAccessType, DecodeDataBreakpointAccessType);
    OptionalBoolRoundTrip(entries, "canPersist", p.canPersist);
  }

  function EncodeDataBreakpointInfoResponse(p: DataBreakpointInfoResponse): (r: Result<Json>)
    ensures r.Fail? <==> p.header.command in CommandTypeUnwritable
    ensures r.Ok? ==> Find(r.value, "body").Some? && Find(Find(r.value, "body").value, "dataId") == Some(if p.dataId.Some? then Str(p.dataId.value) else Null)
    ensures r.Ok? ==> DecodeDataBreakpointInfoResponse(r.value) == Ok(p)
  {
    var header :- EncodeResponse(p.header);
    DataBreakpointInfoResponseMembersRoundTrip(p);
    var entries := DataBreakpointInfoResponseEntries(p);
    ResponseFrame(header, "body", Object(entries));
    Ok(Put(header, "body", Object(entries)))
  }

  function DecodeDataBreakpointInfoResponse(j: Json): (r: Result<DataBreakpointInfoResponse>)
    ensures r.Ok? ==> DecodeResponse(j) == Ok(r.value.header) && Find(j, "body").Some?
    ensures r.Ok? ==> Find(Find(j, "body").value, "dataId").Some?
    ensures r.Ok? ==> (r.value.dataId.None? <==> Find(Find(j, "body").value, "dataId") == Some(Null))
    ensures r.Ok? && r.value.dataId.Some? ==> Find(Find(j, "body").value, "dataId") == Some(Str(r.value.dataId.value))
    ensures r.Ok? ==> Find(Find(j, "body").value, "description").Some?
  {
    var header :- DecodeResponse(j);
    var body :- At(j, "body");
    var dataIdJson :- At(body, "dataId");
    var dataId :- DecodeDataId(dataIdJson);
    var description :- RequiredString(body, "description");
    var accessTypes :- OptionalList(body, "accessTypes", DecodeDataBreakpointAccessType);
    var canPersist :- OptionalBool(body, "canPersist");
    Ok(DataBreakpointInfoResponse.DataBreakpointInfoResponse(header, dataId, description, accessTypes, canPersist))
  }

  datatype ContinueResponse = ContinueResponse(header: Response, allThreadsContinued: Option<bool>)

  function EncodeContinueResponse(p: ContinueResponse): (r: Result<Json>)
    ensures r.Fail? <==> p.header.command in CommandTypeUnwritable
    ensures r.Ok? ==> DecodeContinueResponse(r.value) == Ok(p)
  {
    var header :- EncodeResponse(p.header);
    var entries := map[
      "allThreadsContinued" := OptBool(p.allThreadsContinued)
    ];
    OptionalBoolRoundTrip(entries, "allThreadsContinued", p.allThreadsContinued);
    ResponseFrame(header, "body", Object(entries));
    Ok(Put(header, "body", Object(entries)))
  }

  function DecodeContinueResponse(j: Json): (r: Result<ContinueResponse>)
    ensures r.Ok? ==> DecodeResponse(j) == Ok(r.value.header) && Find(j, "body").Some?
  {
    var header :- DecodeResponse(j);
    var body :- At(j, "body");
    var allThreadsContinued :- OptionalBool(body, "allThreadsContinued");
    Ok(ContinueResponse.ContinueResponse(header, allThreadsContinued))
  }

  datatype StackTraceResponse = StackTraceResponse(header: Response, stackFrames: seq<StackFrame>, totalFrames: Option<int64>)

  function EncodeStackTraceResponse(p: StackTraceResponse): (r: Result<Json>)
    ensures r.Fail? <==> p.header.command in CommandTypeUnwritable
    ensures r.Ok? ==> DecodeStackTraceResponse(r.value) == Ok(p)
  {
    var header :- EncodeResponse(p.header);
    var entries := map[
      "stackFrames" := Some(EncodeList(p.stackFrames, EncodeStackFrame)),
      "totalFrames" := OptInt(p.totalFrames)
    ];
    RequiredListRoundTrip(entries, "stackFrames", p.stackFrames, EncodeStackFrame, DecodeStackFrame);
    OptionalIntRoundTrip(entries, "totalFrames", p.totalFrames);
    ResponseFrame(header, "body", Object(entries));
    Ok(Put(header, "body", Object(entries)))
  }

  function DecodeStackTraceResponse(j: Json): (r: Result<StackTraceResponse>)
    ensures r.Ok? ==> DecodeResponse(j) == Ok(r.value.header) && Find(j, "body").Some?
    ensures r.Ok? ==> Find(Find(j, "body").value, "stackFrames").Some?
  {
    var header :- DecodeResponse(j);
    var body :- At(j, "body");
    var stackFrames :- RequiredList(body, "stackFrames", DecodeStackFrame);
    var totalFrames :- OptionalInt(body, "totalFrames");
    Ok(StackTraceResponse.StackTraceResponse(header, stackFrames, totalFrames))
  }

  datatype ScopesResponse = ScopesResponse(header: Response, scopes: seq<Scope>)

  function EncodeScopesResponse(p: ScopesResponse): (r: Result<Json>)
    ensures r.Fail? <==> p.header.command in CommandTypeUnwritable
    ensures r.Ok? ==> DecodeScopesResponse(r.value) == Ok(p)
  {
    var header :- EncodeResponse(p.header);
    var entries := map[
      "scopes" := Some(EncodeList(p.scopes, EncodeScope))
    ];
    RequiredListRoundTrip(entries, "scopes", p.scopes, EncodeScope, DecodeScope);
    ResponseFrame(header, "body", Object(entries));
    Ok(Put(header, "body", Object(entries)))
  }

  function DecodeScopesResponse(j: Json): (r: Result<ScopesResponse>)
    ensures r.Ok? ==> DecodeResponse(j) == Ok(r.value.header) && Find(j, "body").Some?
    ensures r.Ok? ==> Find(Find(j, "body").value, "scopes").Some?
  {
    var header :- DecodeResponse(j);
    var body :- At(j, "body");
    var scopes :- RequiredList(body, "scopes", DecodeScope);
    Ok(ScopesResponse.ScopesResponse(header, scopes))
  }

  datatype VariablesResponse = VariablesResponse(header: Response, variables: seq<Variable>)

  function EncodeVariablesResponse(p: VariablesResponse): (r: Result<Json>)
    ensures r.Fail? <==> p.header.command in CommandTypeUnwritable
    ensures r.Ok? ==> DecodeVariablesResponse(r.value) == Ok(p)
  {
    var header :- EncodeResponse(p.header);
    var entries := map[
      "variables" := Some(EncodeList(p.variables, EncodeVariable))
    ];
    RequiredListRoundTrip(entries, "variables", p.variables, EncodeVariable, DecodeVariable);
    ResponseFrame(header, "body", Object(entries));
    Ok(Put(header, "body", Object(entries)))
  }

  function DecodeVariablesResponse(j: Json): (r: Result<VariablesResponse>)
    ensures r.Ok? ==> DecodeResponse(j) == Ok(r.value.header) && Find(j, "body").Some?
    ensures r.Ok? ==> Find(Find(j, "body").value, "variables").Some?
  {
    var header :- DecodeResponse(j);
    var body :- At(j, "body");
    var variables :- RequiredList(body, "variables", DecodeVariable);
    Ok(VariablesResponse.VariablesResponse(header, variables))
  }

  datatype SetVariableResponse = SetVariableResponse(header: Response, value: string, type_: Option<string>, variablesReference: Option<int64>, namedVariables: Option<int64>, indexedVariables: Option<int64>)

  /** The members the encoder writes under `body`; absent optionals write none. */
  function SetVariableResponseEntries(p: SetVariableResponse): map<string, Option<Json>> {
    map[
      "value" := Some(OfString(p.value)),
      "type" := OptString(p.type_),
      "variablesReference" := OptInt(p.variablesReference),
      "namedVariables" := OptInt(p.namedVariables),
      "indexedVariables" := OptInt(p.indexedVariables)
    ]
  }

  lemma SetVariableResponseMembersRoundTrip0(p: SetVariableResponse)
    ensures RequiredString(Object(SetVariableResponseEntries(p)), "value") == Ok(p.value)
    ensures OptionalString(Object(SetVariableResponseEntries(p)), "type") == Ok(p.type_)
    ensures OptionalInt(Object(SetVariableResponseEntries(p)), "variablesReference") == Ok(p.variablesReference)
  {
    var entries := SetVariableResponseEntries(p);
    RequiredStringRoundTrip(entries, "value", p.value);
    OptionalStringRoundTrip(entries, "type", p.type_);
    OptionalIntRoundTrip(entries, "variablesReference", p.variablesReference);
  }

  lemma SetVariableResponseMembersRoundTrip1(p: SetVariableResponse)
    ensures OptionalInt(Object(SetVariableResponseEntries(p)), "namedVariables") == Ok(p.namedVariables)
    ensures OptionalInt(Object(SetVariableResponseEntries(p)), "indexedVariables") == Ok(p.indexedVariables)
  {
    var entries := SetVariableResponseEntries(p);
    OptionalIntRoundTrip(entries, "namedVariables", p.namedVariables);
    OptionalIntRoundTrip(entries, "indexedVariables", p.indexedVariables);
  }

  function EncodeSetVariableResponse(p: SetVariableResponse): (r: Result<Json>)
    ensures r.Fail? <==> p.header.command in CommandTypeUnwritable
    ensures r.Ok? ==> DecodeSetVariableResponse(r.value) == Ok(p)
  {
    var header :- EncodeResponse(p.header);
    SetVariableResponseMembersRoundTrip0(p);
    SetVariableResponseMembersRoundTrip1(p);
    var entries := SetVariableResponseEntries(p);
    ResponseFrame(header, "body", Object(entries));
    Ok(Put(header, "body", Object(entries)))
  }

  function DecodeSetVariableResponse(j: Json): (r: Result<SetVariableResponse>)
    ensures r.Ok? ==> DecodeResponse(j) == Ok(r.value.header) && Find(j, "body").Some?
    ensures r.Ok? ==> Find(Find(j, "body").value, "value").Some?
  {
    var header :- DecodeResponse(j);
    var body :- At(j, "body");
    var value :- RequiredString(body, "value");
    var type_ :- OptionalString(body, "type");
    var variablesReference :- OptionalInt(body, "variablesReference");
    var namedVariables :- OptionalInt(body, "namedVariables");
    var indexedVariables :- OptionalInt(body, "indexedVariables");
    Ok(SetVariableResponse.SetVariableResponse(header, value, type_, variablesReference, namedVariables, indexedVariables))
  }

  datatype SourceResponse = SourceResponse(header: Response, content: string, mimeType: Option<string>)

  function EncodeSourceResponse(p: SourceResponse): (r: Result<Json>)
    ensures r.Fail? <==> p.header.command in CommandTypeUnwritable
    ensures r.Ok? ==> DecodeSourceResponse(r.value) == Ok(p)
  {
    var header :- EncodeResponse(p.header);
    var entries := map[
      "content" := Some(OfString(p.content)),
      "mimeType" := OptString(p.mimeType)
    ];
    RequiredStringRoundTrip(entries, "content", p.content);
    OptionalStringRoundTrip(entries, "mimeType", p.mimeType);
    ResponseFrame(header, "body", Object(entries));
    Ok(Put(header, "body", Object(entries)))
  }

  function DecodeSourceResponse(j: Json): (r: Result<SourceResponse>)
    ensures r.Ok? ==> DecodeResponse(j) == Ok(r.value.header) && Find(j, "body").Some?
    ensures r.Ok? ==> Find(Find(j, "body").value, "content").Some?
  {
    var header :- DecodeResponse(j);
    var body :- At(j, "body");
    var content :- RequiredString(body, "content");
    var mimeType :- OptionalString(body, "mimeType");
    Ok(SourceResponse.SourceResponse(header, content, mimeType))
  }

  datatype ThreadsResponse = ThreadsResponse(header: Response, threads: seq<Thread>)

  function EncodeThreadsResponse(p: ThreadsResponse): (r: Result<Json>)
    ensures r.Fail? <==> p.header.command in CommandTypeUnwritable
    ensures r.Ok? ==> DecodeThreadsResponse(r.value) == Ok(p)
  {
    var header :- EncodeResponse(p.header);
    var entries := map[
      "threads" := Some(EncodeList(p.threads, EncodeThread))
    ];
    RequiredListRoundTrip(entries, "threads", p.threads, EncodeThread, DecodeThread);
    ResponseFrame(header, "body", Object(entries));
    Ok(Put(header, "body", Object(entries)))
  }

  function DecodeThreadsResponse(j: Json): (r: Result<ThreadsResponse>)
    ensures r.Ok? ==> DecodeResponse(j) == Ok(r.value.header) && Find(j, "body").Some?
    ensures r.Ok? ==> Find(Find(j, "body").value, "threads").Some?
  {
    var header :- DecodeResponse(j);
    var body :- At(j, "body");
    var threads :- RequiredList(body, "threads", DecodeThread);
    Ok(ThreadsResponse.ThreadsResponse(header, threads))
  }

  datatype ModulesResponse = ModulesResponse(header: Response, modules: seq<Module>, totalModules: Option<int64>)

  function EncodeModulesResponse(p: ModulesResponse): (r: Result<Json>)
    ensures r.Fail? <==> p.header.command in CommandTypeUnwritable
    ensures r.Ok? ==> DecodeModulesResponse(r.value) == Ok(p)
  {
    var header :- EncodeResponse(p.header);
    var entries := map[
      "modules" := Some(EncodeList(p.modules, EncodeModule)),
      "totalModules" := OptInt(p.totalModules)
    ];
    RequiredListRoundTrip(entries, "modules", p.modules, EncodeModule, DecodeModule);
    OptionalIntRoundTrip(entries, "totalModules", p.totalModules);
    ResponseFrame(header, "body", Object(entries));
    Ok(Put(header, "body", Object(entries)))
  }

  function DecodeModulesResponse(j: Json): (r: Result<ModulesResponse>)
    ensures r.Ok? ==> DecodeResponse(j) == Ok(r.value.header) && Find(j, "body").Some?
    ensures r.Ok? ==> Find(Find(j, "body").value, "modules").Some?
  {
    var header :- DecodeResponse(j);
    var body :- At(j, "body");
    var modules :- RequiredList(body, "modules", DecodeModule);
    var totalModules :- OptionalInt(body, "totalModules");
    Ok(ModulesResponse.ModulesResponse(header, modules, totalModules))
  }

  datatype LoadedSourcesResponse = LoadedSourcesResponse(header: Response, sources: seq<Source>)

  function EncodeLoadedSourcesResponse(p: LoadedSourcesResponse): (r: Result<Json>)
    ensures r.Fail? <==> p.header.command in CommandTypeUnwritable
    ensures r.Ok? ==> DecodeLoadedSourcesResponse(r.value) == Ok(p)
  {
    var header :- EncodeResponse(p.header);
    var entries := map[
      "sources" := Some(EncodeList(p.sources, EncodeSource))
    ];
    RequiredListRoundTrip(entries, "sources", p.sources, EncodeSource, DecodeSource);
    ResponseFrame(header, "body", Object(entries));
    Ok(Put(header, "body", Object(entries)))
  }

  function DecodeLoadedSourcesResponse(j: Json): (r: Result<LoadedSourcesResponse>)
    ensures r.Ok? ==> DecodeResponse(j) == Ok(r.value.header) && Find(j, "body").Some?
    ensures r.Ok? ==> Find(Find(j, "body").value, "sources").Some?
  {
    var header :- DecodeResponse(j);
    var body :- At(j, "body");
    var sources :- RequiredList(body, "sources", DecodeSource);
    Ok(LoadedSourcesResponse.LoadedSourcesResponse(header, sources))
  }

  datatype EvaluateResponse = EvaluateResponse(header: Response, result: string, type_: Option<string>, presentationHint: Option<VariablePresentationHint>, variablesReference: int64, namedVariables: Option<int64>, indexedVariables: Option<int64>, memoryReference: Option<string>)

  /** The members the encoder writes under `body`; absent optionals write none. */
  function EvaluateResponseEntries(p: EvaluateResponse): map<string, Option<Json>> {
    map[
      "result" := Some(OfString(p.result)),
      "type" := OptString(p.type_),
      "presentationHint" := Opt(p.presentationHint, EncodeVariablePresentationHint),
      "variablesReference" := Some(OfInt(p.variablesReference)),
      "namedVariables" := OptInt(p.namedVariables),
      "indexedVariables" := OptInt(p.indexedVariables),
      "memoryReference" := OptString(p.memoryReference)
    ]
  }

  lemma EvaluateResponseMembersRoundTrip0(p: EvaluateResponse)
    ensures RequiredString(Object(EvaluateResponseEntries(p)), "result") == Ok(p.result)
    ensures OptionalString(Object(EvaluateResponseEntries(p)), "type") == Ok(p.type_)
    ensures FromOptJson(Object(EvaluateResponseEntries(p)), "presentationHint", DecodeVariablePresentationHint) == Ok(p.presentationHint)
  {
    var entries := EvaluateResponseEntries(p);
    RequiredStringRoundTrip(entries, "result", p.result);
    OptionalStringRoundTrip(entries, "type", p.type_);
    OptionalRoundTrip(entries, "presentationHint", p.presentationHint, EncodeVariablePresentationHint, DecodeVariablePresentationHint);
  }

  lemma EvaluateResponseMembersRoundTrip1(p: EvaluateResponse)
    ensures RequiredInt(Object(EvaluateResponseEntries(p)), "variablesReference") == Ok(p.variablesReference)
    ensures OptionalInt(Object(EvaluateResponseEntries(p)), "namedVariables") == Ok(p.namedVariables)
    ensures OptionalInt(Object(EvaluateResponseEntries(p)), "indexedVariables") == Ok(p.indexedVariables)
  {
    var entries := EvaluateResponseEntries(p);
    RequiredIntRoundTrip(entries, "variablesReference", p.variablesReference);
    OptionalIntRoundTrip(entries, "namedVariables", p.namedVariables);
    OptionalIntRoundTrip(entries, "indexedVariables", p.indexedVariables);
  }

  lemma EvaluateResponseMembersRoundTrip2(p: EvaluateResponse)
    ensures OptionalString(Object(EvaluateResponseEntries(p)), "memoryReference") == Ok(p.memoryReference)
  {
    var entries := EvaluateResponseEntries(p);
    OptionalStringRoundTrip(entries, "memoryReference", p.memoryReference);
  }

  function EncodeEvaluateResponse(p: EvaluateResponse): (r: Result<Json>)
    ensures r.Fail? <==> p.header.command in CommandTypeUnwritable
    ensures r.Ok? ==> DecodeEvaluateResponse(r.value) == Ok(p)
  {
    var header :- EncodeResponse(p.header);
    EvaluateResponseMembersRoundTrip0(p);
    EvaluateResponseMembersRoundTrip1(p);
    EvaluateResponseMembersRoundTrip2(p);
    var entries := EvaluateResponseEntries(p);
    ResponseFrame(header, "body", Object(entries));
    Ok(Put(header, "body", Object(entries)))
  }

  function DecodeEvaluateResponse(j: Json): (r: Result<EvaluateResponse>)
    ensures r.Ok? ==> DecodeResponse(j) == Ok(r.value.header) && Find(j, "body").Some?
    ensures r.Ok? ==> Find(Find(j, "body").value, "result").Some? && Find(Find(j, "body").value, "variablesReference").Some?
  {
    var header :- DecodeResponse(j);
    var body :- At(j, "body");
    var result :- RequiredString(body, "result");
    var type_ :- OptionalString(body, "type");
    var presentationHint :- FromOptJson(body, "presentationHint", DecodeVariablePresentationHint);
    var variablesReference :- RequiredInt(body, "variablesReference");
    var namedVariables :- OptionalInt(body, "namedVariables");
    var indexedVariables :- OptionalInt(body, "indexedVariables");
    var memoryReference :- OptionalString(body, "memoryReference");
    Ok(EvaluateResponse.EvaluateResponse(header, result, type_, presentationHint, variablesReference, namedVariables, indexedVariables, memoryReference))
  }

  datatype SetExpressionResponse = SetExpressionResponse(header: Response, value: string, type_: Option<string>, presentationHint: Option<VariablePresentationHint>, variablesReference: Option<int64>, namedVariables: Option<int64>, indexedVariables: Option<int64>)

  /** The members the encoder writes under `body`; absent optionals write none. */
  function SetExpressionResponseEntries(p: SetExpressionResponse): map<string, Option<Json>> {
    map[
      "value" := Some(OfString(p.value)),
      "type" := OptString(p.type_),
      "presentationHint" := Opt(p.presentationHint, EncodeVariablePresentationHint),
      "variablesReference" := OptInt(p.variablesReference),
      "namedVariables" := OptInt(p.namedVariables),
      "indexedVariables" := OptInt(p.indexedVariables)
    ]
  }

  lemma SetExpressionResponseMembersRoundTrip0(p: SetExpressionResponse)
    ensures RequiredString(Object(SetExpressionResponseEntries(p)), "value") == Ok(p.value)
    ensures OptionalString(Object(SetExpressionResponseEntries(p)), "type") == Ok(p.type_)
    ensures FromOptJson(Object(SetExpressionResponseEntries(p)), "presentationHint", DecodeVariablePresentationHint) == Ok(p.presentationHint)
  {
    var entries := SetExpressionResponseEntries(p);
    RequiredStringRoundTrip(entries, "value", p.value);
    OptionalStringRoundTrip(entries, "type", p.type_);
    OptionalRoundTrip(entries, "presentationHint", p.presentationHint, EncodeVariablePresentationHint, DecodeVariablePresentationHint);
  }

  lemma SetExpressionResponseMembersRoundTrip1(p: SetExpressionResponse)
    ensures OptionalInt(Object(SetExpressionResponseEntries(p)), "variablesReference") == Ok(p.variablesReference)
    ensures OptionalInt(Object(SetExpressionResponseEntries(p)), "namedVariables") == Ok(p.namedVariables)
    ensures OptionalInt(Object(SetExpressionResponseEntries(p)), "indexedVariables") == Ok(p.indexedVariables)
  {
    var entries := SetExpressionResponseEntries(p);
    OptionalIntRoundTrip(entries, "variablesReference", p.variablesReference);
    OptionalIntRoundTrip(entries, "namedVariables", p.namedVariables);
    OptionalIntRoundTrip(entries, "indexedVariables", p.indexedVariables);
  }

  function EncodeSetExpressionResponse(p: SetExpressionResponse): (r: Result<Json>)
    ensures r.Fail? <==> p.header.command in CommandTypeUnwritable
    ensures r.Ok? ==> DecodeSetExpressionResponse(r.value) == Ok(p)
  {
    var header :- EncodeResponse(p.header);
    SetExpressionResponseMembersRoundTrip0(p);
    SetExpressionResponseMembersRoundTrip1(p);
    var entries := SetExpressionResponseEntries(p);
    ResponseFrame(header, "body", Object(entries));
    Ok(Put(header, "body", Object(entries)))
  }

  function DecodeSetExpressionResponse(j: Json): (r: Result<SetExpressionResponse>)
    ensures r.Ok? ==> DecodeResponse(j) == Ok(r.value.header) && Find(j, "body").Some?
    ensures r.Ok? ==> Find(Find(j, "body").value, "value").Some?
  {
    var header :- DecodeResponse(j);
    var body :- At(j, "body");
    var value :- RequiredString(body, "value");
    var type_ :- OptionalString(body, "type");
    var presentationHint :- FromOptJson(body, "presentationHint", DecodeVariablePresentationHint);
    var variablesReference :- OptionalInt(body, "variablesReference");
    var namedVariables :- OptionalInt(body, "namedVariables");
    var indexedVariables :- OptionalInt(body, "indexedVariables");
    Ok(SetExpressionResponse.SetExpressionResponse(header, value, type_, presentationHint, variablesReference, namedVariables, indexedVariables))
  }

  datatype StepInTargetsResponse = StepInTargetsResponse(header: Response, targets: seq<StepInTarget>)

  function EncodeStepInTargetsResponse(p: StepInTargetsResponse): (r: Result<Json>)
    ensures r.Fail? <==> p.header.command in CommandTypeUnwritable
    ensures r.Ok? ==> DecodeStepInTargetsResponse(r.value) == Ok(p)
  {
    var header :- EncodeResponse(p.header);
    var entries := map[
      "targets" := Some(EncodeList(p.targets, EncodeStepInTarget))
    ];
    RequiredListRoundTrip(entries, "targets", p.targets, EncodeStepInTarget, DecodeStepInTarget);
    ResponseFrame(header, "body", Object(entries));
    Ok(Put(header, "body", Object(entries)))
  }

  function DecodeStepInTargetsResponse(j: Json): (r: Result<StepInTargetsResponse>)
    ensures r.Ok? ==> DecodeResponse(j) == Ok(r.value.header) && Find(j, "body").Some?
    ensures r.Ok? ==> Find(Find(j, "body").value, "targets").Some?
  {
    var header :- DecodeResponse(j);
    var body :- At(j, "body");
    var targets :- RequiredList(body, "targets", DecodeStepInTarget);
    Ok(StepInTargetsResponse.StepInTargetsResponse(header, targets))
  }

  datatype GotoTargetsResponse = GotoTargetsResponse(header: Response, targets: seq<GotoTarget>)

  function EncodeGotoTargetsResponse(p: GotoTargetsResponse): (r: Result<Json>)
    ensures r.Fail? <==> p.header.command in CommandTypeUnwritable
    ensures r.Ok? ==> DecodeGotoTargetsResponse(r.value) == Ok(p)
  {
    var header :- EncodeResponse(p.header);
    var entries := map[
      "targets" := Some(EncodeList(p.targets, EncodeGotoTarget))
    ];
    RequiredListRoundTrip(entries, "targets", p.targets, EncodeGotoTarget, DecodeGotoTarget);
    ResponseFrame(header, "body", Object(entries));
    Ok(Put(header, "body", Object(entries)))
  }

  function DecodeGotoTargetsResponse(j: Json): (r: Result<GotoTargetsResponse>)
    ensures r.Ok? ==> DecodeResponse(j) == Ok(r.value.header) && Find(j, "body").Some?
    ensures r.Ok? ==> Find(Find(j, "body").value, "targets").Some?
  {
    var header :- DecodeResponse(j);
    var body :- At(j, "body");
    var targets :- RequiredList(body, "targets", DecodeGotoTarget);
    Ok(GotoTargetsResponse.GotoTargetsResponse(header, targets))
  }

  datatype CompletionsResponse = CompletionsResponse(header: Response, targets: seq<CompletionItem>)

  function EncodeCompletionsResponse(p: CompletionsResponse): (r: Result<Json>)
    ensures r.Fail? <==> p.header.command in CommandTypeUnwritable
    ensures r.Ok? ==> DecodeCompletionsResponse(r.value) == Ok(p)
  {
    var header :- EncodeResponse(p.header);
    var entries := map[
      "targets" := Some(EncodeList(p.targets, EncodeCompletionItem))
    ];
    RequiredListRoundTrip(entries, "targets", p.targets, EncodeCompletionItem, DecodeCompletionItem);
    ResponseFrame(header, "body", Object(entries));
    Ok(Put(header, "body", Object(entries)))
  }

  function DecodeCompletionsResponse(j: Json): (r: Result<CompletionsResponse>)
    ensures r.Ok? ==> DecodeResponse(j) == Ok(r.value.header) && Find(j, "body").Some?
    ensures r.Ok? ==> Find(Find(j, "body").value, "targets").Some?
  {
    var header :- DecodeResponse(j);
    var body :- At(j, "body");
    var targets :- RequiredList(body, "targets", DecodeCompletionItem);
    Ok(CompletionsResponse.CompletionsResponse(header, targets))
  }

  datatype ExceptionInfoResponse = ExceptionInfoResponse(header: Response, exceptionId: string, description: Option<string>, breakMode: ExceptionBreakMode, details: Option<ExceptionDetails>)

  /** The members the encoder writes under `body`; absent optionals write none. */
  function ExceptionInfoResponseEntries(p: ExceptionInfoResponse): map<string, Option<Json>> {
    map[
      "exceptionId" := Some(OfString(p.exceptionId)),
      "description" := OptString(p.description),
      "breakMode" := Some(EncodeExceptionBreakMode(p.breakMode)),
      "details" := Opt(p.details, EncodeExceptionDetails)
    ]
  }

  lemma ExceptionInfoResponseMembersRoundTrip0(p: ExceptionInfoResponse)
    ensures RequiredString(Object(ExceptionInfoResponseEntries(p)), "exceptionId") == Ok(p.exceptionId)
    ensures OptionalString(Object(ExceptionInfoResponseEntries(p)), "description") == Ok(p.description)
    ensures Required(Object(ExceptionInfoResponseEntries(p)), "breakMode", DecodeExceptionBreakMode) == Ok(p.breakMode)
  {
    var entries := ExceptionInfoResponseEntries(p);
    RequiredStringRoundTrip(entries, "exceptionId", p.exceptionId);
    OptionalStringRoundTrip(entries, "description", p.description);
    RequiredRoundTrip(entries, "breakMode", p.breakMode, EncodeExceptionBreakMode, DecodeExceptionBreakMode);
  }

  lemma ExceptionInfoResponseMembersRoundTrip1(p: ExceptionInfoResponse)
    ensures FromOptJson(Object(ExceptionInfoResponseEntries(p)), "details", DecodeExceptionDetails) == Ok(p.details)
  {
    var entries := ExceptionInfoResponseEntries(p);
    OptionalRoundTrip(entries, "details", p.details, EncodeExceptionDetails, DecodeExceptionDetails);
  }

  function EncodeExceptionInfoResponse(p: ExceptionInfoResponse): (r: Result<Json>)
    ensures r.Fail? <==> p.header.command in CommandTypeUnwritable
    ensures r.Ok? ==> DecodeExceptionInfoResponse(r.value) == Ok(p)
  {
    var header :- EncodeResponse(p.header);
    ExceptionInfoResponseMembersRoundTrip0(p);
    ExceptionInfoResponseMembersRoundTrip1(p);
    var entries := ExceptionInfoResponseEntries(p);
    ResponseFrame(header, "body", Object(entries));
    Ok(Put(header, "body", Object(entries)))
  }

  function DecodeExceptionInfoResponse(j: Json): (r: Result<ExceptionInfoResponse>)
    ensures r.Ok? ==> DecodeResponse(j) == Ok(r.value.header) && Find(j, "body").Some?
    ensures r.Ok? ==> Find(Find(j, "body").value, "exceptionId").Some? && Find(Find(j, "body").value, "breakMode").Some?
  {
    var header :- DecodeResponse(j);
    var body :- At(j, "body");
    var exceptionId :- RequiredString(body, "exceptionId");
    var description :- OptionalString(body, "description");
    var breakMode :- Required(body, "breakMode", DecodeExceptionBreakMode);
    var details :- FromOptJson(body, "details", DecodeExceptionDetails);
    Ok(ExceptionInfoResponse.ExceptionInfoResponse(header, exceptionId, description, breakMode, details))
  }

  datatype ReadMemoryResponse = ReadMemoryResponse(header: Response, address: string, unreadableBytes: Option<int64>, data: Option<string>)

  function EncodeReadMemoryResponse(p: ReadMemoryResponse): (r: Result<Json>)
    ensures r.Fail? <==> p.header.command in CommandTypeUnwritable
    ensures r.Ok? ==> DecodeReadMemoryResponse(r.value) == Ok(p)
  {
    var header :- EncodeResponse(p.header);
    var entries := map[
      "address" := Some(OfString(p.address)),
      "unreadableBytes" := OptInt(p.unreadableBytes),
      "data" := OptString(p.data)
    ];
    RequiredStringRoundTrip(entries, "address", p.address);
    OptionalIntRoundTrip(entries, "unreadableBytes", p.unreadableBytes);
    OptionalStringRoundTrip(entries, "data", p.data);
    ResponseFrame(header, "body", Object(entries));
    Ok(Put(header, "body", Object(entries)))
  }

  function DecodeReadMemoryResponse(j: Json): (r: Result<ReadMemoryResponse>)
    ensures r.Ok? ==> DecodeResponse(j) == Ok(r.value.header) && Find(j, "body").Some?
    ensures r.Ok? ==> Find(Find(j, "body").value, "address").Some?
  {
    var header :- DecodeResponse(j);
    var body :- At(j, "body");
    var address :- RequiredString(body, "address");
    var unreadableBytes :- OptionalInt(body, "unreadableBytes");
    var data :- OptionalString(body, "data");
    Ok(ReadMemoryResponse.ReadMemoryResponse(header, address, unreadableBytes, data))
  }

  datatype WriteMemoryResponse = WriteMemoryResponse(header: Response, offset: Option<int64>, bytesWritten: Option<int64>)

  function EncodeWriteMemoryResponse(p: WriteMemoryResponse): (r: Result<Json>)
    ensures r.Fail? <==> p.header.command in CommandTypeUnwritable
    ensures r.Ok? ==> DecodeWriteMemoryResponse(r.value) == Ok(p)
  {
    var header :- EncodeResponse(p.header);
    var entries := map[
      "offset" := OptInt(p.offset),
      "bytesWritten" := OptInt(p.bytesWritten)
    ];
    OptionalIntRoundTrip(entries, "offset", p.offset);
    OptionalIntRoundTrip(entries, "bytesWritten", p.bytesWritten);
    ResponseFrame(header, "body", Object(entries));
    Ok(Put(header, "body", Object(entries)))
  }

  function DecodeWriteMemoryResponse(j: Json): (r: Result<WriteMemoryResponse>)
    ensures r.Ok? ==> DecodeResponse(j) == Ok(r.value.header) && Find(j, "body").Some?
  {
    var header :- DecodeResponse(j);
    var body :- At(j, "body");
    var offset :- OptionalInt(body, "offset");
    var bytesWritten :- OptionalInt(body, "bytesWritten");
    Ok(WriteMemoryResponse.WriteMemoryResponse(header, offset, bytesWritten))
  }

  datatype DisassembleResponse = DisassembleResponse(header: Response, instructions: seq<DisassembledInstruction>)

  function EncodeDisassembleResponse(p: DisassembleResponse): (r: Result<Json>)
    ensures r.Fail? <==> p.header.command in CommandTypeUnwritable
    ensures r.Ok? ==> DecodeDisassembleResponse(r.value) == Ok(p)
  {
    var header :- EncodeResponse(p.header);
    var entries := map[
      "instructions" := Some(EncodeList(p.instructions, EncodeDisassembledInstruction))
    ];
    RequiredListRoundTrip(entries, "instructions", p.instructions, EncodeDisassembledInstruction, DecodeDisassembledInstruction);
    ResponseFrame(header, "body", Object(entries));
    Ok(Put(header, "body", Object(entries)))
  }

  function DecodeDisassembleResponse(j: Json): (r: Result<DisassembleResponse>)
    ensures r.Ok? ==> DecodeResponse(j) == Ok(r.value.header) && Find(j, "body").Some?
    ensures r.Ok? ==> Find(Find(j, "body").value, "instructions").Some?
  {
    var header :- DecodeResponse(j);
    var body :- At(j, "body");
    var instructions :- RequiredList(body, "instructions", DecodeDisassembledInstruction);
    Ok(DisassembleResponse.DisassembleResponse(header, instructions))
  }
}
