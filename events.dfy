/**
 * The events: each concrete event extends `Event` and writes its own members
 * under `body`.
 */
module Events {
  import opened Json
  import opened Codec
  import opened Adl
  import opened Enums
  import opened Types
  import opened Envelope

  datatype StoppedEvent = StoppedEvent(header: Event, reason: string, description: Option<string>, threadId: Option<int64>, preserveFocusHint: Option<bool>, text: Option<string>, allThreadsStopped: Option<bool>, hitBreakpointIds: Option<seq<int64>>)

  /** The members the encoder writes under `body`; absent optionals write none. */
  function StoppedEventEntries(p: StoppedEvent): map<string, Option<Json>> {
    map[
      "reason" := Some(OfString(p.reason)),
      "description" := OptString(p.description),
      "threadId" := OptInt(p.threadId),
      "preserveFocusHint" := OptBool(p.preserveFocusHint),
      "text" := OptString(p.text),
      "allThreadsStopped" := OptBool(p.allThreadsStopped),
      "hitBreakpointIds" := OptList(p.hitBreakpointIds, OfInt)
    ]
  }

  lemma StoppedEventMembersRoundTrip0(p: StoppedEvent)
    ensures RequiredString(Object(StoppedEventEntries(p)), "reason") == Ok(p.reason)
    ensures OptionalString(Object(StoppedEventEntries(p)), "description") == Ok(p.description)
    ensures OptionalInt(Object(StoppedEventEntries(p)), "threadId") == Ok(p.threadId)
  {
    var entries := StoppedEventEntries(p);
    RequiredStringRoundTrip(entries, "reason", p.reason);
    OptionalStringRoundTrip(entries, "description", p.description);
    OptionalIntRoundTrip(entries, "threadId", p.threadId);
  }

  lemma StoppedEventMembersRoundTrip1(p: StoppedEvent)
    ensures OptionalBool(Object(StoppedEventEntries(p)), "preserveFocusHint") == Ok(p.preserveFocusHint)
    ensures OptionalString(Object(StoppedEventEntries(p)), "text") == Ok(p.text)
    ensures OptionalBool(Object(StoppedEventEntries(p)), "allThreadsStopped") == Ok(p.allThreadsStopped)
  {
    var entries := StoppedEventEntries(p);
    OptionalBoolRoundTrip(entries, "preserveFocusHint", p.preserveFocusHint);
    OptionalStringRoundTrip(entries, "text", p.text);
    OptionalBoolRoundTrip(entries, "allThreadsStopped", p.allThreadsStopped);
  }

  lemma StoppedEventMembersRoundTrip2(p: StoppedEvent)
    ensures OptionalList(Object(StoppedEventEntries(p)), "hitBreakpointIds", GetInt) == Ok(p.hitBreakpointIds)
  {
    var entries := StoppedEventEntries(p);
    OptionalListRoundTrip(entries, "hitBreakpointIds", p.hitBreakpointIds, OfInt, GetInt);
  }

  function EncodeStoppedEvent(p: StoppedEvent): (r: Result<Json>)
    ensures r.Fail? <==> p.header.event in EventTypeUnwritable
    ensures r.Ok? ==> DecodeStoppedEvent(r.value) == Ok(p)
  {
    var header :- EncodeEvent(p.header);
    StoppedEventMembersRoundTrip0(p);
    StoppedEventMembersRoundTrip1(p);
    StoppedEventMembersRoundTrip2(p);
    var entries := StoppedEventEntries(p);
    EventFrame(header, "body", Object(entries));
    Ok(Put(header, "body", Object(entries)))
  }

  function DecodeStoppedEvent(j: Json): (r: Result<StoppedEvent>)
    ensures r.Ok? ==> DecodeEvent(j) == Ok(r.value.header) && Find(j, "body").Some?
    ensures r.Ok? ==> Find(Find(j, "body").value, "reason").Some?
  {
    var header :- DecodeEvent(j);
    var body :- At(j, "body");
    var reason :- RequiredString(body, "reason");
    var description :- OptionalString(body, "description");
    var threadId :- OptionalInt(body, "threadId");
    var preserveFocusHint :- OptionalBool(body, "preserveFocusHint");
    var text :- OptionalString(body, "text");
    var allThreadsStopped :- OptionalBool(body, "allThreadsStopped");
    var hitBreakpointIds :- OptionalList(body, "hitBreakpointIds", GetInt);
    Ok(StoppedEvent.StoppedEvent(header, reason, description, threadId, preserveFocusHint, text, allThreadsStopped, hitBreakpointIds))
  }

  datatype ContinuedEvent = ContinuedEvent(header: Event, threadId: int64, allThreadsContinued: Option<bool>)

  function EncodeContinuedEvent(p: ContinuedEvent): (r: Result<Json>)
    ensures r.Fail? <==> p.header.event in EventTypeUnwritable
    ensures r.Ok? ==> DecodeContinuedEvent(r.value) == Ok(p)
  {
    var header :- EncodeEvent(p.header);
    var entries := map[
      "threadId" := Some(OfInt(p.threadId)),
      "allThreadsContinued" := OptBool(p.allThreadsContinued)
    ];
    RequiredIntRoundTrip(entries, "threadId", p.threadId);
    OptionalBoolRoundTrip(entries, "allThreadsContinued", p.allThreadsContinued);
    EventFrame(header, "body", Object(entries));
    Ok(Put(header, "body", Object(entries)))
  }

  function DecodeContinuedEvent(j: Json): (r: Result<ContinuedEvent>)
    ensures r.Ok? ==> DecodeEvent(j) == Ok(r.value.header) && Find(j, "body").Some?
    ensures r.Ok? ==> Find(Find(j, "body").value, "threadId").Some?
  {
    var header :- DecodeEvent(j);
    var body :- At(j, "body");
    var threadId :- RequiredInt(body, "threadId");
    var allThreadsContinued :- OptionalBool(body, "allThreadsContinued");
    Ok(ContinuedEvent.ContinuedEvent(header, threadId, allThreadsContinued))
  }

  datatype ExitedEvent = ExitedEvent(header: Event, exitCode: int64)

  function EncodeExitedEvent(p: ExitedEvent): (r: Result<Json>)
    ensures r.Fail? <==> p.header.event in EventTypeUnwritable
    ensures r.Ok? ==> DecodeExitedEvent(r.value) == Ok(p)
  {
    var header :- EncodeEvent(p.header);
    var entries := map[
      "exitCode" := Some(OfInt(p.exitCode))
    ];
    RequiredIntRoundTrip(entries, "exitCode", p.exitCode);
    EventFrame(header, "body", Object(entries));
    Ok(Put(header, "body", Object(entries)))
  }

  function DecodeExitedEvent(j: Json): (r: Result<ExitedEvent>)
    ensures r.Ok? ==> DecodeEvent(j) == Ok(r.value.header) && Find(j, "body").Some?
    ensures r.Ok? ==> Find(Find(j, "body").value, "exitCode").Some?
  {
    var header :- DecodeEvent(j);
    var body :- At(j, "body");
    var exitCode :- RequiredInt(body, "exitCode");
    Ok(ExitedEvent.ExitedEvent(header, exitCode))
  }

  /** `TerminatedEvent`: `body` is written only to carry a `restart` payload. */
  datatype TerminatedEvent = TerminatedEvent(header: Event, restart: Option<Json>)

  function EncodeTerminatedEvent(p: TerminatedEvent): (r: Result<Json>)
    ensures r.Fail? <==> p.header.event in EventTypeUnwritable
    ensures r.Ok? ==> Find(r.value, "body") == if p.restart.Some? then Some(Obj(map["restart" := p.restart.value])) else None
    ensures r.Ok? ==> DecodeTerminatedEvent(r.value) == Ok(p)
  {
    var header :- EncodeEvent(p.header);
    if p.restart.Some? then
      var body := Put(Null, "restart", p.restart.value);
      EventFrame(header, "body", body);
      Ok(Put(header, "body", body))
    else
      Ok(header)
  }

  function DecodeTerminatedEvent(j: Json): (r: Result<TerminatedEvent>)
    ensures r.Ok? ==> DecodeEvent(j) == Ok(r.value.header)
    ensures DecodeEvent(j).Ok? ==> r.Ok?
    ensures r.Ok? && r.value.restart.Some? ==> Find(j, "body").Some? && Find(Find(j, "body").value, "restart") == r.value.restart
  {
    var header :- DecodeEvent(j);
    match Find(j, "body")
    case None => Ok(TerminatedEvent.TerminatedEvent(header, None))
    case Some(body) => Ok(TerminatedEvent.TerminatedEvent(header, OptionalJson(body, "restart")))
  }

  datatype ThreadEvent = ThreadEvent(header: Event, reason: string, threadId: int64)

  function EncodeThreadEvent(p: ThreadEvent): (r: Result<Json>)
    ensures r.Fail? <==> p.header.event in EventTypeUnwritable
    ensures r.Ok? ==> DecodeThreadEvent(r.value) == Ok(p)
  {
    var header :- EncodeEvent(p.header);
    var entries := map[
      "reason" := Some(OfString(p.reason)),
      "threadId" := Some(OfInt(p.threadId))
    ];
    RequiredStringRoundTrip(entries, "reason", p.reason);
    RequiredIntRoundTrip(entries, "threadId", p.threadId);
    EventFrame(header, "body", Object(entries));
    Ok(Put(header, "body", Object(entries)))
  }

  function DecodeThreadEvent(j: Json): (r: Result<ThreadEvent>)
    ensures r.Ok? ==> DecodeEvent(j) == Ok(r.value.header) && Find(j, "body").Some?
    ensures r.Ok? ==> Find(Find(j, "body").value, "reason").Some? && Find(Find(j, "body").value, "threadId").Some?
  {
    var header :- DecodeEvent(j);
    var body :- At(j, "body");
    var reason :- RequiredString(body, "reason");
    var threadId :- RequiredInt(body, "threadId");
    Ok(ThreadEvent.ThreadEvent(header, reason, threadId))
  }

  datatype OutputEvent = OutputEvent(header: Event, category: Option<string>, output: string, group: Option<OutputGroup>, variablesReference: Option<int64>, source: Option<Source>, line: Option<int64>, column: Option<int64>, data: Option<Json>)

  /** The members the encoder writes under `body`; absent optionals write none. */
  function OutputEventEntries(p: OutputEvent): map<string, Option<Json>> {
    map[
      "category" := OptString(p.category),
      "output" := Some(OfString(p.output)),
      "group" := Opt(p.group, EncodeOutputGroup),
      "variablesReference" := OptInt(p.variablesReference),
      "source" := Opt(p.source, EncodeSource),
      "line" := OptInt(p.line),
      "column" := OptInt(p.column),
      "data" := p.data
    ]
  }

  lemma OutputEventMembersRoundTrip0(p: OutputEvent)
    ensures OptionalString(Object(OutputEventEntries(p)), "category") == Ok(p.category)
    ensures RequiredString(Object(OutputEventEntries(p)), "output") == Ok(p.output)
    ensures FromOptJson(Object(OutputEventEntries(p)), "group", DecodeOutputGroup) == Ok(p.group)
  {
    var entries := OutputEventEntries(p);
    OptionalStringRoundTrip(entries, "category", p.category);
    RequiredStringRoundTrip(entries, "output", p.output);
    OptionalRoundTrip(entries, "group", p.group, EncodeOutputGroup, DecodeOutputGroup);
  }

  lemma OutputEventMembersRoundTrip1(p: OutputEvent)
    ensures OptionalInt(Object(OutputEventEntries(p)), "variablesReference") == Ok(p.variablesReference)
    ensures FromOptJson(Object(OutputEventEntries(p)), "source", DecodeSource) == Ok(p.source)
    ensures OptionalInt(Object(OutputEventEntries(p)), "line") == Ok(p.line)
  {
    var entries := OutputEventEntries(p);
    OptionalIntRoundTrip(entries, "variablesReference", p.variablesReference);
    OptionalRoundTrip(entries, "source", p.source, EncodeSource, DecodeSource);
    OptionalIntRoundTrip(entries, "line", p.line);
  }

  lemma OutputEventMembersRoundTrip2(p: OutputEvent)
    ensures OptionalInt(Object(OutputEventEntries(p)), "column") == Ok(p.column)
    ensures OptionalJson(Object(OutputEventEntries(p)), "data") == p.data
  {
    var entries := OutputEventEntries(p);
    OptionalIntRoundTrip(entries, "column", p.column);
    OptionalJsonRoundTrip(entries, "data", p.data);
  }

  function EncodeOutputEvent(p: OutputEvent): (r: Result<Json>)
    ensures r.Fail? <==> p.header.event in EventTypeUnwritable
    ensures r.Ok? ==> DecodeOutputEvent(r.value) == Ok(p)
  {
    var header :- EncodeEvent(p.header);
    OutputEventMembersRoundTrip0(p);
    OutputEventMembersRoundTrip1(p);
    OutputEventMembersRoundTrip2(p);
    var entries := OutputEventEntries(p);
    EventFrame(header, "body", Object(entries));
    Ok(Put(header, "body", Object(entries)))
  }

  function DecodeOutputEvent(j: Json): (r: Result<OutputEvent>)
    ensures r.Ok? ==> DecodeEvent(j) == Ok(r.value.header) && Find(j, "body").Some?
    ensures r.Ok? ==> Find(Find(j, "body").value, "output").Some?
  {
    var header :- DecodeEvent(j);
    var body :- At(j, "body");
    var category :- OptionalString(body, "category");
    var output :- RequiredString(body, "output");
    var group :- FromOptJson(body, "group", DecodeOutputGroup);
    var variablesReference :- OptionalInt(body, "variablesReference");
    var source :- FromOptJson(body, "source", DecodeSource);
    var line :- OptionalInt(body, "line");
    var column :- OptionalInt(body, "column");
    var data := OptionalJson(body, "data");
    Ok(OutputEvent.OutputEvent(header, category, output, group, variablesReference, source, line, column, data))
  }

  datatype BreakpointEvent = BreakpointEvent(header: Event, reason: string, breakpoint: Breakpoint)

  function EncodeBreakpointEvent(p: BreakpointEvent): (r: Result<Json>)
    ensures r.Fail? <==> p.header.event in EventTypeUnwritable
    ensures r.Ok? ==> DecodeBreakpointEvent(r.value) == Ok(p)
  {
    var header :- EncodeEvent(p.header);
    var entries := map[
      "reason" := Some(OfString(p.reason)),
      "breakpoint" := Some(EncodeBreakpoint(p.breakpoint))
    ];
    RequiredStringRoundTrip(entries, "reason", p.reason);
    RequiredRoundTrip(entries, "breakpoint", p.breakpoint, EncodeBreakpoint, DecodeBreakpoint);
    EventFrame(header, "body", Object(entries));
    Ok(Put(header, "body", Object(entries)))
  }

  function DecodeBreakpointEvent(j: Json): (r: Result<BreakpointEvent>)
    ensures r.Ok? ==> DecodeEvent(j) == Ok(r.value.header) && Find(j, "body").Some?
    ensures r.Ok? ==> Find(Find(j, "body").value, "reason").Some? && Find(Find(j, "body").value, "breakpoint").Some?
  {
    var header :- DecodeEvent(j);
    var body :- At(j, "body");
    var reason :- RequiredString(body, "reason");
    var breakpoint :- Required(body, "breakpoint", DecodeBreakpoint);
    Ok(BreakpointEvent.BreakpointEvent(header, reason, breakpoint))
  }

  datatype ModuleEvent = ModuleEvent(header: Event, reason: ModuleReason, module_: Module)

  function EncodeModuleEvent(p: ModuleEvent): (r: Result<Json>)
    ensures r.Fail? <==> p.header.event in EventTypeUnwritable
    ensures r.Ok? ==> DecodeModuleEvent(r.value) == Ok(p)
  {
    var header :- EncodeEvent(p.header);
    var entries := map[
      "reason" := Some(EncodeModuleReason(p.reason)),
      "module" := Some(EncodeModule(p.module_))
    ];
    RequiredRoundTrip(entries, "reason", p.reason, EncodeModuleReason, DecodeModuleReason);
    RequiredRoundTrip(entries, "module", p.module_, EncodeModule, DecodeModule);
    EventFrame(header, "body", Object(entries));
    Ok(Put(header, "body", Object(entries)))
  }

  function DecodeModuleEvent(j: Json): (r: Result<ModuleEvent>)
    ensures r.Ok? ==> DecodeEvent(j) == Ok(r.value.header) && Find(j, "body").Some?
    ensures r.Ok? ==> Find(Find(j, "body").value, "reason").Some? && Find(Find(j, "body").value, "module").Some?
  {
    var header :- DecodeEvent(j);
    var body :- At(j, "body");
    var reason :- Required(body, "reason", DecodeModuleReason);
    var module_ :- Required(body, "module", DecodeModule);
    Ok(ModuleEvent.ModuleEvent(header, reason, module_))
  }

  datatype LoadedSourceEvent = LoadedSourceEvent(header: Event, reason: ModuleReason, source: Source)

  function EncodeLoadedSourceEvent(p: LoadedSourceEvent): (r: Result<Json>)
    ensures r.Fail? <==> p.header.event in EventTypeUnwritable
    ensures r.Ok? ==> DecodeLoadedSourceEvent(r.value) == Ok(p)
  {
    var header :- EncodeEvent(p.header);
    var entries := map[
      "reason" := Some(EncodeModuleReason(p.reason)),
      "source" := Some(EncodeSource(p.source))
    ];
    RequiredRoundTrip(entries, "reason", p.reason, EncodeModuleReason, DecodeModuleReason);
    RequiredRoundTrip(entries, "source", p.source, EncodeSource, DecodeSource);
    EventFrame(header, "body", Object(entries));
    Ok(Put(header, "body", Object(entries)))
  }

  function DecodeLoadedSourceEvent(j: Json): (r: Result<LoadedSourceEvent>)
    ensures r.Ok? ==> DecodeEvent(j) == Ok(r.value.header) && Find(j, "body").Some?
    ensures r.Ok? ==> Find(Find(j, "body").value, "reason").Some? && Find(Find(j, "body").value, "source").Some?
  {
    var header :- DecodeEvent(j);
    var body :- At(j, "body");
    var reason :- Required(body, "reason", DecodeModuleReason);
    var source :- Required(body, "source", DecodeSource);
    Ok(LoadedSourceEvent.LoadedSourceEvent(header, reason, source))
  }

  datatype ProcessEvent = ProcessEvent(header: Event, name: string, systemProcessId: Option<int64>, isLocalProcess: Option<bool>, startMethod: Option<StartMethod>, pointerSize: Option<int64>)

  /** The members the encoder writes under `body`; absent optionals write none. */
  function ProcessEventEntries(p: ProcessEvent): map<string, Option<Json>> {
    map[
      "name" := Some(OfString(p.name)),
      "systemProcessId" := OptInt(p.systemProcessId),
      "isLocalProcess" := OptBool(p.isLocalProcess),
      "startMethod" := Opt(p.startMethod, EncodeStartMethod),
      "pointerSize" := OptInt(p.pointerSize)
    ]
  }

  lemma ProcessEventMembersRoundTrip0(p: ProcessEvent)
    ensures RequiredString(Object(ProcessEventEntries(p)), "name") == Ok(p.name)
    ensures OptionalInt(Object(ProcessEventEntries(p)), "systemProcessId") == Ok(p.systemProcessId)
    ensures OptionalBool(Object(ProcessEventEntries(p)), "isLocalProcess") == Ok(p.isLocalProcess)
  {
    var entries := ProcessEventEntries(p);
    RequiredStringRoundTrip(entries, "name", p.name);
    OptionalIntRoundTrip(entries, "systemProcessId", p.systemProcessId);
    OptionalBoolRoundTrip(entries, "isLocalProcess", p.isLocalProcess);
  }

  lemma ProcessEventMembersRoundTrip1(p: ProcessEvent)
    ensures FromOptJson(Object(ProcessEventEntries(p)), "startMethod", DecodeStartMethod) == Ok(p.startMethod)
    ensures OptionalInt(Object(ProcessEventEntries(p)), "pointerSize") == Ok(p.pointerSize)
  {
    var entries := ProcessEventEntries(p);
    OptionalRoundTrip(entries, "startMethod", p.startMethod, EncodeStartMethod, DecodeStartMethod);
    OptionalIntRoundTrip(entries, "pointerSize", p.pointerSize);
  }

  function EncodeProcessEvent(p: ProcessEvent): (r: Result<Json>)
    ensures r.Fail? <==> p.header.event in EventTypeUnwritable
    ensures r.Ok? ==> DecodeProcessEvent(r.value) == Ok(p)
  {
    var header :- EncodeEvent(p.header);
    ProcessEventMembersRoundTrip0(p);
    ProcessEventMembersRoundTrip1(p);
    var entries := ProcessEventEntries(p);
    EventFrame(header, "body", Object(entries));
    Ok(Put(header, "body", Object(entries)))
  }

  function DecodeProcessEvent(j: Json): (r: Result<ProcessEvent>)
    ensures r.Ok? ==> DecodeEvent(j) == Ok(r.value.header) && Find(j, "body").Some?
    ensures r.Ok? ==> Find(Find(j, "body").value, "name").Some?
  {
    var header :- DecodeEvent(j);
    var body :- At(j, "body");
    var name :- RequiredString(body, "name");
    var systemProcessId :- OptionalInt(body, "systemProcessId");
    var isLocalProcess :- OptionalBool(body, "isLocalProcess");
    var startMethod :- FromOptJson(body, "startMethod", DecodeStartMethod);
    var pointerSize :- OptionalInt(body, "pointerSize");
    Ok(ProcessEvent.ProcessEvent(header, name, systemProcessId, isLocalProcess, startMethod, pointerSize))
  }

  datatype CapabilitiesEvent = CapabilitiesEvent(header: Event, capabilities: Capabilities)

  function EncodeCapabilitiesEvent(p: CapabilitiesEvent): (r: Result<Json>)
    ensures r.Fail? <==> p.header.event in EventTypeUnwritable
    ensures r.Ok? ==> DecodeCapabilitiesEvent(r.value) == Ok(p)
  {
    var header :- EncodeEvent(p.header);
    var entries := map[
      "capabilities" := Some(EncodeCapabilities(p.capabilities))
    ];
    RequiredRoundTrip(entries, "capabilities", p.capabilities, EncodeCapabilities, DecodeCapabilities);
    EventFrame(header, "body", Object(entries));
    Ok(Put(header, "body", Object(entries)))
  }

  function DecodeCapabilitiesEvent(j: Json): (r: Result<CapabilitiesEvent>)
    ensures r.Ok? ==> DecodeEvent(j) == Ok(r.value.header) && Find(j, "body").Some?
    ensures r.Ok? ==> Find(Find(j, "body").value, "capabilities").Some?
  {
    var header :- DecodeEvent(j);
    var body :- At(j, "body");
    var capabilities :- Required(body, "capabilities", DecodeCapabilities);
    Ok(CapabilitiesEvent.CapabilitiesEvent(header, capabilities))
  }

  datatype ProgressStartEvent = ProgressStartEvent(header: Event, progressId: string, title: string, requestId: Option<int64>, cancellable: Option<bool>, message: Option<string>, percentage: Option<int64>)

  /** The members the encoder writes under `body`; absent optionals write none. */
  function ProgressStartEventEntries(p: ProgressStartEvent): map<string, Option<Json>> {
    map[
      "progressId" := Some(OfString(p.progressId)),
      "title" := Some(OfString(p.title)),
      "requestId" := OptInt(p.requestId),
      "cancellable" := OptBool(p.cancellable),
      "message" := OptString(p.message),
      "percentage" := OptInt(p.percentage)
    ]
  }

  lemma ProgressStartEventMembersRoundTrip0(p: ProgressStartEvent)
    ensures RequiredString(Object(ProgressStartEventEntries(p)), "progressId") == Ok(p.progressId)
    ensures RequiredString(Object(ProgressStartEventEntries(p)), "title") == Ok(p.title)
    ensures OptionalInt(Object(ProgressStartEventEntries(p)), "requestId") == Ok(p.requestId)
  {
    var entries := ProgressStartEventEntries(p);
    RequiredStringRoundTrip(entries, "progressId", p.progressId);
    RequiredStringRoundTrip(entries, "title", p.title);
    OptionalIntRoundTrip(entries, "requestId", p.requestId);
  }

  lemma ProgressStartEventMembersRoundTrip1(p: ProgressStartEvent)
    ensures OptionalBool(Object(ProgressStartEventEntries(p)), "cancellable") == Ok(p.cancellable)
    ensures OptionalString(Object(ProgressStartEventEntries(p)), "message") == Ok(p.message)
    ensures OptionalInt(Object(ProgressStartEventEntries(p)), "percentage") == Ok(p.percentage)
  {
    var entries := ProgressStartEventEntries(p);
    OptionalBoolRoundTrip(entries, "cancellable", p.cancellable);
    OptionalStringRoundTrip(entries, "message", p.message);
    OptionalIntRoundTrip(entries, "percentage", p.percentage);
  }

  function EncodeProgressStartEvent(p: ProgressStartEvent): (r: Result<Json>)
    ensures r.Fail? <==> p.header.event in EventTypeUnwritable
    ensures r.Ok? ==> DecodeProgressStartEvent(r.value) == Ok(p)
  {
    var header :- EncodeEvent(p.header);
    ProgressStartEventMembersRoundTrip0(p);
    ProgressStartEventMembersRoundTrip1(p);
    var entries := ProgressStartEventEntries(p);
    EventFrame(header, "body", Object(entries));
    Ok(Put(header, "body", Object(entries)))
  }

  function DecodeProgressStartEvent(j: Json): (r: Result<ProgressStartEvent>)
    ensures r.Ok? ==> DecodeEvent(j) == Ok(r.value.header) && Find(j, "body").Some?
    ensures r.Ok? ==> Find(Find(j, "body").value, "progressId").Some? && Find(Find(j, "body").value, "title").Some?
  {
    var header :- DecodeEvent(j);
    var body :- At(j, "body");
    var progressId :- RequiredString(body, "progressId");
    var title :- RequiredString(body, "title");
    var requestId :- OptionalInt(body, "requestId");
    var cancellable :- OptionalBool(body, "cancellable");
    var message :- OptionalString(body, "message");
    var percentage :- OptionalInt(body, "percentage");
    Ok(ProgressStartEvent.ProgressStartEvent(header, progressId, title, requestId, cancellable, message, percentage))
  }

  datatype ProgressUpdateEvent = ProgressUpdateEvent(header: Event, progressId: string, message: Option<string>, percentage: Option<int64>)

  function EncodeProgressUpdateEvent(p: ProgressUpdateEvent): (r: Result<Json>)
    ensures r.Fail? <==> p.header.event in EventTypeUnwritable
    ensures r.Ok? ==> DecodeProgressUpdateEvent(r.value) == Ok(p)
  {
    var header :- EncodeEvent(p.header);
    var entries := map[
      "progressId" := Some(OfString(p.progressId)),
      "message" := OptString(p.message),
      "percentage" := OptInt(p.percentage)
    ];
    RequiredStringRoundTrip(entries, "progressId", p.progressId);
    OptionalStringRoundTrip(entries, "message", p.message);
    OptionalIntRoundTrip(entries, "percentage", p.percentage);
    EventFrame(header, "body", Object(entries));
    Ok(Put(header, "body", Object(entries)))
  }

  function DecodeProgressUpdateEvent(j: Json): (r: Result<ProgressUpdateEvent>)
    ensures r.Ok? ==> DecodeEvent(j) == Ok(r.value.header) && Find(j, "body").Some?
    ensures r.Ok? ==> Find(Find(j, "body").value, "progressId").Some?
  {
    var header :- DecodeEvent(j);
    var body :- At(j, "body");
    var progressId :- RequiredString(body, "progressId");
    var message :- OptionalString(body, "message");
    var percentage :- OptionalInt(body, "percentage");
    Ok(ProgressUpdateEvent.ProgressUpdateEvent(header, progressId, message, percentage))
  }

  datatype ProgressEndEvent = ProgressEndEvent(header: Event, progressId: string, message: Option<string>)

  function EncodeProgressEndEvent(p: ProgressEndEvent): (r: Result<Json>)
    ensures r.Fail? <==> p.header.event in EventTypeUnwritable
    ensures r.Ok? ==> DecodeProgressEndEvent(r.value) == Ok(p)
  {
    var header :- EncodeEvent(p.header);
    var entries := map[
      "progressId" := Some(OfString(p.progressId)),
      "message" := OptString(p.message)
    ];
    RequiredStringRoundTrip(entries, "progressId", p.progressId);
    OptionalStringRoundTrip(entries, "message", p.message);
    EventFrame(header, "body", Object(entries));
    Ok(Put(header, "body", Object(entries)))
  }

  function DecodeProgressEndEvent(j: Json): (r: Result<ProgressEndEvent>)
    ensures r.Ok? ==> DecodeEvent(j) == Ok(r.value.header) && Find(j, "body").Some?
    ensures r.Ok? ==> Find(Find(j, "body").value, "progressId").Some?
  {
    var header :- DecodeEvent(j);
    var body :- At(j, "body");
    var progressId :- RequiredString(body, "progressId");
    var message :- OptionalString(body, "message");
    Ok(ProgressEndEvent.ProgressEndEvent(header, progressId, message))
  }

  datatype InvalidatedEvent = InvalidatedEvent(header: Event, areas: Option<string>, threadId: Option<int64>, stackFrameId: Option<int64>)

  function EncodeInvalidatedEvent(p: InvalidatedEvent): (r: Result<Json>)
    ensures r.Fail? <==> p.header.event in EventTypeUnwritable
    ensures r.Ok? ==> DecodeInvalidatedEvent(r.value) == Ok(p)
  {
    var header :- EncodeEvent(p.header);
    var entries := map[
      "areas" := OptString(p.areas),
      "threadId" := OptInt(p.threadId),
      "stackFrameId" := OptInt(p.stackFrameId)
    ];
    OptionalStringRoundTrip(entries, "areas", p.areas);
    OptionalIntRoundTrip(entries, "threadId", p.threadId);
    OptionalIntRoundTrip(entries, "stackFrameId", p.stackFrameId);
    EventFrame(header, "body", Object(entries));
    Ok(Put(header, "body", Object(entries)))
  }

  function DecodeInvalidatedEvent(j: Json): (r: Result<InvalidatedEvent>)
    ensures r.Ok? ==> DecodeEvent(j) == Ok(r.value.header) && Find(j, "body").Some?
  {
    var header :- DecodeEvent(j);
    var body :- At(j, "body");
    var areas :- OptionalString(body, "areas");
    var threadId :- OptionalInt(body, "threadId");
    var stackFrameId :- OptionalInt(body, "stackFrameId");
    Ok(InvalidatedEvent.InvalidatedEvent(header, areas, threadId, stackFrameId))
  }

  datatype MemoryEvent = MemoryEvent(header: Event, memoryReference: string, offset: int64, count: int64)

  function EncodeMemoryEvent(p: MemoryEvent): (r: Result<Json>)
    ensures r.Fail? <==> p.header.event in EventTypeUnwritable
    ensures r.Ok? ==> DecodeMemoryEvent(r.value) == Ok(p)
  {
    var header :- EncodeEvent(p.header);
    var entries := map[
      "memoryReference" := Some(OfString(p.memoryReference)),
      "offset" := Some(OfInt(p.offset)),
      "count" := Some(OfInt(p.count))
    ];
    RequiredStringRoundTrip(entries, "memoryReference", p.memoryReference);
    RequiredIntRoundTrip(entries, "offset", p.offset);
    RequiredIntRoundTrip(entries, "count", p.count);
    EventFrame(header, "body", Object(entries));
    Ok(Put(header, "body", Object(entries)))
  }

  function DecodeMemoryEvent(j: Json): (r: Result<MemoryEvent>)
    ensures r.Ok? ==> DecodeEvent(j) == Ok(r.value.header) && Find(j, "body").Some?
    ensures r.Ok? ==> Find(Find(j, "body").value, "memoryReference").Some? && Find(Find(j, "body").value, "offset").Some? && Find(Find(j, "body").value, "count").Some?
  {
    var header :- DecodeEvent(j);
    var body :- At(j, "body");
    var memoryReference :- RequiredString(body, "memoryReference");
    var offset :- RequiredInt(body, "offset");
    var count :- RequiredInt(body, "count");
    Ok(MemoryEvent.MemoryEvent(header, memoryReference, offset, count))
  }
}
