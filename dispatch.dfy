/**
 * `serialize`: the three-way switch on a message's discriminants that
 * selects the codec of its concrete class. The message is a sum type
 * whose constructor is the concrete class; the source's `static_cast` to
 * that class is valid exactly when the stored discriminants select it,
 * which `Consistent` states. `dump()` is left out: the result is the JSON
 * value itself, or nothing where the source returns the empty string.
 */
module Dispatch {
  import opened Json
  import opened Codec
  import Envelope
  import Requests
  import Responses
  import Events

  /** What `serialize` switches on: the type, then the command (and success) or the event. */
  datatype Discriminants =
    | RequestOf(command: Envelope.CommandType)
    | ResponseOf(command: Envelope.CommandType, success: bool)
    | EventOf(event: Envelope.EventType)

  /** The message type that goes with each kind of discriminants. */
  function KindOf(d: Discriminants): Envelope.MessageType {
    match d
    case RequestOf(_) => Envelope.MessageType.Request
    case ResponseOf(_, _) => Envelope.MessageType.Response
    case EventOf(_) => Envelope.MessageType.Event
  }

  /** An arm of `serialize`: the class it casts to, named by its static id. */
  datatype Arm =
    | RequestArm(command: Envelope.CommandType)
    | ErrorResponseArm
    | ResponseArm(command: Envelope.CommandType)
    | EventArm(event: Envelope.EventType)

  /** The arms the switch has: every command and event except the `_MAX` sentinels. */
  predicate Reachable(a: Arm) {
    match a
    case RequestArm(command) => command != Envelope.CommandType.CommandMax
    case ErrorResponseArm => true
    case ResponseArm(command) => command != Envelope.CommandType.CommandMax
    case EventArm(event) => event != Envelope.EventType.EventMax
  }

  /**
   * The arm `serialize` takes: requests by command, failed responses as
   * ErrorResponse whatever their command, successful responses by command,
   * events by event; the sentinels have no arm and fall through.
   */
  function Route(d: Discriminants): (r: Option<Arm>)
    ensures r.None? <==> d == RequestOf(Envelope.CommandType.CommandMax) || d == ResponseOf(Envelope.CommandType.CommandMax, true) || d == EventOf(Envelope.EventType.EventMax)
    ensures d.ResponseOf? && !d.success ==> r == Some(ErrorResponseArm)
    ensures r.Some? ==> Reachable(r.value)
    ensures r.Some? && r.value.RequestArm? ==> d == RequestOf(r.value.command)
    ensures r.Some? && r.value.ResponseArm? ==> d == ResponseOf(r.value.command, true)
    ensures r.Some? && r.value.EventArm? ==> d == EventOf(r.value.event)
  {
    match d
    case RequestOf(command) =>
      if command == Envelope.CommandType.CommandMax then None else Some(RequestArm(command))
    case ResponseOf(command, success) =>
      if !success then Some(ErrorResponseArm)
      else if command == Envelope.CommandType.CommandMax then None
      else Some(ResponseArm(command))
    case EventOf(event) =>
      if event == Envelope.EventType.EventMax then None else Some(EventArm(event))
  }

  /** Distinct discriminants take distinct arms, except that every failed response is an ErrorResponse. */
  lemma RouteInjective(d: Discriminants, e: Discriminants)
    requires Route(d).Some? && Route(d) == Route(e)
    ensures d == e || (d.ResponseOf? && !d.success && e.ResponseOf? && !e.success)
  {
    if !(d.ResponseOf? && !d.success) {
      assert Route(e).value != ErrorResponseArm;
    }
  }

  /**
   * The concrete request classes `serialize` can be given, one constructor per
   * class, and the bare `Request` itself. Classes that add no members of their
   * own hold only the header; classes that share a base hold that base.
   */
  datatype AnyRequest =
    | CancelRequest(cancelRequest: Requests.CancelRequest)
    | RunInTerminalRequest(runInTerminalRequest: Requests.RunInTerminalRequest)
    | InitializeRequest(initializeRequest: Requests.InitializeRequest)
    | ConfigurationDoneRequest(configurationDoneRequest: Envelope.Request)
    | LaunchRequest(launchRequest: Requests.LaunchRequest)
    | AttachRequest(attachRequest: Requests.AttachRequest)
    | RestartRequest(restartRequest: Requests.RestartRequest)
    | DisconnectRequest(disconnectRequest: Requests.DisconnectRequest)
    | TerminateRequest(terminateRequest: Requests.TerminateRequest)
    | BreakpointLocationsRequest(breakpointLocationsRequest: Requests.BreakpointLocationsRequest)
    | SetBreakpointsRequest(setBreakpointsRequest: Requests.SetBreakpointsRequest)
    | SetFunctionBreakpointsRequest(setFunctionBreakpointsRequest: Requests.SetFunctionBreakpointsRequest)
    | SetExceptionBreakpointsRequest(setExceptionBreakpointsRequest: Requests.SetExceptionBreakpointsRequest)
    | DataBreakpointInfoRequest(dataBreakpointInfoRequest: Requests.DataBreakpointInfoRequest)
    | SetDataBreakpointsRequest(setDataBreakpointsRequest: Requests.SetDataBreakpointsRequest)
    | SetInstructionBreakpointsRequest(setInstructionBreakpointsRequest: Requests.SetInstructionBreakpointsRequest)
    | ContinueRequest(continueRequest: Requests.ContinueBaseRequest)
    | NextRequest(nextRequest: Requests.NextBaseRequest)
    | StepInRequest(stepInRequest: Requests.StepInRequest)
    | StepOutRequest(stepOutRequest: Requests.NextBaseRequest)
    | StepBackRequest(stepBackRequest: Requests.NextBaseRequest)
    | ReverseContinueRequest(reverseContinueRequest: Requests.ContinueBaseRequest)
    | RestartFrameRequest(restartFrameRequest: Requests.RestartFrameBaseRequest)
    | GotoRequest(gotoRequest: Requests.GotoRequest)
    | PauseRequest(pauseRequest: Requests.PauseBaseRequest)
    | StackTraceRequest(stackTraceRequest: Requests.StackTraceRequest)
    | ScopesRequest(scopesRequest: Requests.RestartFrameBaseRequest)
    | VariablesRequest(variablesRequest: Requests.VariablesRequest)
    | SetVariableRequest(setVariableRequest: Requests.SetVariableRequest)
    | SourceRequest(sourceRequest: Requests.SourceRequest)
    | ThreadsRequest(threadsRequest: Envelope.Request)
    | TerminateThreadsRequest(terminateThreadsRequest: Requests.TerminateThreadsRequest)
    | ModulesRequest(modulesRequest: Requests.ModulesRequest)
    | LoadedSourcesRequest(loadedSourcesRequest: Envelope.Request)
    | EvaluateRequest(evaluateRequest: Requests.EvaluateRequest)
    | SetExpressionRequest(setExpressionRequest: Requests.SetExpressionRequest)
    | StepInTargetsRequest(stepInTargetsRequest: Requests.StepInTargetsRequest)
    | GotoTargetsRequest(gotoTargetsRequest: Requests.GotoTargetsRequest)
    | CompletionsRequest(completionsRequest: Requests.CompletionsRequest)
    | ExceptionInfoRequest(exceptionInfoRequest: Requests.PauseBaseRequest)
    | ReadMemoryRequest(readMemoryRequest: Requests.ReadMemoryRequest)
    | WriteMemoryRequest(writeMemoryRequest: Requests.WriteMemoryRequest)
    | DisassembleRequest(disassembleRequest: Requests.DisassembleRequest)
    | Request(request: Envelope.Request)

  /** The `Request` part of the message: its stored discriminants. */
  function RequestHeader(q: AnyRequest): Envelope.Request {
    match q
    case CancelRequest(p) => p.header
    case RunInTerminalRequest(p) => p.header
    case InitializeRequest(p) => p.header
    case ConfigurationDoneRequest(p) => p
    case LaunchRequest(p) => p.header
    case AttachRequest(p) => p.header
    case RestartRequest(p) => p.header
    case DisconnectRequest(p) => p.header
    case TerminateRequest(p) => p.header
    case BreakpointLocationsRequest(p) => p.header
    case SetBreakpointsRequest(p) => p.header
    case SetFunctionBreakpointsRequest(p) => p.header
    case SetExceptionBreakpointsRequest(p) => p.header
    case DataBreakpointInfoRequest(p) => p.header
    case SetDataBreakpointsRequest(p) => p.header
    case SetInstructionBreakpointsRequest(p) => p.header
    case ContinueRequest(p) => p.header
    case NextRequest(p) => p.header
    case StepInRequest(p) => p.header
    case StepOutRequest(p) => p.header
    case StepBackRequest(p) => p.header
    case ReverseContinueRequest(p) => p.header
    case RestartFrameRequest(p) => p.header
    case GotoRequest(p) => p.header
    case PauseRequest(p) => p.header
    case StackTraceRequest(p) => p.header
    case ScopesRequest(p) => p.header
    case VariablesRequest(p) => p.header
    case SetVariableRequest(p) => p.header
    case SourceRequest(p) => p.header
    case ThreadsRequest(p) => p
    case TerminateThreadsRequest(p) => p.header
    case ModulesRequest(p) => p.header
    case LoadedSourcesRequest(p) => p
    case EvaluateRequest(p) => p.header
    case SetExpressionRequest(p) => p.header
    case StepInTargetsRequest(p) => p.header
    case GotoTargetsRequest(p) => p.header
    case CompletionsRequest(p) => p.header
    case ExceptionInfoRequest(p) => p.header
    case ReadMemoryRequest(p) => p.header
    case WriteMemoryRequest(p) => p.header
    case DisassembleRequest(p) => p.header
    case Request(p) => p
  }

  /** The arm of `serialize` that casts to the class: fixed by its constructor; none for the bare `Request`. */
  function RequestArmOf(q: AnyRequest): Option<Arm> {
    match q
    case CancelRequest(_) => Some(RequestArm(Envelope.CommandType.Cancel))
    case RunInTerminalRequest(_) => Some(RequestArm(Envelope.CommandType.RunInTerminal))
    case InitializeRequest(_) => Some(RequestArm(Envelope.CommandType.Initialize))
    case ConfigurationDoneRequest(_) => Some(RequestArm(Envelope.CommandType.ConfigurationDone))
    case LaunchRequest(_) => Some(RequestArm(Envelope.CommandType.Launch))
    case AttachRequest(_) => Some(RequestArm(Envelope.CommandType.Attach))
    case RestartRequest(_) => Some(RequestArm(Envelope.CommandType.Restart))
    case DisconnectRequest(_) => Some(RequestArm(Envelope.CommandType.Disconnect))
    case TerminateRequest(_) => Some(RequestArm(Envelope.CommandType.Terminate))
    case BreakpointLocationsRequest(_) => Some(RequestArm(Envelope.CommandType.BreakpointLocations))
    case SetBreakpointsRequest(_) => Some(RequestArm(Envelope.CommandType.SetBreakpoints))
    case SetFunctionBreakpointsRequest(_) => Some(RequestArm(Envelope.CommandType.SetFunctionBreakpoints))
    case SetExceptionBreakpointsRequest(_) => Some(RequestArm(Envelope.CommandType.SetExceptionBreakpoints))
    case DataBreakpointInfoRequest(_) => Some(RequestArm(Envelope.CommandType.DataBreakpointInfo))
    case SetDataBreakpointsRequest(_) => Some(RequestArm(Envelope.CommandType.SetDataBreakpoints))
    case SetInstructionBreakpointsRequest(_) => Some(RequestArm(Envelope.CommandType.SetInstructionBreakpoints))
    case ContinueRequest(_) => Some(RequestArm(Envelope.CommandType.Continue))
    case NextRequest(_) => Some(RequestArm(Envelope.CommandType.Next))
    case StepInRequest(_) => Some(RequestArm(Envelope.CommandType.StepIn))
    case StepOutRequest(_) => Some(RequestArm(Envelope.CommandType.StepOut))
    case StepBackRequest(_) => Some(RequestArm(Envelope.CommandType.StepBack))
    case ReverseContinueRequest(_) => Some(RequestArm(Envelope.CommandType.ReverseContinue))
    case RestartFrameRequest(_) => Some(RequestArm(Envelope.CommandType.RestartFrame))
    case GotoRequest(_) => Some(RequestArm(Envelope.CommandType.Goto))
    case PauseRequest(_) => Some(RequestArm(Envelope.CommandType.Pause))
    case StackTraceRequest(_) => Some(RequestArm(Envelope.CommandType.StackTrace))
    case ScopesRequest(_) => Some(RequestArm(Envelope.CommandType.Scopes))
    case VariablesRequest(_) => Some(RequestArm(Envelope.CommandType.Variables))
    case SetVariableRequest(_) => Some(RequestArm(Envelope.CommandType.SetVariable))
    case SourceRequest(_) => Some(RequestArm(Envelope.CommandType.Source))
    case ThreadsRequest(_) => Some(RequestArm(Envelope.CommandType.Threads))
    case TerminateThreadsRequest(_) => Some(RequestArm(Envelope.CommandType.TerminateThreads))
    case ModulesRequest(_) => Some(RequestArm(Envelope.CommandType.Modules))
    case LoadedSourcesRequest(_) => Some(RequestArm(Envelope.CommandType.LoadedSources))
    case EvaluateRequest(_) => Some(RequestArm(Envelope.CommandType.Evaluate))
    case SetExpressionRequest(_) => Some(RequestArm(Envelope.CommandType.SetExpression))
    case StepInTargetsRequest(_) => Some(RequestArm(Envelope.CommandType.StepInTargets))
    case GotoTargetsRequest(_) => Some(RequestArm(Envelope.CommandType.GotoTargets))
    case CompletionsRequest(_) => Some(RequestArm(Envelope.CommandType.Completions))
    case ExceptionInfoRequest(_) => Some(RequestArm(Envelope.CommandType.ExceptionInfo))
    case ReadMemoryRequest(_) => Some(RequestArm(Envelope.CommandType.ReadMemory))
    case WriteMemoryRequest(_) => Some(RequestArm(Envelope.CommandType.WriteMemory))
    case DisassembleRequest(_) => Some(RequestArm(Envelope.CommandType.Disassemble))
    case Request(_) => None
  }

  /**
   * The concrete response classes `serialize` can be given, one constructor per
   * class, and the bare `Response` itself. Classes that add no members of their
   * own hold only the header; classes that share a base hold that base.
   */
  datatype AnyResponse =
    | ErrorResponse(errorResponse: Envelope.ErrorResponse)
    | CancelResponse(cancelResponse: Envelope.Response)
    | RunInTerminalResponse(runInTerminalResponse: Responses.RunInTerminalResponse)
    | InitializeResponse(initializeResponse: Responses.InitializeResponse)
    | ConfigurationDoneResponse(configurationDoneResponse: Envelope.Response)
    | LaunchResponse(launchResponse: Envelope.Response)
    | AttachResponse(attachResponse: Envelope.Response)
    | RestartResponse(restartResponse: Envelope.Response)
    | DisconnectResponse(disconnectResponse: Envelope.Response)
    | TerminateResponse(terminateResponse: Envelope.Response)
    | BreakpointLocationsResponse(breakpointLocationsResponse: Responses.BreakpointLocationsResponse)
    | SetBreakpointsResponse(setBreakpointsResponse: Responses.SetBreakpointsResponse)
    | SetFunctionBreakpointsResponse(setFunctionBreakpointsResponse: Responses.SetFunctionBreakpointsBaseResponse)
    | SetExceptionBreakpointsResponse(setExceptionBreakpointsResponse: Responses.SetExceptionBreakpointsResponse)
    | DataBreakpointInfoResponse(dataBreakpointInfoResponse: Responses.DataBreakpointInfoResponse)
    | SetDataBreakpointsResponse(setDataBreakpointsResponse: Responses.SetFunctionBreakpointsBaseResponse)
    | SetInstructionBreakpointsResponse(setInstructionBreakpointsResponse: Responses.SetFunctionBreakpointsBaseResponse)
    | ContinueResponse(continueResponse: Responses.ContinueResponse)
    | NextResponse(nextResponse: Envelope.Response)
    | StepInResponse(stepInResponse: Envelope.Response)
    | StepOutResponse(stepOutResponse: Envelope.Response)
    | StepBackResponse(stepBackResponse: Envelope.Response)
    | ReverseContinueResponse(reverseContinueResponse: Envelope.Response)
    | RestartFrameResponse(restartFrameResponse: Envelope.Response)
    | GotoResponse(gotoResponse: Envelope.Response)
    | PauseResponse(pauseResponse: Envelope.Response)
    | StackTraceResponse(stackTraceResponse: Responses.StackTraceResponse)
    | ScopesResponse(scopesResponse: Responses.ScopesResponse)
    | VariablesResponse(variablesResponse: Responses.VariablesResponse)
    | SetVariableResponse(setVariableResponse: Responses.SetVariableResponse)
    | SourceResponse(sourceResponse: Responses.SourceResponse)
    | ThreadsResponse(threadsResponse: Responses.ThreadsResponse)
    | TerminateThreadsResponse(terminateThreadsResponse: Envelope.Response)
    | ModulesResponse(modulesResponse: Responses.ModulesResponse)
    | LoadedSourcesResponse(loadedSourcesResponse: Responses.LoadedSourcesResponse)
    | EvaluateResponse(evaluateResponse: Responses.EvaluateResponse)
    | SetExpressionResponse(setExpressionResponse: Responses.SetExpressionResponse)
    | StepInTargetsResponse(stepInTargetsResponse: Responses.StepInTargetsResponse)
    | GotoTargetsResponse(gotoTargetsResponse: Responses.GotoTargetsResponse)
    | CompletionsResponse(completionsResponse: Responses.CompletionsResponse)
    | ExceptionInfoResponse(exceptionInfoResponse: Responses.ExceptionInfoResponse)
    | ReadMemoryResponse(readMemoryResponse: Responses.ReadMemoryResponse)
    | WriteMemoryResponse(writeMemoryResponse: Responses.WriteMemoryResponse)
    | DisassembleResponse(disassembleResponse: Responses.DisassembleResponse)
    | Response(response: Envelope.Response)

  /** The `Response` part of the message: its stored discriminants. */
  function ResponseHeader(q: AnyResponse): Envelope.Response {
    match q
    case ErrorResponse(p) => p.header
    case CancelResponse(p) => p
    case RunInTerminalResponse(p) => p.header
    case InitializeResponse(p) => p.header
    case ConfigurationDoneResponse(p) => p
    case LaunchResponse(p) => p
    case AttachResponse(p) => p
    case RestartResponse(p) => p
    case DisconnectResponse(p) => p
    case TerminateResponse(p) => p
    case BreakpointLocationsResponse(p) => p.header
    case SetBreakpointsResponse(p) => p.header
    case SetFunctionBreakpointsResponse(p) => p.header
    case SetExceptionBreakpointsResponse(p) => p.header
    case DataBreakpointInfoResponse(p) => p.header
    case SetDataBreakpointsResponse(p) => p.header
    case SetInstructionBreakpointsResponse(p) => p.header
    case ContinueResponse(p) => p.header
    case NextResponse(p) => p
    case StepInResponse(p) => p
    case StepOutResponse(p) => p
    case StepBackResponse(p) => p
    case ReverseContinueResponse(p) => p
    case RestartFrameResponse(p) => p
    case GotoResponse(p) => p
    case PauseResponse(p) => p
    case StackTraceResponse(p) => p.header
    case ScopesResponse(p) => p.header
    case VariablesResponse(p) => p.header
    case SetVariableResponse(p) => p.header
    case SourceResponse(p) => p.header
    case ThreadsResponse(p) => p.header
    case TerminateThreadsResponse(p) => p
    case ModulesResponse(p) => p.header
    case LoadedSourcesResponse(p) => p.header
    case EvaluateResponse(p) => p.header
    case SetExpressionResponse(p) => p.header
    case StepInTargetsResponse(p) => p.header
    case GotoTargetsResponse(p) => p.header
    case CompletionsResponse(p) => p.header
    case ExceptionInfoResponse(p) => p.header
    case ReadMemoryResponse(p) => p.header
    case WriteMemoryResponse(p) => p.header
    case DisassembleResponse(p) => p.header
    case Response(p) => p
  }

  /** The arm of `serialize` that casts to the class: fixed by its constructor; none for the bare `Response`. */
  function ResponseArmOf(q: AnyResponse): Option<Arm> {
    match q
    case ErrorResponse(_) => Some(ErrorResponseArm)
    case CancelResponse(_) => Some(ResponseArm(Envelope.CommandType.Cancel))
    case RunInTerminalResponse(_) => Some(ResponseArm(Envelope.CommandType.RunInTerminal))
    case InitializeResponse(_) => Some(ResponseArm(Envelope.CommandType.Initialize))
    case ConfigurationDoneResponse(_) => Some(ResponseArm(Envelope.CommandType.ConfigurationDone))
    case LaunchResponse(_) => Some(ResponseArm(Envelope.CommandType.Launch))
    case AttachResponse(_) => Some(ResponseArm(Envelope.CommandType.Attach))
    case RestartResponse(_) => Some(ResponseArm(Envelope.CommandType.Restart))
    case DisconnectResponse(_) => Some(ResponseArm(Envelope.CommandType.Disconnect))
    case TerminateResponse(_) => Some(ResponseArm(Envelope.CommandType.Terminate))
    case BreakpointLocationsResponse(_) => Some(ResponseArm(Envelope.CommandType.BreakpointLocations))
    case SetBreakpointsResponse(_) => Some(ResponseArm(Envelope.CommandType.SetBreakpoints))
    case SetFunctionBreakpointsResponse(_) => Some(ResponseArm(Envelope.CommandType.SetFunctionBreakpoints))
    case SetExceptionBreakpointsResponse(_) => Some(ResponseArm(Envelope.CommandType.SetExceptionBreakpoints))
    case DataBreakpointInfoResponse(_) => Some(ResponseArm(Envelope.CommandType.DataBreakpointInfo))
    case SetDataBreakpointsResponse(_) => Some(ResponseArm(Envelope.CommandType.SetDataBreakpoints))
    case SetInstructionBreakpointsResponse(_) => Some(ResponseArm(Envelope.CommandType.SetInstructionBreakpoints))
    case ContinueResponse(_) => Some(ResponseArm(Envelope.CommandType.Continue))
    case NextResponse(_) => Some(ResponseArm(Envelope.CommandType.Next))
    case StepInResponse(_) => Some(ResponseArm(Envelope.CommandType.StepIn))
    case StepOutResponse(_) => Some(ResponseArm(Envelope.CommandType.StepOut))
    case StepBackResponse(_) => Some(ResponseArm(Envelope.CommandType.StepBack))
    case ReverseContinueResponse(_) => Some(ResponseArm(Envelope.CommandType.ReverseContinue))
    case RestartFrameResponse(_) => Some(ResponseArm(Envelope.CommandType.RestartFrame))
    case GotoResponse(_) => Some(ResponseArm(Envelope.CommandType.Goto))
    case PauseResponse(_) => Some(ResponseArm(Envelope.CommandType.Pause))
    case StackTraceResponse(_) => Some(ResponseArm(Envelope.CommandType.StackTrace))
    case ScopesResponse(_) => Some(ResponseArm(Envelope.CommandType.Scopes))
    case VariablesResponse(_) => Some(ResponseArm(Envelope.CommandType.Variables))
    case SetVariableResponse(_) => Some(ResponseArm(Envelope.CommandType.SetVariable))
    case SourceResponse(_) => Some(ResponseArm(Envelope.CommandType.Source))
    case ThreadsResponse(_) => Some(ResponseArm(Envelope.CommandType.Threads))
    case TerminateThreadsResponse(_) => Some(ResponseArm(Envelope.CommandType.TerminateThreads))
    case ModulesResponse(_) => Some(ResponseArm(Envelope.CommandType.Modules))
    case LoadedSourcesResponse(_) => Some(ResponseArm(Envelope.CommandType.LoadedSources))
    case EvaluateResponse(_) => Some(ResponseArm(Envelope.CommandType.Evaluate))
    case SetExpressionResponse(_) => Some(ResponseArm(Envelope.CommandType.SetExpression))
    case StepInTargetsResponse(_) => Some(ResponseArm(Envelope.CommandType.StepInTargets))
    case GotoTargetsResponse(_) => Some(ResponseArm(Envelope.CommandType.GotoTargets))
    case CompletionsResponse(_) => Some(ResponseArm(Envelope.CommandType.Completions))
    case ExceptionInfoResponse(_) => Some(ResponseArm(Envelope.CommandType.ExceptionInfo))
    case ReadMemoryResponse(_) => Some(ResponseArm(Envelope.CommandType.ReadMemory))
    case WriteMemoryResponse(_) => Some(ResponseArm(Envelope.CommandType.WriteMemory))
    case DisassembleResponse(_) => Some(ResponseArm(Envelope.CommandType.Disassemble))
    case Response(_) => None
  }

  /**
   * The concrete event classes `serialize` can be given, one constructor per
   * class, and the bare `Event` itself. Classes that add no members of their
   * own hold only the header; classes that share a base hold that base.
   */
  datatype AnyEvent =
    | InitializedEvent(initializedEvent: Envelope.Event)
    | StoppedEvent(stoppedEvent: Events.StoppedEvent)
    | ContinuedEvent(continuedEvent: Events.ContinuedEvent)
    | ExitedEvent(exitedEvent: Events.ExitedEvent)
    | ThreadEvent(threadEvent: Events.ThreadEvent)
    | OutputEvent(outputEvent: Events.OutputEvent)
    | BreakpointEvent(breakpointEvent: Events.BreakpointEvent)
    | ModuleEvent(moduleEvent: Events.ModuleEvent)
    | LoadedSourceEvent(loadedSourceEvent: Events.LoadedSourceEvent)
    | ProcessEvent(processEvent: Events.ProcessEvent)
    | CapabilitiesEvent(capabilitiesEvent: Events.CapabilitiesEvent)
    | ProgressStartEvent(progressStartEvent: Events.ProgressStartEvent)
    | ProgressUpdateEvent(progressUpdateEvent: Events.ProgressUpdateEvent)
    | ProgressEndEvent(progressEndEvent: Events.ProgressEndEvent)
    | InvalidatedEvent(invalidatedEvent: Events.InvalidatedEvent)
    | MemoryEvent(memoryEvent: Events.MemoryEvent)
    | TerminatedEvent(terminatedEvent: Events.TerminatedEvent)
    | Event(event: Envelope.Event)

  /** The `Event` part of the message: its stored discriminants. */
  function EventHeader(q: AnyEvent): Envelope.Event {
    match q
    case InitializedEvent(p) => p
    case StoppedEvent(p) => p.header
    case ContinuedEvent(p) => p.header
    case ExitedEvent(p) => p.header
    case ThreadEvent(p) => p.header
    case OutputEvent(p) => p.header
    case BreakpointEvent(p) => p.header
    case ModuleEvent(p) => p.header
    case LoadedSourceEvent(p) => p.header
    case ProcessEvent(p) => p.header
    case CapabilitiesEvent(p) => p.header
    case ProgressStartEvent(p) => p.header
    case ProgressUpdateEvent(p) => p.header
    case ProgressEndEvent(p) => p.header
    case InvalidatedEvent(p) => p.header
    case MemoryEvent(p) => p.header
    case TerminatedEvent(p) => p.header
    case Event(p) => p
  }

  /** The arm of `serialize` that casts to the class: fixed by its constructor; none for the bare `Event`. */
  function EventArmOf(q: AnyEvent): Option<Arm> {
    match q
    case InitializedEvent(_) => Some(EventArm(Envelope.EventType.Initialized))
    case StoppedEvent(_) => Some(EventArm(Envelope.EventType.Stopped))
    case ContinuedEvent(_) => Some(EventArm(Envelope.EventType.Continued))
    case ExitedEvent(_) => Some(EventArm(Envelope.EventType.Exited))
    case ThreadEvent(_) => Some(EventArm(Envelope.EventType.Thread))
    case OutputEvent(_) => Some(EventArm(Envelope.EventType.Output))
    case BreakpointEvent(_) => Some(EventArm(Envelope.EventType.Breakpoint))
    case ModuleEvent(_) => Some(EventArm(Envelope.EventType.Module))
    case LoadedSourceEvent(_) => Some(EventArm(Envelope.EventType.LoadedSource))
    case ProcessEvent(_) => Some(EventArm(Envelope.EventType.Process))
    case CapabilitiesEvent(_) => Some(EventArm(Envelope.EventType.Capabilities))
    case ProgressStartEvent(_) => Some(EventArm(Envelope.EventType.ProgressStart))
    case ProgressUpdateEvent(_) => Some(EventArm(Envelope.EventType.ProgressUpdate))
    case ProgressEndEvent(_) => Some(EventArm(Envelope.EventType.ProgressEnd))
    case InvalidatedEvent(_) => Some(EventArm(Envelope.EventType.Invalidated))
    case MemoryEvent(_) => Some(EventArm(Envelope.EventType.Memory))
    case TerminatedEvent(_) => Some(EventArm(Envelope.EventType.Terminated))
    case Event(_) => None
  }

  /** The request arms of `serialize`: each class through its own codec; the bare `Request` has none. */
  function SerializeRequest(q: AnyRequest): Result<Option<Json>> {
    match q
    case CancelRequest(p) => Written(Requests.EncodeCancelRequest(p))
    case RunInTerminalRequest(p) => Written(Requests.EncodeRunInTerminalRequest(p))
    case InitializeRequest(p) => Written(Requests.EncodeInitializeRequest(p))
    case ConfigurationDoneRequest(p) => Written(Envelope.EncodeRequest(p))
    case LaunchRequest(p) => Written(Requests.EncodeLaunchRequest(p))
    case AttachRequest(p) => Written(Requests.EncodeAttachRequest(p))
    case RestartRequest(p) => Written(Requests.EncodeRestartRequest(p))
    case DisconnectRequest(p) => Written(Requests.EncodeDisconnectRequest(p))
    case TerminateRequest(p) => Written(Requests.EncodeTerminateRequest(p))
    case BreakpointLocationsRequest(p) => Written(Requests.EncodeBreakpointLocationsRequest(p))
    case SetBreakpointsRequest(p) => Written(Requests.EncodeSetBreakpointsRequest(p))
    case SetFunctionBreakpointsRequest(p) => Written(Requests.EncodeSetFunctionBreakpointsRequest(p))
    case SetExceptionBreakpointsRequest(p) => Written(Requests.EncodeSetExceptionBreakpointsRequest(p))
    case DataBreakpointInfoRequest(p) => Written(Requests.EncodeDataBreakpointInfoRequest(p))
    case SetDataBreakpointsRequest(p) => Written(Requests.EncodeSetDataBreakpointsRequest(p))
    case SetInstructionBreakpointsRequest(p) => Written(Requests.EncodeSetInstructionBreakpointsRequest(p))
    case ContinueRequest(p) => Written(Requests.EncodeContinueBaseRequest(p))
    case NextRequest(p) => Written(Requests.EncodeNextBaseRequest(p))
    case StepInRequest(p) => Written(Requests.EncodeStepInRequest(p))
    case StepOutRequest(p) => Written(Requests.EncodeNextBaseRequest(p))
    case StepBackRequest(p) => Written(Requests.EncodeNextBaseRequest(p))
    case ReverseContinueRequest(p) => Written(Requests.EncodeContinueBaseRequest(p))
    case RestartFrameRequest(p) => Written(Requests.EncodeRestartFrameBaseRequest(p))
    case GotoRequest(p) => Written(Requests.EncodeGotoRequest(p))
    case PauseRequest(p) => Written(Requests.EncodePauseBaseRequest(p))
    case StackTraceRequest(p) => Written(Requests.EncodeStackTraceRequest(p))
    case ScopesRequest(p) => Written(Requests.EncodeRestartFrameBaseRequest(p))
    case VariablesRequest(p) => Written(Requests.EncodeVariablesRequest(p))
    case SetVariableRequest(p) => Written(Requests.EncodeSetVariableRequest(p))
    case SourceRequest(p) => Written(Requests.EncodeSourceRequest(p))
    case ThreadsRequest(p) => Written(Envelope.EncodeRequest(p))
    case TerminateThreadsRequest(p) => Written(Requests.EncodeTerminateThreadsRequest(p))
    case ModulesRequest(p) => Written(Requests.EncodeModulesRequest(p))
    case LoadedSourcesRequest(p) => Written(Envelope.EncodeRequest(p))
    case EvaluateRequest(p) => Written(Requests.EncodeEvaluateRequest(p))
    case SetExpressionRequest(p) => Written(Requests.EncodeSetExpressionRequest(p))
    case StepInTargetsRequest(p) => Written(Requests.EncodeStepInTargetsRequest(p))
    case GotoTargetsRequest(p) => Written(Requests.EncodeGotoTargetsRequest(p))
    case CompletionsRequest(p) => Written(Requests.EncodeCompletionsRequest(p))
    case ExceptionInfoRequest(p) => Written(Requests.EncodePauseBaseRequest(p))
    case ReadMemoryRequest(p) => Written(Requests.EncodeReadMemoryRequest(p))
    case WriteMemoryRequest(p) => Written(Requests.EncodeWriteMemoryRequest(p))
    case DisassembleRequest(p) => Written(Requests.EncodeDisassembleRequest(p))
    case Request(_) => Ok(None)
  }

  /** The response arms of `serialize`: ErrorResponse for a failure, else the class of the command; the bare `Response` has none. */
  function SerializeResponse(q: AnyResponse): Result<Option<Json>> {
    match q
    case ErrorResponse(p) => Written(Envelope.EncodeErrorResponse(p))
    case CancelResponse(p) => Written(Envelope.EncodeResponse(p))
    case RunInTerminalResponse(p) => Written(Responses.EncodeRunInTerminalResponse(p))
    case InitializeResponse(p) => Written(Responses.EncodeInitializeResponse(p))
    case ConfigurationDoneResponse(p) => Written(Envelope.EncodeResponse(p))
    case LaunchResponse(p) => Written(Envelope.EncodeResponse(p))
    case AttachResponse(p) => Written(Envelope.EncodeResponse(p))
    case RestartResponse(p) => Written(Envelope.EncodeResponse(p))
    case DisconnectResponse(p) => Written(Envelope.EncodeResponse(p))
    case TerminateResponse(p) => Written(Envelope.EncodeResponse(p))
    case BreakpointLocationsResponse(p) => Written(Responses.EncodeBreakpointLocationsResponse(p))
    case SetBreakpointsResponse(p) => Written(Responses.EncodeSetBreakpointsResponse(p))
    case SetFunctionBreakpointsResponse(p) => Written(Responses.EncodeSetFunctionBreakpointsBaseResponse(p))
    case SetExceptionBreakpointsResponse(p) => Written(Responses.EncodeSetExceptionBreakpointsResponse(p))
    case DataBreakpointInfoResponse(p) => Written(Responses.EncodeDataBreakpointInfoResponse(p))
    case SetDataBreakpointsResponse(p) => Written(Responses.EncodeSetFunctionBreakpointsBaseResponse(p))
    case SetInstructionBreakpointsResponse(p) => Written(Responses.EncodeSetFunctionBreakpointsBaseResponse(p))
    case ContinueResponse(p) => Written(Responses.EncodeContinueResponse(p))
    case NextResponse(p) => Written(Envelope.EncodeResponse(p))
    case StepInResponse(p) => Written(Envelope.EncodeResponse(p))
    case StepOutResponse(p) => Written(Envelope.EncodeResponse(p))
    case StepBackResponse(p) => Written(Envelope.EncodeResponse(p))
    case ReverseContinueResponse(p) => Written(Envelope.EncodeResponse(p))
    case RestartFrameResponse(p) => Written(Envelope.EncodeResponse(p))
    case GotoResponse(p) => Written(Envelope.EncodeResponse(p))
    case PauseResponse(p) => Written(Envelope.EncodeResponse(p))
    case StackTraceResponse(p) => Written(Responses.EncodeStackTraceResponse(p))
    case ScopesResponse(p) => Written(Responses.EncodeScopesResponse(p))
    case VariablesResponse(p) => Written(Responses.EncodeVariablesResponse(p))
    case SetVariableResponse(p) => Written(Responses.EncodeSetVariableResponse(p))
    case SourceResponse(p) => Written(Responses.EncodeSourceResponse(p))
    case ThreadsResponse(p) => Written(Responses.EncodeThreadsResponse(p))
    case TerminateThreadsResponse(p) => Written(Envelope.EncodeResponse(p))
    case ModulesResponse(p) => Written(Responses.EncodeModulesResponse(p))
    case LoadedSourcesResponse(p) => Written(Responses.EncodeLoadedSourcesResponse(p))
    case EvaluateResponse(p) => Written(Responses.EncodeEvaluateResponse(p))
    case SetExpressionResponse(p) => Written(Responses.EncodeSetExpressionResponse(p))
    case StepInTargetsResponse(p) => Written(Responses.EncodeStepInTargetsResponse(p))
    case GotoTargetsResponse(p) => Written(Responses.EncodeGotoTargetsResponse(p))
    case CompletionsResponse(p) => Written(Responses.EncodeCompletionsResponse(p))
    case ExceptionInfoResponse(p) => Written(Responses.EncodeExceptionInfoResponse(p))
    case ReadMemoryResponse(p) => Written(Responses.EncodeReadMemoryResponse(p))
    case WriteMemoryResponse(p) => Written(Responses.EncodeWriteMemoryResponse(p))
    case DisassembleResponse(p) => Written(Responses.EncodeDisassembleResponse(p))
    case Response(_) => Ok(None)
  }

  /** The event arms of `serialize`: each class through its own codec; the bare `Event` has none. */
  function SerializeEvent(q: AnyEvent): Result<Option<Json>> {
    match q
    case InitializedEvent(p) => Written(Envelope.EncodeEvent(p))
    case StoppedEvent(p) => Written(Events.EncodeStoppedEvent(p))
    case ContinuedEvent(p) => Written(Events.EncodeContinuedEvent(p))
    case ExitedEvent(p) => Written(Events.EncodeExitedEvent(p))
    case ThreadEvent(p) => Written(Events.EncodeThreadEvent(p))
    case OutputEvent(p) => Written(Events.EncodeOutputEvent(p))
    case BreakpointEvent(p) => Written(Events.EncodeBreakpointEvent(p))
    case ModuleEvent(p) => Written(Events.EncodeModuleEvent(p))
    case LoadedSourceEvent(p) => Written(Events.EncodeLoadedSourceEvent(p))
    case ProcessEvent(p) => Written(Events.EncodeProcessEvent(p))
    case CapabilitiesEvent(p) => Written(Events.EncodeCapabilitiesEvent(p))
    case ProgressStartEvent(p) => Written(Events.EncodeProgressStartEvent(p))
    case ProgressUpdateEvent(p) => Written(Events.EncodeProgressUpdateEvent(p))
    case ProgressEndEvent(p) => Written(Events.EncodeProgressEndEvent(p))
    case InvalidatedEvent(p) => Written(Events.EncodeInvalidatedEvent(p))
    case MemoryEvent(p) => Written(Events.EncodeMemoryEvent(p))
    case TerminatedEvent(p) => Written(Events.EncodeTerminatedEvent(p))
    case Event(_) => Ok(None)
  }


  /** A message handed to `serialize`: a request, a response or an event. */
  datatype Message =
    | RequestMessage(request: AnyRequest)
    | ResponseMessage(response: AnyResponse)
    | EventMessage(event: AnyEvent)

  /** The stored discriminants of a message. */
  function Disc(m: Message): Discriminants {
    match m
    case RequestMessage(q) => RequestOf(RequestHeader(q).command)
    case ResponseMessage(q) => ResponseOf(ResponseHeader(q).command, ResponseHeader(q).success)
    case EventMessage(q) => EventOf(EventHeader(q).event)
  }

  /** The stored `type` of a message. */
  function TypeOf(m: Message): Envelope.MessageType {
    match m
    case RequestMessage(q) => RequestHeader(q).base.type_
    case ResponseMessage(q) => ResponseHeader(q).base.type_
    case EventMessage(q) => EventHeader(q).base.type_
  }

  /** The arm whose cast names the message's own class. */
  function ArmOf(m: Message): (r: Option<Arm>)
    ensures r.Some? ==> Reachable(r.value)
  {
    match m
    case RequestMessage(q) => RequestArmOf(q)
    case ResponseMessage(q) => ResponseArmOf(q)
    case EventMessage(q) => EventArmOf(q)
  }

  /**
   * The casts in `serialize` are valid: the stored type is the one of the
   * message's header class, and the arm the discriminants select is the
   * one for the message's own class (or none, for a bare header whose
   * command or event is a sentinel).
   */
  predicate Consistent(m: Message) {
    TypeOf(m) == KindOf(Disc(m)) && Route(Disc(m)) == ArmOf(m)
  }

  /**
   * What the default constructors give: the header class fixes `type`,
   * the class fixes its command or event, a successful response sets
   * `success` and ErrorResponse clears it. A bare header may hold any.
   */
  predicate AsConstructed(m: Message) {
    TypeOf(m) == KindOf(Disc(m)) &&
    match ArmOf(m)
    case None => true
    case Some(RequestArm(command)) => Disc(m) == RequestOf(command)
    case Some(ResponseArm(command)) => Disc(m) == ResponseOf(command, true)
    case Some(ErrorResponseArm) => Disc(m).ResponseOf? && !Disc(m).success
    case Some(EventArm(event)) => Disc(m) == EventOf(event)
  }

  /** A concrete message as its constructor leaves it is one `serialize` can cast. */
  lemma AsConstructedIsConsistent(m: Message)
    requires AsConstructed(m) && ArmOf(m).Some?
    ensures Consistent(m)
  {
    var a := ArmOf(m).value;
    assert Reachable(a);
    match a
    case RequestArm(command) =>
    case ResponseArm(command) =>
    case ErrorResponseArm =>
    case EventArm(event) =>
  }

  /** The discriminants a reader finds in a written message: `type`, then the members of that header. */
  function ReadDiscriminants(j: Json): (r: Result<Discriminants>)
    ensures r.Ok? ==> Envelope.DecodeProtocolMessage(j).Ok? && KindOf(r.value) == Envelope.DecodeProtocolMessage(j).value.type_
  {
    var base :- Envelope.DecodeProtocolMessage(j);
    match base.type_
    case Request => var h :- Envelope.DecodeRequest(j); Ok(RequestOf(h.command))
    case Response => var h :- Envelope.DecodeResponse(j); Ok(ResponseOf(h.command, h.success))
    case Event => var h :- Envelope.DecodeEvent(j); Ok(EventOf(h.event))
  }

  /** A codec's result as `serialize` returns it: the written value, or the codec's exception. */
  function Written(r: Result<Json>): Result<Option<Json>> {
    match r
    case Ok(j) => Ok(Some(j))
    case Fail(e) => Fail(e)
  }

  /**
   * `serialize`: the arm the discriminants select, which for a message
   * whose casts are valid is the codec of its own class; nothing where
   * no arm matches.
   */
  function Serialize(m: Message): (r: Result<Option<Json>>)
    requires Consistent(m)
    ensures r == Ok(None) <==> Route(Disc(m)).None?
    ensures r.Fail? <==> !Writable(m)
    ensures r.Ok? && r.value.Some? ==> HeaderReads(m, r.value.value)
  {
    match m
    case RequestMessage(q) => SerializeRequestWrites(q); SerializeRequestHeader(q); SerializeRequest(q)
    case ResponseMessage(q) => SerializeResponseWrites(q); SerializeResponseHeader(q); SerializeResponse(q)
    case EventMessage(q) => SerializeEventWrites(q); SerializeEventHeader(q); SerializeEvent(q)
  }

  /** The codec of the message's class does not throw; a bare header has no codec to throw. */
  predicate Writable(m: Message) {
    match m
    case RequestMessage(q) => q.Request? || RequestWritable(q)
    case ResponseMessage(q) => q.Response? || ResponseHeader(q).command !in Envelope.CommandTypeUnwritable
    case EventMessage(q) => q.Event? || EventHeader(q).event !in Envelope.EventTypeUnwritable
  }

  /** `j` carries the header of `m`, as the header decoder of its kind reads it. */
  predicate HeaderReads(m: Message, j: Json) {
    match m
    case RequestMessage(q) => Envelope.DecodeRequest(j) == Ok(RequestHeader(q))
    case ResponseMessage(q) => Envelope.DecodeResponse(j) == Ok(ResponseHeader(q))
    case EventMessage(q) => Envelope.DecodeEvent(j) == Ok(EventHeader(q))
  }

  /**
   * What a class codec writes selects that class again: a value carrying
   * the header of a message whose casts are valid reads back as the same
   * discriminants, and those route to the message's own arm.
   */
  lemma DiscriminantsSurvive(m: Message, j: Json)
    requires Consistent(m) && HeaderReads(m, j)
    ensures ReadDiscriminants(j) == Ok(Disc(m))
    ensures Route(ReadDiscriminants(j).value) == ArmOf(m)
  {
  }

  /**
   * The request arm writes: the codec of the class fails exactly when the
   * command has no string, or when a launch or attach request overlays a
   * member on `arguments` that are neither null nor an object.
   */
  predicate RequestWritable(q: AnyRequest) {
    RequestHeader(q).command !in Envelope.CommandTypeUnwritable &&
    match q
    case LaunchRequest(p) => p.arguments.Null? || p.arguments.Obj? || (p.noDebug.None? && p.restartData.None?)
    case AttachRequest(p) => p.arguments.Null? || p.arguments.Obj? || p.restartData.None?
    case _ => true
  }

  /**
   * What `serialize` writes selects the message's own class again: the
   * discriminants read back from it are the stored ones, and they route
   * to the arm of the message's class.
   */
  lemma SerializeSelectsOwnArm(m: Message)
    requires Consistent(m) && Serialize(m).Ok? && Serialize(m).value.Some?
    ensures ReadDiscriminants(Serialize(m).value.value) == Ok(Disc(m))
    ensures Route(Disc(m)) == ArmOf(m) && ArmOf(m).Some?
  {
    DiscriminantsSurvive(m, Serialize(m).value.value);
  }

  /** The request arms: the bare `Request` writes nothing; every class writes exactly when it is writable. */
  lemma SerializeRequestWrites(q: AnyRequest)
    ensures q.Request? ==> SerializeRequest(q) == Ok(None)
    ensures !q.Request? ==> (SerializeRequest(q).Ok? <==> RequestWritable(q))
  {
  }

  /** The request arms: what a class writes carries its header, as the `Request` decoder reads it. */
  lemma SerializeRequestHeader(q: AnyRequest)
    ensures !q.Request? && SerializeRequest(q).Ok? ==>
      SerializeRequest(q).value.Some? && Envelope.DecodeRequest(SerializeRequest(q).value.value) == Ok(RequestHeader(q))
  {
  }

  /** The response arms: the bare `Response` writes nothing; every class writes exactly when its command has a string. */
  lemma SerializeResponseWrites(q: AnyResponse)
    ensures q.Response? ==> SerializeResponse(q) == Ok(None)
    ensures !q.Response? ==> (SerializeResponse(q).Ok? <==> ResponseHeader(q).command !in Envelope.CommandTypeUnwritable)
  {
  }

  /** The response arms: what a class writes carries its header, as the `Response` decoder reads it. */
  lemma SerializeResponseHeader(q: AnyResponse)
    ensures !q.Response? && SerializeResponse(q).Ok? ==>
      SerializeResponse(q).value.Some? && Envelope.DecodeResponse(SerializeResponse(q).value.value) == Ok(ResponseHeader(q))
  {
  }

  /** The event arms: the bare `Event` writes nothing; every class writes exactly when its event has a string. */
  lemma SerializeEventWrites(q: AnyEvent)
    ensures q.Event? ==> SerializeEvent(q) == Ok(None)
    ensures !q.Event? ==> (SerializeEvent(q).Ok? <==> EventHeader(q).event !in Envelope.EventTypeUnwritable)
  {
  }

  /** The event arms: what a class writes carries its header, as the `Event` decoder reads it. */
  lemma SerializeEventHeader(q: AnyEvent)
    ensures !q.Event? && SerializeEvent(q).Ok? ==>
      SerializeEvent(q).value.Some? && Envelope.DecodeEvent(SerializeEvent(q).value.value) == Ok(EventHeader(q))
  {
  }
}
