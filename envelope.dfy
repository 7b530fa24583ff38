/**
 * The envelope of every protocol message: the message, command and event
 * type tables, and the ProtocolMessage, Request, Event, Response and
 * ErrorResponse headers that every concrete message extends.
 */
module Envelope {
  import opened Json
  import opened Codec

  /** `MessageType`: each constructor travels as one fixed string. */
  datatype MessageType = Request | Response | Event

  /** The strings `MessageType` decodes. */
  const MessageTypeNames: set<string> := {"request", "response", "event"}

  function EncodeMessageType(e: MessageType): (j: Json)
    ensures j.Str? && j.s in MessageTypeNames
    ensures DecodeMessageType(j) == Ok(e)
  {
    match e
    case Request => Str("request")
    case Response => Str("response")
    case Event => Str("event")
  }

  function DecodeMessageType(j: Json): (r: Result<MessageType>)
    ensures r.Ok? <==> j.Str? && j.s in MessageTypeNames
    ensures !j.Str? ==> r == Fail(TypeError("string"))
    ensures j.Str? && r.Fail? ==> r == Fail(Unknown("MessageType"))
  {
    var s :- GetString(j);
    if s == "request" then Ok(MessageType.Request)
    else if s == "response" then Ok(MessageType.Response)
    else if s == "event" then Ok(MessageType.Event)
    else Fail(Unknown("MessageType"))
  }

  datatype CommandType = Cancel | RunInTerminal | Initialize | ConfigurationDone | Launch | Attach | Restart | Disconnect | Terminate | BreakpointLocations | SetBreakpoints | SetFunctionBreakpoints | SetExceptionBreakpoints | DataBreakpointInfo | SetDataBreakpoints | SetInstructionBreakpoints | Continue | Next | StepIn | StepOut | StepBack | ReverseContinue | RestartFrame | Goto | Pause | StackTrace | Scopes | Variables | SetVariable | Source | Threads | TerminateThreads | Modules | LoadedSources | Evaluate | SetExpression | StepInTargets | GotoTargets | Completions | ExceptionInfo | ReadMemory | WriteMemory | Disassemble | CommandMax

  /** The constructors the `CommandType` table has no string for. */
  const CommandTypeUnwritable: set<CommandType> := {CommandType.SetExceptionBreakpoints, CommandType.DataBreakpointInfo, CommandType.SetDataBreakpoints, CommandType.SetInstructionBreakpoints, CommandType.CommandMax}

  function EncodeCommandType(e: CommandType): (r: Result<Json>)
    ensures r.Fail? <==> e in CommandTypeUnwritable
    ensures r.Fail? ==> r.error == Unknown("CommandType")
    ensures r.Ok? ==> r.value.Str?
  {
    match e
    case Cancel => Ok(Str("cancel"))
    case RunInTerminal => Ok(Str("runInTerminal"))
    case Initialize => Ok(Str("initialize"))
    case ConfigurationDone => Ok(Str("configurationDone"))
    case Launch => Ok(Str("launch"))
    case Attach => Ok(Str("attach"))
    case Restart => Ok(Str("restart"))
    case Disconnect => Ok(Str("disconnect"))
    case Terminate => Ok(Str("terminate"))
    case BreakpointLocations => Ok(Str("breakpointLocations"))
    case SetBreakpoints => Ok(Str("setBreakpoints"))
    case SetFunctionBreakpoints => Ok(Str("setFunctionBreakpoints"))
    case Continue => Ok(Str("continue"))
    case Next => Ok(Str("next"))
    case StepIn => Ok(Str("stepIn"))
    case StepOut => Ok(Str("stepOut"))
    case StepBack => Ok(Str("stepBack"))
    case ReverseContinue => Ok(Str("reverseContinue"))
    case RestartFrame => Ok(Str("restartFrame"))
    case Goto => Ok(Str("goto"))
    case Pause => Ok(Str("pause"))
    case StackTrace => Ok(Str("stackTrace"))
    case Scopes => Ok(Str("scopes"))
    case Variables => Ok(Str("variables"))
    case SetVariable => Ok(Str("setVariable"))
    case Source => Ok(Str("source"))
    case Threads => Ok(Str("threads"))
    case TerminateThreads => Ok(Str("terminateThreads"))
    case Modules => Ok(Str("modules"))
    case LoadedSources => Ok(Str("loadedSources"))
    case Evaluate => Ok(Str("evaluate"))
    case SetExpression => Ok(Str("setExpression"))
    case StepInTargets => Ok(Str("stepInTargets"))
    case GotoTargets => Ok(Str("gotoTargets"))
    case Completions => Ok(Str("completions"))
    case ExceptionInfo => Ok(Str("exceptionInfo"))
    case ReadMemory => Ok(Str("readMemory"))
    case WriteMemory => Ok(Str("writeMemory"))
    case Disassemble => Ok(Str("disassemble"))
    case _ => Fail(Unknown("CommandType"))
  }

  /**
   * `from_json`: the chain of string comparisons, with the strings grouped
   * by their first character, and a large group by its second (strings that
   * differ there are different, so the outcome is that of the chain);
   * anything else is unknown.
   */
  function DecodeCommandType(j: Json): (r: Result<CommandType>)
    ensures !j.Str? ==> r == Fail(TypeError("string"))
    ensures j.Str? && r.Fail? ==> r == Fail(Unknown("CommandType"))
  {
    var s :- GetString(j);
    if |s| == 0 then Fail(Unknown("CommandType"))
    else match s[0]
    case 'c' =>
      if s == "cancel" then Ok(CommandType.Cancel) else if s == "configurationDone" then Ok(CommandType.ConfigurationDone) else if s == "continue" then Ok(CommandType.Continue) else if s == "completions" then Ok(CommandType.Completions) else Fail(Unknown("CommandType"))
    case 'r' =>
      if s == "runInTerminal" then Ok(CommandType.RunInTerminal) else if s == "restart" then Ok(CommandType.Restart) else if s == "reverseContinue" then Ok(CommandType.ReverseContinue) else if s == "restartFrame" then Ok(CommandType.RestartFrame) else if s == "readMemory" then Ok(CommandType.ReadMemory) else Fail(Unknown("CommandType"))
    case 'i' =>
      if s == "initialize" then Ok(CommandType.Initialize) else Fail(Unknown("CommandType"))
    case 'l' =>
      if s == "launch" then Ok(CommandType.Launch) else if s == "loadedSources" then Ok(CommandType.LoadedSources) else Fail(Unknown("CommandType"))
    case 'a' =>
      if s == "attach" then Ok(CommandType.Attach) else Fail(Unknown("CommandType"))
    case 'd' =>
      if s == "disconnect" then Ok(CommandType.Disconnect) else if s == "disassemble" then Ok(CommandType.Disassemble) else Fail(Unknown("CommandType"))
    case 't' =>
      if s == "terminate" then Ok(CommandType.Terminate) else if s == "threads" then Ok(CommandType.Threads) else if s == "terminateThreads" then Ok(CommandType.TerminateThreads) else Fail(Unknown("CommandType"))
    case 'b' =>
      if s == "breakpointLocations" then Ok(CommandType.BreakpointLocations) else Fail(Unknown("CommandType"))
    case 's' =>
      if |s| <= 1 then Fail(Unknown("CommandType"))
      else (match s[1]
      case 'e' =>
        if s == "setBreakpoints" then Ok(CommandType.SetBreakpoints) else if s == "setFunctionBreakpoints" then Ok(CommandType.SetFunctionBreakpoints) else if s == "setVariable" then Ok(CommandType.SetVariable) else if s == "setExpression" then Ok(CommandType.SetExpression) else Fail(Unknown("CommandType"))
      case 't' =>
        if s == "stepIn" then Ok(CommandType.StepIn) else if s == "stepOut" then Ok(CommandType.StepOut) else if s == "stepBack" then Ok(CommandType.StepBack) else if s == "stackTrace" then Ok(CommandType.StackTrace) else if s == "stepInTargets" then Ok(CommandType.StepInTargets) else Fail(Unknown("CommandType"))
      case 'c' =>
        if s == "scopes" then Ok(CommandType.Scopes) else Fail(Unknown("CommandType"))
      case 'o' =>
        if s == "source" then Ok(CommandType.Source) else Fail(Unknown("CommandType"))
      case _ => Fail(Unknown("CommandType")))
    case 'n' =>
      if s == "next" then Ok(CommandType.Next) else Fail(Unknown("CommandType"))
    case 'g' =>
      if s == "goto" then Ok(CommandType.Goto) else if s == "gotoTargets" then Ok(CommandType.GotoTargets) else Fail(Unknown("CommandType"))
    case 'p' =>
      if s == "pause" then Ok(CommandType.Pause) else Fail(Unknown("CommandType"))
    case 'v' =>
      if s == "variables" then Ok(CommandType.Variables) else Fail(Unknown("CommandType"))
    case 'm' =>
      if s == "modules" then Ok(CommandType.Modules) else Fail(Unknown("CommandType"))
    case 'e' =>
      if s == "evaluate" then Ok(CommandType.Evaluate) else if s == "exceptionInfo" then Ok(CommandType.ExceptionInfo) else Fail(Unknown("CommandType"))
    case 'w' =>
      if s == "writeMemory" then Ok(CommandType.WriteMemory) else Fail(Unknown("CommandType"))
    case _ => Fail(Unknown("CommandType"))
  }

  /** The constructors whose string starts with `c` survive the trip. */
  lemma CommandTypeRoundTripC(e: CommandType)
    requires e in {CommandType.Cancel, CommandType.ConfigurationDone, CommandType.Continue, CommandType.Completions}
    ensures DecodeCommandType(EncodeCommandType(e).value) == Ok(e)
  {
  }

  /** The constructors whose string starts with `r` survive the trip. */
  lemma CommandTypeRoundTripR(e: CommandType)
    requires e in {CommandType.RunInTerminal, CommandType.Restart, CommandType.ReverseContinue, CommandType.RestartFrame, CommandType.ReadMemory}
    ensures DecodeCommandType(EncodeCommandType(e).value) == Ok(e)
  {
  }

  /** The constructors whose string starts with `i` survive the trip. */
  lemma CommandTypeRoundTripI(e: CommandType)
    requires e in {CommandType.Initialize}
    ensures DecodeCommandType(EncodeCommandType(e).value) == Ok(e)
  {
  }

  /** The constructors whose string starts with `l` survive the trip. */
  lemma CommandTypeRoundTripL(e: CommandType)
    requires e in {CommandType.Launch, CommandType.LoadedSources}
    ensures DecodeCommandType(EncodeCommandType(e).value) == Ok(e)
  {
  }

  /** The constructors whose string starts with `a` survive the trip. */
  lemma CommandTypeRoundTripA(e: CommandType)
    requires e in {CommandType.Attach}
    ensures DecodeCommandType(EncodeCommandType(e).value) == Ok(e)
  {
  }

  /** The constructors whose string starts with `d` survive the trip. */
  lemma CommandTypeRoundTripD(e: CommandType)
    requires e in {CommandType.Disconnect, CommandType.Disassemble}
    ensures DecodeCommandType(EncodeCommandType(e).value) == Ok(e)
  {
  }

  /** The constructors whose string starts with `t` survive the trip. */
  lemma CommandTypeRoundTripT(e: CommandType)
    requires e in {CommandType.Terminate, CommandType.Threads, CommandType.TerminateThreads}
    ensures DecodeCommandType(EncodeCommandType(e).value) == Ok(e)
  {
  }

  /** The constructors whose string starts with `b` survive the trip. */
  lemma CommandTypeRoundTripB(e: CommandType)
    requires e in {CommandType.BreakpointLocations}
    ensures DecodeCommandType(EncodeCommandType(e).value) == Ok(e)
  {
  }

  /** The constructors whose string starts with `se` survive the trip. */
  lemma CommandTypeRoundTripSe(e: CommandType)
    requires e in {CommandType.SetBreakpoints, CommandType.SetFunctionBreakpoints, CommandType.SetVariable, CommandType.SetExpression}
    ensures DecodeCommandType(EncodeCommandType(e).value) == Ok(e)
  {
  }

  /** The constructors whose string starts with `st` survive the trip. */
  lemma CommandTypeRoundTripSt(e: CommandType)
    requires e in {CommandType.StepIn, CommandType.StepOut, CommandType.StepBack, CommandType.StackTrace, CommandType.StepInTargets}
    ensures DecodeCommandType(EncodeCommandType(e).value) == Ok(e)
  {
  }

  /** The constructors whose string starts with `sc` survive the trip. */
  lemma CommandTypeRoundTripSc(e: CommandType)
    requires e in {CommandType.Scopes}
    ensures DecodeCommandType(EncodeCommandType(e).value) == Ok(e)
  {
  }

  /** The constructors whose string starts with `so` survive the trip. */
  lemma CommandTypeRoundTripSo(e: CommandType)
    requires e in {CommandType.Source}
    ensures DecodeCommandType(EncodeCommandType(e).value) == Ok(e)
  {
  }

  /** The constructors whose string starts with `n` survive the trip. */
  lemma CommandTypeRoundTripN(e: CommandType)
    requires e in {CommandType.Next}
    ensures DecodeCommandType(EncodeCommandType(e).value) == Ok(e)
  {
  }

  /** The constructors whose string starts with `g` survive the trip. */
  lemma CommandTypeRoundTripG(e: CommandType)
    requires e in {CommandType.Goto, CommandType.GotoTargets}
    ensures DecodeCommandType(EncodeCommandType(e).value) == Ok(e)
  {
  }

  /** The constructors whose string starts with `p` survive the trip. */
  lemma CommandTypeRoundTripP(e: CommandType)
    requires e in {CommandType.Pause}
    ensures DecodeCommandType(EncodeCommandType(e).value) == Ok(e)
  {
  }

  /** The constructors whose string starts with `v` survive the trip. */
  lemma CommandTypeRoundTripV(e: CommandType)
    requires e in {CommandType.Variables}
    ensures DecodeCommandType(EncodeCommandType(e).value) == Ok(e)
  {
  }

  /** The constructors whose string starts with `m` survive the trip. */
  lemma CommandTypeRoundTripM(e: CommandType)
    requires e in {CommandType.Modules}
    ensures DecodeCommandType(EncodeCommandType(e).value) == Ok(e)
  {
  }

  /** The constructors whose string starts with `e` survive the trip. */
  lemma CommandTypeRoundTripE(e: CommandType)
    requires e in {CommandType.Evaluate, CommandType.ExceptionInfo}
    ensures DecodeCommandType(EncodeCommandType(e).value) == Ok(e)
  {
  }

  /** The constructors whose string starts with `w` survive the trip. */
  lemma CommandTypeRoundTripW(e: CommandType)
    requires e in {CommandType.WriteMemory}
    ensures DecodeCommandType(EncodeCommandType(e).value) == Ok(e)
  {
  }

  /** Every constructor with a string survives the trip through it. */
  lemma CommandTypeRoundTrip(e: CommandType)
    requires e !in CommandTypeUnwritable
    ensures EncodeCommandType(e).Ok? && DecodeCommandType(EncodeCommandType(e).value) == Ok(e)
  {
    if e in {CommandType.Cancel, CommandType.ConfigurationDone, CommandType.Continue, CommandType.Completions} {
      CommandTypeRoundTripC(e);
    } else if e in {CommandType.RunInTerminal, CommandType.Restart, CommandType.ReverseContinue, CommandType.RestartFrame, CommandType.ReadMemory} {
      CommandTypeRoundTripR(e);
    } else if e in {CommandType.Initialize} {
      CommandTypeRoundTripI(e);
    } else if e in {CommandType.Launch, CommandType.LoadedSources} {
      CommandTypeRoundTripL(e);
    } else if e in {CommandType.Attach} {
      CommandTypeRoundTripA(e);
    } else if e in {CommandType.Disconnect, CommandType.Disassemble} {
      CommandTypeRoundTripD(e);
    } else if e in {CommandType.Terminate, CommandType.Threads, CommandType.TerminateThreads} {
      CommandTypeRoundTripT(e);
    } else if e in {CommandType.BreakpointLocations} {
      CommandTypeRoundTripB(e);
    } else if e in {CommandType.SetBreakpoints, CommandType.SetFunctionBreakpoints, CommandType.SetVariable, CommandType.SetExpression} {
      CommandTypeRoundTripSe(e);
    } else if e in {CommandType.StepIn, CommandType.StepOut, CommandType.StepBack, CommandType.StackTrace, CommandType.StepInTargets} {
      CommandTypeRoundTripSt(e);
    } else if e in {CommandType.Scopes} {
      CommandTypeRoundTripSc(e);
    } else if e in {CommandType.Source} {
      CommandTypeRoundTripSo(e);
    } else if e in {CommandType.Next} {
      CommandTypeRoundTripN(e);
    } else if e in {CommandType.Goto, CommandType.GotoTargets} {
      CommandTypeRoundTripG(e);
    } else if e in {CommandType.Pause} {
      CommandTypeRoundTripP(e);
    } else if e in {CommandType.Variables} {
      CommandTypeRoundTripV(e);
    } else if e in {CommandType.Modules} {
      CommandTypeRoundTripM(e);
    } else if e in {CommandType.Evaluate, CommandType.ExceptionInfo} {
      CommandTypeRoundTripE(e);
    } else {
      CommandTypeRoundTripW(e);
    }
  }

  /** A string starting with `c` decodes only if it is the one the encoder writes. */
  lemma CommandTypeDecodeStrictC(j: Json)
    requires j.Str? && |j.s| >= 1 && j.s[0] == 'c'
    ensures DecodeCommandType(j).Ok? ==> EncodeCommandType(DecodeCommandType(j).value) == Ok(j)
  {
  }

  /** A string starting with `r` decodes only if it is the one the encoder writes. */
  lemma CommandTypeDecodeStrictR(j: Json)
    requires j.Str? && |j.s| >= 1 && j.s[0] == 'r'
    ensures DecodeCommandType(j).Ok? ==> EncodeCommandType(DecodeCommandType(j).value) == Ok(j)
  {
  }

  /** A string starting with `i` decodes only if it is the one the encoder writes. */
  lemma CommandTypeDecodeStrictI(j: Json)
    requires j.Str? && |j.s| >= 1 && j.s[0] == 'i'
    ensures DecodeCommandType(j).Ok? ==> EncodeCommandType(DecodeCommandType(j).value) == Ok(j)
  {
  }

  /** A string starting with `l` decodes only if it is the one the encoder writes. */
  lemma CommandTypeDecodeStrictL(j: Json)
    requires j.Str? && |j.s| >= 1 && j.s[0] == 'l'
    ensures DecodeCommandType(j).Ok? ==> EncodeCommandType(DecodeCommandType(j).value) == Ok(j)
  {
  }

  /** A string starting with `a` decodes only if it is the one the encoder writes. */
  lemma CommandTypeDecodeStrictA(j: Json)
    requires j.Str? && |j.s| >= 1 && j.s[0] == 'a'
    ensures DecodeCommandType(j).Ok? ==> EncodeCommandType(DecodeCommandType(j).value) == Ok(j)
  {
  }

  /** A string starting with `d` decodes only if it is the one the encoder writes. */
  lemma CommandTypeDecodeStrictD(j: Json)
    requires j.Str? && |j.s| >= 1 && j.s[0] == 'd'
    ensures DecodeCommandType(j).Ok? ==> EncodeCommandType(DecodeCommandType(j).value) == Ok(j)
  {
  }

  /** A string starting with `t` decodes only if it is the one the encoder writes. */
  lemma CommandTypeDecodeStrictT(j: Json)
    requires j.Str? && |j.s| >= 1 && j.s[0] == 't'
    ensures DecodeCommandType(j).Ok? ==> EncodeCommandType(DecodeCommandType(j).value) == Ok(j)
  {
  }

  /** A string starting with `b` decodes only if it is the one the encoder writes. */
  lemma CommandTypeDecodeStrictB(j: Json)
    requires j.Str? && |j.s| >= 1 && j.s[0] == 'b'
    ensures DecodeCommandType(j).Ok? ==> EncodeCommandType(DecodeCommandType(j).value) == Ok(j)
  {
  }

  /** A string starting with `se` decodes only if it is the one the encoder writes. */
  lemma CommandTypeDecodeStrictSe(j: Json)
    requires j.Str? && |j.s| >= 2 && j.s[0] == 's' && j.s[1] == 'e'
    ensures DecodeCommandType(j).Ok? ==> EncodeCommandType(DecodeCommandType(j).value) == Ok(j)
  {
  }

  /** A string starting with `st` decodes only if it is the one the encoder writes. */
  lemma CommandTypeDecodeStrictSt(j: Json)
    requires j.Str? && |j.s| >= 2 && j.s[0] == 's' && j.s[1] == 't'
    ensures DecodeCommandType(j).Ok? ==> EncodeCommandType(DecodeCommandType(j).value) == Ok(j)
  {
  }

  /** A string starting with `sc` decodes only if it is the one the encoder writes. */
  lemma CommandTypeDecodeStrictSc(j: Json)
    requires j.Str? && |j.s| >= 2 && j.s[0] == 's' && j.s[1] == 'c'
    ensures DecodeCommandType(j).Ok? ==> EncodeCommandType(DecodeCommandType(j).value) == Ok(j)
  {
  }

  /** A string starting with `so` decodes only if it is the one the encoder writes. */
  lemma CommandTypeDecodeStrictSo(j: Json)
    requires j.Str? && |j.s| >= 2 && j.s[0] == 's' && j.s[1] == 'o'
    ensures DecodeCommandType(j).Ok? ==> EncodeCommandType(DecodeCommandType(j).value) == Ok(j)
  {
  }

  /** A string starting with `n` decodes only if it is the one the encoder writes. */
  lemma CommandTypeDecodeStrictN(j: Json)
    requires j.Str? && |j.s| >= 1 && j.s[0] == 'n'
    ensures DecodeCommandType(j).Ok? ==> EncodeCommandType(DecodeCommandType(j).value) == Ok(j)
  {
  }

  /** A string starting with `g` decodes only if it is the one the encoder writes. */
  lemma CommandTypeDecodeStrictG(j: Json)
    requires j.Str? && |j.s| >= 1 && j.s[0] == 'g'
    ensures DecodeCommandType(j).Ok? ==> EncodeCommandType(DecodeCommandType(j).value) == Ok(j)
  {
  }

  /** A string starting with `p` decodes only if it is the one the encoder writes. */
  lemma CommandTypeDecodeStrictP(j: Json)
    requires j.Str? && |j.s| >= 1 && j.s[0] == 'p'
    ensures DecodeCommandType(j).Ok? ==> EncodeCommandType(DecodeCommandType(j).value) == Ok(j)
  {
  }

  /** A string starting with `v` decodes only if it is the one the encoder writes. */
  lemma CommandTypeDecodeStrictV(j: Json)
    requires j.Str? && |j.s| >= 1 && j.s[0] == 'v'
    ensures DecodeCommandType(j).Ok? ==> EncodeCommandType(DecodeCommandType(j).value) == Ok(j)
  {
  }

  /** A string starting with `m` decodes only if it is the one the encoder writes. */
  lemma CommandTypeDecodeStrictM(j: Json)
    requires j.Str? && |j.s| >= 1 && j.s[0] == 'm'
    ensures DecodeCommandType(j).Ok? ==> EncodeCommandType(DecodeCommandType(j).value) == Ok(j)
  {
  }

  /** A string starting with `e` decodes only if it is the one the encoder writes. */
  lemma CommandTypeDecodeStrictE(j: Json)
    requires j.Str? && |j.s| >= 1 && j.s[0] == 'e'
    ensures DecodeCommandType(j).Ok? ==> EncodeCommandType(DecodeCommandType(j).value) == Ok(j)
  {
  }

  /** A string starting with `w` decodes only if it is the one the encoder writes. */
  lemma CommandTypeDecodeStrictW(j: Json)
    requires j.Str? && |j.s| >= 1 && j.s[0] == 'w'
    ensures DecodeCommandType(j).Ok? ==> EncodeCommandType(DecodeCommandType(j).value) == Ok(j)
  {
  }

  /**
   * The decoder accepts exactly the strings the encoder writes: whatever it
   * decodes encodes back to the same JSON.
   */
  lemma CommandTypeDecodeStrict(j: Json)
    ensures DecodeCommandType(j).Ok? ==> EncodeCommandType(DecodeCommandType(j).value) == Ok(j)
  {
    if j.Str? {
      if |j.s| > 0 {
        match j.s[0]
        case 'c' =>
          CommandTypeDecodeStrictC(j);
        case 'r' =>
          CommandTypeDecodeStrictR(j);
        case 'i' =>
          CommandTypeDecodeStrictI(j);
        case 'l' =>
          CommandTypeDecodeStrictL(j);
        case 'a' =>
          CommandTypeDecodeStrictA(j);
        case 'd' =>
          CommandTypeDecodeStrictD(j);
        case 't' =>
          CommandTypeDecodeStrictT(j);
        case 'b' =>
          CommandTypeDecodeStrictB(j);
        case 's' =>
          if |j.s| > 1 {
            match j.s[1]
            case 'e' =>
              CommandTypeDecodeStrictSe(j);
            case 't' =>
              CommandTypeDecodeStrictSt(j);
            case 'c' =>
              CommandTypeDecodeStrictSc(j);
            case 'o' =>
              CommandTypeDecodeStrictSo(j);
            case _ =>
          }
        case 'n' =>
          CommandTypeDecodeStrictN(j);
        case 'g' =>
          CommandTypeDecodeStrictG(j);
        case 'p' =>
          CommandTypeDecodeStrictP(j);
        case 'v' =>
          CommandTypeDecodeStrictV(j);
        case 'm' =>
          CommandTypeDecodeStrictM(j);
        case 'e' =>
          CommandTypeDecodeStrictE(j);
        case 'w' =>
          CommandTypeDecodeStrictW(j);
        case _ =>
      }
    }
  }

  /** No string decodes to a constructor the table cannot write. */
  lemma CommandTypeUnwritableUndecodable(j: Json)
    ensures DecodeCommandType(j).Ok? ==> DecodeCommandType(j).value !in CommandTypeUnwritable
  {
    CommandTypeDecodeStrict(j);
  }

  /** The protocol name of `SetExceptionBreakpoints` is refused. */
  lemma CommandTypeRejectsSetExceptionBreakpoints()
    ensures DecodeCommandType(Str("setExceptionBreakpoints")) == Fail(Unknown("CommandType"))
  {
  }

  /** The protocol name of `DataBreakpointInfo` is refused. */
  lemma CommandTypeRejectsDataBreakpointInfo()
    ensures DecodeCommandType(Str("dataBreakpointInfo")) == Fail(Unknown("CommandType"))
  {
  }

  /** The protocol name of `SetDataBreakpoints` is refused. */
  lemma CommandTypeRejectsSetDataBreakpoints()
    ensures DecodeCommandType(Str("setDataBreakpoints")) == Fail(Unknown("CommandType"))
  {
  }

  /** The protocol name of `SetInstructionBreakpoints` is refused. */
  lemma CommandTypeRejectsSetInstructionBreakpoints()
    ensures DecodeCommandType(Str("setInstructionBreakpoints")) == Fail(Unknown("CommandType"))
  {
  }

  datatype EventType = Initialized | Stopped | Continued | Exited | Thread | Output | Breakpoint | Module | LoadedSource | Process | Capabilities | ProgressStart | ProgressUpdate | ProgressEnd | Invalidated | Memory | Terminated | EventMax

  /** The constructors the `EventType` table has no string for. */
  const EventTypeUnwritable: set<EventType> := {EventType.EventMax}

  function EncodeEventType(e: EventType): (r: Result<Json>)
    ensures r.Fail? <==> e in EventTypeUnwritable
    ensures r.Fail? ==> r.error == Unknown("EventType")
    ensures r.Ok? ==> r.value.Str?
  {
    match e
    case Initialized => Ok(Str("initialized"))
    case Stopped => Ok(Str("stopped"))
    case Continued => Ok(Str("continued"))
    case Exited => Ok(Str("exited"))
    case Thread => Ok(Str("thread"))
    case Output => Ok(Str("output"))
    case Breakpoint => Ok(Str("breakpoint"))
    case Module => Ok(Str("module"))
    case LoadedSource => Ok(Str("loadedSource"))
    case Process => Ok(Str("process"))
    case Capabilities => Ok(Str("capabilities"))
    case ProgressStart => Ok(Str("progressStart"))
    case ProgressUpdate => Ok(Str("progressUpdate"))
    case ProgressEnd => Ok(Str("progresSend"))
    case Invalidated => Ok(Str("invalidated"))
    case Memory => Ok(Str("memory"))
    case Terminated => Ok(Str("terminated"))
    case _ => Fail(Unknown("EventType"))
  }

  /**
   * `from_json`: the chain of string comparisons, with the strings grouped
   * by their first character, and a large group by its second (strings that
   * differ there are different, so the outcome is that of the chain);
   * anything else is unknown.
   */
  function DecodeEventType(j: Json): (r: Result<EventType>)
    ensures !j.Str? ==> r == Fail(TypeError("string"))
    ensures j.Str? && r.Fail? ==> r == Fail(Unknown("EventType"))
  {
    var s :- GetString(j);
    if |s| == 0 then Fail(Unknown("EventType"))
    else match s[0]
    case 'i' =>
      if s == "initialized" then Ok(EventType.Initialized) else if s == "invalidated" then Ok(EventType.Invalidated) else Fail(Unknown("EventType"))
    case 's' =>
      if s == "stopped" then Ok(EventType.Stopped) else Fail(Unknown("EventType"))
    case 'c' =>
      if s == "continued" then Ok(EventType.Continued) else if s == "capabilities" then Ok(EventType.Capabilities) else Fail(Unknown("EventType"))
    case 'e' =>
      if s == "exited" then Ok(EventType.Exited) else Fail(Unknown("EventType"))
    case 't' =>
      if s == "thread" then Ok(EventType.Thread) else if s == "terminated" then Ok(EventType.Terminated) else Fail(Unknown("EventType"))
    case 'o' =>
      if s == "output" then Ok(EventType.Output) else Fail(Unknown("EventType"))
    case 'b' =>
      if s == "breakpoint" then Ok(EventType.Breakpoint) else Fail(Unknown("EventType"))
    case 'm' =>
      if s == "module" then Ok(EventType.Module) else if s == "memory" then Ok(EventType.Memory) else Fail(Unknown("EventType"))
    case 'l' =>
      if s == "loadedSource" then Ok(EventType.LoadedSource) else Fail(Unknown("EventType"))
    case 'p' =>
      if s == "process" then Ok(EventType.Process) else if s == "progressStart" then Ok(EventType.ProgressStart) else if s == "progressUpdate" then Ok(EventType.ProgressUpdate) else if s == "progresSend" then Ok(EventType.ProgressEnd) else Fail(Unknown("EventType"))
    case _ => Fail(Unknown("EventType"))
  }

  /** The constructors whose string starts with `i` survive the trip. */
  lemma EventTypeRoundTripI(e: EventType)
    requires e in {EventType.Initialized, EventType.Invalidated}
    ensures DecodeEventType(EncodeEventType(e).value) == Ok(e)
  {
  }

  /** The constructors whose string starts with `s` survive the trip. */
  lemma EventTypeRoundTripS(e: EventType)
    requires e in {EventType.Stopped}
    ensures DecodeEventType(EncodeEventType(e).value) == Ok(e)
  {
  }

  /** The constructors whose string starts with `c` survive the trip. */
  lemma EventTypeRoundTripC(e: EventType)
    requires e in {EventType.Continued, EventType.Capabilities}
    ensures DecodeEventType(EncodeEventType(e).value) == Ok(e)
  {
  }

  /** The constructors whose string starts with `e` survive the trip. */
  lemma EventTypeRoundTripE(e: EventType)
    requires e in {EventType.Exited}
    ensures DecodeEventType(EncodeEventType(e).value) == Ok(e)
  {
  }

  /** The constructors whose string starts with `t` survive the trip. */
  lemma EventTypeRoundTripT(e: EventType)
    requires e in {EventType.Thread, EventType.Terminated}
    ensures DecodeEventType(EncodeEventType(e).value) == Ok(e)
  {
  }

  /** The constructors whose string starts with `o` survive the trip. */
  lemma EventTypeRoundTripO(e: EventType)
    requires e in {EventType.Output}
    ensures DecodeEventType(EncodeEventType(e).value) == Ok(e)
  {
  }

  /** The constructors whose string starts with `b` survive the trip. */
  lemma EventTypeRoundTripB(e: EventType)
    requires e in {EventType.Breakpoint}
    ensures DecodeEventType(EncodeEventType(e).value) == Ok(e)
  {
  }

  /** The constructors whose string starts with `m` survive the trip. */
  lemma EventTypeRoundTripM(e: EventType)
    requires e in {EventType.Module, EventType.Memory}
    ensures DecodeEventType(EncodeEventType(e).value) == Ok(e)
  {
  }

  /** The constructors whose string starts with `l` survive the trip. */
  lemma EventTypeRoundTripL(e: EventType)
    requires e in {EventType.LoadedSource}
    ensures DecodeEventType(EncodeEventType(e).value) == Ok(e)
  {
  }

  /** The constructors whose string starts with `p` survive the trip. */
  lemma EventTypeRoundTripP(e: EventType)
    requires e in {EventType.Process, EventType.ProgressStart, EventType.ProgressUpdate, EventType.ProgressEnd}
    ensures DecodeEventType(EncodeEventType(e).value) == Ok(e)
  {
  }

  /** Every constructor with a string survives the trip through it. */
  lemma EventTypeRoundTrip(e: EventType)
    requires e !in EventTypeUnwritable
    ensures EncodeEventType(e).Ok? && DecodeEventType(EncodeEventType(e).value) == Ok(e)
  {
    if e in {EventType.Initialized, EventType.Invalidated} {
      EventTypeRoundTripI(e);
    } else if e in {EventType.Stopped} {
      EventTypeRoundTripS(e);
    } else if e in {EventType.Continued, EventType.Capabilities} {
      EventTypeRoundTripC(e);
    } else if e in {EventType.Exited} {
      EventTypeRoundTripE(e);
    } else if e in {EventType.Thread, EventType.Terminated} {
      EventTypeRoundTripT(e);
    } else if e in {EventType.Output} {
      EventTypeRoundTripO(e);
    } else if e in {EventType.Breakpoint} {
      EventTypeRoundTripB(e);
    } else if e in {EventType.Module, EventType.Memory} {
      EventTypeRoundTripM(e);
    } else if e in {EventType.LoadedSource} {
      EventTypeRoundTripL(e);
    } else {
      EventTypeRoundTripP(e);
    }
  }

  /** A string starting with `i` decodes only if it is the one the encoder writes. */
  lemma EventTypeDecodeStrictI(j: Json)
    requires j.Str? && |j.s| >= 1 && j.s[0] == 'i'
    ensures DecodeEventType(j).Ok? ==> EncodeEventType(DecodeEventType(j).value) == Ok(j)
  {
  }

  /** A string starting with `s` decodes only if it is the one the encoder writes. */
  lemma EventTypeDecodeStrictS(j: Json)
    requires j.Str? && |j.s| >= 1 && j.s[0] == 's'
    ensures DecodeEventType(j).Ok? ==> EncodeEventType(DecodeEventType(j).value) == Ok(j)
  {
  }

  /** A string starting with `c` decodes only if it is the one the encoder writes. */
  lemma EventTypeDecodeStrictC(j: Json)
    requires j.Str? && |j.s| >= 1 && j.s[0] == 'c'
    ensures DecodeEventType(j).Ok? ==> EncodeEventType(DecodeEventType(j).value) == Ok(j)
  {
  }

  /** A string starting with `e` decodes only if it is the one the encoder writes. */
  lemma EventTypeDecodeStrictE(j: Json)
    requires j.Str? && |j.s| >= 1 && j.s[0] == 'e'
    ensures DecodeEventType(j).Ok? ==> EncodeEventType(DecodeEventType(j).value) == Ok(j)
  {
  }

  /** A string starting with `t` decodes only if it is the one the encoder writes. */
  lemma EventTypeDecodeStrictT(j: Json)
    requires j.Str? && |j.s| >= 1 && j.s[0] == 't'
    ensures DecodeEventType(j).Ok? ==> EncodeEventType(DecodeEventType(j).value) == Ok(j)
  {
  }

  /** A string starting with `o` decodes only if it is the one the encoder writes. */
  lemma EventTypeDecodeStrictO(j: Json)
    requires j.Str? && |j.s| >= 1 && j.s[0] == 'o'
    ensures DecodeEventType(j).Ok? ==> EncodeEventType(DecodeEventType(j).value) == Ok(j)
  {
  }

  /** A string starting with `b` decodes only if it is the one the encoder writes. */
  lemma EventTypeDecodeStrictB(j: Json)
    requires j.Str? && |j.s| >= 1 && j.s[0] == 'b'
    ensures DecodeEventType(j).Ok? ==> EncodeEventType(DecodeEventType(j).value) == Ok(j)
  {
  }

  /** A string starting with `m` decodes only if it is the one the encoder writes. */
  lemma EventTypeDecodeStrictM(j: Json)
    requires j.Str? && |j.s| >= 1 && j.s[0] == 'm'
    ensures DecodeEventType(j).Ok? ==> EncodeEventType(DecodeEventType(j).value) == Ok(j)
  {
  }

  /** A string starting with `l` decodes only if it is the one the encoder writes. */
  lemma EventTypeDecodeStrictL(j: Json)
    requires j.Str? && |j.s| >= 1 && j.s[0] == 'l'
    ensures DecodeEventType(j).Ok? ==> EncodeEventType(DecodeEventType(j).value) == Ok(j)
  {
  }

  /** A string starting with `p` decodes only if it is the one the encoder writes. */
  lemma EventTypeDecodeStrictP(j: Json)
    requires j.Str? && |j.s| >= 1 && j.s[0] == 'p'
    ensures DecodeEventType(j).Ok? ==> EncodeEventType(DecodeEventType(j).value) == Ok(j)
  {
  }

  /**
   * The decoder accepts exactly the strings the encoder writes: whatever it
   * decodes encodes back to the same JSON.
   */
  lemma EventTypeDecodeStrict(j: Json)
    ensures DecodeEventType(j).Ok? ==> EncodeEventType(DecodeEventType(j).value) == Ok(j)
  {
    if j.Str? {
      if |j.s| > 0 {
        match j.s[0]
        case 'i' =>
          EventTypeDecodeStrictI(j);
        case 's' =>
          EventTypeDecodeStrictS(j);
        case 'c' =>
          EventTypeDecodeStrictC(j);
        case 'e' =>
          EventTypeDecodeStrictE(j);
        case 't' =>
          EventTypeDecodeStrictT(j);
        case 'o' =>
          EventTypeDecodeStrictO(j);
        case 'b' =>
          EventTypeDecodeStrictB(j);
        case 'm' =>
          EventTypeDecodeStrictM(j);
        case 'l' =>
          EventTypeDecodeStrictL(j);
        case 'p' =>
          EventTypeDecodeStrictP(j);
        case _ =>
      }
    }
  }

  /** No string decodes to a constructor the table cannot write. */
  lemma EventTypeUnwritableUndecodable(j: Json)
    ensures DecodeEventType(j).Ok? ==> DecodeEventType(j).value !in EventTypeUnwritable
  {
    EventTypeDecodeStrict(j);
  }

  /** `EventType::progressEnd` travels as "progresSend" in both directions, not as the protocol's "progressEnd". */
  lemma ProgressEndWireName()
    ensures EncodeEventType(EventType.ProgressEnd) == Ok(Str("progresSend"))
    ensures DecodeEventType(Str("progresSend")) == Ok(EventType.ProgressEnd)
  {
  }

  /** The protocol's own name for the progress-end event is refused. */
  lemma EventTypeRejectsProgressEnd()
    ensures DecodeEventType(Str("progressEnd")) == Fail(Unknown("EventType"))
  {
  }

  /**
   * `ProtocolMessage`: the sequence number and the message type every
   * message starts with. The default constructor leaves `seq` unset; here
   * it is whatever the caller gives.
   */
  datatype ProtocolMessage = ProtocolMessage(seq_: int64, type_: MessageType)

  function EncodeProtocolMessage(p: ProtocolMessage): (j: Json)
    ensures j.Obj? && j.fields.Keys == {"seq", "type"}
    ensures DecodeProtocolMessage(j) == Ok(p)
  {
    var entries := map["seq" := Some(Int(p.seq_)), "type" := Some(EncodeMessageType(p.type_))];
    RequiredIntRoundTrip(entries, "seq", p.seq_);
    RequiredRoundTrip(entries, "type", p.type_, EncodeMessageType, DecodeMessageType);
    ObjectKeys(entries);
    Object(entries)
  }

  function DecodeProtocolMessage(j: Json): (r: Result<ProtocolMessage>)
    ensures r.Ok? ==> Find(j, "seq").Some? && Find(j, "type").Some?
    ensures !j.Obj? ==> r == Fail(TypeError("object"))
  {
    var seq_ :- RequiredInt(j, "seq");
    var type_ :- Required(j, "type", DecodeMessageType);
    Ok(ProtocolMessage.ProtocolMessage(seq_, type_))
  }

  /** Writing any member other than `seq` and `type` leaves the decoded header as it was. */
  lemma ProtocolMessageFrame(j: Json, key: string, v: Json)
    requires j.Obj? && key != "seq" && key != "type"
    ensures DecodeProtocolMessage(Put(j, key, v)) == DecodeProtocolMessage(j)
  {
    assert Find(Put(j, key, v), "seq") == Find(j, "seq");
    assert Find(Put(j, key, v), "type") == Find(j, "type");
  }

  /** `Request`: a protocol message of type request naming its command. */
  datatype Request = Request(base: ProtocolMessage, command: CommandType)

  /** The constructor `Request(cmd)`: the type is request and the command is `cmd`. */
  function NewRequest(seq_: int64, command: CommandType): (r: Request)
    ensures r.base.type_ == MessageType.Request && r.command == command && r.base.seq_ == seq_
  {
    Request.Request(ProtocolMessage.ProtocolMessage(seq_, MessageType.Request), command)
  }

  /** The base members, then the command; a command without a string throws. */
  function EncodeRequest(p: Request): (r: Result<Json>)
    ensures r.Fail? <==> p.command in CommandTypeUnwritable
    ensures r.Fail? ==> r.error == Unknown("CommandType")
    ensures r.Ok? ==> r.value.Obj? && r.value.fields.Keys == {"seq", "type", "command"}
    ensures r.Ok? ==> DecodeRequest(r.value) == Ok(p)
  {
    var base := EncodeProtocolMessage(p.base);
    var command :- EncodeCommandType(p.command);
    CommandTypeRoundTrip(p.command);
    ProtocolMessageFrame(base, "command", command);
    Ok(Put(base, "command", command))
  }

  function DecodeRequest(j: Json): (r: Result<Request>)
    ensures r.Ok? ==> DecodeProtocolMessage(j) == Ok(r.value.base) && Find(j, "command").Some?
  {
    var base :- DecodeProtocolMessage(j);
    var command :- Required(j, "command", DecodeCommandType);
    Ok(Request.Request(base, command))
  }

  /** Writing any member outside the request header leaves the decoded header as it was. */
  lemma RequestFrame(j: Json, key: string, v: Json)
    requires j.Obj? && key != "seq" && key != "type" && key != "command"
    ensures DecodeRequest(Put(j, key, v)) == DecodeRequest(j)
  {
    ProtocolMessageFrame(j, key, v);
    assert Find(Put(j, key, v), "command") == Find(j, "command");
  }

  /** `Event`: a protocol message of type event naming its event. */
  datatype Event = Event(base: ProtocolMessage, event: EventType)

  /** The constructor `Event(event)`: the type is event and the event is `event`. */
  function NewEvent(seq_: int64, event: EventType): (r: Event)
    ensures r.base.type_ == MessageType.Event && r.event == event && r.base.seq_ == seq_
  {
    Event.Event(ProtocolMessage.ProtocolMessage(seq_, MessageType.Event), event)
  }

  function EncodeEvent(p: Event): (r: Result<Json>)
    ensures r.Fail? <==> p.event in EventTypeUnwritable
    ensures r.Fail? ==> r.error == Unknown("EventType")
    ensures r.Ok? ==> r.value.Obj? && r.value.fields.Keys == {"seq", "type", "event"}
    ensures r.Ok? ==> DecodeEvent(r.value) == Ok(p)
  {
    var base := EncodeProtocolMessage(p.base);
    var event :- EncodeEventType(p.event);
    EventTypeRoundTrip(p.event);
    ProtocolMessageFrame(base, "event", event);
    Ok(Put(base, "event", event))
  }

  function DecodeEvent(j: Json): (r: Result<Event>)
    ensures r.Ok? ==> DecodeProtocolMessage(j) == Ok(r.value.base) && Find(j, "event").Some?
  {
    var base :- DecodeProtocolMessage(j);
    var event :- Required(j, "event", DecodeEventType);
    Ok(Event.Event(base, event))
  }

  /** Writing any member outside the event header leaves the decoded header as it was. */
  lemma EventFrame(j: Json, key: string, v: Json)
    requires j.Obj? && key != "seq" && key != "type" && key != "event"
    ensures DecodeEvent(Put(j, key, v)) == DecodeEvent(j)
  {
    ProtocolMessageFrame(j, key, v);
    assert Find(Put(j, key, v), "event") == Find(j, "event");
  }

  /**
   * `Response`: a protocol message of type response answering the request
   * numbered `requestSeq`, with its command, whether it succeeded, and an
   * optional message. The default constructor leaves `request_seq` unset;
   * here it is whatever the caller gives.
   */
  datatype Response = Response(base: ProtocolMessage, requestSeq: int64, command: CommandType, success: bool, message: Option<string>)

  /** The constructor `Response(cmd, success)`: the type is response, with that command and outcome. */
  function NewResponse(seq_: int64, requestSeq: int64, command: CommandType, success: bool): (r: Response)
    ensures r.base.type_ == MessageType.Response && r.command == command && r.success == success
    ensures r.base.seq_ == seq_ && r.requestSeq == requestSeq && r.message.None?
  {
    Response.Response(ProtocolMessage.ProtocolMessage(seq_, MessageType.Response), requestSeq, command, success, None)
  }

  /** The members of a response besides those of `ProtocolMessage`. */
  function ResponseEntries(p: Response, command: Json): map<string, Option<Json>> {
    map["request_seq" := Some(Int(p.requestSeq)), "success" := Some(Bool(p.success)), "command" := Some(command), "message" := OptString(p.message)]
  }

  function EncodeResponse(p: Response): (r: Result<Json>)
    ensures r.Fail? <==> p.command in CommandTypeUnwritable
    ensures r.Fail? ==> r.error == Unknown("CommandType")
    ensures r.Ok? ==> r.value.Obj? && r.value.fields.Keys == ResponseKeys(p)
    ensures r.Ok? ==> DecodeResponse(r.value) == Ok(p)
  {
    var base := EncodeProtocolMessage(p.base);
    var command :- EncodeCommandType(p.command);
    CommandTypeRoundTrip(p.command);
    var j := Put(Put(Put(base, "request_seq", Int(p.requestSeq)), "success", Bool(p.success)), "command", command);
    var written := ToOptJson(j, "message", p.message, OfString);
    ResponseReadBack(p, base, command, written);
    Ok(written)
  }

  /** The members a response writes: `message` only when it holds one. */
  function ResponseKeys(p: Response): set<string> {
    {"seq", "type", "request_seq", "success", "command"} + if p.message.Some? then {"message"} else {}
  }

  lemma ResponseReadBack(p: Response, base: Json, command: Json, written: Json)
    requires base == EncodeProtocolMessage(p.base)
    requires EncodeCommandType(p.command) == Ok(command)
    requires DecodeCommandType(command) == Ok(p.command)
    requires written == ToOptJson(Put(Put(Put(base, "request_seq", Int(p.requestSeq)), "success", Bool(p.success)), "command", command), "message", p.message, OfString)
    ensures written.Obj? && written.fields.Keys == ResponseKeys(p)
    ensures DecodeResponse(written) == Ok(p)
  {
    var a := Put(base, "request_seq", Int(p.requestSeq));
    var b := Put(a, "success", Bool(p.success));
    var c := Put(b, "command", command);
    ProtocolMessageFrame(base, "request_seq", Int(p.requestSeq));
    ProtocolMessageFrame(a, "success", Bool(p.success));
    ProtocolMessageFrame(b, "command", command);
    assert Find(written, "seq") == Find(c, "seq");
    assert Find(written, "type") == Find(c, "type");
    assert DecodeProtocolMessage(written) == DecodeProtocolMessage(c);
    assert Find(written, "request_seq") == Some(Int(p.requestSeq));
    assert Find(written, "success") == Some(Bool(p.success));
    assert Find(written, "command") == Some(command);
    OptJsonRoundTrip(c, "message", p.message, OfString, GetString);
  }

  function DecodeResponse(j: Json): (r: Result<Response>)
    ensures r.Ok? ==> DecodeProtocolMessage(j) == Ok(r.value.base)
    ensures r.Ok? ==> Find(j, "request_seq").Some? && Find(j, "success").Some? && Find(j, "command").Some?
  {
    var base :- DecodeProtocolMessage(j);
    var requestSeq :- RequiredInt(j, "request_seq");
    var success :- RequiredBool(j, "success");
    var command :- Required(j, "command", DecodeCommandType);
    var message :- OptionalString(j, "message");
    Ok(Response.Response(base, requestSeq, command, success, message))
  }

  /** Writing any member outside the response header leaves the decoded header as it was. */
  lemma ResponseFrame(j: Json, key: string, v: Json)
    requires j.Obj? && key != "seq" && key != "type" && key != "request_seq" && key != "success" && key != "command" && key != "message"
    ensures DecodeResponse(Put(j, key, v)) == DecodeResponse(j)
  {
    ProtocolMessageFrame(j, key, v);
    assert Find(Put(j, key, v), "request_seq") == Find(j, "request_seq");
    assert Find(Put(j, key, v), "success") == Find(j, "success");
    assert Find(Put(j, key, v), "command") == Find(j, "command");
    assert Find(Put(j, key, v), "message") == Find(j, "message");
  }

  /**
   * `ErrorResponse`: a response whose constructor sets `success` to false,
   * with an optional error under `body`.
   */
  datatype ErrorResponse = ErrorResponse(header: Response, error: Option<string>)

  /** The constructor `ErrorResponse(cmd)`: a response to `cmd` that did not succeed. */
  function NewErrorResponse(seq_: int64, requestSeq: int64, command: CommandType): (r: ErrorResponse)
    ensures r.header == NewResponse(seq_, requestSeq, command, false) && r.error.None?
  {
    ErrorResponse.ErrorResponse(NewResponse(seq_, requestSeq, command, false), None)
  }

  /**
   * The response members, then `j["body"]`, which inserts the member, and
   * the error inside it: `body` is always written, and stays null when
   * there is no error.
   */
  function EncodeErrorResponse(p: ErrorResponse): (r: Result<Json>)
    ensures r.Fail? <==> p.header.command in CommandTypeUnwritable
    ensures r.Ok? ==> DecodeErrorResponse(r.value) == Ok(p)
    ensures r.Ok? ==> Find(r.value, "body") == Some(if p.error.Some? then Obj(map["error" := Str(p.error.value)]) else Null)
  {
    var header :- EncodeResponse(p.header);
    var entries := map["error" := OptString(p.error)];
    OptionalStringRoundTrip(entries, "error", p.error);
    ResponseFrame(header, "body", Object(entries));
    ErrorBody(p.error);
    Ok(Put(header, "body", Object(entries)))
  }

  lemma ErrorBody(error: Option<string>)
    ensures Object(map["error" := OptString(error)]) == if error.Some? then Obj(map["error" := Str(error.value)]) else Null
  {
    var entries := map["error" := OptString(error)];
    var fields := map key | key in entries && entries[key].Some? :: entries[key].value;
    if error.Some? {
      assert "error" in fields;
      assert fields.Keys == {"error"};
      assert fields == map["error" := Str(error.value)];
    } else {
      assert fields == map[];
    }
  }

  function DecodeErrorResponse(j: Json): (r: Result<ErrorResponse>)
    ensures r.Ok? ==> DecodeResponse(j) == Ok(r.value.header) && Find(j, "body").Some?
  {
    var header :- DecodeResponse(j);
    var body :- At(j, "body");
    var error :- OptionalString(body, "error");
    Ok(ErrorResponse.ErrorResponse(header, error))
  }
}
