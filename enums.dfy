/**
 * The closed enumerations of the protocol's records. Every encoder is a
 * switch that writes one fixed string per constructor; every decoder
 * reads a string (`get<std::string>` throws on anything else) and throws
 * "Unknown X" for a string outside the table.
 */
module Enums {
  import opened Json

  /** `ExceptionBreakMode`: each constructor travels as one fixed string. */
  datatype ExceptionBreakMode = Never | Always | Unhandled | UserUnhandled

  /** The strings `ExceptionBreakMode` decodes. */
  const ExceptionBreakModeNames: set<string> := {"never", "always", "unhandled", "userUnhandled"}

  function EncodeExceptionBreakMode(e: ExceptionBreakMode): (j: Json)
    ensures j.Str? && j.s in ExceptionBreakModeNames
    ensures DecodeExceptionBreakMode(j) == Ok(e)
  {
    match e
    case Never => Str("never")
    case Always => Str("always")
    case Unhandled => Str("unhandled")
    case UserUnhandled => Str("userUnhandled")
  }

  function DecodeExceptionBreakMode(j: Json): (r: Result<ExceptionBreakMode>)
    ensures r.Ok? <==> j.Str? && j.s in ExceptionBreakModeNames
    ensures !j.Str? ==> r == Fail(TypeError("string"))
    ensures j.Str? && r.Fail? ==> r == Fail(Unknown("ExceptionBreakMode"))
  {
    var s :- GetString(j);
    if s == "never" then Ok(ExceptionBreakMode.Never)
    else if s == "always" then Ok(ExceptionBreakMode.Always)
    else if s == "unhandled" then Ok(ExceptionBreakMode.Unhandled)
    else if s == "userUnhandled" then Ok(ExceptionBreakMode.UserUnhandled)
    else Fail(Unknown("ExceptionBreakMode"))
  }

  /** `ColumnDescriptorType`: each constructor travels as one fixed string. */
  datatype ColumnDescriptorType = String | Number | Boolean | UnixTimestampUTC

  /** The strings `ColumnDescriptorType` decodes. */
  const ColumnDescriptorTypeNames: set<string> := {"string", "number", "boolean", "unixTimestampUTC"}

  function EncodeColumnDescriptorType(e: ColumnDescriptorType): (j: Json)
    ensures j.Str? && j.s in ColumnDescriptorTypeNames
    ensures DecodeColumnDescriptorType(j) == Ok(e)
  {
    match e
    case String => Str("string")
    case Number => Str("number")
    case Boolean => Str("boolean")
    case UnixTimestampUTC => Str("unixTimestampUTC")
  }

  function DecodeColumnDescriptorType(j: Json): (r: Result<ColumnDescriptorType>)
    ensures r.Ok? <==> j.Str? && j.s in ColumnDescriptorTypeNames
    ensures !j.Str? ==> r == Fail(TypeError("string"))
    ensures j.Str? && r.Fail? ==> r == Fail(Unknown("ColumnDescriptorType"))
  {
    var s :- GetString(j);
    if s == "string" then Ok(ColumnDescriptorType.String)
    else if s == "number" then Ok(ColumnDescriptorType.Number)
    else if s == "boolean" then Ok(ColumnDescriptorType.Boolean)
    else if s == "unixTimestampUTC" then Ok(ColumnDescriptorType.UnixTimestampUTC)
    else Fail(Unknown("ColumnDescriptorType"))
  }

  /** `CheckSumAlgorithm`: each constructor travels as one fixed string. */
  datatype CheckSumAlgorithm = MD5 | SHA1 | SHA256 | Timestamp

  /** The strings `CheckSumAlgorithm` decodes. */
  const CheckSumAlgorithmNames: set<string> := {"MD5", "SHA1", "SHA256", "timestamp"}

  function EncodeCheckSumAlgorithm(e: CheckSumAlgorithm): (j: Json)
    ensures j.Str? && j.s in CheckSumAlgorithmNames
    ensures DecodeCheckSumAlgorithm(j) == Ok(e)
  {
    match e
    case MD5 => Str("MD5")
    case SHA1 => Str("SHA1")
    case SHA256 => Str("SHA256")
    case Timestamp => Str("timestamp")
  }

  function DecodeCheckSumAlgorithm(j: Json): (r: Result<CheckSumAlgorithm>)
    ensures r.Ok? <==> j.Str? && j.s in CheckSumAlgorithmNames
    ensures !j.Str? ==> r == Fail(TypeError("string"))
    ensures j.Str? && r.Fail? ==> r == Fail(Unknown("CheckSumAlgorithm"))
  {
    var s :- GetString(j);
    if s == "MD5" then Ok(CheckSumAlgorithm.MD5)
    else if s == "SHA1" then Ok(CheckSumAlgorithm.SHA1)
    else if s == "SHA256" then Ok(CheckSumAlgorithm.SHA256)
    else if s == "timestamp" then Ok(CheckSumAlgorithm.Timestamp)
    else Fail(Unknown("CheckSumAlgorithm"))
  }

  /** `SourcePresentationHint`: each constructor travels as one fixed string. */
  datatype SourcePresentationHint = Normal | Emphasize | Deemphasize

  /** The strings `SourcePresentationHint` decodes. */
  const SourcePresentationHintNames: set<string> := {"normal", "emphasize", "deemphasize"}

  function EncodeSourcePresentationHint(e: SourcePresentationHint): (j: Json)
    ensures j.Str? && j.s in SourcePresentationHintNames
    ensures DecodeSourcePresentationHint(j) == Ok(e)
  {
    match e
    case Normal => Str("normal")
    case Emphasize => Str("emphasize")
    case Deemphasize => Str("deemphasize")
  }

  function DecodeSourcePresentationHint(j: Json): (r: Result<SourcePresentationHint>)
    ensures r.Ok? <==> j.Str? && j.s in SourcePresentationHintNames
    ensures !j.Str? ==> r == Fail(TypeError("string"))
    ensures j.Str? && r.Fail? ==> r == Fail(Unknown("SourcePresentationHint"))
  {
    var s :- GetString(j);
    if s == "normal" then Ok(SourcePresentationHint.Normal)
    else if s == "emphasize" then Ok(SourcePresentationHint.Emphasize)
    else if s == "deemphasize" then Ok(SourcePresentationHint.Deemphasize)
    else Fail(Unknown("SourcePresentationHint"))
  }

  /** `DataBreakpointAccessType`: each constructor travels as one fixed string. */
  datatype DataBreakpointAccessType = Read | Write | ReadWrite

  /** The strings `DataBreakpointAccessType` decodes. */
  const DataBreakpointAccessTypeNames: set<string> := {"read", "write", "readWrite"}

  function EncodeDataBreakpointAccessType(e: DataBreakpointAccessType): (j: Json)
    ensures j.Str? && j.s in DataBreakpointAccessTypeNames
    ensures DecodeDataBreakpointAccessType(j) == Ok(e)
  {
    match e
    case Read => Str("read")
    case Write => Str("write")
    case ReadWrite => Str("readWrite")
  }

  function DecodeDataBreakpointAccessType(j: Json): (r: Result<DataBreakpointAccessType>)
    ensures r.Ok? <==> j.Str? && j.s in DataBreakpointAccessTypeNames
    ensures !j.Str? ==> r == Fail(TypeError("string"))
    ensures j.Str? && r.Fail? ==> r == Fail(Unknown("DataBreakpointAccessType"))
  {
    var s :- GetString(j);
    if s == "read" then Ok(DataBreakpointAccessType.Read)
    else if s == "write" then Ok(DataBreakpointAccessType.Write)
    else if s == "readWrite" then Ok(DataBreakpointAccessType.ReadWrite)
    else Fail(Unknown("DataBreakpointAccessType"))
  }

  /** `SteppingGranularity`: each constructor travels as one fixed string. */
  datatype SteppingGranularity = Statement | Line | Instruction

  /** The strings `SteppingGranularity` decodes. */
  const SteppingGranularityNames: set<string> := {"statement", "line", "instruction"}

  function EncodeSteppingGranularity(e: SteppingGranularity): (j: Json)
    ensures j.Str? && j.s in SteppingGranularityNames
    ensures DecodeSteppingGranularity(j) == Ok(e)
  {
    match e
    case Statement => Str("statement")
    case Line => Str("line")
    case Instruction => Str("instruction")
  }

  function DecodeSteppingGranularity(j: Json): (r: Result<SteppingGranularity>)
    ensures r.Ok? <==> j.Str? && j.s in SteppingGranularityNames
    ensures !j.Str? ==> r == Fail(TypeError("string"))
    ensures j.Str? && r.Fail? ==> r == Fail(Unknown("SteppingGranularity"))
  {
    var s :- GetString(j);
    if s == "statement" then Ok(SteppingGranularity.Statement)
    else if s == "line" then Ok(SteppingGranularity.Line)
    else if s == "instruction" then Ok(SteppingGranularity.Instruction)
    else Fail(Unknown("SteppingGranularity"))
  }

  /** `StackFramePresentationHint`: each constructor travels as one fixed string. */
  datatype StackFramePresentationHint = Normal | Label | Subtle

  /** The strings `StackFramePresentationHint` decodes. */
  const StackFramePresentationHintNames: set<string> := {"normal", "label", "subtle"}

  function EncodeStackFramePresentationHint(e: StackFramePresentationHint): (j: Json)
    ensures j.Str? && j.s in StackFramePresentationHintNames
    ensures DecodeStackFramePresentationHint(j) == Ok(e)
  {
    match e
    case Normal => Str("normal")
    case Label => Str("label")
    case Subtle => Str("subtle")
  }

  function DecodeStackFramePresentationHint(j: Json): (r: Result<StackFramePresentationHint>)
    ensures r.Ok? <==> j.Str? && j.s in StackFramePresentationHintNames
    ensures !j.Str? ==> r == Fail(TypeError("string"))
    ensures j.Str? && r.Fail? ==> r == Fail(Unknown("StackFramePresentationHint"))
  {
    var s :- GetString(j);
    if s == "normal" then Ok(StackFramePresentationHint.Normal)
    else if s == "label" then Ok(StackFramePresentationHint.Label)
    else if s == "subtle" then Ok(StackFramePresentationHint.Subtle)
    else Fail(Unknown("StackFramePresentationHint"))
  }

  /** `CompletionItemType`: each constructor travels as one fixed string. */
  datatype CompletionItemType = Method | Function | Constructor | Field | Variable | Class | Interface | Module | Property | Unit | Value | Enum | Keyword | Snippet | Text | Color | File | Reference | CustomColor

  /** The strings `CompletionItemType` decodes. */
  const CompletionItemTypeNames: set<string> := {"method", "function", "constructor", "field", "variable", "class", "interface", "module", "property", "unit", "value", "enum", "keyword", "snippet", "text", "color", "file", "reference", "customColor"}

  function EncodeCompletionItemType(e: CompletionItemType): (j: Json)
    ensures j.Str? && j.s in CompletionItemTypeNames
    ensures DecodeCompletionItemType(j) == Ok(e)
  {
    match e
    case Method => Str("method")
    case Function => Str("function")
    case Constructor => Str("constructor")
    case Field => Str("field")
    case Variable => Str("variable")
    case Class => Str("class")
    case Interface => Str("interface")
    case Module => Str("module")
    case Property => Str("property")
    case Unit => Str("unit")
    case Value => Str("value")
    case Enum => Str("enum")
    case Keyword => Str("keyword")
    case Snippet => Str("snippet")
    case Text => Str("text")
    case Color => Str("color")
    case File => Str("file")
    case Reference => Str("reference")
    case CustomColor => Str("customColor")
  }

  function DecodeCompletionItemType(j: Json): (r: Result<CompletionItemType>)
    ensures r.Ok? <==> j.Str? && j.s in CompletionItemTypeNames
    ensures !j.Str? ==> r == Fail(TypeError("string"))
    ensures j.Str? && r.Fail? ==> r == Fail(Unknown("CompletionItemType"))
  {
    var s :- GetString(j);
    if s == "method" then Ok(CompletionItemType.Method)
    else if s == "function" then Ok(CompletionItemType.Function)
    else if s == "constructor" then Ok(CompletionItemType.Constructor)
    else if s == "field" then Ok(CompletionItemType.Field)
    else if s == "variable" then Ok(CompletionItemType.Variable)
    else if s == "class" then Ok(CompletionItemType.Class)
    else if s == "interface" then Ok(CompletionItemType.Interface)
    else if s == "module" then Ok(CompletionItemType.Module)
    else if s == "property" then Ok(CompletionItemType.Property)
    else if s == "unit" then Ok(CompletionItemType.Unit)
    else if s == "value" then Ok(CompletionItemType.Value)
    else if s == "enum" then Ok(CompletionItemType.Enum)
    else if s == "keyword" then Ok(CompletionItemType.Keyword)
    else if s == "snippet" then Ok(CompletionItemType.Snippet)
    else if s == "text" then Ok(CompletionItemType.Text)
    else if s == "color" then Ok(CompletionItemType.Color)
    else if s == "file" then Ok(CompletionItemType.File)
    else if s == "reference" then Ok(CompletionItemType.Reference)
    else if s == "customColor" then Ok(CompletionItemType.CustomColor)
    else Fail(Unknown("CompletionItemType"))
  }

  /** `OutputGroup`: each constructor travels as one fixed string. */
  datatype OutputGroup = Start | StartCollapsed | End

  /** The strings `OutputGroup` decodes. */
  const OutputGroupNames: set<string> := {"start", "startCollapsed", "end"}

  function EncodeOutputGroup(e: OutputGroup): (j: Json)
    ensures j.Str? && j.s in OutputGroupNames
    ensures DecodeOutputGroup(j) == Ok(e)
  {
    match e
    case Start => Str("start")
    case StartCollapsed => Str("startCollapsed")
    case End => Str("end")
  }

  function DecodeOutputGroup(j: Json): (r: Result<OutputGroup>)
    ensures r.Ok? <==> j.Str? && j.s in OutputGroupNames
    ensures !j.Str? ==> r == Fail(TypeError("string"))
    ensures j.Str? && r.Fail? ==> r == Fail(Unknown("OutputGroup"))
  {
    var s :- GetString(j);
    if s == "start" then Ok(OutputGroup.Start)
    else if s == "startCollapsed" then Ok(OutputGroup.StartCollapsed)
    else if s == "end" then Ok(OutputGroup.End)
    else Fail(Unknown("OutputGroup"))
  }

  /** `ModuleReason`: each constructor travels as one fixed string. */
  datatype ModuleReason = New | Changed | Removed

  /** The strings `ModuleReason` decodes. */
  const ModuleReasonNames: set<string> := {"new", "changed", "removed"}

  function EncodeModuleReason(e: ModuleReason): (j: Json)
    ensures j.Str? && j.s in ModuleReasonNames
    ensures DecodeModuleReason(j) == Ok(e)
  {
    match e
    case New => Str("new")
    case Changed => Str("changed")
    case Removed => Str("removed")
  }

  function DecodeModuleReason(j: Json): (r: Result<ModuleReason>)
    ensures r.Ok? <==> j.Str? && j.s in ModuleReasonNames
    ensures !j.Str? ==> r == Fail(TypeError("string"))
    ensures j.Str? && r.Fail? ==> r == Fail(Unknown("ModuleReason"))
  {
    var s :- GetString(j);
    if s == "new" then Ok(ModuleReason.New)
    else if s == "changed" then Ok(ModuleReason.Changed)
    else if s == "removed" then Ok(ModuleReason.Removed)
    else Fail(Unknown("ModuleReason"))
  }

  /** `StartMethod`: each constructor travels as one fixed string. */
  datatype StartMethod = Launch | Attach | AttachForSuspendedLaunch

  /** The strings `StartMethod` decodes. */
  const StartMethodNames: set<string> := {"launch", "attach", "attachForSuspendedLaunch"}

  function EncodeStartMethod(e: StartMethod): (j: Json)
    ensures j.Str? && j.s in StartMethodNames
    ensures DecodeStartMethod(j) == Ok(e)
  {
    match e
    case Launch => Str("launch")
    case Attach => Str("attach")
    case AttachForSuspendedLaunch => Str("attachForSuspendedLaunch")
  }

  function DecodeStartMethod(j: Json): (r: Result<StartMethod>)
    ensures r.Ok? <==> j.Str? && j.s in StartMethodNames
    ensures !j.Str? ==> r == Fail(TypeError("string"))
    ensures j.Str? && r.Fail? ==> r == Fail(Unknown("StartMethod"))
  {
    var s :- GetString(j);
    if s == "launch" then Ok(StartMethod.Launch)
    else if s == "attach" then Ok(StartMethod.Attach)
    else if s == "attachForSuspendedLaunch" then Ok(StartMethod.AttachForSuspendedLaunch)
    else Fail(Unknown("StartMethod"))
  }

  /** `RunInTerminalKind`: each constructor travels as one fixed string. */
  datatype RunInTerminalKind = Integrated | External

  /** The strings `RunInTerminalKind` decodes. */
  const RunInTerminalKindNames: set<string> := {"integrated", "external"}

  function EncodeRunInTerminalKind(e: RunInTerminalKind): (j: Json)
    ensures j.Str? && j.s in RunInTerminalKindNames
    ensures DecodeRunInTerminalKind(j) == Ok(e)
  {
    match e
    case Integrated => Str("integrated")
    case External => Str("external")
  }

  function DecodeRunInTerminalKind(j: Json): (r: Result<RunInTerminalKind>)
    ensures r.Ok? <==> j.Str? && j.s in RunInTerminalKindNames
    ensures !j.Str? ==> r == Fail(TypeError("string"))
    ensures j.Str? && r.Fail? ==> r == Fail(Unknown("RunInTerminalKind"))
  {
    var s :- GetString(j);
    if s == "integrated" then Ok(RunInTerminalKind.Integrated)
    else if s == "external" then Ok(RunInTerminalKind.External)
    else Fail(Unknown("RunInTerminalKind"))
  }

  /** `VariablesFilter`: each constructor travels as one fixed string. */
  datatype VariablesFilter = Indexed | Named

  /** The strings `VariablesFilter` decodes. */
  const VariablesFilterNames: set<string> := {"indexed", "named"}

  function EncodeVariablesFilter(e: VariablesFilter): (j: Json)
    ensures j.Str? && j.s in VariablesFilterNames
    ensures DecodeVariablesFilter(j) == Ok(e)
  {
    match e
    case Indexed => Str("indexed")
    case Named => Str("named")
  }

  function DecodeVariablesFilter(j: Json): (r: Result<VariablesFilter>)
    ensures r.Ok? <==> j.Str? && j.s in VariablesFilterNames
    ensures !j.Str? ==> r == Fail(TypeError("string"))
    ensures j.Str? && r.Fail? ==> r == Fail(Unknown("VariablesFilter"))
  {
    var s :- GetString(j);
    if s == "indexed" then Ok(VariablesFilter.Indexed)
    else if s == "named" then Ok(VariablesFilter.Named)
    else Fail(Unknown("VariablesFilter"))
  }
}
