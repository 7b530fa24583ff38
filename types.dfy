module Types {
  import opened Json
  import opened Codec
  import opened Adl
  import opened Enums

  datatype ExceptionBreakpointsFilter = ExceptionBreakpointsFilter(filter: string, label_: string, description: Option<string>, default_: Option<bool>, supportsCondition: Option<bool>, conditionDescription: Option<string>)

  function EncodeExceptionBreakpointsFilter(x: ExceptionBreakpointsFilter): (j: Json)
    ensures DecodeExceptionBreakpointsFilter(j) == Ok(x)
  {
    var entries := map[
      "filter" := Some(OfString(x.filter)),
      "label" := Some(OfString(x.label_)),
      "description" := OptString(x.description),
      "default" := OptBool(x.default_),
      "supportsCondition" := OptBool(x.supportsCondition),
      "conditionDescription" := OptString(x.conditionDescription)
    ];
    RequiredStringRoundTrip(entries, "filter", x.filter);
    RequiredStringRoundTrip(entries, "label", x.label_);
    OptionalStringRoundTrip(entries, "description", x.description);
    OptionalBoolRoundTrip(entries, "default", x.default_);
    OptionalBoolRoundTrip(entries, "supportsCondition", x.supportsCondition);
    OptionalStringRoundTrip(entries, "conditionDescription", x.conditionDescription);
    Object(entries)
  }

  function DecodeExceptionBreakpointsFilter(j: Json): (r: Result<ExceptionBreakpointsFilter>)
    ensures r.Ok? ==> Find(j, "filter").Some? && Find(j, "label").Some?
  {
    var filter :- RequiredString(j, "filter");
    var label_ :- RequiredString(j, "label");
    var description :- OptionalString(j, "description");
    var default_ :- OptionalBool(j, "default");
    var supportsCondition :- OptionalBool(j, "supportsCondition");
    var conditionDescription :- OptionalString(j, "conditionDescription");
    Ok(ExceptionBreakpointsFilter.ExceptionBreakpointsFilter(filter, label_, description, default_, supportsCondition, conditionDescription))
  }

  datatype ExceptionFilterOptions = ExceptionFilterOptions(filterId: string, condition: Option<string>)

  function EncodeExceptionFilterOptions(x: ExceptionFilterOptions): (j: Json)
    ensures DecodeExceptionFilterOptions(j) == Ok(x)
  {
    var entries := map[
      "filterId" := Some(OfString(x.filterId)),
      "condition" := OptString(x.condition)
    ];
    RequiredStringRoundTrip(entries, "filterId", x.filterId);
    OptionalStringRoundTrip(entries, "condition", x.condition);
    Object(entries)
  }

  function DecodeExceptionFilterOptions(j: Json): (r: Result<ExceptionFilterOptions>)
    ensures r.Ok? ==> Find(j, "filterId").Some?
  {
    var filterId :- RequiredString(j, "filterId");
    var condition :- OptionalString(j, "condition");
    Ok(ExceptionFilterOptions.ExceptionFilterOptions(filterId, condition))
  }

  datatype ExceptionPathSegment = ExceptionPathSegment(negate: Option<bool>, name: seq<string>)

  function EncodeExceptionPathSegment(x: ExceptionPathSegment): (j: Json)
    ensures DecodeExceptionPathSegment(j) == Ok(x)
  {
    var entries := map[
      "name" := Some(EncodeList(x.name, OfString)),
      "negate" := OptBool(x.negate)
    ];
    RequiredListRoundTrip(entries, "name", x.name, OfString, GetString);
    OptionalBoolRoundTrip(entries, "negate", x.negate);
    Object(entries)
  }

  function DecodeExceptionPathSegment(j: Json): (r: Result<ExceptionPathSegment>)
    ensures r.Ok? ==> Find(j, "name").Some?
  {
    var name :- RequiredList(j, "name", GetString);
    var negate :- OptionalBool(j, "negate");
    Ok(ExceptionPathSegment.ExceptionPathSegment(negate, name))
  }

  datatype ExceptionOptions = ExceptionOptions(path: Option<seq<ExceptionPathSegment>>, breakMode: ExceptionBreakMode)

  function EncodeExceptionOptions(x: ExceptionOptions): (j: Json)
    ensures DecodeExceptionOptions(j) == Ok(x)
  {
    var entries := map[
      "breakMode" := Some(EncodeExceptionBreakMode(x.breakMode)),
      "path" := OptList(x.path, EncodeExceptionPathSegment)
    ];
    RequiredRoundTrip(entries, "breakMode", x.breakMode, EncodeExceptionBreakMode, DecodeExceptionBreakMode);
    OptionalListRoundTrip(entries, "path", x.path, EncodeExceptionPathSegment, DecodeExceptionPathSegment);
    Object(entries)
  }

  function DecodeExceptionOptions(j: Json): (r: Result<ExceptionOptions>)
    ensures r.Ok? ==> Find(j, "breakMode").Some?
  {
    var breakMode :- Required(j, "breakMode", DecodeExceptionBreakMode);
    var path :- OptionalList(j, "path", DecodeExceptionPathSegment);
    Ok(ExceptionOptions.ExceptionOptions(path, breakMode))
  }

  /**
   * `ExceptionDetails`. Its `innerExceptions` member is an optional list of
   * further details; like `Source.sources` it has a datatype of its own,
   * `InnerExceptions`, so that the recursion through it is visible to
   * termination checking.
   */
  datatype ExceptionDetails = ExceptionDetails(message: Option<string>, typeName: Option<string>, fullTypeName: Option<string>, evaluateName: Option<string>, stackTrace: Option<string>, innerExceptions: InnerExceptions)

  /** `std::optional<std::vector<ExceptionDetails>>`: no list, or a list. */
  datatype InnerExceptions = NoInnerExceptions | InnerExceptions(items: seq<ExceptionDetails>)

  /** The entries the encoder writes, one per member; absent optionals write none. */
  function ExceptionDetailsEntries(x: ExceptionDetails): map<string, Option<Json>>
    decreases x, 0
  {
    map[
      "message" := OptString(x.message),
      "typeName" := OptString(x.typeName),
      "fullTypeName" := OptString(x.fullTypeName),
      "evaluateName" := OptString(x.evaluateName),
      "stackTrace" := OptString(x.stackTrace),
      "innerExceptions" := EncodeInnerExceptions(x.innerExceptions)
    ]
  }

  function EncodeExceptionDetails(x: ExceptionDetails): (j: Json)
    ensures DecodeExceptionDetails(j) == Ok(x)
    decreases x, 1
  {
    var entries := ExceptionDetailsEntries(x);
    OptionalStringRoundTrip(entries, "message", x.message);
    OptionalStringRoundTrip(entries, "typeName", x.typeName);
    OptionalStringRoundTrip(entries, "fullTypeName", x.fullTypeName);
    OptionalStringRoundTrip(entries, "evaluateName", x.evaluateName);
    OptionalStringRoundTrip(entries, "stackTrace", x.stackTrace);
    FindObject(entries, "innerExceptions");
    Object(entries)
  }

  /** The entry `to_optJson` writes for the `innerExceptions` member: an array, or nothing. */
  function EncodeInnerExceptions(inner: InnerExceptions): (e: Option<Json>)
    ensures e.Some? <==> inner.InnerExceptions?
    ensures e.Some? ==> DecodeInnerExceptionList(e.value) == Ok(inner)
    decreases inner
  {
    match inner
    case NoInnerExceptions => None
    case InnerExceptions(items) =>
      var list := Arr(seq(|items|, i requires 0 <= i < |items| => EncodeExceptionDetails(items[i])));
      assert forall k | 0 <= k < |items| :: DecodeExceptionDetails(list.items[k]) == Ok(items[k]);
      assert DecodeInnerExceptionItems(list, 0).value == items;
      Some(list)
  }

  function DecodeExceptionDetails(j: Json): (r: Result<ExceptionDetails>)
    ensures !j.Obj? ==> r.Ok?
    decreases j, 0, 0
  {
    var message :- OptionalString(j, "message");
    var typeName :- OptionalString(j, "typeName");
    var fullTypeName :- OptionalString(j, "fullTypeName");
    var evaluateName :- OptionalString(j, "evaluateName");
    var stackTrace :- OptionalString(j, "stackTrace");
    var innerExceptions :- if j.Obj? && "innerExceptions" in j.fields then DecodeInnerExceptionList(j.fields["innerExceptions"]) else Ok(NoInnerExceptions);
    Ok(ExceptionDetails.ExceptionDetails(message, typeName, fullTypeName, evaluateName, stackTrace, innerExceptions))
  }

  /** `get<std::vector<ExceptionDetails>>()`: an array whose elements all decode. */
  function DecodeInnerExceptionList(j: Json): (r: Result<InnerExceptions>)
    ensures !j.Arr? ==> r == Fail(TypeError("array"))
    ensures j.Arr? ==> (r.Ok? <==> forall k | 0 <= k < |j.items| :: DecodeExceptionDetails(j.items[k]).Ok?)
    decreases j, 2, 0
  {
    if j.Arr? then
      var items :- DecodeInnerExceptionItems(j, 0);
      Ok(InnerExceptions(items))
    else Fail(TypeError("array"))
  }

  /** The elements of the array `j` from index `i` on, decoded in order; the first failure wins. */
  function DecodeInnerExceptionItems(j: Json, i: nat): (r: Result<seq<ExceptionDetails>>)
    requires j.Arr? && i <= |j.items|
    ensures r.Ok? <==> forall k | i <= k < |j.items| :: DecodeExceptionDetails(j.items[k]).Ok?
    ensures r.Ok? ==> |r.value| == |j.items| - i && forall k | i <= k < |j.items| :: DecodeExceptionDetails(j.items[k]) == Ok(r.value[k - i])
    decreases j, 1, |j.items| - i
  {
    if i == |j.items| then Ok([])
    else
      var first :- DecodeExceptionDetails(j.items[i]);
      var rest :- DecodeInnerExceptionItems(j, i + 1);
      Ok([first] + rest)
  }

  /**
   * Details with no member set write nothing and stay null, and details
   * with any member set become an object.
   */
  lemma ExceptionDetailsNullIffEmpty(x: ExceptionDetails)
    ensures EncodeExceptionDetails(x).Null? <==> x == ExceptionDetails.ExceptionDetails(None, None, None, None, None, NoInnerExceptions)
  {
    var entries := ExceptionDetailsEntries(x);
    ObjectKeys(entries);
    if x != ExceptionDetails.ExceptionDetails(None, None, None, None, None, NoInnerExceptions) {
      if x.message.Some? { assert entries["message"].Some?; }
      else if x.typeName.Some? { assert entries["typeName"].Some?; }
      else if x.fullTypeName.Some? { assert entries["fullTypeName"].Some?; }
      else if x.evaluateName.Some? { assert entries["evaluateName"].Some?; }
      else if x.stackTrace.Some? { assert entries["stackTrace"].Some?; }
      else { assert entries["innerExceptions"].Some?; }
    }
  }

  datatype ColumnDescriptor = ColumnDescriptor(attributeName: string, label_: string, format: Option<string>, type_: Option<ColumnDescriptorType>, width: Option<int64>)

  function EncodeColumnDescriptor(x: ColumnDescriptor): (j: Json)
    ensures DecodeColumnDescriptor(j) == Ok(x)
  {
    var entries := map[
      "attributeName" := Some(OfString(x.attributeName)),
      "label" := Some(OfString(x.label_)),
      "format" := OptString(x.format),
      "type" := Opt(x.type_, EncodeColumnDescriptorType),
      "width" := OptInt(x.width)
    ];
    RequiredStringRoundTrip(entries, "attributeName", x.attributeName);
    RequiredStringRoundTrip(entries, "label", x.label_);
    OptionalStringRoundTrip(entries, "format", x.format);
    OptionalRoundTrip(entries, "type", x.type_, EncodeColumnDescriptorType, DecodeColumnDescriptorType);
    OptionalIntRoundTrip(entries, "width", x.width);
    Object(entries)
  }

  function DecodeColumnDescriptor(j: Json): (r: Result<ColumnDescriptor>)
    ensures r.Ok? ==> Find(j, "attributeName").Some? && Find(j, "label").Some?
  {
    var attributeName :- RequiredString(j, "attributeName");
    var label_ :- RequiredString(j, "label");
    var format :- OptionalString(j, "format");
    var type_ :- FromOptJson(j, "type", DecodeColumnDescriptorType);
    var width :- OptionalInt(j, "width");
    Ok(ColumnDescriptor.ColumnDescriptor(attributeName, label_, format, type_, width))
  }

  datatype Checksum = Checksum(algorithm: CheckSumAlgorithm, checksum: string)

  function EncodeChecksum(x: Checksum): (j: Json)
    ensures DecodeChecksum(j) == Ok(x)
  {
    var entries := map[
      "algorithm" := Some(EncodeCheckSumAlgorithm(x.algorithm)),
      "checksum" := Some(OfString(x.checksum))
    ];
    RequiredRoundTrip(entries, "algorithm", x.algorithm, EncodeCheckSumAlgorithm, DecodeCheckSumAlgorithm);
    RequiredStringRoundTrip(entries, "checksum", x.checksum);
    Object(entries)
  }

  function DecodeChecksum(j: Json): (r: Result<Checksum>)
    ensures r.Ok? ==> Find(j, "algorithm").Some? && Find(j, "checksum").Some?
  {
    var algorithm :- Required(j, "algorithm", DecodeCheckSumAlgorithm);
    var checksum :- RequiredString(j, "checksum");
    Ok(Checksum.Checksum(algorithm, checksum))
  }

  datatype Capabilities = Capabilities(supportsConfigurationDoneRequest: Option<bool>, supportsFunctionBreakpoints: Option<bool>, supportsHitConditionalBreakpoints: Option<bool>, supportsEvaluateForHovers: Option<bool>, exceptionBreakpointFilters: Option<seq<ExceptionBreakpointsFilter>>, supportsStepBack: Option<bool>, supportsSetVariables: Option<bool>, supportsRestartFrame: Option<bool>, supportsGotoTargetsRequest: Option<bool>, supportsStepInTargetsRequest: Option<bool>, supportsCompletionsRequest: Option<bool>, completionTriggerCharacters: Option<seq<string>>, supportsModulesRequest: Option<bool>, additionalModuleColumns: Option<seq<ColumnDescriptor>>, supportedChecksumAlgorithms: Option<seq<CheckSumAlgorithm>>, supportsRestartRequest: Option<bool>, supportsExceptionOptions: Option<bool>, supportsValueFormattingOptions: Option<bool>, supportsExceptionInfoRequest: Option<bool>, supportTerminateDebugee: Option<bool>, supportSuspendDebugee: Option<bool>, supportsDelayedStackTraceLoading: Option<bool>, supportsLoadedSourcesRequest: Option<bool>, supportsLogPoints: Option<bool>, supportsTerminateThreadsRequest: Option<bool>, supportsSetExpression: Option<bool>, supportsTerminateRequest: Option<bool>, supportsDataBreakpoints: Option<bool>, supportsReadMemoryRequest: Option<bool>, supportsWriteMemoryRequest: Option<bool>, supportsDisassembleRequest: Option<bool>, supportsCancelRequest: Option<bool>, supportsBreakpointLocationRequest: Option<bool>, supportsClipboardContext: Option<bool>, supportsSteppingGranularity: Option<bool>, supportsInstructionBreakpoints: Option<bool>, supportsExceptionFilterOptions: Option<bool>, supportsSingleThreadExecutionRequests: Option<bool>)

  /** The entries the encoder writes, one per member; absent optionals write none. */
  function CapabilitiesEntries(x: Capabilities): map<string, Option<Json>> {
    map[
      "supportsConfigurationDoneRequest" := OptBool(x.supportsConfigurationDoneRequest),
      "supportsFunctionBreakpoints" := OptBool(x.supportsFunctionBreakpoints),
      "supportsHitConditionalBreakpoints" := OptBool(x.supportsHitConditionalBreakpoints),
      "supportsEvaluateForHovers" := OptBool(x.supportsEvaluateForHovers),
      "exceptionBreakpointFilters" := OptList(x.exceptionBreakpointFilters, EncodeExceptionBreakpointsFilter),
      "supportsStepBack" := OptBool(x.supportsStepBack),
      "supportsSetVariables" := OptBool(x.supportsSetVariables),
      "supportsRestartFrame" := OptBool(x.supportsRestartFrame),
      "supportsGotoTargetsRequest" := OptBool(x.supportsGotoTargetsRequest),
      "supportsStepInTargetsRequest" := OptBool(x.supportsStepInTargetsRequest),
      "supportsCompletionsRequest" := OptBool(x.supportsCompletionsRequest),
      "completionTriggerCharacters" := OptList(x.completionTriggerCharacters, OfString),
      "supportsModulesRequest" := OptBool(x.supportsModulesRequest),
      "additionalModuleColumns" := OptList(x.additionalModuleColumns, EncodeColumnDescriptor),
      "supportedChecksumAlgorithms" := OptList(x.supportedChecksumAlgorithms, EncodeCheckSumAlgorithm),
      "supportsRestartRequest" := OptBool(x.supportsRestartRequest),
      "supportsExceptionOptions" := OptBool(x.supportsExceptionOptions),
      "supportsValueFormattingOptions" := OptBool(x.supportsValueFormattingOptions),
      "supportsExceptionInfoRequest" := OptBool(x.supportsExceptionInfoRequest),
      "supportTerminateDebugee" := OptBool(x.supportTerminateDebugee),
      "supportSuspendDebugee" := OptBool(x.supportSuspendDebugee),
      "supportsDelayedStackTraceLoading" := OptBool(x.supportsDelayedStackTraceLoading),
      "supportsLoadedSourcesRequest" := OptBool(x.supportsLoadedSourcesRequest),
      "supportsLogPoints" := OptBool(x.supportsLogPoints),
      "supportsTerminateThreadsRequest" := OptBool(x.supportsTerminateThreadsRequest),
      "supportsSetExpression" := OptBool(x.supportsSetExpression),
      "supportsTerminateRequest" := OptBool(x.supportsTerminateRequest),
      "supportsDataBreakpoints" := OptBool(x.supportsDataBreakpoints),
      "supportsReadMemoryRequest" := OptBool(x.supportsReadMemoryRequest),
      "supportsWriteMemoryRequest" := OptBool(x.supportsWriteMemoryRequest),
      "supportsDisassembleRequest" := OptBool(x.supportsDisassembleRequest),
      "supportsCancelRequest" := OptBool(x.supportsCancelRequest),
      "supportsBreakpointLocationRequest" := OptBool(x.supportsBreakpointLocationRequest),
      "supportsClipboardContext" := OptBool(x.supportsClipboardContext),
      "supportsSteppingGranularity" := OptBool(x.supportsSteppingGranularity),
      "supportsInstructionBreakpoints" := OptBool(x.supportsInstructionBreakpoints),
      "supportsExceptionFilterOptions" := OptBool(x.supportsExceptionFilterOptions),
      "supportsSingleThreadExecutionRequests" := OptBool(x.supportsSingleThreadExecutionRequests)
    ]
  }

  lemma CapabilitiesMembersRoundTrip0(x: Capabilities)
    ensures OptionalBool(Object(CapabilitiesEntries(x)), "supportsConfigurationDoneRequest") == Ok(x.supportsConfigurationDoneRequest)
  {
    var entries := CapabilitiesEntries(x);
    OptionalBoolRoundTrip(entries, "supportsConfigurationDoneRequest", x.supportsConfigurationDoneRequest);
  }

  lemma CapabilitiesMembersRoundTrip1(x: Capabilities)
    ensures OptionalBool(Object(CapabilitiesEntries(x)), "supportsFunctionBreakpoints") == Ok(x.supportsFunctionBreakpoints)
  {
    var entries := CapabilitiesEntries(x);
    OptionalBoolRoundTrip(entries, "supportsFunctionBreakpoints", x.supportsFunctionBreakpoints);
  }

  lemma CapabilitiesMembersRoundTrip2(x: Capabilities)
    ensures OptionalBool(Object(CapabilitiesEntries(x)), "supportsHitConditionalBreakpoints") == Ok(x.supportsHitConditionalBreakpoints)
  {
    var entries := CapabilitiesEntries(x);
    OptionalBoolRoundTrip(entries, "supportsHitConditionalBreakpoints", x.supportsHitConditionalBreakpoints);
  }

  lemma CapabilitiesMembersRoundTrip3(x: Capabilities)
    ensures OptionalBool(Object(CapabilitiesEntries(x)), "supportsEvaluateForHovers") == Ok(x.supportsEvaluateForHovers)
  {
    var entries := CapabilitiesEntries(x);
    OptionalBoolRoundTrip(entries, "supportsEvaluateForHovers", x.supportsEvaluateForHovers);
  }

  lemma CapabilitiesMembersRoundTrip4(x: Capabilities)
    ensures OptionalList(Object(CapabilitiesEntries(x)), "exceptionBreakpointFilters", DecodeExceptionBreakpointsFilter) == Ok(x.exceptionBreakpointFilters)
  {
    var entries := CapabilitiesEntries(x);
    OptionalListRoundTrip(entries, "exceptionBreakpointFilters", x.exceptionBreakpointFilters, EncodeExceptionBreakpointsFilter, DecodeExceptionBreakpointsFilter);
  }

  lemma CapabilitiesMembersRoundTrip5(x: Capabilities)
    ensures OptionalBool(Object(CapabilitiesEntries(x)), "supportsStepBack") == Ok(x.supportsStepBack)
  {
    var entries := CapabilitiesEntries(x);
    OptionalBoolRoundTrip(entries, "supportsStepBack", x.supportsStepBack);
  }

  lemma CapabilitiesMembersRoundTrip6(x: Capabilities)
    ensures OptionalBool(Object(CapabilitiesEntries(x)), "supportsSetVariables") == Ok(x.supportsSetVariables)
  {
    var entries := CapabilitiesEntries(x);
    OptionalBoolRoundTrip(entries, "supportsSetVariables", x.supportsSetVariables);
  }

  lemma CapabilitiesMembersRoundTrip7(x: Capabilities)
    ensures OptionalBool(Object(CapabilitiesEntries(x)), "supportsRestartFrame") == Ok(x.supportsRestartFrame)
  {
    var entries := CapabilitiesEntries(x);
    OptionalBoolRoundTrip(entries, "supportsRestartFrame", x.supportsRestartFrame);
  }

  lemma CapabilitiesMembersRoundTrip8(x: Capabilities)
    ensures OptionalBool(Object(CapabilitiesEntries(x)), "supportsGotoTargetsRequest") == Ok(x.supportsGotoTargetsRequest)
  {
    var entries := CapabilitiesEntries(x);
    OptionalBoolRoundTrip(entries, "supportsGotoTargetsRequest", x.supportsGotoTargetsRequest);
  }

  lemma CapabilitiesMembersRoundTrip9(x: Capabilities)
    ensures OptionalBool(Object(CapabilitiesEntries(x)), "supportsStepInTargetsRequest") == Ok(x.supportsStepInTargetsRequest)
  {
    var entries := CapabilitiesEntries(x);
    OptionalBoolRoundTrip(entries, "supportsStepInTargetsRequest", x.supportsStepInTargetsRequest);
  }

  lemma CapabilitiesMembersRoundTrip10(x: Capabilities)
    ensures OptionalBool(Object(CapabilitiesEntries(x)), "supportsCompletionsRequest") == Ok(x.supportsCompletionsRequest)
  {
    var entries := CapabilitiesEntries(x);
    OptionalBoolRoundTrip(entries, "supportsCompletionsRequest", x.supportsCompletionsRequest);
  }

  lemma CapabilitiesMembersRoundTrip11(x: Capabilities)
    ensures OptionalList(Object(CapabilitiesEntries(x)), "completionTriggerCharacters", GetString) == Ok(x.completionTriggerCharacters)
  {
    var entries := CapabilitiesEntries(x);
    OptionalListRoundTrip(entries, "completionTriggerCharacters", x.completionTriggerCharacters, OfString, GetString);
  }

  lemma CapabilitiesMembersRoundTrip12(x: Capabilities)
    ensures OptionalBool(Object(CapabilitiesEntries(x)), "supportsModulesRequest") == Ok(x.supportsModulesRequest)
  {
    var entries := CapabilitiesEntries(x);
    OptionalBoolRoundTrip(entries, "supportsModulesRequest", x.supportsModulesRequest);
  }

  lemma CapabilitiesMembersRoundTrip13(x: Capabilities)
    ensures OptionalList(Object(CapabilitiesEntries(x)), "additionalModuleColumns", DecodeColumnDescriptor) == Ok(x.additionalModuleColumns)
  {
    var entries := CapabilitiesEntries(x);
    OptionalListRoundTrip(entries, "additionalModuleColumns", x.additionalModuleColumns, EncodeColumnDescriptor, DecodeColumnDescriptor);
  }

  lemma CapabilitiesMembersRoundTrip14(x: Capabilities)
    ensures OptionalList(Object(CapabilitiesEntries(x)), "supportedChecksumAlgorithms", DecodeCheckSumAlgorithm) == Ok(x.supportedChecksumAlgorithms)
  {
    var entries := CapabilitiesEntries(x);
    OptionalListRoundTrip(entries, "supportedChecksumAlgorithms", x.supportedChecksumAlgorithms, EncodeCheckSumAlgorithm, DecodeCheckSumAlgorithm);
  }

  lemma CapabilitiesMembersRoundTrip15(x: Capabilities)
    ensures OptionalBool(Object(CapabilitiesEntries(x)), "supportsRestartRequest") == Ok(x.supportsRestartRequest)
  {
    var entries := CapabilitiesEntries(x);
    OptionalBoolRoundTrip(entries, "supportsRestartRequest", x.supportsRestartRequest);
  }

  lemma CapabilitiesMembersRoundTrip16(x: Capabilities)
    ensures OptionalBool(Object(CapabilitiesEntries(x)), "supportsExceptionOptions") == Ok(x.supportsExceptionOptions)
  {
    var entries := CapabilitiesEntries(x);
    OptionalBoolRoundTrip(entries, "supportsExceptionOptions", x.supportsExceptionOptions);
  }

  lemma CapabilitiesMembersRoundTrip17(x: Capabilities)
    ensures OptionalBool(Object(CapabilitiesEntries(x)), "supportsValueFormattingOptions") == Ok(x.supportsValueFormattingOptions)
  {
    var entries := CapabilitiesEntries(x);
    OptionalBoolRoundTrip(entries, "supportsValueFormattingOptions", x.supportsValueFormattingOptions);
  }

  lemma CapabilitiesMembersRoundTrip18(x: Capabilities)
    ensures OptionalBool(Object(CapabilitiesEntries(x)), "supportsExceptionInfoRequest") == Ok(x.supportsExceptionInfoRequest)
  {
    var entries := CapabilitiesEntries(x);
    OptionalBoolRoundTrip(entries, "supportsExceptionInfoRequest", x.supportsExceptionInfoRequest);
  }

  lemma CapabilitiesMembersRoundTrip19(x: Capabilities)
    ensures OptionalBool(Object(CapabilitiesEntries(x)), "supportTerminateDebugee") == Ok(x.supportTerminateDebugee)
    ensures OptionalBool(Object(CapabilitiesEntries(x)), "supportSuspendDebugee") == Ok(x.supportSuspendDebugee)
  {
    var entries := CapabilitiesEntries(x);
    OptionalBoolRoundTrip(entries, "supportTerminateDebugee", x.supportTerminateDebugee);
    OptionalBoolRoundTrip(entries, "supportSuspendDebugee", x.supportSuspendDebugee);
  }

  lemma CapabilitiesMembersRoundTrip20(x: Capabilities)
    ensures OptionalBool(Object(CapabilitiesEntries(x)), "supportsDelayedStackTraceLoading") == Ok(x.supportsDelayedStackTraceLoading)
    ensures OptionalBool(Object(CapabilitiesEntries(x)), "supportsLoadedSourcesRequest") == Ok(x.supportsLoadedSourcesRequest)
  {
    var entries := CapabilitiesEntries(x);
    OptionalBoolRoundTrip(entries, "supportsDelayedStackTraceLoading", x.supportsDelayedStackTraceLoading);
    OptionalBoolRoundTrip(entries, "supportsLoadedSourcesRequest", x.supportsLoadedSourcesRequest);
  }

  lemma CapabilitiesMembersRoundTrip21(x: Capabilities)
    ensures OptionalBool(Object(CapabilitiesEntries(x)), "supportsLogPoints") == Ok(x.supportsLogPoints)
    ensures OptionalBool(Object(CapabilitiesEntries(x)), "supportsTerminateThreadsRequest") == Ok(x.supportsTerminateThreadsRequest)
  {
    var entries := CapabilitiesEntries(x);
    OptionalBoolRoundTrip(entries, "supportsLogPoints", x.supportsLogPoints);
    OptionalBoolRoundTrip(entries, "supportsTerminateThreadsRequest", x.supportsTerminateThreadsRequest);
  }

  lemma CapabilitiesMembersRoundTrip22(x: Capabilities)
    ensures OptionalBool(Object(CapabilitiesEntries(x)), "supportsSetExpression") == Ok(x.supportsSetExpression)
    ensures OptionalBool(Object(CapabilitiesEntries(x)), "supportsTerminateRequest") == Ok(x.supportsTerminateRequest)
    ensures OptionalBool(Object(CapabilitiesEntries(x)), "supportsDataBreakpoints") == Ok(x.supportsDataBreakpoints)
  {
    var entries := CapabilitiesEntries(x);
    OptionalBoolRoundTrip(entries, "supportsSetExpression", x.supportsSetExpression);
    OptionalBoolRoundTrip(entries, "supportsTerminateRequest", x.supportsTerminateRequest);
    OptionalBoolRoundTrip(entries, "supportsDataBreakpoints", x.supportsDataBreakpoints);
  }

  lemma CapabilitiesMembersRoundTrip23(x: Capabilities)
    ensures OptionalBool(Object(CapabilitiesEntries(x)), "supportsReadMemoryRequest") == Ok(x.supportsReadMemoryRequest)
    ensures OptionalBool(Object(CapabilitiesEntries(x)), "supportsWriteMemoryRequest") == Ok(x.supportsWriteMemoryRequest)
    ensures OptionalBool(Object(CapabilitiesEntries(x)), "supportsDisassembleRequest") == Ok(x.supportsDisassembleRequest)
  {
    var entries := CapabilitiesEntries(x);
    OptionalBoolRoundTrip(entries, "supportsReadMemoryRequest", x.supportsReadMemoryRequest);
    OptionalBoolRoundTrip(entries, "supportsWriteMemoryRequest", x.supportsWriteMemoryRequest);
    OptionalBoolRoundTrip(entries, "supportsDisassembleRequest", x.supportsDisassembleRequest);
  }

  lemma CapabilitiesMembersRoundTrip24(x: Capabilities)
    ensures OptionalBool(Object(CapabilitiesEntries(x)), "supportsCancelRequest") == Ok(x.supportsCancelRequest)
    ensures OptionalBool(Object(CapabilitiesEntries(x)), "supportsBreakpointLocationRequest") == Ok(x.supportsBreakpointLocationRequest)
    ensures OptionalBool(Object(CapabilitiesEntries(x)), "supportsClipboardContext") == Ok(x.supportsClipboardContext)
  {
    var entries := CapabilitiesEntries(x);
    OptionalBoolRoundTrip(entries, "supportsCancelRequest", x.supportsCancelRequest);
    OptionalBoolRoundTrip(entries, "supportsBreakpointLocationRequest", x.supportsBreakpointLocationRequest);
    OptionalBoolRoundTrip(entries, "supportsClipboardContext", x.supportsClipboardContext);
  }

  lemma CapabilitiesMembersRoundTrip25(x: Capabilities)
    ensures OptionalBool(Object(CapabilitiesEntries(x)), "supportsSteppingGranularity") == Ok(x.supportsSteppingGranularity)
    ensures OptionalBool(Object(CapabilitiesEntries(x)), "supportsInstructionBreakpoints") == Ok(x.supportsInstructionBreakpoints)
    ensures OptionalBool(Object(CapabilitiesEntries(x)), "supportsExceptionFilterOptions") == Ok(x.supportsExceptionFilterOptions)
  {
    var entries := CapabilitiesEntries(x);
    OptionalBoolRoundTrip(entries, "supportsSteppingGranularity", x.supportsSteppingGranularity);
    OptionalBoolRoundTrip(entries, "supportsInstructionBreakpoints", x.supportsInstructionBreakpoints);
    OptionalBoolRoundTrip(entries, "supportsExceptionFilterOptions", x.supportsExceptionFilterOptions);
  }

  lemma CapabilitiesMembersRoundTrip26(x: Capabilities)
    ensures OptionalBool(Object(CapabilitiesEntries(x)), "supportsSingleThreadExecutionRequests") == Ok(x.supportsSingleThreadExecutionRequests)
  {
    var entries := CapabilitiesEntries(x);
    OptionalBoolRoundTrip(entries, "supportsSingleThreadExecutionRequests", x.supportsSingleThreadExecutionRequests);
  }

  function EncodeCapabilities(x: Capabilities): (j: Json)
    ensures DecodeCapabilities(j) == Ok(x)
  {
    CapabilitiesMembersRoundTrip0(x);
    CapabilitiesMembersRoundTrip1(x);
    CapabilitiesMembersRoundTrip2(x);
    CapabilitiesMembersRoundTrip3(x);
    CapabilitiesMembersRoundTrip4(x);
    CapabilitiesMembersRoundTrip5(x);
    CapabilitiesMembersRoundTrip6(x);
    CapabilitiesMembersRoundTrip7(x);
    CapabilitiesMembersRoundTrip8(x);
    CapabilitiesMembersRoundTrip9(x);
    CapabilitiesMembersRoundTrip10(x);
    CapabilitiesMembersRoundTrip11(x);
    CapabilitiesMembersRoundTrip12(x);
    CapabilitiesMembersRoundTrip13(x);
    CapabilitiesMembersRoundTrip14(x);
    CapabilitiesMembersRoundTrip15(x);
    CapabilitiesMembersRoundTrip16(x);
    CapabilitiesMembersRoundTrip17(x);
    CapabilitiesMembersRoundTrip18(x);
    CapabilitiesMembersRoundTrip19(x);
    CapabilitiesMembersRoundTrip20(x);
    CapabilitiesMembersRoundTrip21(x);
    CapabilitiesMembersRoundTrip22(x);
    CapabilitiesMembersRoundTrip23(x);
    CapabilitiesMembersRoundTrip24(x);
    CapabilitiesMembersRoundTrip25(x);
    CapabilitiesMembersRoundTrip26(x);
    Object(CapabilitiesEntries(x))
  }

  function DecodeCapabilities(j: Json): (r: Result<Capabilities>)
    ensures !j.Obj? ==> r.Ok?
  {
    var first :- DecodeCapabilitiesFirst(j);
    var second :- DecodeCapabilitiesSecond(j);
    var third :- DecodeCapabilitiesThird(j);
    var fourth :- DecodeCapabilitiesFourth(j);
    Ok(Capabilities.Capabilities(first.0, first.1, first.2, first.3, first.4, first.5, first.6, first.7, first.8, first.9, second.0, second.1, second.2, second.3, second.4, second.5, second.6, second.7, second.8, second.9, third.0, third.1, third.2, third.3, third.4, third.5, third.6, third.7, third.8, third.9, fourth.0, fourth.1, fourth.2, fourth.3, fourth.4, fourth.5, fourth.6, fourth.7))
  }

  /** The first group of members, read in order; the first failure wins. */
  function DecodeCapabilitiesFirst(j: Json): (r: Result<(Option<bool>, Option<bool>, Option<bool>, Option<bool>, Option<seq<ExceptionBreakpointsFilter>>, Option<bool>, Option<bool>, Option<bool>, Option<bool>, Option<bool>)>)
    ensures !j.Obj? ==> r.Ok?
  {
    var supportsConfigurationDoneRequest :- OptionalBool(j, "supportsConfigurationDoneRequest");
    var supportsFunctionBreakpoints :- OptionalBool(j, "supportsFunctionBreakpoints");
    var supportsHitConditionalBreakpoints :- OptionalBool(j, "supportsHitConditionalBreakpoints");
    var supportsEvaluateForHovers :- OptionalBool(j, "supportsEvaluateForHovers");
    var exceptionBreakpointFilters :- OptionalList(j, "exceptionBreakpointFilters", DecodeExceptionBreakpointsFilter);
    var supportsStepBack :- OptionalBool(j, "supportsStepBack");
    var supportsSetVariables :- OptionalBool(j, "supportsSetVariables");
    var supportsRestartFrame :- OptionalBool(j, "supportsRestartFrame");
    var supportsGotoTargetsRequest :- OptionalBool(j, "supportsGotoTargetsRequest");
    var supportsStepInTargetsRequest :- OptionalBool(j, "supportsStepInTargetsRequest");
    Ok((supportsConfigurationDoneRequest, supportsFunctionBreakpoints, supportsHitConditionalBreakpoints, supportsEvaluateForHovers, exceptionBreakpointFilters, supportsStepBack, supportsSetVariables, supportsRestartFrame, supportsGotoTargetsRequest, supportsStepInTargetsRequest))
  }

  /** The second group of members, read in order; the first failure wins. */
  function DecodeCapabilitiesSecond(j: Json): (r: Result<(Option<bool>, Option<seq<string>>, Option<bool>, Option<seq<ColumnDescriptor>>, Option<seq<CheckSumAlgorithm>>, Option<bool>, Option<bool>, Option<bool>, Option<bool>, Option<bool>)>)
    ensures !j.Obj? ==> r.Ok?
  {
    var supportsCompletionsRequest :- OptionalBool(j, "supportsCompletionsRequest");
    var completionTriggerCharacters :- OptionalList(j, "completionTriggerCharacters", GetString);
    var supportsModulesRequest :- OptionalBool(j, "supportsModulesRequest");
    var additionalModuleColumns :- OptionalList(j, "additionalModuleColumns", DecodeColumnDescriptor);
    var supportedChecksumAlgorithms :- OptionalList(j, "supportedChecksumAlgorithms", DecodeCheckSumAlgorithm);
    var supportsRestartRequest :- OptionalBool(j, "supportsRestartRequest");
    var supportsExceptionOptions :- OptionalBool(j, "supportsExceptionOptions");
    var supportsValueFormattingOptions :- OptionalBool(j, "supportsValueFormattingOptions");
    var supportsExceptionInfoRequest :- OptionalBool(j, "supportsExceptionInfoRequest");
    var supportTerminateDebugee :- OptionalBool(j, "supportTerminateDebugee");
    Ok((supportsCompletionsRequest, completionTriggerCharacters, supportsModulesRequest, additionalModuleColumns, supportedChecksumAlgorithms, supportsRestartRequest, supportsExceptionOptions, supportsValueFormattingOptions, supportsExceptionInfoRequest, supportTerminateDebugee))
  }

  /** The third group of members, read in order; the first failure wins. */
  function DecodeCapabilitiesThird(j: Json): (r: Result<(Option<bool>, Option<bool>, Option<bool>, Option<bool>, Option<bool>, Option<bool>, Option<bool>, Option<bool>, Option<bool>, Option<bool>)>)
    ensures !j.Obj? ==> r.Ok?
  {
    var supportSuspendDebugee :- OptionalBool(j, "supportSuspendDebugee");
    var supportsDelayedStackTraceLoading :- OptionalBool(j, "supportsDelayedStackTraceLoading");
    var supportsLoadedSourcesRequest :- OptionalBool(j, "supportsLoadedSourcesRequest");
    var supportsLogPoints :- OptionalBool(j, "supportsLogPoints");
    var supportsTerminateThreadsRequest :- OptionalBool(j, "supportsTerminateThreadsRequest");
    var supportsSetExpression :- OptionalBool(j, "supportsSetExpression");
    var supportsTerminateRequest :- OptionalBool(j, "supportsTerminateRequest");
    var supportsDataBreakpoints :- OptionalBool(j, "supportsDataBreakpoints");
    var supportsReadMemoryRequest :- OptionalBool(j, "supportsReadMemoryRequest");
    var supportsWriteMemoryRequest :- OptionalBool(j, "supportsWriteMemoryRequest");
    Ok((supportSuspendDebugee, supportsDelayedStackTraceLoading, supportsLoadedSourcesRequest, supportsLogPoints, supportsTerminateThreadsRequest, supportsSetExpression, supportsTerminateRequest, supportsDataBreakpoints, supportsReadMemoryRequest, supportsWriteMemoryRequest))
  }

  /** The fourth group of members, read in order; the first failure wins. */
  function DecodeCapabilitiesFourth(j: Json): (r: Result<(Option<bool>, Option<bool>, Option<bool>, Option<bool>, Option<bool>, Option<bool>, Option<bool>, Option<bool>)>)
    ensures !j.Obj? ==> r.Ok?
  {
    var supportsDisassembleRequest :- OptionalBool(j, "supportsDisassembleRequest");
    var supportsCancelRequest :- OptionalBool(j, "supportsCancelRequest");
    var supportsBreakpointLocationRequest :- OptionalBool(j, "supportsBreakpointLocationRequest");
    var supportsClipboardContext :- OptionalBool(j, "supportsClipboardContext");
    var supportsSteppingGranularity :- OptionalBool(j, "supportsSteppingGranularity");
    var supportsInstructionBreakpoints :- OptionalBool(j, "supportsInstructionBreakpoints");
    var supportsExceptionFilterOptions :- OptionalBool(j, "supportsExceptionFilterOptions");
    var supportsSingleThreadExecutionRequests :- OptionalBool(j, "supportsSingleThreadExecutionRequests");
    Ok((supportsDisassembleRequest, supportsCancelRequest, supportsBreakpointLocationRequest, supportsClipboardContext, supportsSteppingGranularity, supportsInstructionBreakpoints, supportsExceptionFilterOptions, supportsSingleThreadExecutionRequests))
  }

  /**
   * `Source`. Its `sources` member is an optional list of further sources;
   * it has a datatype of its own, `Sources`, so that the recursion through
   * it is visible to termination checking.
   */
  datatype Source = Source(name: Option<string>, path: Option<string>, sourceReference: Option<int64>, presentationHint: Option<SourcePresentationHint>, origin: Option<string>, sources: Sources, adapterData: Option<Json>, checksums: Option<seq<Checksum>>)

  /** `std::optional<std::vector<Source>>`: no list, or a list. */
  datatype Sources = NoSources | Sources(items: seq<Source>)

  function EncodeSource(x: Source): (j: Json)
    ensures DecodeSource(j) == Ok(x)
    decreases x, 0
  {
    var entries := map[
      "name" := OptString(x.name),
      "path" := OptString(x.path),
      "sourceReference" := OptInt(x.sourceReference),
      "presentationHint" := Opt(x.presentationHint, EncodeSourcePresentationHint),
      "origin" := OptString(x.origin),
      "sources" := EncodeSources(x.sources),
      "adapterData" := x.adapterData,
      "checksums" := OptList(x.checksums, EncodeChecksum)
    ];
    OptionalStringRoundTrip(entries, "name", x.name);
    OptionalStringRoundTrip(entries, "path", x.path);
    OptionalIntRoundTrip(entries, "sourceReference", x.sourceReference);
    OptionalRoundTrip(entries, "presentationHint", x.presentationHint, EncodeSourcePresentationHint, DecodeSourcePresentationHint);
    OptionalStringRoundTrip(entries, "origin", x.origin);
    FindObject(entries, "sources");
    OptionalJsonRoundTrip(entries, "adapterData", x.adapterData);
    OptionalListRoundTrip(entries, "checksums", x.checksums, EncodeChecksum, DecodeChecksum);
    Object(entries)
  }

  /** The entry `to_optJson` writes for the `sources` member: an array, or nothing. */
  function EncodeSources(sources: Sources): (e: Option<Json>)
    ensures e.Some? <==> sources.Sources?
    ensures e.Some? ==> DecodeSourceList(e.value) == Ok(sources)
    decreases sources
  {
    match sources
    case NoSources => None
    case Sources(items) =>
      var list := Arr(seq(|items|, i requires 0 <= i < |items| => EncodeSource(items[i])));
      assert forall k | 0 <= k < |items| :: DecodeSource(list.items[k]) == Ok(items[k]);
      assert DecodeSourceItems(list, 0).value == items;
      Some(list)
  }

  function DecodeSource(j: Json): (r: Result<Source>)
    ensures !j.Obj? ==> r.Ok?
    decreases j, 0, 0
  {
    var name :- OptionalString(j, "name");
    var path :- OptionalString(j, "path");
    var sourceReference :- OptionalInt(j, "sourceReference");
    var presentationHint :- FromOptJson(j, "presentationHint", DecodeSourcePresentationHint);
    var origin :- OptionalString(j, "origin");
    var sources :- if j.Obj? && "sources" in j.fields then DecodeSourceList(j.fields["sources"]) else Ok(NoSources);
    var adapterData := OptionalJson(j, "adapterData");
    var checksums :- OptionalList(j, "checksums", DecodeChecksum);
    Ok(Source(name, path, sourceReference, presentationHint, origin, sources, adapterData, checksums))
  }

  /** `get<std::vector<Source>>()`: an array whose elements all decode. */
  function DecodeSourceList(j: Json): (r: Result<Sources>)
    ensures !j.Arr? ==> r == Fail(TypeError("array"))
    ensures j.Arr? ==> (r.Ok? <==> forall k | 0 <= k < |j.items| :: DecodeSource(j.items[k]).Ok?)
    decreases j, 2, 0
  {
    if j.Arr? then
      var items :- DecodeSourceItems(j, 0);
      Ok(Sources(items))
    else Fail(TypeError("array"))
  }

  /** The elements of the array `j` from index `i` on, decoded in order; the first failure wins. */
  function DecodeSourceItems(j: Json, i: nat): (r: Result<seq<Source>>)
    requires j.Arr? && i <= |j.items|
    ensures r.Ok? <==> forall k | i <= k < |j.items| :: DecodeSource(j.items[k]).Ok?
    ensures r.Ok? ==> |r.value| == |j.items| - i && forall k | i <= k < |j.items| :: DecodeSource(j.items[k]) == Ok(r.value[k - i])
    decreases j, 1, |j.items| - i
  {
    if i == |j.items| then Ok([])
    else
      var first :- DecodeSource(j.items[i]);
      var rest :- DecodeSourceItems(j, i + 1);
      Ok([first] + rest)
  }

  /** The example program: a Source with only a name and the `normal` presentation hint writes exactly those two members. */
  lemma HelloWorldSource()
    ensures EncodeSource(Source(Some("Hello World"), None, None, Some(SourcePresentationHint.Normal), None, NoSources, None, None))
      == Obj(map["name" := Str("Hello World"), "presentationHint" := Str("normal")])
  {
    var x := Source(Some("Hello World"), None, None, Some(SourcePresentationHint.Normal), None, NoSources, None, None);
    var j := EncodeSource(x);
    var expected := map["name" := Str("Hello World"), "presentationHint" := Str("normal")];
    assert j.Obj? && j.fields == expected by {
      var entries := map[
        "name" := OptString(x.name),
        "path" := OptString(x.path),
        "sourceReference" := OptInt(x.sourceReference),
        "presentationHint" := Opt(x.presentationHint, EncodeSourcePresentationHint),
        "origin" := OptString(x.origin),
        "sources" := EncodeSources(x.sources),
        "adapterData" := x.adapterData,
        "checksums" := OptList(x.checksums, EncodeChecksum)
      ];
      assert j == Object(entries);
      assert "name" in Object(entries).fields;
      assert Object(entries).fields == expected;
    }
  }

  datatype SourceBreakpoint = SourceBreakpoint(line: int64, number: Option<int64>, condition: Option<string>, hitCondition: Option<string>, logMessage: Option<string>)

  function EncodeSourceBreakpoint(x: SourceBreakpoint): (j: Json)
    ensures DecodeSourceBreakpoint(j) == Ok(x)
  {
    var entries := map[
      "line" := Some(OfInt(x.line)),
      "number" := OptInt(x.number),
      "condition" := OptString(x.condition),
      "hitCondition" := OptString(x.hitCondition),
      "logMessage" := OptString(x.logMessage)
    ];
    RequiredIntRoundTrip(entries, "line", x.line);
    OptionalIntRoundTrip(entries, "number", x.number);
    OptionalStringRoundTrip(entries, "condition", x.condition);
    OptionalStringRoundTrip(entries, "hitCondition", x.hitCondition);
    OptionalStringRoundTrip(entries, "logMessage", x.logMessage);
    Object(entries)
  }

  function DecodeSourceBreakpoint(j: Json): (r: Result<SourceBreakpoint>)
    ensures r.Ok? ==> Find(j, "line").Some?
  {
    var line :- RequiredInt(j, "line");
    var number :- OptionalInt(j, "number");
    var condition :- OptionalString(j, "condition");
    var hitCondition :- OptionalString(j, "hitCondition");
    var logMessage :- OptionalString(j, "logMessage");
    Ok(SourceBreakpoint.SourceBreakpoint(line, number, condition, hitCondition, logMessage))
  }

  datatype InstructionBreakpoint = InstructionBreakpoint(instructionReference: string, offset: Option<int64>, condition: Option<string>, hitCondition: Option<string>)

  function EncodeInstructionBreakpoint(x: InstructionBreakpoint): (j: Json)
    ensures DecodeInstructionBreakpoint(j) == Ok(x)
  {
    var entries := map[
      "instructionReference" := Some(OfString(x.instructionReference)),
      "offset" := OptInt(x.offset),
      "condition" := OptString(x.condition),
      "hitCondition" := OptString(x.hitCondition)
    ];
    RequiredStringRoundTrip(entries, "instructionReference", x.instructionReference);
    OptionalIntRoundTrip(entries, "offset", x.offset);
    OptionalStringRoundTrip(entries, "condition", x.condition);
    OptionalStringRoundTrip(entries, "hitCondition", x.hitCondition);
    Object(entries)
  }

  function DecodeInstructionBreakpoint(j: Json): (r: Result<InstructionBreakpoint>)
    ensures r.Ok? ==> Find(j, "instructionReference").Some?
  {
    var instructionReference :- RequiredString(j, "instructionReference");
    var offset :- OptionalInt(j, "offset");
    var condition :- OptionalString(j, "condition");
    var hitCondition :- OptionalString(j, "hitCondition");
    Ok(InstructionBreakpoint.InstructionBreakpoint(instructionReference, offset, condition, hitCondition))
  }

  datatype DataBreakpoint = DataBreakpoint(dataId: string, accessType: Option<DataBreakpointAccessType>, condition: Option<string>, hitCondition: Option<string>)

  function EncodeDataBreakpoint(x: DataBreakpoint): (j: Json)
    ensures DecodeDataBreakpoint(j) == Ok(x)
  {
    var entries := map[
      "dataId" := Some(OfString(x.dataId)),
      "accessType" := Opt(x.accessType, EncodeDataBreakpointAccessType),
      "condition" := OptString(x.condition),
      "hitCondition" := OptString(x.hitCondition)
    ];
    RequiredStringRoundTrip(entries, "dataId", x.dataId);
    OptionalRoundTrip(entries, "accessType", x.accessType, EncodeDataBreakpointAccessType, DecodeDataBreakpointAccessType);
    OptionalStringRoundTrip(entries, "condition", x.condition);
    OptionalStringRoundTrip(entries, "hitCondition", x.hitCondition);
    Object(entries)
  }

  function DecodeDataBreakpoint(j: Json): (r: Result<DataBreakpoint>)
    ensures r.Ok? ==> Find(j, "dataId").Some?
  {
    var dataId :- RequiredString(j, "dataId");
    var accessType :- FromOptJson(j, "accessType", DecodeDataBreakpointAccessType);
    var condition :- OptionalString(j, "condition");
    var hitCondition :- OptionalString(j, "hitCondition");
    Ok(DataBreakpoint.DataBreakpoint(dataId, accessType, condition, hitCondition))
  }

  datatype FunctionBreakpoint = FunctionBreakpoint(name: string, condition: Option<string>, hitCondition: Option<string>)

  function EncodeFunctionBreakpoint(x: FunctionBreakpoint): (j: Json)
    ensures DecodeFunctionBreakpoint(j) == Ok(x)
  {
    var entries := map[
      "name" := Some(OfString(x.name)),
      "condition" := OptString(x.condition),
      "hitCondition" := OptString(x.hitCondition)
    ];
    RequiredStringRoundTrip(entries, "name", x.name);
    OptionalStringRoundTrip(entries, "condition", x.condition);
    OptionalStringRoundTrip(entries, "hitCondition", x.hitCondition);
    Object(entries)
  }

  function DecodeFunctionBreakpoint(j: Json): (r: Result<FunctionBreakpoint>)
    ensures r.Ok? ==> Find(j, "name").Some?
  {
    var name :- RequiredString(j, "name");
    var condition :- OptionalString(j, "condition");
    var hitCondition :- OptionalString(j, "hitCondition");
    Ok(FunctionBreakpoint.FunctionBreakpoint(name, condition, hitCondition))
  }

  datatype Breakpoint = Breakpoint(id: Option<int64>, verified: bool, message: Option<string>, source: Option<Source>, line: Option<int64>, column: Option<int64>, endLine: Option<int64>, endColumn: Option<int64>, instructionReference: Option<string>, number: Option<int64>)

  /** The entries the encoder writes, one per member; absent optionals write none. */
  function BreakpointEntries(x: Breakpoint): map<string, Option<Json>> {
    map[
      "verified" := Some(OfBool(x.verified)),
      "id" := OptInt(x.id),
      "message" := OptString(x.message),
      "source" := Opt(x.source, EncodeSource),
      "line" := OptInt(x.line),
      "column" := OptInt(x.column),
      "endLine" := OptInt(x.endLine),
      "endColumn" := OptInt(x.endColumn),
      "instructionReference" := OptString(x.instructionReference),
      "number" := OptInt(x.number)
    ]
  }

  lemma BreakpointMembersRoundTrip0(x: Breakpoint)
    ensures RequiredBool(Object(BreakpointEntries(x)), "verified") == Ok(x.verified)
    ensures OptionalInt(Object(BreakpointEntries(x)), "id") == Ok(x.id)
    ensures OptionalString(Object(BreakpointEntries(x)), "message") == Ok(x.message)
  {
    var entries := BreakpointEntries(x);
    RequiredBoolRoundTrip(entries, "verified", x.verified);
    OptionalIntRoundTrip(entries, "id", x.id);
    OptionalStringRoundTrip(entries, "message", x.message);
  }

  lemma BreakpointMembersRoundTrip1(x: Breakpoint)
    ensures FromOptJson(Object(BreakpointEntries(x)), "source", DecodeSource) == Ok(x.source)
    ensures OptionalInt(Object(BreakpointEntries(x)), "line") == Ok(x.line)
    ensures OptionalInt(Object(BreakpointEntries(x)), "column") == Ok(x.column)
  {
    var entries := BreakpointEntries(x);
    OptionalRoundTrip(entries, "source", x.source, EncodeSource, DecodeSource);
    OptionalIntRoundTrip(entries, "line", x.line);
    OptionalIntRoundTrip(entries, "column", x.column);
  }

  lemma BreakpointMembersRoundTrip2(x: Breakpoint)
    ensures OptionalInt(Object(BreakpointEntries(x)), "endLine") == Ok(x.endLine)
    ensures OptionalInt(Object(BreakpointEntries(x)), "endColumn") == Ok(x.endColumn)
    ensures OptionalString(Object(BreakpointEntries(x)), "instructionReference") == Ok(x.instructionReference)
  {
    var entries := BreakpointEntries(x);
    OptionalIntRoundTrip(entries, "endLine", x.endLine);
    OptionalIntRoundTrip(entries, "endColumn", x.endColumn);
    OptionalStringRoundTrip(entries, "instructionReference", x.instructionReference);
  }

  lemma BreakpointMembersRoundTrip3(x: Breakpoint)
    ensures OptionalInt(Object(BreakpointEntries(x)), "number") == Ok(x.number)
  {
    var entries := BreakpointEntries(x);
    OptionalIntRoundTrip(entries, "number", x.number);
  }

  function EncodeBreakpoint(x: Breakpoint): (j: Json)
    ensures DecodeBreakpoint(j) == Ok(x)
  {
    BreakpointMembersRoundTrip0(x);
    BreakpointMembersRoundTrip1(x);
    BreakpointMembersRoundTrip2(x);
    BreakpointMembersRoundTrip3(x);
    Object(BreakpointEntries(x))
  }

  function DecodeBreakpoint(j: Json): (r: Result<Breakpoint>)
    ensures r.Ok? ==> Find(j, "verified").Some?
  {
    var verified :- RequiredBool(j, "verified");
    var id :- OptionalInt(j, "id");
    var message :- OptionalString(j, "message");
    var source :- FromOptJson(j, "source", DecodeSource);
    var line :- OptionalInt(j, "line");
    var column :- OptionalInt(j, "column");
    var endLine :- OptionalInt(j, "endLine");
    var endColumn :- OptionalInt(j, "endColumn");
    var instructionReference :- OptionalString(j, "instructionReference");
    var number :- OptionalInt(j, "number");
    Ok(Breakpoint.Breakpoint(id, verified, message, source, line, column, endLine, endColumn, instructionReference, number))
  }

  datatype BreakpointLocation = BreakpointLocation(line: int64, column: Option<int64>, endLine: Option<int64>, endColumn: Option<int64>)

  function EncodeBreakpointLocation(x: BreakpointLocation): (j: Json)
    ensures DecodeBreakpointLocation(j) == Ok(x)
  {
    var entries := map[
      "line" := Some(OfInt(x.line)),
      "column" := OptInt(x.column),
      "endLine" := OptInt(x.endLine),
      "endColumn" := OptInt(x.endColumn)
    ];
    RequiredIntRoundTrip(entries, "line", x.line);
    OptionalIntRoundTrip(entries, "column", x.column);
    OptionalIntRoundTrip(entries, "endLine", x.endLine);
    OptionalIntRoundTrip(entries, "endColumn", x.endColumn);
    Object(entries)
  }

  function DecodeBreakpointLocation(j: Json): (r: Result<BreakpointLocation>)
    ensures r.Ok? ==> Find(j, "line").Some?
  {
    var line :- RequiredInt(j, "line");
    var column :- OptionalInt(j, "column");
    var endLine :- OptionalInt(j, "endLine");
    var endColumn :- OptionalInt(j, "endColumn");
    Ok(BreakpointLocation.BreakpointLocation(line, column, endLine, endColumn))
  }

  datatype Module = Module(id: IntOrString, name: string, path: Option<string>, isOptimized: Option<bool>, isUserCode: Option<bool>, version: Option<string>, symbolStatus: Option<string>, symbolFilePath: Option<string>, dateTimeStamp: Option<string>, addressRange: Option<string>)

  /** The entries the encoder writes, one per member; absent optionals write none. */
  function ModuleEntries(x: Module): map<string, Option<Json>> {
    map[
      "id" := Some(EncodeIntOrString(x.id)),
      "name" := Some(OfString(x.name)),
      "path" := OptString(x.path),
      "isOptimized" := OptBool(x.isOptimized),
      "isUserCode" := OptBool(x.isUserCode),
      "version" := OptString(x.version),
      "symbolStatus" := OptString(x.symbolStatus),
      "symbolFilePath" := OptString(x.symbolFilePath),
      "dateTimeStamp" := OptString(x.dateTimeStamp),
      "addressRange" := OptString(x.addressRange)
    ]
  }

  lemma ModuleMembersRoundTrip0(x: Module)
    ensures Required(Object(ModuleEntries(x)), "id", DecodeIntOrString) == Ok(x.id)
    ensures RequiredString(Object(ModuleEntries(x)), "name") == Ok(x.name)
    ensures OptionalString(Object(ModuleEntries(x)), "path") == Ok(x.path)
  {
    var entries := ModuleEntries(x);
    RequiredRoundTrip(entries, "id", x.id, EncodeIntOrString, DecodeIntOrString);
    RequiredStringRoundTrip(entries, "name", x.name);
    OptionalStringRoundTrip(entries, "path", x.path);
  }

  lemma ModuleMembersRoundTrip1(x: Module)
    ensures OptionalBool(Object(ModuleEntries(x)), "isOptimized") == Ok(x.isOptimized)
    ensures OptionalBool(Object(ModuleEntries(x)), "isUserCode") == Ok(x.isUserCode)
    ensures OptionalString(Object(ModuleEntries(x)), "version") == Ok(x.version)
  {
    var entries := ModuleEntries(x);
    OptionalBoolRoundTrip(entries, "isOptimized", x.isOptimized);
    OptionalBoolRoundTrip(entries, "isUserCode", x.isUserCode);
    OptionalStringRoundTrip(entries, "version", x.version);
  }

  lemma ModuleMembersRoundTrip2(x: Module)
    ensures OptionalString(Object(ModuleEntries(x)), "symbolStatus") == Ok(x.symbolStatus)
    ensures OptionalString(Object(ModuleEntries(x)), "symbolFilePath") == Ok(x.symbolFilePath)
    ensures OptionalString(Object(ModuleEntries(x)), "dateTimeStamp") == Ok(x.dateTimeStamp)
  {
    var entries := ModuleEntries(x);
    OptionalStringRoundTrip(entries, "symbolStatus", x.symbolStatus);
    OptionalStringRoundTrip(entries, "symbolFilePath", x.symbolFilePath);
    OptionalStringRoundTrip(entries, "dateTimeStamp", x.dateTimeStamp);
  }

  lemma ModuleMembersRoundTrip3(x: Module)
    ensures OptionalString(Object(ModuleEntries(x)), "addressRange") == Ok(x.addressRange)
  {
    var entries := ModuleEntries(x);
    OptionalStringRoundTrip(entries, "addressRange", x.addressRange);
  }

  function EncodeModule(x: Module): (j: Json)
    ensures DecodeModule(j) == Ok(x)
  {
    ModuleMembersRoundTrip0(x);
    ModuleMembersRoundTrip1(x);
    ModuleMembersRoundTrip2(x);
    ModuleMembersRoundTrip3(x);
    Object(ModuleEntries(x))
  }

  function DecodeModule(j: Json): (r: Result<Module>)
    ensures r.Ok? ==> Find(j, "id").Some? && Find(j, "name").Some?
  {
    var id :- Required(j, "id", DecodeIntOrString);
    var name :- RequiredString(j, "name");
    var path :- OptionalString(j, "path");
    var isOptimized :- OptionalBool(j, "isOptimized");
    var isUserCode :- OptionalBool(j, "isUserCode");
    var version :- OptionalString(j, "version");
    var symbolStatus :- OptionalString(j, "symbolStatus");
    var symbolFilePath :- OptionalString(j, "symbolFilePath");
    var dateTimeStamp :- OptionalString(j, "dateTimeStamp");
    var addressRange :- OptionalString(j, "addressRange");
    Ok(Module.Module(id, name, path, isOptimized, isUserCode, version, symbolStatus, symbolFilePath, dateTimeStamp, addressRange))
  }

  datatype StackFrameFormat = StackFrameFormat(parameters: Option<bool>, parameterTypes: Option<bool>, parameterNames: Option<bool>, parameterValues: Option<bool>, line: Option<bool>, module_: Option<bool>, includeAll: Option<bool>)

  function EncodeStackFrameFormat(x: StackFrameFormat): (j: Json)
    ensures DecodeStackFrameFormat(j) == Ok(x)
  {
    var entries := map[
      "parameters" := OptBool(x.parameters),
      "parameterTypes" := OptBool(x.parameterTypes),
      "parameterNames" := OptBool(x.parameterNames),
      "parameterValues" := OptBool(x.parameterValues),
      "line" := OptBool(x.line),
      "module" := OptBool(x.module_),
      "includeAll" := OptBool(x.includeAll)
    ];
    OptionalBoolRoundTrip(entries, "parameters", x.parameters);
    OptionalBoolRoundTrip(entries, "parameterTypes", x.parameterTypes);
    OptionalBoolRoundTrip(entries, "parameterNames", x.parameterNames);
    OptionalBoolRoundTrip(entries, "parameterValues", x.parameterValues);
    OptionalBoolRoundTrip(entries, "line", x.line);
    OptionalBoolRoundTrip(entries, "module", x.module_);
    OptionalBoolRoundTrip(entries, "includeAll", x.includeAll);
    Object(entries)
  }

  function DecodeStackFrameFormat(j: Json): (r: Result<StackFrameFormat>)
    ensures !j.Obj? ==> r.Ok?
  {
    var parameters :- OptionalBool(j, "parameters");
    var parameterTypes :- OptionalBool(j, "parameterTypes");
    var parameterNames :- OptionalBool(j, "parameterNames");
    var parameterValues :- OptionalBool(j, "parameterValues");
    var line :- OptionalBool(j, "line");
    var module_ :- OptionalBool(j, "module");
    var includeAll :- OptionalBool(j, "includeAll");
    Ok(StackFrameFormat.StackFrameFormat(parameters, parameterTypes, parameterNames, parameterValues, line, module_, includeAll))
  }

  datatype StackFrame = StackFrame(id: int64, name: string, source: Source, line: int64, column: int64, endLine: Option<int64>, endColumn: Option<int64>, canRestart: Option<bool>, instructionPointerReference: Option<string>, moduleId: Option<IntOrString>, presentationHint: Option<StackFramePresentationHint>)

  /** The entries the encoder writes, one per member; absent optionals write none. */
  function StackFrameEntries(x: StackFrame): map<string, Option<Json>> {
    map[
      "id" := Some(OfInt(x.id)),
      "name" := Some(OfString(x.name)),
      "source" := Some(EncodeSource(x.source)),
      "line" := Some(OfInt(x.line)),
      "column" := Some(OfInt(x.column)),
      "endLine" := OptInt(x.endLine),
      "endColumn" := OptInt(x.endColumn),
      "canRestart" := OptBool(x.canRestart),
      "instructionPointerReference" := OptString(x.instructionPointerReference),
      "moduleId" := Opt(x.moduleId, EncodeIntOrString),
      "presentationHint" := Opt(x.presentationHint, EncodeStackFramePresentationHint)
    ]
  }

  lemma StackFrameMembersRoundTrip0(x: StackFrame)
    ensures RequiredInt(Object(StackFrameEntries(x)), "id") == Ok(x.id)
    ensures RequiredString(Object(StackFrameEntries(x)), "name") == Ok(x.name)
    ensures Required(Object(StackFrameEntries(x)), "source", DecodeSource) == Ok(x.source)
  {
    var entries := StackFrameEntries(x);
    RequiredIntRoundTrip(entries, "id", x.id);
    RequiredStringRoundTrip(entries, "name", x.name);
    RequiredRoundTrip(entries, "source", x.source, EncodeSource, DecodeSource);
  }

  lemma StackFrameMembersRoundTrip1(x: StackFrame)
    ensures RequiredInt(Object(StackFrameEntries(x)), "line") == Ok(x.line)
    ensures RequiredInt(Object(StackFrameEntries(x)), "column") == Ok(x.column)
    ensures OptionalInt(Object(StackFrameEntries(x)), "endLine") == Ok(x.endLine)
  {
    var entries := StackFrameEntries(x);
    RequiredIntRoundTrip(entries, "line", x.line);
    RequiredIntRoundTrip(entries, "column", x.column);
    OptionalIntRoundTrip(entries, "endLine", x.endLine);
  }

  lemma StackFrameMembersRoundTrip2(x: StackFrame)
    ensures OptionalInt(Object(StackFrameEntries(x)), "endColumn") == Ok(x.endColumn)
    ensures OptionalBool(Object(StackFrameEntries(x)), "canRestart") == Ok(x.canRestart)
    ensures OptionalString(Object(StackFrameEntries(x)), "instructionPointerReference") == Ok(x.instructionPointerReference)
  {
    var entries := StackFrameEntries(x);
    OptionalIntRoundTrip(entries, "endColumn", x.endColumn);
    OptionalBoolRoundTrip(entries, "canRestart", x.canRestart);
    OptionalStringRoundTrip(entries, "instructionPointerReference", x.instructionPointerReference);
  }

  lemma StackFrameMembersRoundTrip3(x: StackFrame)
    ensures FromOptJson(Object(StackFrameEntries(x)), "moduleId", DecodeIntOrString) == Ok(x.moduleId)
    ensures FromOptJson(Object(StackFrameEntries(x)), "presentationHint", DecodeStackFramePresentationHint) == Ok(x.presentationHint)
  {
    var entries := StackFrameEntries(x);
    OptionalRoundTrip(entries, "moduleId", x.moduleId, EncodeIntOrString, DecodeIntOrString);
    OptionalRoundTrip(entries, "presentationHint", x.presentationHint, EncodeStackFramePresentationHint, DecodeStackFramePresentationHint);
  }

  function EncodeStackFrame(x: StackFrame): (j: Json)
    ensures DecodeStackFrame(j) == Ok(x)
  {
    StackFrameMembersRoundTrip0(x);
    StackFrameMembersRoundTrip1(x);
    StackFrameMembersRoundTrip2(x);
    StackFrameMembersRoundTrip3(x);
    Object(StackFrameEntries(x))
  }

  function DecodeStackFrame(j: Json): (r: Result<StackFrame>)
    ensures r.Ok? ==> Find(j, "id").Some? && Find(j, "name").Some? && Find(j, "source").Some? && Find(j, "line").Some? && Find(j, "column").Some?
  {
    var id :- RequiredInt(j, "id");
    var name :- RequiredString(j, "name");
    var source :- Required(j, "source", DecodeSource);
    var line :- RequiredInt(j, "line");
    var column :- RequiredInt(j, "column");
    var endLine :- OptionalInt(j, "endLine");
    var endColumn :- OptionalInt(j, "endColumn");
    var canRestart :- OptionalBool(j, "canRestart");
    var instructionPointerReference :- OptionalString(j, "instructionPointerReference");
    var moduleId :- FromOptJson(j, "moduleId", DecodeIntOrString);
    var presentationHint :- FromOptJson(j, "presentationHint", DecodeStackFramePresentationHint);
    Ok(StackFrame.StackFrame(id, name, source, line, column, endLine, endColumn, canRestart, instructionPointerReference, moduleId, presentationHint))
  }

  datatype Scope = Scope(name: string, presentationHint: string, variablesReference: int64, namedVariables: Option<int64>, indexedVariables: Option<int64>, expensive: bool, source: Option<Source>, line: Option<int64>, column: Option<int64>, endLine: Option<int64>, endColumn: Option<int64>)

  /** The entries the encoder writes, one per member; absent optionals write none. */
  function ScopeEntries(x: Scope): map<string, Option<Json>> {
    map[
      "name" := Some(OfString(x.name)),
      "presentationHint" := Some(OfString(x.presentationHint)),
      "variablesReference" := Some(OfInt(x.variablesReference)),
      "namedVariables" := OptInt(x.namedVariables),
      "indexedVariables" := OptInt(x.indexedVariables),
      "expensive" := Some(OfBool(x.expensive)),
      "source" := Opt(x.source, EncodeSource),
      "line" := OptInt(x.line),
      "column" := OptInt(x.column),
      "endLine" := OptInt(x.endLine),
      "endColumn" := OptInt(x.endColumn)
    ]
  }

  lemma ScopeMembersRoundTrip0(x: Scope)
    ensures RequiredString(Object(ScopeEntries(x)), "name") == Ok(x.name)
    ensures RequiredString(Object(ScopeEntries(x)), "presentationHint") == Ok(x.presentationHint)
    ensures RequiredInt(Object(ScopeEntries(x)), "variablesReference") == Ok(x.variablesReference)
  {
    var entries := ScopeEntries(x);
    RequiredStringRoundTrip(entries, "name", x.name);
    RequiredStringRoundTrip(entries, "presentationHint", x.presentationHint);
    RequiredIntRoundTrip(entries, "variablesReference", x.variablesReference);
  }

  lemma ScopeMembersRoundTrip1(x: Scope)
    ensures OptionalInt(Object(ScopeEntries(x)), "namedVariables") == Ok(x.namedVariables)
    ensures OptionalInt(Object(ScopeEntries(x)), "indexedVariables") == Ok(x.indexedVariables)
    ensures RequiredBool(Object(ScopeEntries(x)), "expensive") == Ok(x.expensive)
  {
    var entries := ScopeEntries(x);
    OptionalIntRoundTrip(entries, "namedVariables", x.namedVariables);
    OptionalIntRoundTrip(entries, "indexedVariables", x.indexedVariables);
    RequiredBoolRoundTrip(entries, "expensive", x.expensive);
  }

  lemma ScopeMembersRoundTrip2(x: Scope)
    ensures FromOptJson(Object(ScopeEntries(x)), "source", DecodeSource) == Ok(x.source)
    ensures OptionalInt(Object(ScopeEntries(x)), "line") == Ok(x.line)
    ensures OptionalInt(Object(ScopeEntries(x)), "column") == Ok(x.column)
  {
    var entries := ScopeEntries(x);
    OptionalRoundTrip(entries, "source", x.source, EncodeSource, DecodeSource);
    OptionalIntRoundTrip(entries, "line", x.line);
    OptionalIntRoundTrip(entries, "column", x.column);
  }

  lemma ScopeMembersRoundTrip3(x: Scope)
    ensures OptionalInt(Object(ScopeEntries(x)), "endLine") == Ok(x.endLine)
    ensures OptionalInt(Object(ScopeEntries(x)), "endColumn") == Ok(x.endColumn)
  {
    var entries := ScopeEntries(x);
    OptionalIntRoundTrip(entries, "endLine", x.endLine);
    OptionalIntRoundTrip(entries, "endColumn", x.endColumn);
  }

  function EncodeScope(x: Scope): (j: Json)
    ensures DecodeScope(j) == Ok(x)
  {
    ScopeMembersRoundTrip0(x);
    ScopeMembersRoundTrip1(x);
    ScopeMembersRoundTrip2(x);
    ScopeMembersRoundTrip3(x);
    Object(ScopeEntries(x))
  }

  function DecodeScope(j: Json): (r: Result<Scope>)
    ensures r.Ok? ==> Find(j, "name").Some? && Find(j, "presentationHint").Some? && Find(j, "variablesReference").Some? && Find(j, "expensive").Some?
  {
    var name :- RequiredString(j, "name");
    var presentationHint :- RequiredString(j, "presentationHint");
    var variablesReference :- RequiredInt(j, "variablesReference");
    var namedVariables :- OptionalInt(j, "namedVariables");
    var indexedVariables :- OptionalInt(j, "indexedVariables");
    var expensive :- RequiredBool(j, "expensive");
    var source :- FromOptJson(j, "source", DecodeSource);
    var line :- OptionalInt(j, "line");
    var column :- OptionalInt(j, "column");
    var endLine :- OptionalInt(j, "endLine");
    var endColumn :- OptionalInt(j, "endColumn");
    Ok(Scope.Scope(name, presentationHint, variablesReference, namedVariables, indexedVariables, expensive, source, line, column, endLine, endColumn))
  }

  datatype ValueFormat = ValueFormat(hex: Option<bool>)

  function EncodeValueFormat(x: ValueFormat): (j: Json)
    ensures DecodeValueFormat(j) == Ok(x)
  {
    var entries := map[
      "hex" := OptBool(x.hex)
    ];
    OptionalBoolRoundTrip(entries, "hex", x.hex);
    Object(entries)
  }

  function DecodeValueFormat(j: Json): (r: Result<ValueFormat>)
    ensures !j.Obj? ==> r.Ok?
  {
    var hex :- OptionalBool(j, "hex");
    Ok(ValueFormat.ValueFormat(hex))
  }

  datatype VariablePresentationHint = VariablePresentationHint(kind: string, attributes: Option<seq<string>>, visibility: Option<string>, lazy: Option<bool>)

  function EncodeVariablePresentationHint(x: VariablePresentationHint): (j: Json)
    ensures DecodeVariablePresentationHint(j) == Ok(x)
  {
    var entries := map[
      "kind" := Some(OfString(x.kind)),
      "attributes" := OptList(x.attributes, OfString),
      "visibility" := OptString(x.visibility),
      "lazy" := OptBool(x.lazy)
    ];
    RequiredStringRoundTrip(entries, "kind", x.kind);
    OptionalListRoundTrip(entries, "attributes", x.attributes, OfString, GetString);
    OptionalStringRoundTrip(entries, "visibility", x.visibility);
    OptionalBoolRoundTrip(entries, "lazy", x.lazy);
    Object(entries)
  }

  function DecodeVariablePresentationHint(j: Json): (r: Result<VariablePresentationHint>)
    ensures r.Ok? ==> Find(j, "kind").Some?
  {
    var kind :- RequiredString(j, "kind");
    var attributes :- OptionalList(j, "attributes", GetString);
    var visibility :- OptionalString(j, "visibility");
    var lazy :- OptionalBool(j, "lazy");
    Ok(VariablePresentationHint.VariablePresentationHint(kind, attributes, visibility, lazy))
  }

  datatype Variable = Variable(name: string, value: string, type_: Option<string>, presentationHint: Option<VariablePresentationHint>, evaluateName: Option<string>, variablesReference: int64, namedVariables: Option<int64>, indexedVariables: Option<int64>, memoryReference: Option<string>)

  /** The entries the encoder writes, one per member; absent optionals write none. */
  function VariableEntries(x: Variable): map<string, Option<Json>> {
    map[
      "name" := Some(OfString(x.name)),
      "value" := Some(OfString(x.value)),
      "type" := OptString(x.type_),
      "presentationHint" := Opt(x.presentationHint, EncodeVariablePresentationHint),
      "evaluateName" := OptString(x.evaluateName),
      "variablesReference" := Some(OfInt(x.variablesReference)),
      "namedVariables" := OptInt(x.namedVariables),
      "indexedVariables" := OptInt(x.indexedVariables),
      "memoryReference" := OptString(x.memoryReference)
    ]
  }

  lemma VariableMembersRoundTrip0(x: Variable)
    ensures RequiredString(Object(VariableEntries(x)), "name") == Ok(x.name)
    ensures RequiredString(Object(VariableEntries(x)), "value") == Ok(x.value)
    ensures OptionalString(Object(VariableEntries(x)), "type") == Ok(x.type_)
  {
    var entries := VariableEntries(x);
    RequiredStringRoundTrip(entries, "name", x.name);
    RequiredStringRoundTrip(entries, "value", x.value);
    OptionalStringRoundTrip(entries, "type", x.type_);
  }

  lemma VariableMembersRoundTrip1(x: Variable)
    ensures FromOptJson(Object(VariableEntries(x)), "presentationHint", DecodeVariablePresentationHint) == Ok(x.presentationHint)
    ensures OptionalString(Object(VariableEntries(x)), "evaluateName") == Ok(x.evaluateName)
    ensures RequiredInt(Object(VariableEntries(x)), "variablesReference") == Ok(x.variablesReference)
  {
    var entries := VariableEntries(x);
    OptionalRoundTrip(entries, "presentationHint", x.presentationHint, EncodeVariablePresentationHint, DecodeVariablePresentationHint);
    OptionalStringRoundTrip(entries, "evaluateName", x.evaluateName);
    RequiredIntRoundTrip(entries, "variablesReference", x.variablesReference);
  }

  lemma VariableMembersRoundTrip2(x: Variable)
    ensures OptionalInt(Object(VariableEntries(x)), "namedVariables") == Ok(x.namedVariables)
    ensures OptionalInt(Object(VariableEntries(x)), "indexedVariables") == Ok(x.indexedVariables)
    ensures OptionalString(Object(VariableEntries(x)), "memoryReference") == Ok(x.memoryReference)
  {
    var entries := VariableEntries(x);
    OptionalIntRoundTrip(entries, "namedVariables", x.namedVariables);
    OptionalIntRoundTrip(entries, "indexedVariables", x.indexedVariables);
    OptionalStringRoundTrip(entries, "memoryReference", x.memoryReference);
  }

  function EncodeVariable(x: Variable): (j: Json)
    ensures DecodeVariable(j) == Ok(x)
  {
    VariableMembersRoundTrip0(x);
    VariableMembersRoundTrip1(x);
    VariableMembersRoundTrip2(x);
    Object(VariableEntries(x))
  }

  function DecodeVariable(j: Json): (r: Result<Variable>)
    ensures r.Ok? ==> Find(j, "name").Some? && Find(j, "value").Some? && Find(j, "variablesReference").Some?
  {
    var name :- RequiredString(j, "name");
    var value :- RequiredString(j, "value");
    var type_ :- OptionalString(j, "type");
    var presentationHint :- FromOptJson(j, "presentationHint", DecodeVariablePresentationHint);
    var evaluateName :- OptionalString(j, "evaluateName");
    var variablesReference :- RequiredInt(j, "variablesReference");
    var namedVariables :- OptionalInt(j, "namedVariables");
    var indexedVariables :- OptionalInt(j, "indexedVariables");
    var memoryReference :- OptionalString(j, "memoryReference");
    Ok(Variable.Variable(name, value, type_, presentationHint, evaluateName, variablesReference, namedVariables, indexedVariables, memoryReference))
  }

  datatype Thread = Thread(id: int64, name: string)

  function EncodeThread(x: Thread): (j: Json)
    ensures DecodeThread(j) == Ok(x)
  {
    var entries := map[
      "id" := Some(OfInt(x.id)),
      "name" := Some(OfString(x.name))
    ];
    RequiredIntRoundTrip(entries, "id", x.id);
    RequiredStringRoundTrip(entries, "name", x.name);
    Object(entries)
  }

  function DecodeThread(j: Json): (r: Result<Thread>)
    ensures r.Ok? ==> Find(j, "id").Some? && Find(j, "name").Some?
  {
    var id :- RequiredInt(j, "id");
    var name :- RequiredString(j, "name");
    Ok(Thread.Thread(id, name))
  }

  datatype StepInTarget = StepInTarget(id: int64, label_: string)

  function EncodeStepInTarget(x: StepInTarget): (j: Json)
    ensures DecodeStepInTarget(j) == Ok(x)
  {
    var entries := map[
      "id" := Some(OfInt(x.id)),
      "label" := Some(OfString(x.label_))
    ];
    RequiredIntRoundTrip(entries, "id", x.id);
    RequiredStringRoundTrip(entries, "label", x.label_);
    Object(entries)
  }

  function DecodeStepInTarget(j: Json): (r: Result<StepInTarget>)
    ensures r.Ok? ==> Find(j, "id").Some? && Find(j, "label").Some?
  {
    var id :- RequiredInt(j, "id");
    var label_ :- RequiredString(j, "label");
    Ok(StepInTarget.StepInTarget(id, label_))
  }

  datatype GotoTarget = GotoTarget(id: int64, label_: string, line: int64, column: Option<int64>, endLine: Option<int64>, endColumn: Option<int64>, instructionPointerReference: Option<string>)

  function EncodeGotoTarget(x: GotoTarget): (j: Json)
    ensures DecodeGotoTarget(j) == Ok(x)
  {
    var entries := map[
      "id" := Some(OfInt(x.id)),
      "label" := Some(OfString(x.label_)),
      "line" := Some(OfInt(x.line)),
      "column" := OptInt(x.column),
      "endLine" := OptInt(x.endLine),
      "endColumn" := OptInt(x.endColumn),
      "instructionPointerReference" := OptString(x.instructionPointerReference)
    ];
    RequiredIntRoundTrip(entries, "id", x.id);
    RequiredStringRoundTrip(entries, "label", x.label_);
    RequiredIntRoundTrip(entries, "line", x.line);
    OptionalIntRoundTrip(entries, "column", x.column);
    OptionalIntRoundTrip(entries, "endLine", x.endLine);
    OptionalIntRoundTrip(entries, "endColumn", x.endColumn);
    OptionalStringRoundTrip(entries, "instructionPointerReference", x.instructionPointerReference);
    Object(entries)
  }

  function DecodeGotoTarget(j: Json): (r: Result<GotoTarget>)
    ensures r.Ok? ==> Find(j, "id").Some? && Find(j, "label").Some? && Find(j, "line").Some?
  {
    var id :- RequiredInt(j, "id");
    var label_ :- RequiredString(j, "label");
    var line :- RequiredInt(j, "line");
    var column :- OptionalInt(j, "column");
    var endLine :- OptionalInt(j, "endLine");
    var endColumn :- OptionalInt(j, "endColumn");
    var instructionPointerReference :- OptionalString(j, "instructionPointerReference");
    Ok(GotoTarget.GotoTarget(id, label_, line, column, endLine, endColumn, instructionPointerReference))
  }

  datatype CompletionItem = CompletionItem(label_: string, text: Option<string>, sortText: Option<string>, detail: Option<string>, type_: Option<CompletionItemType>, start: Option<int64>, length: Option<int64>, selectionStart: Option<int64>, selectionLength: Option<int64>)

  /** The entries the encoder writes, one per member; absent optionals write none. */
  function CompletionItemEntries(x: CompletionItem): map<string, Option<Json>> {
    map[
      "label" := Some(OfString(x.label_)),
      "text" := OptString(x.text),
      "sortText" := OptString(x.sortText),
      "detail" := OptString(x.detail),
      "type" := Opt(x.type_, EncodeCompletionItemType),
      "start" := OptInt(x.start),
      "length" := OptInt(x.length),
      "selectionStart" := OptInt(x.selectionStart),
      "selectionLength" := OptInt(x.selectionLength)
    ]
  }

  lemma CompletionItemMembersRoundTrip0(x: CompletionItem)
    ensures RequiredString(Object(CompletionItemEntries(x)), "label") == Ok(x.label_)
    ensures OptionalString(Object(CompletionItemEntries(x)), "text") == Ok(x.text)
    ensures OptionalString(Object(CompletionItemEntries(x)), "sortText") == Ok(x.sortText)
  {
    var entries := CompletionItemEntries(x);
    RequiredStringRoundTrip(entries, "label", x.label_);
    OptionalStringRoundTrip(entries, "text", x.text);
    OptionalStringRoundTrip(entries, "sortText", x.sortText);
  }

  lemma CompletionItemMembersRoundTrip1(x: CompletionItem)
    ensures OptionalString(Object(CompletionItemEntries(x)), "detail") == Ok(x.detail)
    ensures FromOptJson(Object(CompletionItemEntries(x)), "type", DecodeCompletionItemType) == Ok(x.type_)
    ensures OptionalInt(Object(CompletionItemEntries(x)), "start") == Ok(x.start)
  {
    var entries := CompletionItemEntries(x);
    OptionalStringRoundTrip(entries, "detail", x.detail);
    OptionalRoundTrip(entries, "type", x.type_, EncodeCompletionItemType, DecodeCompletionItemType);
    OptionalIntRoundTrip(entries, "start", x.start);
  }

  lemma CompletionItemMembersRoundTrip2(x: CompletionItem)
    ensures OptionalInt(Object(CompletionItemEntries(x)), "length") == Ok(x.length)
    ensures OptionalInt(Object(CompletionItemEntries(x)), "selectionStart") == Ok(x.selectionStart)
    ensures OptionalInt(Object(CompletionItemEntries(x)), "selectionLength") == Ok(x.selectionLength)
  {
    var entries := CompletionItemEntries(x);
    OptionalIntRoundTrip(entries, "length", x.length);
    OptionalIntRoundTrip(entries, "selectionStart", x.selectionStart);
    OptionalIntRoundTrip(entries, "selectionLength", x.selectionLength);
  }

  function EncodeCompletionItem(x: CompletionItem): (j: Json)
    ensures DecodeCompletionItem(j) == Ok(x)
  {
    CompletionItemMembersRoundTrip0(x);
    CompletionItemMembersRoundTrip1(x);
    CompletionItemMembersRoundTrip2(x);
    Object(CompletionItemEntries(x))
  }

  function DecodeCompletionItem(j: Json): (r: Result<CompletionItem>)
    ensures r.Ok? ==> Find(j, "label").Some?
  {
    var label_ :- RequiredString(j, "label");
    var text :- OptionalString(j, "text");
    var sortText :- OptionalString(j, "sortText");
    var detail :- OptionalString(j, "detail");
    var type_ :- FromOptJson(j, "type", DecodeCompletionItemType);
    var start :- OptionalInt(j, "start");
    var length :- OptionalInt(j, "length");
    var selectionStart :- OptionalInt(j, "selectionStart");
    var selectionLength :- OptionalInt(j, "selectionLength");
    Ok(CompletionItem.CompletionItem(label_, text, sortText, detail, type_, start, length, selectionStart, selectionLength))
  }

  datatype DisassembledInstruction = DisassembledInstruction(address: string, instructionBytes: Option<string>, instruction: string, symbol: Option<string>, location: Option<Source>, line: Option<int64>, column: Option<int64>, endLine: Option<int64>, endColumn: Option<int64>)

  /** The entries the encoder writes, one per member; absent optionals write none. */
  function DisassembledInstructionEntries(x: DisassembledInstruction): map<string, Option<Json>> {
    map[
      "address" := Some(OfString(x.address)),
      "instructionBytes" := OptString(x.instructionBytes),
      "instruction" := Some(OfString(x.instruction)),
      "symbol" := OptString(x.symbol),
      "location" := Opt(x.location, EncodeSource),
      "line" := OptInt(x.line),
      "column" := OptInt(x.column),
      "endLine" := OptInt(x.endLine),
      "endColumn" := OptInt(x.endColumn)
    ]
  }

  lemma DisassembledInstructionMembersRoundTrip0(x: DisassembledInstruction)
    ensures RequiredString(Object(DisassembledInstructionEntries(x)), "address") == Ok(x.address)
    ensures OptionalString(Object(DisassembledInstructionEntries(x)), "instructionBytes") == Ok(x.instructionBytes)
    ensures RequiredString(Object(DisassembledInstructionEntries(x)), "instruction") == Ok(x.instruction)
  {
    var entries := DisassembledInstructionEntries(x);
    RequiredStringRoundTrip(entries, "address", x.address);
    OptionalStringRoundTrip(entries, "instructionBytes", x.instructionBytes);
    RequiredStringRoundTrip(entries, "instruction", x.instruction);
  }

  lemma DisassembledInstructionMembersRoundTrip1(x: DisassembledInstruction)
    ensures OptionalString(Object(DisassembledInstructionEntries(x)), "symbol") == Ok(x.symbol)
    ensures FromOptJson(Object(DisassembledInstructionEntries(x)), "location", DecodeSource) == Ok(x.location)
    ensures OptionalInt(Object(DisassembledInstructionEntries(x)), "line") == Ok(x.line)
  {
    var entries := DisassembledInstructionEntries(x);
    OptionalStringRoundTrip(entries, "symbol", x.symbol);
    OptionalRoundTrip(entries, "location", x.location, EncodeSource, DecodeSource);
    OptionalIntRoundTrip(entries, "line", x.line);
  }

  lemma DisassembledInstructionMembersRoundTrip2(x: DisassembledInstruction)
    ensures OptionalInt(Object(DisassembledInstructionEntries(x)), "column") == Ok(x.column)
    ensures OptionalInt(Object(DisassembledInstructionEntries(x)), "endLine") == Ok(x.endLine)
    ensures OptionalInt(Object(DisassembledInstructionEntries(x)), "endColumn") == Ok(x.endColumn)
  {
    var entries := DisassembledInstructionEntries(x);
    OptionalIntRoundTrip(entries, "column", x.column);
    OptionalIntRoundTrip(entries, "endLine", x.endLine);
    OptionalIntRoundTrip(entries, "endColumn", x.endColumn);
  }

  function EncodeDisassembledInstruction(x: DisassembledInstruction): (j: Json)
    ensures DecodeDisassembledInstruction(j) == Ok(x)
  {
    DisassembledInstructionMembersRoundTrip0(x);
    DisassembledInstructionMembersRoundTrip1(x);
    DisassembledInstructionMembersRoundTrip2(x);
    Object(DisassembledInstructionEntries(x))
  }

  function DecodeDisassembledInstruction(j: Json): (r: Result<DisassembledInstruction>)
    ensures r.Ok? ==> Find(j, "address").Some? && Find(j, "instruction").Some?
  {
    var address :- RequiredString(j, "address");
    var instructionBytes :- OptionalString(j, "instructionBytes");
    var instruction :- RequiredString(j, "instruction");
    var symbol :- OptionalString(j, "symbol");
    var location :- FromOptJson(j, "location", DecodeSource);
    var line :- OptionalInt(j, "line");
    var column :- OptionalInt(j, "column");
    var endLine :- OptionalInt(j, "endLine");
    var endColumn :- OptionalInt(j, "endColumn");
    Ok(DisassembledInstruction.DisassembledInstruction(address, instructionBytes, instruction, symbol, location, line, column, endLine, endColumn))
  }
}
