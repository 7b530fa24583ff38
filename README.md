# A verified model of the vdap Debug Adapter Protocol codec

vdap is a C++ library for the Debug Adapter Protocol (DAP). A debugger
and an editor exchange DAP messages as JSON. The library's core is the
header `vdap/dap.hpp`. It declares one C++ type per protocol entity:
enumerations, records, and the request, response and event messages.
For each type it provides a pair of `to_json`/`from_json` functions for
nlohmann::json, and `serialize` picks the right encoder for a message.
The earlier stand-alone header `dap.hpp` holds the first few of these
codecs.

This project restates that codec in Dafny and proves what it promises.
The main results are these:

- every encoder's output reads back as the value it was given;
- every decoder fails when a required member is missing, where the C++ `at` throws, and the readers of enumerations, strings, booleans and lists fail exactly where the C++ conversions throw;
- optional members are written exactly when they are present;
- `serialize` sends each message to the codec of its own class.

## Layout

| file | module | what it holds |
|---|---|---|
| `json.dfy` | `Json` | the JSON value and the nlohmann operations the codecs use: `find`, `at`, writing with `operator[]`, `erase`, `get<T>`; a thrown exception is a `Fail` result |
| `codec.dfy` | `Codec` | `to_optJson`/`from_optJson`, the required-member reads `at(k).get_to(x)`, `std::vector` as a JSON array, and one round-trip lemma per member kind |
| `adl.dfy` | `Adl` | the two `adl_serializer` specialisations: `std::variant<std::int64_t, std::string>` and the environment map, with its two loops as methods |
| `enums.dfy` | `Enums` | every enumeration of the record types, each with its string table |
| `types.dfy` | `Types` | every record type that has a codec, e.g. `Capabilities`, `Source`, `ExceptionDetails`, `Breakpoint`, `Variable` |
| `envelope.dfy` | `Envelope` | `MessageType`, `CommandType` and `EventType`, and the `ProtocolMessage`, `Request`, `Event`, `Response` and `ErrorResponse` headers |
| `requests.dfy`, `responses.dfy`, `events.dfy` | `Requests`, `Responses`, `Events` | every concrete message class with its codec |
| `dispatch.dfy` | `Dispatch` | `serialize`: a message is one value of a sum type, and the three-way switch runs on its discriminants |
| `legacy.dfy` | `Legacy` | the codecs of the earlier `dap.hpp`, written as imperative methods that update the JSON value step by step |

### Conventions

- **Exceptions.** A C++ exception is a `Fail` result carrying one of three errors:
  - nlohmann's `type_error` becomes `TypeError`;
  - nlohmann's `out_of_range`, from `at` on a missing key, becomes `OutOfRange`;
  - the codecs' own `"Unknown X"` errors become `Unknown`.
- **Encoders that can fail.** The encoders of the `CommandType`/`EventType` table return a `Result`. They throw on the entries the table has no string for.
- **Empty objects.** A value that has had no member written stays JSON `null`, as a default-constructed `nlohmann::json` does. So a record with every optional member absent is written as `null`.
- **Record encoders.** A record encoder is modelled as one object built from its members: each member is either written or left out. `Json.PutObject` relates this to writing the members one at a time.
- **Message headers.** The message headers keep what the C++ objects store. That includes `type`, `command`/`event` and `success`, which `from_json` overwrites from the wire. Each message class has a constructor function (`NewRequest`, `NewResponse`, ...) that sets these fields the way the C++ constructors do.
- **`seq` and `request_seq`.** The C++ leaves these uninitialised until the caller sets them. Here they are parameters of the constructor functions.

### Proof steps

Each per-class round trip of a large record encoder is split into steps. These step lemmas need no row of their own. They are:

- the `…MembersRoundTrip<i>` lemmas in `types.dfy`, `requests.dfy`, `responses.dfy` and `events.dfy`, each handling a few members;
- the `…RoundTrip<prefix>` and `…DecodeStrict<prefix>` lemmas in `envelope.dfy`, each handling the strings of one prefix group of the command or event table.
- `Types.DecodeCapabilitiesFirst` to `Types.DecodeCapabilitiesFourth`, which read the members of `Capabilities` in four groups for `Types.DecodeCapabilities`.

## Model

| member | source | states |
|---|---|---|
| Adl.EncodeIntOrString | vdap/dap.hpp:16-31 | The variant is written as a number or a string, and reads back as the same alternative |
| Adl.DecodeIntOrString | vdap/dap.hpp:16-31 | A number reads as the integer alternative; otherwise it succeeds exactly on a string, and anything else fails in `get<std::string>` |
| Adl.EncodeEnvironment | vdap/dap.hpp:33-54 | An empty map writes nothing (null); otherwise an object with exactly the map keys, each a string or null |
| Adl.WriteStep | vdap/dap.hpp:37-42 | One loop step: writing one more entry extends what has been written by that entry |
| Adl.WrittenAll | vdap/dap.hpp:37-42 | Once every key is handled, the loop has written the encoding of the whole map |
| Adl.WriteEnvironment | vdap/dap.hpp:37-42 | The loop over the entries writes exactly the encoding of the map |
| Adl.DecodeEnvironment | vdap/dap.hpp:44-53 | Succeeds exactly when every visited value is null or a string, otherwise fails in `get<std::string>`; the keys read are the visited keys, a null value reads as absent and a string as that string |
| Adl.ReadStep | vdap/dap.hpp:47-52 | One loop step: reading one more pair extends what has been read by that entry |
| Adl.ReadEnvironment | vdap/dap.hpp:44-53 | The loop over `items()` computes the decoding of the value |
| Adl.ReadItems | vdap/dap.hpp:47-52 | The loop over the visited pairs computes their decoding, failing at the first value that is neither null nor a string |
| Adl.EnvironmentRoundTrip | vdap/dap.hpp:33-54 | A map survives the trip, absent values (null) included |
| Adl.OptionalEnvironmentRoundTrip | vdap/dap.hpp:33-54 | A present optional map survives the trip |
| Codec.ToOptJson | vdap/dap.hpp:61-65 | `to_optJson`: the key holds the value exactly when the optional holds one, and is untouched otherwise; no other key changes |
| Codec.FromOptJson | vdap/dap.hpp:67-71 | `from_optJson`: an absent key gives an absent optional; a present key gives a present optional exactly when its value decodes, holding that value |
| Codec.OptJsonRoundTrip | vdap/dap.hpp:61-71 | Into a value without the key, `to_optJson` writes the key exactly when the optional is present, and `from_optJson` reads the same optional back |
| Codec.Opt | vdap/dap.hpp:61-65 | The member `to_optJson` contributes to a record: present exactly when the optional is, holding its encoding |
| Codec.OptBool | vdap/dap.hpp:61-65 | The same for an optional boolean |
| Codec.OptInt | vdap/dap.hpp:61-65 | The same for an optional integer |
| Codec.OptString | vdap/dap.hpp:61-65 | The same for an optional string |
| Codec.Required | vdap/dap.hpp:91-98 | `j.at(k).get_to(x)`: a missing key fails; a present one gives what the member decoder gives |
| Codec.RequiredBool | vdap/dap.hpp:91-98 | The same for a boolean member |
| Codec.RequiredInt | vdap/dap.hpp:91-98 | The same for an integer member |
| Codec.RequiredString | vdap/dap.hpp:91-98 | The same for a string member |
| Codec.OptionalBool | vdap/dap.hpp:67-71 | `from_optJson` for a boolean: absent reads as absent; a present boolean reads as present; anything else fails |
| Codec.OptionalInt | vdap/dap.hpp:67-71 | The same for an integer |
| Codec.OptionalString | vdap/dap.hpp:67-71 | The same for a string |
| Codec.OptionalJson | vdap/dap.hpp:67-71 | `from_optJson` for an opaque JSON payload: present exactly when the key is, holding the value as found |
| Codec.RequiredRoundTrip | vdap/dap.hpp:82-98 | For a member whose decoder inverts its encoder written into a record object, the `at` reader gives it back |
| Codec.OptionalRoundTrip | vdap/dap.hpp:61-71 | For an optional member whose decoder inverts its encoder written into a record object, `from_optJson` reads back the same optional, absent included |
| Codec.RequiredBoolRoundTrip | vdap/dap.hpp:82-98 | For a boolean member written into a record object, the `at` reader gives it back |
| Codec.RequiredIntRoundTrip | vdap/dap.hpp:82-98 | For an integer member written into a record object, the `at` reader gives it back |
| Codec.RequiredStringRoundTrip | vdap/dap.hpp:82-98 | For a string member written into a record object, the `at` reader gives it back |
| Codec.OptionalBoolRoundTrip | vdap/dap.hpp:61-71 | For an optional boolean written into a record object, `from_optJson` reads back the same optional, absent included |
| Codec.OptionalIntRoundTrip | vdap/dap.hpp:61-71 | For an optional integer written into a record object, `from_optJson` reads back the same optional, absent included |
| Codec.OptionalStringRoundTrip | vdap/dap.hpp:61-71 | For an optional string written into a record object, `from_optJson` reads back the same optional, absent included |
| Codec.OptionalJsonRoundTrip | vdap/dap.hpp:61-71 | For an optional opaque payload written into a record object, `from_optJson` reads back the same optional, absent included |
| Codec.ObjectKeys | vdap/dap.hpp:61-65 | A record object holds exactly the keys of the members that are present; with none it is null |
| Codec.EncodeList | vdap/dap.hpp:120-128 | `std::vector` to JSON: an array with one encoded element per item, in order |
| Codec.DecodeList | vdap/dap.hpp:120-128 | `get<std::vector<T>>`: a non-array fails; an array decodes exactly when every element does |
| Codec.DecodeItems | vdap/dap.hpp:120-128 | The array elements decoded in order: succeeds exactly when each does, and the items are those decodings, one per element |
| Codec.ListRoundTrip | vdap/dap.hpp:120-128 | A list whose element decoder inverts its encoder survives the trip through an array |
| Codec.OptList | vdap/dap.hpp:61-65 | The member `to_optJson` contributes for an optional list |
| Codec.RequiredList | vdap/dap.hpp:120-128 | `j.at(k).get_to(list)`: a missing key fails; a present one gives the list decoding |
| Codec.OptionalList | vdap/dap.hpp:67-71 | `from_optJson` for a list: absent reads as absent; a present key succeeds exactly when its list decodes, and then holds that list |
| Codec.RequiredListRoundTrip | vdap/dap.hpp:120-128 | A required list member written into a record object reads back |
| Codec.OptionalListRoundTrip | vdap/dap.hpp:61-71 | An optional list member written into a record object reads back, absent included |
| Dispatch.Route | vdap/dap.hpp:4333-4574 | Requests by command, any failed response as ErrorResponse, successful responses by command, events by event; nothing exactly for `COMMAND_MAX`/`EVENT_MAX` |
| Dispatch.RouteInjective | vdap/dap.hpp:4333-4574 | Two discriminants that take the same arm are equal, except that all failed responses share ErrorResponse |
| Dispatch.ArmOf | vdap/dap.hpp:4333-4574 | The arm named by a message's own class is one the switch has |
| Dispatch.AsConstructedIsConsistent | vdap/dap.hpp:1582-1770 | A message whose discriminants are as its constructor sets them is one whose casts in `serialize` are valid |
| Dispatch.ReadDiscriminants | vdap/dap.hpp:4333-4536 | A reader finds discriminants only in a value whose `ProtocolMessage` part reads, and of the kind its `type` names |
| Dispatch.Serialize | vdap/dap.hpp:4333-4575 | For a message whose casts are valid: writes nothing exactly when no arm matches (the `_MAX` sentinels); throws exactly when the codec of its class throws; what it writes carries the message's header |
| Dispatch.DiscriminantsSurvive | vdap/dap.hpp:4333-4574 | What a class codec writes for a message with valid casts reads back as the same discriminants, which select the message's own arm again |
| Dispatch.SerializeSelectsOwnArm | vdap/dap.hpp:4333-4575 | What `serialize` writes reads back as the stored discriminants, and those route to the arm of the message's own class |
| Dispatch.SerializeRequestWrites | vdap/dap.hpp:4335-4431 | The bare `Request` writes nothing; every request class writes exactly when its command has a string and, for launch and attach, the overlaid members fit on `arguments` |
| Dispatch.SerializeRequestHeader | vdap/dap.hpp:4335-4431 | What a request class writes reads back, through the `Request` decoder, as its header |
| Dispatch.SerializeResponseWrites | vdap/dap.hpp:4434-4533 | The bare `Response` writes nothing; every response class, ErrorResponse included, writes exactly when its command has a string |
| Dispatch.SerializeResponseHeader | vdap/dap.hpp:4434-4533 | What a response class writes reads back, through the `Response` decoder, as its header |
| Dispatch.SerializeEventWrites | vdap/dap.hpp:4534-4572 | The bare `Event` writes nothing; every event class writes exactly when its event has a string |
| Dispatch.SerializeEventHeader | vdap/dap.hpp:4534-4572 | What an event class writes reads back, through the `Event` decoder, as its header |
| Enums.EncodeExceptionBreakMode | vdap/dap.hpp:137-154 | Writes one of the strings of the table, and it reads back as the same value |
| Enums.DecodeExceptionBreakMode | vdap/dap.hpp:156-168 | Succeeds exactly on the strings of the table; a value that is not a string fails in `get<std::string>`; any other string fails as unknown |
| Enums.EncodeColumnDescriptorType | vdap/dap.hpp:220-237 | Writes one of the strings of the table, and it reads back as the same value |
| Enums.DecodeColumnDescriptorType | vdap/dap.hpp:239-251 | Succeeds exactly on the strings of the table; a value that is not a string fails in `get<std::string>`; any other string fails as unknown |
| Enums.EncodeCheckSumAlgorithm | vdap/dap.hpp:284-301 | Writes one of the strings of the table, and it reads back as the same value |
| Enums.DecodeCheckSumAlgorithm | vdap/dap.hpp:303-315 | Succeeds exactly on the strings of the table; a value that is not a string fails in `get<std::string>`; any other string fails as unknown |
| Enums.EncodeSourcePresentationHint | vdap/dap.hpp:483-497 | Writes one of the strings of the table, and it reads back as the same value |
| Enums.DecodeSourcePresentationHint | vdap/dap.hpp:499-509 | Succeeds exactly on the strings of the table; a value that is not a string fails in `get<std::string>`; any other string fails as unknown |
| Enums.EncodeDataBreakpointAccessType | vdap/dap.hpp:595-609 | Writes one of the strings of the table, and it reads back as the same value |
| Enums.DecodeDataBreakpointAccessType | vdap/dap.hpp:611-621 | Succeeds exactly on the strings of the table; a value that is not a string fails in `get<std::string>`; any other string fails as unknown |
| Enums.EncodeSteppingGranularity | vdap/dap.hpp:728-742 | Writes one of the strings of the table, and it reads back as the same value |
| Enums.DecodeSteppingGranularity | vdap/dap.hpp:744-754 | Succeeds exactly on the strings of the table; a value that is not a string fails in `get<std::string>`; any other string fails as unknown |
| Enums.EncodeStackFramePresentationHint | vdap/dap.hpp:831-845 | Writes one of the strings of the table, and it reads back as the same value |
| Enums.DecodeStackFramePresentationHint | vdap/dap.hpp:847-857 | Succeeds exactly on the strings of the table; a value that is not a string fails in `get<std::string>`; any other string fails as unknown |
| Enums.EncodeCompletionItemType | vdap/dap.hpp:1094-1156 | Writes one of the strings of the table, and it reads back as the same value |
| Enums.DecodeCompletionItemType | vdap/dap.hpp:1158-1200 | Succeeds exactly on the strings of the table; a value that is not a string fails in `get<std::string>`; any other string fails as unknown |
| Enums.EncodeOutputGroup | vdap/dap.hpp:1969-1983 | Writes one of the strings of the table, and it reads back as the same value |
| Enums.DecodeOutputGroup | vdap/dap.hpp:1985-1995 | Succeeds exactly on the strings of the table; a value that is not a string fails in `get<std::string>`; any other string fails as unknown |
| Enums.EncodeModuleReason | vdap/dap.hpp:2068-2082 | Writes one of the strings of the table, and it reads back as the same value |
| Enums.DecodeModuleReason | vdap/dap.hpp:2084-2094 | Succeeds exactly on the strings of the table; a value that is not a string fails in `get<std::string>`; any other string fails as unknown |
| Enums.EncodeStartMethod | vdap/dap.hpp:2150-2164 | Writes one of the strings of the table, and it reads back as the same value |
| Enums.DecodeStartMethod | vdap/dap.hpp:2166-2176 | Succeeds exactly on the strings of the table; a value that is not a string fails in `get<std::string>`; any other string fails as unknown |
| Enums.EncodeRunInTerminalKind | vdap/dap.hpp:2371-2382 | Writes one of the strings of the table, and it reads back as the same value |
| Enums.DecodeRunInTerminalKind | vdap/dap.hpp:2384-2392 | Succeeds exactly on the strings of the table; a value that is not a string fails in `get<std::string>`; any other string fails as unknown |
| Enums.EncodeVariablesFilter | vdap/dap.hpp:3533-3544 | Writes one of the strings of the table, and it reads back as the same value |
| Enums.DecodeVariablesFilter | vdap/dap.hpp:3546-3554 | Succeeds exactly on the strings of the table; a value that is not a string fails in `get<std::string>`; any other string fails as unknown |
| Envelope.EncodeMessageType | vdap/dap.hpp:1280-1294 | Writes one of "request", "response", "event", and it reads back as the same type |
| Envelope.DecodeMessageType | vdap/dap.hpp:1296-1306 | Succeeds exactly on those three strings; a non-string fails in `get<std::string>`; any other string fails as unknown |
| Envelope.EncodeCommandType | vdap/dap.hpp:1374-1496 | Fails, as unknown, exactly on the commands the table has no string for (four protocol commands and `COMMAND_MAX`); otherwise writes a string |
| Envelope.DecodeCommandType | vdap/dap.hpp:1498-1580 | A non-string fails in `get<std::string>`; a string that is not in the chain fails as unknown |
| Envelope.CommandTypeRoundTrip | vdap/dap.hpp:1374-1580 | Every command with a string is written and reads back as the same command |
| Envelope.CommandTypeDecodeStrict | vdap/dap.hpp:1374-1580 | Whatever the decoder accepts, the encoder writes back as the same string: it accepts exactly the table |
| Envelope.CommandTypeUnwritableUndecodable | vdap/dap.hpp:1374-1580 | No string decodes to a command the table cannot write |
| Envelope.CommandTypeRejectsSetExceptionBreakpoints | vdap/dap.hpp:1498-1580 | The protocol name "setExceptionBreakpoints" fails as unknown |
| Envelope.CommandTypeRejectsDataBreakpointInfo | vdap/dap.hpp:1498-1580 | The protocol name "dataBreakpointInfo" fails as unknown |
| Envelope.CommandTypeRejectsSetDataBreakpoints | vdap/dap.hpp:1498-1580 | The protocol name "setDataBreakpoints" fails as unknown |
| Envelope.CommandTypeRejectsSetInstructionBreakpoints | vdap/dap.hpp:1498-1580 | The protocol name "setInstructionBreakpoints" fails as unknown |
| Envelope.EncodeEventType | vdap/dap.hpp:1621-1677 | Fails, as unknown, exactly on `EVENT_MAX`; otherwise writes a string |
| Envelope.DecodeEventType | vdap/dap.hpp:1679-1717 | A non-string fails in `get<std::string>`; a string that is not in the chain fails as unknown |
| Envelope.EventTypeRoundTrip | vdap/dap.hpp:1621-1717 | Every event other than `EVENT_MAX` is written and reads back as the same event |
| Envelope.EventTypeDecodeStrict | vdap/dap.hpp:1621-1717 | Whatever the decoder accepts, the encoder writes back as the same string |
| Envelope.EventTypeUnwritableUndecodable | vdap/dap.hpp:1621-1717 | No string decodes to `EVENT_MAX` |
| Envelope.ProgressEndWireName | vdap/dap.hpp:1662-1663 | `progressEnd` is written as "progresSend", and "progresSend" reads back as `progressEnd` |
| Envelope.EventTypeRejectsProgressEnd | vdap/dap.hpp:1707-1708 | The protocol name "progressEnd" fails as unknown |
| Envelope.EncodeProtocolMessage | vdap/dap.hpp:1317-1320 | Writes an object with exactly `seq` and `type`, which reads back as the same header |
| Envelope.DecodeProtocolMessage | vdap/dap.hpp:1322-1325 | A non-object fails with a type error; success needs both `seq` and `type` |
| Envelope.ProtocolMessageFrame | vdap/dap.hpp:1317-1325 | Adding any member other than `seq` and `type` leaves what the header decoder reads unchanged |
| Envelope.NewRequest | vdap/dap.hpp:1582-1588 | The `Request` constructor: `type` is request, and `command` and `seq` are the given ones |
| Envelope.EncodeRequest | vdap/dap.hpp:1590-1593 | Fails exactly when the command has no string; otherwise writes an object with exactly `seq`, `type`, `command`, which reads back as the same header |
| Envelope.DecodeRequest | vdap/dap.hpp:1595-1598 | Succeeds only when the `ProtocolMessage` part reads (returning it) and `command` is present |
| Envelope.RequestFrame | vdap/dap.hpp:1590-1598 | Adding a member other than the header keys leaves what the `Request` decoder reads unchanged |
| Envelope.NewEvent | vdap/dap.hpp:1719-1725 | The `Event` constructor: `type` is event, and `event` and `seq` are the given ones |
| Envelope.EncodeEvent | vdap/dap.hpp:1727-1730 | Fails exactly when the event has no string; otherwise writes an object with exactly `seq`, `type`, `event`, which reads back as the same header |
| Envelope.DecodeEvent | vdap/dap.hpp:1732-1735 | Succeeds only when the `ProtocolMessage` part reads (returning it) and `event` is present |
| Envelope.EventFrame | vdap/dap.hpp:1727-1735 | Adding a member other than the header keys leaves what the `Event` decoder reads unchanged |
| Envelope.NewResponse | vdap/dap.hpp:1737-1747 | The `Response` constructor: `type` is response, `command` and `success` are the given ones, and there is no message |
| Envelope.EncodeResponse | vdap/dap.hpp:1749-1755 | Fails exactly when the command has no string; otherwise writes exactly `seq`, `type`, `request_seq`, `success`, `command`, and `message` when present, which read back as the same header |
| Envelope.ResponseReadBack | vdap/dap.hpp:1749-1763 | The object built by the member-by-member writes has exactly the response keys and reads back as the same header |
| Envelope.DecodeResponse | vdap/dap.hpp:1757-1763 | Succeeds only when the `ProtocolMessage` part reads (returning it) and `request_seq`, `success`, `command` are present |
| Envelope.ResponseFrame | vdap/dap.hpp:1749-1763 | Adding a member other than the header keys leaves what the `Response` decoder reads unchanged |
| Envelope.NewErrorResponse | vdap/dap.hpp:1765-1770 | The `ErrorResponse` constructor: a response with `success` false and no error |
| Envelope.EncodeErrorResponse | vdap/dap.hpp:1772-1776 | Fails exactly when the command has no string; `body` is always written, null when there is no error and `{"error": ...}` otherwise; it reads back as the same message |
| Envelope.ErrorBody | vdap/dap.hpp:1772-1776 | The body `to_optJson` builds from a default (null) value: null without an error, a one-member object with it |
| Envelope.DecodeErrorResponse | vdap/dap.hpp:1778-1782 | Succeeds only when the `Response` header reads (returning it) and `body` is present |
| Events.EncodeStoppedEvent | vdap/dap.hpp:1853-1863 | Fails exactly when the event is one the EventType table has no string for; when it succeeds, what it writes reads back as the same message (round trip) |
| Events.DecodeStoppedEvent | vdap/dap.hpp:1865-1875 | Succeeds only when the `Event` header reads and `body` is present, and carries that header; fails when `body` lacks `reason`, where `at` throws |
| Events.EncodeContinuedEvent | vdap/dap.hpp:1886-1891 | Fails exactly when the event is one the EventType table has no string for; when it succeeds, what it writes reads back as the same message (round trip) |
| Events.DecodeContinuedEvent | vdap/dap.hpp:1893-1898 | Succeeds only when the `Event` header reads and `body` is present, and carries that header; fails when `body` lacks `threadId`, where `at` throws |
| Events.EncodeExitedEvent | vdap/dap.hpp:1908-1912 | Fails exactly when the event is one the EventType table has no string for; when it succeeds, what it writes reads back as the same message (round trip) |
| Events.DecodeExitedEvent | vdap/dap.hpp:1914-1918 | Succeeds only when the `Event` header reads and `body` is present, and carries that header; fails when `body` lacks `exitCode`, where `at` throws |
| Events.EncodeTerminatedEvent | vdap/dap.hpp:1928-1932 | Fails exactly when the event has no string; writes `body` exactly when `restart` is given, as the one-member object `{"restart": ...}`; reads back as the same message |
| Events.DecodeTerminatedEvent | vdap/dap.hpp:1934-1938 | Succeeds exactly when the `Event` header reads, carrying that header; a `restart` it reads is the `restart` member of `body`, kept as opaque JSON |
| Events.EncodeThreadEvent | vdap/dap.hpp:1949-1954 | Fails exactly when the event is one the EventType table has no string for; when it succeeds, what it writes reads back as the same message (round trip) |
| Events.DecodeThreadEvent | vdap/dap.hpp:1956-1961 | Succeeds only when the `Event` header reads and `body` is present, and carries that header; fails when `body` lacks `reason` or `threadId`, where `at` throws |
| Events.EncodeOutputEvent | vdap/dap.hpp:2013-2024 | Fails exactly when the event is one the EventType table has no string for; when it succeeds, what it writes reads back as the same message (round trip) |
| Events.DecodeOutputEvent | vdap/dap.hpp:2026-2037 | Succeeds only when the `Event` header reads and `body` is present, and carries that header; fails when `body` lacks `output`, where `at` throws |
| Events.EncodeBreakpointEvent | vdap/dap.hpp:2048-2053 | Fails exactly when the event is one the EventType table has no string for; when it succeeds, what it writes reads back as the same message (round trip) |
| Events.DecodeBreakpointEvent | vdap/dap.hpp:2055-2060 | Succeeds only when the `Event` header reads and `body` is present, and carries that header; fails when `body` lacks `reason` or `breakpoint`, where `at` throws |
| Events.EncodeModuleEvent | vdap/dap.hpp:2105-2110 | Fails exactly when the event is one the EventType table has no string for; when it succeeds, what it writes reads back as the same message (round trip) |
| Events.DecodeModuleEvent | vdap/dap.hpp:2112-2117 | Succeeds only when the `Event` header reads and `body` is present, and carries that header; fails when `body` lacks `reason` or `module`, where `at` throws |
| Events.EncodeLoadedSourceEvent | vdap/dap.hpp:2130-2135 | Fails exactly when the event is one the EventType table has no string for; when it succeeds, what it writes reads back as the same message (round trip) |
| Events.DecodeLoadedSourceEvent | vdap/dap.hpp:2137-2142 | Succeeds only when the `Event` header reads and `body` is present, and carries that header; fails when `body` lacks `reason` or `source`, where `at` throws |
| Events.EncodeProcessEvent | vdap/dap.hpp:2190-2198 | Fails exactly when the event is one the EventType table has no string for; when it succeeds, what it writes reads back as the same message (round trip) |
| Events.DecodeProcessEvent | vdap/dap.hpp:2200-2208 | Succeeds only when the `Event` header reads and `body` is present, and carries that header; fails when `body` lacks `name`, where `at` throws |
| Events.EncodeCapabilitiesEvent | vdap/dap.hpp:2218-2222 | Fails exactly when the event is one the EventType table has no string for; when it succeeds, what it writes reads back as the same message (round trip) |
| Events.DecodeCapabilitiesEvent | vdap/dap.hpp:2224-2228 | Succeeds only when the `Event` header reads and `body` is present, and carries that header; fails when `body` lacks `capabilities`, where `at` throws |
| Events.EncodeProgressStartEvent | vdap/dap.hpp:2243-2252 | Fails exactly when the event is one the EventType table has no string for; when it succeeds, what it writes reads back as the same message (round trip) |
| Events.DecodeProgressStartEvent | vdap/dap.hpp:2254-2263 | Succeeds only when the `Event` header reads and `body` is present, and carries that header; fails when `body` lacks `progressId` or `title`, where `at` throws |
| Events.EncodeProgressUpdateEvent | vdap/dap.hpp:2275-2281 | Fails exactly when the event is one the EventType table has no string for; when it succeeds, what it writes reads back as the same message (round trip) |
| Events.DecodeProgressUpdateEvent | vdap/dap.hpp:2283-2289 | Succeeds only when the `Event` header reads and `body` is present, and carries that header; fails when `body` lacks `progressId`, where `at` throws |
| Events.EncodeProgressEndEvent | vdap/dap.hpp:2300-2305 | Fails exactly when the event is one the EventType table has no string for; when it succeeds, what it writes reads back as the same message (round trip) |
| Events.DecodeProgressEndEvent | vdap/dap.hpp:2307-2312 | Succeeds only when the `Event` header reads and `body` is present, and carries that header; fails when `body` lacks `progressId`, where `at` throws |
| Events.EncodeInvalidatedEvent | vdap/dap.hpp:2324-2330 | Fails exactly when the event is one the EventType table has no string for; when it succeeds, what it writes reads back as the same message (round trip) |
| Events.DecodeInvalidatedEvent | vdap/dap.hpp:2332-2338 | Succeeds only when the `Event` header reads and `body` is present, and carries that header |
| Events.EncodeMemoryEvent | vdap/dap.hpp:2350-2356 | Fails exactly when the event is one the EventType table has no string for; when it succeeds, what it writes reads back as the same message (round trip) |
| Events.DecodeMemoryEvent | vdap/dap.hpp:2358-2364 | Succeeds only when the `Event` header reads and `body` is present, and carries that header; fails when `body` lacks `memoryReference` or `offset` or `count`, where `at` throws |
| Json.At | vdap/dap.hpp:91-98 | `at`: the member when the object has the key; `OutOfRange` when it does not; a type error on a non-object |
| Json.Put | vdap/dap.hpp:82-89 | `j[k] = v` on null or an object: the key now holds `v`, every other key keeps its value |
| Json.Insert | vdap/dap.hpp:61-65 | `j[k] = v` on any value: it succeeds, as `Put`, exactly on null or an object and throws a type error otherwise |
| Json.Erase | vdap/dap.hpp:2579-2580 | `erase(k)`: on an object, removes `k` and keeps every other key; on anything else, throws a type error |
| Json.Object | vdap/dap.hpp:61-65 | The object a record encoder builds by successive `to_optJson` calls: null or an object, never anything else |
| Json.FindObject | vdap/dap.hpp:61-65 | Such an object holds a key exactly when the member was given, with its value |
| Json.PutObject | vdap/dap.hpp:61-65 | Writing one more member into such an object is the same as building it with that member |
| Json.ObjectSkipsNone | vdap/dap.hpp:61-65 | An absent member leaves no trace: building with it absent is building without it |
| Json.GetBool | vdap/dap.hpp:91-98 | `get<bool>`: succeeds exactly on a boolean, and writing the result back gives the same value |
| Json.GetInt | vdap/dap.hpp:91-98 | `get<std::int64_t>`: succeeds exactly on an integer, and writing the result back gives the same value |
| Json.GetString | vdap/dap.hpp:91-98 | `get<std::string>`: succeeds exactly on a string, and writing the result back gives the same value |
| Legacy.ToOptJsonObject | dap.hpp:23-26 | `to_optJson` into a record object adds exactly the optional member |
| Legacy.ToOptJsonKeys | dap.hpp:23-26 | `to_optJson` into an object adds the key exactly when the value is present |
| Legacy.WriteExceptionBreakpointsFilter | dap.hpp:43-49 | Writes what `Types.EncodeExceptionBreakpointsFilter` writes (so the round trip holds): exactly `filter`, `label` and the optional members present, `default_` under "default" |
| Legacy.WriteExceptionFilterOptions | dap.hpp:65-68 | Writes what `Types.EncodeExceptionFilterOptions` writes: exactly `filterId`, and `condition` when present |
| Legacy.WriteExceptionPathSegment | dap.hpp:80-83 | Writes what `Types.EncodeExceptionPathSegment` writes: exactly `name`, and `negate` when present |
| Legacy.WriteExceptionBreakMode | dap.hpp:97-114 | Writes the mode's string, which reads back as the same mode |
| Legacy.WriteExceptionOptions | dap.hpp:136-139 | Writes what `Types.EncodeExceptionOptions` writes: exactly `breakMode`, and `path` when present |
| Legacy.WriteExceptionDetails | dap.hpp:155-162 | Writes what `Types.EncodeExceptionDetails` writes; the result stays null exactly when every member is absent |
| Legacy.ReadExceptionBreakpointsFilter | dap.hpp:51-58 | Reads what `Types.DecodeExceptionBreakpointsFilter` reads, so it fails without `filter` or `label` |
| Legacy.ReadExceptionFilterOptions | dap.hpp:70-73 | Reads what `Types.DecodeExceptionFilterOptions` reads |
| Legacy.ReadExceptionPathSegment | dap.hpp:85-88 | Reads what `Types.DecodeExceptionPathSegment` reads |
| Legacy.ReadExceptionBreakMode | dap.hpp:116-128 | Reads what `Enums.DecodeExceptionBreakMode` reads, and whatever it accepts is what the encoder writes |
| Legacy.ReadExceptionOptions | dap.hpp:141-144 | Reads what `Types.DecodeExceptionOptions` reads |
| Legacy.ReadExceptionDetails | dap.hpp:164-171 | Reads what `Types.DecodeExceptionDetails` reads; with none of its keys, or on a non-object, every member is absent |
| Requests.EncodeCancelRequest | vdap/dap.hpp:1794-1801 | Fails exactly when the command has no string; writes `arguments` exactly when `progressId` is given (the guard tests it twice); reads back as the message, except that `requestId` is dropped when `progressId` is absent |
| Requests.DecodeCancelRequest | vdap/dap.hpp:1803-1809 | Succeeds only when the `Request` header reads, returning it; without `arguments` both ids are absent |
| Requests.CancelRequestRoundTrip | vdap/dap.hpp:1794-1809 | The round trip is exact exactly when `progressId` is given or `requestId` is absent: a lone `requestId` is lost |
| Requests.EncodeRunInTerminalRequest | vdap/dap.hpp:2406-2414 | Fails exactly when the command is one the CommandType table has no string for; when it succeeds, what it writes reads back as the same message (round trip) |
| Requests.DecodeRunInTerminalRequest | vdap/dap.hpp:2416-2424 | Succeeds only when the `Request` header reads and `arguments` is present, and carries that header; fails when `arguments` lacks `cwd` or `args`, where `at` throws |
| Requests.EncodeInitializeRequest | vdap/dap.hpp:2469-2487 | Fails exactly when the command is one the CommandType table has no string for; when it succeeds, what it writes reads back as the same message (round trip) |
| Requests.DecodeInitializeRequest | vdap/dap.hpp:2489-2509 | Succeeds only when the `Request` header reads and `arguments` is present, and carries that header; fails when `arguments` lacks `adapterID`, where `at` throws |
| Requests.OverlayOpt | vdap/dap.hpp:61-65 | `to_optJson` into a free-form value: nothing changes when absent; when present it writes the key, and throws exactly when the value is neither null nor an object |
| Requests.EncodeLaunchRequest | vdap/dap.hpp:2567-2573 | Fails exactly when the command has no string, or when a member is overlaid on `arguments` that are neither null nor an object; writes the header and `arguments` |
| Requests.DecodeLaunchRequest | vdap/dap.hpp:2575-2583 | Succeeds only with a readable header and `arguments`; `noDebug` and `restartData` are what `from_optJson` reads from the wire arguments, and the kept arguments are an object without those two keys that agrees with the wire arguments on every other key |
| Requests.ReadLaunchRequest | vdap/dap.hpp:2575-2583 | The decoder step by step, erasing from its copy of the wire arguments in place, computes `DecodeLaunchRequest` |
| Requests.LaunchRequestRoundTrip | vdap/dap.hpp:2567-2583 | The round trip is exact exactly when `arguments` is an object that does not already hold `noDebug` or `__restart` |
| Requests.LaunchOverlayReadBack | vdap/dap.hpp:2567-2583 | Overlaying both members on such arguments and erasing them again gives back the arguments, and reading them gives back both members |
| Requests.EncodeAttachRequest | vdap/dap.hpp:2608-2613 | Fails exactly when the command has no string, or when `__restart` is overlaid on `arguments` that are neither null nor an object; writes the header and `arguments` |
| Requests.DecodeAttachRequest | vdap/dap.hpp:2615-2621 | Succeeds only with a readable header and `arguments`; `restartData` is what the wire arguments hold under `__restart`, and the kept arguments are an object without that key that agrees with the wire arguments on every other key |
| Requests.ReadAttachRequest | vdap/dap.hpp:2615-2621 | The decoder step by step, erasing from its copy in place, computes `DecodeAttachRequest` |
| Requests.AttachRequestRoundTrip | vdap/dap.hpp:2608-2621 | The round trip is exact exactly when `arguments` is an object that does not already hold `__restart` |
| Requests.EncodeRestartRequest | vdap/dap.hpp:2646-2653 | Fails exactly when the command is one the CommandType table has no string for; writes `arguments` exactly when `noDebug` or `restartData` is given; when it succeeds, what it writes reads back as the same message (round trip) |
| Requests.DecodeRestartRequest | vdap/dap.hpp:2655-2661 | Succeeds only when the `Request` header reads, and carries that header; a readable header without `arguments` reads as the message with every member absent |
| Requests.EncodeDisconnectRequest | vdap/dap.hpp:2687-2695 | Fails exactly when the command is one the CommandType table has no string for; writes `arguments` exactly when `restart` or `terminateDebuggee` or `suspendDebuggee` is given; when it succeeds, what it writes reads back as the same message (round trip) |
| Requests.DecodeDisconnectRequest | vdap/dap.hpp:2697-2704 | Succeeds only when the `Request` header reads, and carries that header; a readable header without `arguments` reads as the message with every member absent |
| Requests.EncodeTerminateRequest | vdap/dap.hpp:2728-2732 | Fails exactly when the command has no string; writes `arguments` exactly when `restart` is given, as the one-member object `{"restart": ...}`; reads back as the same message |
| Requests.DecodeTerminateRequest | vdap/dap.hpp:2734-2738 | Succeeds only when the `Request` header reads, and carries that header; a readable header without `arguments` reads as the message with every member absent |
| Requests.EncodeBreakpointLocationsRequest | vdap/dap.hpp:2766-2774 | Fails exactly when the command is one the CommandType table has no string for; when it succeeds, what it writes reads back as the same message (round trip) |
| Requests.DecodeBreakpointLocationsRequest | vdap/dap.hpp:2776-2784 | Succeeds only when the `Request` header reads and `arguments` is present, and carries that header; fails when `arguments` lacks `source` or `line`, where `at` throws |
| Requests.EncodeSetBreakpointsRequest | vdap/dap.hpp:2817-2824 | Fails exactly when the command is one the CommandType table has no string for; when it succeeds, what it writes reads back as the same message (round trip) |
| Requests.DecodeSetBreakpointsRequest | vdap/dap.hpp:2826-2833 | Succeeds only when the `Request` header reads and `arguments` is present, and carries that header; fails when `arguments` lacks `source`, where `at` throws |
| Requests.EncodeSetFunctionBreakpointsRequest | vdap/dap.hpp:2863-2867 | Fails exactly when the command is one the CommandType table has no string for; when it succeeds, what it writes reads back as the same message (round trip) |
| Requests.DecodeSetFunctionBreakpointsRequest | vdap/dap.hpp:2869-2873 | Succeeds only when the `Request` header reads and `arguments` is present, and carries that header; fails when `arguments` lacks `breakpoints`, where `at` throws |
| Requests.EncodeSetExceptionBreakpointsRequest | vdap/dap.hpp:2918-2924 | Fails exactly when the command is one the CommandType table has no string for; when it succeeds, what it writes reads back as the same message (round trip) |
| Requests.DecodeSetExceptionBreakpointsRequest | vdap/dap.hpp:2926-2932 | Succeeds only when the `Request` header reads and `arguments` is present, and carries that header; fails when `arguments` lacks `filters`, where `at` throws |
| Requests.EncodeDataBreakpointInfoRequest | vdap/dap.hpp:2963-2968 | Fails exactly when the command is one the CommandType table has no string for; when it succeeds, what it writes reads back as the same message (round trip) |
| Requests.DecodeDataBreakpointInfoRequest | vdap/dap.hpp:2970-2975 | Succeeds only when the `Request` header reads and `arguments` is present, and carries that header; fails when `arguments` lacks `name`, where `at` throws |
| Requests.EncodeSetDataBreakpointsRequest | vdap/dap.hpp:3018-3022 | Fails exactly when the command is one the CommandType table has no string for; when it succeeds, what it writes reads back as the same message (round trip) |
| Requests.DecodeSetDataBreakpointsRequest | vdap/dap.hpp:3024-3028 | Succeeds only when the `Request` header reads and `arguments` is present, and carries that header; fails when `arguments` lacks `breakpoints`, where `at` throws |
| Requests.EncodeSetInstructionBreakpointsRequest | vdap/dap.hpp:3053-3057 | Fails exactly when the command is one the CommandType table has no string for; when it succeeds, what it writes reads back as the same message (round trip) |
| Requests.DecodeSetInstructionBreakpointsRequest | vdap/dap.hpp:3059-3063 | Succeeds only when the `Request` header reads and `arguments` is present, and carries that header; fails when `arguments` lacks `breakpoints`, where `at` throws |
| Requests.EncodeContinueBaseRequest | vdap/dap.hpp:3087-3092 | Fails exactly when the command is one the CommandType table has no string for; when it succeeds, what it writes reads back as the same message (round trip) |
| Requests.DecodeContinueBaseRequest | vdap/dap.hpp:3094-3099 | Succeeds only when the `Request` header reads and `arguments` is present, and carries that header; fails when `arguments` lacks `threadId`, where `at` throws |
| Requests.EncodeNextBaseRequest | vdap/dap.hpp:3143-3149 | Fails exactly when the command is one the CommandType table has no string for; when it succeeds, what it writes reads back as the same message (round trip) |
| Requests.DecodeNextBaseRequest | vdap/dap.hpp:3151-3157 | Succeeds only when the `Request` header reads and `arguments` is present, and carries that header; fails when `arguments` lacks `threadId`, where `at` throws |
| Requests.EncodeStepInRequest | vdap/dap.hpp:3198-3205 | Fails exactly when the command is one the CommandType table has no string for; when it succeeds, what it writes reads back as the same message (round trip) |
| Requests.DecodeStepInRequest | vdap/dap.hpp:3207-3214 | Succeeds only when the `Request` header reads and `arguments` is present, and carries that header; fails when `arguments` lacks `threadId`, where `at` throws |
| Requests.EncodeRestartFrameBaseRequest | vdap/dap.hpp:3318-3322 | Fails exactly when the command is one the CommandType table has no string for; when it succeeds, what it writes reads back as the same message (round trip) |
| Requests.DecodeRestartFrameBaseRequest | vdap/dap.hpp:3324-3328 | Succeeds only when the `Request` header reads and `arguments` is present, and carries that header; fails when `arguments` lacks `frameId`, where `at` throws |
| Requests.EncodeGotoRequest | vdap/dap.hpp:3367-3372 | Fails exactly when the command is one the CommandType table has no string for; when it succeeds, what it writes reads back as the same message (round trip) |
| Requests.DecodeGotoRequest | vdap/dap.hpp:3374-3379 | Succeeds only when the `Request` header reads and `arguments` is present, and carries that header; fails when `arguments` lacks `threadId` or `targetId`, where `at` throws |
| Requests.EncodePauseBaseRequest | vdap/dap.hpp:3401-3405 | Fails exactly when the command is one the CommandType table has no string for; when it succeeds, what it writes reads back as the same message (round trip) |
| Requests.DecodePauseBaseRequest | vdap/dap.hpp:3407-3411 | Succeeds only when the `Request` header reads and `arguments` is present, and carries that header; fails when `arguments` lacks `threadId`, where `at` throws |
| Requests.EncodeStackTraceRequest | vdap/dap.hpp:3452-3459 | Fails exactly when the command is one the CommandType table has no string for; when it succeeds, what it writes reads back as the same message (round trip) |
| Requests.DecodeStackTraceRequest | vdap/dap.hpp:3461-3468 | Succeeds only when the `Request` header reads and `arguments` is present, and carries that header; fails when `arguments` lacks `threadId`, where `at` throws |
| Requests.EncodeVariablesRequest | vdap/dap.hpp:3569-3577 | Fails exactly when the command is one the CommandType table has no string for; when it succeeds, what it writes reads back as the same message (round trip) |
| Requests.DecodeVariablesRequest | vdap/dap.hpp:3579-3587 | Succeeds only when the `Request` header reads and `arguments` is present, and carries that header; fails when `arguments` lacks `variablesReference`, where `at` throws |
| Requests.EncodeSetVariableRequest | vdap/dap.hpp:3620-3627 | Fails exactly when the command is one the CommandType table has no string for; when it succeeds, what it writes reads back as the same message (round trip) |
| Requests.DecodeSetVariableRequest | vdap/dap.hpp:3629-3636 | Succeeds only when the `Request` header reads and `arguments` is present, and carries that header; fails when `arguments` lacks `variablesReference` or `name` or `value`, where `at` throws |
| Requests.EncodeSourceRequest | vdap/dap.hpp:3679-3684 | Fails exactly when the command is one the CommandType table has no string for; when it succeeds, what it writes reads back as the same message (round trip) |
| Requests.DecodeSourceRequest | vdap/dap.hpp:3686-3691 | Succeeds only when the `Request` header reads and `arguments` is present, and carries that header; fails when `arguments` lacks `sourceReference`, where `at` throws |
| Requests.EncodeTerminateThreadsRequest | vdap/dap.hpp:3758-3762 | Fails exactly when the command is one the CommandType table has no string for; when it succeeds, what it writes reads back as the same message (round trip) |
| Requests.DecodeTerminateThreadsRequest | vdap/dap.hpp:3764-3768 | Succeeds only when the `Request` header reads and `arguments` is present, and carries that header |
| Requests.EncodeModulesRequest | vdap/dap.hpp:3793-3798 | Fails exactly when the command is one the CommandType table has no string for; when it succeeds, what it writes reads back as the same message (round trip) |
| Requests.DecodeModulesRequest | vdap/dap.hpp:3800-3805 | Succeeds only when the `Request` header reads and `arguments` is present, and carries that header |
| Requests.EncodeEvaluateRequest | vdap/dap.hpp:3875-3882 | Fails exactly when the command is one the CommandType table has no string for; when it succeeds, what it writes reads back as the same message (round trip) |
| Requests.DecodeEvaluateRequest | vdap/dap.hpp:3884-3891 | Succeeds only when the `Request` header reads and `arguments` is present, and carries that header; fails when `arguments` lacks `expression`, where `at` throws |
| Requests.EncodeSetExpressionRequest | vdap/dap.hpp:3942-3949 | Fails exactly when the command is one the CommandType table has no string for; when it succeeds, what it writes reads back as the same message (round trip) |
| Requests.DecodeSetExpressionRequest | vdap/dap.hpp:3951-3958 | Succeeds only when the `Request` header reads and `arguments` is present, and carries that header; fails when `arguments` lacks `expression` or `value`, where `at` throws |
| Requests.EncodeStepInTargetsRequest | vdap/dap.hpp:4003-4007 | Fails exactly when the command is one the CommandType table has no string for; when it succeeds, what it writes reads back as the same message (round trip) |
| Requests.DecodeStepInTargetsRequest | vdap/dap.hpp:4009-4013 | Succeeds only when the `Request` header reads and `arguments` is present, and carries that header; fails when `arguments` lacks `frameId`, where `at` throws |
| Requests.EncodeGotoTargetsRequest | vdap/dap.hpp:4045-4051 | Fails exactly when the command is one the CommandType table has no string for; when it succeeds, what it writes reads back as the same message (round trip) |
| Requests.DecodeGotoTargetsRequest | vdap/dap.hpp:4053-4059 | Succeeds only when the `Request` header reads and `arguments` is present, and carries that header; fails when `arguments` lacks `source` or `line`, where `at` throws |
| Requests.EncodeCompletionsRequest | vdap/dap.hpp:4092-4099 | Fails exactly when the command is one the CommandType table has no string for; when it succeeds, what it writes reads back as the same message (round trip) |
| Requests.DecodeCompletionsRequest | vdap/dap.hpp:4101-4108 | Succeeds only when the `Request` header reads and `arguments` is present, and carries that header; fails when `arguments` lacks `text` or `column`, where `at` throws |
| Requests.EncodeReadMemoryRequest | vdap/dap.hpp:4183-4189 | Fails exactly when the command is one the CommandType table has no string for; when it succeeds, what it writes reads back as the same message (round trip) |
| Requests.DecodeReadMemoryRequest | vdap/dap.hpp:4191-4197 | Succeeds only when the `Request` header reads and `arguments` is present, and carries that header; fails when `arguments` lacks `memoryReference` or `count`, where `at` throws |
| Requests.EncodeWriteMemoryRequest | vdap/dap.hpp:4236-4243 | Fails exactly when the command is one the CommandType table has no string for; when it succeeds, what it writes reads back as the same message (round trip) |
| Requests.DecodeWriteMemoryRequest | vdap/dap.hpp:4245-4252 | Succeeds only when the `Request` header reads and `arguments` is present, and carries that header; fails when `arguments` lacks `memoryReference` or `data`, where `at` throws |
| Requests.EncodeDisassembleRequest | vdap/dap.hpp:4289-4297 | Fails exactly when the command is one the CommandType table has no string for; when it succeeds, what it writes reads back as the same message (round trip) |
| Requests.DecodeDisassembleRequest | vdap/dap.hpp:4299-4307 | Succeeds only when the `Request` header reads and `arguments` is present, and carries that header; fails when `arguments` lacks `memoryReference` or `instructionCount`, where `at` throws |
| Responses.EncodeRunInTerminalResponse | vdap/dap.hpp:2435-2440 | Fails exactly when the command is one the CommandType table has no string for; when it succeeds, what it writes reads back as the same message (round trip) |
| Responses.DecodeRunInTerminalResponse | vdap/dap.hpp:2442-2447 | Succeeds only when the `Response` header reads and `body` is present, and carries that header |
| Responses.EncodeInitializeResponse | vdap/dap.hpp:2519-2522 | Fails exactly when the command is one the CommandType table has no string for; writes `body` exactly when `body` is given; when it succeeds, what it writes reads back as the same message (round trip) |
| Responses.ResponseOptBody | vdap/dap.hpp:2519-2527 | A `body` added by `to_optJson` leaves the header readable as before, is present exactly when given, and reads back |
| Responses.DecodeInitializeResponse | vdap/dap.hpp:2524-2527 | Succeeds only when the `Response` header reads, and carries that header; a readable header without `body` reads as the message with every member absent |
| Responses.EncodeBreakpointLocationsResponse | vdap/dap.hpp:2794-2798 | Fails exactly when the command is one the CommandType table has no string for; when it succeeds, what it writes reads back as the same message (round trip) |
| Responses.DecodeBreakpointLocationsResponse | vdap/dap.hpp:2800-2804 | Succeeds only when the `Response` header reads and `body` is present, and carries that header; fails when `body` lacks `breakpoints`, where `at` throws |
| Responses.EncodeSetBreakpointsResponse | vdap/dap.hpp:2843-2847 | Fails exactly when the command is one the CommandType table has no string for; when it succeeds, what it writes reads back as the same message (round trip) |
| Responses.DecodeSetBreakpointsResponse | vdap/dap.hpp:2849-2853 | Succeeds only when the `Response` header reads and `arguments` is present, and carries that header |
| Responses.EncodeSetFunctionBreakpointsBaseResponse | vdap/dap.hpp:2881-2885 | Fails exactly when the command is one the CommandType table has no string for; when it succeeds, what it writes reads back as the same message (round trip) |
| Responses.DecodeSetFunctionBreakpointsBaseResponse | vdap/dap.hpp:2887-2891 | Succeeds only when the `Response` header reads and `body` is present, and carries that header; fails when `body` lacks `breakpoints`, where `at` throws |
| Responses.EncodeSetExceptionBreakpointsResponse | vdap/dap.hpp:2942-2946 | Fails exactly when the command is one the CommandType table has no string for; writes `body` exactly when `breakpoints` is given; when it succeeds, what it writes reads back as the same message (round trip) |
| Responses.DecodeSetExceptionBreakpointsResponse | vdap/dap.hpp:2948-2952 | Succeeds only when the `Response` header reads, and carries that header; a readable header without `body` reads as the message with every member absent |
| Responses.DataIdJson | vdap/dap.hpp:2988-2998 | The `dataId` member: null exactly when the id is absent, and it reads back as the same optional |
| Responses.DecodeDataId | vdap/dap.hpp:3000-3008 | Null reads as no id, a string as that id; anything else fails in `get<std::string>` |
| Responses.DataBreakpointInfoResponseMembersRoundTrip | vdap/dap.hpp:2988-3008 | Every member of the body, `dataId` included, reads back from the written body |
| Responses.EncodeDataBreakpointInfoResponse | vdap/dap.hpp:2988-2998 | Always writes `body.dataId`, null when the id is absent; fails exactly when the command has no string; reads back as the same message |
| Responses.DecodeDataBreakpointInfoResponse | vdap/dap.hpp:3000-3008 | Succeeds only with a readable header and `body.dataId` and `body.description` present; the id is absent exactly when the wire holds null, and otherwise is the string the wire holds |
| Responses.EncodeContinueResponse | vdap/dap.hpp:3123-3127 | Fails exactly when the command is one the CommandType table has no string for; when it succeeds, what it writes reads back as the same message (round trip) |
| Responses.DecodeContinueResponse | vdap/dap.hpp:3129-3133 | Succeeds only when the `Response` header reads and `body` is present, and carries that header |
| Responses.EncodeStackTraceResponse | vdap/dap.hpp:3480-3485 | Fails exactly when the command is one the CommandType table has no string for; when it succeeds, what it writes reads back as the same message (round trip) |
| Responses.DecodeStackTraceResponse | vdap/dap.hpp:3487-3492 | Succeeds only when the `Response` header reads and `body` is present, and carries that header; fails when `body` lacks `stackFrames`, where `at` throws |
| Responses.EncodeScopesResponse | vdap/dap.hpp:3516-3520 | Fails exactly when the command is one the CommandType table has no string for; when it succeeds, what it writes reads back as the same message (round trip) |
| Responses.DecodeScopesResponse | vdap/dap.hpp:3522-3526 | Succeeds only when the `Response` header reads and `body` is present, and carries that header; fails when `body` lacks `scopes`, where `at` throws |
| Responses.EncodeVariablesResponse | vdap/dap.hpp:3597-3601 | Fails exactly when the command is one the CommandType table has no string for; when it succeeds, what it writes reads back as the same message (round trip) |
| Responses.DecodeVariablesResponse | vdap/dap.hpp:3603-3607 | Succeeds only when the `Response` header reads and `body` is present, and carries that header; fails when `body` lacks `variables`, where `at` throws |
| Responses.EncodeSetVariableResponse | vdap/dap.hpp:3650-3658 | Fails exactly when the command is one the CommandType table has no string for; when it succeeds, what it writes reads back as the same message (round trip) |
| Responses.DecodeSetVariableResponse | vdap/dap.hpp:3660-3668 | Succeeds only when the `Response` header reads and `body` is present, and carries that header; fails when `body` lacks `value`, where `at` throws |
| Responses.EncodeSourceResponse | vdap/dap.hpp:3702-3707 | Fails exactly when the command is one the CommandType table has no string for; when it succeeds, what it writes reads back as the same message (round trip) |
| Responses.DecodeSourceResponse | vdap/dap.hpp:3709-3714 | Succeeds only when the `Response` header reads and `body` is present, and carries that header; fails when `body` lacks `content`, where `at` throws |
| Responses.EncodeThreadsResponse | vdap/dap.hpp:3738-3742 | Fails exactly when the command is one the CommandType table has no string for; when it succeeds, what it writes reads back as the same message (round trip) |
| Responses.DecodeThreadsResponse | vdap/dap.hpp:3744-3748 | Succeeds only when the `Response` header reads and `body` is present, and carries that header; fails when `body` lacks `threads`, where `at` throws |
| Responses.EncodeModulesResponse | vdap/dap.hpp:3816-3821 | Fails exactly when the command is one the CommandType table has no string for; when it succeeds, what it writes reads back as the same message (round trip) |
| Responses.DecodeModulesResponse | vdap/dap.hpp:3823-3828 | Succeeds only when the `Response` header reads and `body` is present, and carries that header; fails when `body` lacks `modules`, where `at` throws |
| Responses.EncodeLoadedSourcesResponse | vdap/dap.hpp:3852-3856 | Fails exactly when the command is one the CommandType table has no string for; when it succeeds, what it writes reads back as the same message (round trip) |
| Responses.DecodeLoadedSourcesResponse | vdap/dap.hpp:3858-3862 | Succeeds only when the `Response` header reads and `body` is present, and carries that header; fails when `body` lacks `sources`, where `at` throws |
| Responses.EncodeEvaluateResponse | vdap/dap.hpp:3907-3917 | Fails exactly when the command is one the CommandType table has no string for; when it succeeds, what it writes reads back as the same message (round trip) |
| Responses.DecodeEvaluateResponse | vdap/dap.hpp:3919-3929 | Succeeds only when the `Response` header reads and `body` is present, and carries that header; fails when `body` lacks `result` or `variablesReference`, where `at` throws |
| Responses.EncodeSetExpressionResponse | vdap/dap.hpp:3973-3982 | Fails exactly when the command is one the CommandType table has no string for; when it succeeds, what it writes reads back as the same message (round trip) |
| Responses.DecodeSetExpressionResponse | vdap/dap.hpp:3984-3993 | Succeeds only when the `Response` header reads and `body` is present, and carries that header; fails when `body` lacks `value`, where `at` throws |
| Responses.EncodeStepInTargetsResponse | vdap/dap.hpp:4023-4027 | Fails exactly when the command is one the CommandType table has no string for; when it succeeds, what it writes reads back as the same message (round trip) |
| Responses.DecodeStepInTargetsResponse | vdap/dap.hpp:4029-4033 | Succeeds only when the `Response` header reads and `body` is present, and carries that header; fails when `body` lacks `targets`, where `at` throws |
| Responses.EncodeGotoTargetsResponse | vdap/dap.hpp:4069-4073 | Fails exactly when the command is one the CommandType table has no string for; when it succeeds, what it writes reads back as the same message (round trip) |
| Responses.DecodeGotoTargetsResponse | vdap/dap.hpp:4075-4079 | Succeeds only when the `Response` header reads and `body` is present, and carries that header; fails when `body` lacks `targets`, where `at` throws |
| Responses.EncodeCompletionsResponse | vdap/dap.hpp:4118-4122 | Fails exactly when the command is one the CommandType table has no string for; when it succeeds, what it writes reads back as the same message (round trip) |
| Responses.DecodeCompletionsResponse | vdap/dap.hpp:4124-4128 | Succeeds only when the `Response` header reads and `body` is present, and carries that header; fails when `body` lacks `targets`, where `at` throws |
| Responses.EncodeExceptionInfoResponse | vdap/dap.hpp:4155-4162 | Fails exactly when the command is one the CommandType table has no string for; when it succeeds, what it writes reads back as the same message (round trip) |
| Responses.DecodeExceptionInfoResponse | vdap/dap.hpp:4164-4171 | Succeeds only when the `Response` header reads and `body` is present, and carries that header; fails when `body` lacks `exceptionId` or `breakMode`, where `at` throws |
| Responses.EncodeReadMemoryResponse | vdap/dap.hpp:4209-4215 | Fails exactly when the command is one the CommandType table has no string for; when it succeeds, what it writes reads back as the same message (round trip) |
| Responses.DecodeReadMemoryResponse | vdap/dap.hpp:4217-4223 | Succeeds only when the `Response` header reads and `body` is present, and carries that header; fails when `body` lacks `address`, where `at` throws |
| Responses.EncodeWriteMemoryResponse | vdap/dap.hpp:4263-4268 | Fails exactly when the command is one the CommandType table has no string for; when it succeeds, what it writes reads back as the same message (round trip) |
| Responses.DecodeWriteMemoryResponse | vdap/dap.hpp:4270-4275 | Succeeds only when the `Response` header reads and `body` is present, and carries that header |
| Responses.EncodeDisassembleResponse | vdap/dap.hpp:4317-4321 | Fails exactly when the command is one the CommandType table has no string for; when it succeeds, what it writes reads back as the same message (round trip) |
| Responses.DecodeDisassembleResponse | vdap/dap.hpp:4323-4327 | Succeeds only when the `Response` header reads and `body` is present, and carries that header; fails when `body` lacks `instructions`, where `at` throws |
| Types.EncodeExceptionBreakpointsFilter | vdap/dap.hpp:82-89 | What it writes reads back as the same value (round trip) |
| Types.DecodeExceptionBreakpointsFilter | vdap/dap.hpp:91-98 | Succeeds only when the required members `filter`, `label` are present |
| Types.EncodeExceptionFilterOptions | vdap/dap.hpp:105-108 | What it writes reads back as the same value (round trip) |
| Types.DecodeExceptionFilterOptions | vdap/dap.hpp:110-113 | Succeeds only when the required member `filterId` is present |
| Types.EncodeExceptionPathSegment | vdap/dap.hpp:120-123 | What it writes reads back as the same value (round trip) |
| Types.DecodeExceptionPathSegment | vdap/dap.hpp:125-128 | Succeeds only when the required member `name` is present |
| Types.EncodeExceptionOptions | vdap/dap.hpp:176-179 | What it writes reads back as the same value (round trip) |
| Types.DecodeExceptionOptions | vdap/dap.hpp:181-184 | Succeeds only when the required member `breakMode` is present |
| Types.EncodeExceptionDetails | vdap/dap.hpp:195-202 | What it writes reads back as the same value (round trip) |
| Types.EncodeInnerExceptions | vdap/dap.hpp:195-202 | The `innerExceptions` member: present exactly when the list is, and it reads back as the same list |
| Types.DecodeExceptionDetails | vdap/dap.hpp:204-211 | A value that is not an object reads as the record with every member absent, since `find` finds nothing in it |
| Types.DecodeInnerExceptionList | vdap/dap.hpp:204-211 | A non-array fails with a type error; an array decodes exactly when every element does |
| Types.DecodeInnerExceptionItems | vdap/dap.hpp:204-211 | The elements from an index on: succeeds exactly when each decodes, and the items are those decodings, in order |
| Types.ExceptionDetailsNullIffEmpty | vdap/dap.hpp:195-202 | The encoder writes null (no keys at all) exactly when every member is absent |
| Types.EncodeColumnDescriptor | vdap/dap.hpp:261-267 | What it writes reads back as the same value (round trip) |
| Types.DecodeColumnDescriptor | vdap/dap.hpp:269-275 | Succeeds only when the required members `attributeName`, `label` are present |
| Types.EncodeChecksum | vdap/dap.hpp:322-325 | What it writes reads back as the same value (round trip) |
| Types.DecodeChecksum | vdap/dap.hpp:327-330 | Succeeds only when the required members `algorithm`, `checksum` are present |
| Types.EncodeCapabilities | vdap/dap.hpp:374-422 | What it writes reads back as the same value (round trip) |
| Types.DecodeCapabilities | vdap/dap.hpp:424-475 | Every member is optional, so a value that is not an object reads as the record with every capability absent; the encoder's round trip states what is read back |
| Types.EncodeSource | vdap/dap.hpp:522-531 | What it writes reads back as the same value (round trip) |
| Types.EncodeSources | vdap/dap.hpp:522-531 | The `sources` member: present exactly when the list is, and it reads back as the same list |
| Types.DecodeSource | vdap/dap.hpp:533-542 | A value that is not an object reads as the record with every member absent, since `find` finds nothing in it |
| Types.DecodeSourceList | vdap/dap.hpp:533-542 | A non-array fails with a type error; an array decodes exactly when every element does |
| Types.DecodeSourceItems | vdap/dap.hpp:533-542 | The elements from an index on: succeeds exactly when each decodes, and the items are those decodings, in order |
| Types.HelloWorldSource | dap.cpp:9-12 | A Source with only a name and the `normal` presentation hint writes exactly `{"name": "Hello World", "presentationHint": "normal"}` |
| Types.EncodeSourceBreakpoint | vdap/dap.hpp:552-558 | What it writes reads back as the same value (round trip) |
| Types.DecodeSourceBreakpoint | vdap/dap.hpp:560-566 | Succeeds only when the required member `line` is present |
| Types.EncodeInstructionBreakpoint | vdap/dap.hpp:575-580 | What it writes reads back as the same value (round trip) |
| Types.DecodeInstructionBreakpoint | vdap/dap.hpp:582-587 | Succeeds only when the required member `instructionReference` is present |
| Types.EncodeDataBreakpoint | vdap/dap.hpp:630-635 | What it writes reads back as the same value (round trip) |
| Types.DecodeDataBreakpoint | vdap/dap.hpp:637-642 | Succeeds only when the required member `dataId` is present |
| Types.EncodeFunctionBreakpoint | vdap/dap.hpp:650-654 | What it writes reads back as the same value (round trip) |
| Types.DecodeFunctionBreakpoint | vdap/dap.hpp:656-660 | Succeeds only when the required member `name` is present |
| Types.EncodeBreakpoint | vdap/dap.hpp:675-686 | What it writes reads back as the same value (round trip) |
| Types.DecodeBreakpoint | vdap/dap.hpp:688-699 | Succeeds only when the required member `verified` is present |
| Types.EncodeBreakpointLocation | vdap/dap.hpp:708-713 | What it writes reads back as the same value (round trip) |
| Types.DecodeBreakpointLocation | vdap/dap.hpp:715-720 | Succeeds only when the required member `line` is present |
| Types.EncodeModule | vdap/dap.hpp:769-780 | What it writes reads back as the same value (round trip) |
| Types.DecodeModule | vdap/dap.hpp:782-793 | Succeeds only when the required members `id`, `name` are present |
| Types.EncodeStackFrameFormat | vdap/dap.hpp:805-813 | What it writes reads back as the same value (round trip) |
| Types.DecodeStackFrameFormat | vdap/dap.hpp:815-823 | A value that is not an object reads as the record with every member absent, since `find` finds nothing in it |
| Types.EncodeStackFrame | vdap/dap.hpp:873-885 | What it writes reads back as the same value (round trip) |
| Types.DecodeStackFrame | vdap/dap.hpp:887-899 | Succeeds only when the required members `id`, `name`, `source`, `line`, `column` are present |
| Types.EncodeScope | vdap/dap.hpp:915-927 | What it writes reads back as the same value (round trip) |
| Types.DecodeScope | vdap/dap.hpp:929-941 | Succeeds only when the required members `name`, `presentationHint`, `variablesReference`, `expensive` are present |
| Types.EncodeValueFormat | vdap/dap.hpp:947-949 | What it writes reads back as the same value (round trip) |
| Types.DecodeValueFormat | vdap/dap.hpp:951-953 | A value that is not an object reads as the record with every member absent, since `find` finds nothing in it |
| Types.EncodeVariablePresentationHint | vdap/dap.hpp:962-967 | What it writes reads back as the same value (round trip) |
| Types.DecodeVariablePresentationHint | vdap/dap.hpp:969-974 | Succeeds only when the required member `kind` is present |
| Types.EncodeVariable | vdap/dap.hpp:988-998 | What it writes reads back as the same value (round trip) |
| Types.DecodeVariable | vdap/dap.hpp:1000-1010 | Succeeds only when the required members `name`, `value`, `variablesReference` are present |
| Types.EncodeThread | vdap/dap.hpp:1017-1020 | What it writes reads back as the same value (round trip) |
| Types.DecodeThread | vdap/dap.hpp:1022-1025 | Succeeds only when the required members `id`, `name` are present |
| Types.EncodeStepInTarget | vdap/dap.hpp:1032-1035 | What it writes reads back as the same value (round trip) |
| Types.DecodeStepInTarget | vdap/dap.hpp:1037-1040 | Succeeds only when the required members `id`, `label` are present |
| Types.EncodeGotoTarget | vdap/dap.hpp:1052-1060 | What it writes reads back as the same value (round trip) |
| Types.DecodeGotoTarget | vdap/dap.hpp:1062-1070 | Succeeds only when the required members `id`, `label`, `line` are present |
| Types.EncodeCompletionItem | vdap/dap.hpp:1214-1224 | What it writes reads back as the same value (round trip) |
| Types.DecodeCompletionItem | vdap/dap.hpp:1226-1236 | Succeeds only when the required member `label` is present |
| Types.EncodeDisassembledInstruction | vdap/dap.hpp:1250-1260 | What it writes reads back as the same value (round trip) |
| Types.DecodeDisassembledInstruction | vdap/dap.hpp:1262-1272 | Succeeds only when the required members `address`, `instruction` are present |

## Left out

- **Text and I/O.** `dump()`, parsing of text, and the example program's output (`dap.cpp`) are not modelled. The model works on JSON values.
- **nlohmann internals.** The library's internal representation and its number conversions are not modelled. Numbers are `std::int64_t` only: `get<std::int64_t>` succeeds on an integer and on nothing else. The library's conversions from floating point, unsigned and boolean values are left out because the codecs never write such values for an integer member.
- **Declarations without codecs.** The declarations of `vdap/dap.hpp` that have no codec (the bare struct and enum declarations before each codec) are represented only by their datatypes.
- **`static_cast`.** `serialize` casts a message to its concrete class. This is modelled as a sum type whose constructors are the classes, with `Dispatch.Consistent` stating when each cast is valid. A cast the discriminants do not justify is undefined behaviour in C++, so `Serialize` requires consistency.
- **Derived classes.** Several classes only derive from a base and share its codec, for example `NextRequest`, `StepOutRequest` and `StepBackRequest` derive from `NextBaseRequest`. Each such group shares the base's datatype and codec; the command stored in the header tells its members apart.
- **Enum decoders.** The decoders of the large enumerations are written as a dispatch on the first characters of the string, followed by a short chain of comparisons. The outcome is the same as the source's single chain of comparisons. `Envelope.CommandTypeDecodeStrict` and `Envelope.EventTypeDecodeStrict` prove that they accept exactly the strings of the table.
- **Legacy decoders.** The earlier header's decoders are modelled by the same functions as the vdap decoders in `Types`. The `Legacy.Read…` methods follow the earlier header's steps and are proved to return what those functions return.
- **Opaque payloads.** Values the source keeps as a `nlohmann::json` (e.g. `adapterData`, `__restart`, launch and attach `arguments`) stay uninterpreted JSON values.
- **Source quirks kept as written.** The gaps in the `CommandType` table, the `"progresSend"` spelling and the repeated `progressId` test in `CancelRequest`'s encoder are each stated by a lemma.
