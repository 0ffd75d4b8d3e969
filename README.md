# fastmcp-ai-agent-bridge (pydantic-ai side), modelled in Dafny

This project models the core of the bridge that lets a pydantic-ai agent use the
tools of a FastMCP host, and proves properties of that model.

- `toolset.dfy` (module `Toolset`) models `FastMCPToolset` and its helpers:
  - `MapToolResult` is the content-block translator. It is a closed case analysis over
    text, image, audio, embedded text resource, embedded blob resource and every other
    block class.
  - `MapToolResults` maps the translator over a list, in order.
  - `CatalogToMap`/`GetTools` enumerate the host's tools. `GetTool` fetches one tool by
    key; transformations are not part of this model.
  - `CallTool` is `call_tool`. `call_tool_direct` runs the same statements without the
    run context, so one function models both.
  - The host is a value: an ordered catalog of tools. Each tool has a key, a name, a
    description, a parameter schema and a `run` function from arguments to an outcome.
    The outcome is a result, a `ToolError`, or another exception. The host keeps its
    tools in a dict keyed by `key`, so a well-formed catalog lists each key once
    (`UniqueKeys`). `GetTool` promises the conversion of that one tool; on a catalog
    that repeats a key, it takes the first. `get_tools` lists tools by name and
    `get_tool` looks them up by key. A catalog whose tools are registered under their
    own unique names (`PlainCatalog`) is enough for every listed name to resolve to
    its listed entry (`EnumeratedNamesResolve`). Without it, a listed name may fail to
    resolve (`ListedNameNeedNotResolve`).
- `span_logging.dfy` (module `SpanLogging`) models the console formatting of trace
  spans:
  - `GetToolNamesFromSpan` and `GetPickedToolsFromSpan` extract tool names.
  - `FormatSpan` renders a span as one line.
  - A span is its name and a map of attributes. The rendered start time is passed in as
    an opaque string.
- Supporting modules:
  - `PyJson` holds decoded JSON values, `dict.get` and Python truthiness.
  - `PyText` holds Python's `str`/`repr` of those values.
  - `Base64` implements the standard alphabet of section 4 of RFC 4648, with both round
    trips proved.
  - `Wrappers` holds `Option` and `Result`.

JSON decoding (`pydantic_core.from_json`, `json.loads`) is a parameter of type
`string -> Option<Json>`; `None` stands for the decoder's exception. Every Python
exception the code can raise becomes a `Failure` (or `Raised`) value:
- An exception of a tool other than `ToolError` is a `HostException`, its class name
  and its message. `CallTool` passes it on unchanged inside `HostFailure`.
- `InvalidBase64` stands for both exceptions `b64decode` can raise: `binascii.Error`,
  and `ValueError` for a str holding non-ASCII characters.
- The other errors each stand for one Python class (`ValueError` for an unknown
  block, the host's not-found error, and `JSONDecodeError`, `AttributeError`,
  `TypeError`, `KeyError` and `IndexError` in the span extraction).

The type alias `FastMCPToolResults = list[FastMCPToolResult] | FastMCPToolResult`
(`toolset.py:32`) admits a single value. Still, `_map_fastmcp_tool_results` always
returns a list (`toolset.py:105-106`), and the model follows that code. `CallToolCompleted`
proves a call returns a list of the same length, also for one block.

Some behaviours of the code are kept as they are:
- An empty `events` list raises `IndexError`.
- Malformed JSON in a str `model_request_parameters` or `events` attribute raises
  `JSONDecodeError`, so `format_span` raises on a chat span whose `events` do not
  decode (`MalformedJsonRaises`).
- A tool call whose `function` is present but not a dict raises `AttributeError`; only
  a missing `function` or `name` gives `"<unknown>"`.
- `get_tool_names_from_span` returns whatever JSON value each `name` holds, so names
  are `Json` values, not strings.

## Model

| member | source | states |
|---|---|---|
| Toolset.MapToolResult | fastmcp-ai-agent-bridge-pydantic-ai/src/fastmcp_ai_agent_bridge/pydantic_ai/toolset.py:109-137 | Fails exactly on a block of an unknown type or a binary block whose payload does not decode. A binary value comes exactly from an image, audio or blob block. Decoded JSON comes only from a text block, and only when it is a dict or a list. |
| Toolset.DecodeBinary | fastmcp-ai-agent-bridge-pydantic-ai/src/fastmcp_ai_agent_bridge/pydantic_ai/toolset.py:120 | Succeeds exactly when the payload decodes. Its bytes then encode back to the payload and carry the given media type. Otherwise the error is invalid base64 for that payload. |
| Toolset.TextBlockTranslation | fastmcp-ai-agent-bridge-pydantic-ai/src/fastmcp_ai_agent_bridge/pydantic_ai/toolset.py:110-117 | A text block never fails. It yields the decoded value exactly when the text starts with `[` or `{` and decodes to a dict or list. Otherwise it yields the text unchanged, including text that fails to decode. |
| Toolset.TextResourceVerbatim | fastmcp-ai-agent-bridge-pydantic-ai/src/fastmcp_ai_agent_bridge/pydantic_ai/toolset.py:125-128 | An embedded text resource yields its text unchanged, with no JSON sniffing. |
| Toolset.BinaryBlockTranslation | fastmcp-ai-agent-bridge-pydantic-ai/src/fastmcp_ai_agent_bridge/pydantic_ai/toolset.py:119-134 | For image, audio and blob blocks: on success the bytes re-encode to the payload and the media type is the declared one (the blob default when none is declared); on failure the error is invalid base64 for that payload. |
| Toolset.ImageRoundTrip | fastmcp-ai-agent-bridge-pydantic-ai/src/fastmcp_ai_agent_bridge/pydantic_ai/toolset.py:119-120 | An image block carrying the base64 encoding of any bytes yields exactly those bytes with the block's mimeType. |
| Toolset.AudioRoundTrip | fastmcp-ai-agent-bridge-pydantic-ai/src/fastmcp_ai_agent_bridge/pydantic_ai/toolset.py:122-123 | The same for audio blocks. |
| Toolset.BlobRoundTrip | fastmcp-ai-agent-bridge-pydantic-ai/src/fastmcp_ai_agent_bridge/pydantic_ai/toolset.py:130-134 | A blob resource carrying the encoding of any bytes yields those bytes, with its mimeType or the default media type. |
| Toolset.BlobMediaType | fastmcp-ai-agent-bridge-pydantic-ai/src/fastmcp_ai_agent_bridge/pydantic_ai/toolset.py:133 | The media type is never empty. It is the declared mimeType when that is present and non-empty, else "application/octet-stream". |
| Toolset.UnknownBlockFails | fastmcp-ai-agent-bridge-pydantic-ai/src/fastmcp_ai_agent_bridge/pydantic_ai/toolset.py:136-137 | An unknown block fails with a message that names its type. A list containing one fails as a whole, so the block is never dropped. |
| Toolset.MapToolResults | fastmcp-ai-agent-bridge-pydantic-ai/src/fastmcp_ai_agent_bridge/pydantic_ai/toolset.py:105-106 | Succeeds iff every block translates. It then gives a list of exactly N values, the i-th the translation of the i-th block. Otherwise the error is that of the first failing block. |
| Toolset.TwoTextBlocksExample | fastmcp-ai-agent-bridge-pydantic-ai/src/fastmcp_ai_agent_bridge/pydantic_ai/toolset.py:105-117 | A JSON-object text followed by plain text maps to [the decoded object, the plain text]. |
| Toolset.ImageExample | fastmcp-ai-agent-bridge-pydantic-ai/src/fastmcp_ai_agent_bridge/pydantic_ai/toolset.py:119-120 | The image payload "Zm9v" of type image/png yields the bytes of "foo" with media type image/png. |
| Toolset.NewToolset | fastmcp-ai-agent-bridge-pydantic-ai/src/fastmcp_ai_agent_bridge/pydantic_ai/toolset.py:35-38 | A toolset built from a host alone has the retry budget 2. |
| Toolset.ConvertTool | fastmcp-ai-agent-bridge-pydantic-ai/src/fastmcp_ai_agent_bridge/pydantic_ai/toolset.py:90-102 | The definition handed to the agent keeps the host tool's name, description and parameter schema unchanged, and carries the retry budget given. |
| Toolset.CatalogToMap | fastmcp-ai-agent-bridge-pydantic-ai/src/fastmcp_ai_agent_bridge/pydantic_ai/toolset.py:41-47 | The map's keys are exactly the catalog's tool names. Each entry is the conversion of the last tool of that name (later entries of a dict comprehension win). |
| Toolset.GetTools | fastmcp-ai-agent-bridge-pydantic-ai/src/fastmcp_ai_agent_bridge/pydantic_ai/toolset.py:41-47 | The keys are exactly the host's tool names. Each entry is named by its key, copies the description and schema of the last tool of that name, and has max_retries equal to the toolset's tool_retries. |
| Toolset.FindTool | fastmcp-ai-agent-bridge-pydantic-ai/src/fastmcp_ai_agent_bridge/pydantic_ai/toolset.py:65 | Finds a tool registered under the key, and reports none exactly when no tool has that key. |
| Toolset.GetTool | fastmcp-ai-agent-bridge-pydantic-ai/src/fastmcp_ai_agent_bridge/pydantic_ai/toolset.py:49-55 | Fails with not-found exactly when no tool has the key. Otherwise it returns the conversion of a tool registered under the key; on a host whose keys are unique, that is the only such tool. |
| Toolset.EnumeratedNamesResolve | fastmcp-ai-agent-bridge-pydantic-ai/src/fastmcp_ai_agent_bridge/pydantic_ai/toolset.py:49-55 | On a host whose tools are registered under their own unique names, every enumerated name resolves through `get_tool` to the very entry `get_tools` listed. |
| Toolset.ListedNameNeedNotResolve | fastmcp-ai-agent-bridge-pydantic-ai/src/fastmcp_ai_agent_bridge/pydantic_ai/toolset.py:41-55 | A tool registered under a key other than its name is listed by `get_tools` under its name, yet `get_tool` with that name raises the not-found error. |
| Toolset.CallTool | fastmcp-ai-agent-bridge-pydantic-ai/src/fastmcp_ai_agent_bridge/pydantic_ai/toolset.py:63-78 | A missing tool raises not-found. A ToolError becomes a retry signal with the same message, and nothing else does. Any other exception of the tool propagates unchanged, with its class name and message. |
| Toolset.HostErrorExample | fastmcp-ai-agent-bridge-pydantic-ai/src/fastmcp_ai_agent_bridge/pydantic_ai/toolset.py:65-69 | A tool raising `RuntimeError("boom")` makes the call raise `RuntimeError("boom")`. |
| Toolset.CallToolCompleted | fastmcp-ai-agent-bridge-pydantic-ai/src/fastmcp_ai_agent_bridge/pydantic_ai/toolset.py:70 | A non-empty structured dict is returned as it is. Otherwise the content comes back as a list of the same length and order, or the first translation error propagates. |
| Toolset.ToolErrorExample | fastmcp-ai-agent-bridge-pydantic-ai/src/fastmcp_ai_agent_bridge/pydantic_ai/toolset.py:74-77 | A tool raising the tool error "file not found" makes the call a retry signal with message "file not found". |
| Base64.DecodeEncode | fastmcp-ai-agent-bridge-pydantic-ai/src/fastmcp_ai_agent_bridge/pydantic_ai/toolset.py:120 | Decoding the encoding of any byte string gives it back. |
| Base64.EncodeDecode | fastmcp-ai-agent-bridge-pydantic-ai/src/fastmcp_ai_agent_bridge/pydantic_ai/toolset.py:132 | Whatever decodes re-encodes to exactly the same payload. |
| Base64.Decode | fastmcp-ai-agent-bridge-pydantic-ai/src/fastmcp_ai_agent_bridge/pydantic_ai/toolset.py:120 | Whatever decodes is a whole number of four-character quanta: four characters for every three bytes or part of three. |
| SpanLogging.GetToolNamesFromSpan | fastmcp-ai-agent-bridge-pydantic-ai/src/fastmcp_ai_agent_bridge/pydantic_ai/logging.py:11-26 | Raises only after a str `model_request_parameters` has been read. Every non-empty answer comes from a decoded `function_tools` list: one name per tool, each that tool's name. |
| SpanLogging.NameOf | fastmcp-ai-agent-bridge-pydantic-ai/src/fastmcp_ai_agent_bridge/pydantic_ai/logging.py:26 | `tool["name"]` succeeds exactly on a dict with a "name" field and returns that field's value. A KeyError when the field is missing, a TypeError when the tool is not a dict. |
| SpanLogging.ToolNamesEmpty | fastmcp-ai-agent-bridge-pydantic-ai/src/fastmcp_ai_agent_bridge/pydantic_ai/logging.py:11-24 | The result is [] when the attributes are empty, when model_request_parameters is missing, not a str or empty, or when function_tools is missing or falsy. |
| SpanLogging.ToolNames | fastmcp-ai-agent-bridge-pydantic-ai/src/fastmcp_ai_agent_bridge/pydantic_ai/logging.py:26 | Succeeds iff every tool has a name. The list then holds one name per tool, in input order. |
| SpanLogging.ToolNamesListed | fastmcp-ai-agent-bridge-pydantic-ai/src/fastmcp_ai_agent_bridge/pydantic_ai/logging.py:21-26 | With a non-empty function_tools list, the result is one name per tool in order; a tool that is not a dict or has no name raises. |
| SpanLogging.GetPickedToolsFromSpan | fastmcp-ai-agent-bridge-pydantic-ai/src/fastmcp_ai_agent_bridge/pydantic_ai/logging.py:29-59 | Raises only after a str `events` has been read. Every non-empty answer is the filtered comprehension over the `tool_calls` list of the message of the last event. |
| SpanLogging.LastEvent | fastmcp-ai-agent-bridge-pydantic-ai/src/fastmcp_ai_agent_bridge/pydantic_ai/logging.py:41 | `events[-1]` of a list is its last element, and an IndexError exactly when the list is empty. Only a list or a str has a last element. |
| SpanLogging.PickedName | fastmcp-ai-agent-bridge-pydantic-ai/src/fastmcp_ai_agent_bridge/pydantic_ai/logging.py:50-58 | Only AttributeError can be raised, and always for a call that is not a dict. A name is picked only from a call typed "function"; a missing function gives "<unknown>". |
| SpanLogging.PickedToolsEmpty | fastmcp-ai-agent-bridge-pydantic-ai/src/fastmcp_ai_agent_bridge/pydantic_ai/logging.py:30-37 | The result is [] when the attributes are empty or `events` is missing, falsy or not a str. |
| SpanLogging.PickedToolsNoMessage | fastmcp-ai-agent-bridge-pydantic-ai/src/fastmcp_ai_agent_bridge/pydantic_ai/logging.py:43-44 | The result is [] when the last event has no truthy message. |
| SpanLogging.PickedToolsNoCalls | fastmcp-ai-agent-bridge-pydantic-ai/src/fastmcp_ai_agent_bridge/pydantic_ai/logging.py:46-47 | The result is [] when that message has no truthy `tool_calls`. |
| SpanLogging.PickedToolsListed | fastmcp-ai-agent-bridge-pydantic-ai/src/fastmcp_ai_agent_bridge/pydantic_ai/logging.py:39-59 | With a non-empty `tool_calls` list in the message of the last event, the result is the filtered comprehension over that list. |
| SpanLogging.MalformedJsonRaises | fastmcp-ai-agent-bridge-pydantic-ai/src/fastmcp_ai_agent_bridge/pydantic_ai/logging.py:21-39 | A str `model_request_parameters` or `events` that does not decode raises JSONDecodeError, and a chat span with such `events` fails to format with it. |
| SpanLogging.PickedToolsNoEvents | fastmcp-ai-agent-bridge-pydantic-ai/src/fastmcp_ai_agent_bridge/pydantic_ai/logging.py:41 | An empty events list raises IndexError. |
| SpanLogging.FunctionCallNames | fastmcp-ai-agent-bridge-pydantic-ai/src/fastmcp_ai_agent_bridge/pydantic_ai/logging.py:49-59 | Succeeds iff every call can be read. The result is never longer than tool_calls. |
| SpanLogging.FunctionCallNamesAppend | fastmcp-ai-agent-bridge-pydantic-ai/src/fastmcp_ai_agent_bridge/pydantic_ai/logging.py:49-59 | Order is preserved: the names picked from a + b are those from a followed by those from b. |
| SpanLogging.FunctionCallNamesSingle | fastmcp-ai-agent-bridge-pydantic-ai/src/fastmcp_ai_agent_bridge/pydantic_ai/logging.py:50-58 | A non-function call contributes nothing and a non-dict call raises. A function call contributes its function's name, or "<unknown>" when the function or the name is missing; a function that is not a dict raises AttributeError. |
| SpanLogging.FunctionCallNamesCount | fastmcp-ai-agent-bridge-pydantic-ai/src/fastmcp_ai_agent_bridge/pydantic_ai/logging.py:57-58 | Exactly one name per call typed "function", hence at most one per call. |
| SpanLogging.Truncate | fastmcp-ai-agent-bridge-pydantic-ai/src/fastmcp_ai_agent_bridge/pydantic_ai/logging.py:86 | `s[:200]` is a prefix of s of at most 200 characters: all of s when it is that short, exactly 200 otherwise. |
| SpanLogging.AttrStr | fastmcp-ai-agent-bridge-pydantic-ai/src/fastmcp_ai_agent_bridge/pydantic_ai/logging.py:81-84 | `str(attributes.get(key))` is "None" for a missing key, a str as it is, True/False for a bool, `str(i)` (`IntStr`) for an int, whose digits read back as the value when it is non-negative, and its own `str()` text for any other value. |
| SpanLogging.SpanMessage | fastmcp-ai-agent-bridge-pydantic-ai/src/fastmcp_ai_agent_bridge/pydantic_ai/logging.py:68-95 | Only a chat span with attributes can fail, and then with the error of picking its tools. A span that is neither a chat nor a tool run is shown by its name. |
| SpanLogging.FormatSpan | fastmcp-ai-agent-bridge-pydantic-ai/src/fastmcp_ai_agent_bridge/pydantic_ai/logging.py:65-97 | Every line starts with "{timestamp} - " and ends with a newline. It fails only where picking the tools of a chat span fails. |
| SpanLogging.FormatSpanDefault | fastmcp-ai-agent-bridge-pydantic-ai/src/fastmcp_ai_agent_bridge/pydantic_ai/logging.py:70-77 | With no attributes, or a name that is neither "running tool" nor starts with "chat ", the line is "{timestamp} - {name}\n". |
| SpanLogging.FormatSpanRunningTool | fastmcp-ai-agent-bridge-pydantic-ai/src/fastmcp_ai_agent_bridge/pydantic_ai/logging.py:80-86 | A "running tool" span shows the tool name and arguments verbatim and a prefix of at most 200 characters of the response. |
| SpanLogging.FormatSpanChat | fastmcp-ai-agent-bridge-pydantic-ai/src/fastmcp_ai_agent_bridge/pydantic_ai/logging.py:88-92 | A "chat " span shows the model and the Python list of picked tools. An exception while picking propagates. |
| PyText.StrRepr | fastmcp-ai-agent-bridge-pydantic-ai/src/fastmcp_ai_agent_bridge/pydantic_ai/logging.py:92 | `repr(s)` is quoted, with `"` only when s holds `'` and no `"`. The text between the quotes is the body of a valid literal in that quote: no unescaped quote or line break, no dangling backslash, only the escapes `\\`, `\'`, `\"`, `\t`, `\n`, `\r` and `\xHH`. It reads back as s. |
| PyText.StrReprQuotes | fastmcp-ai-agent-bridge-pydantic-ai/src/fastmcp_ai_agent_bridge/pydantic_ai/logging.py:92 | `repr` of the text `'"` is `'\'"'`. A body holding an unescaped quote, an unknown escape such as `\a`, or a final backslash is not read back. |
| PyText.Repr | fastmcp-ai-agent-bridge-pydantic-ai/src/fastmcp_ai_agent_bridge/pydantic_ai/logging.py:92 | `repr` of a decoded value: a list is bracketed, a dict braced, None spelled out, a bool True/False, an int as `str(i)` (`IntStr`), and a str quoted around a valid literal body that reads back as it, as for `StrRepr`. |
| PyText.ReprList | fastmcp-ai-agent-bridge-pydantic-ai/src/fastmcp_ai_agent_bridge/pydantic_ai/logging.py:92 | `repr` of a list piece by piece: "[]" when empty, one element bracketed alone, and an element before more followed by ", " and the rest's repr without its "[". |
| PyText.ReprDict | fastmcp-ai-agent-bridge-pydantic-ai/src/fastmcp_ai_agent_bridge/pydantic_ai/logging.py:92 | `repr` of a dict entry by entry: "{}" when empty, one entry braced as `repr(key): repr(value)`, and an entry before more followed by ", " and the rest's repr without its "{". |
| PyText.IntStr | fastmcp-ai-agent-bridge-pydantic-ai/src/fastmcp_ai_agent_bridge/pydantic_ai/logging.py:81-84 | `str(i)` is Python's canonical decimal form: "0" for zero, otherwise digits without a leading zero that read back as the magnitude, after a minus sign when i is negative. |

## Left out

- Async execution, concurrency and cancellation. Every host call is modelled as one pure function application.
- `from_mcp_config`, `add_tool_transformation`, `remove_tool_transformation` and the `transformation.apply` step of `get_tool`. They only delegate to FastMCP's composite-server and transform machinery, which is not part of this model.
- The toolset back-reference and the shared argument validator of each `ToolsetTool`. Both are constants the bridge passes through.
- The JSON grammar of `pydantic_core.from_json` and `json.loads`. Decoding is a parameter. Non-integral JSON numbers are not modelled.
- Duplicate keys in a decoded object: `dict.get` is modelled as the first field with that key. A decoder produces at most one field per key.
- Base64.Decode: accepts only canonical encodings. Python's lax `b64decode` still decodes some input that the model rejects, and for that input `MapToolResult` raises where Python returns bytes:
  - characters outside the alphabet, which Python discards;
  - non-zero pad bits;
  - excess `=`: `"Zm9v="` gives `b"foo"` and `"===="` gives `b""`;
  - data after the first complete padded quantum, which Python ignores: `"Zg==Zm9v"` gives `b"f"` and `"Zm8=Zm9v"` gives `b"fo"`.
- PyText.Repr: characters above U+00FF are treated as printable. Below that, it escapes exactly what Python escapes (the C0 and C1 controls, DEL, no-break space and soft hyphen), whereas Python also escapes non-printable code points above U+00FF.
- Toolset.CatalogToMap/Toolset.GetTools: a Dafny map has no order, whereas the dict `get_tools` returns keeps the order of the host's catalog.
- PyText.IntStr/SpanLogging.AttrStr: Python's `str` of an int with more than 4300 digits raises ValueError; the model always returns the digits.
- The timestamp of `format_span` (float division of `start_time` and `datetime` rendering). It is an opaque string parameter.
- `configure_console_logging`. It only sets up logfire and OpenTelemetry exporters, with side effects and no logic.
- `tool.py` (`AgentTool.from_agent`) is not part of this model. It runs an agent and asks pydantic for a JSON schema.
- Float and sequence span attributes are `AOther`, carrying their Python `str()` text and truthiness as given.
