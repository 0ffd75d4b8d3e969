/**
 * The toolset bridge: it exposes the tools of a FastMCP host to a pydantic-ai
 * agent and translates what a tool returns into pydantic-ai's vocabulary.
 *
 * The host is abstract: an ordered catalog of tools, each with a `run` function
 * from arguments to an outcome. The JSON decoder (`pydantic_core.from_json`) is a
 * parameter. Nothing here is asynchronous; every operation is one pure function.
 */
module Toolset {
  import opened Wrappers
  import opened PyJson
  import Base64

  // ---------------------------------------------------------------------------
  // Content blocks (MCP) and what they translate to (pydantic-ai)
  // ---------------------------------------------------------------------------

  /** The `resource` of an embedded resource block. */
  datatype ResourceContents =
    | TextResourceContents(uri: string, mimeType: Option<string>, text: string)
    | BlobResourceContents(uri: string, mimeType: Option<string>, blob: string)

  /**
   * One unit of a tool's output. OtherContent stands for every block class the
   * translator does not recognise (a resource link, say); `typeName` is what
   * Python prints for `type(part)`.
   */
  datatype ContentBlock =
    | TextContent(text: string)
    | ImageContent(data: string, mimeType: string)
    | AudioContent(data: string, mimeType: string)
    | EmbeddedResource(resource: ResourceContents)
    | OtherContent(typeName: string)

  /** `FastMCPToolResult`: binary content, a decoded dict or list, or a str. */
  datatype ToolResultValue =
    | BinaryContent(data: seq<Base64.byte>, mediaType: string)
    | Structured(json: Json)
    | Text(text: string)

  /**
   * An exception a tool raises that is not a `ToolError`: its Python class, as an
   * opaque name, and its message.
   */
  datatype HostException = HostException(typeName: string, message: string)

  /** The exceptions that leave the bridge unchanged (everything but a tool error). */
  datatype ToolsetError =
    | UnsupportedContent(message: string)   // ValueError raised by the translator
    | InvalidBase64(payload: string)        // binascii.Error, or ValueError for a non-ASCII str, raised by b64decode
    | ToolNotFound(key: string)             // raised by the host's get_tool
    | HostFailure(exc: HostException)       // any other exception raised by a tool's run, as it was raised

  const UnsupportedContentPrefix: string := "Unsupported/Unknown content block type: "
  const DefaultBlobMediaType: string := "application/octet-stream"

  /** `text.startswith(("[", "{"))`. */
  predicate LooksLikeJson(text: string) {
    |text| > 0 && (text[0] == '[' || text[0] == '{')
  }

  predicate IsContainer(j: Json) {
    j.JArr? || j.JObj?
  }

  /** `resource.mimeType or "application/octet-stream"`. */
  function BlobMediaType(mimeType: Option<string>): (r: string)
    ensures r != ""
    ensures mimeType.Some? && mimeType.value != "" ==> r == mimeType.value
    ensures mimeType.None? || mimeType.value == "" ==> r == DefaultBlobMediaType
  {
    if mimeType.Some? && mimeType.value != "" then mimeType.value else DefaultBlobMediaType
  }

  /**
   * `BinaryContent(data=base64.b64decode(payload), media_type=mediaType)`: it
   * succeeds exactly on a payload that decodes, and the bytes it carries encode
   * back to that payload.
   */
  function DecodeBinary(payload: string, mediaType: string): (r: Result<ToolResultValue, ToolsetError>)
    ensures r.Success? <==> Base64.Decode(payload).Some?
    ensures r.Success? ==> r.value.BinaryContent? && r.value.mediaType == mediaType && Base64.Encode(r.value.data) == payload
    ensures r.Failure? ==> r.error == InvalidBase64(payload)
  {
    match Base64.Decode(payload)
    case Some(bytes) =>
      Base64.EncodeDecode(payload);
      Success(BinaryContent(bytes, mediaType))
    case None => Failure(InvalidBase64(payload))
  }

  /**
   * `_map_fastmcp_tool_result`: one content block. It fails only on a block of
   * an unknown type or a binary block whose payload does not decode; binary
   * values come exactly from binary blocks, and decoded JSON only from text
   * blocks, and only when it is a dict or a list.
   */
  function MapToolResult(fromJson: JsonParser, part: ContentBlock): (r: Result<ToolResultValue, ToolsetError>)
    ensures r.Failure? <==> part.OtherContent? || (IsBinaryBlock(part) && Base64.Decode(Payload(part)).None?)
    ensures r.Success? ==> (r.value.BinaryContent? <==> IsBinaryBlock(part))
    ensures r.Success? && r.value.Structured? ==> part.TextContent? && IsContainer(r.value.json)
  {
    match part
    case TextContent(text) =>
      if LooksLikeJson(text) && fromJson(text).Some? && IsContainer(fromJson(text).value)
      then Success(Structured(fromJson(text).value))
      else Success(Text(text))
    case ImageContent(data, mimeType) => DecodeBinary(data, mimeType)
    case AudioContent(data, mimeType) => DecodeBinary(data, mimeType)
    case EmbeddedResource(TextResourceContents(_, _, text)) => Success(Text(text))
    case EmbeddedResource(BlobResourceContents(_, mimeType, blob)) => DecodeBinary(blob, BlobMediaType(mimeType))
    case OtherContent(typeName) => Failure(UnsupportedContent(UnsupportedContentPrefix + typeName))
  }

  /**
   * `_map_fastmcp_tool_results`: the blocks one by one, in order. The first block
   * that fails stops the comprehension and its error is the result; otherwise the
   * result is a list of exactly as many values, even for a single block.
   */
  function MapToolResults(fromJson: JsonParser, parts: seq<ContentBlock>): (r: Result<seq<ToolResultValue>, ToolsetError>)
    ensures r.Success? <==> forall i :: 0 <= i < |parts| ==> MapToolResult(fromJson, parts[i]).Success?
    ensures r.Success? ==> |r.value| == |parts|
    ensures r.Success? ==> forall i :: 0 <= i < |parts| ==> r.value[i] == MapToolResult(fromJson, parts[i]).value
    ensures r.Failure? ==>
      exists i :: 0 <= i < |parts| && MapToolResult(fromJson, parts[i]) == Failure(r.error)
        && forall k :: 0 <= k < i ==> MapToolResult(fromJson, parts[k]).Success?
  {
    if parts == [] then Success([])
    else
      match MapToolResult(fromJson, parts[0])
      case Failure(e) => Failure(e)
      case Success(v) =>
        match MapToolResults(fromJson, parts[1..])
        case Failure(e) =>
          assert forall k :: 1 <= k < |parts| ==> parts[k] == parts[1..][k - 1];
          Failure(e)
        case Success(vs) => Success([v] + vs)
  }

  // ---------------------------------------------------------------------------
  // Properties of the translator
  // ---------------------------------------------------------------------------

  /**
   * A text block never fails. It yields the decoded value exactly when the text
   * starts with `[` or `{` and decodes to a dict or a list; in every other case,
   * malformed JSON included, it yields the text unchanged.
   */
  lemma TextBlockTranslation(fromJson: JsonParser, text: string)
    ensures MapToolResult(fromJson, TextContent(text)).Success?
    ensures var v := MapToolResult(fromJson, TextContent(text)).value;
      (v.Structured? <==> LooksLikeJson(text) && fromJson(text).Some? && IsContainer(fromJson(text).value))
      && (v.Structured? ==> v.json == fromJson(text).value)
      && (!v.Structured? ==> v == Text(text))
  {
  }

  /** An embedded text resource is passed through as it is, without JSON sniffing. */
  lemma TextResourceVerbatim(fromJson: JsonParser, uri: string, mimeType: Option<string>, text: string)
    ensures MapToolResult(fromJson, EmbeddedResource(TextResourceContents(uri, mimeType, text))) == Success(Text(text))
  {
  }

  predicate IsBinaryBlock(part: ContentBlock) {
    part.ImageContent? || part.AudioContent? || (part.EmbeddedResource? && part.resource.BlobResourceContents?)
  }

  function Payload(part: ContentBlock): string
    requires IsBinaryBlock(part)
  {
    if part.EmbeddedResource? then part.resource.blob else part.data
  }

  function DeclaredMediaType(part: ContentBlock): string
    requires IsBinaryBlock(part)
  {
    if part.EmbeddedResource? then BlobMediaType(part.resource.mimeType) else part.mimeType
  }

  /**
   * Image, audio and blob blocks: the translation succeeds exactly on canonical
   * base64 payloads, its bytes re-encode to the payload, and its media type is
   * the declared one (for a blob, the default when none is declared).
   */
  lemma BinaryBlockTranslation(fromJson: JsonParser, part: ContentBlock)
    requires IsBinaryBlock(part)
    ensures var r := MapToolResult(fromJson, part);
      && (r.Success? ==> r.value.BinaryContent? && Base64.Encode(r.value.data) == Payload(part)
                          && r.value.mediaType == DeclaredMediaType(part))
      && (r.Failure? ==> r.error == InvalidBase64(Payload(part)))
  {
    var d := Base64.Decode(Payload(part));
    if d.Some? {
      Base64.EncodeDecode(Payload(part));
    }
  }

  /** Encoding bytes and handing them to the translator in an image block gives the bytes back. */
  lemma ImageRoundTrip(fromJson: JsonParser, bytes: seq<Base64.byte>, mimeType: string)
    ensures MapToolResult(fromJson, ImageContent(Base64.Encode(bytes), mimeType)) == Success(BinaryContent(bytes, mimeType))
  {
    Base64.DecodeEncode(bytes);
  }

  /** The same for audio blocks. */
  lemma AudioRoundTrip(fromJson: JsonParser, bytes: seq<Base64.byte>, mimeType: string)
    ensures MapToolResult(fromJson, AudioContent(Base64.Encode(bytes), mimeType)) == Success(BinaryContent(bytes, mimeType))
  {
    Base64.DecodeEncode(bytes);
  }

  /** And for blob resources, whose media type falls back to the generic binary type. */
  lemma BlobRoundTrip(fromJson: JsonParser, uri: string, mimeType: Option<string>, bytes: seq<Base64.byte>)
    ensures MapToolResult(fromJson, EmbeddedResource(BlobResourceContents(uri, mimeType, Base64.Encode(bytes))))
         == Success(BinaryContent(bytes, BlobMediaType(mimeType)))
  {
    Base64.DecodeEncode(bytes);
  }

  /** An unknown block is an error whose message ends with its type; it is never dropped. */
  lemma UnknownBlockFails(fromJson: JsonParser, parts: seq<ContentBlock>, i: nat)
    requires i < |parts| && parts[i].OtherContent?
    ensures MapToolResult(fromJson, parts[i]) == Failure(UnsupportedContent(UnsupportedContentPrefix + parts[i].typeName))
    ensures MapToolResults(fromJson, parts).Failure?
  {
  }

  /** Two text blocks, the first holding a JSON object: the object is decoded, the plain text kept. */
  lemma TwoTextBlocksExample(fromJson: JsonParser)
    requires fromJson("{\"a\":1}") == Some(JObj([("a", JInt(1))]))
    ensures MapToolResults(fromJson, [TextContent("{\"a\":1}"), TextContent("plain")])
         == Success([Structured(JObj([("a", JInt(1))])), Text("plain")])
  {
    var parts := [TextContent("{\"a\":1}"), TextContent("plain")];
    assert LooksLikeJson("{\"a\":1}") && !LooksLikeJson("plain");
    assert MapToolResult(fromJson, parts[0]) == Success(Structured(JObj([("a", JInt(1))])));
    assert MapToolResult(fromJson, parts[1]) == Success(Text("plain"));
    var r := MapToolResults(fromJson, parts);
    assert |r.value| == 2 && r.value[0] == Structured(JObj([("a", JInt(1))])) && r.value[1] == Text("plain");
    assert r.value == [r.value[0], r.value[1]];
  }

  /** The image block "Zm9v" of type image/png decodes to the three bytes of "foo". */
  lemma ImageExample(fromJson: JsonParser)
    ensures MapToolResult(fromJson, ImageContent("Zm9v", "image/png")) == Success(BinaryContent([102, 111, 111], "image/png"))
  {
    assert Base64.Encode([102, 111, 111]) == "Zm9v";
    ImageRoundTrip(fromJson, [102, 111, 111], "image/png");
  }

  // ---------------------------------------------------------------------------
  // The host and the toolset
  // ---------------------------------------------------------------------------

  /** `tool_args`, a dict of JSON-compatible values. */
  type Arguments = JsonObject

  /** The `ToolResult` a tool's `run` returns. */
  datatype ToolResult = ToolResult(content: seq<ContentBlock>, structuredContent: Option<JsonObject>)

  /** What awaiting `run(arguments)` gives: a result, a `ToolError`, or another exception. */
  datatype RunOutcome =
    | Completed(result: ToolResult)
    | RaisedToolError(message: string)
    | RaisedOther(exc: HostException)

  /** A tool of the host: registry key, name, description, parameter schema and behaviour. */
  datatype FastMCPTool = FastMCPTool(
    key: string,
    name: string,
    description: Option<string>,
    parameters: JsonObject,
    run: Arguments -> RunOutcome)

  /** The host, reduced to its tool catalog in the order `get_tools()` lists it. */
  datatype FastMCP = FastMCP(tools: seq<FastMCPTool>)

  /** pydantic-ai's `ToolDefinition`, with the fields the bridge sets. */
  datatype ToolDefinition = ToolDefinition(name: string, description: Option<string>, parametersJsonSchema: JsonObject)

  /** pydantic-ai's `ToolsetTool` (its toolset back-reference and shared validator are constants and left out). */
  datatype ToolsetTool = ToolsetTool(toolDef: ToolDefinition, maxRetries: int)

  const DefaultToolRetries: int := 2

  /** `FastMCPToolset`: the host and the retry budget handed to every tool. */
  datatype FastMCPToolset = FastMCPToolset(fastmcp: FastMCP, toolRetries: int)

  /** `FastMCPToolset(fastmcp=host)`: the retry budget takes its default. */
  function NewToolset(host: FastMCP): (ts: FastMCPToolset)
    ensures ts.fastmcp == host && ts.toolRetries == DefaultToolRetries
  {
    FastMCPToolset(host, DefaultToolRetries)
  }

  /**
   * `convert_fastmcp_tool_to_toolset_tool`: the definition handed to the agent
   * keeps the host tool's name, description and parameter schema unchanged.
   */
  function ConvertTool(tool: FastMCPTool, retries: int): (t: ToolsetTool)
    ensures t.toolDef.name == tool.name && t.toolDef.description == tool.description
    ensures t.toolDef.parametersJsonSchema == tool.parameters && t.maxRetries == retries
  {
    ToolsetTool(ToolDefinition(tool.name, tool.description, tool.parameters), retries)
  }

  /** `tools[i]` is the last tool of the catalog called `name`. */
  ghost predicate LastNamed(tools: seq<FastMCPTool>, i: int, name: string) {
    0 <= i < |tools| && tools[i].name == name && forall k :: i < k < |tools| ==> tools[k].name != name
  }

  /** The names of the catalog's tools. */
  ghost function Names(tools: seq<FastMCPTool>): set<string>
    decreases |tools|
  {
    if tools == [] then {} else Names(tools[..|tools| - 1]) + {tools[|tools| - 1].name}
  }

  lemma {:induction false} NamesAreToolNames(tools: seq<FastMCPTool>)
    ensures Names(tools) == set i | 0 <= i < |tools| :: tools[i].name
    decreases |tools|
  {
    if tools != [] {
      var prefix := tools[..|tools| - 1];
      NamesAreToolNames(prefix);
      assert forall i :: 0 <= i < |prefix| ==> prefix[i] == tools[i];
    }
  }

  /**
   * The dict comprehension of `get_tools`: keyed by each tool's name, in catalog
   * order, so that a later tool of the same name replaces an earlier one.
   */
  function CatalogToMap(tools: seq<FastMCPTool>, retries: int): (r: map<string, ToolsetTool>)
    ensures r.Keys == Names(tools)
    ensures forall name :: name in r ==>
      exists i :: LastNamed(tools, i, name) && r[name] == ConvertTool(tools[i], retries)
    decreases |tools|
  {
    if tools == [] then map[]
    else
      var prefix, last := tools[..|tools| - 1], tools[|tools| - 1];
      var earlier := CatalogToMap(prefix, retries);
      var r := earlier[last.name := ConvertTool(last, retries)];
      CatalogStep(tools, retries, earlier, r);
      r
  }

  /** Adding the catalog's last tool to the map built from the tools before it. */
  lemma CatalogStep(tools: seq<FastMCPTool>, retries: int, earlier: map<string, ToolsetTool>, r: map<string, ToolsetTool>)
    requires |tools| > 0
    requires forall name :: name in earlier ==>
      exists i :: LastNamed(tools[..|tools| - 1], i, name) && earlier[name] == ConvertTool(tools[i], retries)
    requires r == earlier[tools[|tools| - 1].name := ConvertTool(tools[|tools| - 1], retries)]
    ensures forall name :: name in r ==> exists i :: LastNamed(tools, i, name) && r[name] == ConvertTool(tools[i], retries)
  {
    var last := tools[|tools| - 1];
    forall name | name in r
      ensures exists i :: LastNamed(tools, i, name) && r[name] == ConvertTool(tools[i], retries)
    {
      if name == last.name {
        assert LastNamed(tools, |tools| - 1, name);
      } else {
        var i :| LastNamed(tools[..|tools| - 1], i, name) && earlier[name] == ConvertTool(tools[i], retries);
        assert LastNamed(tools, i, name);
      }
    }
  }

  /**
   * `FastMCPToolset.get_tools`: its keys are exactly the host's tool names, and
   * each entry copies name, description and schema of a tool of that name (the
   * last one) and carries the toolset's retry budget.
   */
  function GetTools(ts: FastMCPToolset): (r: map<string, ToolsetTool>)
    ensures r.Keys == set i | 0 <= i < |ts.fastmcp.tools| :: ts.fastmcp.tools[i].name
    ensures forall name :: name in r ==>
      && r[name].toolDef.name == name
      && r[name].maxRetries == ts.toolRetries
      && exists i :: LastNamed(ts.fastmcp.tools, i, name)
           && r[name].toolDef.description == ts.fastmcp.tools[i].description
           && r[name].toolDef.parametersJsonSchema == ts.fastmcp.tools[i].parameters
  {
    NamesAreToolNames(ts.fastmcp.tools);
    CatalogToMap(ts.fastmcp.tools, ts.toolRetries)
  }

  /** `host.get_tool(key)`: the position of the tool registered under `key`, if any. */
  function FindTool(tools: seq<FastMCPTool>, key: string): (r: Option<nat>)
    ensures r.None? <==> forall i :: 0 <= i < |tools| ==> tools[i].key != key
    ensures r.Some? ==> r.value < |tools| && tools[r.value].key == key
  {
    if tools == [] then None
    else if tools[0].key == key then Some(0)
    else match FindTool(tools[1..], key)
      case None => None
      case Some(i) => Some(i + 1)
  }

  /**
   * The host's registry is a dict keyed by `key`, so a well-formed catalog never
   * lists two tools under the same key.
   */
  ghost predicate UniqueKeys(tools: seq<FastMCPTool>) {
    forall i, j :: 0 <= i < j < |tools| ==> tools[i].key != tools[j].key
  }

  /**
   * `FastMCPToolset.get_tool` without a transformation: the conversion of a tool
   * registered under `key` (on a well-formed host, the only one), or the host's
   * not-found error when there is none.
   */
  function GetTool(ts: FastMCPToolset, key: string): (r: Result<ToolsetTool, ToolsetError>)
    ensures r.Failure? <==> forall i :: 0 <= i < |ts.fastmcp.tools| ==> ts.fastmcp.tools[i].key != key
    ensures r.Failure? ==> r.error == ToolNotFound(key)
    ensures r.Success? ==>
      exists i :: 0 <= i < |ts.fastmcp.tools| && ts.fastmcp.tools[i].key == key && r.value == ConvertTool(ts.fastmcp.tools[i], ts.toolRetries)
    ensures r.Success? && UniqueKeys(ts.fastmcp.tools) ==>
      forall i :: 0 <= i < |ts.fastmcp.tools| && ts.fastmcp.tools[i].key == key ==> r.value == ConvertTool(ts.fastmcp.tools[i], ts.toolRetries)
  {
    match FindTool(ts.fastmcp.tools, key)
    case None => Failure(ToolNotFound(key))
    case Some(i) => Success(ConvertTool(ts.fastmcp.tools[i], ts.toolRetries))
  }

  /** A plain host: keys are unique and every tool is registered under its own name. */
  ghost predicate PlainCatalog(tools: seq<FastMCPTool>) {
    UniqueKeys(tools) && forall i :: 0 <= i < |tools| ==> tools[i].key == tools[i].name
  }

  /** On a plain host every enumerated name resolves, by `get_tool`, to the very entry enumerated. */
  lemma EnumeratedNamesResolve(ts: FastMCPToolset, name: string)
    requires PlainCatalog(ts.fastmcp.tools)
    requires name in GetTools(ts)
    ensures GetTool(ts, name) == Success(GetTools(ts)[name])
  {
    var tools := ts.fastmcp.tools;
    var i :| LastNamed(tools, i, name) && CatalogToMap(tools, ts.toolRetries)[name] == ConvertTool(tools[i], ts.toolRetries);
    assert tools[i].key == name;
  }

  /**
   * Without a plain host the two lookups part: a tool registered under another
   * key is listed by `get_tools` under its name, yet `get_tool` with that name fails.
   */
  lemma ListedNameNeedNotResolve(tool: FastMCPTool, retries: int)
    requires tool.key != tool.name
    ensures tool.name in GetTools(FastMCPToolset(FastMCP([tool]), retries))
    ensures GetTool(FastMCPToolset(FastMCP([tool]), retries), tool.name) == Failure(ToolNotFound(tool.name))
  {
    assert [tool][0].name == tool.name;
  }

  // ---------------------------------------------------------------------------
  // Calling a tool
  // ---------------------------------------------------------------------------

  /** What a call returns to the agent: the structured dict, or the translated content list. */
  datatype CallValue = StructuredContent(fields: JsonObject) | ContentList(values: seq<ToolResultValue>)

  /** A call returns a value, raises `ModelRetry(message)`, or raises another exception. */
  datatype CallOutcome =
    | Returned(value: CallValue)
    | ModelRetry(message: string)
    | Raised(error: ToolsetError)

  /** `structured_content or <mapped content>`: a dict is used only when it is non-empty. */
  predicate HasStructuredContent(result: ToolResult) {
    result.structuredContent.Some? && |result.structuredContent.value| > 0
  }

  /**
   * `call_tool` and `call_tool_direct`, which run the same statements. Their
   * error policy: a missing tool raises the host's not-found error, a tool error
   * becomes a retry signal with the same message and nothing else does, and any
   * other exception of the tool propagates as it was raised, type and message.
   */
  function CallTool(ts: FastMCPToolset, fromJson: JsonParser, name: string, toolArgs: Arguments): (out: CallOutcome)
    ensures RunAt(ts, name, toolArgs).None? ==> out == Raised(ToolNotFound(name))
    ensures out.ModelRetry? <==> RunAt(ts, name, toolArgs).Some? && RunAt(ts, name, toolArgs).value.RaisedToolError?
    ensures out.ModelRetry? ==> out.message == RunAt(ts, name, toolArgs).value.message
    ensures forall e :: RunAt(ts, name, toolArgs) == Some(RaisedOther(e)) ==> out == Raised(HostFailure(e))
  {
    match RunAt(ts, name, toolArgs)
    case None => Raised(ToolNotFound(name))
    case Some(RaisedToolError(message)) => ModelRetry(message)
    case Some(RaisedOther(e)) => Raised(HostFailure(e))
    case Some(Completed(result)) =>
      if HasStructuredContent(result) then Returned(StructuredContent(result.structuredContent.value))
      else
        match MapToolResults(fromJson, result.content)
        case Success(values) => Returned(ContentList(values))
        case Failure(e) => Raised(e)
  }

  /** The outcome of running the tool registered under `name`, when there is one. */
  function RunAt(ts: FastMCPToolset, name: string, toolArgs: Arguments): Option<RunOutcome> {
    match FindTool(ts.fastmcp.tools, name)
    case None => None
    case Some(i) => Some(ts.fastmcp.tools[i].run(toolArgs))
  }

  /** A tool that reports "file not found" as a tool error makes the call a retry signal with that message. */
  lemma ToolErrorExample(tool: FastMCPTool, fromJson: JsonParser, toolArgs: Arguments)
    requires tool.run(toolArgs) == RaisedToolError("file not found")
    ensures CallTool(NewToolset(FastMCP([tool])), fromJson, tool.key, toolArgs) == ModelRetry("file not found")
  {
  }

  /** A tool that raises a `RuntimeError("boom")` makes the call raise that very exception. */
  lemma HostErrorExample(tool: FastMCPTool, fromJson: JsonParser, toolArgs: Arguments)
    requires tool.run(toolArgs) == RaisedOther(HostException("RuntimeError", "boom"))
    ensures CallTool(NewToolset(FastMCP([tool])), fromJson, tool.key, toolArgs) == Raised(HostFailure(HostException("RuntimeError", "boom")))
  {
  }

  /**
   * A completed call: a non-empty structured dict is returned as it is, and its
   * content is not even translated; otherwise the content blocks are translated
   * into a list of the same length and order, never collapsed to one value, or
   * the first translation error propagates.
   */
  lemma CallToolCompleted(ts: FastMCPToolset, fromJson: JsonParser, name: string, toolArgs: Arguments, result: ToolResult)
    requires RunAt(ts, name, toolArgs) == Some(Completed(result))
    ensures var out := CallTool(ts, fromJson, name, toolArgs);
      && (HasStructuredContent(result) ==> out == Returned(StructuredContent(result.structuredContent.value)))
      && (!HasStructuredContent(result) && MapToolResults(fromJson, result.content).Success? ==>
            out.Returned? && out.value.ContentList? && |out.value.values| == |result.content|
            && forall k :: 0 <= k < |result.content| ==>
                 out.value.values[k] == MapToolResult(fromJson, result.content[k]).value)
      && (!HasStructuredContent(result) && MapToolResults(fromJson, result.content).Failure? ==>
            out == Raised(MapToolResults(fromJson, result.content).error))
  {
  }
}
