/**
 * Console formatting of the OpenTelemetry spans an instrumented agent emits:
 * extraction of the offered and the picked tool names from a span's attributes,
 * and the one-line rendering of a span.
 *
 * The JSON decoder (`json.loads`) is a parameter; the rendered start time of a
 * span is an opaque string handed to FormatSpan.
 */
module SpanLogging {
  import opened Wrappers
  import opened PyJson
  import PyText

  /**
   * An attribute value. OpenTelemetry also allows floats and sequences; those are
   * AOther, which carries what Python's `str()` prints for it and its truthiness.
   */
  datatype AttrValue =
    | AStr(s: string)
    | ABool(b: bool)
    | AInt(i: int)
    | AOther(text: string, truthy: bool)

  /** A finished span: its name and attributes (absent attributes are the empty map). */
  datatype Span = Span(name: string, attributes: map<string, AttrValue>)

  /** The exceptions the extraction can raise on attributes of an unexpected shape. */
  datatype PyError = JSONDecodeError | AttributeError | TypeError | KeyError | IndexError

  predicate AttrTruthy(v: AttrValue) {
    match v
    case AStr(s) => |s| > 0
    case ABool(b) => b
    case AInt(i) => i != 0
    case AOther(_, truthy) => truthy
  }

  /**
   * `str(span.attributes.get(key))`: "None" for a missing attribute, a str as it
   * is, a bool as Python spells it, and an int in decimal that reads back as it.
   */
  function AttrStr(attributes: map<string, AttrValue>, key: string): (r: string)
    ensures key !in attributes ==> r == "None"
    ensures key in attributes && attributes[key].AStr? ==> r == attributes[key].s
    ensures key in attributes && attributes[key].ABool? ==> r == (if attributes[key].b then "True" else "False")
    ensures key in attributes && attributes[key].AInt? && attributes[key].i >= 0 ==>
      (forall k :: 0 <= k < |r| ==> '0' <= r[k] <= '9') && PyText.DigitsValue(r) == attributes[key].i
    ensures key in attributes && attributes[key].AInt? ==> r == PyText.IntStr(attributes[key].i)
    ensures key in attributes && attributes[key].AOther? ==> r == attributes[key].text
  {
    if key !in attributes then "None"
    else match attributes[key]
      case AStr(s) => s
      case ABool(b) => PyText.BoolStr(b)
      case AInt(i) => PyText.IntStr(i)
      case AOther(text, _) => text
  }

  /**
   * The guards both extractions open with: the attributes are non-empty and the
   * attribute `key` is present, truthy and a str. Its text is then decoded.
   */
  predicate HasJsonAttr(span: Span, key: string) {
    |span.attributes| > 0 && key in span.attributes
    && AttrTruthy(span.attributes[key]) && span.attributes[key].AStr?
  }

  // ---------------------------------------------------------------------------
  // get_tool_names_from_span
  // ---------------------------------------------------------------------------

  /**
   * `tool["name"]`: the value of the tool's "name" field; a KeyError when there
   * is none, a TypeError when the tool is not a dict.
   */
  function NameOf(tool: Json): (r: Result<Json, PyError>)
    ensures r.Success? <==> tool.JObj? && exists k :: 0 <= k < |tool.fields| && tool.fields[k].0 == "name"
    ensures r.Success? ==> exists k :: 0 <= k < |tool.fields| && tool.fields[k] == ("name", r.value)
    ensures r.Failure? ==> r.error == (if tool.JObj? then KeyError else TypeError)
  {
    if !tool.JObj? then Failure(TypeError)
    else match Get(tool.fields, "name")
      case None => Failure(KeyError)
      case Some(n) => Success(n)
  }

  /** `[tool["name"] for tool in function_tools]` over a list. */
  function ToolNames(tools: seq<Json>): (r: Result<seq<Json>, PyError>)
    ensures r.Success? <==> forall i :: 0 <= i < |tools| ==> NameOf(tools[i]).Success?
    ensures r.Success? ==> |r.value| == |tools| && forall i :: 0 <= i < |tools| ==> r.value[i] == NameOf(tools[i]).value
  {
    if tools == [] then Success([])
    else
      match NameOf(tools[0])
      case Failure(e) => Failure(e)
      case Success(n) =>
        match ToolNames(tools[1..])
        case Failure(e) =>
          assert forall k :: 1 <= k < |tools| ==> tools[k] == tools[1..][k - 1];
          Failure(e)
        case Success(ns) => Success([n] + ns)
  }

  /**
   * `get_tool_names_from_span`: the names of the function tools offered to the
   * model. It raises only once a str `model_request_parameters` has been read,
   * and every name it returns is that of the tool at the same position of the
   * decoded `function_tools` list.
   */
  function GetToolNamesFromSpan(span: Span, loads: JsonParser): (r: Result<seq<Json>, PyError>)
    ensures r.Failure? ==> HasJsonAttr(span, "model_request_parameters")
    ensures r.Success? && r.value != [] ==>
      HasJsonAttr(span, "model_request_parameters")
      && exists params, tools ::
           && loads(span.attributes["model_request_parameters"].s) == Some(JObj(params))
           && Get(params, "function_tools") == Some(JArr(tools))
           && |r.value| == |tools|
           && forall i :: 0 <= i < |tools| ==> NameOf(tools[i]) == Success(r.value[i])
  {
    if !HasJsonAttr(span, "model_request_parameters") then Success([])
    else
      match loads(span.attributes["model_request_parameters"].s)
      case None => Failure(JSONDecodeError)
      case Some(params) =>
        if !params.JObj? then Failure(AttributeError)
        else
          match Get(params.fields, "function_tools")
          case None => Success([])
          case Some(tools) =>
            if !Truthy(tools) then Success([])
            else if tools.JArr? then ToolNames(tools.items)
            else Failure(TypeError)  // a str, a dict's keys, an int or True: none takes ["name"]
  }

  /**
   * The empty answers of `get_tool_names_from_span`: no attributes, no usable
   * `model_request_parameters`, or no `function_tools` in it.
   */
  lemma ToolNamesEmpty(span: Span, loads: JsonParser)
    ensures |span.attributes| == 0 ==> GetToolNamesFromSpan(span, loads) == Success([])
    ensures "model_request_parameters" !in span.attributes ==> GetToolNamesFromSpan(span, loads) == Success([])
    ensures "model_request_parameters" in span.attributes && !span.attributes["model_request_parameters"].AStr?
      ==> GetToolNamesFromSpan(span, loads) == Success([])
    ensures "model_request_parameters" in span.attributes && span.attributes["model_request_parameters"] == AStr("")
      ==> GetToolNamesFromSpan(span, loads) == Success([])
    ensures forall params ::
      (HasJsonAttr(span, "model_request_parameters")
       && loads(span.attributes["model_request_parameters"].s) == Some(JObj(params))
       && (Get(params, "function_tools").None? || !Truthy(Get(params, "function_tools").value)))
      ==> GetToolNamesFromSpan(span, loads) == Success([])
  {
  }

  /**
   * Otherwise, for a non-empty list of tools, one name per tool in list order;
   * a tool that is not a dict or has no name raises instead.
   */
  lemma ToolNamesListed(span: Span, loads: JsonParser, params: JsonObject, tools: seq<Json>)
    requires HasJsonAttr(span, "model_request_parameters")
    requires loads(span.attributes["model_request_parameters"].s) == Some(JObj(params))
    requires Get(params, "function_tools") == Some(JArr(tools)) && |tools| > 0
    ensures var r := GetToolNamesFromSpan(span, loads);
      && (r.Success? <==> forall i :: 0 <= i < |tools| ==> tools[i].JObj? && Get(tools[i].fields, "name").Some?)
      && (r.Success? ==>
            |r.value| == |tools| && forall i :: 0 <= i < |tools| ==> r.value[i] == Get(tools[i].fields, "name").value)
  {
  }

  // ---------------------------------------------------------------------------
  // get_picked_tools_from_span
  // ---------------------------------------------------------------------------

  /**
   * `deserialized_events[-1]`: the last element of a list, an IndexError for an
   * empty list; the last character of a str; no element of anything else.
   */
  function LastEvent(events: Json): (r: Result<Json, PyError>)
    ensures events.JArr? ==> (r.Failure? <==> events.items == []) && (r.Failure? ==> r.error == IndexError)
    ensures events.JArr? && r.Success? ==> r.value == events.items[|events.items| - 1]
    ensures r.Success? ==> events.JArr? || events.JStr?
  {
    match events
    case JArr(items) => if |items| == 0 then Failure(IndexError) else Success(items[|items| - 1])
    case JStr(s) => if |s| == 0 then Failure(IndexError) else Success(JStr([s[|s| - 1]]))
    case JObj(_) => Failure(KeyError)  // a dict has no key -1
    case _ => Failure(TypeError)
  }

  const UnknownToolName: string := "<unknown>"

  /**
   * What one element of `tool_calls` contributes to the comprehension: nothing
   * unless its type is "function", else the name of its function, "<unknown>"
   * when either the function or its name is missing.
   */
  function PickedName(call: Json): (r: Result<Option<Json>, PyError>)
    ensures r.Failure? ==> r.error == AttributeError
    ensures !call.JObj? ==> r.Failure?
    ensures r.Success? && r.value.Some? ==> Get(call.fields, "type") == Some(JStr("function"))
    ensures r.Success? && r.value.Some? && Get(call.fields, "function").None? ==> r.value.value == JStr(UnknownToolName)
  {
    if !call.JObj? then Failure(AttributeError)
    else if Get(call.fields, "type") != Some(JStr("function")) then Success(None)
    else
      var fn := GetOr(call.fields, "function", JObj([]));
      if !fn.JObj? then Failure(AttributeError)
      else Success(Some(GetOr(fn.fields, "name", JStr(UnknownToolName))))
  }

  /** The filtered comprehension over `tool_calls`, stopping at the first exception. */
  function FunctionCallNames(calls: seq<Json>): (r: Result<seq<Json>, PyError>)
    ensures r.Success? <==> forall i :: 0 <= i < |calls| ==> PickedName(calls[i]).Success?
    ensures r.Success? ==> |r.value| <= |calls|
  {
    if calls == [] then Success([])
    else
      match PickedName(calls[0])
      case Failure(e) => Failure(e)
      case Success(picked) =>
        match FunctionCallNames(calls[1..])
        case Failure(e) =>
          assert forall k :: 1 <= k < |calls| ==> calls[k] == calls[1..][k - 1];
          Failure(e)
        case Success(names) => Success(Prepend(picked, names))
  }

  /** One element's contribution placed before the names picked from the rest. */
  function Prepend(picked: Option<Json>, names: seq<Json>): seq<Json> {
    if picked.Some? then [picked.value] + names else names
  }

  /** One step of the comprehension, when both the head and the rest can be read. */
  lemma FunctionCallNamesStep(calls: seq<Json>)
    requires calls != [] && PickedName(calls[0]).Success? && FunctionCallNames(calls[1..]).Success?
    ensures FunctionCallNames(calls) == Success(Prepend(PickedName(calls[0]).value, FunctionCallNames(calls[1..]).value))
  {
  }

  /**
   * `get_picked_tools_from_span`: the names of the functions the model's last
   * message calls. It raises only once a str `events` has been read, and every
   * non-empty answer is the filtered comprehension over the `tool_calls` list of
   * the message of the last event.
   */
  function GetPickedToolsFromSpan(span: Span, loads: JsonParser): (r: Result<seq<Json>, PyError>)
    ensures r.Failure? ==> HasJsonAttr(span, "events")
    ensures r.Success? && r.value != [] ==>
      HasJsonAttr(span, "events")
      && exists items, event, message, calls ::
           && loads(span.attributes["events"].s) == Some(JArr(items)) && |items| > 0
           && items[|items| - 1] == JObj(event)
           && Get(event, "message") == Some(JObj(message))
           && Get(message, "tool_calls") == Some(JArr(calls))
           && r == FunctionCallNames(calls)
  {
    if !HasJsonAttr(span, "events") then Success([])
    else
      match loads(span.attributes["events"].s)
      case None => Failure(JSONDecodeError)
      case Some(events) =>
        match LastEvent(events)
        case Failure(e) => Failure(e)
        case Success(assistantEvent) =>
          if !assistantEvent.JObj? then Failure(AttributeError)
          else
            match Get(assistantEvent.fields, "message")
            case None => Success([])
            case Some(message) =>
              if !Truthy(message) then Success([])
              else if !message.JObj? then Failure(AttributeError)
              else
                match Get(message.fields, "tool_calls")
                case None => Success([])
                case Some(toolCalls) =>
                  if !Truthy(toolCalls) then Success([])
                  else if toolCalls.JArr? then FunctionCallNames(toolCalls.items)
                  else if toolCalls.JObj? || toolCalls.JStr? then Failure(AttributeError)  // str keys or chars have no .get
                  else Failure(TypeError)  // an int or True is not iterable
  }

  /**
   * The comprehension distributes over concatenation: the names picked from
   * `a + b` are those picked from `a` followed by those picked from `b`.
   */
  lemma {:induction false} FunctionCallNamesAppend(a: seq<Json>, b: seq<Json>)
    requires FunctionCallNames(a).Success? && FunctionCallNames(b).Success?
    ensures FunctionCallNames(a + b) == Success(FunctionCallNames(a).value + FunctionCallNames(b).value)
  {
    if a == [] {
      assert a + b == b;
      assert FunctionCallNames(a).value == [];
      assert [] + FunctionCallNames(b).value == FunctionCallNames(b).value;
    } else {
      FunctionCallNamesAppend(a[1..], b);
      FunctionCallNamesAppendStep(a, b);
    }
  }

  /** The inductive step of FunctionCallNamesAppend: moving the head of `a` out. */
  lemma FunctionCallNamesAppendStep(a: seq<Json>, b: seq<Json>)
    requires a != [] && FunctionCallNames(a).Success? && FunctionCallNames(b).Success?
    requires FunctionCallNames(a[1..] + b) == Success(FunctionCallNames(a[1..]).value + FunctionCallNames(b).value)
    ensures FunctionCallNames(a + b) == Success(FunctionCallNames(a).value + FunctionCallNames(b).value)
  {
    var ab := a + b;
    var picked, rest, after := PickedName(a[0]).value, FunctionCallNames(a[1..]).value, FunctionCallNames(b).value;
    HeadTailOfAppend(a, b);
    FunctionCallNamesStep(ab);
    FunctionCallNamesStep(a);
    PrependAppend(picked, rest, after);
  }

  lemma HeadTailOfAppend<T>(a: seq<T>, b: seq<T>)
    requires a != []
    ensures (a + b)[0] == a[0] && (a + b)[1..] == a[1..] + b
  {
  }

  lemma PrependAppend(picked: Option<Json>, names: seq<Json>, more: seq<Json>)
    ensures Prepend(picked, names + more) == Prepend(picked, names) + more
  {
    if picked.Some? {
      assert [picked.value] + (names + more) == ([picked.value] + names) + more;
    }
  }

  /**
   * Each single call on its own: a call that is not a dict raises; a call whose
   * type is not "function" contributes nothing; a function call contributes its
   * function's name, or "<unknown>" when the function or the name is missing.
   */
  lemma FunctionCallNamesSingle(call: Json)
    ensures !call.JObj? ==> FunctionCallNames([call]) == Failure(AttributeError)
    ensures call.JObj? && Get(call.fields, "type") != Some(JStr("function")) ==> FunctionCallNames([call]) == Success([])
    ensures call.JObj? && Get(call.fields, "type") == Some(JStr("function")) && Get(call.fields, "function").None?
      ==> FunctionCallNames([call]) == Success([JStr(UnknownToolName)])
    ensures forall f ::
      (call.JObj? && Get(call.fields, "type") == Some(JStr("function")) && Get(call.fields, "function") == Some(JObj(f)))
      ==> FunctionCallNames([call]) == Success([Get(f, "name").GetOr(JStr(UnknownToolName))])
    ensures forall f ::
      (call.JObj? && Get(call.fields, "type") == Some(JStr("function")) && Get(call.fields, "function") == Some(f) && !f.JObj?)
      ==> FunctionCallNames([call]) == Failure(AttributeError)
  {
    assert [call][1..] == [];
    if call.JObj? && Get(call.fields, "type") == Some(JStr("function")) {
      var fn := GetOr(call.fields, "function", JObj([]));
      if fn.JObj? {
        assert FunctionCallNames([]) == Success([]);
        assert [GetOr(fn.fields, "name", JStr(UnknownToolName))] + [] == [GetOr(fn.fields, "name", JStr(UnknownToolName))];
      }
    }
  }

  /** The number of elements of `calls` typed "function". */
  function CountFunctionCalls(calls: seq<Json>): nat {
    if calls == [] then 0
    else
      var here := if calls[0].JObj? && Get(calls[0].fields, "type") == Some(JStr("function")) then 1 else 0;
      here + CountFunctionCalls(calls[1..])
  }

  /** Exactly one name per call typed "function", so never more names than calls. */
  lemma {:induction false} FunctionCallNamesCount(calls: seq<Json>)
    requires FunctionCallNames(calls).Success?
    ensures |FunctionCallNames(calls).value| == CountFunctionCalls(calls) <= |calls|
  {
    if calls != [] {
      FunctionCallNamesCount(calls[1..]);
    }
  }

  /**
   * The empty answers of `get_picked_tools_from_span`: no attributes, no usable
   * `events`, no message in the last event, or no tool calls in the message.
   */
  lemma PickedToolsEmpty(span: Span, loads: JsonParser)
    ensures !HasJsonAttr(span, "events") ==> GetPickedToolsFromSpan(span, loads) == Success([])
  {
  }

  /** ... and when the last event carries no truthy message. */
  lemma PickedToolsNoMessage(span: Span, loads: JsonParser, items: seq<Json>, event: JsonObject)
    requires HasJsonAttr(span, "events")
    requires loads(span.attributes["events"].s) == Some(JArr(items)) && |items| > 0 && items[|items| - 1] == JObj(event)
    requires Get(event, "message").None? || !Truthy(Get(event, "message").value)
    ensures GetPickedToolsFromSpan(span, loads) == Success([])
  {
    assert LastEvent(JArr(items)) == Success(JObj(event));
  }

  /** ... and when that message carries no truthy `tool_calls`. */
  lemma PickedToolsNoCalls(span: Span, loads: JsonParser, items: seq<Json>, event: JsonObject, message: JsonObject)
    requires HasJsonAttr(span, "events")
    requires loads(span.attributes["events"].s) == Some(JArr(items)) && |items| > 0 && items[|items| - 1] == JObj(event)
    requires Get(event, "message") == Some(JObj(message)) && |message| > 0
    requires Get(message, "tool_calls").None? || !Truthy(Get(message, "tool_calls").value)
    ensures GetPickedToolsFromSpan(span, loads) == Success([])
  {
    assert LastEvent(JArr(items)) == Success(JObj(event));
  }

  /**
   * Otherwise, for a non-empty `tool_calls` list in the message of the last
   * event, the answer is the filtered comprehension over that list.
   */
  lemma PickedToolsListed(span: Span, loads: JsonParser, items: seq<Json>, event: JsonObject, message: JsonObject, calls: seq<Json>)
    requires HasJsonAttr(span, "events")
    requires loads(span.attributes["events"].s) == Some(JArr(items)) && |items| > 0 && items[|items| - 1] == JObj(event)
    requires Get(event, "message") == Some(JObj(message)) && |message| > 0
    requires Get(message, "tool_calls") == Some(JArr(calls)) && |calls| > 0
    ensures GetPickedToolsFromSpan(span, loads) == FunctionCallNames(calls)
  {
    assert LastEvent(JArr(items)) == Success(JObj(event));
  }

  /** An empty `events` list is an error: the last element is read unconditionally. */
  lemma PickedToolsNoEvents(span: Span, loads: JsonParser)
    requires HasJsonAttr(span, "events") && loads(span.attributes["events"].s) == Some(JArr([]))
    ensures GetPickedToolsFromSpan(span, loads) == Failure(IndexError)
  {
  }

  // ---------------------------------------------------------------------------
  // format_span
  // ---------------------------------------------------------------------------

  const RunningTool: string := "running tool"
  const ChatPrefix: string := "chat "
  const ResponseLimit: nat := 200

  predicate IsChatSpan(name: string) {
    |name| >= |ChatPrefix| && name[..|ChatPrefix|] == ChatPrefix
  }

  /** `s[:n]`: at most the first n characters. */
  function Truncate(s: string, n: nat): (r: string)
    ensures |r| <= n && r <= s
    ensures |s| <= n ==> r == s
    ensures |s| > n ==> |r| == n
  {
    if |s| <= n then s else s[..n]
  }

  /** `"{timestamp} - {span_message}\n"`. */
  function Line(timestamp: string, message: string): string {
    timestamp + " - " + message + "\n"
  }

  /** The message of a "running tool" span. */
  function RunningToolMessage(attributes: map<string, AttrValue>): string {
    "Model called " + AttrStr(attributes, "gen_ai.tool.name")
      + " with arguments: " + AttrStr(attributes, "tool_arguments")
      + " returned: " + Truncate(AttrStr(attributes, "tool_response"), ResponseLimit)
  }

  /** The message of a "chat " span, given the picked tool names. */
  function ChatMessage(attributes: map<string, AttrValue>, picked: seq<Json>): string {
    "Model: " + AttrStr(attributes, "gen_ai.request.model") + " -- Picked tools: " + PyText.Repr(JArr(picked))
  }

  /**
   * The `span_message` that `format_span` computes. Only a chat span with
   * attributes can fail, and then with the error of picking its tools; a span
   * that is neither a chat nor a tool run is shown by its name.
   */
  function SpanMessage(span: Span, loads: JsonParser): (r: Result<string, PyError>)
    ensures r.Failure? ==>
      IsChatSpan(span.name) && |span.attributes| > 0 && GetPickedToolsFromSpan(span, loads) == Failure(r.error)
    ensures !IsChatSpan(span.name) && span.name != RunningTool ==> r == Success(span.name)
  {
    if |span.attributes| == 0 then Success(span.name)
    else if !IsChatSpan(span.name) && span.name != RunningTool then Success(span.name)
    else if span.name == RunningTool then Success(RunningToolMessage(span.attributes))
    else
      match GetPickedToolsFromSpan(span, loads)
      case Failure(e) => Failure(e)
      case Success(picked) => Success(ChatMessage(span.attributes, picked))
  }

  /**
   * `format_span`, with the rendered start time given as `timestamp`. Every line
   * it produces starts with the timestamp and ends with a newline; it fails only
   * where picking the tools of a chat span fails.
   */
  function FormatSpan(span: Span, timestamp: string, loads: JsonParser): (r: Result<string, PyError>)
    ensures r.Success? ==>
      |r.value| > |timestamp| + 3 && r.value[..|timestamp| + 3] == timestamp + " - " && r.value[|r.value| - 1] == '\n'
    ensures r.Failure? ==> IsChatSpan(span.name) && GetPickedToolsFromSpan(span, loads) == Failure(r.error)
  {
    match SpanMessage(span, loads)
    case Failure(e) => Failure(e)
    case Success(message) =>
      assert Line(timestamp, message) == (timestamp + " - ") + (message + "\n");
      Success(Line(timestamp, message))
  }

  /** Spans without attributes, and spans that are neither chat nor tool runs, print as name only. */
  lemma FormatSpanDefault(span: Span, timestamp: string, loads: JsonParser)
    requires |span.attributes| == 0 || (!IsChatSpan(span.name) && span.name != RunningTool)
    ensures FormatSpan(span, timestamp, loads) == Success(timestamp + " - " + span.name + "\n")
  {
  }

  /**
   * A "running tool" span with attributes prints the tool name and the arguments
   * verbatim and the response cut to its first 200 characters.
   */
  lemma FormatSpanRunningTool(span: Span, timestamp: string, loads: JsonParser)
    requires span.name == RunningTool && |span.attributes| > 0
    ensures var response := AttrStr(span.attributes, "tool_response");
      var shown := Truncate(response, ResponseLimit);
      && |shown| <= ResponseLimit && shown <= response
      && FormatSpan(span, timestamp, loads) == Success(Line(timestamp,
           "Model called " + AttrStr(span.attributes, "gen_ai.tool.name")
           + " with arguments: " + AttrStr(span.attributes, "tool_arguments") + " returned: " + shown))
  {
    assert RunningTool[..|ChatPrefix|][0] != ChatPrefix[0];
  }

  /**
   * A "chat " span with attributes prints the model and the picked tools as a
   * Python list; if picking the tools raises, so does the formatting.
   */
  lemma FormatSpanChat(span: Span, timestamp: string, loads: JsonParser)
    requires IsChatSpan(span.name) && |span.attributes| > 0
    ensures var picked := GetPickedToolsFromSpan(span, loads);
      && (picked.Failure? ==> FormatSpan(span, timestamp, loads) == Failure(picked.error))
      && (picked.Success? ==> FormatSpan(span, timestamp, loads) == Success(Line(timestamp,
           "Model: " + AttrStr(span.attributes, "gen_ai.request.model")
           + " -- Picked tools: " + PyText.Repr(JArr(picked.value)))))
  {
    assert span.name != RunningTool by {
      assert RunningTool[..|ChatPrefix|][0] != ChatPrefix[0];
    }
  }

  /**
   * Malformed JSON in an attribute that passed the guards is not caught: both
   * extractions raise JSONDecodeError, and so does the formatting of a chat span
   * whose `events` do not decode.
   */
  lemma MalformedJsonRaises(span: Span, timestamp: string, loads: JsonParser)
    ensures HasJsonAttr(span, "model_request_parameters") && loads(span.attributes["model_request_parameters"].s).None?
      ==> GetToolNamesFromSpan(span, loads) == Failure(JSONDecodeError)
    ensures HasJsonAttr(span, "events") && loads(span.attributes["events"].s).None?
      ==> GetPickedToolsFromSpan(span, loads) == Failure(JSONDecodeError)
    ensures IsChatSpan(span.name) && HasJsonAttr(span, "events") && loads(span.attributes["events"].s).None?
      ==> FormatSpan(span, timestamp, loads) == Failure(JSONDecodeError)
  {
    if IsChatSpan(span.name) && HasJsonAttr(span, "events") {
      FormatSpanChat(span, timestamp, loads);
    }
  }
}
