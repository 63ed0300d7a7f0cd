/** The MCP client: JSON-RPC 2.0 requests posted to a Fabric Data Agent's MCP
    endpoint (`initialize`, `tools/list`, then one `tools/call` per question).

    The endpoint is a `Server`: the delivery it makes for the `k`-th POST of
    the session. `json.loads` is an abstract `Decoder`. */
module McpClient {
  import opened Wrappers
  import opened Text
  import opened Py
  import opened Http
  import Console

  // ---------------------------------------------------------------------
  // Requests
  // ---------------------------------------------------------------------

  /** One POST to the endpoint: its headers and its JSON body. */
  datatype Post = Post(headers: map<string, string>, body: Json)

  /** How the endpoint answers the `k`-th POST of a session. */
  type Server = (nat, Post) -> Delivery

  function Headers(token: string): (h: map<string, string>)
    ensures h.Keys == {"Authorization", "Content-Type", "Accept"}
    ensures h["Authorization"] == Bearer(token)
    ensures h["Content-Type"] == "application/json" && h["Accept"] == "application/json"
  {
    map["Authorization" := Bearer(token), "Content-Type" := "application/json", "Accept" := "application/json"]
  }

  /** The JSON-RPC request object (section 4 of the JSON-RPC 2.0
      Specification): version, id and method always, `params` only when the
      given params are truthy. */
  function Envelope(id: int, methodName: string, params: Json): (p: Json)
    ensures p.Obj? && |p.fields| == if Truthy(params) then 4 else 3
  {
    var base := [("jsonrpc", Str("2.0")), ("id", Num(id)), ("method", Str(methodName))];
    if Truthy(params) then Obj(base + [("params", params)]) else Obj(base)
  }

  /** The members of a request object, read back as a dict. */
  lemma EnvelopeShape(id: int, methodName: string, params: Json)
    ensures var p := Envelope(id, methodName, params);
            Lookup(p.fields, "jsonrpc") == Some(Str("2.0"))
            && Lookup(p.fields, "id") == Some(Num(id))
            && Lookup(p.fields, "method") == Some(Str(methodName))
            && (HasKey(p.fields, "params") <==> Truthy(params))
            && (Truthy(params) ==> Lookup(p.fields, "params") == Some(params))
  {
    var fields := Envelope(id, methodName, params).fields;
    var tail := if Truthy(params) then [("params", params)] else [];
    var fromMethod := [("method", Str(methodName))] + tail;
    var fromId := [("id", Num(id))] + fromMethod;
    assert fields == [("jsonrpc", Str("2.0"))] + fromId;
    assert |"jsonrpc"| == 7 && |"id"| == 2 && |"method"| == 6 && |"params"| == 6 && "method"[0] != "params"[0];
    LookupCons("jsonrpc", Str("2.0"), fromId, "jsonrpc");
    LookupCons("jsonrpc", Str("2.0"), fromId, "id");
    LookupCons("id", Num(id), fromMethod, "id");
    LookupCons("jsonrpc", Str("2.0"), fromId, "method");
    LookupCons("id", Num(id), fromMethod, "method");
    LookupCons("method", Str(methodName), tail, "method");
    LookupCons("jsonrpc", Str("2.0"), fromId, "params");
    LookupCons("id", Num(id), fromMethod, "params");
    LookupCons("method", Str(methodName), tail, "params");
  }

  const ProtocolVersion := "2024-11-05"

  function InitParams(): Json
  {
    Obj([("protocolVersion", Str(ProtocolVersion)),
         ("capabilities", Obj([])),
         ("clientInfo", Obj([("name", Str("fabric-mcp-client")), ("version", Str("1.0.0"))]))])
  }

  /** The `tools/call` params: the tool's name and the question, passed as
      the `userQuestion` argument. */
  function CallParams(toolName: Json, question: string): Json
  {
    Obj([("name", toolName), ("arguments", Obj([("userQuestion", Str(question))]))])
  }

  /** A `tools/call` request always carries its params: the tool name and
      the question under `arguments.userQuestion`. */
  lemma CallEnvelope(id: int, toolName: Json, question: string)
    ensures var p := Envelope(id, "tools/call", CallParams(toolName, question));
            |p.fields| == 4
            && Lookup(p.fields, "params") == Some(CallParams(toolName, question))
            && Lookup(CallParams(toolName, question).fields, "name") == Some(toolName)
            && Lookup(CallParams(toolName, question).fields, "arguments") == Some(Obj([("userQuestion", Str(question))]))
  {
    EnvelopeShape(id, "tools/call", CallParams(toolName, question));
  }

  // ---------------------------------------------------------------------
  // Responses
  // ---------------------------------------------------------------------

  const EventStream := "text/event-stream"

  /** The response is read as an event stream when its Content-Type mentions
      `text/event-stream` anywhere; a missing header reads as empty. */
  predicate IsEventStream(r: Response)
  {
    Contains(r.contentType.GetOr(""), EventStream)
  }

  /** The value a line of the stream carries: the line is stripped, and a
      `data:` line has the rest stripped and decoded. Lines that fail to
      decode carry nothing. */
  function DataPayload(line: string, decode: Decoder): (r: Option<Json>)
    ensures r.Some? ==> StartsWith(Strip(line), "data:")
  {
    var l := Strip(line);
    if StartsWith(l, "data:") then
      match decode(Strip(l[5..]))
      case Parsed(v) => Some(v)
      case Malformed(_) => None
    else None
  }

  /** What each line of a stream carries. */
  function Payloads(lines: seq<string>, decode: Decoder): (ps: seq<Option<Json>>)
    ensures |ps| == |lines| && forall i :: 0 <= i < |lines| ==> ps[i] == DataPayload(lines[i], decode)
  {
    seq(|lines|, i requires 0 <= i < |lines| => DataPayload(lines[i], decode))
  }

  /** The position of the last payload present. */
  function LastAt(ps: seq<Option<Json>>): (r: Option<nat>)
    ensures r.Some? ==> r.value < |ps| && ps[r.value].Some?
    ensures r.Some? ==> forall j :: r.value < j < |ps| ==> ps[j].None?
    ensures r.None? <==> forall j :: 0 <= j < |ps| ==> ps[j].None?
  {
    if ps == [] then None
    else if ps[|ps| - 1].Some? then Some(|ps| - 1)
    else
      var init := ps[..|ps| - 1];
      assert forall j :: 0 <= j < |init| ==> init[j] == ps[j];
      LastAt(init)
  }

  /** The last payload present. */
  function Last(ps: seq<Option<Json>>): Option<Json>
  {
    match LastAt(ps)
    case Some(i) => ps[i]
    case None => None
  }

  /** Each line either replaces the payload read so far or leaves it. */
  lemma LastStep(ps: seq<Option<Json>>, p: Option<Json>)
    ensures Last(ps + [p]) == if p.Some? then p else Last(ps)
  {
    assert (ps + [p])[..|ps|] == ps;
  }

  lemma LastPrefixStep(ps: seq<Option<Json>>, i: nat)
    requires i < |ps|
    ensures Last(ps[..i + 1]) == if ps[i].Some? then ps[i] else Last(ps[..i])
  {
    LastStep(ps[..i], ps[i]);
    assert ps[..i + 1] == ps[..i] + [ps[i]];
  }

  /** What the event-stream branch returns: the last payload, or `{}`. */
  function StreamResult(text: string, decode: Decoder): Json
  {
    Last(Payloads(Split(text, '\n'), decode)).GetOr(Obj([]))
  }

  /** The value `mcp_request` returns for a response. The event-stream
      branch never raises, whatever the HTTP status; the other branch raises
      on an error status and on a body that is not JSON. */
  function Decode(r: Response, decode: Decoder): (o: Outcome<Json>)
    ensures IsEventStream(r) ==> o == Ok(StreamResult(r.text, decode))
    ensures !IsEventStream(r) && !r.ok ==> o == Raised(Exc(HttpError, r.statusError))
    ensures !IsEventStream(r) && r.ok ==> o == JsonOf(r, decode)
  {
    if IsEventStream(r) then Ok(StreamResult(r.text, decode))
    else
      var _ :- RaiseForStatus(r);
      JsonOf(r, decode)
  }

  /** The outcome of one POST: a transport failure raises, otherwise the
      response is decoded. */
  function Exchange(d: Delivery, decode: Decoder): (o: Outcome<Json>)
    ensures d.Unreachable? ==> o == Raised(Exc(RequestError, d.message))
    ensures d.Delivered? ==> o == Decode(d.response, decode)
  {
    match d
    case Unreachable(m) => Raised(Exc(RequestError, m))
    case Delivered(r) => Decode(r, decode)
  }

  /** The last payload present wins: earlier ones are overwritten, and
      absent ones after it change nothing. */
  lemma LastWins(ps: seq<Option<Json>>, i: nat)
    requires i < |ps| && ps[i].Some? && forall j :: i < j < |ps| ==> ps[j].None?
    ensures Last(ps) == ps[i]
  {
    assert LastAt(ps).Some?;
  }

  /** The stream's result is the payload of the last line that carries one;
      undecodable or payload-free lines after it change nothing. */
  lemma LastPayloadWins(text: string, decode: Decoder, i: nat)
    requires var ps := Payloads(Split(text, '\n'), decode);
             i < |ps| && ps[i].Some? && forall j :: i < j < |ps| ==> ps[j].None?
    ensures StreamResult(text, decode) == Payloads(Split(text, '\n'), decode)[i].value
  {
    LastWins(Payloads(Split(text, '\n'), decode), i);
  }

  /** With no decodable `data:` line the result is `{}`, and nothing is
      raised. */
  lemma NoPayloadEmpty(text: string, decode: Decoder)
    requires forall j :: 0 <= j < |Split(text, '\n')| ==> DataPayload(Split(text, '\n')[j], decode).None?
    ensures StreamResult(text, decode) == Obj([])
  {
    var ps := Payloads(Split(text, '\n'), decode);
    assert forall j :: 0 <= j < |ps| ==> ps[j].None?;
  }

  /** The event-stream loop of `mcp_request`: each line is examined in
      order and every successful decode replaces the result. */
  method ReadEventStream(text: string, decode: Decoder) returns (result: Json)
    ensures result == StreamResult(text, decode)
  {
    result := Obj([]);
    var lines := Split(text, '\n');
    ghost var ps := Payloads(lines, decode);
    for i := 0 to |lines|
      invariant result == Last(ps[..i]).GetOr(Obj([]))
    {
      LastPrefixStep(ps, i);
      var payload := DataPayload(lines[i], decode);
      assert payload == ps[i];
      if payload.Some? {
        result := payload.value;
      }
    }
    assert ps[..|lines|] == ps;
  }

  /** `mcp_request`: builds the payload, posts it as the `k`-th POST of the
      session and decodes the answer. */
  method McpRequest(server: Server, k: nat, token: string, methodName: string, params: Json, id: int, decode: Decoder)
    returns (payload: Json, response: Outcome<Json>)
    ensures payload == Envelope(id, methodName, params)
    ensures response == Exchange(server(k, Post(Headers(token), payload)), decode)
  {
    var headers := map["Authorization" := "Bearer " + token, "Content-Type" := "application/json", "Accept" := "application/json"];
    var fields := [("jsonrpc", Str("2.0")), ("id", Num(id)), ("method", Str(methodName))];
    if Truthy(params) {
      fields := fields + [("params", params)];
    }
    payload := Obj(fields);
    var delivery := server(k, Post(headers, payload));
    if delivery.Unreachable? {
      return payload, Raised(Exc(RequestError, delivery.message));
    }
    var resp := delivery.response;
    if IsEventStream(resp) {
      var result := ReadEventStream(resp.text, decode);
      return payload, Ok(result);
    }
    if !resp.ok {
      return payload, Raised(Exc(HttpError, resp.statusError));
    }
    response := JsonOf(resp, decode);
  }

  // ---------------------------------------------------------------------
  // The answer to a question
  // ---------------------------------------------------------------------

  const NoResponse := "[No response from agent]"

  /** The line printed for one content block: its `text` when its `type` is
      `"text"`, nothing otherwise. */
  function BlockLine(block: Json): (p: Printed)
    ensures p.raised.None? <==> block.Obj?
    ensures |p.lines| <= 1
  {
    match Get(block, "type", Null)
    case Raised(x) => Stop(x)
    case Ok(kind) =>
      if kind == Str("text") then
        match Get(block, "text", Str(""))
        case Raised(x) => Stop(x)
        case Ok(t) => Printed([Show(t)], None)
      else Printed([], None)
  }

  /** The lines printed for a list of content blocks, one per text block. */
  function TextBlocks(blocks: seq<Json>): (p: Printed)
    ensures p.raised.None? <==> forall i :: 0 <= i < |blocks| ==> blocks[i].Obj?
    ensures |p.lines| <= |blocks|
  {
    if blocks == [] then Printed([], None)
    else
      var init := blocks[..|blocks| - 1];
      assert forall i :: 0 <= i < |init| ==> init[i] == blocks[i];
      Then(TextBlocks(init), BlockLine(blocks[|blocks| - 1]))
  }

  lemma {:induction false} TextBlocksAppend(a: seq<Json>, b: Json)
    ensures TextBlocks(a + [b]) == Then(TextBlocks(a), BlockLine(b))
  {
    assert (a + [b])[..|a + [b]| - 1] == a;
  }

  /** What `main` prints for a `tools/call` response: the text blocks of a
      non-empty `result.content`; otherwise the `error` (its `message`, or the
      whole error); otherwise the no-response marker. A response id is never
      looked at. */
  function Answer(resp: Json): (p: Printed)
    ensures !resp.Obj? ==> p == Stop(NoAttribute(resp, "get"))
  {
    match Get(resp, "result", Obj([]))
    case Raised(x) => Stop(x)
    case Ok(result) =>
      match Get(result, "content", Arr([]))
      case Raised(x) => Stop(x)
      case Ok(content) =>
        if Truthy(content) then
          match Iterate(content)
          case Raised(x) => Stop(x)
          case Ok(blocks) => TextBlocks(blocks)
        else
          match Lookup(resp.fields, "error")
          case Some(err) =>
            (match Get(err, "message", err)
             case Raised(x) => Stop(x)
             case Ok(m) => Printed(["[ERROR] " + Show(m)], None))
          case None => Printed([NoResponse], None)
  }

  /** A non-empty `result.content` list wins: its blocks are printed, and an
      `error` member of the response, wherever it stands, is never read. */
  lemma ContentWins(resp: Json, result: Json, content: Json)
    requires Get(resp, "result", Obj([])) == Ok(result)
    requires Get(result, "content", Arr([])) == Ok(content)
    requires content.Arr? && content.items != []
    ensures Answer(resp) == TextBlocks(content.items)
  {
  }

  /** Falsy content (missing, `null`, `[]`, `""`, `{}`, ...) and an `error`
      member: the error's `message` is reported, or the whole error when it
      has none; an error that is not a dict raises on `.get`. */
  lemma ErrorReported(resp: Json, result: Json, content: Json, err: Json)
    requires Get(resp, "result", Obj([])) == Ok(result)
    requires Get(result, "content", Arr([])) == Ok(content) && !Truthy(content)
    requires Lookup(resp.fields, "error") == Some(err)
    ensures err.Obj? ==>
              Answer(resp) == Printed(["[ERROR] " + Show(Lookup(err.fields, "message").GetOr(err))], None)
    ensures !err.Obj? ==> Answer(resp) == Stop(NoAttribute(err, "get"))
  {
  }

  /** Falsy content and no `error` member: the no-response marker. */
  lemma NoResponseWithoutContent(resp: Json, result: Json, content: Json)
    requires Get(resp, "result", Obj([])) == Ok(result)
    requires Get(result, "content", Arr([])) == Ok(content) && !Truthy(content)
    requires !HasKey(resp.fields, "error")
    ensures Answer(resp) == Printed([NoResponse], None)
  {
  }

  /** An empty response object prints the no-response marker. */
  lemma EmptyNoResponse()
    ensures Answer(Obj([])) == Printed([NoResponse], None)
  {
    NoResponseWithoutContent(Obj([]), Obj([]), Arr([]));
  }

  /** The `{}` of an event stream without a decodable `data:` line prints
      the no-response marker. */
  lemma EmptyStreamNoResponse(text: string, decode: Decoder)
    requires forall j :: 0 <= j < |Split(text, '\n')| ==> DataPayload(Split(text, '\n')[j], decode).None?
    ensures Answer(StreamResult(text, decode)) == Printed([NoResponse], None)
  {
    NoPayloadEmpty(text, decode);
    EmptyNoResponse();
  }

  /** A content block of type `"text"`. */
  function TextBlockOf(text: string): Json
  {
    Obj([("type", Str("text")), ("text", Str(text))])
  }

  lemma TextBlockLine(text: string)
    ensures BlockLine(TextBlockOf(text)) == Printed([text], None)
  {
    var fields := TextBlockOf(text).fields;
    LookupUnique(fields, 0, "type");
    LookupUnique(fields, 1, "text");
  }

  /** A dict block of any other type prints nothing. */
  lemma OtherBlockSilent(block: Json)
    requires block.Obj? && Lookup(block.fields, "type") != Some(Str("text"))
    ensures BlockLine(block) == Printed([], None)
  {
  }

  /** Text blocks are printed one per line, in order, not concatenated. */
  lemma {:induction false} TextBlocksOnePerLine(blocks: seq<Json>, texts: seq<string>)
    requires |blocks| == |texts| && forall i :: 0 <= i < |texts| ==> blocks[i] == TextBlockOf(texts[i])
    ensures TextBlocks(blocks) == Printed(texts, None)
  {
    if texts != [] {
      var n := |texts| - 1;
      TextBlocksSplit(blocks, texts);
      TextBlocksOnePerLine(blocks[..n], texts[..n]);
      TextBlocksSnoc(blocks[..n], texts[..n], texts[n]);
    }
  }

  /** Text blocks and their texts, split before the last one. */
  lemma TextBlocksSplit(blocks: seq<Json>, texts: seq<string>)
    requires |blocks| == |texts| && forall i :: 0 <= i < |texts| ==> blocks[i] == TextBlockOf(texts[i])
    requires texts != []
    ensures var n := |texts| - 1;
            && blocks == blocks[..n] + [TextBlockOf(texts[n])]
            && texts == texts[..n] + [texts[n]]
            && forall i :: 0 <= i < n ==> blocks[..n][i] == TextBlockOf(texts[..n][i])
  {
    var n := |texts| - 1;
    assert forall i :: 0 <= i < n ==> blocks[..n][i] == blocks[i] && texts[..n][i] == texts[i];
  }

  lemma TextBlocksSnoc(blocks: seq<Json>, texts: seq<string>, t: string)
    requires TextBlocks(blocks) == Printed(texts, None)
    ensures TextBlocks(blocks + [TextBlockOf(t)]) == Printed(texts + [t], None)
  {
    TextBlocksAppend(blocks, TextBlockOf(t));
    TextBlockLine(t);
  }

  // ---------------------------------------------------------------------
  // Initialization and tool discovery
  // ---------------------------------------------------------------------

  /** The two lines describing the server after `initialize`. */
  function ServerBanner(init: Json): (o: Outcome<seq<string>>)
    ensures !init.Obj? ==> o == Raised(NoAttribute(init, "get"))
    ensures o.Ok? <==> init.Obj? && Get(init, "result", Obj([])).value.Obj?
                       && Get(Get(init, "result", Obj([])).value, "serverInfo", Obj([])).value.Obj?
    ensures o.Ok? ==>
              var result := Lookup(init.fields, "result").GetOr(Obj([]));
              var info := Lookup(result.fields, "serverInfo").GetOr(Obj([]));
              o.value == ["  Server: " + Show(Lookup(info.fields, "name").GetOr(Str("?")))
                            + " v" + Show(Lookup(info.fields, "version").GetOr(Str("?"))),
                          "  Protocol: " + Show(Lookup(result.fields, "protocolVersion").GetOr(Str("?")))]
  {
    var result :- Get(init, "result", Obj([]));
    var info :- Get(result, "serverInfo", Obj([]));
    var name :- Get(info, "name", Str("?"));
    var version := Lookup(info.fields, "version").GetOr(Str("?"));
    var protocol := Lookup(result.fields, "protocolVersion").GetOr(Str("?"));
    Ok(["  Server: " + Show(name) + " v" + Show(version), "  Protocol: " + Show(protocol)])
  }

  /** A server that describes nothing is shown with `?` placeholders. */
  lemma BannerPlaceholders()
    ensures ServerBanner(Obj([])) == Ok(["  Server: ? v?", "  Protocol: ?"])
  {
    var q := Str("?");
    assert Lookup([], "name") == None && Lookup([], "version") == None && Lookup([], "protocolVersion") == None;
    assert Show(q) == "?";
    assert "  Server: " + Show(q) + " v" + Show(q) == "  Server: ? v?";
    assert "  Protocol: " + Show(q) == "  Protocol: ?";
  }

  /** `tools_resp.get("result", {}).get("tools", [])`. */
  function ToolsOf(resp: Json): Outcome<Json>
  {
    var result :- Get(resp, "result", Obj([]));
    Get(result, "tools", Arr([]))
  }

  /** The tool the questions go to: `None` when the list is empty (the
      program stops there), otherwise the first tool's `name`, `""` when it
      has none. */
  function SelectTool(tools: Json): (r: Outcome<Option<Json>>)
    ensures !Truthy(tools) <==> r == Ok(None)
    ensures tools.Arr? && tools.items != [] && tools.items[0].Obj? ==>
              r == Ok(Some(Lookup(tools.items[0].fields, "name").GetOr(Str(""))))
  {
    if !Truthy(tools) then Ok(None)
    else
      var first :- First(tools);
      var name :- Get(first, "name", Str(""));
      Ok(Some(name))
  }

  /** The label of a parameter: required exactly when it is listed in the
      schema's `required`. */
  function RequiredLabel(schema: Json, prop: string): (r: Outcome<string>)
    ensures schema.Obj? && Get(schema, "required", Arr([])).value.Arr? ==>
              r.Ok? && (r.value == "required" <==> Str(prop) in Get(schema, "required", Arr([])).value.items)
              && (r.value == "required" || r.value == "optional")
  {
    var required :- Get(schema, "required", Arr([]));
    var listed :- In(prop, required);
    Ok(if listed then "required" else "optional")
  }

  function ParamLine(schema: Json, prop: string, info: Json): Outcome<string>
  {
    var requirement :- RequiredLabel(schema, prop);
    var kind :- Get(info, "type", Str("?"));
    Ok("      param: " + prop + " (" + Show(kind) + ", " + requirement + ")")
  }

  /** One `param:` line per property of the schema, in order, as long as
      none of them raises. */
  function ParamLines(schema: Json, props: seq<(string, Json)>): (p: Printed)
    ensures p.raised.None? <==> forall i :: 0 <= i < |props| ==> ParamLine(schema, props[i].0, props[i].1).Ok?
    ensures |p.lines| <= |props|
    ensures p.raised.None? ==> |p.lines| == |props|
    ensures forall i :: 0 <= i < |p.lines| ==> ParamLine(schema, props[i].0, props[i].1) == Ok(p.lines[i])
  {
    var os := seq(|props|, i requires 0 <= i < |props| => ParamLine(schema, props[i].0, props[i].1));
    assert forall i :: 0 <= i < |props| ==> os[i] == ParamLine(schema, props[i].0, props[i].1);
    Lines(os)
  }

  /** The lines printed for one listed tool: its name, then one line per
      property of its input schema. */
  function ToolEntry(tool: Json): (p: Printed)
    ensures tool.Obj? ==> p.lines != [] && p.lines[0] == "    - " + Show(Lookup(tool.fields, "name").GetOr(Str("?")))
    ensures !tool.Obj? ==> p == Stop(NoAttribute(tool, "get"))
  {
    match Get(tool, "name", Str("?"))
    case Raised(x) => Stop(x)
    case Ok(name) =>
      var head := Printed(["    - " + Show(name)], None);
      match Get(tool, "inputSchema", Obj([]))
      case Raised(x) => Then(head, Stop(x))
      case Ok(schema) =>
        match Get(schema, "properties", Obj([]))
        case Raised(x) => Then(head, Stop(x))
        case Ok(props) =>
          match Items(props)
          case Raised(x) => Then(head, Stop(x))
          case Ok(items) => Then(head, ParamLines(schema, items))
  }

  /** The entries of a tool list, one tool after another. */
  function ToolEntries(tools: seq<Json>): Printed
  {
    if tools == [] then Printed([], None)
    else Then(ToolEntries(tools[..|tools| - 1]), ToolEntry(tools[|tools| - 1]))
  }

  /** The tools are listed in order: the entries of `a + b` are those of `a`
      followed by those of `b`, and an exception in `a` ends the listing
      before `b`. */
  lemma {:induction false} ToolEntriesAppend(a: seq<Json>, b: seq<Json>)
    ensures ToolEntries(a + b) == Then(ToolEntries(a), ToolEntries(b))
    decreases |b|
  {
    if b == [] {
      assert a + b == a;
      ThenNothing(ToolEntries(a));
    } else {
      var init := b[..|b| - 1];
      var last := b[|b| - 1];
      assert (a + b)[..|a + b| - 1] == a + init && (a + b)[|a + b| - 1] == last;
      ToolEntriesAppend(a, init);
      ThenAssoc(ToolEntries(a), ToolEntries(init), ToolEntry(last));
    }
  }

  /** The first tool is listed first, then the rest, unless it raised. */
  lemma ToolEntriesCons(tool: Json, rest: seq<Json>)
    ensures ToolEntries([tool] + rest) == Then(ToolEntry(tool), ToolEntries(rest))
  {
    var t := ToolEntry(tool);
    ToolEntriesAppend([tool], rest);
    assert [tool][..0] == [];
    assert ToolEntries([tool]) == Then(ToolEntries([]), t);
    assert [] + t.lines == t.lines;
    assert Then(Printed([], None), t) == t;
  }

  /** The tool listing: a count, then each tool. */
  function ToolListing(tools: Json): (p: Printed)
    ensures tools.Arr? ==> p.lines != [] && p.lines[0] == "  Found " + NatToString(|tools.items|) + " tool(s):"
    ensures tools.Arr? ==> p == Then(Printed(["  Found " + NatToString(|tools.items|) + " tool(s):"], None), ToolEntries(tools.items))
  {
    match Len(tools)
    case Raised(x) => Stop(x)
    case Ok(n) =>
      var head := Printed(["  Found " + NatToString(n) + " tool(s):"], None);
      match Iterate(tools)
      case Raised(x) => Then(head, Stop(x))
      case Ok(ts) => Then(head, ToolEntries(ts))
  }

  /** A schema that lists `userQuestion` as required labels it so, and an
      unlisted property is optional. */
  lemma RequiredQuestion()
    ensures var schema := Obj([("type", Str("object")),
                               ("properties", Obj([("userQuestion", Obj([("type", Str("string"))])),
                                                   ("context", Obj([("type", Str("string"))]))])),
                               ("required", Arr([Str("userQuestion")]))]);
            RequiredLabel(schema, "userQuestion") == Ok("required")
            && RequiredLabel(schema, "context") == Ok("optional")
  {
    assert Str("context") != Str("userQuestion");
  }

  // ---------------------------------------------------------------------
  // The chat loop and its request ids
  // ---------------------------------------------------------------------

  /** One question sent: the id used, the payload posted, and what
      `mcp_request` returned or raised. */
  datatype Exchanged = Exchanged(id: int, payload: Json, outcome: Outcome<Json>) {
    /** `mcp_request` returned normally, so `req_id += 1` ran. */
    predicate Advanced() { outcome.Ok? }
  }

  /** The lines printed after `Agent: ` for one question. */
  function TurnLines(t: Exchanged): (lines: seq<string>)
    ensures t.outcome.Raised? ==> lines == ["[ERROR] " + t.outcome.exc.text]
    ensures t.outcome.Ok? ==> lines == Interrupted(Answer(t.outcome.value), "[ERROR] ")
  {
    match t.outcome
    case Raised(x) => ["[ERROR] " + x.text]
    case Ok(resp) => Interrupted(Answer(resp), "[ERROR] ")
  }

  const FirstCallId: int := 3

  /** The id the next `tools/call` uses after the turns so far. */
  function NextId(turns: seq<Exchanged>): int
  {
    if turns == [] then FirstCallId
    else NextId(turns[..|turns| - 1]) + if turns[|turns| - 1].Advanced() then 1 else 0
  }

  /** The number of turns whose call returned. */
  function Returned(turns: seq<Exchanged>): nat
  {
    if turns == [] then 0
    else Returned(turns[..|turns| - 1]) + if turns[|turns| - 1].Advanced() then 1 else 0
  }

  /** The id counter is 3 plus the number of calls that returned. */
  lemma {:induction false} NextIdCounts(turns: seq<Exchanged>)
    ensures NextId(turns) == FirstCallId + Returned(turns)
  {
    if turns != [] {
      NextIdCounts(turns[..|turns| - 1]);
    }
  }

  /** What `mcp_request` returns for the `k`-th POST of a given payload. */
  type Responder = (nat, Json) -> Outcome<Json>

  function Respond(server: Server, decode: Decoder, token: string): Responder
  {
    (k: nat, payload: Json) => Exchange(server(k, Post(Headers(token), payload)), decode)
  }

  /** The turns of the chat for questions `qs`: the `i`-th question is the
      `(2 + i)`-th POST of the session, with the id the counter holds. */
  function ChatTurns(respond: Responder, toolName: Json, qs: seq<string>): (ts: seq<Exchanged>)
    ensures |ts| == |qs|
  {
    if qs == [] then []
    else
      var before := ChatTurns(respond, toolName, qs[..|qs| - 1]);
      var payload := Envelope(NextId(before), "tools/call", CallParams(toolName, qs[|qs| - 1]));
      before + [Exchanged(NextId(before), payload, respond(2 + |before|, payload))]
  }

  /** One more question: its turn is appended with the current id. */
  lemma ChatTurnsStep(respond: Responder, toolName: Json, qs: seq<string>, q: string)
    ensures var before := ChatTurns(respond, toolName, qs);
            var payload := Envelope(NextId(before), "tools/call", CallParams(toolName, q));
            ChatTurns(respond, toolName, qs + [q]) == before + [Exchanged(NextId(before), payload, respond(2 + |qs|, payload))]
  {
    assert (qs + [q])[..|qs|] == qs;
  }

  /** Dropping the last question drops the last turn. */
  lemma ChatTurnsInit(respond: Responder, toolName: Json, qs: seq<string>)
    requires qs != []
    ensures ChatTurns(respond, toolName, qs)[..|qs| - 1] == ChatTurns(respond, toolName, qs[..|qs| - 1])
  {
    var before := ChatTurns(respond, toolName, qs[..|qs| - 1]);
    var ts := ChatTurns(respond, toolName, qs);
    assert ts == before + [ts[|qs| - 1]];
  }

  lemma TakeTake<T>(s: seq<T>, n: nat, m: nat)
    requires m <= n <= |s|
    ensures s[..n][..m] == s[..m]
  {
  }

  /** The turns for a prefix of the questions are a prefix of the turns. */
  lemma {:induction false} ChatTurnsPrefix(respond: Responder, toolName: Json, qs: seq<string>, m: nat)
    requires m <= |qs|
    ensures ChatTurns(respond, toolName, qs[..m]) == ChatTurns(respond, toolName, qs)[..m]
    decreases |qs|
  {
    if m < |qs| {
      var init := qs[..|qs| - 1];
      var ts := ChatTurns(respond, toolName, qs);
      TakeTake(qs, |qs| - 1, m);
      assert init[..m] == qs[..m];
      ChatTurnsPrefix(respond, toolName, init, m);
      ChatTurnsInit(respond, toolName, qs);
      assert ts[..|qs| - 1] == ChatTurns(respond, toolName, init);
      TakeTake(ts, |qs| - 1, m);
      assert ts[..|qs| - 1][..m] == ts[..m];
    } else {
      assert qs[..m] == qs;
    }
  }

  /** The `i`-th turn of a chat, read off the turns before it. */
  lemma ChatTurnAt(respond: Responder, toolName: Json, qs: seq<string>, i: nat)
    requires i < |qs|
    ensures var ts := ChatTurns(respond, toolName, qs);
            var payload := Envelope(NextId(ts[..i]), "tools/call", CallParams(toolName, qs[i]));
            ts[i] == Exchanged(NextId(ts[..i]), payload, respond(2 + i, payload))
  {
    var ts := ChatTurns(respond, toolName, qs);
    ChatTurnsPrefix(respond, toolName, qs, i + 1);
    ChatTurnsPrefix(respond, toolName, qs, i);
    var upto := qs[..i + 1];
    assert upto[..|upto| - 1] == qs[..i] && upto[|upto| - 1] == qs[i];
    var before := ChatTurns(respond, toolName, qs[..i]);
    assert before == ts[..i];
    var payload := Envelope(NextId(before), "tools/call", CallParams(toolName, qs[i]));
    assert ChatTurns(respond, toolName, upto) == before + [Exchanged(NextId(before), payload, respond(2 + |before|, payload))];
    assert ts[i] == ChatTurns(respond, toolName, upto)[i];
  }

  /** Ids start at 3 and go up by one exactly after a call that returned
      normally; a call that raised leaves the id for the next question. The
      `i`-th question is posted as the `(2 + i)`-th POST of the session. */
  lemma ChatIds(respond: Responder, toolName: Json, qs: seq<string>, i: nat)
    requires i < |qs|
    ensures var ts := ChatTurns(respond, toolName, qs);
            ts[i].id == FirstCallId + Returned(ts[..i])
            && ts[i].payload == Envelope(ts[i].id, "tools/call", CallParams(toolName, qs[i]))
            && ts[i].outcome == respond(2 + i, ts[i].payload)
            && (i + 1 < |qs| ==> ts[i + 1].id == ts[i].id + if ts[i].Advanced() then 1 else 0)
  {
    var ts := ChatTurns(respond, toolName, qs);
    ChatTurnAt(respond, toolName, qs, i);
    NextIdCounts(ts[..i]);
    if i + 1 < |qs| {
      ChatTurnAt(respond, toolName, qs, i + 1);
      var upto := ts[..i + 1];
      assert upto[..|upto| - 1] == ts[..i] && upto[|upto| - 1] == ts[i];
      assert NextId(upto) == NextId(ts[..i]) + if ts[i].Advanced() then 1 else 0;
    }
  }

  /** One question of the chat loop: the `tools/call` request is posted
      with the current id, and the id moves on only when it returned. */
  method CallTool(server: Server, decode: Decoder, token: string, toolName: Json, ghost qs: seq<string>, q: string,
                  turns: seq<Exchanged>, reqId: int, k: nat)
    returns (turns': seq<Exchanged>, reqId': int, k': nat)
    requires turns == ChatTurns(Respond(server, decode, token), toolName, qs)
    requires reqId == NextId(turns) && k == 2 + |turns|
    ensures turns' == ChatTurns(Respond(server, decode, token), toolName, qs + [q])
    ensures reqId' == NextId(turns') && k' == 2 + |turns'|
  {
    ghost var respond := Respond(server, decode, token);
    ChatTurnsStep(respond, toolName, qs, q);
    var payload, resp := McpRequest(server, k, token, "tools/call", CallParams(toolName, q), reqId, decode);
    assert resp == respond(k, payload);
    turns' := turns + [Exchanged(reqId, payload, resp)];
    assert turns'[..|turns'| - 1] == turns;
    reqId' := if resp.Ok? then reqId + 1 else reqId;
    k' := k + 1;
  }

  /** The chat loop of `main`; what it prints for each turn is `TurnLines`. */
  method Chat(server: Server, decode: Decoder, token: string, toolName: Json, lines: seq<string>)
    returns (turns: seq<Exchanged>)
    ensures turns == ChatTurns(Respond(server, decode, token), toolName, Console.Asked(lines))
  {
    turns := [];
    var reqId := FirstCallId;
    var k := 2;
    ghost var respond := Respond(server, decode, token);
    ghost var es := Console.Entries(lines);
    var i := 0;
    while i < |lines|
      invariant i <= |lines| && !Console.Stopped(es[..i])
      invariant turns == ChatTurns(respond, toolName, Console.Questions(es[..i]))
      invariant reqId == NextId(turns) && k == 2 + |turns|
    {
      ghost var qs := Console.Questions(es[..i]);
      var entry := Console.ReadEntry(lines, i, es);
      if entry.Quit? {
        return;
      }
      if entry.Ask? {
        turns, reqId, k := CallTool(server, decode, token, toolName, qs, entry.question, turns, reqId, k);
      }
      i := i + 1;
    }
    assert es[..i] == es;
  }

  // ---------------------------------------------------------------------
  // A whole session
  // ---------------------------------------------------------------------

  /** How `main` ends after authentication: an exception escaping steps 1
      and 2, no tools, or the chat. */
  datatype Ending = Crashed(exc: Exc) | NoTools | Chatted(toolName: Json, turns: seq<Exchanged>)

  /** The payloads posted, the lines printed by steps 1 and 2, and the end. */
  datatype Session = Session(posted: seq<Json>, report: seq<string>, ending: Ending)

  const InitId: int := 1
  const ListId: int := 2

  /** The payloads of the `tools/call` requests of a chat, in order. */
  function CallPayloads(turns: seq<Exchanged>): (ps: seq<Json>)
    ensures |ps| == |turns| && forall i :: 0 <= i < |turns| ==> ps[i] == turns[i].payload
  {
    seq(|turns|, i requires 0 <= i < |turns| => turns[i].payload)
  }

  /** Steps 2 and 3 once `tools/list` has been answered with `listed`: the
      `tools/call` payloads posted after it, the report, and the end. */
  function AfterList(server: Server, decode: Decoder, token: string, lines: seq<string>, report: seq<string>,
                     listed: Outcome<Json>): (s: Session)
    ensures !s.ending.Chatted? ==> s.posted == []
    ensures s.ending.Chatted? ==> s.posted == CallPayloads(s.ending.turns)
  {
    match listed
    case Raised(x) => Session([], report, Crashed(x))
    case Ok(resp) =>
      match ToolsOf(resp)
      case Raised(x) => Session([], report, Crashed(x))
      case Ok(tools) =>
        match SelectTool(tools)
        case Raised(x) => Session([], report, Crashed(x))
        case Ok(None) => Session([], report + ["  No tools found. Is the agent published?"], NoTools)
        case Ok(Some(name)) =>
          var listing := ToolListing(tools);
          match listing.raised
          case Some(x) => Session([], report + listing.lines, Crashed(x))
          case None =>
            var turns := ChatTurns(Respond(server, decode, token), name, Console.Asked(lines));
            Session(CallPayloads(turns), report + listing.lines, Chatted(name, turns))
  }

  /** `main` after authentication, with `lines` typed at the prompt. */
  function SessionSpec(server: Server, decode: Decoder, token: string, lines: seq<string>): (s: Session)
    ensures |s.posted| >= 1 && s.posted[0] == Envelope(InitId, "initialize", InitParams())
    ensures |s.posted| >= 2 ==> s.posted[1] == Envelope(ListId, "tools/list", Obj([]))
    ensures !s.ending.Chatted? ==> |s.posted| <= 2
    ensures s.ending.NoTools? ==> |s.posted| == 2
    ensures s.ending.Chatted? ==> |s.posted| >= 2 && s.posted[2..] == CallPayloads(s.ending.turns)
  {
    var init := Envelope(InitId, "initialize", InitParams());
    match Exchange(server(0, Post(Headers(token), init)), decode)
    case Raised(x) => Session([init], [], Crashed(x))
    case Ok(resp) =>
      match ServerBanner(resp)
      case Raised(x) => Session([init], [], Crashed(x))
      case Ok(banner) =>
        var list := Envelope(ListId, "tools/list", Obj([]));
        var rest := AfterList(server, decode, token, lines, banner, Exchange(server(1, Post(Headers(token), list)), decode));
        var posted := [init, list] + rest.posted;
        assert posted[0] == init && posted[1] == list && posted[2..] == rest.posted;
        Session(posted, rest.report, rest.ending)
  }

  /** The two requests that open a session, read back as dicts. */
  lemma OpeningShape()
    ensures var init := Envelope(InitId, "initialize", InitParams());
            Lookup(init.fields, "id") == Some(Num(1)) && Lookup(init.fields, "method") == Some(Str("initialize"))
    ensures var list := Envelope(ListId, "tools/list", Obj([]));
            Lookup(list.fields, "id") == Some(Num(2)) && Lookup(list.fields, "method") == Some(Str("tools/list"))
            && !HasKey(list.fields, "params")
  {
    assert Truthy(InitParams());
    EnvelopeShape(InitId, "initialize", InitParams());
    EnvelopeShape(ListId, "tools/list", Obj([]));
  }

  /** `initialize` goes first with id 1; when it gets through, `tools/list`
      follows with id 2 and no `params` member; an empty tool list ends the
      session before any `tools/call`; otherwise the `i`-th question is the
      `(2 + i)`-th POST and goes to the first tool. */
  lemma SessionShape(server: Server, decode: Decoder, token: string, lines: seq<string>)
    ensures var s := SessionSpec(server, decode, token, lines);
            Lookup(s.posted[0].fields, "id") == Some(Num(1))
            && Lookup(s.posted[0].fields, "method") == Some(Str("initialize"))
            && (|s.posted| >= 2 ==>
                  Lookup(s.posted[1].fields, "id") == Some(Num(2))
                  && Lookup(s.posted[1].fields, "method") == Some(Str("tools/list"))
                  && !HasKey(s.posted[1].fields, "params"))
            && (s.ending.NoTools? ==> |s.posted| == 2)
            && (s.ending.Chatted? ==>
                  |s.posted| == 2 + |s.ending.turns|
                  && forall i :: 0 <= i < |s.ending.turns| ==> s.posted[2 + i] == s.ending.turns[i].payload)
  {
    var s := SessionSpec(server, decode, token, lines);
    OpeningShape();
    if s.ending.Chatted? {
      var ts := s.ending.turns;
      forall i | 0 <= i < |ts|
        ensures s.posted[2 + i] == ts[i].payload
      {
        assert s.posted[2 + i] == s.posted[2..][i];
      }
    }
  }

  /** Step 2 onwards, once `tools/list` has been answered. */
  method Discover(server: Server, decode: Decoder, token: string, lines: seq<string>, report: seq<string>,
                  listed: Outcome<Json>)
    returns (s: Session)
    ensures s == AfterList(server, decode, token, lines, report, listed)
  {
    if listed.Raised? {
      return Session([], report, Crashed(listed.exc));
    }
    var tools := ToolsOf(listed.value);
    if tools.Raised? {
      return Session([], report, Crashed(tools.exc));
    }
    var selected := SelectTool(tools.value);
    if selected.Raised? {
      return Session([], report, Crashed(selected.exc));
    }
    if selected.value.None? {
      return Session([], report + ["  No tools found. Is the agent published?"], NoTools);
    }
    var toolName := selected.value.value;
    var listing := ToolListing(tools.value);
    if listing.raised.Some? {
      return Session([], report + listing.lines, Crashed(listing.raised.value));
    }
    var turns := Chat(server, decode, token, toolName, lines);
    s := Session(CallPayloads(turns), report + listing.lines, Chatted(toolName, turns));
  }

  /** `main` after authentication. */
  method RunSession(server: Server, decode: Decoder, token: string, lines: seq<string>) returns (s: Session)
    ensures s == SessionSpec(server, decode, token, lines)
  {
    var init, initResp := McpRequest(server, 0, token, "initialize", InitParams(), InitId, decode);
    if initResp.Raised? {
      return Session([init], [], Crashed(initResp.exc));
    }
    var banner := ServerBanner(initResp.value);
    if banner.Raised? {
      return Session([init], [], Crashed(banner.exc));
    }
    var list, listResp := McpRequest(server, 1, token, "tools/list", Obj([]), ListId, decode);
    var rest := Discover(server, decode, token, lines, banner.value, listResp);
    s := Session([init, list] + rest.posted, rest.report, rest.ending);
  }
}
