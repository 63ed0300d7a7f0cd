# Fabric client scripts, modelled in Dafny

This project models four command-line clients for Microsoft Fabric.

- **Data Agent chat over the Assistants API** (`data-agent-spn/fabric_agent.py`).
  - An OpenAI client subclass pins `api-version` in the query string.
  - On every request it adds the bearer token plus a default `Accept` and `ActivityId`.
  - `ask_agent` creates an assistant and a thread, posts the question and starts a run.
  - It polls the run every 2 seconds until the run reaches a terminal state or 300 seconds pass.
  - It returns the first assistant message that has text parts, and always deletes the thread.
- **Data Agent chat over MCP** (`mcp-client/mcp_client.py`).
  - It sends JSON-RPC 2.0 requests: `initialize` with id 1, `tools/list` with id 2, then one `tools/call` per question with ids from 3.
  - The id advances only after a call returns normally.
  - A response whose Content-Type mentions `text/event-stream` is read as a server-sent event stream: the last decodable `data:` line wins, and `{}` is returned when there is none.
  - Any other response goes through `raise_for_status` and `resp.json()`.
  - The answer prints the text blocks of `result.content`, or else the error message, or else `[No response from agent]`.
- **DAX query client** (`semantic-model-dax/dax_query.py`).
  - It lists the semantic models of a workspace and selects one: the only one on its own, otherwise `datasets[int(idx) - 1]` with Python indexing.
  - It runs DAX queries through `executeQueries`.
  - It prints the first table of each result: columns, row count, at most 20 rows, and an overflow line.
  - An authorization error (`PowerBINotAuthorizedException`) gets a three-line hint.
  - Any other HTTP error prints its code and a 500-character prefix of the serialized body.
- **REST connectivity test** (`api-connectivity/test_connectivity.py`).
  - It makes three checks: token acquisition, listing the workspace items, and getting the first item.
  - Each check is recorded as passed, failed or skipped.
  - It prints a summary of marks and `passed/total`.

Shared pieces:

- `Console` models the question filter the three interactive loops share. A typed line is stripped and blank lines are ignored. `quit`, `exit` or `q`, in any case, ends the loop, and so does the end of input.
- `Py` models the decoded JSON values and the Python operations the scripts apply to them (`.get`, `[k]`, `[0]`, `[j]`, `[:n]`, `len`, iteration, `in`, truthiness, `str`). Each one raises the exception Python raises on a value of the wrong shape.
- Exceptions are values (`Outcome`). Printed output is a sequence of lines, plus the exception that interrupted it, if any (`Printed`).
- `Http` models `raise_for_status` and `resp.json()` over an abstract response.
- `Text` models `strip`, `lower`, `split`, `join`, `str(n)`, `int(s)` and slicing.

External services are parameters of the model:

- The Assistants service is a `Script`: the failures of each call, the run statuses, the latency of each status request, and the message list.
- The MCP server is a function from the `k`-th POST to what it delivers.
- The REST APIs are functions from a call to a delivery.
- `json.loads` is a `Decoder` and `json.dumps(indent=2)` is a `Dumps`.
- The clock is a tick counter, and `uuid4()` is the `activityId` parameter.

## Where the code and the documented design differ

The model follows the code in each case:

- The `tools/call` argument key is `userQuestion`, not `question` (`mcp-client/mcp_client.py:183`).
- Text blocks of an MCP answer are printed one per line, not concatenated (`mcp-client/mcp_client.py:191-193`).
- No response id is ever compared with the request id, so a response carrying another id is accepted as the answer.
- The id is not advanced per call: a call that raises leaves it for the next question (`mcp-client/mcp_client.py:185`).
- The event-stream path ignores the HTTP status: an error status with an event-stream Content-Type is never raised (`mcp-client/mcp_client.py:87-97`).
- An event stream with no decodable `data:` line is not an error: the code returns `{}`, which then prints `[No response from agent]` (`McpClient.EmptyStreamNoResponse`).

## Model

| member | source | states |
|---|---|---|
| Console.Classify | data-agent-spn/fabric_agent.py:218-227 | a line is blank iff its stripped form is empty; it quits iff the lower-cased stripped form is `quit`, `exit` or `q`; otherwise its question is the stripped line, which is non-empty and not a quit word |
| Console.ClassifyQuestion | data-agent-spn/fabric_agent.py:218 | a question, stripped again, is classified as the same question |
| Console.QuestionsStep | mcp-client/mcp_client.py:165-177 | while the loop runs, a question line appends exactly that question, a quit word stops the loop, and a blank line changes nothing |
| Console.QuestionsAfterQuit | semantic-model-dax/dax_query.py:205-207 | no line typed after the quitting line is ever asked |
| Console.ReadEntry | semantic-model-dax/dax_query.py:195-207 | one read of the loop: the line is classified; a quit word ends the loop with every question already asked, a question is appended, and a blank line changes nothing |
| Console.AskedQuestions | data-agent-spn/fabric_agent.py:218-227 | every question handed on is non-empty, already stripped and not a quit word |
| Console.QuitEndsLoop | mcp-client/mcp_client.py:165-177 | any question line, then a blank line, then a quit word in any case, followed by any lines: exactly the stripped question is asked |
| Console.Entries | data-agent-spn/fabric_agent.py:218-227 | one entry per typed line, each the line's classification |
| Console.Questions | mcp-client/mcp_client.py:165-177 | the questions asked while the entries are read, never more than the entries; its steps are QuestionsStep and QuestionsAfterQuit |
| Console.Asked | semantic-model-dax/dax_query.py:195-207 | definition only: the questions of the entries of the typed lines; stated by AskedQuestions and QuitEndsLoop |
| Py.Lines | api-connectivity/test_connectivity.py:102-103 | consecutive prints: every line before the first exception is printed, that exception interrupts the rest, and all lines are printed iff none raises |
| Py.Interrupted | mcp-client/mcp_client.py:186-200 | lines printed before an exception stay, followed by the error marker and the exception's text |
| Py.Get | mcp-client/mcp_client.py:188 | `.get(k, default)` succeeds iff the value is a dict, giving the stored value or the default |
| Py.Lookup | mcp-client/mcp_client.py:188 | a key is found iff some entry has it, and the value found is stored under it |
| Py.Subscript | semantic-model-dax/dax_query.py:172 | `d[k]` succeeds iff the value is a dict holding the key |
| Py.First | api-connectivity/test_connectivity.py:112 | `v[0]` of a list is its first item, and raises IndexError on an empty list |
| Py.Prefix | semantic-model-dax/dax_query.py:120 | `rows[:n]` of a list is its first `n` items, or all of them when there are fewer |
| Py.Len | api-connectivity/test_connectivity.py:101 | the length of a list is its number of items |
| Py.In | mcp-client/mcp_client.py:154 | `x in v` is membership for a list and key presence for a dict |
| Py.Keys | semantic-model-dax/dax_query.py:116 | the keys of a dict, one per entry, in order |
| Py.At | semantic-model-dax/dax_query.py:182 | list indexing succeeds iff `-n <= j < n`, gives `items[j mod n]`, and otherwise raises IndexError |
| Py.Truthy | mcp-client/mcp_client.py:190 | definition only: `bool(v)`: `None`, `False`, zero, and empty strings, lists and dicts are falsy |
| Py.Iterate | mcp-client/mcp_client.py:191 | iterating a list gives its items in order, and only lists, dicts and strings can be iterated |
| Py.Items | mcp-client/mcp_client.py:153 | `.items()` succeeds iff the value is a dict, and gives its entries in order |
| Py.Show | mcp-client/mcp_client.py:193 | `str(v)` of a string is the string itself; other values are written as Python writes them |
| Py.Repr | mcp-client/mcp_client.py:196 | definition only: `repr(v)` inside a printed list or dict: a string in single quotes, anything else as `str` |
| Http.RaiseForStatus | api-connectivity/test_connectivity.py:67 | raises HTTPError, with the status text, exactly for an error status |
| Http.CheckedJson | api-connectivity/test_connectivity.py:64-68 | a transport failure raises a request error, an error status raises HTTPError, and an OK status is decoded as JSON |
| Http.JsonOf | mcp-client/mcp_client.py:100 | `resp.json()` can fail only with a JSON decoding error |
| Text.StripIdempotent | data-agent-spn/fabric_agent.py:218 | stripping twice is stripping once |
| Text.TrimStartAt | data-agent-spn/fabric_agent.py:218 | stripping the front removes exactly the leading whitespace |
| Text.TrimEndAt | data-agent-spn/fabric_agent.py:218 | stripping the end removes exactly the trailing whitespace |
| Text.StripEmpty | data-agent-spn/fabric_agent.py:221-222 | a line strips to nothing iff it is all whitespace |
| Text.Lower | data-agent-spn/fabric_agent.py:225 | lower-casing maps each character and keeps the length |
| Text.JoinSplit | mcp-client/mcp_client.py:90 | joining the pieces of `s.split(c)` with `c` gives `s` back |
| Text.SplitJoin | mcp-client/mcp_client.py:90 | splitting a `c`-join of pieces free of `c` gives the pieces back |
| Text.Take | semantic-model-dax/dax_query.py:222 | `s[:n]` is the prefix of length `n`, or all of `s` when shorter |
| Text.ParseIntToString | semantic-model-dax/dax_query.py:182 | `int(str(i)) == i` for every integer |
| Text.NatToStringValue | semantic-model-dax/dax_query.py:182 | the decimal digits of `n` read back as `n` |
| Text.ParsePlain | semantic-model-dax/dax_query.py:182 | `int()` of a string of digits is their decimal value |
| Text.ParseNegative | semantic-model-dax/dax_query.py:182 | `int()` of `-` and digits is minus their decimal value |
| Text.Strip | data-agent-spn/fabric_agent.py:218 | never longer than the line, and a non-empty result neither starts nor ends with whitespace |
| Text.Split | mcp-client/mcp_client.py:90 | at least one piece, and no piece contains the separator |
| Text.Join | semantic-model-dax/dax_query.py:117 | joining no pieces gives the empty string, and joining one gives that piece |
| Text.NatToString | semantic-model-dax/dax_query.py:118 | `str(n)` has at least one character, all decimal digits |
| Text.ParseInt | semantic-model-dax/dax_query.py:182 | definition only: `int(s)` in base 10, `None` for a `ValueError`; stated by ParsePlain, ParseNegative and ParseIntToString |
| FabricAgent.WithApiVersion | data-agent-spn/fabric_agent.py:113-114 | `api-version` is set to `2024-05-01-preview` and every other query key keeps its value |
| FabricAgent.FabricOpenAI.constructor | data-agent-spn/fabric_agent.py:111-120 | the client keeps the token and base URL, and its default query is the given one (or empty) with the API version pinned |
| FabricAgent.PreparedHeaders | data-agent-spn/fabric_agent.py:122-131 | Authorization is always `Bearer <token>`; Accept and ActivityId keep a caller's value, else default to `application/json` and a fresh id; every other header is kept and none is added |
| FabricAgent.FabricOpenAI.PrepareOptions | data-agent-spn/fabric_agent.py:122-132 | the request's headers become exactly the prepared headers of the old ones, and nothing but the options object changes |
| FabricAgent.RequestOptions.constructor | data-agent-spn/fabric_agent.py:122-126 | the request options hold the given headers, or none |
| FabricAgent.TextParts | data-agent-spn/fabric_agent.py:175 | at most one part per block, and none iff no block has text |
| FabricAgent.TextPartsAppend | data-agent-spn/fabric_agent.py:175 | the text parts of concatenated blocks are the concatenated parts |
| FabricAgent.FirstAnswer | data-agent-spn/fabric_agent.py:173-177 | the index found is an assistant message with text parts and no earlier message is one; none is found iff no message is one |
| FabricAgent.ReplyIsFirstAnswer | data-agent-spn/fabric_agent.py:173-177 | the reply is the newline-joined text parts of the first answering message |
| FabricAgent.SingleBlockReply | data-agent-spn/fabric_agent.py:173-177 | a user message followed by an assistant message with one non-text and one text block replies with that text |
| FabricAgent.NoAnswerNoResponse | data-agent-spn/fabric_agent.py:179 | with no answering message the reply is `[No response from agent]` |
| FabricAgent.Reply | data-agent-spn/fabric_agent.py:170-179 | definition only: the joined text parts of the first answering message, or `[No response from agent]`; stated by ReplyIsFirstAnswer and NoAnswerNoResponse |
| FabricAgent.ExtractReply | data-agent-spn/fabric_agent.py:170-179 | the nested message/block loops return exactly the specified reply |
| FabricAgent.Elapsed | data-agent-spn/fabric_agent.py:156-160 | after `k` status requests at least `2k` ticks have passed |
| FabricAgent.Observed | data-agent-spn/fabric_agent.py:148-162 | definition only: the status of the created run, then of each `retrieve` in turn |
| FabricAgent.StatusMessage | data-agent-spn/fabric_agent.py:166-167 | definition only: `[ERROR] Run finished with status: <status>` |
| FabricAgent.Poll | data-agent-spn/fabric_agent.py:153-163 | every status seen before the end was non-terminal and seen within 300 ticks; polling finishes on a terminal status, fails with the service's exception, or times out on a non-terminal status after more than 300 ticks |
| FabricAgent.RetrievesBounded | data-agent-spn/fabric_agent.py:154-163 | polling makes at most 151 status requests, whatever the service does |
| FabricAgent.TerminalAtOnce | data-agent-spn/fabric_agent.py:153-155 | a run created in a terminal state needs no status request |
| FabricAgent.TryBody | data-agent-spn/fabric_agent.py:144-179 | the body of the `try` never creates or deletes anything |
| FabricAgent.AskSpec | data-agent-spn/fabric_agent.py:139-185 | definition only: the answer and calls of `ask_agent`; stated by TeardownExactlyOnce, DeleteOutcomeIgnored, AskRetrieves and the run-outcome lemmas |
| FabricAgent.TeardownExactlyOnce | data-agent-spn/fabric_agent.py:139-185 | once assistant and thread exist, the thread is deleted exactly once and last, on every path; if either creation fails nothing is deleted |
| FabricAgent.DeleteOutcomeIgnored | data-agent-spn/fabric_agent.py:181-185 | a failing deletion changes neither the answer nor the calls made |
| FabricAgent.AskRetrievesBounded | data-agent-spn/fabric_agent.py:152-163 | one question makes at most 151 status requests |
| FabricAgent.TryBodyRetrieves | data-agent-spn/fabric_agent.py:144-163 | the status requests of the `try` body are those of polling once the message is posted, and none when posting fails |
| FabricAgent.AskRetrieves | data-agent-spn/fabric_agent.py:139-163 | a question makes the status requests of polling when the assistant, thread and message were all created, and none otherwise |
| FabricAgent.NoPollingWhenTerminal | data-agent-spn/fabric_agent.py:153-155 | a run created in a terminal state is never polled |
| FabricAgent.FailedRunReported | data-agent-spn/fabric_agent.py:166-167 | a run ending in another terminal status returns `[ERROR] Run finished with status: <status>` without listing messages |
| FabricAgent.CompletedRunReplies | data-agent-spn/fabric_agent.py:166-179 | a completed run returns the reply drawn from the listed messages |
| FabricAgent.TimeoutReported | data-agent-spn/fabric_agent.py:155-158 | a timeout returns the timeout message after more than 300 ticks, and every request made before it was made within 300 ticks |
| FabricAgent.QueuedThenCompleted | data-agent-spn/fabric_agent.py:139-185 | queued, in progress twice, then completed: three status requests, the calls in order, the thread deleted, and the reply "42" |
| FabricAgent.RunThread | data-agent-spn/fabric_agent.py:144-179 | the polling loop's result and calls are those of the specified `try` body |
| FabricAgent.AskAgent | data-agent-spn/fabric_agent.py:139-185 | `ask_agent`'s result and the calls it makes are exactly the specified ones |
| FabricAgent.AgentLine | data-agent-spn/fabric_agent.py:230-234 | an answer is printed as is, and an exception as `[ERROR] <text>` |
| FabricAgent.Transcript | data-agent-spn/fabric_agent.py:215-234 | one printed line per asked question |
| FabricAgent.TranscriptAt | data-agent-spn/fabric_agent.py:228-234 | the `i`-th printed line is the answer to the `i`-th question |
| FabricAgent.TranscriptStep | data-agent-spn/fabric_agent.py:215-234 | one more question appends exactly its own line |
| FabricAgent.AnswerQuestion | data-agent-spn/fabric_agent.py:228-234 | one loop step puts the question to the next session and appends its answer or its `[ERROR]` line |
| FabricAgent.Conversation | data-agent-spn/fabric_agent.py:215-234 | the question loop prints the transcript of exactly the filtered questions |
| McpClient.Headers | mcp-client/mcp_client.py:75-79 | exactly Authorization (bearer), Content-Type and Accept (both JSON) |
| McpClient.Envelope | mcp-client/mcp_client.py:80-82 | the request object has four members when params are truthy, three otherwise |
| McpClient.EnvelopeShape | mcp-client/mcp_client.py:80-82 | `jsonrpc` is "2.0", `id` and `method` are the given ones, and `params` is present iff truthy and then equal to the given params |
| McpClient.InitParams | mcp-client/mcp_client.py:125-129 | definition only: protocol version `2024-11-05`, empty capabilities, and the client name and version |
| McpClient.CallParams | mcp-client/mcp_client.py:181-184 | definition only: the tool name and `arguments.userQuestion`; stated by CallEnvelope |
| McpClient.CallEnvelope | mcp-client/mcp_client.py:181-184 | a `tools/call` request always carries params: the tool name and `arguments.userQuestion` |
| McpClient.Payloads | mcp-client/mcp_client.py:90-96 | one decoded payload, or none, per stream line |
| McpClient.IsEventStream | mcp-client/mcp_client.py:86-87 | definition only: `text/event-stream` occurs anywhere in the Content-Type, a missing header reading as empty |
| McpClient.DataPayload | mcp-client/mcp_client.py:90-96 | only a line that strips to a `data:` line carries a payload: its stripped rest, decoded |
| McpClient.StreamResult | mcp-client/mcp_client.py:89-97 | definition only: the last payload of the lines, or `{}`; stated by LastPayloadWins and NoPayloadEmpty |
| McpClient.LastAt | mcp-client/mcp_client.py:89-97 | the position found holds a payload with none after it, and none is found iff no line has one |
| McpClient.LastStep | mcp-client/mcp_client.py:92-96 | a new payload replaces the result, and a line without one keeps it |
| McpClient.LastPrefixStep | mcp-client/mcp_client.py:90-96 | reading one more line: its payload, if any, becomes the result, and otherwise the result stays |
| McpClient.LastWins | mcp-client/mcp_client.py:89-97 | the last payload present is the result |
| McpClient.LastPayloadWins | mcp-client/mcp_client.py:89-97 | the last decodable `data:` line of the stream is the result |
| McpClient.NoPayloadEmpty | mcp-client/mcp_client.py:89 | a stream without a decodable `data:` line yields `{}` |
| McpClient.Decode | mcp-client/mcp_client.py:86-100 | an event stream is parsed whatever the status; otherwise an error status raises HTTPError and an OK status is decoded as JSON |
| McpClient.Exchange | mcp-client/mcp_client.py:84-100 | a transport failure raises, and a delivered response is decoded as above |
| McpClient.ReadEventStream | mcp-client/mcp_client.py:89-97 | the line loop computes exactly the specified stream result |
| McpClient.McpRequest | mcp-client/mcp_client.py:72-100 | the payload posted is the envelope, sent with the headers, and the result is the exchange of what the server delivered |
| McpClient.BlockLine | mcp-client/mcp_client.py:192-193 | a block prints at most one line, and raises iff it is not a dict |
| McpClient.TextBlocks | mcp-client/mcp_client.py:191-193 | no more lines than blocks, and no exception iff every block is a dict |
| McpClient.TextBlocksAppend | mcp-client/mcp_client.py:191-193 | the blocks are printed in order, each after the ones before it |
| McpClient.ContentWins | mcp-client/mcp_client.py:188-193 | for any response whose `result.content` is a non-empty list, the printed lines are exactly those of its blocks, whatever `error` holds and wherever it stands |
| McpClient.ErrorReported | mcp-client/mcp_client.py:188-196 | whenever the content is falsy (missing, `null`, `[]`, `""`, `{}`, ...) and `error` is present: a dict error prints `[ERROR]` and its `message`, or the whole error when it has none; an error that is not a dict raises on `.get` |
| McpClient.NoResponseWithoutContent | mcp-client/mcp_client.py:188-198 | whenever the content is falsy and there is no `error`, the answer is `[No response from agent]`, whatever else `result` holds |
| McpClient.EmptyNoResponse | mcp-client/mcp_client.py:188-198 | the empty response `{}` prints `[No response from agent]` |
| McpClient.EmptyStreamNoResponse | mcp-client/mcp_client.py:89-97 | an event stream without a decodable `data:` line answers `[No response from agent]`, and raises nothing |
| McpClient.Answer | mcp-client/mcp_client.py:188-198 | a response that is not a dict raises on `.get`; the three branches of the extraction are the lemmas ContentWins, ErrorReported and NoResponseWithoutContent |
| McpClient.TextBlockLine | mcp-client/mcp_client.py:192-193 | a text block prints its text |
| McpClient.OtherBlockSilent | mcp-client/mcp_client.py:192 | a block of any other type prints nothing |
| McpClient.TextBlocksOnePerLine | mcp-client/mcp_client.py:190-193 | text blocks print one line each, in order, not concatenated |
| McpClient.ServerBanner | mcp-client/mcp_client.py:131-133 | the banner succeeds iff the response, its `result` and its `serverInfo` (each read with the `{}` default) are dicts, and a non-dict response raises on `.get`; it is then the `Server: <name> v<version>` line and the `Protocol: <protocolVersion>` line, with `?` for each missing field |
| McpClient.BannerPlaceholders | mcp-client/mcp_client.py:131-133 | a response that describes nothing prints `Server: ? v?` and `Protocol: ?` |
| McpClient.SelectTool | mcp-client/mcp_client.py:142-147 | a falsy tool list stops the session; otherwise the first tool's name, or `""` |
| McpClient.ToolsOf | mcp-client/mcp_client.py:142 | definition only: `result.tools`, each level defaulting when missing |
| McpClient.ToolListing | mcp-client/mcp_client.py:148-155 | a tool list prints `Found <len> tool(s):` and then the entries of all its tools, in order |
| McpClient.ToolEntries | mcp-client/mcp_client.py:149-155 | definition only: each tool's entry, one after another; stated by ToolEntriesAppend and ToolEntriesCons |
| McpClient.ToolEntriesAppend | mcp-client/mcp_client.py:149-155 | the tools are listed in order: the entries of `a + b` are those of `a` then those of `b`, and an exception while listing `a` ends the listing before `b` |
| McpClient.ToolEntriesCons | mcp-client/mcp_client.py:149-155 | the first tool is listed first, then the rest, unless its entry raised |
| McpClient.ToolEntry | mcp-client/mcp_client.py:149-155 | a dict tool first prints its name (`?` when missing), and anything else raises on `.get` |
| McpClient.ParamLine | mcp-client/mcp_client.py:154-155 | definition only: the parameter's name, type (`?` when missing) and label |
| McpClient.RequiredLabel | mcp-client/mcp_client.py:154 | a parameter is labelled required iff the schema's `required` list names it, and optional otherwise |
| McpClient.ParamLines | mcp-client/mcp_client.py:153-155 | nothing raises iff every property's line can be made; then there is one line per property, and line `i` is the `param:` line of the `i`-th property |
| McpClient.RequiredQuestion | mcp-client/mcp_client.py:154 | a schema requiring `userQuestion` labels it required and labels `context` optional |
| McpClient.TurnLines | mcp-client/mcp_client.py:179-200 | a failed call prints `[ERROR] <text>`; a returned call prints its answer |
| McpClient.NextIdCounts | mcp-client/mcp_client.py:164-185 | the next id is 3 plus the number of calls that returned normally |
| McpClient.NextId | mcp-client/mcp_client.py:164-185 | definition only: 3, plus one per call that returned; stated by NextIdCounts and ChatIds |
| McpClient.ChatTurns | mcp-client/mcp_client.py:164-185 | one exchange per question |
| McpClient.ChatTurnsStep | mcp-client/mcp_client.py:180-185 | a question is posted with the current id as a `tools/call`, as the next POST |
| McpClient.ChatTurnsPrefix | mcp-client/mcp_client.py:164-185 | the turns of the first `m` questions are the first `m` turns: an exchange never depends on a later question |
| McpClient.ChatTurnAt | mcp-client/mcp_client.py:180-185 | the `i`-th question is posted as a `tools/call` with the id after the earlier turns, as POST `2+i` |
| McpClient.ChatIds | mcp-client/mcp_client.py:164-185 | the `i`-th question uses id 3 plus the earlier returned calls, is the `(2+i)`-th POST, and the id advances by one exactly after a call that returned |
| McpClient.CallTool | mcp-client/mcp_client.py:179-185 | one loop step extends the exchanges by this question and keeps the id and POST counters in step |
| McpClient.Chat | mcp-client/mcp_client.py:164-200 | the chat loop makes exactly the specified exchanges for the filtered questions |
| McpClient.CallPayloads | mcp-client/mcp_client.py:181-184 | the payloads posted, one per exchange |
| McpClient.AfterList | mcp-client/mcp_client.py:140-164 | after `tools/list`, nothing more is posted unless chatting, and then exactly the call payloads |
| McpClient.SessionSpec | mcp-client/mcp_client.py:125-164 | `initialize` with id 1 is posted first, then `tools/list` with id 2; no tools means exactly those two POSTs; otherwise the call payloads follow |
| McpClient.OpeningShape | mcp-client/mcp_client.py:125-140 | the opening requests carry ids 1 and 2 and their method names, and `tools/list` has no `params` (its `{}` is falsy) |
| McpClient.SessionShape | mcp-client/mcp_client.py:125-185 | the ids and methods of the posted requests, and the `i`-th question as the `(2+i)`-th POST |
| McpClient.Discover | mcp-client/mcp_client.py:140-164 | the listing step computes exactly the specified continuation |
| McpClient.RunSession | mcp-client/mcp_client.py:125-200 | the whole session computes exactly the specified POSTs and ending |
| DaxQuery.DaxBody | semantic-model-dax/dax_query.py:101 | the body holds exactly one query, the DAX text |
| DaxQuery.ListCall | semantic-model-dax/dax_query.py:85-88 | definition only: the GET of the workspace's datasets with the bearer token |
| DaxQuery.ExecuteCall | semantic-model-dax/dax_query.py:95-102 | definition only: the POST to the dataset's `executeQueries` with the bearer token, JSON content type and the DAX body |
| DaxQuery.ListDatasets | semantic-model-dax/dax_query.py:83-90 | HTTP and decoding failures propagate; a dict body gives its `value`, or `[]` |
| DaxQuery.ColumnsOf | semantic-model-dax/dax_query.py:116 | the columns are the first row's keys, in order |
| DaxQuery.Cells | semantic-model-dax/dax_query.py:122 | one cell per column: the row's value as `str`, or `""` when missing |
| DaxQuery.RowLines | semantic-model-dax/dax_query.py:120-123 | the row lines raise nothing iff every row's line can be made; then there is one line per row, and line `i` is row `i`'s line |
| DaxQuery.RowLine | semantic-model-dax/dax_query.py:122-123 | a dict row prints its cells joined with ` | `; it raises iff it is not a dict and there are columns |
| DaxQuery.RowsOf | semantic-model-dax/dax_query.py:111 | definition only: the rows of the first table, `[{}]` standing in for missing tables; stated by MissingTablesNoRows and FirstTableOnly |
| DaxQuery.RowsLines | semantic-model-dax/dax_query.py:112-125 | definition only: the lines of one table's rows; stated by RowsLinesShape and RowsRendered |
| DaxQuery.TableLines | semantic-model-dax/dax_query.py:111-125 | definition only: the lines of one entry of `results`; stated by FirstTableOnly, MissingTablesNoRows and EmptyRowsNoRows |
| DaxQuery.TablesLines | semantic-model-dax/dax_query.py:109-110 | an empty `results` list prints nothing; the loop over the entries is stated by TablesLinesAppend |
| DaxQuery.TablesLinesAppend | semantic-model-dax/dax_query.py:109-125 | the entries of `results` print one after another in order: the lines of `a + b` are those of `a` then those of `b`, and an exception while printing `a` ends the output before `b` |
| DaxQuery.TablesLinesCons | semantic-model-dax/dax_query.py:110-125 | the first entry prints first, then the rest, unless printing it raised |
| DaxQuery.RenderResult | semantic-model-dax/dax_query.py:107-110 | a result without `results` prints nothing; a result that is not a dict raises on `.get` |
| DaxQuery.FirstTableOnly | semantic-model-dax/dax_query.py:111 | only the first of the `tables` is printed |
| DaxQuery.MissingTablesNoRows | semantic-model-dax/dax_query.py:111-114 | a result without `tables` prints `(no rows returned)` |
| DaxQuery.EmptyRowsNoRows | semantic-model-dax/dax_query.py:112-114 | an empty row list prints `(no rows returned)` |
| DaxQuery.Shown | semantic-model-dax/dax_query.py:121 | the rows shown are all of them or twenty, whichever is fewer |
| DaxQuery.RowsLinesShape | semantic-model-dax/dax_query.py:115-125 | the render is the columns line, the count and a blank line, the shown rows, then the overflow line |
| DaxQuery.DataLines | semantic-model-dax/dax_query.py:121-123 | dict rows print one line each, one cell per column |
| DaxQuery.RowsLinesOfDicts | semantic-model-dax/dax_query.py:115-125 | when the shown rows (at most twenty) are dicts, the rows print without an exception: the columns line, the full row count, a blank line, one line per shown row, then the overflow line |
| DaxQuery.DictRowAt | semantic-model-dax/dax_query.py:120-123 | the `j`-th of the first `n` rows, all dicts, prints as its own cells under the columns |
| DaxQuery.ShownRow | semantic-model-dax/dax_query.py:115-123 | when the shown rows are dicts, line `3+j` of the output is the `j`-th row, with one cell per column of the first row |
| DaxQuery.RowsRendered | semantic-model-dax/dax_query.py:115-125 | rows whose first twenty are dicts (later rows are never read): the columns are the first row's keys, the count is the full number, at most twenty rows are printed, and the overflow line appears iff there are more than twenty |
| DaxQuery.Tail | semantic-model-dax/dax_query.py:124-125 | at most one overflow line, printed iff there are more than twenty rows |
| DaxQuery.SingleResult | semantic-model-dax/dax_query.py:109-111 | a one-table result renders as that table |
| DaxQuery.DatasetLine | semantic-model-dax/dax_query.py:172 | a dataset prints iff it is a dict with a `name` and an `id` |
| DaxQuery.DatasetLines | semantic-model-dax/dax_query.py:171-172 | definition only: the numbered listing, up to the first dataset that raises; stated by ListingStops |
| DaxQuery.ListingStops | semantic-model-dax/dax_query.py:171-172 | the listing stops with `KeyError('name')` at the first dataset without a name |
| DaxQuery.Choose | semantic-model-dax/dax_query.py:167-185 | there are no models to choose from iff the dataset list is falsy |
| DaxQuery.SelectSingle | semantic-model-dax/dax_query.py:176-178 | a single dataset is chosen whatever `int()` made of the typed index, a `ValueError` included |
| DaxQuery.Select | semantic-model-dax/dax_query.py:180-185 | definition only: the selection for the typed line, read by `int()`; stated by SelectIndex |
| DaxQuery.ChooseIndex | semantic-model-dax/dax_query.py:180-185 | with `n >= 2` datasets and the integer `k`: item `k-1` for `1 <= k <= n`, item `k-1+n` for `1-n <= k <= 0`, and an invalid selection for any other `k` |
| DaxQuery.SelectIndex | semantic-model-dax/dax_query.py:180-185 | typing the number `k` selects as `datasets[k - 1]` does in Python |
| DaxQuery.SelectZeroIsLast | semantic-model-dax/dax_query.py:182 | an index `int()` reads as `0` selects the last dataset |
| DaxQuery.SelectNotNumber | semantic-model-dax/dax_query.py:181-185 | with two or more datasets, an index `int()` rejects is an invalid selection |
| DaxQuery.ErrorCode | semantic-model-dax/dax_query.py:216 | an error body without `error` has code `""` |
| DaxQuery.HttpErrorLines | semantic-model-dax/dax_query.py:213-224 | definition only: the lines printed for an HTTPError; stated by ErrorClassified and UnreadableError |
| DaxQuery.ErrorClassified | semantic-model-dax/dax_query.py:215-222 | the authorization hint is printed iff the code is `PowerBINotAuthorizedException`; any other code prints with at most 500 characters of the serialized body |
| DaxQuery.UnreadableError | semantic-model-dax/dax_query.py:214-224 | a body that is not JSON, or not a dict, prints the HTTPError itself |
| DaxQuery.QueryErrors | semantic-model-dax/dax_query.py:209-226 | an error status leads to the classification, and a transport failure prints its own text |
| DaxQuery.QueryLines | semantic-model-dax/dax_query.py:209-226 | definition only: what one query prints; stated by QueryErrors and RunQuery |
| DaxQuery.QueryReplier | semantic-model-dax/dax_query.py:195-226 | definition only: what call `k` prints for a query, against the selected dataset; stated by QueryErrors and RunQuery |
| DaxQuery.Replies | semantic-model-dax/dax_query.py:195-226 | one reply per query |
| DaxQuery.RepliesAt | semantic-model-dax/dax_query.py:195-226 | the reply to the `i`-th query is what call `1+i` prints for it |
| DaxQuery.RepliesStep | semantic-model-dax/dax_query.py:195-226 | one more question appends exactly its own reply |
| DaxQuery.AnswerQuery | semantic-model-dax/dax_query.py:209-226 | one loop step appends exactly the reply to this query, as the next call |
| DaxQuery.RunQuery | semantic-model-dax/dax_query.py:209-226 | one query step prints exactly the specified lines |
| DaxQuery.QueryLoop | semantic-model-dax/dax_query.py:195-226 | the loop prints the replies to exactly the filtered queries |
| Connectivity.ApiGet | api-connectivity/test_connectivity.py:64-68 | definition only: the bearer-token GET, checked and decoded as Http.CheckedJson states |
| Connectivity.Listing | api-connectivity/test_connectivity.py:99-104 | check 2 passing means the body was a dict, and the list is its `value`, or `[]` |
| Connectivity.ListingOfDicts | api-connectivity/test_connectivity.py:99-104 | a `value` list of dicts passes check 2 |
| Connectivity.ListingWithoutValue | api-connectivity/test_connectivity.py:100 | no `value` passes with an empty list |
| Connectivity.ItemsUrl | api-connectivity/test_connectivity.py:96 | definition only: `<base>/workspaces/<id>/items` |
| Connectivity.ItemUrl | api-connectivity/test_connectivity.py:113 | definition only: the items URL followed by `/` and the item id as `str` writes it |
| Connectivity.ItemLine | api-connectivity/test_connectivity.py:103 | definition only: the item's display name and type, `?` when missing |
| Connectivity.Listed | api-connectivity/test_connectivity.py:96-104 | definition only: the GET of the items URL, then the listing; stated by Listing and RunChecks |
| Connectivity.ItemId | api-connectivity/test_connectivity.py:112-113 | definition only: `items[0]["id"]` |
| Connectivity.DetailFields | api-connectivity/test_connectivity.py:117-119 | the three `detail.get` reads succeed iff the item's body is a dict, and otherwise the first raises on `.get` |
| Connectivity.Detail | api-connectivity/test_connectivity.py:112-120 | passing check 3 means the first item had an `id` and the GET of its URL returned a dict |
| Connectivity.RunChecks | api-connectivity/test_connectivity.py:71-130 | all three keys are recorded; a failed token stops everything with no request; `list_items` passes iff the GET and listing succeed; `get_item` is skipped iff the list is empty, and passes iff the item GET and its prints succeed; check 3 passes only after check 2; the item GET is made iff check 2 passed with a non-empty list whose first item has an `id`, and its URL is that item's |
| Connectivity.Mark | api-connectivity/test_connectivity.py:146-153 | PASS iff the value is true, SKIP iff it is absent or None, FAIL iff it is false |
| Connectivity.Status | api-connectivity/test_connectivity.py:146 | definition only: `results.get(key)` |
| Connectivity.Passed | api-connectivity/test_connectivity.py:155 | definition only: the number of checks whose value is true; stated by Tally |
| Connectivity.Total | api-connectivity/test_connectivity.py:156 | definition only: the number of checks whose value is not None; stated by Tally |
| Connectivity.Tally | api-connectivity/test_connectivity.py:155-156 | no more checks pass than ran, and no more ran than there are |
| Connectivity.TallyAfterChecks | api-connectivity/test_connectivity.py:155-158 | after the checks, `passed <= total <= 3` |
| Connectivity.SummaryLines | api-connectivity/test_connectivity.py:133-159 | ten lines, one mark per check in the fixed label order, and the `passed/total` line |
| Connectivity.TokenFailureSummary | api-connectivity/test_connectivity.py:81-89 | without a token all three checks fail and the summary reads `0/3` |
| Connectivity.EmptyWorkspaceSummary | api-connectivity/test_connectivity.py:123-125 | an empty workspace reads `2/2` with check 3 skipped |

## Left out

- Token acquisition is not modelled: `get_config`, `get_token`, `auth_spn`, `auth_interactive` and reading `.env`. All of them depend on an identity service, so the token is a parameter; for the connectivity test only whether it was obtained matters.
- Console output that does not depend on the data is not modelled: banners, prompts, the progress dots and spaces while polling, the `Agent: ` prefix, `Goodbye.`, the blank line printed at the top of each loop, and the `GET`, `Found n item(s)` and `FAILED` lines of the connectivity test. The item lines are modelled only for the exceptions they can raise.
- The order in which each `main` runs its steps is not a member of the model. That covers authenticating, building the URL, listing datasets and then selecting, printing the tool list and then chatting. Each step is modelled separately: `ListDatasets`, `DatasetLines`, `Select`, `QueryLoop`, `ToolListing`, `Chat`, `RunSession`.
- The DAX client's exit when the workspace id is empty (a `SystemExit` at `semantic-model-dax/dax_query.py:156-158`) is left out because it is console interaction.
- `KeyboardInterrupt` at a prompt counts as end of input, as the code treats it: the loop ends. Input is the finite sequence of lines typed.
- The SDK internals are outside the model: `super()._prepare_options` and the other keyword arguments of the OpenAI constructor. So are the `Omit` header values: a header map holds only strings.
- FabricAgent.FabricOpenAI.constructor: `kwargs.pop("default_query", {})` modifies the caller's dict in place; the model takes the query as a value, so that aliasing is not captured.
- Wall-clock time and `time.sleep` are replaced by a tick counter: each status request costs 2 ticks plus its latency. Floating-point seconds are not modelled.
- `json.loads` and `json.dumps(indent=2)` are abstract functions. A JSON float is carried as its `str()` text. A decoded object is assumed to have distinct keys; `Lookup` takes the first entry with a key.
- Py.Quote: `repr` of a string is the string in single quotes; Python's escaping of quotes, backslashes and control characters is not modelled.
- Text.Lower: only ASCII letters are case-mapped. Text.ParseInt accepts only ASCII digits, not the other Unicode digits Python's `int()` takes.
- `len(token)` in the connectivity test's message is not modelled; the token is a string.
- Concurrency does not arise: every script is single-threaded.

