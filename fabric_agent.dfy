/** The Fabric Data Agent client: an OpenAI Assistants-compatible endpoint
    queried with a service principal's bearer token.

    The remote service is a `Script`: what each SDK call answers, fixed in
    advance. The wall clock is a tick counter, advanced by the 2-tick sleep
    and by the time each status request takes. `AskSpec` says what one
    question does (the calls made and the answer or exception returned);
    `AskAgent` is the loop that does it. */
module FabricAgent {
  import opened Wrappers
  import opened Text
  import opened Py
  import Http
  import Console

  // ---------------------------------------------------------------------
  // Client configuration: the default query and the per-request headers
  // ---------------------------------------------------------------------

  const ApiVersionKey := "api-version"
  const ApiVersion := "2024-05-01-preview"

  /** The default query the client is built with: the caller's query with
      `api-version` forced to the preview version. */
  function WithApiVersion(query: map<string, string>): (r: map<string, string>)
    ensures ApiVersionKey in r && r[ApiVersionKey] == ApiVersion
    ensures forall k :: k != ApiVersionKey ==> (k in r <==> k in query)
    ensures forall k :: k in query && k != ApiVersionKey ==> r[k] == query[k]
  {
    query[ApiVersionKey := ApiVersion]
  }

  /** The headers a request carries once the client has prepared it: the
      bearer token replaces any Authorization header, Accept and ActivityId
      are filled in only when the caller did not set them, and every other
      header is passed through. `None` is a request without headers. */
  function PreparedHeaders(given: Option<map<string, string>>, token: string, activityId: string): (r: map<string, string>)
    ensures "Authorization" in r && r["Authorization"] == "Bearer " + token
    ensures "Accept" in r && "ActivityId" in r
    ensures given.Some? && "Accept" in given.value ==> r["Accept"] == given.value["Accept"]
    ensures (given.None? || "Accept" !in given.value) ==> r["Accept"] == "application/json"
    ensures given.Some? && "ActivityId" in given.value ==> r["ActivityId"] == given.value["ActivityId"]
    ensures (given.None? || "ActivityId" !in given.value) ==> r["ActivityId"] == activityId
    ensures forall k :: k != "Authorization" && k != "Accept" && k != "ActivityId" ==>
              (k in r <==> given.Some? && k in given.value)
    ensures forall k :: given.Some? && k in given.value && k != "Authorization" && k != "Accept" && k != "ActivityId" ==>
              r[k] == given.value[k]
  {
    var h := given.GetOr(map[]);
    var h := h["Authorization" := Http.Bearer(token)];
    var h := if "Accept" in h then h else h["Accept" := "application/json"];
    if "ActivityId" in h then h else h["ActivityId" := activityId]
  }

  /** The options of one outgoing request; only its headers are modelled. */
  class RequestOptions {
    var headers: Option<map<string, string>>

    constructor (headers: Option<map<string, string>>)
      ensures this.headers == headers
    {
      this.headers := headers;
    }
  }

  /** The OpenAI client subclass that authenticates with a bearer token. */
  class FabricOpenAI {
    const accessToken: string
    const baseUrl: string
    var defaultQuery: map<string, string>

    constructor (accessToken: string, baseUrl: string, defaultQuery: Option<map<string, string>>)
      ensures this.accessToken == accessToken && this.baseUrl == baseUrl
      ensures this.defaultQuery == WithApiVersion(defaultQuery.GetOr(map[]))
    {
      this.accessToken := accessToken;
      this.baseUrl := baseUrl;
      var query := defaultQuery.GetOr(map[]);
      query := query[ApiVersionKey := ApiVersion];
      this.defaultQuery := query;
    }

    /** Rewrites the request's headers in place before it is sent;
        `activityId` is the fresh UUID drawn for the request. */
    method PrepareOptions(options: RequestOptions, activityId: string)
      modifies options
      ensures options.headers == Some(PreparedHeaders(old(options.headers), accessToken, activityId))
    {
      var headers := options.headers.GetOr(map[]);
      options.headers := Some(headers);
      headers := headers["Authorization" := "Bearer " + accessToken];
      if "Accept" !in headers {
        headers := headers["Accept" := "application/json"];
      }
      if "ActivityId" !in headers {
        headers := headers["ActivityId" := activityId];
      }
      options.headers := Some(headers);
    }
  }

  // ---------------------------------------------------------------------
  // Messages and the reply
  // ---------------------------------------------------------------------

  /** A content block of a thread message: a text block, or anything else
      (an image, a file) without a `text` attribute. */
  datatype Block = TextBlock(value: string) | OtherBlock

  datatype Message = Message(role: string, content: seq<Block>)

  /** The values of the text blocks, in content order. */
  function TextParts(content: seq<Block>): (parts: seq<string>)
    ensures |parts| <= |content|
    ensures parts == [] <==> forall i :: 0 <= i < |content| ==> !content[i].TextBlock?
  {
    if content == [] then []
    else
      var rest := TextParts(content[1..]);
      assert forall i :: 0 < i < |content| ==> content[i] == content[1..][i - 1];
      if content[0].TextBlock? then [content[0].value] + rest else rest
  }

  lemma {:induction false} TextPartsAppend(a: seq<Block>, b: seq<Block>)
    ensures TextParts(a + b) == TextParts(a) + TextParts(b)
  {
    if a != [] {
      assert (a + b)[1..] == a[1..] + b;
      TextPartsAppend(a[1..], b);
    } else {
      assert a + b == b;
    }
  }

  /** The messages a reply may be taken from. */
  predicate Answers(m: Message)
  {
    m.role == "assistant" && m.content != [] && TextParts(m.content) != []
  }

  /** The position of the first message the reply is taken from. */
  function FirstAnswer(msgs: seq<Message>): (r: Option<nat>)
    ensures r.Some? ==> r.value < |msgs| && Answers(msgs[r.value])
    ensures r.Some? ==> forall j :: 0 <= j < r.value ==> !Answers(msgs[j])
    ensures r.None? <==> forall j :: 0 <= j < |msgs| ==> !Answers(msgs[j])
  {
    if msgs == [] then None
    else if Answers(msgs[0]) then Some(0)
    else
      var r := FirstAnswer(msgs[1..]);
      assert forall j :: 0 < j < |msgs| ==> msgs[j] == msgs[1..][j - 1];
      match r
      case None => None
      case Some(i) => Some(i + 1)
  }

  const NoResponse := "[No response from agent]"

  /** The answer made from the thread's messages, in ascending order. */
  function Reply(msgs: seq<Message>): string
  {
    match FirstAnswer(msgs)
    case Some(i) => Join(TextParts(msgs[i].content), "\n")
    case None => NoResponse
  }

  /** The reply is the joined text of the first message that answers;
      messages before it, even assistant ones, are skipped. */
  lemma ReplyIsFirstAnswer(msgs: seq<Message>, i: nat)
    requires i < |msgs| && Answers(msgs[i])
    requires forall j :: 0 <= j < i ==> !Answers(msgs[j])
    ensures Reply(msgs) == Join(TextParts(msgs[i].content), "\n")
  {
    assert FirstAnswer(msgs).Some?;
  }

  /** A single text block is the reply verbatim. */
  lemma SingleBlockReply(msgs: seq<Message>, text: string)
    requires msgs == [Message("user", [TextBlock("question")]), Message("assistant", [OtherBlock, TextBlock(text)])]
    ensures Reply(msgs) == text
  {
    assert !Answers(msgs[0]);
    assert TextParts(msgs[1].content) == [text] by {
      assert msgs[1].content[1..] == [TextBlock(text)];
    }
  }

  /** The `for m in messages` loop that builds the reply. */
  method ExtractReply(msgs: seq<Message>) returns (answer: string)
    ensures answer == Reply(msgs)
  {
    for i := 0 to |msgs|
      invariant forall j :: 0 <= j < i ==> !Answers(msgs[j])
    {
      var m := msgs[i];
      if m.role == "assistant" && m.content != [] {
        var parts := [];
        for b := 0 to |m.content|
          invariant parts == TextParts(m.content[..b])
        {
          TextPartsAppend(m.content[..b], [m.content[b]]);
          assert m.content[..b + 1] == m.content[..b] + [m.content[b]];
          if m.content[b].TextBlock? {
            parts := parts + [m.content[b].value];
          }
        }
        assert m.content[..|m.content|] == m.content;
        if parts != [] {
          ReplyIsFirstAnswer(msgs, i);
          return Join(parts, "\n");
        }
      }
    }
    NoAnswerNoResponse(msgs);
    answer := NoResponse;
  }

  /** Without a message that answers, the reply is the no-response marker. */
  lemma NoAnswerNoResponse(msgs: seq<Message>)
    requires forall j :: 0 <= j < |msgs| ==> !Answers(msgs[j])
    ensures Reply(msgs) == NoResponse
  {
  }

  // ---------------------------------------------------------------------
  // The polling state machine
  // ---------------------------------------------------------------------

  const Terminal: set<string> := {"completed", "failed", "cancelled", "requires_action"}
  const PollInterval: nat := 2
  const TimeoutLimit: nat := 300
  /** The most status requests one run can take: each one is preceded by a
      2-tick sleep and made only while at most 300 ticks have passed. */
  const MaxRetrieves: nat := TimeoutLimit / PollInterval + 1

  const TimedOutMessage := "[ERROR] Timed out waiting for agent response."

  function StatusMessage(status: string): string
  {
    "[ERROR] Run finished with status: " + status
  }

  /** What the service answers to each call of one `ask_agent`: an
      exception, or the run status (`createRun` and the `k`-th
      `retrieve(k)`), or the thread's messages. `latency(k)` is the number of
      ticks the `k`-th status request takes beyond the sleep before it. The
      outcome of the thread deletion is part of the script so that the model
      can show it is ignored. */
  datatype Script = Script(
    createAssistant: Option<Exc>,
    createThread: Option<Exc>,
    postMessage: Option<Exc>,
    createRun: Outcome<string>,
    retrieve: nat -> Outcome<string>,
    latency: nat -> nat,
    listMessages: Outcome<seq<Message>>,
    deleteThread: Option<Exc>)

  /** The run status seen after `k` status requests. */
  function Observed(s: Script, k: nat): Outcome<string>
  {
    if k == 0 then s.createRun else s.retrieve(k - 1)
  }

  /** Clock ticks since polling started, read at the top of the loop after
      `k` status requests. */
  function Elapsed(s: Script, k: nat): (t: nat)
    ensures t >= PollInterval * k
  {
    if k == 0 then 0 else Elapsed(s, k - 1) + PollInterval + s.latency(k - 1)
  }

  /** How polling ends: with a terminal status, by running out of time, or
      with an exception from the service; each after `retrieves` status
      requests. */
  datatype PollEnd =
    | Finished(status: string, retrieves: nat)
    | TimedOut(retrieves: nat)
    | PollFailed(exc: Exc, retrieves: nat)

  /** Polling resumed after `k` status requests. */
  function Poll(s: Script, k: nat): (e: PollEnd)
    ensures e.retrieves >= k
    ensures forall j :: k <= j < e.retrieves ==>
              Elapsed(s, j) <= TimeoutLimit && Observed(s, j).Ok? && Observed(s, j).value !in Terminal
    ensures e.Finished? ==> Observed(s, e.retrieves) == Ok(e.status) && e.status in Terminal
    ensures e.PollFailed? ==> Observed(s, e.retrieves) == Raised(e.exc)
    ensures e.TimedOut? ==> Observed(s, e.retrieves).Ok? && Observed(s, e.retrieves).value !in Terminal
                            && Elapsed(s, e.retrieves) > TimeoutLimit
    decreases TimeoutLimit + 1 - Elapsed(s, k)
  {
    match Observed(s, k)
    case Raised(x) => PollFailed(x, k)
    case Ok(status) =>
      if status in Terminal then Finished(status, k)
      else if Elapsed(s, k) > TimeoutLimit then TimedOut(k)
      else Poll(s, k + 1)
  }

  /** However slow or stubborn the service, polling makes at most 151
      status requests. */
  lemma RetrievesBounded(s: Script)
    ensures Poll(s, 0).retrieves <= MaxRetrieves
  {
    var n := Poll(s, 0).retrieves;
    if n > 0 {
      assert Elapsed(s, n - 1) <= TimeoutLimit;
    }
  }

  /** A run that is already terminal when created is never polled. */
  lemma TerminalAtOnce(s: Script)
    requires s.createRun.Ok? && s.createRun.value in Terminal
    ensures Poll(s, 0) == Finished(s.createRun.value, 0)
  {
  }

  // ---------------------------------------------------------------------
  // One question
  // ---------------------------------------------------------------------

  /** The SDK calls made on the service. */
  datatype Call =
    | CreateAssistant | CreateThread | PostMessage(text: string)
    | CreateRun | RetrieveRun | ListMessages | DeleteThread

  /** What one question did: the answer or exception, and the calls made. */
  datatype Turn = Turn(result: Outcome<string>, calls: seq<Call>)

  function Repeat(c: Call, n: nat): (r: seq<Call>)
    ensures |r| == n && forall i :: 0 <= i < n ==> r[i] == c
  {
    seq(n, i => c)
  }

  lemma {:induction false} RepeatCount(c: Call, d: Call, n: nat)
    ensures multiset(Repeat(c, n))[d] == if c == d then n else 0
  {
    if n > 0 {
      assert Repeat(c, n) == Repeat(c, n - 1) + [c];
      RepeatCount(c, d, n - 1);
    } else {
      assert Repeat(c, n) == [];
    }
  }

  /** The body of the `try`: post the question, start the run, poll it, and
      on completion read the messages. */
  function TryBody(s: Script, question: string): (t: Turn)
    ensures DeleteThread !in t.calls && CreateAssistant !in t.calls && CreateThread !in t.calls
  {
    if s.postMessage.Some? then Turn(Raised(s.postMessage.value), [PostMessage(question)])
    else
      var p := Poll(s, 0);
      var calls := [PostMessage(question), CreateRun] + Repeat(RetrieveRun, p.retrieves);
      match p
      case PollFailed(x, _) => Turn(Raised(x), calls)
      case TimedOut(_) => Turn(Ok(TimedOutMessage), calls)
      case Finished(status, _) =>
        if status != "completed" then Turn(Ok(StatusMessage(status)), calls)
        else
          match s.listMessages
          case Raised(x) => Turn(Raised(x), calls + [ListMessages])
          case Ok(msgs) => Turn(Ok(Reply(msgs)), calls + [ListMessages])
  }

  /** `ask_agent(client, question)`: the assistant and the thread are created
      before the `try`; once the thread exists it is deleted on every path,
      and the outcome of the deletion is discarded. */
  function AskSpec(s: Script, question: string): Turn
  {
    if s.createAssistant.Some? then Turn(Raised(s.createAssistant.value), [CreateAssistant])
    else if s.createThread.Some? then Turn(Raised(s.createThread.value), [CreateAssistant, CreateThread])
    else
      var body := TryBody(s, question);
      Turn(body.result, [CreateAssistant, CreateThread] + body.calls + [DeleteThread])
  }

  /** Once the thread exists it is deleted exactly once, as the last call, on
      every path: answer, error status, timeout or exception. When creating
      the assistant or the thread fails nothing is deleted. */
  lemma TeardownExactlyOnce(s: Script, question: string)
    ensures var t := AskSpec(s, question);
            if s.createAssistant.None? && s.createThread.None?
            then multiset(t.calls)[DeleteThread] == 1 && t.calls[|t.calls| - 1] == DeleteThread
            else DeleteThread !in t.calls
  {
    if s.createAssistant.None? && s.createThread.None? {
      var body := TryBody(s, question);
      assert multiset(body.calls)[DeleteThread] == 0;
      assert multiset([CreateAssistant, CreateThread])[DeleteThread] == 0;
    }
  }

  /** A failing deletion never changes the answer or the calls made. */
  lemma DeleteOutcomeIgnored(s: Script, question: string, deletion: Option<Exc>)
    ensures AskSpec(s.(deleteThread := deletion), question) == AskSpec(s, question)
  {
    assert TryBody(s.(deleteThread := deletion), question) == TryBody(s, question) by {
      PollIgnoresDeletion(s, deletion, 0);
    }
  }

  lemma {:induction false} PollIgnoresDeletion(s: Script, deletion: Option<Exc>, k: nat)
    ensures Poll(s.(deleteThread := deletion), k) == Poll(s, k)
    decreases TimeoutLimit + 1 - Elapsed(s, k)
  {
    var s' := s.(deleteThread := deletion);
    ElapsedIgnoresDeletion(s, deletion, k);
    if Observed(s, k).Ok? && Observed(s, k).value !in Terminal && Elapsed(s, k) <= TimeoutLimit {
      ElapsedIgnoresDeletion(s, deletion, k + 1);
      PollIgnoresDeletion(s, deletion, k + 1);
    }
  }

  lemma {:induction false} ElapsedIgnoresDeletion(s: Script, deletion: Option<Exc>, k: nat)
    ensures Elapsed(s.(deleteThread := deletion), k) == Elapsed(s, k)
  {
    if k > 0 {
      ElapsedIgnoresDeletion(s, deletion, k - 1);
    }
  }

  /** The number of status requests of one question. */
  function Retrieves(calls: seq<Call>): nat
  {
    multiset(calls)[RetrieveRun]
  }

  /** The calls up to the end of polling make one status request per
      reading of the run. */
  lemma PolledRetrieves(question: string, n: nat)
    ensures var polled := [PostMessage(question), CreateRun] + Repeat(RetrieveRun, n);
            Retrieves(polled) == n && Retrieves(polled + [ListMessages]) == n
  {
    var polled := [PostMessage(question), CreateRun] + Repeat(RetrieveRun, n);
    RepeatCount(RetrieveRun, RetrieveRun, n);
    assert multiset(polled) == multiset([PostMessage(question), CreateRun]) + multiset(Repeat(RetrieveRun, n));
    assert multiset(polled + [ListMessages]) == multiset(polled) + multiset([ListMessages]);
  }

  /** The status requests of the body of the `try`. */
  lemma TryBodyRetrieves(s: Script, question: string)
    ensures Retrieves(TryBody(s, question).calls) == if s.postMessage.None? then Poll(s, 0).retrieves else 0
  {
    if s.postMessage.None? {
      PolledRetrieves(question, Poll(s, 0).retrieves);
    }
  }

  /** Every status request of a question comes from the polling loop, which
      runs only once the question has been posted. */
  lemma AskRetrieves(s: Script, question: string)
    ensures Retrieves(AskSpec(s, question).calls) ==
            if s.createAssistant.None? && s.createThread.None? && s.postMessage.None? then Poll(s, 0).retrieves else 0
  {
    if s.createAssistant.None? && s.createThread.None? {
      var body := TryBody(s, question);
      TryBodyRetrieves(s, question);
      var calls := [CreateAssistant, CreateThread] + body.calls + [DeleteThread];
      assert multiset(calls) == multiset([CreateAssistant, CreateThread]) + multiset(body.calls) + multiset([DeleteThread]);
    }
  }

  /** At most 151 status requests per question. */
  lemma AskRetrievesBounded(s: Script, question: string)
    ensures Retrieves(AskSpec(s, question).calls) <= MaxRetrieves
  {
    RetrievesBounded(s);
    AskRetrieves(s, question);
  }

  /** A run created in a terminal state is answered without a single status
      request. */
  lemma NoPollingWhenTerminal(s: Script, question: string)
    requires s.createRun.Ok? && s.createRun.value in Terminal
    ensures RetrieveRun !in AskSpec(s, question).calls
  {
    RepeatCount(RetrieveRun, RetrieveRun, 0);
  }

  /** A terminal status other than `completed` is reported as such, and the
      messages are never fetched. */
  lemma FailedRunReported(s: Script, question: string)
    requires s.createAssistant.None? && s.createThread.None? && s.postMessage.None?
    requires Poll(s, 0).Finished? && Poll(s, 0).status != "completed"
    ensures AskSpec(s, question).result == Ok(StatusMessage(Poll(s, 0).status))
    ensures ListMessages !in AskSpec(s, question).calls
  {
    RepeatCount(RetrieveRun, ListMessages, Poll(s, 0).retrieves);
    assert multiset([PostMessage(question), CreateRun])[ListMessages] == 0;
  }

  /** A completed run is answered with the reply built from the messages. */
  lemma CompletedRunReplies(s: Script, question: string)
    requires s.createAssistant.None? && s.createThread.None? && s.postMessage.None?
    requires Poll(s, 0).Finished? && Poll(s, 0).status == "completed" && s.listMessages.Ok?
    ensures AskSpec(s, question).result == Ok(Reply(s.listMessages.value))
  {
  }

  /** A run still going once more than 300 ticks have passed is abandoned
      with the timed-out error, and no status request follows that reading
      of the clock. */
  lemma TimeoutReported(s: Script, question: string)
    requires s.createAssistant.None? && s.createThread.None? && s.postMessage.None?
    requires Poll(s, 0).TimedOut?
    ensures AskSpec(s, question).result == Ok(TimedOutMessage)
    ensures Elapsed(s, Retrieves(AskSpec(s, question).calls)) > TimeoutLimit
    ensures forall j :: 0 <= j < Retrieves(AskSpec(s, question).calls) ==> Elapsed(s, j) <= TimeoutLimit
  {
    AskRetrieves(s, question);
  }

  /** A run that is queued, then in progress twice, then complete: three
      status requests, one message listing, and the assistant's text. */
  lemma QueuedThenCompleted(s: Script)
    requires s.createAssistant.None? && s.createThread.None? && s.postMessage.None?
    requires s.createRun == Ok("queued")
    requires s.retrieve(0) == Ok("in_progress") && s.retrieve(1) == Ok("in_progress")
    requires s.retrieve(2) == Ok("completed")
    requires forall k :: s.latency(k) == 0
    requires s.listMessages == Ok([Message("assistant", [TextBlock("42")])])
    ensures AskSpec(s, "What is the answer?") == Turn(Ok("42"), [CreateAssistant, CreateThread,
              PostMessage("What is the answer?"), CreateRun, RetrieveRun, RetrieveRun, RetrieveRun,
              ListMessages, DeleteThread])
  {
    assert Elapsed(s, 1) == 2 && Elapsed(s, 2) == 4;
    assert Poll(s, 3) == Finished("completed", 3);
    assert Poll(s, 2) == Poll(s, 3);
    assert Poll(s, 1) == Poll(s, 2);
    assert Poll(s, 0) == Poll(s, 1);
    assert TextParts([TextBlock("42")]) == ["42"];
    assert Reply(s.listMessages.value) == "42";
  }

  /** The `try` block of `ask_agent`, from posting the question to the end
      of the reply extraction. */
  method RunThread(s: Script, question: string) returns (result: Outcome<string>, calls: seq<Call>)
    ensures Turn(result, calls) == TryBody(s, question)
  {
    calls := [PostMessage(question)];
    if s.postMessage.Some? {
      return Raised(s.postMessage.value), calls;
    }
    calls := calls + [CreateRun];
    var run := s.createRun;
    if run.Raised? {
      return Raised(run.exc), calls;
    }
    var status := run.value;
    var k: nat := 0;
    var start: nat := 0;
    var now: nat := start;
    while status !in Terminal
      invariant Observed(s, k) == Ok(status)
      invariant now == start + Elapsed(s, k)
      invariant Poll(s, k) == Poll(s, 0)
      invariant calls == [PostMessage(question), CreateRun] + Repeat(RetrieveRun, k)
      decreases TimeoutLimit + 1 - Elapsed(s, k)
    {
      if now - start > TimeoutLimit {
        return Ok(TimedOutMessage), calls;
      }
      now := now + PollInterval;
      calls := calls + [RetrieveRun];
      assert Repeat(RetrieveRun, k) + [RetrieveRun] == Repeat(RetrieveRun, k + 1);
      var next := s.retrieve(k);
      now := now + s.latency(k);
      k := k + 1;
      if next.Raised? {
        return Raised(next.exc), calls;
      }
      status := next.value;
    }
    if status != "completed" {
      return Ok(StatusMessage(status)), calls;
    }
    calls := calls + [ListMessages];
    var messages := s.listMessages;
    if messages.Raised? {
      return Raised(messages.exc), calls;
    }
    var answer := ExtractReply(messages.value);
    result := Ok(answer);
  }

  /** `ask_agent`: create the assistant and the thread, run the `try` body,
      and delete the thread whatever happened. The deletion's outcome is
      discarded (`except Exception: pass`), so the result stays what the
      body returned. */
  method AskAgent(s: Script, question: string) returns (result: Outcome<string>, calls: seq<Call>)
    ensures Turn(result, calls) == AskSpec(s, question)
  {
    calls := [CreateAssistant];
    if s.createAssistant.Some? {
      return Raised(s.createAssistant.value), calls;
    }
    calls := calls + [CreateThread];
    if s.createThread.Some? {
      return Raised(s.createThread.value), calls;
    }
    var body;
    result, body := RunThread(s, question);
    calls := calls + body + [DeleteThread];
  }

  // ---------------------------------------------------------------------
  // The question loop of `main`
  // ---------------------------------------------------------------------

  /** What is printed after `Agent: ` for one question: the answer, or the
      exception `ask_agent` raised. */
  function AgentLine(result: Outcome<string>): (line: string)
    ensures result.Ok? ==> line == result.value
    ensures result.Raised? ==> line == "[ERROR] " + result.exc.text
  {
    match result
    case Ok(answer) => answer
    case Raised(x) => "[ERROR] " + x.text
  }

  /** The line printed for a question put as the `i`-th session. */
  type Answerer = (nat, string) -> string

  function AnswerOf(sessions: nat -> Script): Answerer
  {
    (i: nat, q: string) => AgentLine(AskSpec(sessions(i), q).result)
  }

  /** The answers printed for questions `qs`, the `i`-th answered as
      `answer(i, _)`. */
  function Transcript(answer: Answerer, qs: seq<string>): (r: seq<string>)
    ensures |r| == |qs|
  {
    if qs == [] then []
    else Transcript(answer, qs[..|qs| - 1]) + [answer(|qs| - 1, qs[|qs| - 1])]
  }

  /** The `i`-th line of the transcript is the answer to the `i`-th
      question. */
  lemma {:induction false} TranscriptAt(answer: Answerer, qs: seq<string>, i: nat)
    requires i < |qs|
    ensures Transcript(answer, qs)[i] == answer(i, qs[i])
  {
    var init := qs[..|qs| - 1];
    if i < |init| {
      TranscriptAt(answer, init, i);
      assert init[i] == qs[i];
    }
  }

  lemma TranscriptStep(answer: Answerer, qs: seq<string>, q: string)
    ensures Transcript(answer, qs + [q]) == Transcript(answer, qs) + [answer(|qs|, q)]
  {
    assert (qs + [q])[..|qs|] == qs;
  }

  /** One question of the interactive loop: it is put to the next session
      and its answer, or its error, is printed. */
  method AnswerQuestion(sessions: nat -> Script, ghost qs: seq<string>, q: string, shown: seq<string>)
    returns (shown': seq<string>)
    requires shown == Transcript(AnswerOf(sessions), qs)
    ensures shown' == Transcript(AnswerOf(sessions), qs + [q])
  {
    var result, _ := AskAgent(sessions(|shown|), q);
    TranscriptStep(AnswerOf(sessions), qs, q);
    shown' := shown + [AgentLine(result)];
  }

  /** The interactive loop: `sessions(i)` is how the service answers the
      `i`-th question. Every question gets a printed answer, an exception
      included, and the loop goes on until a quit word or the end of input. */
  method Conversation(lines: seq<string>, sessions: nat -> Script) returns (shown: seq<string>)
    ensures shown == Transcript(AnswerOf(sessions), Console.Asked(lines))
  {
    shown := [];
    ghost var answer := AnswerOf(sessions);
    ghost var es := Console.Entries(lines);
    var i := 0;
    while i < |lines|
      invariant i <= |lines| && !Console.Stopped(es[..i])
      invariant shown == Transcript(answer, Console.Questions(es[..i]))
    {
      ghost var qs := Console.Questions(es[..i]);
      var entry := Console.ReadEntry(lines, i, es);
      if entry.Quit? {
        return;
      }
      if entry.Ask? {
        shown := AnswerQuestion(sessions, qs, entry.question, shown);
      }
      i := i + 1;
    }
    assert es[..i] == es;
  }
}
