/** The capture addon's `response` hook: the relevance filter, the routing between
    streaming and non-streaming bodies, the summary record, the payload, and the writes
    to the capture directory (`CodexCapture`, mitm_addons/capture_codex.py). */
module Capture {
  import opened Wrappers
  import opened JsonValues
  import opened Text
  import opened Sse
  import opened Reconstruct
  import opened Mojibake

  type Headers = seq<(string, string)>

  /** What the interception layer hands over. `bodyText` is the text `get_text`
      yields; `contentType` is the response's `content-type` header, if any. */
  /** `verb` is the HTTP method. */
  datatype Request = Request(verb: string, url: string, headers: Headers, bodyText: string)
  datatype Response = Response(statusCode: int, headers: Headers, contentType: Option<string>, bodyText: string)

  /** One finished exchange. Either side may be missing. `durationMs` is the value the
      source computes from the two timestamps and the clock. */
  datatype Flow = Flow(request: Option<Request>, response: Option<Response>, durationMs: int)

  datatype Summary = Summary(
    endpoint: string,
    verb: string,
    model: Option<Json>,
    messagesCount: nat,
    lastUserMessagePreview: Option<Json>,
    systemPromptChars: nat,
    toolsCount: nat,
    statusCode: int,
    isStream: bool,
    assistantTextPreview: Option<string>,
    assistantReasoningPreview: Option<string>,
    durationMs: int)

  datatype RequestRecord = RequestRecord(url: string, verb: string, headers: Headers, bodyText: string, json: Option<Json>)
  datatype ResponseRecord = ResponseRecord(statusCode: int, headers: Headers, bodyText: string, events: Option<seq<Event>>)

  /** One capture, as written to `latest.json` and appended to `history.jsonl`. */
  datatype Payload = Payload(timestamp: real, summary: Summary, request: RequestRecord, response: ResponseRecord)

  /** The content of `latest.request.json`: the parsed request re-serialised, or the raw body. */
  datatype RequestArtifact = PrettyJson(json: Json) | RawText(text: string)

  // ---------------------------------------------------------------------------
  // Relevance and routing.
  // ---------------------------------------------------------------------------

  /** The gate of capture_codex.py:105-123: both sides present, a POST, a body mentioning
      `"model"`, and a URL containing the configured filter unless it is empty. */
  predicate IsRelevant(flow: Flow, filter: string) {
    && flow.request.Some? && flow.response.Some?
    && Upper(flow.request.value.verb) == "POST"
    && Contains(flow.request.value.bodyText, "\"model\"")
    && !(filter != "" && !Contains(flow.request.value.url, filter))
  }

  /** capture_codex.py:134-135 */
  predicate IsSse(contentType: Option<string>, body: string) {
    Contains(Lower(match contentType case Some(ct) => ct case None => ""), "text/event-stream")
    || StartsWith(LStrip(body), "data:")
  }

  /** The verb test is case-insensitive: exactly the four-letter spellings of POST in
      any mix of upper and lower case pass. */
  lemma PostInAnyCase(v: string)
    ensures Upper(v) == "POST" <==>
      |v| == 4 && v[0] in "pP" && v[1] in "oO" && v[2] in "sS" && v[3] in "tT"
  {
    if |v| == 4 {
      assert Upper(v)[0] == UpperAscii(v[0]) && Upper(v)[1] == UpperAscii(v[1]);
      assert Upper(v)[2] == UpperAscii(v[2]) && Upper(v)[3] == UpperAscii(v[3]);
      if Upper(v) == "POST" {
        assert UpperAscii(v[0]) == 'P' && UpperAscii(v[1]) == 'O';
        assert UpperAscii(v[2]) == 'S' && UpperAscii(v[3]) == 'T';
      }
    }
  }

  /** The relevance gate in terms of positions: both sides are present, the verb is POST
      in any case, `"model"` stands somewhere in the request body, and a non-empty
      filter stands somewhere in the URL. */
  lemma RelevanceGate(flow: Flow, filter: string)
    ensures IsRelevant(flow, filter) <==>
      && flow.request.Some? && flow.response.Some?
      && (var v := flow.request.value.verb;
          |v| == 4 && v[0] in "pP" && v[1] in "oO" && v[2] in "sS" && v[3] in "tT")
      && (exists i: nat :: OccursAt(flow.request.value.bodyText, "\"model\"", i))
      && (filter == "" || exists i: nat :: OccursAt(flow.request.value.url, filter, i))
  {
    if flow.request.Some? {
      PostInAnyCase(flow.request.value.verb);
      ContainsIff(flow.request.value.bodyText, "\"model\"");
      ContainsIff(flow.request.value.url, filter);
    }
  }

  /** A response is treated as a stream when its content type, in any case, contains
      `text/event-stream`, or when its body, after a run of whitespace, opens with
      `data:`. */
  lemma SseDetection(contentType: Option<string>, body: string)
    ensures IsSse(contentType, body) <==>
      (contentType.Some? && exists i: nat :: OccursAt(Lower(contentType.value), "text/event-stream", i))
      || exists k: nat :: k <= |body| && OccursAt(body, "data:", k) && forall j :: 0 <= j < k ==> IsSpace(body[j])
  {
    var ct := match contentType case Some(c) => c case None => "";
    ContainsIff(Lower(ct), "text/event-stream");
    LStripStartsWithIff(body, "data:");
  }

  // ---------------------------------------------------------------------------
  // The summary.
  // ---------------------------------------------------------------------------

  /** `msgs = req_json.get("messages") or []`, when that is a list. */
  function Messages(reqJson: Option<Json>): (r: Option<seq<Json>>)
    ensures r.Some? <==> (reqJson.Some? && reqJson.value.Object? &&
      var m := Lookup(reqJson.value.fields, "messages");
      m.None? || !Truthy(m.value) || m.value.Array?)
    ensures r.Some? ==>
      var m := Lookup(reqJson.value.fields, "messages");
      r.value == (if m.Some? && m.value.Array? then m.value.items else [])
  {
    if reqJson.Some? && reqJson.value.Object? then
      var msgs := OrElse(Lookup(reqJson.value.fields, "messages"), Array([]));
      if msgs.Array? then Some(msgs.items) else None
    else None
  }

  predicate HasRole(m: Json, role: string) {
    m.Object? && Lookup(m.fields, "role") == Some(String(role))
  }

  /** The `content` of the last dict whose role is "user", scanning from the end. */
  function LastUser(msgs: seq<Json>): Option<Json> {
    if msgs == [] then None
    else if HasRole(msgs[|msgs| - 1], "user") then Lookup(msgs[|msgs| - 1].fields, "content")
    else LastUser(msgs[..|msgs| - 1])
  }

  /** The length of every string `content` of a dict whose role is "system", summed. */
  function SystemChars(msgs: seq<Json>): nat {
    if msgs == [] then 0
    else
      var m := msgs[|msgs| - 1];
      SystemChars(msgs[..|msgs| - 1]) +
        (if HasRole(m, "system") && AsString(Lookup(m.fields, "content")).Some?
         then |AsString(Lookup(m.fields, "content")).value| else 0)
  }

  /** The scan finds the content of the last user message: every message after it has
      another role, or is not a dict. */
  lemma {:induction false} LastUserIsLast(msgs: seq<Json>, i: nat)
    requires i < |msgs| && HasRole(msgs[i], "user")
    requires forall j :: i < j < |msgs| ==> !HasRole(msgs[j], "user")
    ensures LastUser(msgs) == Lookup(msgs[i].fields, "content")
    decreases |msgs|
  {
    if i < |msgs| - 1 {
      var init := msgs[..|msgs| - 1];
      forall j | i < j < |init| ensures !HasRole(init[j], "user") {
        assert init[j] == msgs[j];
      }
      LastUserIsLast(init, i);
    }
  }

  /** Without a user message there is no preview. */
  lemma {:induction false} NoUserNoLastUser(msgs: seq<Json>)
    requires forall j :: 0 <= j < |msgs| ==> !HasRole(msgs[j], "user")
    ensures LastUser(msgs) == None
    decreases |msgs|
  {
    if msgs != [] {
      NoUserNoLastUser(msgs[..|msgs| - 1]);
    }
  }

  /** The system character count of a conversation is the sum over its parts. */
  lemma {:induction false} SystemCharsAppend(a: seq<Json>, b: seq<Json>)
    ensures SystemChars(a + b) == SystemChars(a) + SystemChars(b)
    decreases |b|
  {
    if b == [] {
      assert a + b == a;
    } else {
      var b' := b[..|b| - 1];
      assert (a + b)[..|a + b| - 1] == a + b';
      assert (a + b)[|a + b| - 1] == b[|b| - 1];
      SystemCharsAppend(a, b');
    }
  }

  /** `len(tools)` for `tools = req_json.get("tools") or []`, when that is a list. */
  function ToolsCount(reqJson: Option<Json>): (r: nat)
    ensures reqJson.Some? && reqJson.value.Object? ==>
      var t := Lookup(reqJson.value.fields, "tools");
      r == (if t.Some? && t.value.Array? then |t.value.items| else 0)
    ensures !(reqJson.Some? && reqJson.value.Object?) ==> r == 0
  {
    if reqJson.Some? && reqJson.value.Object? then
      var tools := OrElse(Lookup(reqJson.value.fields, "tools"), Array([]));
      if tools.Array? then |tools.items| else 0
    else 0
  }

  /** `s[:limit] + "…"` when `s` is longer than `limit`, else `s`. */
  function Cut(s: string, limit: nat): (r: string)
    ensures |r| <= limit + 1
    ensures |s| <= limit ==> r == s
    ensures |s| > limit ==> r == s[..limit] + "\U{2026}"
  {
    if |s| > limit then s[..limit] + "\U{2026}" else s
  }

  /** `last_user_message_preview`: a string longer than 300 characters is cut, any other
      value is kept as it is. */
  function UserPreview(lastUser: Option<Json>): (r: Option<Json>)
    ensures lastUser.Some? && lastUser.value.String? && |lastUser.value.s| > 300 ==>
      r == Some(String(lastUser.value.s[..300] + "\U{2026}"))
    ensures !(lastUser.Some? && lastUser.value.String? && |lastUser.value.s| > 300) ==> r == lastUser
  {
    match lastUser
    case Some(String(s)) => Some(String(Cut(s, 300)))
    case _ => lastUser
  }

  /** The assistant text and reasoning previews: `None` for the empty string. */
  function TextPreview(s: string): (r: Option<string>)
    ensures r.None? <==> s == ""
    ensures r.Some? ==> |r.value| <= 801
    ensures r.Some? && |s| <= 800 ==> r.value == s
    ensures r.Some? && |s| > 800 ==> |r.value| == 801 && r.value[..800] == s[..800] && r.value[800] == '\U{2026}'
  {
    if s == "" then None else Some(Cut(s, 800))
  }

  /** The summary of capture_codex.py:181-221, given the parsed request, the routing
      decision and the two reconstructed texts before repair. */
  function BuildSummary(req: Request, resp: Response, reqJson: Option<Json>, isSse: bool,
                        answer: string, reasoning: string, durationMs: int): (r: Summary)
    ensures r.endpoint == req.url && r.verb == req.verb && r.statusCode == resp.statusCode
    ensures r.durationMs == durationMs
    ensures r.model == (if reqJson.Some? && reqJson.value.Object? then Lookup(reqJson.value.fields, "model") else None)
    ensures r.messagesCount == (if Messages(reqJson).Some? then |Messages(reqJson).value| else 0)
    ensures r.lastUserMessagePreview ==
      (if Messages(reqJson).Some? then UserPreview(LastUser(Messages(reqJson).value)) else None)
    ensures r.systemPromptChars == (if Messages(reqJson).Some? then SystemChars(Messages(reqJson).value) else 0)
    ensures r.toolsCount == ToolsCount(reqJson)
    ensures r.isStream <==> (isSse || (reqJson.Some? && reqJson.value.Object? &&
      Lookup(reqJson.value.fields, "stream").Some? && Truthy(Lookup(reqJson.value.fields, "stream").value)))
    ensures r.assistantTextPreview == TextPreview(MaybeUnmojibake(answer))
    ensures r.assistantReasoningPreview == TextPreview(MaybeUnmojibake(reasoning))
  {
    var isDict := reqJson.Some? && reqJson.value.Object?;
    var msgs := Messages(reqJson);
    Summary(
      endpoint := req.url,
      verb := req.verb,
      model := if isDict then Lookup(reqJson.value.fields, "model") else None,
      messagesCount := if msgs.Some? then |msgs.value| else 0,
      lastUserMessagePreview := UserPreview(if msgs.Some? then LastUser(msgs.value) else None),
      systemPromptChars := if msgs.Some? then SystemChars(msgs.value) else 0,
      toolsCount := ToolsCount(reqJson),
      statusCode := resp.statusCode,
      isStream := isSse || (isDict && Lookup(reqJson.value.fields, "stream").Some?
                                   && Truthy(Lookup(reqJson.value.fields, "stream").value)),
      assistantTextPreview := TextPreview(MaybeUnmojibake(answer)),
      assistantReasoningPreview := TextPreview(MaybeUnmojibake(reasoning)),
      durationMs := durationMs)
  }

  /** What `latest.request.json` receives for a request record. */
  function ArtifactOf(r: RequestRecord): RequestArtifact {
    if r.json.Some? && r.json.value.Object? then PrettyJson(r.json.value) else RawText(r.bodyText)
  }

  // ---------------------------------------------------------------------------
  // The whole extraction, as a function of the exchange.
  // ---------------------------------------------------------------------------

  /** The result of examining one exchange: not relevant, a raise on an unexpected JSON
      shape (the hook fails before anything is written), or a payload ready to store. */
  datatype Extraction = Irrelevant | Raised | Ready(payload: Payload)

  /** A body the non-streaming reads take without raising: not a dict, or a dict whose
      `choices` is missing, falsy or a list of well-shaped choices. */
  predicate BodyShaped(respObj: Option<Json>) {
    !(respObj.Some? && respObj.value.Object?) || ChoicesShaped(Lookup(respObj.value.fields, "choices"))
  }

  /** A response the hook reads without raising: every event of a stream that has
      events, and otherwise the body parsed as one JSON value. */
  predicate Readable(resp: Response, parse: string -> Option<Json>) {
    var events := SseEvents(SplitLines(resp.bodyText), parse);
    if IsSse(resp.contentType, resp.bodyText) && events != [] then forall e :: e in events ==> EventShaped(e)
    else BodyShaped(parse(resp.bodyText))
  }

  function Extract(flow: Flow, filter: string, parse: string -> Option<Json>, now: real): (r: Extraction)
    ensures r.Irrelevant? <==> !IsRelevant(flow, filter)
    ensures r.Ready? ==>
      var req, resp := flow.request.value, flow.response.value;
      && r.payload.timestamp == now
      && r.payload.request == RequestRecord(req.url, req.verb, req.headers, req.bodyText, parse(req.bodyText))
      && r.payload.response.bodyText == resp.bodyText
      && (r.payload.response.events.Some? <==> IsSse(resp.contentType, resp.bodyText))
      && (r.payload.response.events.Some? ==>
            r.payload.response.events.value == SseEvents(SplitLines(resp.bodyText), parse))
      && r.payload.summary.statusCode == resp.statusCode
      && (IsSse(resp.contentType, resp.bodyText) ==> r.payload.summary.isStream)
    ensures r.Raised? <==> IsRelevant(flow, filter) && !Readable(flow.response.value, parse)
    ensures r.Ready? ==>
      var req, resp := flow.request.value, flow.response.value;
      var isSse := IsSse(resp.contentType, resp.bodyText);
      var events := SseEvents(SplitLines(resp.bodyText), parse);
      var answer := if isSse then StreamCollect(events, Answer) else NonStreamingAnswer(parse(resp.bodyText));
      var reasoning := if isSse && events != [] then StreamCollect(events, Reasoning)
                       else NonStreamingReasoning(parse(resp.bodyText));
      var s := r.payload.summary;
      && answer.Ok? && reasoning.Ok?
      && s == BuildSummary(req, resp, parse(req.bodyText), isSse, answer.value, reasoning.value, flow.durationMs)
      && s.assistantTextPreview == TextPreview(MaybeUnmojibake(answer.value))
      && s.assistantReasoningPreview == TextPreview(MaybeUnmojibake(reasoning.value))
      && s.messagesCount == (if Messages(parse(req.bodyText)).Some? then |Messages(parse(req.bodyText)).value| else 0)
      && s.toolsCount == ToolsCount(parse(req.bodyText))
  {
    if !IsRelevant(flow, filter) then Irrelevant
    else
      var req := flow.request.value;
      var resp := flow.response.value;
      var reqJson := parse(req.bodyText);
      var isSse := IsSse(resp.contentType, resp.bodyText);
      var events := SseEvents(SplitLines(resp.bodyText), parse);
      var answer := if isSse then StreamCollect(events, Answer) else NonStreamingAnswer(parse(resp.bodyText));
      var reasoning :=
        if isSse && |events| > 0 then StreamCollect(events, Reasoning) else NonStreamingReasoning(parse(resp.bodyText));
      StreamCollectOkIff(events, Answer);
      StreamCollectOkIff(events, Reasoning);
      NonStreamingAnswerOkIff(parse(resp.bodyText));
      NonStreamingReasoningOkIff(parse(resp.bodyText));
      if answer.Raise? || reasoning.Raise? then Raised
      else
        Ready(Payload(
          now,
          BuildSummary(req, resp, reqJson, isSse, answer.value, reasoning.value, flow.durationMs),
          RequestRecord(req.url, req.verb, req.headers, req.bodyText, reqJson),
          ResponseRecord(resp.statusCode, resp.headers, resp.bodyText, if isSse then Some(events) else None)))
  }

  /** A response routed as a stream that holds no `data:` line has no answer, and its
      reasoning is read from the whole body parsed as one JSON value, as for a
      non-streaming response. */
  lemma EmptyStreamReadsReasoningFromBody(flow: Flow, filter: string, parse: string -> Option<Json>, now: real)
    ensures
      && Extract(flow, filter, parse, now).Ready?
      && IsSse(flow.response.value.contentType, flow.response.value.bodyText)
      && SseEvents(SplitLines(flow.response.value.bodyText), parse) == []
      ==>
      var s := Extract(flow, filter, parse, now).payload.summary;
      var reasoning := NonStreamingReasoning(parse(flow.response.value.bodyText));
      && s.assistantTextPreview == None
      && reasoning.Ok?
      && s.assistantReasoningPreview == TextPreview(MaybeUnmojibake(reasoning.value))
  {
    var x := Extract(flow, filter, parse, now);
    if x.Ready? {
      assert MaybeUnmojibake("") == "";
    }
  }

  /** A relevant response that is not a stream and whose non-streaming reads do not
      raise is captured, and its answer preview is the repaired non-streaming answer. */
  lemma NonStreamingPreview(flow: Flow, filter: string, parse: string -> Option<Json>, now: real, answer: string)
    requires IsRelevant(flow, filter)
    requires !IsSse(flow.response.value.contentType, flow.response.value.bodyText)
    requires NonStreamingAnswer(parse(flow.response.value.bodyText)) == Ok(answer)
    requires NonStreamingReasoning(parse(flow.response.value.bodyText)).Ok?
    ensures Extract(flow, filter, parse, now).Ready?
    ensures Extract(flow, filter, parse, now).payload.summary.assistantTextPreview == TextPreview(MaybeUnmojibake(answer))
  {
  }

  // ---------------------------------------------------------------------------
  // The capture directory.
  // ---------------------------------------------------------------------------

  /** `_ensure_output_dir` without the cache: the option, else the environment variable,
      else the directory beside the addon. */
  function ResolveOutputDir(optDir: string, envDir: string, besideAddon: string): string {
    if optDir != "" then optDir else if envDir != "" then envDir else besideAddon
  }

  /** The file-system steps of one capture, in the order the source takes them. */
  datatype WriteStep = MakeDir | WriteLatest | WriteLatestRequest | WriteLatestResponse | AppendHistory

  function StepIndex(s: WriteStep): nat {
    match s
    case MakeDir => 0
    case WriteLatest => 1
    case WriteLatestRequest => 2
    case WriteLatestResponse => 3
    case AppendHistory => 4
  }

  /** Whether (and where) the file system fails during one capture. */
  datatype WriteFault = NoFault | FailAt(step: WriteStep)

  /** The step `s` completes under `fault`. */
  predicate Completes(fault: WriteFault, s: WriteStep) {
    fault.NoFault? || StepIndex(s) < StepIndex(fault.step)
  }

  /** A cached directory is not created again, so a fault planned for that step never
      happens: the fault that actually hits the capture. */
  function Effective(fault: WriteFault, cached: bool): (r: WriteFault)
    ensures r.NoFault? <==> fault.NoFault? || (cached && fault == FailAt(MakeDir))
    ensures r.FailAt? ==> r == fault
  {
    if cached && fault == FailAt(MakeDir) then NoFault else fault
  }

  datatype Outcome = Skipped | Crashed | WriteFailed | Captured

  /** The addon object: the cached output directory and the four files it writes. */
  class CodexCapture {
    var outputDir: Option<string>
    var latest: Option<Payload>
    var latestRequest: Option<RequestArtifact>
    var latestResponse: Option<string>
    var history: seq<Payload>

    /** The snapshot files mirror the last line of the history. */
    predicate Consistent()
      reads this
    {
      && latest == (if history == [] then None else Some(history[|history| - 1]))
      && latestRequest == (if latest.None? then None else Some(ArtifactOf(latest.value.request)))
      && latestResponse == (if latest.None? then None else Some(latest.value.response.bodyText))
    }

    constructor ()
      ensures outputDir == None && latest == None && latestRequest == None && latestResponse == None
      ensures history == []
      ensures Consistent()
    {
      outputDir := None;
      latest := None;
      latestRequest := None;
      latestResponse := None;
      history := [];
    }

    /** The `try` block of `CodexCapture.response`: make sure of the directory, then write
        `latest.json`, `latest.request.json`, `latest.response.txt` and append to
        `history.jsonl`, stopping at the first step `fault` makes fail. */
    method Store(p: Payload, optDir: string, envDir: string, besideAddon: string, fault: WriteFault)
      returns (outcome: Outcome)
      modifies this
      ensures var dirFails := fault == FailAt(MakeDir) && (old(outputDir).None? || old(outputDir).value == "");
        if dirFails then
          outcome == WriteFailed && unchanged(this)
        else
          var f := Effective(fault, old(outputDir).Some? && old(outputDir).value != "");
          && outcome == (if f.NoFault? then Captured else WriteFailed)
          && outputDir == (if old(outputDir).Some? && old(outputDir).value != "" then old(outputDir)
                           else Some(ResolveOutputDir(optDir, envDir, besideAddon)))
          && latest == (if Completes(f, WriteLatest) then Some(p) else old(latest))
          && latestRequest == (if Completes(f, WriteLatestRequest) then Some(ArtifactOf(p.request)) else old(latestRequest))
          && latestResponse == (if Completes(f, WriteLatestResponse) then Some(p.response.bodyText) else old(latestResponse))
          && history == (if Completes(f, AppendHistory) then old(history) + [p] else old(history))
      ensures outcome == Captured ==> Consistent()
    {
      if outputDir.None? || outputDir.value == "" {
        if fault == FailAt(MakeDir) {
          return WriteFailed;
        }
        outputDir := Some(ResolveOutputDir(optDir, envDir, besideAddon));
      }
      if fault == FailAt(WriteLatest) {
        return WriteFailed;
      }
      latest := Some(p);
      if fault == FailAt(WriteLatestRequest) {
        return WriteFailed;
      }
      var req := p.request;
      latestRequest := Some(if req.json.Some? && req.json.value.Object? then PrettyJson(req.json.value) else RawText(req.bodyText));
      if fault == FailAt(WriteLatestResponse) {
        return WriteFailed;
      }
      latestResponse := Some(p.response.bodyText);
      if fault == FailAt(AppendHistory) {
        return WriteFailed;
      }
      history := history + [p];
      outcome := Captured;
    }

    /** `CodexCapture.response`. `parse` stands for `json.loads` (`None` on failure),
        `now` for `time.time()`, the three directory strings for the option, the
        environment variable and the default location, and `fault` for the first
        file-system operation that fails, if any. Nothing is written for an exchange
        that is not relevant or whose JSON has a shape the source raises on. */
    method Response(flow: Flow, filter: string, parse: string -> Option<Json>, now: real,
                    optDir: string, envDir: string, besideAddon: string, fault: WriteFault)
      returns (outcome: Outcome)
      modifies this
      ensures Extract(flow, filter, parse, now).Irrelevant? ==> outcome == Skipped && unchanged(this)
      ensures Extract(flow, filter, parse, now).Raised? ==> outcome == Crashed && unchanged(this)
      ensures Extract(flow, filter, parse, now).Ready? ==>
        var p := Extract(flow, filter, parse, now).payload;
        var dirFails := fault == FailAt(MakeDir) && (old(outputDir).None? || old(outputDir).value == "");
        if dirFails then
          outcome == WriteFailed && unchanged(this)
        else
          var f := Effective(fault, old(outputDir).Some? && old(outputDir).value != "");
          && outcome == (if f.NoFault? then Captured else WriteFailed)
          && outputDir == (if old(outputDir).Some? && old(outputDir).value != "" then old(outputDir)
                           else Some(ResolveOutputDir(optDir, envDir, besideAddon)))
          && latest == (if Completes(f, WriteLatest) then Some(p) else old(latest))
          && latestRequest == (if Completes(f, WriteLatestRequest) then Some(ArtifactOf(p.request)) else old(latestRequest))
          && latestResponse == (if Completes(f, WriteLatestResponse) then Some(p.response.bodyText) else old(latestResponse))
          && history == (if Completes(f, AppendHistory) then old(history) + [p] else old(history))
      ensures outcome == Captured ==> Consistent()
    {
      var x := Examine(flow, filter, parse, now);
      match x
      case Irrelevant => outcome := Skipped;
      case Raised => outcome := Crashed;
      case Ready(p) => outcome := Store(p, optDir, envDir, besideAddon, fault);
    }
  }

  /** The computing part of `CodexCapture.response`, up to the payload. */
  method Examine(flow: Flow, filter: string, parse: string -> Option<Json>, now: real)
    returns (x: Extraction)
    ensures x == Extract(flow, filter, parse, now)
  {
    if flow.request.None? || flow.response.None? {
      return Irrelevant;
    }
    var req := flow.request.value;
    var resp := flow.response.value;
    if Upper(req.verb) != "POST" {
      return Irrelevant;
    }
    var reqBody := req.bodyText;
    if !Contains(reqBody, "\"model\"") {
      return Irrelevant;
    }
    if filter != "" && !Contains(req.url, filter) {
      return Irrelevant;
    }
    var reqJson := parse(reqBody);
    var respBody := resp.bodyText;
    var isSse := IsSse(resp.contentType, respBody);

    var events: Option<seq<Event>> := None;
    var answer: Res<string>;
    if isSse {
      var evs := ParseSse(respBody, parse);
      events := Some(evs);
      answer := CollectStream(evs, Answer);
    } else {
      answer := CollectNonStreamingAnswer(parse(respBody));
    }
    if answer.Raise? {
      return Raised;
    }
    var reasoning: Res<string>;
    if isSse && |events.value| > 0 {
      reasoning := CollectStream(events.value, Reasoning);
    } else {
      reasoning := CollectNonStreamingReasoning(parse(respBody));
    }
    if reasoning.Raise? {
      return Raised;
    }
    var summary := BuildSummary(req, resp, reqJson, isSse, answer.value, reasoning.value, flow.durationMs);
    x := Ready(Payload(
      now, summary,
      RequestRecord(req.url, req.verb, req.headers, reqBody, reqJson),
      ResponseRecord(resp.statusCode, resp.headers, respBody, events)));
  }
}

/** Two exchanges worked end to end: a chat request's summary, and a streamed answer. */
module CaptureExample {
  import opened Wrappers
  import opened JsonValues
  import opened Text
  import opened Sse
  import opened Reconstruct
  import opened Mojibake
  import opened Capture
  import StreamExample

  const System := Object([("role", String("system")), ("content", String("abcde"))])
  const User := Object([("role", String("user")), ("content", String("hi"))])
  const ChatRequest := Object([("model", String("x")), ("messages", Array([System, User]))])

  lemma ChatRequestLookups()
    ensures Lookup(ChatRequest.fields, "model") == Some(String("x"))
    ensures Lookup(ChatRequest.fields, "messages") == Some(Array([System, User]))
    ensures Lookup(ChatRequest.fields, "tools") == None
    ensures Lookup(ChatRequest.fields, "stream") == None
  {
    var fields := ChatRequest.fields;
    assert fields[..1] == [("model", String("x"))] && fields[..1][..0] == [];
    assert "messages" != "model" && "tools" != "model" && "stream" != "model";
    assert "tools" != "messages" && "stream" != "messages";
  }

  lemma ChatMessages()
    ensures LastUser([System, User]) == Some(String("hi"))
    ensures SystemChars([System, User]) == 5
  {
    assert "role" != "content";
    assert Lookup(User.fields, "role") == Some(String("user"));
    assert Lookup(System.fields, "role") == Some(String("system"));
    assert "system" != "user";
    assert HasRole(User, "user") && !HasRole(System, "user") && HasRole(System, "system") && !HasRole(User, "system");
    assert Lookup(User.fields, "content") == Some(String("hi"));
    assert Lookup(System.fields, "content") == Some(String("abcde"));
    assert [System, User][..1] == [System] && [System][..0] == [];
    assert SystemChars([System]) == 5;
  }

  /** A request with a system prompt of five characters and one user turn "hi", and no
      tools: two messages, five system characters, the preview "hi", no tools. */
  lemma SummaryOfChatRequest(req: Request, resp: Response, isSse: bool, answer: string, reasoning: string, d: int)
    ensures var s := BuildSummary(req, resp, Some(ChatRequest), isSse, answer, reasoning, d);
      && s.model == Some(String("x"))
      && s.messagesCount == 2
      && s.systemPromptChars == 5
      && s.lastUserMessagePreview == Some(String("hi"))
      && s.toolsCount == 0
      && s.isStream == isSse
  {
    ChatRequestFields();
    ChatMessages();
  }

  lemma ChatRequestFields()
    ensures Messages(Some(ChatRequest)) == Some([System, User])
    ensures ToolsCount(Some(ChatRequest)) == 0
    ensures Lookup(ChatRequest.fields, "model") == Some(String("x"))
    ensures Lookup(ChatRequest.fields, "stream") == None
  {
    ChatRequestLookups();
  }

  const ReqBody := "{\"model\":\"x\"}"
  const Url := "http://localhost:11434/v1/chat/completions"

  /** A streamed exchange whose body is the two payloads of `StreamExample.StreamLines`. */
  function HelloFlow(p1: string, p2: string): Flow {
    Flow(Some(Request("post", Url, [], ReqBody)),
         Some(Response(200, [], Some("text/event-stream"), Terminated(StreamExample.StreamLines(p1, p2)))), 12)
  }

  /** The example request, sent as "post", passes the gate whatever the response. */
  lemma ExampleRequestIsRelevant(resp: Response, d: int)
    ensures IsRelevant(Flow(Some(Request("post", Url, [], ReqBody)), Some(resp), d), "")
  {
    assert Upper("post") == "POST";
    assert ReqBody[1..][..7] == "\"model\"";
    assert Contains(ReqBody[1..], "\"model\"");
  }

  lemma HelloFlowIsStream(body: string)
    ensures IsSse(Some("text/event-stream"), body)
  {
    assert Lower("text/event-stream") == "text/event-stream";
    assert StartsWith("text/event-stream", "text/event-stream");
  }

  lemma HelloIsClean()
    ensures MaybeUnmojibake("Hello") == "Hello" && MaybeUnmojibake("") == ""
  {
    var s := "Hello";
    LowCharsAreNotMarkers(s);
    CleanTextIsFixed(s);
  }

  /** The streamed "Hel" + "lo" exchange of `StreamExample`, sent with a lower-case verb
      and an event-stream content type, is captured with three events, the answer
      preview "Hello" and no reasoning preview. */
  lemma {:induction false} StreamedHelloIsCaptured(p1: string, p2: string, parse: string -> Option<Json>, now: real)
    requires StreamExample.Clean(p1) && StreamExample.Clean(p2)
    requires parse(p1) == Some(StreamExample.DeltaJson("Hel"))
    requires parse(p2) == Some(StreamExample.DeltaJson("lo"))
    ensures var x := Extract(HelloFlow(p1, p2), "", parse, now);
      && x.Ready?
      && x.payload.response.events.Some? && |x.payload.response.events.value| == 3
      && x.payload.summary.assistantTextPreview == Some("Hello")
      && x.payload.summary.assistantReasoningPreview == None
      && x.payload.summary.isStream
  {
    var body := Terminated(StreamExample.StreamLines(p1, p2));
    ExampleRequestIsRelevant(HelloFlow(p1, p2).response.value, 12);
    HelloFlowIsStream(body);
    StreamExample.HelloIsReassembled(p1, p2, parse);
    var events := SseEvents(SplitLines(body), parse);
    assert StreamCollect(events, Answer) == Ok("Hello");
    assert StreamCollect(events, Reasoning) == Ok("");
    HelloIsClean();
    var x := Extract(HelloFlow(p1, p2), "", parse, now);
    assert x.Ready?;
    assert x.payload.summary.assistantTextPreview == TextPreview(MaybeUnmojibake("Hello"));
  }

  /** A non-streaming response of one choice whose `message.content` is the docstring's
      example U+00E2 U+20AC U+2122 (a right single quote misread as Windows-1252). */
  function QuoteFlow(body: string): Flow {
    Flow(Some(Request("post", Url, [], ReqBody)), Some(Response(200, [], None, body)), 12)
  }

  /** The capture of that response, as the code is written, has no answer preview at
      all: the Latin-1 repair deletes the three characters and an empty text is
      previewed as None. */
  lemma QuotePreviewIsLost(body: string, parse: string -> Option<Json>, now: real,
                           fields: seq<(string, Json)>, choice: Json, msg: seq<(string, Json)>)
    requires |body| > 0 && body[0] == '{'
    requires parse(body) == Some(Object(fields))
    requires Lookup(fields, "choices") == Some(Array([choice]))
    requires choice.Object? && Lookup(choice.fields, "message") == Some(Object(msg))
    requires Lookup(msg, "content") == Some(String("\U{E2}\U{20AC}\U{2122}"))
    ensures var x := Extract(QuoteFlow(body), "", parse, now);
      x.Ready? && x.payload.summary.assistantTextPreview == None
  {
    var q := "\U{E2}\U{20AC}\U{2122}";
    ExampleRequestIsRelevant(QuoteFlow(body).response.value, 12);
    BraceBodyIsNoStream(body);
    QuoteAnswer(fields, choice, msg, q);
    NonStreamingPreview(QuoteFlow(body), "", parse, now, q);
    LatinRepairDeletesQuote();
  }

  lemma BraceBodyIsNoStream(body: string)
    requires |body| > 0 && body[0] == '{'
    ensures !IsSse(None, body)
  {
    assert LStrip(body)[0] == '{';
    assert !Contains(Lower(""), "text/event-stream");
  }

  lemma QuoteAnswer(fields: seq<(string, Json)>, choice: Json, msg: seq<(string, Json)>, q: string)
    requires Lookup(fields, "choices") == Some(Array([choice]))
    requires choice.Object? && Lookup(choice.fields, "message") == Some(Object(msg))
    requires Lookup(msg, "content") == Some(String(q))
    ensures NonStreamingAnswer(Some(Object(fields))) == Ok(q)
    ensures NonStreamingReasoning(Some(Object(fields))).Ok?
  {
    MessageDictPieces(choice, msg);
    OneChoice(choice, Message(Answer));
    OneChoice(choice, Message(Reasoning));
    ListedChoices(fields, [choice]);
  }
}
