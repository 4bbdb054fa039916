/** Reassembly of the assistant's answer and reasoning text, from the stream events
    (`_reconstruct_assistant_text_from_events` and the reasoning loop of
    `CodexCapture.response`) or from one non-streaming JSON body. */
module Reconstruct {
  import opened Wrappers
  import opened JsonValues
  import opened Sse

  /** The two text buffers that are rebuilt. */
  datatype Channel = Answer | Reasoning

  /** Where a choice's text is read from: its streamed `delta`, or its complete
      `message` in a non-streaming body. */
  datatype Pick = Delta(ch: Channel) | Message(ch: Channel)

  /** The string read from `fields[key]` when it is a string, else "". */
  function StringOr(fields: seq<(string, Json)>, key: string): string {
    match AsString(Lookup(fields, key))
    case Some(s) => s
    case None => ""
  }

  predicate IsStringAt(fields: seq<(string, Json)>, key: string) {
    AsString(Lookup(fields, key)).Some?
  }

  /** What one `delta` object adds: for the answer its `content` when that is a string,
      else its `text` when that is a string; for the reasoning its `reasoning`. */
  function DeltaPiece(delta: seq<(string, Json)>, ch: Channel): string {
    match ch
    case Answer =>
      if IsStringAt(delta, "content") then StringOr(delta, "content") else StringOr(delta, "text")
    case Reasoning => StringOr(delta, "reasoning")
  }

  /** What one element of `choices` adds to a buffer. Every access is `.get` on a value
      that must be a dict, after `x or {}`, so any other shape raises.
      Streaming: `delta = choice.get("delta") or {}`.
      Non-streaming answer: `message.content`, else the choice's own `text`.
      Non-streaming reasoning: the choice's `reasoning`, then `message.reasoning`. */
  function ChoicePiece(choice: Json, pick: Pick): Res<string> {
    if !choice.Object? then Raise
    else
      match pick
      case Delta(ch) =>
        var delta := OrElse(Lookup(choice.fields, "delta"), Object([]));
        if delta.Object? then Ok(DeltaPiece(delta.fields, ch)) else Raise
      case Message(ch) =>
        var msg := OrElse(Lookup(choice.fields, "message"), Object([]));
        if !msg.Object? then Raise
        else if ch == Answer then
          Ok(if IsStringAt(msg.fields, "content") then StringOr(msg.fields, "content")
             else StringOr(choice.fields, "text"))
        else
          Ok(StringOr(choice.fields, "reasoning") + StringOr(msg.fields, "reasoning"))
  }

  /** The pieces of a list of choices, concatenated in order; the first raise aborts. */
  function ConcatChoices(choices: seq<Json>, pick: Pick): Res<string> {
    if choices == [] then Ok("")
    else Join(ConcatChoices(choices[..|choices| - 1], pick), ChoicePiece(choices[|choices| - 1], pick))
  }

  /** The choices of one event: `(e.get("json") or {}).get("choices", []) or []`. */
  function EventChoices(json: Option<Json>): Res<seq<Json>> {
    var obj := OrElse(json, Object([]));
    match Get(obj, "choices")
    case Raise => Raise
    case Ok(c) => IterateForGet(c)
  }

  /** What one event adds to a buffer: nothing for `Done`. */
  function EventPiece(e: Event, ch: Channel): Res<string> {
    if e.Done? then Ok("")
    else
      match EventChoices(e.json)
      case Raise => Raise
      case Ok(choices) => ConcatChoices(choices, Delta(ch))
  }

  /** A buffer rebuilt from the stream: the pieces of all events in order. */
  function StreamCollect(events: seq<Event>, ch: Channel): Res<string> {
    if events == [] then Ok("")
    else Join(StreamCollect(events[..|events| - 1], ch), EventPiece(events[|events| - 1], ch))
  }

  /** The answer of a non-streaming body: only a dict holding a `choices` key is read. */
  function NonStreamingAnswer(respObj: Option<Json>): Res<string> {
    if respObj.Some? && respObj.value.Object? && HasKey(respObj.value.fields, "choices") then
      match IterateForGet(Lookup(respObj.value.fields, "choices"))
      case Raise => Raise
      case Ok(choices) => ConcatChoices(choices, Message(Answer))
    else Ok("")
  }

  /** The reasoning of a non-streaming body: every choice's pieces, and the top-level
      `reasoning` string only when they add up to nothing. */
  function NonStreamingReasoning(respObj: Option<Json>): Res<string> {
    if respObj.Some? && respObj.value.Object? then
      var fields := respObj.value.fields;
      match IterateForGet(Lookup(fields, "choices"))
      case Raise => Raise
      case Ok(choices) =>
        match ConcatChoices(choices, Message(Reasoning))
        case Raise => Raise
        case Ok(acc) => Ok(if acc == "" && IsStringAt(fields, "reasoning") then StringOr(fields, "reasoning") else acc)
    else Ok("")
  }

  // ---------------------------------------------------------------------------
  // The loops of the source, proved against the functions above.
  // ---------------------------------------------------------------------------

  /** The streaming loops (capture_codex.py:29-42 for the answer, 158-166 for the
      reasoning): appends each event's choices' pieces, event after event, and stops
      at the first raise. */
  method CollectStream(events: seq<Event>, ch: Channel) returns (r: Res<string>)
    ensures r == StreamCollect(events, ch)
  {
    var out := "";
    for i := 0 to |events|
      invariant StreamCollect(events[..i], ch) == Ok(out)
    {
      assert events[..i + 1][..i] == events[..i];
      var piece := CollectEvent(events[i], ch);
      if piece.Raise? {
        StreamCollectRaiseSticks(events, i + 1, ch);
        return Raise;
      }
      out := out + piece.value;
    }
    assert events[..|events|] == events;
    r := Ok(out);
  }

  /** The body of the streaming loops for one event: `[DONE]` is skipped, a data event
      adds its choices' pieces. */
  method CollectEvent(e: Event, ch: Channel) returns (piece: Res<string>)
    ensures piece == EventPiece(e, ch)
  {
    if e.Done? {
      return Ok("");
    }
    match EventChoices(e.json) {
      case Raise => piece := Raise;
      case Ok(choices) => piece := CollectChoices(choices, Delta(ch));
    }
  }

  /** A raise in the first `i` events is a raise for the whole stream. */
  lemma StreamCollectRaiseSticks(events: seq<Event>, i: nat, ch: Channel)
    requires i <= |events| && StreamCollect(events[..i], ch).Raise?
    ensures StreamCollect(events, ch).Raise?
  {
    StreamCollectAppend(events[..i], events[i..], ch);
    assert events[..i] + events[i..] == events;
  }

  /** The per-choice loop shared by the two non-streaming reads. */
  method CollectChoices(choices: seq<Json>, pick: Pick) returns (r: Res<string>)
    ensures r == ConcatChoices(choices, pick)
  {
    var acc := "";
    for j := 0 to |choices|
      invariant ConcatChoices(choices[..j], pick) == Ok(acc)
    {
      assert choices[..j + 1][..j] == choices[..j];
      match ChoicePiece(choices[j], pick) {
        case Raise =>
          ConcatChoicesRaiseSticks(choices, j + 1, pick);
          return Raise;
        case Ok(piece) => acc := acc + piece;
      }
    }
    assert choices[..|choices|] == choices;
    r := Ok(acc);
  }

  /** A raise in the first `j` choices is a raise for all of them. */
  lemma ConcatChoicesRaiseSticks(choices: seq<Json>, j: nat, pick: Pick)
    requires j <= |choices| && ConcatChoices(choices[..j], pick).Raise?
    ensures ConcatChoices(choices, pick).Raise?
  {
    ConcatChoicesAppend(choices[..j], choices[j..], pick);
    assert choices[..j] + choices[j..] == choices;
  }

  /** capture_codex.py:143-151: `assistant_text += ...` over the choices of a dict body. */
  method CollectNonStreamingAnswer(respObj: Option<Json>) returns (r: Res<string>)
    ensures r == NonStreamingAnswer(respObj)
  {
    r := Ok("");
    if respObj.Some? && respObj.value.Object? && HasKey(respObj.value.fields, "choices") {
      match IterateForGet(Lookup(respObj.value.fields, "choices")) {
        case Raise => r := Raise;
        case Ok(choices) => r := CollectChoices(choices, Message(Answer));
      }
    }
  }

  /** capture_codex.py:168-177: `reasoning_text += ...` over the choices, then the
      top-level fallback. */
  method CollectNonStreamingReasoning(respObj: Option<Json>) returns (r: Res<string>)
    ensures r == NonStreamingReasoning(respObj)
  {
    r := Ok("");
    if respObj.Some? && respObj.value.Object? {
      var fields := respObj.value.fields;
      match IterateForGet(Lookup(fields, "choices")) {
        case Raise => r := Raise;
        case Ok(choices) =>
          r := CollectChoices(choices, Message(Reasoning));
          if r.Ok? && r.value == "" && IsStringAt(fields, "reasoning") {
            r := Ok(StringOr(fields, "reasoning"));
          }
      }
    }
  }

  // ---------------------------------------------------------------------------
  // Properties.
  // ---------------------------------------------------------------------------

  /** Concatenation over choices is a homomorphism: splitting the list splits the text. */
  lemma {:induction false} ConcatChoicesAppend(a: seq<Json>, b: seq<Json>, pick: Pick)
    ensures ConcatChoices(a + b, pick) == Join(ConcatChoices(a, pick), ConcatChoices(b, pick))
    decreases |b|
  {
    if b == [] {
      assert a + b == a;
      JoinEmpty(ConcatChoices(a, pick));
    } else {
      var b' := b[..|b| - 1];
      assert (a + b)[..|a + b| - 1] == a + b';
      assert (a + b)[|a + b| - 1] == b[|b| - 1];
      ConcatChoicesAppend(a, b', pick);
      JoinAssoc(ConcatChoices(a, pick), ConcatChoices(b', pick), ChoicePiece(b[|b| - 1], pick));
    }
  }

  /** The streamed text of two runs of events is the text of the first followed by the
      text of the second: deltas are reassembled in arrival order. */
  lemma {:induction false} StreamCollectAppend(a: seq<Event>, b: seq<Event>, ch: Channel)
    ensures StreamCollect(a + b, ch) == Join(StreamCollect(a, ch), StreamCollect(b, ch))
    decreases |b|
  {
    if b == [] {
      assert a + b == a;
      JoinEmpty(StreamCollect(a, ch));
    } else {
      var b' := b[..|b| - 1];
      assert (a + b)[..|a + b| - 1] == a + b';
      assert (a + b)[|a + b| - 1] == b[|b| - 1];
      StreamCollectAppend(a, b', ch);
      JoinAssoc(StreamCollect(a, ch), StreamCollect(b', ch), EventPiece(b[|b| - 1], ch));
    }
  }

  /** A `[DONE]` event or a data line whose JSON did not parse adds nothing and does not
      cut off the events after it. */
  lemma SkippedEventsAddNothing(a: seq<Event>, e: Event, b: seq<Event>, ch: Channel)
    requires e.Done? || e.json.None?
    ensures StreamCollect(a + [e] + b, ch) == Join(StreamCollect(a, ch), StreamCollect(b, ch))
  {
    StreamCollectAppend(a + [e], b, ch);
    StreamCollectAppend(a, [e], ch);
    assert [e][..0] == [];
    if e.Data? {
      assert EventChoices(e.json) == Ok([]);
      assert ConcatChoices([], Delta(ch)) == Ok("");
    }
    assert StreamCollect([e], ch) == Ok("");
    assert StreamCollect(a + [e], ch) == StreamCollect(a, ch) by {
      if StreamCollect(a, ch).Ok? {
        assert StreamCollect(a, ch).value + "" == StreamCollect(a, ch).value;
      }
    }
  }

  /** The shape the streaming loops can read without raising: every event's JSON is
      falsy or a dict whose `choices` is falsy or a list of dicts whose `delta` is falsy
      or a dict. */
  predicate ChoiceShaped(choice: Json) {
    choice.Object? && OrElse(Lookup(choice.fields, "delta"), Object([])).Object?
  }

  predicate EventShaped(e: Event) {
    e.Done? ||
    var obj := OrElse(e.json, Object([]));
    obj.Object? &&
    var c := Lookup(obj.fields, "choices");
    (c.None? || !Truthy(c.value) || (c.value.Array? && forall x :: x in c.value.items ==> ChoiceShaped(x)))
  }

  lemma {:induction false} ConcatDeltasOkIff(choices: seq<Json>, ch: Channel)
    ensures ConcatChoices(choices, Delta(ch)).Ok? <==> forall x :: x in choices ==> ChoiceShaped(x)
  {
    if choices != [] {
      var init := choices[..|choices| - 1];
      var last := choices[|choices| - 1];
      ConcatDeltasOkIff(init, ch);
      assert choices == init + [last];
      assert forall x :: x in choices <==> x in init || x == last;
      assert ChoicePiece(last, Delta(ch)).Ok? <==> ChoiceShaped(last);
    }
  }

  lemma EventPieceOkIff(e: Event, ch: Channel)
    ensures EventPiece(e, ch).Ok? <==> EventShaped(e)
  {
    if !e.Done? {
      match EventChoices(e.json) {
        case Raise =>
        case Ok(choices) =>
          ConcatDeltasOkIff(choices, ch);
          var obj := OrElse(e.json, Object([]));
          var c := Lookup(obj.fields, "choices");
          assert IterateForGet(c) == Ok(choices);
      }
    }
  }

  /** Both streaming passes (answer and reasoning) succeed on exactly the well-shaped
      event lists, and raise on all others: a non-dict event JSON or choice raises. */
  lemma {:induction false} StreamCollectOkIff(events: seq<Event>, ch: Channel)
    ensures StreamCollect(events, ch).Ok? <==> forall e :: e in events ==> EventShaped(e)
  {
    if events != [] {
      var init := events[..|events| - 1];
      var e := events[|events| - 1];
      StreamCollectOkIff(init, ch);
      assert events == init + [e];
      assert forall x :: x in events <==> x in init || x == e;
      EventPieceOkIff(e, ch);
    }
  }

  /** The shape the non-streaming reads can read without raising: a choice is a dict
      whose `message` is falsy or a dict. */
  predicate MessageShaped(choice: Json) {
    choice.Object? && OrElse(Lookup(choice.fields, "message"), Object([])).Object?
  }

  /** `choices` as both non-streaming loops iterate it: missing, falsy, or a list of
      well-shaped choices. */
  predicate ChoicesShaped(c: Option<Json>) {
    c.None? || !Truthy(c.value) || (c.value.Array? && forall x :: x in c.value.items ==> MessageShaped(x))
  }

  lemma {:induction false} ConcatMessagesOkIff(choices: seq<Json>, ch: Channel)
    ensures ConcatChoices(choices, Message(ch)).Ok? <==> forall x :: x in choices ==> MessageShaped(x)
  {
    if choices != [] {
      var init := choices[..|choices| - 1];
      var last := choices[|choices| - 1];
      ConcatMessagesOkIff(init, ch);
      assert choices == init + [last];
      assert forall x :: x in choices <==> x in init || x == last;
      assert ChoicePiece(last, Message(ch)).Ok? <==> MessageShaped(last);
    }
  }

  /** The non-streaming answer raises exactly when the body is a dict holding `choices`
      and that value is truthy but not a list, or one of its choices is not a dict, or
      has a truthy `message` that is not a dict. Any other body, a non-dict one or a
      dict without `choices` included, gives the empty answer. */
  lemma NonStreamingAnswerOkIff(respObj: Option<Json>)
    ensures NonStreamingAnswer(respObj).Ok? <==>
      !(respObj.Some? && respObj.value.Object? && HasKey(respObj.value.fields, "choices"))
      || ChoicesShaped(Lookup(respObj.value.fields, "choices"))
    ensures !(respObj.Some? && respObj.value.Object? && HasKey(respObj.value.fields, "choices")) ==>
      NonStreamingAnswer(respObj) == Ok("")
  {
    if respObj.Some? && respObj.value.Object? && HasKey(respObj.value.fields, "choices") {
      var c := Lookup(respObj.value.fields, "choices");
      if IterateForGet(c).Ok? {
        ConcatMessagesOkIff(IterateForGet(c).value, Answer);
      }
    }
  }

  /** The non-streaming reasoning raises exactly when the body is a dict whose `choices`
      is truthy but not a list, or holds a malformed choice; a body that is not a dict
      gives no reasoning. */
  lemma NonStreamingReasoningOkIff(respObj: Option<Json>)
    ensures NonStreamingReasoning(respObj).Ok? <==>
      !(respObj.Some? && respObj.value.Object?) || ChoicesShaped(Lookup(respObj.value.fields, "choices"))
    ensures !(respObj.Some? && respObj.value.Object?) ==> NonStreamingReasoning(respObj) == Ok("")
  {
    if respObj.Some? && respObj.value.Object? {
      var c := Lookup(respObj.value.fields, "choices");
      if IterateForGet(c).Ok? {
        ConcatMessagesOkIff(IterateForGet(c).value, Reasoning);
      }
    }
  }

  /** Per choice and in order, `message.content` wins over the choice's `text`, and
      `text` is read when `message` is missing: a first choice with both gives its
      content, a second choice with only `text` gives its text after it. */
  lemma {:induction false} ContentThenText(fields: seq<(string, Json)>, c1: Json, c2: Json,
                                           m1: seq<(string, Json)>, content: string, t1: string, t2: string)
    requires Lookup(fields, "choices") == Some(Array([c1, c2]))
    requires c1.Object? && Lookup(c1.fields, "message") == Some(Object(m1))
    requires Lookup(m1, "content") == Some(String(content)) && Lookup(c1.fields, "text") == Some(String(t1))
    requires c2.Object? && Lookup(c2.fields, "message") == None && Lookup(c2.fields, "text") == Some(String(t2))
    ensures NonStreamingAnswer(Some(Object(fields))) == Ok(content + t2)
  {
    MessageDictPieces(c1, m1);
    TextWithoutMessage(c2, t2);
    TwoChoices(c1, c2, Message(Answer));
    ListedChoices(fields, [c1, c2]);
  }

  /** A choice whose `message` is a non-empty dict is read from that dict. */
  lemma MessageDictPieces(choice: Json, msg: seq<(string, Json)>)
    requires choice.Object? && Lookup(choice.fields, "message") == Some(Object(msg))
    requires Lookup(msg, "content").Some?
    ensures ChoicePiece(choice, Message(Answer)) ==
      Ok(if IsStringAt(msg, "content") then StringOr(msg, "content") else StringOr(choice.fields, "text"))
    ensures ChoicePiece(choice, Message(Reasoning)) ==
      Ok(StringOr(choice.fields, "reasoning") + StringOr(msg, "reasoning"))
  {
    assert msg != [];
    assert OrElse(Lookup(choice.fields, "message"), Object([])) == Object(msg);
  }

  /** A choice without `message` is read from its own `text`. */
  lemma TextWithoutMessage(choice: Json, t: string)
    requires choice.Object? && Lookup(choice.fields, "message") == None
    requires Lookup(choice.fields, "text") == Some(String(t))
    ensures ChoicePiece(choice, Message(Answer)) == Ok(t)
  {
    assert Lookup([], "content") == None;
  }

  /** A dict body whose `choices` is a non-empty list is read choice by choice. */
  lemma ListedChoices(fields: seq<(string, Json)>, choices: seq<Json>)
    requires Lookup(fields, "choices") == Some(Array(choices)) && choices != []
    ensures NonStreamingAnswer(Some(Object(fields))) == ConcatChoices(choices, Message(Answer))
    ensures NonStreamingReasoning(Some(Object(fields))).Ok? <==> ConcatChoices(choices, Message(Reasoning)).Ok?
  {
    assert IterateForGet(Lookup(fields, "choices")) == Ok(choices);
  }

  /** Two choices contribute their pieces in list order. */
  lemma TwoChoices(c1: Json, c2: Json, pick: Pick)
    ensures ConcatChoices([c1, c2], pick) == Join(ChoicePiece(c1, pick), ChoicePiece(c2, pick))
  {
    assert [c1, c2][..1] == [c1];
    OneChoice(c1, pick);
  }

  /** One choice contributes exactly its piece. */
  lemma OneChoice(choice: Json, pick: Pick)
    ensures ConcatChoices([choice], pick) == ChoicePiece(choice, pick)
  {
    assert [choice][..0] == [];
    if ChoicePiece(choice, pick).Ok? {
      assert "" + ChoicePiece(choice, pick).value == ChoicePiece(choice, pick).value;
    }
  }

  /** In one delta, a `content` piece does not suppress a `reasoning` piece, nor the
      other way round; `text` is read only when `content` is not a string. */
  lemma DeltaChannelsIndependent(delta: seq<(string, Json)>, content: string, reasoning: string)
    requires Lookup(delta, "content") == Some(String(content))
    requires Lookup(delta, "reasoning") == Some(String(reasoning))
    ensures DeltaPiece(delta, Answer) == content
    ensures DeltaPiece(delta, Reasoning) == reasoning
  {
  }

  /** The non-streaming reasoning keeps every choice's reasoning, in order, and uses
      the top-level `reasoning` exactly when the choices give none. */
  lemma NonStreamingReasoningFallback(fields: seq<(string, Json)>, choices: seq<Json>, acc: string)
    requires IterateForGet(Lookup(fields, "choices")) == Ok(choices)
    requires ConcatChoices(choices, Message(Reasoning)) == Ok(acc)
    ensures acc != "" ==> NonStreamingReasoning(Some(Object(fields))) == Ok(acc)
    ensures acc == "" && IsStringAt(fields, "reasoning") ==>
      NonStreamingReasoning(Some(Object(fields))) == Ok(StringOr(fields, "reasoning"))
    ensures acc == "" && !IsStringAt(fields, "reasoning") ==> NonStreamingReasoning(Some(Object(fields))) == Ok("")
  {
  }

  /** Two choices that each carry reasoning both reach the buffer, first then second. */
  lemma {:induction false} SecondChoiceReasoningKept(c1: Json, c2: Json, r1: string, r2: string)
    requires ChoicePiece(c1, Message(Reasoning)) == Ok(r1)
    requires ChoicePiece(c2, Message(Reasoning)) == Ok(r2)
    ensures ConcatChoices([c1, c2], Message(Reasoning)) == Ok(r1 + r2)
  {
    assert [c1, c2][..1] == [c1];
    assert [c1][..0] == [];
    assert ConcatChoices([c1], Message(Reasoning)) == Ok("" + r1);
    assert "" + r1 == r1;
  }
}

/** A worked stream: two content deltas separated by blank lines, then `[DONE]`. */
module StreamExample {
  import opened Wrappers
  import opened JsonValues
  import opened Text
  import opened Sse
  import opened Reconstruct

  /** `{"choices":[{"delta":{"content": content}}]}` */
  function DeltaJson(content: string): Json {
    Object([("choices", Array([Object([("delta", Object([("content", String(content))]))])]))])
  }

  /** A payload as an encoder writes it after "data: ": one line, no surrounding
      whitespace, and not the `[DONE]` sentinel. */
  predicate Clean(p: string) {
    p != [] && !IsSpace(p[0]) && !IsSpace(p[|p| - 1]) && NoLineBreak(p) && p != "[DONE]"
  }

  const DoneLine := "data: [DONE]"

  /** Two data lines and the `[DONE]` line, each followed by a blank line but the last. */
  function StreamLines(p1: string, p2: string): seq<string> {
    ["data: " + p1, "", "data: " + p2, "", DoneLine]
  }

  lemma DataLinePayload(p: string)
    requires p != [] && !IsSpace(p[0]) && !IsSpace(p[|p| - 1])
    ensures IsDataLine("data: " + p) && Strip(("data: " + p)[5..]) == p
  {
    var line := "data: " + p;
    assert line[..5] == "data:";
    assert line[5..] == " " + p;
    assert (" " + p)[1..] == p;
    assert LStrip(" " + p) == p;
    assert RStrip(p) == p;
  }

  lemma CleanLineEvent(p: string, parse: string -> Option<Json>)
    requires Clean(p)
    ensures IsDataLine("data: " + p)
    ensures LineEvent("data: " + p, parse) == Data("data: " + p, parse(p))
  {
    DataLinePayload(p);
  }

  lemma DoneLineEvent(parse: string -> Option<Json>)
    ensures IsDataLine(DoneLine) && LineEvent(DoneLine, parse) == Done(DoneLine)
  {
    var p := "[DONE]";
    assert DoneLine == "data: " + p;
    assert !IsSpace(p[0]) && !IsSpace(p[5]);
    DataLinePayload(p);
  }

  lemma StreamLinesReadBack(p1: string, p2: string)
    requires NoLineBreak(p1) && NoLineBreak(p2)
    ensures SplitLines(Terminated(StreamLines(p1, p2))) == StreamLines(p1, p2)
  {
    assert NoLineBreak("data: ") && NoLineBreak("") && NoLineBreak(DoneLine);
    NoLineBreakConcat("data: ", p1);
    NoLineBreakConcat("data: ", p2);
    var lines := StreamLines(p1, p2);
    assert forall k :: 0 <= k < |lines| ==> NoLineBreak(lines[k]);
    SplitLinesOfTerminated(lines);
  }

  lemma OneLineEvents(l: string, e: Event, parse: string -> Option<Json>)
    requires IsDataLine(l) && LineEvent(l, parse) == e
    ensures SseEvents([l], parse) == [e]
  {
    assert [l][..0] == [];
  }

  lemma EventsOfFiveRuns(a: seq<string>, b: seq<string>, c: seq<string>, d: seq<string>, e: seq<string>,
                         parse: string -> Option<Json>)
    ensures SseEvents(a + b + c + d + e, parse)
      == SseEvents(a, parse) + SseEvents(b, parse) + SseEvents(c, parse) + SseEvents(d, parse) + SseEvents(e, parse)
  {
    SseEventsAppend(a, b, parse);
    SseEventsAppend(a + b, c, parse);
    SseEventsAppend(a + b + c, d, parse);
    SseEventsAppend(a + b + c + d, e, parse);
  }

  lemma SpacedLinesDisplay(l1: string, l2: string, l3: string)
    ensures [l1] + [""] + [l2] + [""] + [l3] == [l1, "", l2, "", l3]
  {
  }

  lemma ThreeEventsDisplay(e1: Event, e2: Event, e3: Event)
    ensures [e1] + [] + [e2] + [] + [e3] == [e1, e2, e3]
  {
  }

  /** Three lines, each giving one event, with blank lines between them. */
  lemma SpacedLinesEvents(l1: string, l2: string, l3: string, e1: Event, e2: Event, e3: Event,
                          parse: string -> Option<Json>)
    requires SseEvents([l1], parse) == [e1] && SseEvents([l2], parse) == [e2]
    requires SseEvents([l3], parse) == [e3] && SseEvents([""], parse) == []
    ensures SseEvents([l1, "", l2, "", l3], parse) == [e1, e2, e3]
  {
    EventsOfFiveRuns([l1], [""], [l2], [""], [l3], parse);
    SpacedLinesDisplay(l1, l2, l3);
    ThreeEventsDisplay(e1, e2, e3);
  }

  /** The stream's events: the two data events and `Done`. */
  lemma StreamEvents(p1: string, p2: string, parse: string -> Option<Json>)
    requires Clean(p1) && Clean(p2)
    ensures SseEvents(StreamLines(p1, p2), parse)
      == [Data("data: " + p1, parse(p1)), Data("data: " + p2, parse(p2)), Done(DoneLine)]
  {
    var d1, d2 := "data: " + p1, "data: " + p2;
    var e1, e2, e3 := Data(d1, parse(p1)), Data(d2, parse(p2)), Done(DoneLine);
    CleanLineEvent(p1, parse);
    CleanLineEvent(p2, parse);
    DoneLineEvent(parse);
    OneLineEvents(d1, e1, parse);
    OneLineEvents(d2, e2, parse);
    OneLineEvents(DoneLine, e3, parse);
    assert [""][..0] == [] && !IsDataLine("");
    SpacedLinesEvents(d1, d2, DoneLine, e1, e2, e3, parse);
  }

  lemma DeltaEventPieces(line: string, content: string)
    ensures EventPiece(Data(line, Some(DeltaJson(content))), Answer) == Ok(content)
    ensures EventPiece(Data(line, Some(DeltaJson(content))), Reasoning) == Ok("")
  {
    var delta := [("content", String(content))];
    var choice := Object([("delta", Object(delta))]);
    var obj := DeltaJson(content);
    assert OrElse(Some(obj), Object([])) == obj;
    assert Lookup(obj.fields, "choices") == Some(Array([choice]));
    assert EventChoices(Some(obj)) == Ok([choice]);
    assert Lookup(choice.fields, "delta") == Some(Object(delta));
    assert Lookup(delta, "content") == Some(String(content));
    assert Lookup(delta[..0], "reasoning") == None;
    assert Lookup(delta, "reasoning") == None;
    assert [choice][..0] == [];
    assert "" + content == content;
    forall ch: Channel
      ensures ConcatChoices([choice], Delta(ch)) == Ok(if ch == Answer then content else "")
    {
      assert ChoicePiece(choice, Delta(ch)) == Ok(if ch == Answer then content else "");
    }
  }

  lemma CollectSnoc(events: seq<Event>, e: Event, ch: Channel)
    ensures StreamCollect(events + [e], ch) == Join(StreamCollect(events, ch), EventPiece(e, ch))
  {
    assert (events + [e])[..|events|] == events;
  }

  lemma CollectThree(x: Event, y: Event, z: Event, ch: Channel, a: string, b: string)
    requires EventPiece(x, ch) == Ok(a) && EventPiece(y, ch) == Ok(b) && z.Done?
    ensures StreamCollect([x, y, z], ch) == Ok(a + b)
  {
    CollectSnoc([], x, ch);
    assert [] + [x] == [x] && "" + a == a;
    CollectSnoc([x], y, ch);
    assert [x] + [y] == [x, y];
    CollectSnoc([x, y], z, ch);
    assert [x, y] + [z] == [x, y, z];
    JoinEmpty(Ok(a + b));
  }

  /** Two content deltas "Hel" and "lo" and `[DONE]`, written one per line with blank
      lines between, give three events, the last one `Done`, and the answer "Hello",
      whatever text encodes the two deltas. */
  lemma {:induction false} HelloIsReassembled(p1: string, p2: string, parse: string -> Option<Json>)
    requires Clean(p1) && Clean(p2)
    requires parse(p1) == Some(DeltaJson("Hel")) && parse(p2) == Some(DeltaJson("lo"))
    ensures var events := SseEvents(SplitLines(Terminated(StreamLines(p1, p2))), parse);
      |events| == 3 && events[2] == Done(DoneLine) &&
      StreamCollect(events, Answer) == Ok("Hello") && StreamCollect(events, Reasoning) == Ok("")
  {
    StreamLinesReadBack(p1, p2);
    StreamEvents(p1, p2, parse);
    var x, y := Data("data: " + p1, parse(p1)), Data("data: " + p2, parse(p2));
    DeltaEventPieces("data: " + p1, "Hel");
    DeltaEventPieces("data: " + p2, "lo");
    CollectThree(x, y, Done(DoneLine), Answer, "Hel", "lo");
    CollectThree(x, y, Done(DoneLine), Reasoning, "", "");
    assert "Hel" + "lo" == "Hello";
  }
}
