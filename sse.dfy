/** The Server-Sent-Events line parser of the capture addon
    (`_parse_sse`, mitm_addons/capture_codex.py). */
module Sse {
  import opened Wrappers
  import opened JsonValues
  import opened Text

  /** One stream event: the `[DONE]` sentinel or a data line with its decoded JSON
      (`None` when `json.loads` failed). Both keep the original line. */
  datatype Event = Done(raw: string) | Data(raw: string, json: Option<Json>)

  predicate IsDataLine(line: string) {
    StartsWith(line, "data:")
  }

  /** The event of one `data:` line: the payload is the line after its first five
      characters, stripped; `parse` stands for `json.loads`, `None` on failure. */
  function LineEvent(line: string, parse: string -> Option<Json>): (e: Event)
    requires IsDataLine(line)
    ensures e.raw == line
    ensures e.Done? <==> Strip(line[5..]) == "[DONE]"
    ensures e.Data? ==> e.json == parse(Strip(line[5..]))
  {
    var payload := Strip(line[5..]);
    if payload == "[DONE]" then Done(line) else Data(line, parse(payload))
  }

  /** The events of a list of lines, one per `data:` line. */
  function SseEvents(lines: seq<string>, parse: string -> Option<Json>): seq<Event> {
    if lines == [] then []
    else
      var last := lines[|lines| - 1];
      SseEvents(lines[..|lines| - 1], parse) + (if IsDataLine(last) then [LineEvent(last, parse)] else [])
  }

  /** The positions of the `data:` lines, in line order. */
  function DataIndices(lines: seq<string>): seq<nat> {
    if lines == [] then []
    else DataIndices(lines[..|lines| - 1]) + (if IsDataLine(lines[|lines| - 1]) then [|lines| - 1] else [])
  }

  /** `_parse_sse`: splits the body into lines and emits an event for every line that
      starts with `data:`. */
  method ParseSse(body: string, parse: string -> Option<Json>) returns (events: seq<Event>)
    ensures events == SseEvents(SplitLines(body), parse)
  {
    var lines := SplitLines(body);
    events := [];
    for i := 0 to |lines|
      invariant events == SseEvents(lines[..i], parse)
    {
      var line := lines[i];
      assert lines[..i + 1][..i] == lines[..i];
      if !StartsWith(line, "data:") {
        continue;
      }
      var payload := Strip(line[5..]);
      if payload == "[DONE]" {
        events := events + [Done(line)];
        continue;
      }
      var obj := parse(payload);
      events := events + [Data(line, obj)];
    }
    assert lines[..|lines|] == lines;
  }

  /** `DataIndices` lists exactly the `data:` lines, strictly increasing. */
  lemma DataIndicesExact(lines: seq<string>)
    ensures forall k :: 0 <= k < |DataIndices(lines)| ==>
      DataIndices(lines)[k] < |lines| && IsDataLine(lines[DataIndices(lines)[k]])
    ensures forall k, l :: 0 <= k < l < |DataIndices(lines)| ==> DataIndices(lines)[k] < DataIndices(lines)[l]
    ensures forall i :: 0 <= i < |lines| && IsDataLine(lines[i]) ==> i in DataIndices(lines)
  {
    DataIndicesSound(lines);
    DataIndicesIncreasing(lines);
    DataIndicesComplete(lines);
  }

  lemma {:induction false} DataIndicesSound(lines: seq<string>)
    ensures forall k :: 0 <= k < |DataIndices(lines)| ==>
      DataIndices(lines)[k] < |lines| && IsDataLine(lines[DataIndices(lines)[k]])
  {
    if lines != [] {
      var init := lines[..|lines| - 1];
      DataIndicesSound(init);
      var ix, ix' := DataIndices(init), DataIndices(lines);
      forall k | 0 <= k < |ix'| ensures ix'[k] < |lines| && IsDataLine(lines[ix'[k]]) {
        if k < |ix| {
          assert ix'[k] == ix[k] && init[ix[k]] == lines[ix[k]];
        }
      }
    }
  }

  lemma {:induction false} DataIndicesIncreasing(lines: seq<string>)
    ensures forall k, l :: 0 <= k < l < |DataIndices(lines)| ==> DataIndices(lines)[k] < DataIndices(lines)[l]
  {
    if lines != [] {
      var init := lines[..|lines| - 1];
      DataIndicesSound(init);
      DataIndicesIncreasing(init);
      var ix, ix' := DataIndices(init), DataIndices(lines);
      forall k, l | 0 <= k < l < |ix'| ensures ix'[k] < ix'[l] {
        assert ix'[k] == ix[k];
        if l < |ix| {
          assert ix'[l] == ix[l];
        }
      }
    }
  }

  lemma {:induction false} DataIndicesComplete(lines: seq<string>)
    ensures forall i :: 0 <= i < |lines| && IsDataLine(lines[i]) ==> i in DataIndices(lines)
  {
    if lines != [] {
      var init := lines[..|lines| - 1];
      DataIndicesComplete(init);
      var ix, ix' := DataIndices(init), DataIndices(lines);
      forall i | 0 <= i < |lines| && IsDataLine(lines[i]) ensures i in ix' {
        if i < |init| {
          assert init[i] == lines[i];
          assert i in ix;
        }
      }
    }
  }

  /** One event per `data:` line, in line order, carrying that line: the k-th event is
      the event of the k-th `data:` line. */
  lemma {:induction false} EventPerDataLine(lines: seq<string>, parse: string -> Option<Json>)
    ensures |SseEvents(lines, parse)| == |DataIndices(lines)|
    ensures forall k :: 0 <= k < |SseEvents(lines, parse)| ==>
      DataIndices(lines)[k] < |lines| && IsDataLine(lines[DataIndices(lines)[k]]) &&
      SseEvents(lines, parse)[k] == LineEvent(lines[DataIndices(lines)[k]], parse)
  {
    if lines != [] {
      var init, last := lines[..|lines| - 1], lines[|lines| - 1];
      EventPerDataLine(init, parse);
      DataIndicesSound(init);
      var ev, ix := SseEvents(init, parse), DataIndices(init);
      var ev', ix' := SseEvents(lines, parse), DataIndices(lines);
      assert ev' == ev + (if IsDataLine(last) then [LineEvent(last, parse)] else []);
      assert ix' == ix + (if IsDataLine(last) then [|lines| - 1] else []);
      forall k | 0 <= k < |ev'|
        ensures ix'[k] < |lines| && IsDataLine(lines[ix'[k]]) && ev'[k] == LineEvent(lines[ix'[k]], parse)
      {
        if k < |ev| {
          assert ev'[k] == ev[k] && ix'[k] == ix[k];
          assert init[ix[k]] == lines[ix[k]];
        }
      }
    }
  }

  /** The events of two runs of lines are the events of the first run, then those of
      the second: each line is read on its own. */
  lemma {:induction false} SseEventsAppend(a: seq<string>, b: seq<string>, parse: string -> Option<Json>)
    ensures SseEvents(a + b, parse) == SseEvents(a, parse) + SseEvents(b, parse)
    decreases |b|
  {
    if b != [] {
      var b' := b[..|b| - 1];
      assert (a + b)[..|a + b| - 1] == a + b';
      assert (a + b)[|a + b| - 1] == b[|b| - 1];
      SseEventsAppend(a, b', parse);
    } else {
      assert a + b == a;
    }
  }

  /** A body none of whose lines starts with `data:` (blank lines, `event:`, `id:`)
      yields no events. */
  lemma {:induction false} NoDataLinesNoEvents(lines: seq<string>, parse: string -> Option<Json>)
    requires forall i :: 0 <= i < |lines| ==> !IsDataLine(lines[i])
    ensures SseEvents(lines, parse) == []
  {
    if lines != [] {
      NoDataLinesNoEvents(lines[..|lines| - 1], parse);
    }
  }
}
