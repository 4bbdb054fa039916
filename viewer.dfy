/** The viewer's paging over `history.jsonl` (webapp/app.py): the window of recent
    entries, the lookup of one entry by index, and the previous/next/latest links of the
    two pages. A history file is given as one parse result per line (`None` for a line
    `json.loads` rejects). */
module Viewer {
  import opened Wrappers
  import opened JsonValues

  /** The part of a history entry's listing the model keeps: its line index and the
      `model` and `status_code` of its summary. */
  datatype MetaItem = MetaItem(idx: nat, model: Option<Json>, status: Option<Json>)

  /** `(obj.get("summary") or {}).get(key) if isinstance(obj, dict) else None`: raises
      when the summary is truthy but not a dict. */
  function SummaryField(obj: Json, key: string): (r: Res<Option<Json>>)
    ensures !obj.Object? ==> r == Ok(None)
    ensures r.Raise? <==>
      obj.Object? && Lookup(obj.fields, "summary").Some? &&
      Truthy(Lookup(obj.fields, "summary").value) && !Lookup(obj.fields, "summary").value.Object?
    ensures obj.Object? && r.Ok? ==>
      var summary := Lookup(obj.fields, "summary");
      r.value == (if summary.Some? && Truthy(summary.value) then Lookup(summary.value.fields, key) else None)
  {
    if obj.Object? then Get(OrElse(Lookup(obj.fields, "summary"), Object([])), key) else Ok(None)
  }

  /** The listing of line `i`, whose parse result is `obj`. */
  function MetaOf(i: nat, obj: Json): Res<MetaItem> {
    match SummaryField(obj, "model")
    case Raise => Raise
    case Ok(model) =>
      match SummaryField(obj, "status_code")
      case Raise => Raise
      case Ok(status) => Ok(MetaItem(i, model, status))
  }

  /** `max(0, n - max_items)` */
  function WindowStart(n: nat, maxItems: int): (r: nat)
    ensures r >= n - maxItems
    ensures r == 0 || r == n - maxItems
  {
    if n - maxItems < 0 then 0 else n - maxItems
  }

  /** `n - 1 if n > 0 else None` */
  function LastIdx(n: nat): (r: Option<nat>)
    ensures r.Some? <==> n > 0
    ensures r.Some? ==> r.value + 1 == n
  {
    if n > 0 then Some(n - 1) else None
  }

  /** The listings of lines `lo` to `hi - 1` that parse, in order; a raise on any of
      them aborts the whole read. */
  function MetaWindow(lines: seq<Option<Json>>, lo: nat, hi: nat): Res<seq<MetaItem>>
    requires hi <= |lines|
    decreases hi
  {
    if hi <= lo then Ok([])
    else
      match MetaWindow(lines, lo, hi - 1)
      case Raise => Raise
      case Ok(items) =>
        match lines[hi - 1]
        case None => Ok(items)
        case Some(obj) =>
          match MetaOf(hi - 1, obj)
          case Raise => Raise
          case Ok(item) => Ok(items + [item])
  }

  /** `read_history_meta`: the listings of the last `maxItems` lines and the index of
      the last line. */
  method ReadHistoryMeta(lines: seq<Option<Json>>, maxItems: int)
    returns (items: Res<seq<MetaItem>>, lastIdx: Option<nat>)
    ensures items == MetaWindow(lines, WindowStart(|lines|, maxItems), |lines|)
    ensures lastIdx == LastIdx(|lines|)
  {
    var n := |lines|;
    var acc: seq<MetaItem> := [];
    lastIdx := if n > 0 then Some(n - 1) else None;
    var start := if 0 < n - maxItems then n - maxItems else 0;
    var i := start;
    while i < n
      invariant start <= i <= n || (n < start && i == start)
      invariant MetaWindow(lines, start, if i <= n then i else n) == Ok(acc)
      decreases n - i
    {
      if lines[i].None? {
        i := i + 1;
        continue;
      }
      var obj := lines[i].value;
      var model: Option<Json> := None;
      var status: Option<Json> := None;
      if obj.Object? {
        var summary := OrElse(Lookup(obj.fields, "summary"), Object([]));
        if !summary.Object? {
          MetaWindowRaiseSticks(lines, start, i + 1, n);
          return Raise, lastIdx;
        }
        model := Lookup(summary.fields, "model");
        status := Lookup(summary.fields, "status_code");
      }
      acc := acc + [MetaItem(i, model, status)];
      i := i + 1;
    }
    items := Ok(acc);
  }

  /** Once a window raises, every wider window raises too. */
  lemma {:induction false} MetaWindowRaiseSticks(lines: seq<Option<Json>>, lo: nat, hi: nat, wider: nat)
    requires hi <= wider <= |lines|
    requires MetaWindow(lines, lo, hi).Raise?
    ensures MetaWindow(lines, lo, wider).Raise?
    decreases wider - hi
  {
    if hi < wider {
      MetaWindowRaiseSticks(lines, lo, hi, wider - 1);
    }
  }

  /** One step of the window: the line `hi - 1` adds its listing when it parses. */
  lemma MetaWindowStep(lines: seq<Option<Json>>, lo: nat, hi: nat)
    requires lo < hi <= |lines|
    requires MetaWindow(lines, lo, hi).Ok?
    ensures MetaWindow(lines, lo, hi - 1).Ok?
    ensures lines[hi - 1].Some? ==> MetaOf(hi - 1, lines[hi - 1].value).Ok?
    ensures MetaWindow(lines, lo, hi).value == MetaWindow(lines, lo, hi - 1).value +
      (if lines[hi - 1].Some? then [MetaOf(hi - 1, lines[hi - 1].value).value] else [])
  {
  }

  /** Every listing the window returns is that of a line in the window that parses. */
  lemma {:induction false} MetaWindowSound(lines: seq<Option<Json>>, lo: nat, hi: nat)
    requires hi <= |lines|
    requires MetaWindow(lines, lo, hi).Ok?
    ensures var items := MetaWindow(lines, lo, hi).value;
      && |items| <= (if lo <= hi then hi - lo else 0)
      && forall k :: 0 <= k < |items| ==>
           lo <= items[k].idx < hi && lines[items[k].idx].Some? &&
           MetaOf(items[k].idx, lines[items[k].idx].value) == Ok(items[k])
    decreases hi
  {
    if lo < hi {
      MetaWindowStep(lines, lo, hi);
      MetaWindowSound(lines, lo, hi - 1);
      var items := MetaWindow(lines, lo, hi - 1).value;
      var items' := MetaWindow(lines, lo, hi).value;
      forall k | 0 <= k < |items'|
        ensures lo <= items'[k].idx < hi && lines[items'[k].idx].Some? &&
                MetaOf(items'[k].idx, lines[items'[k].idx].value) == Ok(items'[k])
      {
        if k < |items| {
          assert items'[k] == items[k];
        }
      }
    }
  }

  /** The listed indices strictly increase. */
  lemma {:induction false} MetaWindowIncreasing(lines: seq<Option<Json>>, lo: nat, hi: nat)
    requires hi <= |lines|
    requires MetaWindow(lines, lo, hi).Ok?
    ensures var items := MetaWindow(lines, lo, hi).value;
      forall k, l :: 0 <= k < l < |items| ==> items[k].idx < items[l].idx
    decreases hi
  {
    if lo < hi {
      MetaWindowStep(lines, lo, hi);
      MetaWindowIncreasing(lines, lo, hi - 1);
      MetaWindowSound(lines, lo, hi - 1);
      var items := MetaWindow(lines, lo, hi - 1).value;
      var items' := MetaWindow(lines, lo, hi).value;
      forall k, l | 0 <= k < l < |items'| ensures items'[k].idx < items'[l].idx {
        assert items'[k] == items[k];
        if l < |items| {
          assert items'[l] == items[l];
        }
      }
    }
  }

  /** No line of the window that parses is left out. */
  lemma {:induction false} MetaWindowComplete(lines: seq<Option<Json>>, lo: nat, hi: nat)
    requires hi <= |lines|
    requires MetaWindow(lines, lo, hi).Ok?
    ensures var items := MetaWindow(lines, lo, hi).value;
      forall i :: lo <= i < hi && lines[i].Some? ==> exists k :: 0 <= k < |items| && items[k].idx == i
    decreases hi
  {
    if lo < hi {
      MetaWindowStep(lines, lo, hi);
      MetaWindowComplete(lines, lo, hi - 1);
      var items := MetaWindow(lines, lo, hi - 1).value;
      var items' := MetaWindow(lines, lo, hi).value;
      forall i | lo <= i < hi && lines[i].Some?
        ensures exists k :: 0 <= k < |items'| && items'[k].idx == i
      {
        if i == hi - 1 {
          assert items'[|items|].idx == i;
        } else {
          var k :| 0 <= k < |items| && items[k].idx == i;
          assert items'[k].idx == i;
        }
      }
    }
  }

  /** The window raises exactly when some line in it parses to a dict whose summary is
      truthy but not a dict. */
  lemma {:induction false} MetaWindowRaisesIff(lines: seq<Option<Json>>, lo: nat, hi: nat)
    requires hi <= |lines|
    ensures MetaWindow(lines, lo, hi).Raise? <==>
      exists i :: lo <= i < hi && lines[i].Some? && SummaryField(lines[i].value, "model").Raise?
    decreases hi
  {
    if lo < hi {
      MetaWindowRaisesIff(lines, lo, hi - 1);
      if lines[hi - 1].Some? && SummaryField(lines[hi - 1].value, "model").Raise? {
        assert MetaOf(hi - 1, lines[hi - 1].value).Raise?;
      }
    }
  }

  /** `read_history_meta` lists at most `max_items` entries, all among the last
      `max_items` lines. */
  lemma HistoryMetaBounds(lines: seq<Option<Json>>, maxItems: int)
    requires MetaWindow(lines, WindowStart(|lines|, maxItems), |lines|).Ok?
    ensures var items := MetaWindow(lines, WindowStart(|lines|, maxItems), |lines|).value;
      && |items| <= (if maxItems < 0 then 0 else maxItems)
      && forall k :: 0 <= k < |items| ==> |lines| - maxItems <= items[k].idx < |lines|
  {
    MetaWindowSound(lines, WindowStart(|lines|, maxItems), |lines|);
  }

  /** `read_capture_by_idx`: the parse result of line `idx`, or `None` out of bounds. */
  function ReadCaptureByIdx(lines: seq<Option<Json>>, idx: int): (r: Option<Json>)
    ensures idx < 0 || idx >= |lines| ==> r.None?
    ensures 0 <= idx < |lines| ==> r == lines[idx]
  {
    if idx < 0 || idx >= |lines| then None else lines[idx]
  }

  /** The page's position in the history and its links. */
  datatype Nav = Nav(current: Option<nat>, prev: Option<nat>, next: Option<nat>, isLatest: bool)

  /** A response of the viewer: 404, 500 (an exception escaping the handler), or the page
      with its data, the history listing and the links. */
  datatype Page = NotFound | ServerError | Rendered(data: Option<Json>, history: seq<MetaItem>, nav: Nav)

  /** `read_history_meta()` uses its default window. */
  const DefaultMaxItems: int := 25

  /** The route `/`: the latest capture (`latest`, read from `latest.json`), with a link
      back to the last history line but one. */
  function IndexView(latest: Option<Json>, lines: seq<Option<Json>>): (r: Page)
    ensures r.Rendered? <==> MetaWindow(lines, WindowStart(|lines|, DefaultMaxItems), |lines|).Ok?
    ensures r.Rendered? ==>
      && r.data == latest
      && r.nav.isLatest && r.nav.next.None?
      && (r.nav.current.Some? <==> |lines| > 0)
      && (r.nav.current.Some? ==> r.nav.current.value == |lines| - 1)
      && (r.nav.prev.Some? <==> |lines| > 1)
      && (r.nav.prev.Some? ==> r.nav.prev.value == |lines| - 2)
  {
    match MetaWindow(lines, WindowStart(|lines|, DefaultMaxItems), |lines|)
    case Raise => ServerError
    case Ok(items) =>
      var current := LastIdx(|lines|);
      var prev := if current.Some? && current.value > 0 then Some(current.value - 1) else None;
      Rendered(latest, items, Nav(current, prev, None, true))
  }

  /** The route `/capture/<idx>` (the route only matches non-negative integers). */
  function CaptureView(lines: seq<Option<Json>>, idx: nat): (r: Page)
    ensures r.NotFound? <==>
      !(idx < |lines| && lines[idx].Some? && Truthy(lines[idx].value))
    ensures r.Rendered? ==>
      && idx < |lines| && r.data == lines[idx]
      && r.nav.current == Some(idx)
      && (r.nav.prev.Some? <==> idx > 0)
      && (r.nav.prev.Some? ==> r.nav.prev.value == idx - 1)
      && (r.nav.next.Some? <==> idx + 1 < |lines|)
      && (r.nav.next.Some? ==> r.nav.next.value == idx + 1)
      && (r.nav.isLatest <==> idx == |lines| - 1)
      && (r.nav.isLatest <==> r.nav.next.None?)
  {
    var data := ReadCaptureByIdx(lines, idx);
    if data.None? || !Truthy(data.value) then NotFound
    else
      match MetaWindow(lines, WindowStart(|lines|, DefaultMaxItems), |lines|)
      case Raise => ServerError
      case Ok(items) =>
        var lastIdx := LastIdx(|lines|);
        var prev := if idx > 0 then Some(idx - 1) else None;
        var next := if lastIdx.Some? && idx < lastIdx.value then Some(idx + 1) else None;
        Rendered(data, items, Nav(Some(idx), prev, next, lastIdx.Some? && idx == lastIdx.value))
  }

  /** Opening the last history line by index shows the same links as the latest page. */
  lemma LastCaptureMatchesIndex(latest: Option<Json>, lines: seq<Option<Json>>)
    requires |lines| > 0
    requires CaptureView(lines, |lines| - 1).Rendered?
    ensures IndexView(latest, lines).Rendered?
    ensures IndexView(latest, lines).nav == CaptureView(lines, |lines| - 1).nav
  {
  }

  /** Following `next` and then `prev` comes back to the same entry. */
  lemma NextThenPrev(lines: seq<Option<Json>>, idx: nat)
    requires CaptureView(lines, idx).Rendered? && CaptureView(lines, idx).nav.next.Some?
    ensures var j := CaptureView(lines, idx).nav.next.value;
      CaptureView(lines, j).Rendered? || CaptureView(lines, j).NotFound?
    ensures var j := CaptureView(lines, idx).nav.next.value;
      CaptureView(lines, j).Rendered? ==> CaptureView(lines, j).nav.prev == Some(idx)
  {
  }
}
