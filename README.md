# Codex capture: a verified model of the capture addon and the history viewer

The system sits as a proxy between a coding assistant and a language-model server.

The capture addon (`mitm_addons/capture_codex.py`) watches every finished HTTP exchange. It keeps the ones that look like model calls and rebuilds the assistant's answer and reasoning text. It does this from a Server-Sent-Events stream or from one JSON body, and repairs mojibake in the two texts. It then summarises the request and writes four files:
- `latest.json`
- `latest.request.json`
- `latest.response.txt`
- one line appended to `history.jsonl`

The viewer (`webapp/app.py`) lists a window of the most recent history lines. It opens one history line by index, and computes the previous/next/latest links of the page it shows.

This project models that core in Dafny and proves its properties.

| file | module | models |
|---|---|---|
| `wrappers.dfy` | `Wrappers` | `Option`, and `Res` (a value or a Python exception); string `+` under exceptions |
| `json.dfy` | `JsonValues` | decoded JSON values, `dict.get`, truthiness, `x or {}`, `isinstance(x, str)`, iterating `v or []` |
| `text.dfy` | `Text` | `str.splitlines`, `isspace`, `strip`/`lstrip`/`rstrip`, `startswith`, `in`, `upper`/`lower` |
| `sse.dfy` | `Sse` | `_parse_sse` |
| `reconstruct.dfy` | `Reconstruct`, `StreamExample` | `_reconstruct_assistant_text_from_events`, the reasoning loops and the non-streaming reads of `CodexCapture.response`, and a worked stream |
| `encoding.dfy` | `Encoding` | the Latin-1, Windows-1252 and UTF-8 (`errors="ignore"`) codecs |
| `mojibake.dfy` | `Mojibake` | `_MOJIBAKE_MARKERS`, `_maybe_unmojibake` and its corrected form |
| `capture.dfy` | `Capture`, `CaptureExample` | `CodexCapture`: relevance gate, routing, summary, payload and the four writes, plus worked exchanges |
| `viewer.dfy` | `Viewer` | `read_history_meta`, `read_capture_by_idx`, and the links of `index` and `capture_by_idx` |

Modelling choices:
- **JSON parsing.** `json.loads` (wrapped by `_safe_json_loads`, `mitm_addons/capture_codex.py:8-12`) is a function parameter `parse: string -> Option<Json>`.
  - `None` stands for a failed parse, so parsing itself never raises.
  - JSON objects are association lists in document order. `Lookup` returns the last value of a repeated key, as `json.loads` does.
- **Exceptions.** Every `.get` on a value that may not be a dict, and every loop over `x or []`, is modelled with its Python exception as `Res.Raise`.
  - Examples: `obj.get` on a list event, or `choice.get` on a string choice.
  - Such an exception escapes `CodexCapture.response` before its `try` block. The hook then fails and writes nothing (`Outcome.Crashed`).
- **The store.** The addon object is the class `Capture.CodexCapture`. Its fields are the cached output directory, the contents of the three snapshot files, and the history as a sequence of payloads.
- **Faults.** `Store` takes a `WriteFault` naming the first file-system step that fails, if any.
  - The steps before it happen, and the ones after it do not.
  - Every fault is caught by the source's `except`, which only logs.
- **Loops become methods.** Each loop of the source is a method proved against a recursive function:
  - `Sse.ParseSse`
  - `Reconstruct.CollectStream`
  - `Reconstruct.CollectChoices`
  - `Reconstruct.CollectNonStreamingAnswer`
  - `Reconstruct.CollectNonStreamingReasoning`
  - `Viewer.ReadHistoryMeta`

  The properties are proved about those functions.
- **The viewer's history file** is a sequence with one parse result per line.
- **Non-streaming reasoning.** `mitm_addons/capture_codex.py:170-175` appends every choice's `reasoning` and then its `message.reasoning`, choice after choice. The top-level `reasoning` field is read only when the choices gave nothing (`mitm_addons/capture_codex.py:176-177`). `Reconstruct.SecondChoiceReasoningKept` and `Reconstruct.NonStreamingReasoningFallback` state this.
- **The mojibake repair.** The hook is modelled as written: its previews go through `Mojibake.MaybeUnmojibake`, the Latin-1 round trip of `mitm_addons/capture_codex.py:59`. The corrected repair `Mojibake.Repair` is modelled and proved beside it.

### Where the code and its docstring differ

The docstring of `_maybe_unmojibake` says the repair turns `â€™` back into `’`. The code does not; see "## Findings".

## Model

| member | source | states |
|---|---|---|
| JsonValues.Lookup | mitm_addons/capture_codex.py:36-40 | `d.get(key)` finds a value exactly when some entry has that key; the value found is the one stored under the last entry with that key, as `json.loads` keeps the last of repeated keys |
| JsonValues.OrElse | mitm_addons/capture_codex.py:34 | `x or {}` keeps a truthy value and replaces a missing or falsy one by the default |
| JsonValues.Get | mitm_addons/capture_codex.py:35-36 | `.get` succeeds exactly on a dict, and there it is the key lookup; on any other value it raises |
| JsonValues.IterateForGet | mitm_addons/capture_codex.py:35 | iterating `v or []` yields nothing for a missing or falsy value and the items of a list; it raises exactly for a truthy non-list |
| Text.ContainsIff | mitm_addons/capture_codex.py:117 | the `in` test holds exactly when the substring stands at some position of the text |
| Text.LStrip | mitm_addons/capture_codex.py:135 | `lstrip` leaves a suffix of the text that starts with a non-space character; every character it drops is whitespace |
| Text.RStrip | mitm_addons/capture_codex.py:20 | `rstrip` leaves a prefix of the text that ends with a non-space character; every character it drops is whitespace |
| Text.LStripStartsWithIff | mitm_addons/capture_codex.py:135 | text opens with `p` after `lstrip()` exactly when `p` stands right after a run of whitespace, for a `p` that starts with a non-space character |
| Text.SplitLines | mitm_addons/capture_codex.py:17 | `splitlines` gives no line for the empty text, at least one line for any other text, and never more lines than characters |
| Text.SplitLinesHaveNoBreaks | mitm_addons/capture_codex.py:17 | no line that `splitlines` returns contains a line boundary |
| Text.SplitLinesOfTerminated | mitm_addons/capture_codex.py:254-255 | lines written one after another, each followed by "\n", are read back by `splitlines` as the same lines when none of them contains a line boundary |
| Text.LineSeparatorSplitsALine | mitm_addons/capture_codex.py:255 | one appended history entry that holds a LINE SEPARATOR (U+2028) is read back by `splitlines` as two lines |
| Sse.LineEvent | mitm_addons/capture_codex.py:20-25 | a `data:` line gives one event that keeps the line as `raw`; it is `done` exactly when the line after `data:`, stripped, is `[DONE]`, and otherwise carries the parse of that stripped payload |
| Sse.ParseSse | mitm_addons/capture_codex.py:15-26 | the parsing loop returns the events of the body's lines (`SseEvents`) |
| Sse.EventPerDataLine | mitm_addons/capture_codex.py:17-25 | there is exactly one event per line that starts with `data:`, in line order; the k-th event is the event of the k-th such line and carries it as `raw`: `Done` when its stripped payload is `[DONE]`, else `Data` with the parse result |
| Sse.DataIndicesExact | mitm_addons/capture_codex.py:17-19 | the positions the events come from are exactly the `data:` lines, strictly increasing |
| Sse.NoDataLinesNoEvents | mitm_addons/capture_codex.py:18-19 | a body none of whose lines starts with `data:` yields no events |
| Sse.SseEventsAppend | mitm_addons/capture_codex.py:17-25 | the events of two runs of lines are the events of the first run followed by those of the second |
| Reconstruct.CollectStream | mitm_addons/capture_codex.py:29-42 | the streaming loop returns the in-order concatenation of every event's pieces (`StreamCollect`), or the exception of the first event that raises |
| Reconstruct.CollectEvent | mitm_addons/capture_codex.py:32-40 | one step of the streaming loop: nothing for `[DONE]`, else the pieces of the event's choices |
| Reconstruct.CollectChoices | mitm_addons/capture_codex.py:146-151 | the loop over choices concatenates their pieces in order and stops at the first raise |
| Reconstruct.CollectNonStreamingAnswer | mitm_addons/capture_codex.py:144-151 | the loop returns `NonStreamingAnswer`, whose raise condition, empty cases and per-choice order are the next three rows |
| Reconstruct.NonStreamingAnswerOkIff | mitm_addons/capture_codex.py:144-151 | the non-streaming answer raises exactly when the body is a dict holding `choices` and that value is truthy but not a list, or a choice is not a dict, or has a truthy `message` that is not a dict; a body that is not a dict, or a dict without `choices`, gives the empty answer |
| Reconstruct.NonStreamingReasoningOkIff | mitm_addons/capture_codex.py:168-177 | the non-streaming reasoning raises exactly when the body is a dict whose `choices` is truthy but not a list, or holds a malformed choice; a body that is not a dict gives no reasoning |
| Reconstruct.ContentThenText | mitm_addons/capture_codex.py:146-151 | per choice and in order, `message.content` wins over the choice's `text`, and `text` is read when there is no `message`: two such choices give the first's content followed by the second's text |
| Reconstruct.CollectNonStreamingReasoning | mitm_addons/capture_codex.py:168-177 | the non-streaming reasoning: each choice's `reasoning` then `message.reasoning`, then the top-level fallback |
| Reconstruct.StreamCollectAppend | mitm_addons/capture_codex.py:31-42 | the text of two runs of events is the text of the first followed by that of the second |
| Reconstruct.ConcatChoicesAppend | mitm_addons/capture_codex.py:35-40 | the text of two runs of choices is the text of the first followed by that of the second |
| Reconstruct.SkippedEventsAddNothing | mitm_addons/capture_codex.py:32-35 | a `[DONE]` event or an event whose JSON did not parse adds nothing and does not cut off the events after it |
| Reconstruct.ConcatDeltasOkIff | mitm_addons/capture_codex.py:35-36 | the loop over one event's choices succeeds exactly when every choice is a dict whose `delta` is missing, falsy or a dict |
| Reconstruct.EventPieceOkIff | mitm_addons/capture_codex.py:32-36 | one event is read without an exception exactly when it is well shaped |
| Reconstruct.StreamCollectOkIff | mitm_addons/capture_codex.py:31-36 | the streaming text (and reasoning) is rebuilt without an exception exactly when every event is well shaped; a non-dict event JSON or choice makes the hook fail |
| Reconstruct.DeltaChannelsIndependent | mitm_addons/capture_codex.py:37-40 | a delta's string `content` goes to the answer and its string `reasoning` to the reasoning, independently |
| Reconstruct.NonStreamingReasoningFallback | mitm_addons/capture_codex.py:169-177 | the top-level `reasoning` string replaces the choices' reasoning exactly when they added up to nothing |
| Reconstruct.SecondChoiceReasoningKept | mitm_addons/capture_codex.py:170-175 | the reasoning of two choices both reaches the buffer, first then second |
| StreamExample.StreamEvents | mitm_addons/capture_codex.py:15-26 | two `data:` lines and `data: [DONE]`, separated by blank lines, give two data events and one done event |
| StreamExample.DeltaEventPieces | mitm_addons/capture_codex.py:36-38 | an event `{"choices":[{"delta":{"content":c}}]}` adds `c` to the answer and nothing to the reasoning |
| StreamExample.HelloIsReassembled | mitm_addons/capture_codex.py:15-42 | the deltas "Hel" and "lo" written as a stream read back as three events and reassemble to "Hello" with no reasoning |
| Encoding.Latin1EncodeKeepsLatin1Chars | mitm_addons/capture_codex.py:59 | `encode("latin1", errors="ignore")` keeps exactly the characters up to U+00FF, each as the byte of its own value and in order, and drops every other character |
| Encoding.Latin1EncodeAppend | mitm_addons/capture_codex.py:59 | the encoding works character by character: the bytes of a concatenation are the bytes of its parts |
| Encoding.Latin1RoundTrip | mitm_addons/capture_codex.py:59 | bytes read as Latin-1 and encoded back as Latin-1 are unchanged |
| Encoding.Cp1252Decode | mitm_addons/capture_codex.py:59 | Windows-1252 decoding succeeds exactly when every byte is defined, one character per byte |
| Encoding.Cp1252RoundTrip | mitm_addons/capture_codex.py:59 | bytes read as Windows-1252 and encoded back are unchanged |
| Encoding.Utf8RoundTrip | mitm_addons/capture_codex.py:59 | `decode("utf-8", errors="ignore")` undoes UTF-8 encoding |
| Mojibake.MarkerCountIsMarkerChars | mitm_addons/capture_codex.py:45-55 | summing `s.count(m)` over the nine single-character markers counts each marker character of `s` once |
| Mojibake.MarkerCountZeroIff | mitm_addons/capture_codex.py:55-56 | the marker count is zero exactly when no character is a marker |
| Mojibake.LowCharsAreNotMarkers | mitm_addons/capture_codex.py:45 | no character below U+00A2 (so no ASCII text) is a marker |
| Mojibake.MaybeUnmojibake | mitm_addons/capture_codex.py:48-63 | the repair as written returns the Latin-1 candidate whenever it has fewer markers than the input, and the input otherwise; it never raises the marker count and leaves marker-free text alone |
| Mojibake.CleanTextIsFixed | mitm_addons/capture_codex.py:53-57 | text without markers is returned unchanged, so repairing it twice is repairing it once |
| Mojibake.LatinRepairUndoesLatinMojibake | mitm_addons/capture_codex.py:58-63 | text whose UTF-8 bytes were misread as Latin-1 is restored when the misreading shows more markers |
| Mojibake.LatinRepairDeletesQuote | mitm_addons/capture_codex.py:49-63 | the repair as written turns the docstring's example `â€™` into the empty string |
| Mojibake.Repair | mitm_addons/capture_codex.py:48-63 | the corrected repair keeps the same choice rule with the Windows-1252 candidate: the candidate whenever it has fewer markers, else the input; marker count never raised, marker-free text left alone |
| Mojibake.RepairLeavesCleanText | mitm_addons/capture_codex.py:53-57 | the corrected repair leaves marker-free text unchanged and is idempotent on it |
| Mojibake.RepairUndoesCp1252Mojibake | mitm_addons/capture_codex.py:58-63 | text whose UTF-8 bytes were misread as Windows-1252 is restored when the misreading shows more markers |
| Mojibake.RepairRestoresQuote | mitm_addons/capture_codex.py:49 | the corrected repair turns `â€™` back into `’`, as the docstring promises |
| Capture.PostInAnyCase | mitm_addons/capture_codex.py:108 | the verb test passes exactly the four-letter spellings of POST in any mix of case |
| Capture.RelevanceGate | mitm_addons/capture_codex.py:105-123 | an exchange is relevant exactly when both sides are present, the verb is POST in any case, `"model"` stands somewhere in the request body, and a non-empty filter stands somewhere in the URL |
| Capture.SseDetection | mitm_addons/capture_codex.py:134-135 | a response is a stream exactly when its lower-cased content type contains `text/event-stream` or its body, after a run of whitespace, opens with `data:` |
| Capture.Messages | mitm_addons/capture_codex.py:187-191 | the message list is read exactly when the request is a dict whose `messages` is missing, falsy or a list; it is that list, or empty when `messages` is missing or falsy |
| Capture.ToolsCount | mitm_addons/capture_codex.py:203-205 | `tools_count` is the length of `tools` when the request is a dict and `tools` a list, and 0 otherwise |
| Capture.UserPreview | mitm_addons/capture_codex.py:213 | a last user content that is a string of more than 300 characters becomes its first 300 plus "…"; any other value is kept as it is |
| Capture.LastUserIsLast | mitm_addons/capture_codex.py:192-195 | the last-user scan returns the `content` of the last dict whose role is "user" |
| Capture.NoUserNoLastUser | mitm_addons/capture_codex.py:192-195 | without a user message there is no last user message |
| Capture.SystemCharsAppend | mitm_addons/capture_codex.py:196-202 | the system-prompt character count of a conversation is the sum over its parts |
| Capture.Cut | mitm_addons/capture_codex.py:213 | a string longer than the limit is cut to the limit plus "…"; a shorter one is kept |
| Capture.TextPreview | mitm_addons/capture_codex.py:218-219 | the preview is `None` exactly for the empty text; otherwise it is the text when at most 800 characters, else its first 800 characters plus "…" |
| Capture.BuildSummary | mitm_addons/capture_codex.py:181-221 | every field of the summary: endpoint, verb and status as given; `model` read only from a dict request; the message count, last-user preview and system characters from `Messages`; `tools_count`; `is_stream` exactly when the response is a stream or the request's `stream` is truthy; and the two previews taken from the texts after `_maybe_unmojibake` |
| Capture.Extract | mitm_addons/capture_codex.py:101-239 | nothing is captured exactly when the exchange fails the gate. The hook raises exactly when a relevant response is not readable: a stream with events raises when an event is malformed, any other response when its body parsed as JSON is. Otherwise the answer comes from the stream for a stream and from the body otherwise, and the reasoning comes from the stream only for a stream with events. The summary is `BuildSummary` of those texts, the counts are the list lengths, and the capture records the request, the verbatim body and the events exactly for a stream |
| Capture.EmptyStreamReadsReasoningFromBody | mitm_addons/capture_codex.py:157-178 | a response routed as a stream that holds no `data:` line has no answer preview, and its reasoning preview is the body's non-streaming reasoning after `_maybe_unmojibake` |
| Capture.Examine | mitm_addons/capture_codex.py:101-239 | the hook's computation (gate, parse, routing, loops, summary, payload) yields `Extract`, and so everything `Extract` states |
| Capture.CodexCapture.constructor | mitm_addons/capture_codex.py:67-69 | a new addon has no cached directory and an empty store |
| Capture.CodexCapture.Store | mitm_addons/capture_codex.py:241-258 | the writes happen in order up to the first failure. The directory is resolved once and cached (option, then environment, then beside the addon). A complete capture sets `latest` to the payload, `latest.request` to the pretty request JSON when it is a dict and to the raw body otherwise, and `latest.response` to the body. It appends exactly one history entry and leaves the snapshot files mirroring the last history entry |
| Capture.CodexCapture.Response | mitm_addons/capture_codex.py:101-258 | an irrelevant exchange or one whose JSON shape raises changes nothing; otherwise the payload of `Extract` is stored as `Store` states |
| CaptureExample.SummaryOfChatRequest | mitm_addons/capture_codex.py:187-206 | a request with a five-character system prompt, one user turn "hi" and no tools is summarised as model "x", two messages, five system characters, preview "hi", no tools, streaming only when the response is a stream |
| CaptureExample.StreamedHelloIsCaptured | mitm_addons/capture_codex.py:101-219 | a streamed "Hel" + "lo" exchange is captured with three events, the answer preview "Hello", no reasoning preview, flagged as a stream |
| CaptureExample.QuotePreviewIsLost | mitm_addons/capture_codex.py:144-218 | a non-streaming response whose one choice has `message.content` `â€™` is captured with no answer preview at all, because the repair as written deletes the text |
| Viewer.SummaryField | webapp/app.py:55-56 | a non-dict entry has no model or status; reading one raises exactly when the entry's summary is truthy but not a dict; otherwise it is the key's value in a truthy summary dict, and None for a missing or falsy summary |
| Viewer.WindowStart | webapp/app.py:47 | the window starts at `n - max_items`, or at 0 when that is negative |
| Viewer.LastIdx | webapp/app.py:45 | the last index exists exactly when there are lines, and is `n - 1` |
| Viewer.ReadHistoryMeta | webapp/app.py:38-64 | the loop returns the listings of the window's lines that parse (`MetaWindow`) and the last index |
| Viewer.MetaWindowSound | webapp/app.py:47-63 | every listing belongs to a line of the window that parses, and there are no more listings than lines in the window |
| Viewer.MetaWindowIncreasing | webapp/app.py:48-63 | the listed indices strictly increase |
| Viewer.MetaWindowComplete | webapp/app.py:48-52 | every line of the window that parses is listed |
| Viewer.MetaWindowRaisesIff | webapp/app.py:53-56 | the listing fails exactly when a line of the window is a dict whose summary is truthy but not a dict |
| Viewer.HistoryMetaBounds | webapp/app.py:47-48 | at most `max_items` entries are listed, all among the last `max_items` lines |
| Viewer.ReadCaptureByIdx | webapp/app.py:67-74 | an index outside the lines gives `None`; otherwise the parse result of that line |
| Viewer.IndexView | webapp/app.py:77-101 | the latest page renders when the listing succeeds; it shows `latest.json`, its current index is the last line, `prev` is the line before it when there is one, `next` is absent and it is the latest |
| Viewer.CaptureView | webapp/app.py:104-128 | 404 exactly when the index is out of range, unparsable or falsy. Otherwise `prev` is `idx - 1` exactly when `idx > 0` and `next` is `idx + 1` exactly when a later line exists. The page is the latest exactly when `idx` is the last index, that is exactly when there is no `next` |
| Viewer.LastCaptureMatchesIndex | webapp/app.py:113-127 | opening the last history line by index gives the same links as the latest page |
| Viewer.NextThenPrev | webapp/app.py:113-114 | following `next` and then `prev` comes back to the same entry |

## Left out

- `codex_capture.py` (process spawning, pid files, signals, argument parsing, the interactive setup, the browser launch) is not part of this model: it is operating-system plumbing.
- The mitmproxy integration is not modelled, because it is glue to code outside the repository:
  - `loader.add_option`
  - `ctx.options` (the filter and the directory option are parameters)
  - `ctx.log` (logging has no effect on the state)
  - the header objects (headers are a list of pairs, and the content type is given)
- `req.get_text` / `resp.get_text` and their fallbacks (`mitm_addons/capture_codex.py:111-114`, `129-132`) are not modelled: the body texts are given as they are decoded.
- The file system behind `_ensure_output_dir` is abstracted:
  - `os.makedirs`, `os.path` and the environment lookup are replaced by the three candidate directory strings, passed in.
  - The directory's creation is one step that may fail.
  - A write that fails part-way through a file is not modelled: each step either completes or fails before changing its file.
- JSON serialisation (`json.dump` with `indent=2`, `json.dumps`, `ensure_ascii=False`) and the JSON grammar are not modelled. `latest.request.json` is `PrettyJson(value)` or `RawText(body)`, and `history.jsonl` is the abstract sequence of payloads.
- Capture.CodexCapture.Store: the property "n captures give n history lines" is stated over that abstract sequence, not over the physical lines. `Text.LineSeparatorSplitsALine` shows why: a payload holding U+2028, U+2029 or U+0085 is written raw and read back by `splitlines` as several lines.
- Floating point and the clock are not modelled:
  - `timestamp` (`time.time()`) is a parameter.
  - `duration_ms` is a given integer.
  - The viewer's `float(obj.get("timestamp", 0))`, which can also raise, and all `strftime`/`stat().st_mtime` formatting are left out.
- Flask routing, `render_template` and `send_from_directory` are not modelled. Reading `latest.json` and `history.jsonl` is replaced by the parse results it produces. A page is `Rendered`, `NotFound` (404) or `ServerError` (an exception escaping the handler).
- Text.Upper / Text.Lower map only ASCII letters. Python's `str.upper`/`lower` also change non-ASCII letters, and a few of them (U+017F, U+0131, ligatures) map onto ASCII. This can decide `"POST"` only for such unusual method strings.
- JSON numbers are reals; NaN and Infinity, which `json.loads` accepts, are not modelled.
- Viewer.LastCaptureMatchesIndex and Viewer.NextThenPrev follow from the contracts of `IndexView` and `CaptureView` without further proof.

## Findings

| source | as written | input that shows it | evidently intended | confidence | as-written member | corrected member |
|---|---|---|---|---|---|---|
| mitm_addons/capture_codex.py:59 | the repair candidate is `s.encode("latin1", errors="ignore").decode("utf-8", errors="ignore")`. `€`, `™`, `œ` and `ž` are among the markers but have no Latin-1 byte, so they are dropped instead of turned back into the bytes they came from | `"â€™"` (U+00E2 U+20AC U+2122, the docstring's own example): only 0xE2 survives the encoding, it is not valid UTF-8 on its own, and the text becomes `""` (its marker count 0 < 3, so the candidate is taken) | encode with Windows-1252 (`cp1252`), the code page that produced these markers, so that `"â€™"` becomes `"’"` as the docstring says | high; not executed | Mojibake.LatinRepairDeletesQuote | Mojibake.RepairRestoresQuote |

The capture hook of this model (`Capture.BuildSummary`) calls the repair as written, `Mojibake.MaybeUnmojibake`, so that the summary is the one the program writes. `CaptureExample.QuotePreviewIsLost` shows the effect on a whole capture: the answer preview disappears. The corrected `Mojibake.Repair` is proved beside it (`Mojibake.RepairLeavesCleanText`, `Mojibake.RepairUndoesCp1252Mojibake`, `Mojibake.RepairRestoresQuote`). Using it in the hook means replacing `MaybeUnmojibake` by `Repair` in the two preview fields of `BuildSummary`.
