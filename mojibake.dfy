/** The mojibake repair applied to the reconstructed texts before they are previewed
    (`_MOJIBAKE_MARKERS` and `_maybe_unmojibake`, mitm_addons/capture_codex.py). */
module Mojibake {
  import opened Wrappers
  import opened Encoding

  /** The nine markers: U+00C3, U+00C2, U+00E2, U+0153, U+017E, U+00A2, U+20AC, U+2122 and
      U+FFFD. Each is a single character. */
  const Markers: seq<char> :=
    ['\U{C3}', '\U{C2}', '\U{E2}', '\U{153}', '\U{17E}', '\U{A2}', '\U{20AC}', '\U{2122}', '\U{FFFD}']

  predicate IsMarker(c: char) {
    c in Markers
  }

  /** `s.count(m)` for a one-character `m`. */
  function Occurrences(s: string, m: char): nat {
    if s == [] then 0 else (if s[0] == m then 1 else 0) + Occurrences(s[1..], m)
  }

  function SumOccurrences(s: string, ms: seq<char>): nat {
    if ms == [] then 0 else Occurrences(s, ms[0]) + SumOccurrences(s, ms[1..])
  }

  /** `sum(s.count(m) for m in _MOJIBAKE_MARKERS)` */
  function MarkerCount(s: string): nat {
    SumOccurrences(s, Markers)
  }

  /** Every marker lies above U+00A1, so ASCII text holds none. */
  lemma LowCharsAreNotMarkers(s: string)
    requires forall i :: 0 <= i < |s| ==> s[i] < '\U{A2}'
    ensures forall i :: 0 <= i < |s| ==> !IsMarker(s[i])
  {
    assert forall j :: 0 <= j < |Markers| ==> Markers[j] >= '\U{A2}';
  }

  /** The number of characters of `s` that are markers: the same count, character by
      character, because the markers are distinct single characters. */
  function MarkerChars(s: string): nat {
    if s == [] then 0 else (if IsMarker(s[0]) then 1 else 0) + MarkerChars(s[1..])
  }

  predicate Distinct(ms: seq<char>) {
    forall i, j :: 0 <= i < j < |ms| ==> ms[i] != ms[j]
  }

  lemma {:induction false} SumOccurrencesOfCons(c: char, s: string, ms: seq<char>)
    requires Distinct(ms)
    ensures SumOccurrences([c] + s, ms) == (if c in ms then 1 else 0) + SumOccurrences(s, ms)
  {
    if ms != [] {
      assert Distinct(ms[1..]);
      SumOccurrencesOfCons(c, s, ms[1..]);
      assert ([c] + s)[1..] == s;
      assert c in ms <==> c == ms[0] || c in ms[1..];
      assert ms[0] !in ms[1..];
    }
  }

  lemma {:induction false} EmptyHasNoOccurrences(ms: seq<char>)
    ensures SumOccurrences([], ms) == 0
  {
    if ms != [] {
      EmptyHasNoOccurrences(ms[1..]);
    }
  }

  /** `sum(s.count(m) for m in _MOJIBAKE_MARKERS)` counts each marker character of `s`
      once, because the markers are distinct. */
  lemma {:induction false} MarkerCountIsMarkerChars(s: string)
    ensures MarkerCount(s) == MarkerChars(s)
  {
    if s == [] {
      EmptyHasNoOccurrences(Markers);
    } else {
      assert s == [s[0]] + s[1..];
      assert Distinct(Markers);
      SumOccurrencesOfCons(s[0], s[1..], Markers);
      MarkerCountIsMarkerChars(s[1..]);
    }
  }

  /** No marker is counted exactly when no character of the text is a marker. */
  lemma {:induction false} MarkerCountZeroIff(s: string)
    ensures MarkerCount(s) == 0 <==> forall i :: 0 <= i < |s| ==> !IsMarker(s[i])
  {
    MarkerCountIsMarkerChars(s);
    MarkerCharsZeroIff(s);
  }

  lemma {:induction false} MarkerCharsZeroIff(s: string)
    ensures MarkerChars(s) == 0 <==> forall i :: 0 <= i < |s| ==> !IsMarker(s[i])
  {
    if s != [] {
      MarkerCharsZeroIff(s[1..]);
      assert forall i :: 1 <= i < |s| ==> s[i] == s[1..][i - 1];
    }
  }

  // ---------------------------------------------------------------------------
  // The repair as written: a Latin-1 round trip.
  // ---------------------------------------------------------------------------

  /** `s.encode("latin1", errors="ignore").decode("utf-8", errors="ignore")`; neither
      step can raise, so the `except` branch of the source is never taken. */
  function LatinCandidate(s: string): string {
    Utf8Decode(Latin1Encode(s))
  }

  /** `_maybe_unmojibake` as written. */
  function MaybeUnmojibake(s: string): (r: string)
    ensures r == s || r == LatinCandidate(s)
    ensures MarkerCount(r) <= MarkerCount(s)
    ensures r != s ==> MarkerCount(r) < MarkerCount(s)
    ensures MarkerCount(s) == 0 ==> r == s
    ensures MarkerCount(LatinCandidate(s)) < MarkerCount(s) ==> r == LatinCandidate(s)
  {
    if s == [] then s
    else
      var origBad := MarkerCount(s);
      if origBad == 0 then s
      else
        var cand := LatinCandidate(s);
        if MarkerCount(cand) < origBad then cand else s
  }

  /** Text with no marker character is left alone, so repairing twice is repairing once. */
  lemma CleanTextIsFixed(s: string)
    requires forall i :: 0 <= i < |s| ==> !IsMarker(s[i])
    ensures MaybeUnmojibake(s) == s
    ensures MaybeUnmojibake(MaybeUnmojibake(s)) == MaybeUnmojibake(s)
  {
    MarkerCountZeroIff(s);
  }

  /** What UTF-8 text looks like when its bytes are read as Latin-1. */
  function LatinMojibake(s: string): string {
    Latin1Decode(Utf8Encode(s))
  }

  /** The Latin-1 round trip restores text that was misread as Latin-1, whenever the
      misreading shows more markers than the original. */
  lemma LatinRepairUndoesLatinMojibake(s: string)
    requires MarkerCount(s) < MarkerCount(LatinMojibake(s))
    ensures MaybeUnmojibake(LatinMojibake(s)) == s
  {
    Latin1RoundTrip(Utf8Encode(s));
    Utf8RoundTrip(s);
  }

  /** The docstring's own example, U+00E2 U+20AC U+2122 (the right single quote U+2019
      misread as Windows-1252): U+20AC and U+2122 have no Latin-1 byte and are dropped,
      the lone byte 0xE2 is not valid UTF-8 and is dropped too, so the quote is deleted
      instead of restored. */
  lemma LatinRepairDeletesQuote()
    ensures MaybeUnmojibake("\U{E2}\U{20AC}\U{2122}") == ""
  {
    QuoteMojibakeMarkers();
    LatinCandidateOfQuote();
  }

  /** The three characters are all markers; the quote itself is not one. */
  lemma QuoteMojibakeMarkers()
    ensures MarkerCount("\U{E2}\U{20AC}\U{2122}") == 3
    ensures MarkerCount("\U{2019}") == 0
    ensures MarkerCount("") == 0
  {
    var m := "\U{E2}\U{20AC}\U{2122}";
    assert IsMarker(Markers[2]) && IsMarker(Markers[6]) && IsMarker(Markers[7]);
    assert MarkerChars("\U{2122}") == 1;
    assert "\U{20AC}\U{2122}"[1..] == "\U{2122}";
    assert MarkerChars("\U{20AC}\U{2122}") == 2;
    assert m[1..] == "\U{20AC}\U{2122}";
    MarkerCountIsMarkerChars(m);
    QuoteIsNoMarker();
    MarkerCountZeroIff("");
  }

  lemma QuoteIsNoMarker()
    ensures MarkerCount("\U{2019}") == 0
  {
    assert forall j :: 0 <= j < |Markers| ==> Markers[j] != '\U{2019}';
    MarkerCountZeroIff("\U{2019}");
  }

  lemma LatinCandidateOfQuote()
    ensures LatinCandidate("\U{E2}\U{20AC}\U{2122}") == ""
  {
    var s := "\U{E2}\U{20AC}\U{2122}";
    assert s[1..] == "\U{20AC}\U{2122}" && s[1..][1..] == "\U{2122}" && s[1..][1..][1..] == [];
    assert Latin1Encode(s) == [0xE2];
    var bs: seq<byte> := [0xE2];
    assert SeqLen(bs) == 0 && bs[1..] == [];
  }

  // ---------------------------------------------------------------------------
  // The repair as intended: a Windows-1252 round trip.
  // ---------------------------------------------------------------------------

  /** `s.encode("cp1252", errors="ignore").decode("utf-8", errors="ignore")` */
  function Cp1252Candidate(s: string): string {
    Utf8Decode(Cp1252Encode(s))
  }

  /** The repair with the Windows-1252 candidate; same choice rule as the source. */
  function Repair(s: string): (r: string)
    ensures r == s || r == Cp1252Candidate(s)
    ensures MarkerCount(r) <= MarkerCount(s)
    ensures r != s ==> MarkerCount(r) < MarkerCount(s)
    ensures MarkerCount(s) == 0 ==> r == s
    ensures MarkerCount(Cp1252Candidate(s)) < MarkerCount(s) ==> r == Cp1252Candidate(s)
  {
    if s == [] then s
    else
      var origBad := MarkerCount(s);
      if origBad == 0 then s
      else
        var cand := Cp1252Candidate(s);
        if MarkerCount(cand) < origBad then cand else s
  }

  lemma RepairLeavesCleanText(s: string)
    requires forall i :: 0 <= i < |s| ==> !IsMarker(s[i])
    ensures Repair(s) == s
    ensures Repair(Repair(s)) == Repair(s)
  {
    MarkerCountZeroIff(s);
  }

  /** What UTF-8 text looks like when its bytes are read as Windows-1252 (`None` when a
      byte is one that Windows-1252 leaves undefined). */
  function Cp1252Mojibake(s: string): Option<string> {
    Cp1252Decode(Utf8Encode(s))
  }

  /** The Windows-1252 round trip restores text that was misread as Windows-1252,
      whenever the misreading shows more markers than the original. */
  lemma RepairUndoesCp1252Mojibake(s: string)
    requires Cp1252Mojibake(s).Some?
    requires MarkerCount(s) < MarkerCount(Cp1252Mojibake(s).value)
    ensures Repair(Cp1252Mojibake(s).value) == s
  {
    Cp1252RoundTrip(Utf8Encode(s));
    Utf8RoundTrip(s);
  }

  lemma Cp1252DecodeCons(b: byte, rest: seq<byte>)
    requires Cp1252Defined(b) && Cp1252Decode(rest).Some?
    ensures Cp1252Decode([b] + rest) == Some([Cp1252Char(b)] + Cp1252Decode(rest).value)
  {
    assert ([b] + rest)[1..] == rest;
  }

  /** The right single quote U+2019 misread as Windows-1252. */
  lemma QuoteMisread()
    ensures Cp1252Mojibake("\U{2019}") == Some("\U{E2}\U{20AC}\U{2122}")
  {
    var s := "\U{2019}";
    var bs: seq<byte> := [0xE2, 0x80, 0x99];
    assert EncodeChar('\U{2019}') == bs;
    assert s[1..] == [];
    assert Utf8Encode(s) == bs;
    assert Cp1252Char(0x99) == '\U{2122}' && Cp1252Char(0x80) == '\U{20AC}' && Cp1252Char(0xE2) == '\U{E2}';
    var b3: seq<byte> := [0x99];
    var b2: seq<byte> := [0x80] + b3;
    assert bs == [0xE2 as byte] + b2;
    Cp1252DecodeCons(0x99, []);
    assert [0x99 as byte] + [] == b3;
    assert [Cp1252Char(0x99)] + [] == "\U{2122}";
    Cp1252DecodeCons(0x80, b3);
    assert [Cp1252Char(0x80)] + "\U{2122}" == "\U{20AC}\U{2122}";
    Cp1252DecodeCons(0xE2, b2);
    assert ['\U{E2}'] + "\U{20AC}\U{2122}" == "\U{E2}\U{20AC}\U{2122}";
  }

  /** The docstring's example is repaired to the right single quote. */
  lemma RepairRestoresQuote()
    ensures Repair("\U{E2}\U{20AC}\U{2122}") == "\U{2019}"
  {
    QuoteMisread();
    QuoteMojibakeMarkers();
    RepairUndoesCp1252Mojibake("\U{2019}");
  }
}
