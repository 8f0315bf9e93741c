/**
  The slide grammar of the chart loader. After the head of a slide note comes
  a shape mark, optional extra shape letters, the destination (the last digit
  before the timing bracket or the next `*`), an optional `@`, and a
  `[timing]` bracket; further tracks follow after `*`.
*/
module SlideGrammar {
  import opened Py
  import opened BracketTiming

  /** The characters that start a slide track. */
  const SlideMarks: string := "-^v<>Vpqszw"

  /** Extra shape letters that may follow the mark (`pp`, `qq`, `V`, ...). */
  const ShapeLetters: string := "pqVvzs"

  // ---------------------------------------------------------------- destination digit

  /** The index of the last digit in `s[from..hi]`, if any. */
  function LastDigit(s: string, from: nat, hi: nat): (r: Option<nat>)
    requires from <= hi <= |s|
    ensures r.Some? ==> from <= r.value < hi && IsDigit(s[r.value])
    ensures r.Some? ==> forall k :: r.value < k < hi ==> !IsDigit(s[k])
    ensures r.None? ==> forall k :: from <= k < hi ==> !IsDigit(s[k])
    decreases hi
  {
    if hi == from then None
    else if IsDigit(s[hi - 1]) then Some(hi - 1)
    else LastDigit(s, from, hi - 1)
  }

  /** The value of the last digit in `s[from..hi]`, 0 when there is none. */
  function EndDigit(s: string, from: nat, hi: nat): (d: int)
    requires from <= hi <= |s|
    ensures 0 <= d <= 9
  {
    match LastDigit(s, from, hi)
    case None => 0
    case Some(j) => DigitValue(s[j])
  }

  /** The last digit of a stretch is the one `EndDigit` reports. */
  lemma {:induction false} EndDigitIsLast(s: string, from: nat, hi: nat, j: nat)
    requires from <= j < hi <= |s| && IsDigit(s[j])
    requires forall k :: j < k < hi ==> !IsDigit(s[k])
    ensures EndDigit(s, from, hi) == DigitValue(s[j])
    decreases hi
  {
    if j < hi - 1 {
      assert !IsDigit(s[hi - 1]);
      EndDigitIsLast(s, from, hi - 1, j);
    }
  }

  /**
    `_extract_end_position`: the last digit before the first `[` (or in the
    whole track when it has none), 0 when there is no digit there.
  */
  method ExtractEndPosition(track: string) returns (last: int)
    ensures last == EndDigit(track, 0, FindAny(track, 0, "["))
    ensures 0 <= last <= 9
  {
    // str.find reports -1 for a missing '['; FindAny reports len(track) directly.
    var bracketPos := FindAny(track, 0, "[");
    last := 0;
    for i := 0 to bracketPos
      invariant last == EndDigit(track, 0, i)
    {
      if IsDigit(track[i]) {
        last := DigitValue(track[i]);
      }
    }
  }

  // ---------------------------------------------------------------- one track

  /** Where the destination scan of a track starts: past one mark and any shape letters. */
  function TrackBody(s: string, start: nat): (b: nat)
    requires start <= |s|
    ensures start <= b <= |s|
  {
    var a := if start < |s| && s[start] in SlideMarks then start + 1 else start;
    SkipAny(s, a, ShapeLetters)
  }

  /** Where a track's destination scan stops: the next `[` or `*`. */
  function TrackScanEnd(s: string, start: nat): (k: nat)
    requires start <= |s|
    ensures TrackBody(s, start) <= k <= |s|
  {
    FindAny(s, TrackBody(s, start), "[*")
  }

  /** The index after the destination digit (and after an `@` on it), where a bracket may open. */
  function TrackBracketAt(s: string, start: nat): (p: nat)
    requires start <= |s|
    ensures p <= |s|
  {
    var b := TrackBody(s, start);
    var p := if DigitIndex(s, b) >= 0 then DigitIndex(s, b) + 1 else b;
    if p < |s| && s[p] == '@' then p + 1 else p
  }

  /** The text between a `[` at `p` and the next `]` (or the end of `s`). */
  function BracketText(s: string, p: nat): (t: string)
    requires p < |s|
  {
    s[p + 1..FindAny(s, p + 1, "]")]
  }

  /**
    The `(duration, wait)` of a track whose bracket would open at `p`: one
    beat of wait and no duration unless a non-empty bracket parses; a
    ValueError from the resolver keeps those defaults, any other error
    propagates. One beat is computed first, so a zero tempo raises.
  */
  function TrackTiming(s: string, p: nat, bpm: real): (r: Outcome<(real, real)>)
    requires p <= |s|
    ensures r.Raise? ==> r.exc != ValueError
    ensures bpm == 0.0 ==> r == Raise(ZeroDivisionError)
    ensures bpm != 0.0 && (p == |s| || s[p] != '[') ==> r == Ok((0.0, 60.0 / bpm))
  {
    if bpm == 0.0 then Raise(ZeroDivisionError)
    else if p < |s| && s[p] == '[' && BracketText(s, p) != [] then
      match ParseSlideTiming(BracketText(s, p), bpm)
      case Ok(v) => Ok(v)
      case Raise(e) => if e == ValueError then Ok((0.0, 60.0 / bpm)) else Raise(e)
    else Ok((0.0, 60.0 / bpm))
  }

  /**
    `_parse_slide_track`: the `(duration, wait, destination)` of the track
    whose mark is at `start`.
  */
  function SlideTrack(s: string, start: nat, bpm: real): (r: Outcome<(real, real, int)>)
    requires start <= |s|
    ensures bpm == 0.0 ==> r == Raise(ZeroDivisionError)
    ensures r.Raise? ==> r.exc != ValueError
    ensures r.Ok? ==> r.value.2 == EndDigit(s, TrackBody(s, start), TrackScanEnd(s, start))
  {
    match TrackTiming(s, TrackBracketAt(s, start), bpm)
    case Ok(v) => Ok((v.0, v.1, EndDigit(s, TrackBody(s, start), TrackScanEnd(s, start))))
    case Raise(e) => Raise(e)
  }

  /** The index of the last digit before the next `[` or `*`, or -1. */
  function DigitIndex(s: string, b: nat): (j: int)
    requires b <= |s|
  {
    match LastDigit(s, b, FindAny(s, b, "[*"))
    case None => -1
    case Some(j) => j
  }

  /** The destination loop of `_parse_slide_track`, scanning from the track body at `b`. */
  method ScanDestination(s: string, b: nat) returns (lastDigitPos: int, endPosition: int)
    requires b <= |s|
    ensures lastDigitPos == DigitIndex(s, b)
    ensures endPosition == EndDigit(s, b, FindAny(s, b, "[*"))
  {
    lastDigitPos := -1;
    endPosition := 0;
    var t := b;
    while t < |s| && s[t] !in "[*"
      invariant b <= t <= |s|
      invariant FindAny(s, t, "[*") == FindAny(s, b, "[*")
      invariant lastDigitPos == match LastDigit(s, b, t) case None => -1 case Some(j) => j
      invariant endPosition == EndDigit(s, b, t)
      decreases |s| - t
    {
      if IsDigit(s[t]) {
        lastDigitPos := t;
        endPosition := DigitValue(s[t]);
      }
      t := t + 1;
    }
  }

  /** The imperative scan of `_parse_slide_track`, proved to compute `SlideTrack`. */
  method ParseSlideTrack(s: string, start: nat, bpm: real) returns (r: Outcome<(real, real, int)>)
    requires start <= |s|
    ensures r == SlideTrack(s, start, bpm)
  {
    var i := start;
    if i < |s| && s[i] in SlideMarks {
      i := i + 1;
    }
    while i < |s| && s[i] in ShapeLetters
      invariant i <= |s|
      invariant SkipAny(s, i, ShapeLetters) == TrackBody(s, start)
      decreases |s| - i
    {
      i := i + 1;
    }
    assert i == TrackBody(s, start);
    var lastDigitPos, endPosition := ScanDestination(s, i);
    if lastDigitPos >= 0 {
      i := lastDigitPos + 1;
    }
    if i < |s| && s[i] == '@' {
      i := i + 1;
    }
    assert i == TrackBracketAt(s, start);
    var timing := ParseTrackBracket(s, i, bpm);
    match timing
    case Raise(e) =>
      return Raise(e);
    case Ok(v) =>
      return Ok((v.0, v.1, endPosition));
  }

  /** The bracket part of `_parse_slide_track`, for a bracket that would open at `i`. */
  method ParseTrackBracket(s: string, at: nat, bpm: real) returns (r: Outcome<(real, real)>)
    requires at <= |s|
    ensures r == TrackTiming(s, at, bpm)
  {
    var i := at;
    var duration := 0.0;
    if bpm == 0.0 {
      return Raise(ZeroDivisionError);
    }
    var wait := 60.0 / bpm;
    if i < |s| && s[i] == '[' {
      ghost var p := i;
      i := i + 1;
      var timing := "";
      while i < |s| && s[i] != ']'
        invariant p + 1 <= i <= |s|
        invariant FindAny(s, i, "]") == FindAny(s, p + 1, "]")
        invariant timing == s[p + 1..i]
        decreases |s| - i
      {
        timing := timing + [s[i]];
        i := i + 1;
      }
      if timing != [] {
        var parsed := ParseSlideTiming(timing, bpm);
        match parsed
        case Ok(v) =>
          duration, wait := v.0, v.1;
        case Raise(e) =>
          if e != ValueError {
            return Raise(e);
          }
      }
    }
    return Ok((duration, wait));
  }

  /**
    A track written as a mark, one destination digit and a bracket, as in
    `-4[8:3]` or `^5[160#8:3]`: the destination is that digit and the timing
    is what the bracket resolver makes of the bracket text.
  */
  lemma TrackOfTiming(h: string, m: char, dest: char, t: string, rest: string,
                      bpm: real, v: (real, real))
    requires m in SlideMarks && IsDigit(dest)
    requires t != [] && ']' !in t && bpm != 0.0
    requires ParseSlideTiming(t, bpm) == Ok(v)
    ensures SlideTrack(h + [m] + [dest] + "[" + t + "]" + rest, |h|, bpm) == Ok((v.0, v.1, DigitValue(dest)))
  {
    var s := h + [m] + [dest] + "[" + t + "]" + rest;
    TrackShape(h, m, dest, t, rest);
    TimingOfBracket(s, |h| + 2, bpm, t, v);
    SlideTrackOf(s, |h|, bpm, v, DigitValue(dest));
  }

  /** Where the pieces of `h + m + dest + [t] + rest` sit for the track starting at `|h|`. */
  lemma TrackShape(h: string, m: char, dest: char, t: string, rest: string)
    requires m in SlideMarks && IsDigit(dest) && ']' !in t
    ensures var s := h + [m] + [dest] + "[" + t + "]" + rest;
      TrackBracketAt(s, |h|) == |h| + 2 && s[|h| + 2] == '[' && BracketText(s, |h| + 2) == t
      && EndDigit(s, TrackBody(s, |h|), TrackScanEnd(s, |h|)) == DigitValue(dest)
  {
    var s := h + [m] + [dest] + "[" + t + "]" + rest;
    var n := |h|;
    assert s[n] == m && s[n + 1] == dest && s[n + 2] == '[';
    assert TrackBody(s, n) == n + 1;
    FindAnyIs(s, n + 1, "[*", n + 2);
    assert LastDigit(s, n + 1, n + 2) == Some(n + 1);
    assert TrackBracketAt(s, n) == n + 2;
    var close := n + 3 + |t|;
    assert s[close] == ']';
    forall j | n + 3 <= j < close ensures s[j] !in "]" {
      assert s[j] == t[j - (n + 3)];
    }
    FindAnyIs(s, n + 3, "]", close);
    assert s[n + 3..close] == t;
    EndDigitIsLast(s, n + 1, n + 2, n + 1);
  }

  lemma TimingOfBracket(s: string, p: nat, bpm: real, t: string, v: (real, real))
    requires p < |s| && s[p] == '[' && BracketText(s, p) == t && t != []
    requires bpm != 0.0 && ParseSlideTiming(t, bpm) == Ok(v)
    ensures TrackTiming(s, p, bpm) == Ok(v)
  {
  }

  lemma SlideTrackOf(s: string, start: nat, bpm: real, v: (real, real), e: int)
    requires start <= |s| && TrackTiming(s, TrackBracketAt(s, start), bpm) == Ok(v)
    requires EndDigit(s, TrackBody(s, start), TrackScanEnd(s, start)) == e
    ensures SlideTrack(s, start, bpm) == Ok((v.0, v.1, e))
  {
  }

  /** The doc form `-4[8:3]`: `D:C` of travel at the current tempo, one beat of wait. */
  lemma TrackOfBeats(h: string, m: char, dest: char, d: string, c: string, rest: string,
                     bpm: real, divide: real, count: real)
    requires m in SlideMarks && IsDigit(dest)
    requires Numeral(d) && Numeral(c)
    requires ParseFloat(d) == Some(divide) && ParseFloat(c) == Some(count)
    requires bpm != 0.0 && divide != 0.0
    ensures SlideTrack(h + [m] + [dest] + "[" + (d + ":" + c) + "]" + rest, |h|, bpm)
            == Ok((240.0 * count / (bpm * divide), 60.0 / bpm, DigitValue(dest)))
  {
    SlideTimingBeats(d, c, bpm, divide, count);
    NumeralHasNoBracket(d + ":" + c, d, c);
    TrackOfTiming(h, m, dest, d + ":" + c, rest, bpm, (240.0 * count / (bpm * divide), 60.0 / bpm));
  }

  lemma NumeralHasNoBracket(t: string, d: string, c: string)
    requires Numeral(d) && Numeral(c) && t == d + ":" + c
    ensures t != [] && ']' !in t
  {
    forall j | 0 <= j < |t| ensures t[j] != ']' {
      if j < |d| {
        assert t[j] == d[j] && (IsDigit(d[j]) || d[j] == '.');
      } else if j > |d| {
        assert t[j] == c[j - |d| - 1] && (IsDigit(c[j - |d| - 1]) || c[j - |d| - 1] == '.');
      }
    }
  }

  // ---------------------------------------------------------------- skipping tracks

  /**
    The index just past one track starting at `i`: its marks, its shape
    letters, everything up to the next `[` or `*`, and a bracket through its
    `]` (or to the end of the text when the `]` is missing).
  */
  function TrackEnd(s: string, i: nat): (e: nat)
    requires i <= |s|
    ensures i <= e <= |s|
  {
    var k := FindAny(s, SkipAny(s, SkipAny(s, i, SlideMarks), ShapeLetters), "[*");
    if k < |s| && s[k] == '[' then
      var c := FindAny(s, k + 1, "]");
      if c < |s| then c + 1 else c
    else k
  }

  /** From the end `e` of a track, skip every further `*`-separated track. */
  function ChainEnd(s: string, e: nat): (r: nat)
    requires e <= |s|
    ensures e <= r <= |s|
    ensures r < |s| ==> s[r] != '*'
    decreases |s| - e
  {
    if e < |s| && s[e] == '*' then ChainEnd(s, TrackEnd(s, e + 1)) else e
  }

  /** Where `_skip_past_all_slide_tracks` stops: past the first track and every chained one. */
  function SkipTracks(s: string, start: nat): (r: nat)
    requires start <= |s|
    ensures start <= r <= |s|
    ensures r < |s| ==> s[r] != '*'
  {
    ChainEnd(s, TrackEnd(s, start))
  }

  /** The scan over one track, shared by the first track and every chained one. */
  method SkipTrack(s: string, start: nat) returns (i: nat)
    requires start <= |s|
    ensures i == TrackEnd(s, start)
  {
    i := start;
    while i < |s| && s[i] in SlideMarks
      invariant i <= |s| && SkipAny(s, i, SlideMarks) == SkipAny(s, start, SlideMarks)
      decreases |s| - i
    {
      i := i + 1;
    }
    // Every shape letter is also a mark, so the source's second loop over
    // shape letters never advances here.
    ghost var body := i;
    assert SkipAny(s, body, ShapeLetters) == body;
    while i < |s| && s[i] !in "[*"
      invariant body <= i <= |s| && FindAny(s, i, "[*") == FindAny(s, body, "[*")
      decreases |s| - i
    {
      i := i + 1;
    }
    if i < |s| && s[i] == '[' {
      i := i + 1;
      while i < |s| && s[i] != ']'
        invariant i <= |s| && FindAny(s, i, "]") == FindAny(s, FindAny(s, body, "[*") + 1, "]")
        decreases |s| - i
      {
        i := i + 1;
      }
      if i < |s| {
        i := i + 1;
      }
    }
  }

  /**
    `_skip_past_all_slide_tracks`: the index past every track of a slide
    note, and whether the note is a break slide, which it is exactly when a
    `b` occurs anywhere in the note text.
  */
  method SkipPastAllSlideTracks(s: string, start: nat) returns (i: nat, isBreak: bool)
    requires start <= |s|
    ensures i == SkipTracks(s, start)
    ensures isBreak <==> 'b' in s
  {
    i := SkipTrack(s, start);
    while i < |s| && s[i] == '*'
      invariant i <= |s| && ChainEnd(s, i) == SkipTracks(s, start)
      decreases |s| - i
    {
      i := SkipTrack(s, i + 1);
    }
    isBreak := 'b' in s;
  }

  // ---------------------------------------------------------------- chained tracks

  /**
    `_parse_slide_track_from_string`, for a track after a `*`: no `[` gives
    no duration and one beat of wait; a `[` without a later `]` gives None,
    and so does a ValueError from the resolver; other errors propagate.
  */
  function SlideTrackFromString(track: string, bpm: real): (r: Outcome<Option<(real, real)>>)
    ensures r.Raise? ==> r.exc != ValueError
    ensures bpm == 0.0 && '[' !in track ==> r == Raise(ZeroDivisionError)
    ensures bpm != 0.0 && '[' !in track ==> r == Ok(Some((0.0, 60.0 / bpm)))
    ensures '[' in track && ']' !in track[FindAny(track, 0, "[")..] ==> r == Ok(None)
  {
    var open := FindAny(track, 0, "[");
    if open == |track| then
      if bpm == 0.0 then Raise(ZeroDivisionError) else Ok(Some((0.0, 60.0 / bpm)))
    else
      var close := FindAny(track, open, "]");
      if close == |track| then Ok(None)
      else
        match ParseSlideTiming(track[open + 1..close], bpm)
        case Ok(v) => Ok(Some(v))
        case Raise(e) => if e == ValueError then Ok(None) else Raise(e)
  }
}
