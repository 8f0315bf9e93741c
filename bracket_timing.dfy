/**
  The bracket resolver of the chart loader: the text inside `[...]` after a
  hold or a slide becomes seconds. `D:C` is C notes of a 1/D measure (four
  beats), `bpm#...` measures at another tempo, `wait##...` gives the wait
  before a slide in seconds, and anything that does not parse falls back to a
  fixed default. A zero tempo or divisor raises, as Python's `/` does.
*/
module BracketTiming {
  import opened Py

  /** `float(s)`, or `fallback` when that raises ValueError. */
  function FloatOr(s: string, fallback: real): real {
    match ParseFloat(s)
    case Some(v) => v
    case None => fallback
  }

  /** The two numbers of a `D:C` string: exactly one `:` and a float on each side. */
  function BeatParts(s: string): (r: Option<(real, real)>)
    ensures r.Some? ==> Count(':', s) == 1
  {
    if ':' in s then
      var parts := SplitOn(s, ':');
      if |parts| == 2 then
        match (ParseFloat(parts[0]), ParseFloat(parts[1]))
        case (Some(divide), Some(count)) => Some((divide, count))
        case _ => None
      else
        None
    else
      None
  }

  /** `(60 / bpm) * 4 / divide * count`, with Python's division by zero. */
  function BeatSeconds(bpm: real, divide: real, count: real): (r: Outcome<real>)
    ensures r.Raise? <==> bpm == 0.0 || divide == 0.0
    ensures r.Raise? ==> r.exc == ZeroDivisionError
  {
    if bpm == 0.0 || divide == 0.0 then Raise(ZeroDivisionError)
    else Ok(60.0 / bpm * 4.0 / divide * count)
  }

  /**
    `_parse_beat_value`: `[D:C]` at `bpm` lasts `(60 / bpm) * 4 / D * C`
    seconds; a string that does not split into exactly two numeric parts
    around `:` gives 0.0. One beat's length is computed first, so a zero
    tempo raises whatever the string.
  */
  function ParseBeatValue(beatStr: string, bpm: real): (r: Outcome<real>)
    ensures r.Raise? ==> r.exc == ZeroDivisionError
    ensures bpm == 0.0 ==> r.Raise?
    ensures bpm != 0.0 && ':' !in Strip(beatStr) ==> r == Ok(0.0)
    ensures bpm != 0.0 && Count(':', Strip(beatStr)) != 1 ==> r == Ok(0.0)
    ensures r.Raise? && bpm != 0.0 ==> BeatParts(Strip(beatStr)).Some? && BeatParts(Strip(beatStr)).value.0 == 0.0
  {
    if bpm == 0.0 then
      Raise(ZeroDivisionError)
    else
      match BeatParts(Strip(beatStr))
      case None => Ok(0.0)
      case Some((divide, count)) => BeatSeconds(bpm, divide, count)
  }

  /** `x * z == y * z` with `z` non-zero cancels. */
  lemma Cancel(x: real, y: real, z: real)
    requires z != 0.0 && x * z == y * z
    ensures x == y
  {
    assert (x - y) * z == 0.0;
  }

  /** `(60 / bpm) * 4 / D * C` is C notes of a 1/D measure of four beats: `240 C / (bpm D)`. */
  lemma BeatSecondsFormula(bpm: real, divide: real, count: real)
    requires bpm != 0.0 && divide != 0.0
    ensures BeatSeconds(bpm, divide, count) == Ok(240.0 * count / (bpm * divide))
  {
    var q := 60.0 / bpm;
    assert q * bpm == 60.0;
    var p := q * 4.0 / divide;
    assert p * divide == q * 4.0;
    var r := 240.0 * count / (bpm * divide);
    assert r * (bpm * divide) == 240.0 * count;
    assert p * count * (bpm * divide) == (p * divide) * (count * bpm);
    assert (q * 4.0) * (count * bpm) == 4.0 * count * (q * bpm);
    Cancel(p * count, r, bpm * divide);
    assert BeatSeconds(bpm, divide, count).value == p * count;
  }

  /** The seconds of `D:C` times the tempo do not depend on the tempo: `240 C / D`. */
  lemma BeatSecondsTimesTempo(bpm: real, divide: real, count: real)
    requires bpm != 0.0 && divide != 0.0
    ensures BeatSeconds(bpm, divide, count).value * bpm == 240.0 * count / divide
  {
    BeatSecondsFormula(bpm, divide, count);
    var r := 240.0 * count / (bpm * divide);
    assert r * (bpm * divide) == 240.0 * count;
    var t := 240.0 * count / divide;
    assert t * divide == 240.0 * count;
    assert (r * bpm) * divide == t * divide;
    Cancel(r * bpm, t, divide);
  }

  /** A string that splits into exactly two numbers around `:` gives those numbers. */
  lemma BeatPartsOfSplit(s: string, d: string, c: string)
    requires SplitOn(s, ':') == [d, c]
    requires ParseFloat(d).Some? && ParseFloat(c).Some?
    ensures BeatParts(s) == Some((ParseFloat(d).value, ParseFloat(c).value))
  {
  }

  /** `d:c` with no `:` and no surrounding blanks on either side is already stripped and splits back. */
  lemma {:induction false} LiteralPairSplits(d: string, c: string)
    requires d != [] && c != [] && !IsSpace(d[0]) && !IsSpace(c[|c| - 1])
    requires ':' !in d && ':' !in c
    ensures Strip(d + ":" + c) == d + ":" + c
    ensures SplitOn(d + ":" + c, ':') == [d, c]
  {
    var s := d + ":" + c;
    assert s[0] == d[0] && s[|s| - 1] == c[|c| - 1];
    StripClean(s);
    assert s == d + [':'] + c;
    SplitOnPair(d, c, ':');
  }

  /** A plain decimal literal holds no `:` or `#` and starts and ends with no blank. */
  lemma NumeralIsClean(d: string)
    requires Numeral(d)
    ensures ':' !in d && '#' !in d && !IsSpace(d[0]) && !IsSpace(d[|d| - 1]) && Trimmed(d)
  {
    assert IsDigit(d[0]) || d[0] == '.';
    assert IsDigit(d[|d| - 1]) || d[|d| - 1] == '.';
    forall k | 0 <= k < |d| ensures d[k] != ':' && d[k] != '#' {
      assert IsDigit(d[k]) || d[k] == '.';
    }
  }

  /** `D:C` written with two plain decimal literals splits into exactly those two numbers. */
  lemma BeatPartsOfLiterals(d: string, c: string)
    requires Numeral(d) && Numeral(c)
    ensures BeatParts(Strip(d + ":" + c)) == Some((ParseFloat(d).value, ParseFloat(c).value))
  {
    NumeralIsClean(d);
    NumeralIsClean(c);
    LiteralPairSplits(d, c);
    BeatPartsOfSplit(d + ":" + c, d, c);
  }

  /**
    The meaning of `[D:C]`: C notes of a 1/D measure of four beats, i.e.
    `240 * C / (bpm * D)` seconds, for any two plain decimal literals.
  */
  lemma BeatValueFormula(d: string, c: string, bpm: real, divide: real, count: real)
    requires Numeral(d) && Numeral(c)
    requires ParseFloat(d) == Some(divide) && ParseFloat(c) == Some(count)
    requires bpm != 0.0 && divide != 0.0
    ensures ParseBeatValue(d + ":" + c, bpm) == Ok(240.0 * count / (bpm * divide))
  {
    BeatPartsOfLiterals(d, c);
    BeatValueOfSplit(d + ":" + c, bpm, divide, count);
  }

  lemma BeatValueOfSplit(s: string, bpm: real, divide: real, count: real)
    requires bpm != 0.0 && divide != 0.0
    requires BeatParts(Strip(s)) == Some((divide, count))
    ensures ParseBeatValue(s, bpm) == Ok(240.0 * count / (bpm * divide))
  {
    ParseBeatValueOfParts(s, bpm, divide, count);
    BeatSecondsFormula(bpm, divide, count);
  }

  /** A bracket that splits into two numbers is their `BeatSeconds`. */
  lemma ParseBeatValueOfParts(beatStr: string, bpm: real, divide: real, count: real)
    requires bpm != 0.0 && BeatParts(Strip(beatStr)) == Some((divide, count))
    ensures ParseBeatValue(beatStr, bpm) == BeatSeconds(bpm, divide, count)
  {
  }

  /** A `D:C` bracket whose D reads as zero (`0:C`, `0.0:C`, ...) divides by zero. */
  lemma ZeroDivisorRaises(d: string, c: string, bpm: real, count: real)
    requires Numeral(d) && ParseFloat(d) == Some(0.0)
    requires Numeral(c) && ParseFloat(c) == Some(count)
    ensures ParseBeatValue(d + ":" + c, bpm) == Raise(ZeroDivisionError)
  {
    BeatPartsOfLiterals(d, c);
    if bpm != 0.0 {
      ParseBeatValueOfParts(d + ":" + c, bpm, 0.0, count);
    }
  }

  /** Whether a bracket raises does not depend on the (non-zero) tempo. */
  lemma TempoKeepsOutcome(beatStr: string, bpm: real, other: real)
    requires bpm != 0.0 && other != 0.0
    ensures ParseBeatValue(beatStr, bpm).Ok? <==> ParseBeatValue(beatStr, other).Ok?
  {
    match BeatParts(Strip(beatStr))
    case None =>
    case Some((divide, count)) =>
      ParseBeatValueOfParts(beatStr, bpm, divide, count);
      ParseBeatValueOfParts(beatStr, other, divide, count);
  }

  lemma ScaledSeconds(bpm: real, other: real, divide: real, count: real, x: real, y: real)
    requires bpm != 0.0 && other != 0.0 && divide != 0.0
    requires BeatSeconds(bpm, divide, count) == Ok(x) && BeatSeconds(other, divide, count) == Ok(y)
    ensures x * bpm == y * other
  {
    BeatSecondsTimesTempo(bpm, divide, count);
    BeatSecondsTimesTempo(other, divide, count);
  }

  /**
    The same bracket read at two tempos: the seconds scale inversely with
    the tempo, so `value * bpm` does not depend on it (together with
    `TempoKeepsOutcome`, which says both reads succeed or both raise).
  */
  lemma TempoScaling(beatStr: string, bpm: real, other: real, x: real, y: real)
    requires bpm != 0.0 && other != 0.0
    requires ParseBeatValue(beatStr, bpm) == Ok(x)
    requires ParseBeatValue(beatStr, other) == Ok(y)
    ensures x * bpm == y * other
  {
    var parts := BeatParts(Strip(beatStr));
    if parts.Some? {
      var divide, count := parts.value.0, parts.value.1;
      ParseBeatValueOfParts(beatStr, bpm, divide, count);
      ParseBeatValueOfParts(beatStr, other, divide, count);
      ScaledSeconds(bpm, other, divide, count, x, y);
    } else {
      ZeroWhenUnsplit(beatStr, bpm);
      ZeroWhenUnsplit(beatStr, other);
    }
  }

  lemma ZeroWhenUnsplit(beatStr: string, bpm: real)
    requires bpm != 0.0
    requires BeatParts(Strip(beatStr)).None? || BeatParts(Strip(beatStr)).value.0 == 0.0
    ensures ParseBeatValue(beatStr, bpm) == if BeatParts(Strip(beatStr)).None? then Ok(0.0) else Raise(ZeroDivisionError)
  {
  }

  /**
    A slide's duration string: `D:C` at `bpm` when it holds a `:`, bare
    seconds otherwise, 0.0 when the seconds do not parse.
  */
  function SlideDuration(durStr: string, bpm: real): (r: Outcome<real>)
    ensures r.Raise? ==> r.exc == ZeroDivisionError
    ensures ':' !in durStr ==> r == Ok(FloatOr(durStr, 0.0))
  {
    if ':' in durStr then ParseBeatValue(durStr, bpm) else Ok(FloatOr(durStr, 0.0))
  }

  /** The duration after `W##`: empty, `B#...` at tempo B, or a plain duration. */
  function DurationAfterWait(durStr: string, bpm: real): (r: Outcome<real>)
    ensures r.Raise? ==> r.exc == ZeroDivisionError
  {
    if durStr == [] then
      Ok(0.0)
    else if '#' in durStr then
      var h := FindAny(durStr, 0, "#");
      match ParseFloat(durStr[..h])
      case None => Ok(0.0)
      case Some(b) => SlideDuration(durStr[h + 1..], b)
    else
      SlideDuration(durStr, bpm)
  }

  /**
    The `B#...` form: one beat at tempo B of wait, then a duration measured at
    B. When B does not parse the wait stays `beat`, and a `D:C` duration then
    names a tempo that was never assigned.
  */
  function AtTempo(bpmStr: string, durStr: string, beat: real): (r: Outcome<(real, real)>)
    ensures r.Raise? ==> r.exc != ValueError
    ensures r.Raise? && r.exc == ZeroDivisionError ==> ParseFloat(bpmStr).Some?
    ensures r.Ok? && ParseFloat(bpmStr).None? ==> r.value.1 == beat
  {
    match ParseFloat(bpmStr)
    case Some(b) =>
      var wait :- Div(60.0, b);
      if durStr == [] then
        Ok((0.0, wait))
      else
        var d :- SlideDuration(durStr, b);
        Ok((d, wait))
    case None =>
      if durStr == [] then
        Ok((0.0, beat))
      else if ':' in durStr then
        Raise(UnboundLocalError)
      else
        Ok((FloatOr(durStr, 0.0), beat))
  }

  /**
    `_parse_slide_timing`: the (duration, wait) pair of a slide bracket.
    The wait defaults to one beat at the current tempo; `W##...` makes it W
    seconds (one beat again if W does not parse); `B#...` makes it one beat
    at tempo B. The duration is a `D:C` value, at tempo B after `B#`, or bare
    seconds, and 0.0 when it does not parse.
  */
  function ParseSlideTiming(timingStr: string, bpm: real): (r: Outcome<(real, real)>)
    ensures bpm == 0.0 ==> r.Raise?
    ensures r.Raise? ==> r.exc != ValueError
  {
    SlideTimingOf(Strip(timingStr), bpm)
  }

  /** `_parse_slide_timing` after its first `strip()`. */
  function SlideTimingOf(s: string, bpm: real): (r: Outcome<(real, real)>)
    ensures bpm == 0.0 ==> r.Raise?
    ensures r.Raise? ==> r.exc != ValueError
  {
    if bpm == 0.0 then
      Raise(ZeroDivisionError)
    else
      var beat := 60.0 / bpm;
      var k := FindSub(s, "##", 0);
      if k < |s| then
        WaitForm(s[..k], s[k + 2..], bpm, beat)
      else if '#' in s then
        var h := FindAny(s, 0, "#");
        AtTempo(Strip(s[..h]), Strip(s[h + 1..]), beat)
      else
        WithWait(SlideDuration(s, bpm), beat)
  }

  /** The `W##rest` form: W seconds of wait (`beat` if W does not parse), then `rest`'s duration. */
  function WaitForm(w: string, rest: string, bpm: real, beat: real): (r: Outcome<(real, real)>)
    ensures r.Raise? ==> r.exc == ZeroDivisionError
    ensures r.Ok? ==> r.value.1 == FloatOr(Strip(w), beat)
  {
    WithWait(DurationAfterWait(Strip(rest), bpm), FloatOr(Strip(w), beat))
  }

  /** Pairs a duration, unless it raised, with a wait. */
  function WithWait(duration: Outcome<real>, wait: real): (r: Outcome<(real, real)>)
    ensures r.Raise? <==> duration.Raise?
    ensures r.Raise? ==> r.exc == duration.exc
    ensures r.Ok? ==> r.value == (duration.value, wait)
  {
    match duration
    case Ok(d) => Ok((d, wait))
    case Raise(e) => Raise(e)
  }

  // ------------------------------------------------------------ slide timing forms

  /** A string without `#` holds no `##`. */
  lemma NoDoubleHash(t: string)
    requires '#' !in t
    ensures FindSub(t, "##", 0) == |t|
  {
    forall j | 0 <= j < |t| ensures !OccursAt(t, "##", j) {
    }
    FindSubIs(t, "##", 0, |t|);
  }

  /** `a + sep + b` with no `#` in `a` finds `sep`'s first `#` right after `a`. */
  lemma HashAfter(a: string, sep: string, b: string)
    requires '#' !in a && sep != [] && sep[0] == '#'
    ensures FindAny(a + sep + b, 0, "#") == |a|
    ensures (a + sep + b)[..|a|] == a && (a + sep + b)[|a| + |sep|..] == b
  {
    var s := a + sep + b;
    assert s[|a|] == '#';
    FindAnyIs(s, 0, "#", |a|);
  }

  /**
    No `#` at all: the wait is one beat at the current tempo and the whole
    string is the duration.
  */
  lemma SlideTimingDefault(timingStr: string, bpm: real, duration: real)
    requires bpm != 0.0 && '#' !in Strip(timingStr)
    requires SlideDuration(Strip(timingStr), bpm) == Ok(duration)
    ensures ParseSlideTiming(timingStr, bpm) == Ok((duration, 60.0 / bpm))
  {
    NoDoubleHash(Strip(timingStr));
  }

  /** The `W##...` branch: the stripped string `t` split at its first `##`, `k`. */
  lemma SlideTimingWaitBranch(t: string, bpm: real, k: nat)
    requires bpm != 0.0 && k == FindSub(t, "##", 0) && k < |t|
    ensures SlideTimingOf(t, bpm) == WaitForm(t[..k], t[k + 2..], bpm, 60.0 / bpm)
  {
  }

  /** The single `#` branch: the stripped string `t` split at its first `#`, `h`. */
  lemma SlideTimingTempoBranch(t: string, bpm: real, h: nat)
    requires bpm != 0.0 && FindSub(t, "##", 0) == |t|
    requires h == FindAny(t, 0, "#") && h < |t|
    ensures SlideTimingOf(t, bpm) == AtTempo(Strip(t[..h]), Strip(t[h + 1..]), 60.0 / bpm)
  {
  }

  /** A tempo that parses and is not zero gives one beat at that tempo of wait. */
  lemma AtParsedTempo(b: string, rest: string, beat: real, tempo: real, duration: real)
    requires ParseFloat(b) == Some(tempo) && tempo != 0.0
    requires rest != [] && SlideDuration(rest, tempo) == Ok(duration)
    ensures AtTempo(b, rest, beat) == Ok((duration, 60.0 / tempo))
  {
  }

  /** How `b#rest` splits when neither side holds `#` or surrounding blanks. */
  lemma TempoSplit(b: string, rest: string)
    requires b != [] && Trimmed(b) && '#' !in b
    requires rest != [] && Trimmed(rest) && '#' !in rest
    ensures Strip(b + "#" + rest) == b + "#" + rest
    ensures FindSub(b + "#" + rest, "##", 0) == |b + "#" + rest|
    ensures FindAny(b + "#" + rest, 0, "#") == |b| < |b + "#" + rest|
    ensures Strip((b + "#" + rest)[..|b|]) == b && Strip((b + "#" + rest)[|b| + 1..]) == rest
  {
    var s := b + "#" + rest;
    assert s[0] == b[0] && s[|s| - 1] == rest[|rest| - 1];
    StripClean(s);
    SingleHash(b, rest);
    HashAfter(b, "#", rest);
    StripClean(b);
    StripClean(rest);
  }

  /**
    `B#rest`: the wait is one beat at tempo B and the duration is `rest`
    measured at B.
  */
  lemma SlideTimingAtTempo(b: string, rest: string, bpm: real, tempo: real, duration: real)
    requires bpm != 0.0 && b != [] && Trimmed(b) && '#' !in b
    requires ParseFloat(b) == Some(tempo) && tempo != 0.0
    requires rest != [] && Trimmed(rest) && '#' !in rest
    requires SlideDuration(rest, tempo) == Ok(duration)
    ensures ParseSlideTiming(b + "#" + rest, bpm) == Ok((duration, 60.0 / tempo))
  {
    var s := b + "#" + rest;
    TempoSplit(b, rest);
    var beat := 60.0 / bpm;
    SlideTimingTempoBranch(s, bpm, |b|);
    AtParsedTempo(b, rest, beat, tempo, duration);
  }

  /** `b#rest` with `#` in neither part holds no `##`. */
  lemma SingleHash(b: string, rest: string)
    requires '#' !in b && rest != [] && '#' !in rest
    ensures FindSub(b + "#" + rest, "##", 0) == |b + "#" + rest|
  {
    var s := b + "#" + rest;
    forall j | 0 <= j < |s| ensures !OccursAt(s, "##", j) {
      if j < |b| {
        assert s[j] == b[j];
      } else if j == |b| {
        assert j + 1 < |s| ==> s[j + 1] == rest[0];
      } else {
        assert s[j] == rest[j - |b| - 1];
      }
    }
    FindSubIs(s, "##", 0, |s|);
  }

  /** In `w##rest` with no `#` in `w`, the first `##` is right after `w`. */
  lemma DoubleHashAfter(w: string, rest: string)
    requires '#' !in w
    ensures FindSub(w + "##" + rest, "##", 0) == |w|
  {
    var s := w + "##" + rest;
    assert OccursAt(s, "##", |w|) by { assert s[|w|..|w| + 2] == "##"; }
    forall j | 0 <= j < |w| ensures !OccursAt(s, "##", j) {
      assert s[j] == w[j];
    }
    FindSubIs(s, "##", 0, |w|);
  }

  /**
    `W##rest`: the wait is W seconds, or one beat at the current tempo when W
    does not parse; the duration is read from `rest`.
  */
  lemma SlideTimingWait(w: string, rest: string, bpm: real, duration: real)
    requires bpm != 0.0 && '#' !in w && Trimmed(w)
    requires rest != [] && Trimmed(rest)
    requires DurationAfterWait(rest, bpm) == Ok(duration)
    ensures ParseSlideTiming(w + "##" + rest, bpm) == Ok((duration, FloatOr(w, 60.0 / bpm)))
  {
    var s := w + "##" + rest;
    assert s[0] == if w == [] then '#' else w[0];
    assert s[|s| - 1] == rest[|rest| - 1];
    StripClean(s);
    DoubleHashAfter(w, rest);
    HashAfter(w, "##", rest);
    SlideTimingWaitBranch(s, bpm, |w|);
    WaitFormOf(w, rest, bpm, 60.0 / bpm, duration);
  }

  lemma WaitFormOf(w: string, rest: string, bpm: real, beat: real, duration: real)
    requires Trimmed(w) && Trimmed(rest)
    requires DurationAfterWait(rest, bpm) == Ok(duration)
    ensures WaitForm(w, rest, bpm, beat) == Ok((duration, FloatOr(w, beat)))
  {
    StripClean(w);
    StripClean(rest);
  }

  /** After `W##`, a `B#rest` duration is `rest` measured at tempo B. */
  lemma WaitThenTempo(b: string, rest: string, bpm: real, tempo: real)
    requires Numeral(b) && ParseFloat(b) == Some(tempo)
    ensures DurationAfterWait(b + "#" + rest, bpm) == SlideDuration(rest, tempo)
  {
    NumeralIsClean(b);
    HashAfter(b, "#", rest);
  }

  /** `D:C` with no tempo or wait: one beat of wait, `240 C / (bpm D)` seconds of travel. */
  lemma SlideTimingBeats(d: string, c: string, bpm: real, divide: real, count: real)
    requires Numeral(d) && Numeral(c)
    requires ParseFloat(d) == Some(divide) && ParseFloat(c) == Some(count)
    requires bpm != 0.0 && divide != 0.0
    ensures ParseSlideTiming(d + ":" + c, bpm) == Ok((240.0 * count / (bpm * divide), 60.0 / bpm))
  {
    var s := d + ":" + c;
    BeatValueFormula(d, c, bpm, divide, count);
    NumeralIsClean(d);
    NumeralIsClean(c);
    ColonPair(d, c);
    SlideTimingDefault(s, bpm, 240.0 * count / (bpm * divide));
  }

  /** `d:c` of two trimmed non-empty strings without `:` or `#` is stripped, has a `:` and no `#`. */
  lemma ColonPair(d: string, c: string)
    requires d != [] && c != [] && Trimmed(d) && Trimmed(c)
    requires ':' !in d && '#' !in d && ':' !in c && '#' !in c
    ensures Strip(d + ":" + c) == d + ":" + c
    ensures ':' in d + ":" + c && '#' !in d + ":" + c && Trimmed(d + ":" + c)
  {
    LiteralPairSplits(d, c);
    var s := d + ":" + c;
    assert s[|d|] == ':';
    assert s[0] == d[0] && s[|s| - 1] == c[|c| - 1];
  }

  /** `B#D:C`: one beat at tempo B of wait, `240 C / (B D)` seconds of travel. */
  lemma SlideTimingAtTempoBeats(b: string, d: string, c: string, bpm: real, tempo: real, divide: real, count: real)
    requires Numeral(b) && Numeral(d) && Numeral(c)
    requires ParseFloat(b) == Some(tempo) && ParseFloat(d) == Some(divide) && ParseFloat(c) == Some(count)
    requires bpm != 0.0 && tempo != 0.0 && divide != 0.0
    ensures ParseSlideTiming(b + "#" + (d + ":" + c), bpm) == Ok((240.0 * count / (tempo * divide), 60.0 / tempo))
  {
    var rest := d + ":" + c;
    NumeralIsClean(b);
    BeatValueFormula(d, c, tempo, divide, count);
    NumeralIsClean(d);
    NumeralIsClean(c);
    ColonPair(d, c);
    SlideTimingAtTempo(b, rest, bpm, tempo, 240.0 * count / (tempo * divide));
  }
}
