/**
  The single-note grammar of the chart loader. A note is a head (a button
  digit, or a touch area letter with optional sensor digits), then
  modifiers in any order (`h` hold, `b` break, `x` EX, `f` fireworks, `$`
  star, `@`, `!`/`?` no slide head), then either a slide (from the first
  slide mark on) or an optional hold bracket `[D:C]` and a trailing `b`.
*/
module NoteGrammar {
  import opened Py
  import opened BracketTiming
  import opened ChartModel
  import opened SlideGrammar
  import BracketExamples

  /** The letters that start a touch note. */
  const TouchAreas: string := "ABCDE"

  /** What ends the modifier run: a hold bracket or a slide mark. */
  const ModifierStops: string := "[-^v<>Vpqszw"

  /** The bracket a hold without a usable duration is given. */
  const PseudoHold: string := "1280:1"

  // ---------------------------------------------------------------- head

  /** The end of the run of digits starting at `from`. */
  function DigitRun(s: string, from: nat): (k: nat)
    requires from <= |s|
    ensures from <= k <= |s| && AllDigits(s[from..k])
    ensures k < |s| ==> !IsDigit(s[k])
    decreases |s| - from
  {
    if from == |s| || !IsDigit(s[from]) then from else DigitRun(s, from + 1)
  }

  /** A note after its head has been read, and the index after the head. */
  datatype Head = Head(note: NoteData, next: nat)

  /**
    The head of a stripped, non-empty note string: a touch area letter and
    the sensor number written after it (0 when none), or a button digit.
    Anything else makes `int()` raise ValueError.
  */
  function NoteHead(s: string): (r: Outcome<Head>)
    requires s != []
    ensures r.Raise? <==> s[0] !in TouchAreas && !IsDigit(s[0])
    ensures r.Raise? ==> r.exc == ValueError
    ensures r.Ok? ==> 1 <= r.value.next <= |s| && r.value.note.content == s
    ensures r.Ok? ==> r.value.note == DefaultNote(r.value.note.kind, r.value.note.position, s).(touchArea := r.value.note.touchArea)
    ensures r.Ok? && s[0] in TouchAreas ==> r.value.note.kind == Touch && r.value.note.touchArea == [s[0]]
    ensures r.Ok? && s[0] !in TouchAreas ==> r.value.note.kind == Tap && r.value.next == 1
                                             && r.value.note.position == DigitValue(s[0])
  {
    if s[0] in TouchAreas then
      var k := DigitRun(s, 1);
      Ok(Head(DefaultNote(Touch, DigitsValue(s[1..k]), s).(touchArea := [s[0]]), k))
    else if IsDigit(s[0]) then
      Ok(Head(DefaultNote(Tap, DigitValue(s[0]), s), 1))
    else
      Raise(ValueError)
  }

  /** The head-reading code of `_parse_note_from_string`, with its sensor-digit loop. */
  method ReadHead(s: string) returns (r: Outcome<Head>)
    requires s != []
    ensures r == NoteHead(s)
  {
    var note := DefaultNote(Tap, 0, s);
    var i := 0;
    if s[i] in TouchAreas {
      note := note.(touchArea := [s[i]]);
      i := i + 1;
      while i < |s| && IsDigit(s[i])
        invariant 1 <= i <= |s| && AllDigits(s[1..i]) && DigitRun(s, i) == DigitRun(s, 1)
        invariant note == DefaultNote(Tap, DigitsValue(s[1..i]), s).(touchArea := [s[0]])
        decreases |s| - i
      {
        DigitsSnoc(s[1..i], s[i]);
        assert s[1..i + 1] == s[1..i] + [s[i]];
        note := note.(position := note.position * 10 + DigitValue(s[i]));
        i := i + 1;
      }
      note := note.(kind := Touch);
    } else {
      if !IsDigit(s[i]) {
        return Raise(ValueError);
      }
      note := note.(position := DigitValue(s[i]));
      i := i + 1;
    }
    return Ok(Head(note, i));
  }

  // ---------------------------------------------------------------- modifiers

  /**
    The note type after `holds` hold modifiers: a button becomes a hold, a
    touch a touch hold; a second `h` on a touch note finds it no longer a
    plain touch and makes it a (button) hold.
  */
  function HoldKind(kind: NoteKind, holds: nat): (k: NoteKind)
    ensures holds == 0 ==> k == kind
    ensures kind == Tap && holds > 0 ==> k == Hold
    ensures kind == Touch && holds == 1 ==> k == TouchHold
    ensures kind == Touch && holds > 1 ==> k == Hold
  {
    if holds == 0 then kind
    else if kind == Touch && holds == 1 then TouchHold
    else Hold
  }

  /**
    What one modifier character does to the note, given how many `$` came
    before it: `h` makes a hold (a touch hold on a plain touch note), `b`
    a break, `x` EX, `f` fireworks, `$` a star (the second `$` a rotating
    one), `!` and `?` drop the slide head, `?` also fading it in. `@` and
    unknown characters change nothing.
  */
  function ModifierStep(n: NoteData, c: char, dollars: nat): NoteData {
    n.(kind := if c != 'h' then n.kind else if n.kind == Touch then TouchHold else Hold,
       isBreak := n.isBreak || c == 'b',
       isEx := n.isEx || c == 'x',
       isHanabi := n.isHanabi || c == 'f',
       isStarTap := n.isStarTap || c == '$',
       isFakeRotate := n.isFakeRotate || (c == '$' && dollars + 1 == 2),
       isNoSlideHead := n.isNoSlideHead || c == '!' || c == '?',
       isSlideNoHeadFade := n.isSlideNoHeadFade || c == '?')
  }

  /** The note after reading the modifier run `mods` from left to right. */
  function ReadModifiers(n: NoteData, mods: string): NoteData
    decreases |mods|
  {
    if mods == [] then n
    else
      var init := mods[..|mods| - 1];
      ModifierStep(ReadModifiers(n, init), mods[|mods| - 1], multiset(init)['$'])
  }

  /** Splitting off the last modifier. */
  lemma LastModifier(mods: string)
    requires mods != []
    ensures mods == mods[..|mods| - 1] + [mods[|mods| - 1]]
    ensures multiset(mods) == multiset(mods[..|mods| - 1]) + multiset{mods[|mods| - 1]}
  {
    assert mods == mods[..|mods| - 1] + [mods[|mods| - 1]];
  }

  /** Reading one more modifier is one more step. */
  lemma ReadSnoc(n: NoteData, mods: string, c: char)
    ensures ReadModifiers(n, mods + [c]) == ModifierStep(ReadModifiers(n, mods), c, multiset(mods)['$'])
    ensures multiset(mods + [c]) == multiset(mods) + multiset{c}
  {
    assert (mods + [c])[..|mods|] == mods;
  }

  /** The type after the modifiers depends only on how many `h` there are. */
  lemma {:induction false} ReadKind(n: NoteData, mods: string)
    requires n.kind == Tap || n.kind == Touch
    ensures ReadModifiers(n, mods).kind == HoldKind(n.kind, multiset(mods)['h'])
    decreases |mods|
  {
    if mods != [] {
      LastModifier(mods);
      ReadKind(n, mods[..|mods| - 1]);
    }
  }

  /** Each flag is set exactly when its letter occurs among the modifiers; `$$` makes a rotating star. */
  lemma {:induction false} ReadFlags(n: NoteData, mods: string)
    ensures var r, m := ReadModifiers(n, mods), multiset(mods);
      && r.isBreak == (n.isBreak || m['b'] > 0)
      && r.isEx == (n.isEx || m['x'] > 0)
      && r.isHanabi == (n.isHanabi || m['f'] > 0)
      && r.isStarTap == (n.isStarTap || m['$'] > 0)
      && r.isFakeRotate == (n.isFakeRotate || m['$'] >= 2)
    decreases |mods|
  {
    if mods != [] {
      LastModifier(mods);
      ReadFlags(n, mods[..|mods| - 1]);
    }
  }

  /** `!` or `?` drops the slide head, and `?` also fades it in. */
  lemma {:induction false} ReadHeadless(n: NoteData, mods: string)
    ensures var r, m := ReadModifiers(n, mods), multiset(mods);
      && r.isNoSlideHead == (n.isNoSlideHead || m['!'] > 0 || m['?'] > 0)
      && r.isSlideNoHeadFade == (n.isSlideNoHeadFade || m['?'] > 0)
    decreases |mods|
  {
    if mods != [] {
      LastModifier(mods);
      ReadHeadless(n, mods[..|mods| - 1]);
    }
  }

  /** The modifiers touch nothing but the type and the flags above. */
  lemma {:induction false} ReadKeeps(n: NoteData, mods: string)
    ensures var r := ReadModifiers(n, mods);
      && r.position == n.position && r.content == n.content && r.holdTime == n.holdTime
      && r.isSlideBreak == n.isSlideBreak && r.slideStartTime == n.slideStartTime
      && r.slideTime == n.slideTime && r.slideWaitTime == n.slideWaitTime
      && r.slideEndPosition == n.slideEndPosition && r.slideDirection == n.slideDirection
      && r.touchArea == n.touchArea
    decreases |mods|
  {
    if mods != [] {
      ReadKeeps(n, mods[..|mods| - 1]);
    }
  }

  /** The modifiers may come in any order: a note depends only on which modifiers, how often. */
  lemma ModifiersAnyOrder(n: NoteData, mods: string, other: string)
    requires n.kind == Tap || n.kind == Touch
    requires multiset(mods) == multiset(other)
    ensures ReadModifiers(n, mods) == ReadModifiers(n, other)
  {
    ReadKind(n, mods);
    ReadKind(n, other);
    ReadFlags(n, mods);
    ReadFlags(n, other);
    ReadHeadless(n, mods);
    ReadHeadless(n, other);
    ReadKeeps(n, mods);
    ReadKeeps(n, other);
  }

  /** The index where the modifier run starting at `from` stops: a `[` or a slide mark. */
  function ModifierEnd(s: string, from: nat): (m: nat)
    requires from <= |s|
    ensures from <= m <= |s|
    ensures m < |s| ==> s[m] == '[' || s[m] in SlideMarks
  {
    FindAny(s, from, ModifierStops)
  }

  /** A character stops the modifier run exactly when it is `[` or a slide mark. */
  lemma StopsAre(c: char)
    ensures c in ModifierStops <==> c == '[' || c in SlideMarks
  {
  }

  /** The modifier loop's state after it has read `s[from..i]`. */
  ghost predicate ScanState(s: string, from: nat, i: nat, n0: NoteData,
                            note: NoteData, dollarCount: nat, hasHold: bool)
  {
    from <= i <= |s|
    && note == ReadModifiers(n0, s[from..i])
    && dollarCount == multiset(s[from..i])['$']
    && (hasHold <==> multiset(s[from..i])['h'] > 0)
  }

  /** One pass of the modifier loop over the modifier `s[i]`. */
  method ApplyModifier(s: string, from: nat, i: nat, note: NoteData, dollarCount: nat,
                       hasHold: bool, ghost n0: NoteData)
    returns (note': NoteData, dollarCount': nat, hasHold': bool)
    requires i < |s| && ScanState(s, from, i, n0, note, dollarCount, hasHold)
    ensures ScanState(s, from, i + 1, n0, note', dollarCount', hasHold')
  {
    SliceSnoc(s, from, i);
    ReadSnoc(n0, s[from..i], s[i]);
    var c := s[i];
    note' := ModifierStep(note, c, dollarCount);
    dollarCount' := if c == '$' then dollarCount + 1 else dollarCount;
    hasHold' := hasHold || c == 'h';
  }

  /**
    The modifier loop of `_parse_note_from_string`: it reads characters up
    to a `[` and stops at the first slide mark; characters it does not know
    are skipped. It reports where it stopped, the note and whether an `h`
    was seen.
  */
  method ScanModifiers(s: string, from: nat, n0: NoteData) returns (i: nat, note: NoteData, hasHold: bool)
    requires from <= |s|
    ensures i == ModifierEnd(s, from)
    ensures note == ReadModifiers(n0, s[from..i])
    ensures hasHold <==> multiset(s[from..i])['h'] > 0
  {
    i := from;
    note := n0;
    hasHold := false;
    var dollarCount := 0;
    while i < |s| && s[i] != '['
      invariant ScanState(s, from, i, n0, note, dollarCount, hasHold)
      invariant FindAny(s, i, ModifierStops) == FindAny(s, from, ModifierStops)
      decreases |s| - i
    {
      StopsAre(s[i]);
      if s[i] in SlideMarks {
        // The slide itself is read after the loop.
        break;
      }
      note, dollarCount, hasHold := ApplyModifier(s, from, i, note, dollarCount, hasHold, n0);
      i := i + 1;
    }
    StopsAre(if i < |s| then s[i] else '[');
  }

  // ---------------------------------------------------------------- body

  /**
    The slide branch of the modifier loop: the note becomes a slide with
    the first track's duration, wait and end position, and a slide break
    when a `b` occurs anywhere in the note string.
  */
  function SlideNote(s: string, m: nat, n: NoteData, bpm: real): (r: Outcome<NoteData>)
    requires m <= |s|
    ensures r.Raise? ==> r.exc != ValueError
    ensures bpm == 0.0 ==> r == Raise(ZeroDivisionError)
    ensures r.Ok? ==> r.value.kind == Slide && (r.value.isSlideBreak <==> n.isSlideBreak || 'b' in s)
  {
    match SlideTrack(s, m, bpm)
    case Raise(e) => Raise(e)
    case Ok((duration, wait, end)) =>
      Ok(n.(kind := Slide, slideTime := duration, slideWaitTime := wait, slideEndPosition := end,
            isSlideBreak := n.isSlideBreak || 'b' in s))
  }

  /** The index of the `]` closing the hold bracket at `m`, or the end of the string. */
  function BracketClose(s: string, m: nat): (c: nat)
    requires m < |s|
    ensures m < c <= |s|
  {
    FindAny(s, m + 1, "]")
  }

  /** The index after the hold bracket at `m`. */
  function AfterBracket(s: string, m: nat): (a: nat)
    requires m < |s|
    ensures m < a <= |s|
  {
    var c := BracketClose(s, m);
    if c < |s| then c + 1 else c
  }

  /**
    The hold bracket at `m`: its text up to `]` is a beat value. The
    source's `except ValueError` never fires, since `_parse_beat_value`
    raises nothing but ZeroDivisionError.
  */
  function HoldTimed(s: string, m: nat, n: NoteData, bpm: real): (r: Outcome<NoteData>)
    requires m < |s|
    ensures r.Raise? ==> r.exc == ZeroDivisionError
    ensures r.Ok? ==> r.value == n.(holdTime := r.value.holdTime)
  {
    match ParseBeatValue(s[m + 1..BracketClose(s, m)], bpm)
    case Raise(e) => Raise(e)
    case Ok(v) => Ok(n.(holdTime := v))
  }

  /** A `b` at `i` (after a hold bracket) makes any note but a slide a break. */
  function BreakAfter(s: string, i: nat, n: NoteData): (r: NoteData)
    requires i <= |s|
    ensures r == n.(isBreak := r.isBreak)
    ensures r.isBreak <==> n.isBreak || (i < |s| && s[i] == 'b' && n.kind != Slide)
  {
    if i < |s| && s[i] == 'b' && n.kind != Slide then n.(isBreak := true) else n
  }

  /**
    The length of the pseudo hold `[1280:1]`: 1280 notes of a 1/1280
    measure would be a whole measure, so this is one note of a 1/1280
    measure of four beats, `3 / (16 bpm)` seconds (or a division by zero).
  */
  function PseudoHoldSeconds(bpm: real): (r: Outcome<real>)
    ensures bpm == 0.0 ==> r == Raise(ZeroDivisionError)
    ensures bpm != 0.0 ==> r == Ok(3.0 / (16.0 * bpm))
  {
    if bpm == 0.0 then BeatSeconds(bpm, 1280.0, 1.0)
    else BracketExamples.HoldSeconds(bpm); BeatSeconds(bpm, 1280.0, 1.0)
  }

  /** The pseudo hold length is what `_parse_beat_value` makes of the bracket `1280:1`. */
  lemma PseudoHoldIsBracket(bpm: real)
    ensures ParseBeatValue(PseudoHold, bpm) == PseudoHoldSeconds(bpm)
  {
    if bpm != 0.0 {
      BracketExamples.DefaultHoldLength(bpm);
    }
  }

  /** A hold whose duration is still zero gets the length of `[1280:1]`. */
  function PseudoHoldNote(n: NoteData, hasHold: bool, bpm: real): (r: Outcome<NoteData>)
    ensures r.Raise? ==> r.exc == ZeroDivisionError
    ensures r.Ok? ==> r.value == n.(holdTime := r.value.holdTime)
    ensures !(hasHold && n.holdTime == 0.0) ==> r == Ok(n)
  {
    if hasHold && n.holdTime == 0.0 then
      match PseudoHoldSeconds(bpm)
      case Raise(e) => Raise(e)
      case Ok(v) => Ok(n.(holdTime := v))
    else
      Ok(n)
  }

  /**
    Everything after the head: the modifiers, then the slide (when the
    modifiers stop at a slide mark) or the hold bracket (when there is an
    `h` and the modifiers stop at `[`), the trailing `b`, and the pseudo
    hold length.
  */
  function NoteBody(s: string, h: Head, bpm: real): (r: Outcome<NoteData>)
    requires h.next <= |s|
  {
    var m := ModifierEnd(s, h.next);
    var n := ReadModifiers(h.note, s[h.next..m]);
    var hasHold := multiset(s[h.next..m])['h'] > 0;
    if m < |s| && s[m] != '[' then
      match SlideNote(s, m, n, bpm)
      case Raise(e) => Raise(e)
      case Ok(n1) => PseudoHoldNote(n1, hasHold, bpm)
    else if hasHold && m < |s| then
      match HoldTimed(s, m, n, bpm)
      case Raise(e) => Raise(e)
      case Ok(n1) => PseudoHoldNote(BreakAfter(s, AfterBracket(s, m), n1), hasHold, bpm)
    else
      PseudoHoldNote(BreakAfter(s, m, n), hasHold, bpm)
  }

  /**
    `_parse_note_from_string`: a blank string is no note; otherwise the
    stripped string's head and body.
  */
  function NoteFromString(raw: string, bpm: real): (r: Outcome<Option<NoteData>>)
    ensures Strip(raw) == [] ==> r == Ok(None)
  {
    var s := Strip(raw);
    if s == [] then Ok(None)
    else
      match NoteHead(s)
      case Raise(e) => Raise(e)
      case Ok(h) =>
        match NoteBody(s, h, bpm)
        case Raise(e) => Raise(e)
        case Ok(n) => Ok(Some(n))
  }

  // ---------------------------------------------------------------- the parser

  /** The slide branch inside the modifier loop: read the first track, then skip every track. */
  method ReadSlide(s: string, m: nat, note: NoteData, bpm: real) returns (i: nat, r: Outcome<NoteData>)
    requires m <= |s|
    ensures r == SlideNote(s, m, note, bpm)
    ensures r.Ok? ==> i == SkipTracks(s, m)
  {
    var n := note.(kind := Slide);
    var track := ParseSlideTrack(s, m, bpm);
    if track.Raise? {
      return m, Raise(track.exc);
    }
    n := n.(slideTime := track.value.0, slideWaitTime := track.value.1,
            slideEndPosition := track.value.2);
    var isBreak;
    i, isBreak := SkipPastAllSlideTracks(s, m);
    if isBreak {
      n := n.(isSlideBreak := true);
    }
    r := Ok(n);
  }

  /** The hold-bracket reader: collect the text up to `]`, parse it, step past `]`. */
  method ReadHoldBracket(s: string, m: nat, note: NoteData, bpm: real) returns (i: nat, r: Outcome<NoteData>)
    requires m < |s| && s[m] == '['
    ensures i == AfterBracket(s, m)
    ensures r == HoldTimed(s, m, note, bpm)
  {
    i := m + 1;
    var holdStr := "";
    while i < |s| && s[i] != ']'
      invariant m + 1 <= i <= |s| && FindAny(s, i, "]") == BracketClose(s, m)
      invariant holdStr == s[m + 1..i]
      decreases |s| - i
    {
      SliceSnoc(s, m + 1, i);
      holdStr := holdStr + [s[i]];
      i := i + 1;
    }
    var v := ParseBeatValue(holdStr, bpm);
    if v.Raise? {
      r := Raise(v.exc);
    } else {
      r := Ok(note.(holdTime := v.value));
    }
    if i < |s| {
      i := i + 1;
    }
  }

  /** The check for a `b` after the bracket: holds, taps and touches become breaks. */
  method ReadTrailingBreak(s: string, i: nat, note: NoteData) returns (n: NoteData)
    requires i <= |s|
    ensures n == BreakAfter(s, i, note)
  {
    n := note;
    if i < |s| && s[i] == 'b' {
      if note.kind == Hold || note.kind == TouchHold {
        n := note.(isBreak := true);
      } else if note.kind != Slide {
        n := note.(isBreak := true);
      }
    }
  }

  /** The pseudo hold: a hold still without a length is given `[1280:1]`. */
  method ApplyPseudoHold(note: NoteData, hasHold: bool, bpm: real) returns (r: Outcome<NoteData>)
    ensures r == PseudoHoldNote(note, hasHold, bpm)
  {
    r := Ok(note);
    if hasHold && note.holdTime == 0.0 {
      var v := ParseBeatValue(PseudoHold, bpm);
      PseudoHoldIsBracket(bpm);
      if v.Raise? {
        return Raise(v.exc);
      }
      r := Ok(note.(holdTime := v.value));
    }
  }

  /** The part of `_parse_note_from_string` after the head. */
  method ReadBody(s: string, h: Head, bpm: real) returns (r: Outcome<NoteData>)
    requires h.next <= |s|
    ensures r == NoteBody(s, h, bpm)
  {
    var i, note, hasHold := ScanModifiers(s, h.next, h.note);
    var hasSlide := false;
    if i < |s| && s[i] != '[' {
      var j, slid := ReadSlide(s, i, note, bpm);
      if slid.Raise? {
        return Raise(slid.exc);
      }
      hasSlide := true;
      i, note := j, slid.value;
    }
    if hasHold && !hasSlide && i < |s| && s[i] == '[' {
      var j, held := ReadHoldBracket(s, i, note, bpm);
      if held.Raise? {
        return Raise(held.exc);
      }
      i, note := j, held.value;
    }
    note := ReadTrailingBreak(s, i, note);
    r := ApplyPseudoHold(note, hasHold, bpm);
  }

  /** `_parse_note_from_string`. */
  method ParseNoteFromString(raw: string, bpm: real) returns (r: Outcome<Option<NoteData>>)
    ensures r == NoteFromString(raw, bpm)
  {
    var s := Strip(raw);
    if s == [] {
      return Ok(None);
    }
    var head := ReadHead(s);
    if head.Raise? {
      return Raise(head.exc);
    }
    var body := ReadBody(s, head.value, bpm);
    if body.Raise? {
      return Raise(body.exc);
    }
    r := Ok(Some(body.value));
  }

  // ---------------------------------------------------------------- chained slides

  /**
    What the loader makes of a track after a `*`: a headless slide from the
    first slide's button, keeping its wait, whose content is that button's
    number followed by the track and whose end is the track's last digit
    before its bracket.
  */
  predicate IsChainedSlide(n: NoteData, part: string, position: int, wait: real)
  {
    && n.kind == Slide && n.position == position && n.content == IntToString(position) + part
    && n.slideWaitTime == wait && n.isNoSlideHead
    && n.slideEndPosition == EndDigit(part, 0, FindAny(part, 0, "["))
    && n.holdTime == 0.0 && !n.isBreak && !n.isEx && !n.isSlideBreak
  }

  /**
    One part after a `*`, stripped: an empty part is skipped, a track whose
    timing is unusable is dropped, and any other becomes a headless slide
    from `position` that keeps the first slide's `wait`.
  */
  function ChainedSlide(rawPart: string, position: int, wait: real, bpm: real): (r: Outcome<Option<NoteData>>)
    ensures r.Raise? ==> r.exc != ValueError
    ensures Strip(rawPart) == [] ==> r == Ok(None)
    ensures r.Ok? && r.value.Some? ==> IsChainedSlide(r.value.value, Strip(rawPart), position, wait)
  {
    var part := Strip(rawPart);
    if part == [] then Ok(None)
    else
      match SlideTrackFromString(part, bpm)
      case Raise(e) => Raise(e)
      case Ok(None) => Ok(None)
      case Ok(Some((duration, _))) =>
        Ok(Some(DefaultNote(Slide, position, IntToString(position) + part).(
          slideTime := duration, slideWaitTime := wait,
          slideEndPosition := EndDigit(part, 0, FindAny(part, 0, "[")), isNoSlideHead := true)))
  }

  /**
    The slides collected from the first `k` per-part results, in order:
    skipped and dropped parts add nothing, and the first failure stops the
    loop.
  */
  function Collect(results: seq<Outcome<Option<NoteData>>>, k: nat): (r: Outcome<seq<NoteData>>)
    requires k <= |results|
    ensures r.Ok? ==> |r.value| <= k
    decreases k
  {
    if k == 0 then Ok([])
    else
      match Collect(results, k - 1)
      case Raise(e) => Raise(e)
      case Ok(prev) =>
        match results[k - 1]
        case Raise(e) => Raise(e)
        case Ok(None) => Ok(prev)
        case Ok(Some(n)) => Ok(prev + [n])
  }

  /** How one part after a `*` reads. */
  type PartReader = string -> Outcome<Option<NoteData>>

  /** The reading of a later part in a chain from `position` with `wait`. */
  function ChainRead(position: int, wait: real, bpm: real): PartReader
  {
    part => ChainedSlide(part, position, wait, bpm)
  }

  /** The per-part results for the parts after the first `*`: part `i + 1` gives result `i`. */
  function ChainResults(parts: seq<string>, read: PartReader): (rs: seq<Outcome<Option<NoteData>>>)
    requires |parts| >= 1
    ensures |rs| == |parts| - 1
    ensures forall i :: 0 <= i < |rs| ==> rs[i] == read(parts[i + 1])
  {
    seq(|parts| - 1, i requires 0 <= i < |parts| - 1 => read(parts[i + 1]))
  }

  /**
    `_parse_multiple_slides`: the whole string parsed as one note must be a
    slide; it keeps the text before the first `*` as its content and is
    followed by the slides of the later parts. Without any later slide there
    is no result.
  */
  function MultipleSlides(s: string, bpm: real): (r: Outcome<Option<seq<NoteData>>>)
    ensures '*' !in s ==> r == Raise(ValueError)
    ensures r.Ok? && r.value.Some? ==> |r.value.value| >= 2 && r.value.value[0].kind == Slide
  {
    if '*' !in s then Raise(ValueError)
    else
      match NoteFromString(s, bpm)
      case Raise(e) => Raise(e)
      case Ok(None) => Raise(ValueError)
      case Ok(Some(first)) =>
        if first.kind != Slide then Raise(ValueError)
        else
          var parts := SplitOn(s, '*');
          var results := ChainResults(parts, ChainRead(first.position, first.slideWaitTime, bpm));
          match Collect(results, |results|)
          case Raise(e) => Raise(e)
          case Ok(rest) =>
            if rest == [] then Ok(None) else Ok(Some([first.(content := parts[0])] + rest))
  }

  /** The loop body of `_parse_multiple_slides` for one later part. */
  method ReadChainedSlide(rawPart: string, position: int, wait: real, bpm: real) returns (r: Outcome<Option<NoteData>>)
    ensures r == ChainedSlide(rawPart, position, wait, bpm)
  {
    var part := Strip(rawPart);
    if part == [] {
      return Ok(None);
    }
    var track := SlideTrackFromString(part, bpm);
    if track.Raise? {
      return Raise(track.exc);
    }
    if track.value.None? {
      return Ok(None);
    }
    var endPosition := ExtractEndPosition(part);
    r := Ok(Some(DefaultNote(Slide, position, IntToString(position) + part).(
      slideTime := track.value.value.0, slideWaitTime := wait,
      slideEndPosition := endPosition, isNoSlideHead := true)));
  }

  /** Once a part has raised, the loop over the parts has raised that exception. */
  lemma {:induction false} CollectRaiseStays(results: seq<Outcome<Option<NoteData>>>, k: nat, j: nat)
    requires k <= j <= |results| && Collect(results, k).Raise?
    ensures Collect(results, j) == Collect(results, k)
    decreases j
  {
    if j > k {
      CollectRaiseStays(results, k, j - 1);
    }
  }

  /** `results` holds, for each part after the first, what it reads as. */
  ghost predicate ChainedBy(results: seq<Outcome<Option<NoteData>>>, parts: seq<string>, read: PartReader)
  {
    && |results| == |parts| - 1
    && forall k {:trigger read(parts[k])} :: 1 <= k < |parts| ==> results[k - 1] == read(parts[k])
  }

  /** The per-part results hold what each part reads as. */
  lemma ChainResultsAgree(parts: seq<string>, read: PartReader)
    requires |parts| >= 1
    ensures ChainedBy(ChainResults(parts, read), parts, read)
  {
    var results := ChainResults(parts, read);
    forall k | 1 <= k < |parts|
      ensures results[k - 1] == read(parts[k])
    {
      assert results[k - 1] == read(parts[k - 1 + 1]);
    }
  }

  /** The slide read from part `k`, as `results` records it. */
  method ReadPart(parts: seq<string>, k: nat, position: int, wait: real, bpm: real,
                  ghost results: seq<Outcome<Option<NoteData>>>)
    returns (next: Outcome<Option<NoteData>>)
    requires 1 <= k < |parts| && ChainedBy(results, parts, ChainRead(position, wait, bpm))
    ensures k <= |results| && next == results[k - 1]
  {
    assert results[k - 1] == ChainRead(position, wait, bpm)(parts[k]);
    next := ReadChainedSlide(parts[k], position, wait, bpm);
  }

  /** The loop of `_parse_multiple_slides` over the parts after the first `*`. */
  method ReadChainedSlides(parts: seq<string>, position: int, wait: real, bpm: real,
                           ghost results: seq<Outcome<Option<NoteData>>>)
    returns (r: Outcome<seq<NoteData>>)
    requires |parts| >= 1 && ChainedBy(results, parts, ChainRead(position, wait, bpm))
    ensures r == Collect(results, |results|)
  {
    r := Ok([]);
    var k := 1;
    while k < |parts| && r.Ok?
      invariant 1 <= k <= |parts|
      invariant r == Collect(results, k - 1)
      decreases |parts| - k
    {
      var next := ReadPart(parts, k, position, wait, bpm, results);
      if next.Raise? {
        r := Raise(next.exc);
      } else if next.value.Some? {
        r := Ok(r.value + [next.value.value]);
      }
      k := k + 1;
    }
    if r.Raise? {
      CollectRaiseStays(results, k - 1, |results|);
    }
  }

  /** `_parse_multiple_slides`. */
  method ParseMultipleSlides(s: string, bpm: real) returns (r: Outcome<Option<seq<NoteData>>>)
    ensures r == MultipleSlides(s, bpm)
  {
    if '*' !in s {
      return Raise(ValueError);
    }
    var parsed := ParseNoteFromString(s, bpm);
    if parsed.Raise? {
      return Raise(parsed.exc);
    }
    if parsed.value.None? || parsed.value.value.kind != Slide {
      return Raise(ValueError);
    }
    var first := parsed.value.value;
    var parts := SplitOn(s, '*');
    var basePosition := first.position;
    var baseWait := first.slideWaitTime;
    first := first.(content := parts[0]);
    ghost var results := ChainResults(parts, ChainRead(basePosition, baseWait, bpm));
    ChainResultsAgree(parts, ChainRead(basePosition, baseWait, bpm));
    var rest := ReadChainedSlides(parts, basePosition, baseWait, bpm, results);
    if rest.Raise? {
      return Raise(rest.exc);
    }
    var slides := [first] + rest.value;
    if |slides| > 1 {
      r := Ok(Some(slides));
    } else {
      r := Ok(None);
    }
  }

  // ---------------------------------------------------------------- one note

  /** The characters whose presence lets `*` mean chained slides. */
  const ChainMarks: string := "-^v<>Vpqszw"

  /** Does the string hold one of the chain marks? */
  predicate HasChainMark(s: string)
  {
    exists k :: 0 <= k < |s| && s[k] in ChainMarks
  }

  /**
    `_parse_note`: a string with a slide mark and a `*` is a chain of
    slides; anything else is a single note. The notes come out as a list:
    none, one, or the chain.
  */
  function ParseNote(s: string, bpm: real): (r: Outcome<seq<NoteData>>)
    ensures r.Ok? && |r.value| > 1 ==> HasChainMark(s) && '*' in s
  {
    if HasChainMark(s) && '*' in s then
      match MultipleSlides(s, bpm)
      case Raise(e) => Raise(e)
      case Ok(None) => Ok([])
      case Ok(Some(slides)) => Ok(slides)
    else
      match NoteFromString(s, bpm)
      case Raise(e) => Raise(e)
      case Ok(None) => Ok([])
      case Ok(Some(n)) => Ok([n])
  }

  /** `_parse_note` as code: one note, a chain, or nothing. */
  method ReadNote(s: string, bpm: real) returns (r: Outcome<seq<NoteData>>)
    ensures r == ParseNote(s, bpm)
  {
    if HasChainMark(s) && '*' in s {
      var slides := ParseMultipleSlides(s, bpm);
      if slides.Raise? {
        return Raise(slides.exc);
      }
      r := if slides.value.Some? then Ok(slides.value.value) else Ok([]);
    } else {
      var note := ParseNoteFromString(s, bpm);
      if note.Raise? {
        return Raise(note.exc);
      }
      r := if note.value.Some? then Ok([note.value.value]) else Ok([]);
    }
  }

  // ---------------------------------------------------------------- properties

  /** A hold never keeps a zero length: the pseudo hold is `3 / (16 bpm)` seconds. */
  lemma PseudoHoldLength(n: NoteData, bpm: real)
    ensures PseudoHoldNote(n, true, bpm).Ok? ==> PseudoHoldNote(n, true, bpm).value.holdTime != 0.0
    ensures n.holdTime == 0.0 && bpm != 0.0 ==>
      PseudoHoldNote(n, true, bpm) == Ok(n.(holdTime := 3.0 / (16.0 * bpm)))
  {
    if n.holdTime == 0.0 && bpm != 0.0 {
      var x := 3.0 / (16.0 * bpm);
      assert x * (16.0 * bpm) == 3.0;
      assert x != 0.0;
      assert PseudoHoldNote(n, true, bpm) == Ok(n.(holdTime := x));
    }
  }

  /** The pieces a parsed note is made from. */
  lemma BodyParts(s: string, h: Head, bpm: real)
    requires h.next <= |s|
    requires h.note.kind == Tap || h.note.kind == Touch
    ensures var m := ModifierEnd(s, h.next);
      var n := ReadModifiers(h.note, s[h.next..m]);
      && n.kind == HoldKind(h.note.kind, multiset(s[h.next..m])['h'])
      && n.isSlideBreak == h.note.isSlideBreak
  {
    var m := ModifierEnd(s, h.next);
    ReadKind(h.note, s[h.next..m]);
    ReadKeeps(h.note, s[h.next..m]);
  }

  /** Every hold and touch hold the parser returns has a non-zero length. */
  lemma HoldsHaveLength(raw: string, bpm: real, n: NoteData)
    ensures NoteFromString(raw, bpm) == Ok(Some(n)) && (n.kind == Hold || n.kind == TouchHold) ==>
      n.holdTime != 0.0
  {
    var s := Strip(raw);
    if s != [] && NoteHead(s).Ok? {
      BodyHoldLength(s, NoteHead(s).value, bpm);
    }
  }

  /** `HoldsHaveLength` for the part after the head. */
  lemma BodyHoldLength(s: string, h: Head, bpm: real)
    requires h.next <= |s| && (h.note.kind == Tap || h.note.kind == Touch)
    ensures var r := NoteBody(s, h, bpm);
      r.Ok? && (r.value.kind == Hold || r.value.kind == TouchHold) ==> r.value.holdTime != 0.0
  {
    var m := ModifierEnd(s, h.next);
    var mods := s[h.next..m];
    var n0 := ReadModifiers(h.note, mods);
    BodyParts(s, h, bpm);
    if m < |s| && s[m] != '[' {
    } else if multiset(mods)['h'] > 0 && m < |s| {
      if HoldTimed(s, m, n0, bpm).Ok? {
        PseudoHoldLength(BreakAfter(s, AfterBracket(s, m), HoldTimed(s, m, n0, bpm).value), bpm);
      }
    } else if multiset(mods)['h'] > 0 {
      PseudoHoldLength(BreakAfter(s, m, n0), bpm);
    }
  }

  /**
    A slide is a slide break exactly when a `b` occurs anywhere in its
    (stripped) note string, before or after the shape mark.
  */
  lemma SlideBreakAnywhere(raw: string, bpm: real, n: NoteData)
    ensures NoteFromString(raw, bpm) == Ok(Some(n)) && n.kind == Slide ==>
      (n.isSlideBreak <==> 'b' in Strip(raw))
  {
    var s := Strip(raw);
    if s != [] && NoteHead(s).Ok? {
      var h := NoteHead(s).value;
      var m := ModifierEnd(s, h.next);
      var mods := s[h.next..m];
      var n0 := ReadModifiers(h.note, mods);
      var r := NoteBody(s, h, bpm);
      BodyParts(s, h, bpm);
      if !(m < |s| && s[m] != '[') {
        if multiset(mods)['h'] > 0 && m < |s| {
          assert r.Ok? ==> r.value.kind == HoldTimed(s, m, n0, bpm).value.kind == n0.kind;
        } else {
          assert r.Ok? ==> r.value.kind == n0.kind;
        }
      }
    }
  }

  /** After the head nothing raises ValueError: the slide and bracket readers catch it. */
  lemma BodyErrors(s: string, h: Head, bpm: real)
    requires h.next <= |s|
    ensures NoteBody(s, h, bpm).Raise? ==> NoteBody(s, h, bpm).exc != ValueError
  {
  }

  /**
    The only ValueError is the head's: a stripped note string that starts
    with neither a touch area letter nor a digit.
  */
  lemma NoteErrors(raw: string, bpm: real)
    ensures var r, s := NoteFromString(raw, bpm), Strip(raw);
      (r.Raise? && r.exc == ValueError) <==> (s != [] && s[0] !in TouchAreas && !IsDigit(s[0]))
  {
    var s := Strip(raw);
    if s != [] && NoteHead(s).Ok? {
      BodyErrors(s, NoteHead(s).value, bpm);
    }
  }

  /** A later track whose `[` is never closed is dropped. */
  lemma UnclosedTrackDropped(rawPart: string, position: int, wait: real, bpm: real)
    requires var part := Strip(rawPart); '[' in part && ']' !in part[FindAny(part, 0, "[")..]
    ensures ChainedSlide(rawPart, position, wait, bpm) == Ok(None)
  {
  }

  /** A slide that follows a `*`: from the first slide's button, keeping its wait, without a head. */
  predicate IsHeadless(n: NoteData, position: int, wait: real)
  {
    n.kind == Slide && n.position == position && n.slideWaitTime == wait && n.isNoSlideHead
    && IntToString(position) <= n.content
  }

  /** A slide read from a later part is headless. */
  lemma ChainedIsHeadless(n: NoteData, part: string, position: int, wait: real)
    requires IsChainedSlide(n, part, position, wait)
    ensures IsHeadless(n, position, wait)
  {
    assert n.content[..|IntToString(position)|] == IntToString(position);
  }

  /** Every slide among the per-part results is headless from `position` with `wait`. */
  predicate HeadlessResults(results: seq<Outcome<Option<NoteData>>>, position: int, wait: real)
  {
    forall i :: 0 <= i < |results| && results[i].Ok? && results[i].value.Some? ==>
      IsHeadless(results[i].value.value, position, wait)
  }

  /** Collecting keeps only slides that were among the results. */
  lemma {:induction false} CollectHeadless(results: seq<Outcome<Option<NoteData>>>, k: nat, position: int, wait: real)
    requires k <= |results| && HeadlessResults(results, position, wait) && Collect(results, k).Ok?
    ensures forall j :: 0 <= j < |Collect(results, k).value| ==> IsHeadless(Collect(results, k).value[j], position, wait)
    decreases k
  {
    if k > 0 {
      CollectHeadless(results, k - 1, position, wait);
    }
  }

  /** Every slide that `read` gives is headless from `position` with `wait`. */
  ghost predicate ReadsHeadless(read: PartReader, position: int, wait: real)
  {
    forall part {:trigger read(part)} :: read(part).Ok? && read(part).value.Some? ==>
      IsHeadless(read(part).value.value, position, wait)
  }

  /** A later part gives a headless slide from the first slide's button, or none. */
  lemma ChainReadHeadless(position: int, wait: real, bpm: real)
    ensures ReadsHeadless(ChainRead(position, wait, bpm), position, wait)
  {
    forall part | ChainRead(position, wait, bpm)(part).Ok? && ChainRead(position, wait, bpm)(part).value.Some?
      ensures IsHeadless(ChainRead(position, wait, bpm)(part).value.value, position, wait)
    {
      var r := ChainedSlide(part, position, wait, bpm);
      ChainedIsHeadless(r.value.value, Strip(part), position, wait);
    }
  }

  /** When every part reads as a headless slide or none, so does every per-part result. */
  lemma ChainResultsHeadless(parts: seq<string>, read: PartReader, position: int, wait: real)
    requires |parts| >= 1 && ReadsHeadless(read, position, wait)
    ensures HeadlessResults(ChainResults(parts, read), position, wait)
  {
    var results := ChainResults(parts, read);
    forall i | 0 <= i < |results| && results[i].Ok? && results[i].value.Some?
      ensures IsHeadless(results[i].value.value, position, wait)
    {
      assert results[i] == read(parts[i + 1]);
    }
  }

  /** Every slide collected from the later parts is headless and comes from the first slide's button. */
  lemma ChainedAreHeadless(parts: seq<string>, k: nat, position: int, wait: real, bpm: real)
    requires |parts| >= 1 && k <= |parts| - 1
    requires Collect(ChainResults(parts, ChainRead(position, wait, bpm)), k).Ok?
    ensures var rest := Collect(ChainResults(parts, ChainRead(position, wait, bpm)), k).value;
      forall j :: 0 <= j < |rest| ==> IsHeadless(rest[j], position, wait)
  {
    ChainReadHeadless(position, wait, bpm);
    ChainResultsHeadless(parts, ChainRead(position, wait, bpm), position, wait);
    CollectHeadless(ChainResults(parts, ChainRead(position, wait, bpm)), k, position, wait);
  }

  /**
    A chain of slides starts with the whole string's slide, whose content is
    cut at the first `*`, followed by headless slides from the same button
    with the same wait.
  */
  lemma MultipleSlidesShape(s: string, bpm: real)
    requires MultipleSlides(s, bpm).Ok? && MultipleSlides(s, bpm).value.Some?
    ensures var slides := MultipleSlides(s, bpm).value.value;
      && slides[0].kind == Slide && slides[0].content == SplitOn(s, '*')[0]
      && forall j :: 1 <= j < |slides| ==> IsHeadless(slides[j], slides[0].position, slides[0].slideWaitTime)
  {
    var first := NoteFromString(s, bpm).value.value;
    var parts := SplitOn(s, '*');
    var results := ChainResults(parts, ChainRead(first.position, first.slideWaitTime, bpm));
    ChainedAreHeadless(parts, |results|, first.position, first.slideWaitTime, bpm);
  }

  /** A hold or a touch hold has a non-zero length; other notes pass as they are. */
  predicate HoldHasLength(n: NoteData)
  {
    (n.kind == Hold || n.kind == TouchHold) ==> n.holdTime != 0.0
  }

  /** A slide followed by headless slides holds no hold. */
  lemma ChainHoldsHaveLength(slides: seq<NoteData>)
    requires |slides| >= 1 && slides[0].kind == Slide
    requires forall j :: 1 <= j < |slides| ==> IsHeadless(slides[j], slides[0].position, slides[0].slideWaitTime)
    ensures forall k :: 0 <= k < |slides| ==> HoldHasLength(slides[k])
  {
    forall k | 0 <= k < |slides| ensures slides[k].kind == Slide {
      if k > 0 {
        assert IsHeadless(slides[k], slides[0].position, slides[0].slideWaitTime);
      }
    }
  }

  /** `HoldsHaveLength` for every note `_parse_note` returns: a chain holds only slides. */
  lemma ParsedHoldsHaveLength(s: string, bpm: real)
    ensures ParseNote(s, bpm).Ok? ==>
      forall k :: 0 <= k < |ParseNote(s, bpm).value| ==> HoldHasLength(ParseNote(s, bpm).value[k])
  {
    if HasChainMark(s) && '*' in s {
      if MultipleSlides(s, bpm).Ok? && MultipleSlides(s, bpm).value.Some? {
        MultipleSlidesShape(s, bpm);
        ChainHoldsHaveLength(MultipleSlides(s, bpm).value.value);
      }
    } else if NoteFromString(s, bpm).Ok? && NoteFromString(s, bpm).value.Some? {
      HoldsHaveLength(s, bpm, NoteFromString(s, bpm).value.value);
    }
  }
}
