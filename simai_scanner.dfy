/**
  `_parse_simai`: the character scanner that walks a chart's note text,
  keeps the clock (tempo, beat division, current time), and hands every
  note group to the group parser, collecting one timing point per group
  that yields notes.
*/
module SimaiScanner {
  import opened Py
  import opened ChartModel
  import opened NoteGrammar
  import opened NoteGroups

  /** The scanner's variables between two passes of its loop. */
  datatype Scan = Scan(i: nat, bpm: real, beats: int, time: real, y: int, x: int,
                       points: seq<TimingPoint>)

  const DefaultBpm: real := 120.0
  const DefaultBeats: int := 4

  /** The variables before the first pass: 120 BPM, quarter notes, the first beat's time. */
  function Start(first: real): Scan
  {
    Scan(0, DefaultBpm, DefaultBeats, first, 0, 0, [])
  }

  /** What one `,` adds to the clock: `60 / bpm * (4 / beats)` seconds. */
  function Tick(bpm: real, beats: int): (r: Outcome<real>)
    ensures r.Raise? <==> bpm == 0.0 || beats == 0
    ensures r.Raise? ==> r.exc == ZeroDivisionError
  {
    match Div(60.0, bpm)
    case Raise(x) => Raise(x)
    case Ok(perBeat) =>
      match Div(4.0, beats as real)
      case Raise(x) => Raise(x)
      case Ok(fraction) => Ok(perBeat * fraction)
  }

  /** A tick is a whole note (240 beat-seconds) split by tempo and division; it is positive when both are. */
  lemma TickLength(bpm: real, beats: int)
    requires bpm != 0.0 && beats != 0
    ensures Tick(bpm, beats).Ok?
    ensures Tick(bpm, beats).value * bpm * (beats as real) == 240.0
    ensures bpm > 0.0 && beats > 0 ==> Tick(bpm, beats).value > 0.0
  {
    var perBeat := 60.0 / bpm;
    var fraction := 4.0 / (beats as real);
    assert perBeat * bpm == 60.0 && fraction * (beats as real) == 4.0;
    assert perBeat * fraction * bpm * (beats as real) == (perBeat * bpm) * (fraction * (beats as real));
  }

  /** The end-of-difficulty marker: an `E` that is last or followed by a newline. */
  predicate EndMarker(text: string, i: nat)
    requires i < |text|
  {
    text[i] == 'E' && (i + 1 >= |text| || text[i + 1] == '\n')
  }

  /** Where the scanner hands over to the group parser. */
  predicate GroupStart(text: string, i: nat)
    requires i < |text|
  {
    IsNoteStart(text, i) && !EndMarker(text, i)
  }

  /** The index of the bracket closing a `(` or `{` at `i`, or the end of the text. */
  function CloseAt(text: string, i: nat, close: char): (e: nat)
    requires i < |text|
    ensures i < e <= |text|
  {
    FindAny(text, i + 1, [close])
  }

  /**
    A group parser: from the text, a start index and the tempo, the notes
    of the group there and the index after it.
  */
  type GroupParser = (string, nat, real) -> Outcome<(seq<NoteData>, nat)>

  /**
    What the scanner calls on: the group parser, and `float()` and `int()`
    for the `(bpm)` and `{beats}` directives (`None` where they raise
    ValueError). The scanner's properties hold for any of them.
  */
  datatype Readers = Readers(group: GroupParser, toReal: string -> Option<real>, toInt: string -> Option<int>)

  /** The tempo after `(content)`: what `toReal` makes of it, or the old one when that raises ValueError. */
  function NewTempo(content: string, bpm: real, toReal: string -> Option<real>): (r: real)
    ensures toReal(content).Some? ==> r == toReal(content).value
    ensures toReal(content).None? ==> r == bpm
  {
    match toReal(content)
    case Some(v) => v
    case None => bpm
  }

  /** The division after `{content}`: what `int` makes of it, or the old one when that raises ValueError. */
  function NewDivision(content: string, beats: int, toInt: string -> Option<int>): (r: int)
    ensures toInt(content).Some? ==> r == toInt(content).value
    ensures toInt(content).None? ==> r == beats
  {
    match toInt(content)
    case Some(v) => v
    case None => beats
  }

  /** `(bpm)`: a tempo that `float()` accepts replaces the current one; the scan resumes after `)`. */
  function TempoStep(text: string, t: Scan, rd: Readers): (r: Scan)
    requires t.i < |text|
    ensures r == t.(i := CloseAt(text, t.i, ')') + 1, bpm := NewTempo(text[t.i + 1..CloseAt(text, t.i, ')')], t.bpm, rd.toReal))
  {
    var e := CloseAt(text, t.i, ')');
    t.(i := e + 1, bpm := NewTempo(text[t.i + 1..e], t.bpm, rd.toReal))
  }

  /** `{beats}`: a division that `int()` accepts replaces the current one; the scan resumes after `}`. */
  function DivisionStep(text: string, t: Scan, rd: Readers): (r: Scan)
    requires t.i < |text|
    ensures r == t.(i := CloseAt(text, t.i, '}') + 1, beats := NewDivision(text[t.i + 1..CloseAt(text, t.i, '}')], t.beats, rd.toInt))
  {
    var e := CloseAt(text, t.i, '}');
    t.(i := e + 1, beats := NewDivision(text[t.i + 1..e], t.beats, rd.toInt))
  }

  /** Every pass that does not start a note group. */
  function PlainStep(text: string, s: Scan, rd: Readers): (r: Outcome<Scan>)
    requires s.i < |text| && !GroupStart(text, s.i)
    ensures text[s.i] == '(' ==> r == Ok(TempoStep(text, s.(x := s.x + 1), rd))
    ensures text[s.i] == '{' ==> r == Ok(DivisionStep(text, s.(x := s.x + 1), rd))
    ensures r.Ok? ==> r.value.points == s.points
    ensures r.Ok? && r.value.bpm != s.bpm ==> text[s.i] == '('
    ensures r.Ok? && r.value.beats != s.beats ==> text[s.i] == '{'
    ensures r.Ok? && r.value.time != s.time ==> text[s.i] == ','
  {
    var c := text[s.i];
    if c == '\n' then Ok(s.(i := s.i + 1, y := s.y + 1, x := 0))
    else
      var t := s.(x := s.x + 1);
      if c == '|' && s.i + 1 < |text| && text[s.i + 1] == '|' then Ok(t.(i := FindAny(text, s.i, "\n")))
      else if c in Blanks then Ok(t.(i := s.i + 1))
      else if c == '(' then Ok(TempoStep(text, t, rd))
      else if c == '{' then Ok(DivisionStep(text, t, rd))
      else if c == ',' then
        match Tick(s.bpm, s.beats)
        case Raise(x) => Raise(x)
        case Ok(d) => Ok(t.(i := s.i + 1, time := s.time + d))
      else Ok(t.(i := s.i + 1))
  }

  /** A pass over a note group, given what the group parser returned for it. */
  function GroupStep(s: Scan, group: Outcome<(seq<NoteData>, nat)>): (r: Outcome<Scan>)
    ensures r.Ok? ==> r.value.time == s.time && r.value.bpm == s.bpm && r.value.beats == s.beats
  {
    match group
    case Raise(x) => Raise(x)
    case Ok((notes, next)) =>
      var point := TimingPoint(s.time, s.bpm, notes, s.y, s.x);
      Ok(s.(i := next, x := s.x + 1, points := if notes == [] then s.points else s.points + [point]))
  }

  /** `_parse_note_group` (corrected, over the note parser `parse`) as a group parser. */
  function Groups(parse: NoteParser): GroupParser
  {
    (text: string, start: nat, bpm: real) =>
      if start <= |text| then NoteGroup(text, start, bpm, parse) else Ok(([], start))
  }

  /** `_parse_note_group` as written, over the note parser `parse`. */
  function GroupsAsWritten(parse: NoteParser): GroupParser
  {
    (text: string, start: nat, bpm: real) =>
      if start <= |text| then NoteGroupAsWritten(text, start, bpm, parse) else Ok(([], start))
  }

  /** A group parser that always moves past the group it reads, and not beyond the text. */
  ghost predicate Advances(group: GroupParser)
  {
    forall text: string, i: nat, bpm: real {:trigger group(text, i, bpm)} ::
      i < |text| && GroupStart(text, i) && group(text, i, bpm).Ok? ==> i < group(text, i, bpm).value.1 <= |text|
  }

  /** The corrected group parser advances, whatever the note parser. */
  lemma GroupsAdvance(parse: NoteParser)
    ensures Advances(Groups(parse))
  {
    forall text: string, i: nat, bpm: real | i < |text| && GroupStart(text, i) && Groups(parse)(text, i, bpm).Ok?
      ensures i < Groups(parse)(text, i, bpm).value.1 <= |text|
    {
      GroupAdvances(text, i, bpm, parse);
    }
  }

  /** The readers of the modelled code, over the note parser `parse`: the corrected group parser, `float()` and `int()`. */
  function Corrected(parse: NoteParser): Readers
  {
    Readers(Groups(parse), ParseFloat, ParseInt)
  }

  /** The readers as written: the group parser with the stalling EACH loop. */
  function AsWritten(parse: NoteParser): Readers
  {
    Readers(GroupsAsWritten(parse), ParseFloat, ParseInt)
  }

  /** One pass of the loop. */
  function Step(text: string, s: Scan, rd: Readers): (r: Outcome<Scan>)
    requires s.i < |text|
    ensures Advances(rd.group) && r.Ok? ==> s.i < r.value.i <= |text| + 1
  {
    if GroupStart(text, s.i) then GroupStep(s, rd.group(text, s.i, s.bpm))
    else PlainStep(text, s, rd)
  }

  /** The loop run to the end of the text from `s`. */
  function Run(text: string, s: Scan, rd: Readers): (r: Outcome<seq<TimingPoint>>)
    requires s.i <= |text| + 1 && Advances(rd.group)
    decreases |text| + 1 - s.i
  {
    if s.i >= |text| then Ok(s.points)
    else
      match Step(text, s, rd)
      case Raise(x) => Raise(x)
      case Ok(next) => Run(text, next, rd)
  }

  /** `_parse_simai` (with the corrected group parser): the timing points of a chart's note text. */
  function Simai(text: string, first: real, parse: NoteParser): Outcome<seq<TimingPoint>>
  {
    GroupsAdvance(parse);
    Run(text, Start(first), Corrected(parse))
  }

  // ---------------------------------------------------------------- properties

  /** Away from a note group, a pass is a plain one. */
  lemma PlainAt(text: string, s: Scan, rd: Readers)
    requires s.i < |text| && !GroupStart(text, s.i)
    ensures Step(text, s, rd) == PlainStep(text, s, rd)
  {
  }

  /** At a `(`, a plain pass is the tempo pass. */
  lemma TempoPass(text: string, s: Scan, rd: Readers)
    requires s.i < |text| && text[s.i] == '('
    ensures !GroupStart(text, s.i) && PlainStep(text, s, rd) == Ok(TempoStep(text, s.(x := s.x + 1), rd))
  {
  }

  /** At a `{`, a plain pass is the division pass. */
  lemma DivisionPass(text: string, s: Scan, rd: Readers)
    requires s.i < |text| && text[s.i] == '{'
    ensures !GroupStart(text, s.i) && PlainStep(text, s, rd) == Ok(DivisionStep(text, s.(x := s.x + 1), rd))
  {
  }

  /** Only a `,` moves the clock, and by exactly one tick at the current tempo and division. */
  lemma TimeOnlyAtComma(text: string, s: Scan, rd: Readers)
    requires s.i < |text|
    ensures var r := Step(text, s, rd);
      r.Ok? && text[s.i] == ',' ==> Tick(s.bpm, s.beats).Ok? && r.value.time == s.time + Tick(s.bpm, s.beats).value
    ensures var r := Step(text, s, rd);
      r.Ok? && text[s.i] != ',' ==> r.value.time == s.time
  {
  }

  /** A `,` raises ZeroDivisionError exactly when the tempo or the division is zero. */
  lemma CommaRaises(text: string, s: Scan, rd: Readers)
    requires s.i < |text| && text[s.i] == ','
    ensures Step(text, s, rd).Raise? <==> s.bpm == 0.0 || s.beats == 0
    ensures Step(text, s, rd).Raise? ==> Step(text, s, rd).exc == ZeroDivisionError
  {
  }

  /**
    The tempo changes only at a `(`; there it becomes what `float()` makes
    of the bracket's content, or stays when that is malformed, and the scan
    resumes after the `)`.
  */
  lemma TempoOnlyAtParen(text: string, s: Scan, rd: Readers)
    requires s.i < |text|
    ensures var r := Step(text, s, rd);
      r.Ok? && r.value.bpm != s.bpm ==> text[s.i] == '('
    ensures text[s.i] == '(' ==> Step(text, s, rd) == Ok(TempoStep(text, s.(x := s.x + 1), rd))
  {
    if text[s.i] == '(' {
      TempoPass(text, s, rd);
      PlainAt(text, s, rd);
    } else if GroupStart(text, s.i) {
      assert Step(text, s, rd) == GroupStep(s, rd.group(text, s.i, s.bpm));
    } else {
      PlainAt(text, s, rd);
    }
  }

  /** The division changes only at a `{`; there it becomes what `int()` makes of the content, or stays. */
  lemma DivisionOnlyAtBrace(text: string, s: Scan, rd: Readers)
    requires s.i < |text|
    ensures var r := Step(text, s, rd);
      r.Ok? && r.value.beats != s.beats ==> text[s.i] == '{'
    ensures text[s.i] == '{' ==> Step(text, s, rd) == Ok(DivisionStep(text, s.(x := s.x + 1), rd))
  {
    if text[s.i] == '{' {
      DivisionPass(text, s, rd);
      PlainAt(text, s, rd);
    } else if GroupStart(text, s.i) {
      assert Step(text, s, rd) == GroupStep(s, rd.group(text, s.i, s.bpm));
    } else {
      PlainAt(text, s, rd);
    }
  }

  /**
    A timing point is added only for a note group that yields notes, and
    it carries the clock's time and tempo and the group's line and column;
    such a group always adds one.
  */
  lemma PointPerGroup(text: string, s: Scan, rd: Readers)
    requires s.i < |text|
    ensures var r := Step(text, s, rd);
      r.Ok? && r.value.points != s.points ==>
        GroupStart(text, s.i) && rd.group(text, s.i, s.bpm).Ok? &&
        rd.group(text, s.i, s.bpm).value.0 != [] &&
        r.value.points == s.points + [TimingPoint(s.time, s.bpm, rd.group(text, s.i, s.bpm).value.0, s.y, s.x)]
    ensures var r := Step(text, s, rd);
      GroupStart(text, s.i) && rd.group(text, s.i, s.bpm).Ok? && rd.group(text, s.i, s.bpm).value.0 != [] ==>
        r.Ok? && r.value.points != s.points
  {
  }

  /** Every timing point carries notes. */
  predicate AllHaveNotes(points: seq<TimingPoint>)
  {
    forall k :: 0 <= k < |points| ==> points[k].notes != []
  }

  /**
    Running the loop keeps the timing points collected so far in front,
    and every point it adds carries notes.
  */
  lemma {:induction false} RunExtends(text: string, s: Scan, rd: Readers)
    requires s.i <= |text| + 1 && Advances(rd.group)
    ensures var r := Run(text, s, rd);
      r.Ok? ==> s.points <= r.value && (AllHaveNotes(s.points) ==> AllHaveNotes(r.value))
    decreases |text| + 1 - s.i
  {
    if s.i < |text| {
      var step := Step(text, s, rd);
      if step.Ok? {
        PointPerGroup(text, s, rd);
        RunExtends(text, step.value, rd);
      }
    }
  }

  /** The chart's timing points all carry notes. */
  lemma PointsHaveNotes(text: string, first: real, parse: NoteParser)
    ensures Simai(text, first, parse).Ok? ==> AllHaveNotes(Simai(text, first, parse).value)
  {
    GroupsAdvance(parse);
    RunExtends(text, Start(first), Corrected(parse));
  }

  /** Every note of every timing point passes `good`. */
  predicate PointsPass(points: seq<TimingPoint>, good: NoteData -> bool)
  {
    forall k :: 0 <= k < |points| ==> AllPass(points[k].notes, good)
  }

  /** Every note list that the group parser returns passes `good`. */
  ghost predicate GroupsYield(group: GroupParser, good: NoteData -> bool)
  {
    forall text: string, i: nat, bpm: real {:trigger group(text, i, bpm)} ::
      group(text, i, bpm).Ok? ==> AllPass(group(text, i, bpm).value.0, good)
  }

  /** The points the loop adds carry only notes that the group parser returns. */
  lemma {:induction false} RunPasses(text: string, s: Scan, rd: Readers, good: NoteData -> bool)
    requires s.i <= |text| + 1 && Advances(rd.group) && GroupsYield(rd.group, good) && PointsPass(s.points, good)
    ensures Run(text, s, rd).Ok? ==> PointsPass(Run(text, s, rd).value, good)
    decreases |text| + 1 - s.i
  {
    if s.i < |text| {
      var step := Step(text, s, rd);
      if step.Ok? {
        PointPerGroup(text, s, rd);
        if step.value.points != s.points {
          assert AllPass(rd.group(text, s.i, s.bpm).value.0, good);
        }
        RunPasses(text, step.value, rd, good);
      }
    }
  }

  /**
    Every note of every timing point of a chart is one the note parser
    returned: whatever `parse` promises of each note holds of the chart.
  */
  lemma SimaiPasses(text: string, first: real, parse: NoteParser, good: NoteData -> bool)
    requires OnlyYields(parse, good)
    ensures Simai(text, first, parse).Ok? ==> PointsPass(Simai(text, first, parse).value, good)
  {
    GroupsAdvance(parse);
    forall t: string, i: nat, bpm: real | Groups(parse)(t, i, bpm).Ok?
      ensures AllPass(Groups(parse)(t, i, bpm).value.0, good)
    {
      if i <= |t| {
        NoteGroupPasses(t, i, bpm, parse, good);
      }
    }
    RunPasses(text, Start(first), Corrected(parse), good);
  }

  /**
    The state in which the loop as written stalls: at an EACH group whose
    first member yields no note.
  */
  predicate StallsAt(text: string, s: Scan, parse: NoteParser)
  {
    s.i < |text| && GroupStart(text, s.i) && TopLevelSlash(text, s.i, 0) &&
    SingleGroup(text, s.i, s.bpm, parse).Ok? && SingleGroup(text, s.i, s.bpm, parse).value.0 == []
  }

  /**
    As written, a pass from a stalling state only moves the column: the
    index stays, no point is added, and the next state stalls again, so the
    loop never reaches the end of the text.
  */
  lemma StallsForever(text: string, s: Scan, parse: NoteParser)
    requires StallsAt(text, s, parse)
    ensures Step(text, s, AsWritten(parse)) == Ok(s.(x := s.x + 1))
    ensures StallsAt(text, s.(x := s.x + 1), parse)
    ensures !Advances(GroupsAsWritten(parse))
  {
    EachStallsAsWritten(text, s.i, s.bpm, parse);
    assert GroupsAsWritten(parse)(text, s.i, s.bpm) == Ok(([], s.i));
  }

  /**
    Every pass over the corrected group parser is the pass as written,
    except at a group that the code as written reads as empty at its own
    start: the pass that `StallsForever` repeats.
  */
  lemma PassAsWrittenUnlessStalled(text: string, s: Scan, parse: NoteParser)
    requires s.i < |text|
    ensures Step(text, s, Corrected(parse)) != Step(text, s, AsWritten(parse))
      ==> GroupStart(text, s.i) && GroupsAsWritten(parse)(text, s.i, s.bpm) == Ok(([], s.i))
  {
    if GroupStart(text, s.i) {
      CorrectedOnlyWhereStalled(text, s.i, s.bpm, parse);
    }
  }

  // ---------------------------------------------------------------- the code

  /** The inner loop that collects a directive's text up to its closing bracket. */
  method ReadDirective(text: string, i: nat, close: char) returns (content: string, e: nat)
    requires i < |text|
    ensures e == CloseAt(text, i, close) && content == text[i + 1..e]
  {
    e := i + 1;
    content := "";
    while e < |text| && text[e] != close
      invariant i + 1 <= e <= |text|
      invariant FindAny(text, e, [close]) == FindAny(text, i + 1, [close])
      invariant content == text[i + 1..e]
      decreases |text| - e
    {
      SliceSnoc(text, i + 1, e);
      content := content + [text[e]];
      e := e + 1;
    }
  }

  /** The `(bpm)` branch as code. */
  method ReadTempo(text: string, t: Scan, rd: Readers) returns (r: Scan)
    requires t.i < |text|
    ensures r == TempoStep(text, t, rd)
  {
    var content, e := ReadDirective(text, t.i, ')');
    var bpm := t.bpm;
    var v := rd.toReal(content);
    if v.Some? {
      bpm := v.value;
    }
    r := t.(i := e + 1, bpm := bpm);
  }

  /** The `{beats}` branch as code. */
  method ReadDivision(text: string, t: Scan, rd: Readers) returns (r: Scan)
    requires t.i < |text|
    ensures r == DivisionStep(text, t, rd)
  {
    var content, e := ReadDirective(text, t.i, '}');
    var beats := t.beats;
    var v := rd.toInt(content);
    if v.Some? {
      beats := v.value;
    }
    r := t.(i := e + 1, beats := beats);
  }

  /** The passes that do not start a note group, as code. */
  method PlainScan(text: string, s: Scan, rd: Readers) returns (r: Outcome<Scan>)
    requires s.i < |text| && !GroupStart(text, s.i)
    ensures r == PlainStep(text, s, rd)
  {
    var c := text[s.i];
    if c == '\n' {
      return Ok(s.(i := s.i + 1, y := s.y + 1, x := 0));
    }
    var t := s.(x := s.x + 1);
    if c == '|' && s.i + 1 < |text| && text[s.i + 1] == '|' {
      var i := s.i;
      while i < |text| && text[i] != '\n'
        invariant s.i <= i <= |text|
        invariant FindAny(text, i, "\n") == FindAny(text, s.i, "\n")
        decreases |text| - i
      {
        i := i + 1;
      }
      return Ok(t.(i := i));
    }
    if c in Blanks {
      return Ok(t.(i := s.i + 1));
    }
    if c == '(' {
      var next := ReadTempo(text, t, rd);
      return Ok(next);
    }
    if c == '{' {
      var next := ReadDivision(text, t, rd);
      return Ok(next);
    }
    if c == ',' {
      var d := Tick(s.bpm, s.beats);
      if d.Raise? {
        return Raise(d.exc);
      }
      return Ok(t.(i := s.i + 1, time := s.time + d.value));
    }
    r := Ok(t.(i := s.i + 1));
  }

  /** A pass over a note group, as code. */
  method GroupScan(text: string, s: Scan, parse: NoteParser) returns (r: Outcome<Scan>)
    requires s.i < |text| && GroupStart(text, s.i)
    ensures r == Step(text, s, Corrected(parse))
  {
    var group := ParseNoteGroup(text, s.i, s.bpm, parse);
    r := GroupStep(s, group);
  }

  /** `_parse_simai` as code: the scanning loop. */
  method ParseSimai(text: string, first: real, parse: NoteParser) returns (r: Outcome<seq<TimingPoint>>)
    ensures r == Simai(text, first, parse)
  {
    GroupsAdvance(parse);
    var s := Start(first);
    while s.i < |text|
      invariant s.i <= |text| + 1
      invariant Run(text, s, Corrected(parse)) == Simai(text, first, parse)
      decreases |text| + 1 - s.i
    {
      var next: Outcome<Scan>;
      if GroupStart(text, s.i) {
        next := GroupScan(text, s, parse);
      } else {
        next := PlainScan(text, s, Corrected(parse));
      }
      if next.Raise? {
        return Raise(next.exc);
      }
      s := next.value;
    }
    r := Ok(s.points);
  }
}
