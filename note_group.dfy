/**
  Note groups: the text between two commas (or up to a newline) that the
  chart scanner hands to `_parse_note_group`. A group with a `/` outside
  brackets is an EACH group, read member by member; any other group is
  split on backticks (pseudo-EACH) and each trimmed segment is one note.
*/
module NoteGroups {
  import opened Py
  import opened ChartModel

  /** What ends a group. */
  const GroupDelims: string := ",\n"

  /** What ends one member of an EACH group. */
  const MemberDelims: string := ",/\n "

  /** What the EACH loop skips between members. */
  const Blanks: string := " \t\r"

  /**
    A note parser at a tempo: `_parse_note`, with a list, a single note
    and `None` all read as a sequence of notes. The group functions and
    their code take the note parser as a parameter, so that what they
    promise holds whatever the note grammar; the chart scanner passes
    `NoteGrammar.ParseNote`.
  */
  type NoteParser = (string, real) -> Outcome<seq<NoteData>>

  /**
    `_is_note_start`: a button digit `1`..`8`, `E`, or a touch area letter
    `A`..`E` (written as ranges, which are the same two character sets).
  */
  predicate IsNoteStart(text: string, pos: nat)
  {
    pos < |text| && (('1' <= text[pos] <= '8' || text[pos] == 'E') || 'A' <= text[pos] <= 'E')
  }

  // ---------------------------------------------------------------- lookahead

  /** A bracket's effect on the depth: `[` opens, `]` closes. */
  function Delta(c: char): int
  {
    if c == '[' then 1 else if c == ']' then -1 else 0
  }

  /** The bracket depth reached after `text[i..j]`. */
  function Depth(text: string, i: nat, j: nat): int
    requires i <= j <= |text|
    decreases j - i
  {
    if i == j then 0 else Delta(text[i]) + Depth(text, i + 1, j)
  }

  /** The lookahead: is there a `/` at depth 0 before the group ends? */
  function TopLevelSlash(text: string, i: nat, depth: int): bool
    requires i <= |text|
    decreases |text| - i
  {
    if i == |text| || text[i] in GroupDelims then false
    else if text[i] == '/' && depth == 0 then true
    else TopLevelSlash(text, i + 1, depth + Delta(text[i]))
  }

  /**
    The group is EACH exactly when some `/` before the end of the group
    sits at bracket depth 0.
  */
  lemma {:induction false} TopLevelSlashMeans(text: string, i: nat, depth: int)
    requires i <= |text|
    ensures TopLevelSlash(text, i, depth) <==>
      exists j :: i <= j < FindAny(text, i, GroupDelims) && text[j] == '/' && depth + Depth(text, i, j) == 0
    decreases |text| - i
  {
    var e := FindAny(text, i, GroupDelims);
    if i == |text| || text[i] in GroupDelims {
      assert e == i;
    } else {
      TopLevelSlashMeans(text, i + 1, depth + Delta(text[i]));
      assert e == FindAny(text, i + 1, GroupDelims);
      forall j | i + 1 <= j <= |text|
        ensures Depth(text, i, j) == Delta(text[i]) + Depth(text, i + 1, j)
      {
      }
      if text[i] == '/' && depth == 0 {
        assert Depth(text, i, i) == 0;
      }
    }
  }

  /** The lookahead loop of `_parse_note_group`. */
  method LookAheadSlash(text: string, start: nat) returns (hasSlash: bool)
    requires start <= |text|
    ensures hasSlash == TopLevelSlash(text, start, 0)
  {
    var lookahead := start;
    var parenDepth := 0;
    hasSlash := false;
    while lookahead < |text| && text[lookahead] !in GroupDelims
      invariant start <= lookahead <= |text|
      invariant TopLevelSlash(text, lookahead, parenDepth) == TopLevelSlash(text, start, 0)
      decreases |text| - lookahead
    {
      if text[lookahead] == '[' {
        parenDepth := parenDepth + 1;
      } else if text[lookahead] == ']' {
        parenDepth := parenDepth - 1;
      } else if text[lookahead] == '/' && parenDepth == 0 {
        hasSlash := true;
        break;
      }
      lookahead := lookahead + 1;
    }
  }

  // ---------------------------------------------------------------- one member

  /**
    `_process_single_group`: the member is the text up to the next `,`,
    `/`, newline or space; an empty member is no note.
  */
  function SingleGroup(text: string, start: nat, bpm: real, parse: NoteParser): (r: Outcome<(seq<NoteData>, nat)>)
    requires start <= |text|
    ensures r.Ok? ==> r.value.1 == FindAny(text, start, MemberDelims)
    ensures FindAny(text, start, MemberDelims) == start ==> r == Ok(([], start))
  {
    var e := FindAny(text, start, MemberDelims);
    if e == start then Ok(([], e))
    else
      match parse(text[start..e], bpm)
      case Raise(x) => Raise(x)
      case Ok(notes) => Ok((notes, e))
  }

  /** `_process_single_group` as code, with its character loop. */
  method ProcessSingleGroup(text: string, start: nat, bpm: real, parse: NoteParser) returns (r: Outcome<(seq<NoteData>, nat)>)
    requires start <= |text|
    ensures r == SingleGroup(text, start, bpm, parse)
  {
    var i := start;
    var noteText := "";
    while i < |text| && text[i] !in MemberDelims
      invariant start <= i <= |text| && FindAny(text, i, MemberDelims) == FindAny(text, start, MemberDelims)
      invariant noteText == text[start..i]
      decreases |text| - i
    {
      SliceSnoc(text, start, i);
      noteText := noteText + [text[i]];
      i := i + 1;
    }
    if noteText != [] {
      var notes := parse(noteText, bpm);
      if notes.Raise? {
        return Raise(notes.exc);
      }
      return Ok((notes.value, i));
    }
    return Ok(([], i));
  }

  // ---------------------------------------------------------------- EACH

  /** Notes parsed before `r`'s, in front of them. */
  function Prepend(notes: seq<NoteData>, r: Outcome<(seq<NoteData>, nat)>): Outcome<(seq<NoteData>, nat)>
  {
    match r
    case Raise(x) => Raise(x)
    case Ok((rest, k)) => Ok((notes + rest, k))
  }

  lemma PrependTwice(a: seq<NoteData>, b: seq<NoteData>, r: Outcome<(seq<NoteData>, nat)>)
    ensures Prepend(a, Prepend(b, r)) == Prepend(a + b, r)
  {
    if r.Ok? {
      assert a + (b + r.value.0) == (a + b) + r.value.0;
    }
  }

  lemma PrependNone(r: Outcome<(seq<NoteData>, nat)>)
    ensures Prepend([], r) == r
  {
    if r.Ok? {
      assert [] + r.value.0 == r.value.0;
    }
  }

  /**
    The EACH loop as written: `/` and blanks are skipped, each member is
    parsed, and a member that yields no note stops the loop where that
    member starts. It never reads past the end of the group.
  */
  function EachLoopAsWritten(text: string, i: nat, bpm: real, parse: NoteParser): (r: Outcome<(seq<NoteData>, nat)>)
    requires i <= |text|
    ensures r.Ok? ==> i <= r.value.1 <= FindAny(text, i, GroupDelims)
    decreases |text| - i
  {
    if i == |text| || text[i] in GroupDelims then Ok(([], i))
    else if text[i] == '/' || text[i] in Blanks then EachLoopAsWritten(text, i + 1, bpm, parse)
    else
      match SingleGroup(text, i, bpm, parse)
      case Raise(x) => Raise(x)
      case Ok((notes, e)) =>
        if notes == [] then Ok(([], i)) else Prepend(notes, EachLoopAsWritten(text, e, bpm, parse))
  }

  /**
    The EACH loop corrected where the code as written loops forever: while
    no member has yielded a note, a member that yields none is skipped;
    once one has, the loop goes on as written and stops at the next
    member that yields none.
  */
  function EachLoop(text: string, i: nat, bpm: real, parse: NoteParser): (r: Outcome<(seq<NoteData>, nat)>)
    requires i <= |text|
    ensures r.Ok? ==> i <= r.value.1 <= FindAny(text, i, GroupDelims)
    ensures r.Ok? && r.value.0 == [] ==> r.value.1 == FindAny(text, i, GroupDelims)
    ensures r.Ok? && r.value.0 != [] ==> i < r.value.1
    decreases |text| - i
  {
    if i == |text| || text[i] in GroupDelims then Ok(([], i))
    else if text[i] == '/' || text[i] in Blanks then EachLoop(text, i + 1, bpm, parse)
    else
      match SingleGroup(text, i, bpm, parse)
      case Raise(x) => Raise(x)
      case Ok((notes, e)) =>
        if notes == [] then EachLoop(text, e, bpm, parse) else Prepend(notes, EachLoopAsWritten(text, e, bpm, parse))
  }

  /**
    The corrected EACH loop as code: the source's loop, with the `break`
    taken only once a member has yielded notes.
  */
  method ReadEach(text: string, start: nat, bpm: real, parse: NoteParser) returns (r: Outcome<(seq<NoteData>, nat)>)
    requires start <= |text|
    ensures r == EachLoop(text, start, bpm, parse)
  {
    var i := start;
    var notes: seq<NoteData> := [];
    while i < |text| && text[i] !in GroupDelims
      invariant start <= i <= |text|
      invariant notes == [] ==> EachLoop(text, start, bpm, parse) == EachLoop(text, i, bpm, parse)
      invariant notes != [] ==> EachLoop(text, start, bpm, parse) == Prepend(notes, EachLoopAsWritten(text, i, bpm, parse))
      decreases |text| - i
    {
      if text[i] == '/' || text[i] in Blanks {
        i := i + 1;
        continue;
      }
      var parsed := ProcessSingleGroup(text, i, bpm, parse);
      if parsed.Raise? {
        return Raise(parsed.exc);
      }
      if parsed.value.0 != [] {
        if notes != [] {
          PrependTwice(notes, parsed.value.0, EachLoopAsWritten(text, parsed.value.1, bpm, parse));
        } else {
          assert [] + parsed.value.0 == parsed.value.0;
        }
        notes := notes + parsed.value.0;
        i := parsed.value.1;
      } else if notes == [] {
        i := parsed.value.1;
      } else {
        assert notes + [] == notes;
        return Ok((notes, i));
      }
    }
    assert notes + [] == notes;
    r := Ok((notes, i));
  }

  // ---------------------------------------------------------------- pseudo-EACH

  /** The backtick segments, each trimmed. */
  function StripAll(segs: seq<string>): (parts: seq<string>)
    ensures |parts| == |segs|
    ensures forall k :: 0 <= k < |segs| ==> parts[k] == Strip(segs[k])
  {
    seq(|segs|, k requires 0 <= k < |segs| => Strip(segs[k]))
  }

  /** The notes of the first `k` trimmed segments; empty ones are skipped. */
  function Segments(parts: seq<string>, k: nat, bpm: real, parse: NoteParser): (r: Outcome<seq<NoteData>>)
    requires k <= |parts|
    decreases k
  {
    if k == 0 then Ok([])
    else
      match Segments(parts, k - 1, bpm, parse)
      case Raise(x) => Raise(x)
      case Ok(prev) =>
        if parts[k - 1] == [] then Ok(prev)
        else
          match parse(parts[k - 1], bpm)
          case Raise(x) => Raise(x)
          case Ok(notes) => Ok(prev + notes)
  }

  /** Once a segment has raised, the loop over the segments has raised that exception. */
  lemma {:induction false} SegmentsRaiseStays(parts: seq<string>, k: nat, j: nat, bpm: real, parse: NoteParser)
    requires k <= j <= |parts| && Segments(parts, k, bpm, parse).Raise?
    ensures Segments(parts, j, bpm, parse) == Segments(parts, k, bpm, parse)
    decreases j
  {
    if j > k {
      SegmentsRaiseStays(parts, k, j - 1, bpm, parse);
    }
  }

  /** Trimming segment by segment: one more segment adds its trimmed text at the end. */
  lemma StripAllSnoc(segs: seq<string>, seg: string)
    ensures StripAll(segs + [seg]) == StripAll(segs) + [Strip(seg)]
  {
    assert forall k :: 0 <= k < |segs| ==> (segs + [seg])[k] == segs[k];
  }

  /** A segment that is blank once trimmed contributes nothing. */
  lemma BlankSegmentSkipped(parts: seq<string>, bpm: real, parse: NoteParser)
    ensures Segments(parts + [[]], |parts| + 1, bpm, parse) == Segments(parts, |parts|, bpm, parse)
  {
    var all := parts + [[]];
    assert all[..|parts|] == parts;
    SegmentsPrefix(all, |parts|, bpm, parse);
  }

  /** Any other segment adds the notes of its trimmed text after the earlier ones. */
  lemma SegmentAppended(parts: seq<string>, part: string, bpm: real, parse: NoteParser)
    requires part != []
    requires Segments(parts, |parts|, bpm, parse).Ok? && parse(part, bpm).Ok?
    ensures Segments(parts + [part], |parts| + 1, bpm, parse)
      == Ok(Segments(parts, |parts|, bpm, parse).value + parse(part, bpm).value)
  {
    var all := parts + [part];
    assert all[..|parts|] == parts;
    SegmentsPrefix(all, |parts|, bpm, parse);
  }

  /** `Segments` of a prefix only looks at that prefix. */
  lemma {:induction false} SegmentsPrefix(parts: seq<string>, k: nat, bpm: real, parse: NoteParser)
    requires k <= |parts|
    ensures Segments(parts, k, bpm, parse) == Segments(parts[..k], k, bpm, parse)
    decreases k
  {
    if k > 0 {
      SegmentsPrefix(parts, k - 1, bpm, parse);
      assert parts[..k][..k - 1] == parts[..k - 1];
      SegmentsPrefix(parts[..k], k - 1, bpm, parse);
    }
  }

  /** The pseudo-EACH path: the group up to `,` or newline, split on backticks. */
  function PseudoEach(text: string, start: nat, bpm: real, parse: NoteParser): (r: Outcome<(seq<NoteData>, nat)>)
    requires start <= |text|
    ensures r.Ok? ==> r.value.1 == FindAny(text, start, GroupDelims)
  {
    var groupEnd := FindAny(text, start, GroupDelims);
    var parts := StripAll(SplitOn(text[start..groupEnd], '`'));
    match Segments(parts, |parts|, bpm, parse)
    case Raise(x) => Raise(x)
    case Ok(notes) => Ok((notes, groupEnd))
  }

  /** The loop that finds the end of the group. */
  method FindGroupEnd(text: string, start: nat) returns (groupEnd: nat)
    requires start <= |text|
    ensures groupEnd == FindAny(text, start, GroupDelims)
  {
    groupEnd := start;
    while groupEnd < |text| && text[groupEnd] !in GroupDelims
      invariant start <= groupEnd <= |text|
      invariant FindAny(text, groupEnd, GroupDelims) == FindAny(text, start, GroupDelims)
      decreases |text| - groupEnd
    {
      groupEnd := groupEnd + 1;
    }
  }

  /** The trimming of each segment. */
  method StripEach(segs: seq<string>) returns (parts: seq<string>)
    ensures parts == StripAll(segs)
  {
    parts := [];
    var k := 0;
    while k < |segs|
      invariant 0 <= k <= |segs| && |parts| == k
      invariant forall j :: 0 <= j < k ==> parts[j] == Strip(segs[j])
      decreases |segs| - k
    {
      parts := parts + [Strip(segs[k])];
      k := k + 1;
    }
  }

  /** One pass of the loop over the trimmed segments. */
  method ReadSegment(parts: seq<string>, k: nat, notes: seq<NoteData>, bpm: real, parse: NoteParser) returns (r: Outcome<seq<NoteData>>)
    requires k < |parts| && Segments(parts, k, bpm, parse) == Ok(notes)
    ensures r == Segments(parts, k + 1, bpm, parse)
  {
    if parts[k] == [] {
      return Ok(notes);
    }
    var parsed := parse(parts[k], bpm);
    if parsed.Raise? {
      return Raise(parsed.exc);
    }
    r := Ok(notes + parsed.value);
  }

  /** The loop over the trimmed segments. */
  method ReadSegments(parts: seq<string>, bpm: real, parse: NoteParser) returns (r: Outcome<seq<NoteData>>)
    ensures r == Segments(parts, |parts|, bpm, parse)
  {
    r := Ok([]);
    var k := 0;
    while k < |parts| && r.Ok?
      invariant 0 <= k <= |parts|
      invariant r == Segments(parts, k, bpm, parse)
      decreases |parts| - k
    {
      r := ReadSegment(parts, k, r.value, bpm, parse);
      k := k + 1;
    }
    if r.Raise? {
      SegmentsRaiseStays(parts, k, |parts|, bpm, parse);
    }
  }

  /** The pseudo-EACH path as code. */
  method ReadPseudoEach(text: string, start: nat, bpm: real, parse: NoteParser) returns (r: Outcome<(seq<NoteData>, nat)>)
    requires start <= |text|
    ensures r == PseudoEach(text, start, bpm, parse)
  {
    var groupEnd := FindGroupEnd(text, start);
    var parts := StripEach(SplitOn(text[start..groupEnd], '`'));
    var notes := ReadSegments(parts, bpm, parse);
    if notes.Raise? {
      return Raise(notes.exc);
    }
    r := Ok((notes.value, groupEnd));
  }

  // ---------------------------------------------------------------- the group

  /** `_parse_note_group` as written. */
  function NoteGroupAsWritten(text: string, start: nat, bpm: real, parse: NoteParser): (r: Outcome<(seq<NoteData>, nat)>)
    requires start <= |text|
  {
    if TopLevelSlash(text, start, 0) then EachLoopAsWritten(text, start, bpm, parse) else PseudoEach(text, start, bpm, parse)
  }

  /**
    `_parse_note_group` with the EACH loop corrected where it stalls. It
    never reads past the end of the group, and it reaches that end unless
    an EACH group stops at a member that yields no note after others did.
  */
  function NoteGroup(text: string, start: nat, bpm: real, parse: NoteParser): (r: Outcome<(seq<NoteData>, nat)>)
    requires start <= |text|
    ensures r.Ok? ==> start <= r.value.1 <= FindAny(text, start, GroupDelims)
    ensures r.Ok? && (r.value.0 == [] || !TopLevelSlash(text, start, 0)) ==> r.value.1 == FindAny(text, start, GroupDelims)
  {
    if TopLevelSlash(text, start, 0) then EachLoop(text, start, bpm, parse) else PseudoEach(text, start, bpm, parse)
  }

  /** `_parse_note_group` (corrected) as code. */
  method ParseNoteGroup(text: string, start: nat, bpm: real, parse: NoteParser) returns (r: Outcome<(seq<NoteData>, nat)>)
    requires start <= |text|
    ensures r == NoteGroup(text, start, bpm, parse)
  {
    var hasSlash := LookAheadSlash(text, start);
    if hasSlash {
      r := ReadEach(text, start, bpm, parse);
    } else {
      r := ReadPseudoEach(text, start, bpm, parse);
    }
  }

  /**
    The corrected group parser moves past the group: from a note start it
    returns an index strictly after `start`.
  */
  lemma GroupAdvances(text: string, start: nat, bpm: real, parse: NoteParser)
    requires IsNoteStart(text, start)
    ensures NoteGroup(text, start, bpm, parse).Ok? ==> NoteGroup(text, start, bpm, parse).value.1 > start
  {
  }

  /**
    The correction changes only what the code as written reads as an
    empty group at its own start, which is where the chart scanner would
    read the same group again forever: on every other group the two agree.
  */
  lemma CorrectedOnlyWhereStalled(text: string, start: nat, bpm: real, parse: NoteParser)
    requires IsNoteStart(text, start)
    ensures NoteGroup(text, start, bpm, parse) != NoteGroupAsWritten(text, start, bpm, parse)
      ==> NoteGroupAsWritten(text, start, bpm, parse) == Ok(([], start))
  {
    if TopLevelSlash(text, start, 0) {
      assert text[start] !in GroupDelims && text[start] != '/' && text[start] !in Blanks;
    }
  }

  /**
    An EACH group stops at a member that yields no note once an earlier
    one has (`2/9-*` followed by `/4,`): the notes so far come back with the index of
    that member, and the scanner reads on from there.
  */
  lemma EachStopsAtSilentMember(text: string, start: nat, bpm: real, parse: NoteParser)
    requires IsNoteStart(text, start) && TopLevelSlash(text, start, 0)
    requires SingleGroup(text, start, bpm, parse).Ok? && SingleGroup(text, start, bpm, parse).value.0 != []
    requires SingleGroup(text, start, bpm, parse).value.1 < |text| && text[SingleGroup(text, start, bpm, parse).value.1] == '/'
    requires SingleGroup(text, start, bpm, parse).value.1 + 1 < |text|
    requires var m := SingleGroup(text, start, bpm, parse).value.1 + 1;
      text[m] !in GroupDelims && text[m] != '/' && text[m] !in Blanks
      && SingleGroup(text, m, bpm, parse).Ok? && SingleGroup(text, m, bpm, parse).value.0 == []
    ensures NoteGroup(text, start, bpm, parse)
      == Ok((SingleGroup(text, start, bpm, parse).value.0, SingleGroup(text, start, bpm, parse).value.1 + 1))
  {
    var e := SingleGroup(text, start, bpm, parse).value.1;
    var notes := SingleGroup(text, start, bpm, parse).value.0;
    assert text[start] !in GroupDelims && text[start] != '/' && text[start] !in Blanks;
    assert EachLoopAsWritten(text, e + 1, bpm, parse) == Ok(([], e + 1));
    assert EachLoopAsWritten(text, e, bpm, parse) == Ok(([], e + 1));
    assert notes + [] == notes;
  }

  /**
    As written, an EACH group whose first member yields no note (a chain
    of slides whose later tracks are all empty: `1-*` then `/2,`) comes back with
    no notes at the index it started from.
  */
  lemma EachStallsAsWritten(text: string, start: nat, bpm: real, parse: NoteParser)
    requires IsNoteStart(text, start) && TopLevelSlash(text, start, 0)
    requires SingleGroup(text, start, bpm, parse).Ok? && SingleGroup(text, start, bpm, parse).value.0 == []
    ensures NoteGroupAsWritten(text, start, bpm, parse) == Ok(([], start))
  {
  }

  // ---------------------------------------------------------------- what a group yields

  /** Every note in `notes` passes `good`. */
  predicate AllPass(notes: seq<NoteData>, good: NoteData -> bool)
  {
    forall k :: 0 <= k < |notes| ==> good(notes[k])
  }

  /** Every note that the note parser returns passes `good`. */
  ghost predicate OnlyYields(parse: NoteParser, good: NoteData -> bool)
  {
    forall s: string, bpm: real {:trigger parse(s, bpm)} :: parse(s, bpm).Ok? ==> AllPass(parse(s, bpm).value, good)
  }

  lemma AllPassAppend(a: seq<NoteData>, b: seq<NoteData>, good: NoteData -> bool)
    requires AllPass(a, good) && AllPass(b, good)
    ensures AllPass(a + b, good)
  {
    forall k | 0 <= k < |a + b| ensures good((a + b)[k]) {
      if k >= |a| {
        assert (a + b)[k] == b[k - |a|];
      }
    }
  }

  /** One member yields only notes of the note parser. */
  lemma SingleGroupPasses(text: string, start: nat, bpm: real, parse: NoteParser, good: NoteData -> bool)
    requires start <= |text| && OnlyYields(parse, good)
    ensures SingleGroup(text, start, bpm, parse).Ok? ==> AllPass(SingleGroup(text, start, bpm, parse).value.0, good)
  {
    var e := FindAny(text, start, MemberDelims);
    if e != start {
      assert parse(text[start..e], bpm).Ok? ==> AllPass(parse(text[start..e], bpm).value, good);
    }
  }

  /** The EACH loop as written yields only notes of the note parser. */
  lemma {:induction false} EachLoopAsWrittenPasses(text: string, i: nat, bpm: real, parse: NoteParser, good: NoteData -> bool)
    requires i <= |text| && OnlyYields(parse, good)
    ensures EachLoopAsWritten(text, i, bpm, parse).Ok? ==> AllPass(EachLoopAsWritten(text, i, bpm, parse).value.0, good)
    decreases |text| - i
  {
    if i == |text| || text[i] in GroupDelims {
    } else if text[i] == '/' || text[i] in Blanks {
      EachLoopAsWrittenPasses(text, i + 1, bpm, parse, good);
    } else {
      var member := SingleGroup(text, i, bpm, parse);
      if member.Ok? && member.value.0 != [] {
        SingleGroupPasses(text, i, bpm, parse, good);
        EachLoopAsWrittenPasses(text, member.value.1, bpm, parse, good);
        var rest := EachLoopAsWritten(text, member.value.1, bpm, parse);
        if rest.Ok? {
          AllPassAppend(member.value.0, rest.value.0, good);
        }
      }
    }
  }

  /** The EACH loop yields only notes of the note parser. */
  lemma {:induction false} EachLoopPasses(text: string, i: nat, bpm: real, parse: NoteParser, good: NoteData -> bool)
    requires i <= |text| && OnlyYields(parse, good)
    ensures EachLoop(text, i, bpm, parse).Ok? ==> AllPass(EachLoop(text, i, bpm, parse).value.0, good)
    decreases |text| - i
  {
    if i == |text| || text[i] in GroupDelims {
    } else if text[i] == '/' || text[i] in Blanks {
      EachLoopPasses(text, i + 1, bpm, parse, good);
    } else {
      var member := SingleGroup(text, i, bpm, parse);
      if member.Ok? && member.value.0 == [] {
        EachLoopPasses(text, member.value.1, bpm, parse, good);
      } else if member.Ok? {
        SingleGroupPasses(text, i, bpm, parse, good);
        EachLoopAsWrittenPasses(text, member.value.1, bpm, parse, good);
        var rest := EachLoopAsWritten(text, member.value.1, bpm, parse);
        if rest.Ok? {
          AllPassAppend(member.value.0, rest.value.0, good);
        }
      }
    }
  }

  /** The backtick segments yield only notes of the note parser. */
  lemma {:induction false} SegmentsPass(parts: seq<string>, k: nat, bpm: real, parse: NoteParser, good: NoteData -> bool)
    requires k <= |parts| && OnlyYields(parse, good)
    ensures Segments(parts, k, bpm, parse).Ok? ==> AllPass(Segments(parts, k, bpm, parse).value, good)
    decreases k
  {
    if k > 0 {
      SegmentsPass(parts, k - 1, bpm, parse, good);
      var prev := Segments(parts, k - 1, bpm, parse);
      if prev.Ok? && parts[k - 1] != [] && parse(parts[k - 1], bpm).Ok? {
        AllPassAppend(prev.value, parse(parts[k - 1], bpm).value, good);
      }
    }
  }

  /**
    A group yields only notes that the note parser yields, on both paths:
    whatever the note parser promises of each note it returns holds of
    every note of the group.
  */
  lemma NoteGroupPasses(text: string, start: nat, bpm: real, parse: NoteParser, good: NoteData -> bool)
    requires start <= |text| && OnlyYields(parse, good)
    ensures NoteGroup(text, start, bpm, parse).Ok? ==> AllPass(NoteGroup(text, start, bpm, parse).value.0, good)
  {
    if TopLevelSlash(text, start, 0) {
      EachLoopPasses(text, start, bpm, parse, good);
    } else {
      var parts := StripAll(SplitOn(text[start..FindAny(text, start, GroupDelims)], '`'));
      SegmentsPass(parts, |parts|, bpm, parse, good);
    }
  }
}
