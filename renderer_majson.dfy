// The chart-to-interchange conversion of renderer.py: the timing points of
// one difficulty become timing point records, each with one record per note.
// This copy keeps the raw text position of every timing point, and carries a
// `prev` variable through the note loop that is only bound after the first
// note: a no-head slide met before any note reads it unbound.

module RendererMajson {
  import opened Py
  import opened ChartModel
  import opened MajsonRecords

  /** The record of one timing point: its time, bpm and raw text position, and its notes. */
  function PointRecord(tp: TimingPoint): SimaiTimingPoint {
    DefaultSimaiTimingPoint.(time := tp.time, currentBpm := tp.bpm,
      rawTextPositionX := tp.rawX, rawTextPositionY := tp.rawY,
      noteList := NoteRecords(tp.time, tp.notes))
  }

  /** The records of the timing points, one appended per point. */
  function PointRecords(points: seq<TimingPoint>): seq<SimaiTimingPoint> {
    if points == [] then []
    else PointRecords(points[..|points| - 1]) + [PointRecord(points[|points| - 1])]
  }

  /** The first note the loops meet is a slide without a head. */
  predicate FirstNoteHasNoHead(points: seq<TimingPoint>) {
    AllNotes(points) != [] && AllNotes(points)[0].isNoSlideHead
  }

  /** What `generate_majson` gives: the bare header when the difficulty is
      absent, the unbound-variable error when the first note is a slide
      without a head, and otherwise the header with every timing point converted. */
  function Generated(chart: Chart, diffNum: int, level: string): Outcome<Majson> {
    var header := MajsonHeader(chart, diffNum, level);
    if diffNum !in chart.difficultyCharts then Ok(header)
    else
      var points := chart.difficultyCharts[diffNum];
      if FirstNoteHasNoHead(points) then Raise(UnboundLocalError)
      else Ok(header.(timingList := PointRecords(points)))
  }

  /** `generate_majson`: nested loops over the timing points and their notes,
      appending each converted note to its timing point and each timing point
      to the chart. */
  method GenerateMajson(chart: Chart, diffNum: int, level: string) returns (r: Outcome<Majson>)
    ensures r == Generated(chart, diffNum, level)
  {
    var header := MajsonHeader(chart, diffNum, level);
    if diffNum !in chart.difficultyCharts {
      return Ok(header);
    }
    var points := chart.difficultyCharts[diffNum];
    var majson := header;
    var prev: Option<(NoteData, string)> := None;
    var i := 0;
    while i < |points|
      invariant 0 <= i <= |points|
      invariant majson == header.(timingList := PointRecords(points[..i]))
      invariant prev.None? <==> AllNotes(points[..i]) == []
      invariant !FirstNoteHasNoHead(points[..i])
    {
      var tp := points[i];
      var simaiTp := DefaultSimaiTimingPoint.(time := tp.time, currentBpm := tp.bpm,
        rawTextPositionX := tp.rawX, rawTextPositionY := tp.rawY);
      PrefixStep(points, i);
      var noteList;
      noteList, prev := ConvertNotes(tp.time, tp.notes, prev);
      if noteList.Raise? {
        UnboundAtFirstNote(points, i);
        return Raise(UnboundLocalError);
      }
      simaiTp := simaiTp.(noteList := noteList.value);
      majson := majson.(timingList := majson.timingList + [simaiTp]);
      i := i + 1;
    }
    assert points[..i] == points;
    return Ok(majson);
  }

  /** One more timing point adds its notes and its record at the end. */
  lemma PrefixStep(points: seq<TimingPoint>, i: nat)
    requires i < |points|
    ensures AllNotes(points[..i + 1]) == AllNotes(points[..i]) + points[i].notes
    ensures PointRecords(points[..i + 1]) == PointRecords(points[..i]) + [PointRecord(points[i])]
  {
    assert points[..i + 1][..i] == points[..i];
  }

  /** The inner loop of `generate_majson` over the notes of one timing point:
      one record per note, in order. `prev` is what earlier notes left bound;
      a slide without a head met while it is still unbound raises. */
  method ConvertNotes(time: real, notes: seq<NoteData>, prev: Option<(NoteData, string)>)
    returns (r: Outcome<seq<SimaiNote>>, last: Option<(NoteData, string)>)
    ensures r.Raise? <==> prev.None? && notes != [] && notes[0].isNoSlideHead
    ensures r.Raise? ==> r.exc == UnboundLocalError
    ensures r.Ok? ==> r.value == NoteRecords(time, notes) && (last.None? <==> prev.None? && notes == [])
  {
    last := prev;
    var noteList: seq<SimaiNote> := [];
    var j := 0;
    while j < |notes|
      invariant 0 <= j <= |notes|
      invariant noteList == NoteRecords(time, notes[..j])
      invariant last.None? <==> prev.None? && j == 0
      invariant prev.None? && j > 0 ==> !notes[0].isNoSlideHead
    {
      var note := notes[j];
      var content := BuildNoteContent(note.content);
      if note.isNoSlideHead && last.None? {
        return Raise(UnboundLocalError), last;
      }
      last := Some((note, content));
      noteList := noteList + [NoteRecord(time, note)];
      NoteRecordsSnoc(time, notes, j);
      j := j + 1;
    }
    assert notes[..j] == notes;
    r := Ok(noteList);
  }

  /** When no note comes before the `i`th timing point, its first note is the
      first note met. */
  lemma UnboundAtFirstNote(points: seq<TimingPoint>, i: int)
    requires 0 <= i < |points| && points[i].notes != [] && points[i].notes[0].isNoSlideHead
    requires AllNotes(points[..i]) == []
    ensures FirstNoteHasNoHead(points)
  {
    assert points == points[..i] + points[i..];
    AllNotesSplit(points[..i], points[i..]);
    assert points[i..] == [points[i]] + points[i + 1..];
    AllNotesSplit([points[i]], points[i + 1..]);
    assert AllNotes([points[i]]) == points[i].notes by { assert [points[i]][..0] == []; }
  }

  lemma {:induction false} PointRecordsOneToOne(points: seq<TimingPoint>)
    ensures |PointRecords(points)| == |points|
    ensures forall i | 0 <= i < |points| :: PointRecords(points)[i] == PointRecord(points[i])
  {
    if points != [] {
      PointRecordsOneToOne(points[..|points| - 1]);
    }
  }

  /** Every outcome that is not an error carries the chart's title, artist and
      designer, the difficulty index with its name and the level; an absent
      difficulty gives just that, with no timing points. */
  lemma HeaderCopied(chart: Chart, diffNum: int, level: string)
    ensures Generated(chart, diffNum, level).Ok? ==>
      var m := Generated(chart, diffNum, level).value;
      && m.title == chart.metadata.title && m.artist == chart.metadata.artist
      && m.designer == chart.metadata.designer && m.diffNum == diffNum
      && m.difficulty == GetDifficultyText(diffNum) && m.level == level
    ensures diffNum !in chart.difficultyCharts ==>
      Generated(chart, diffNum, level).Ok? && Generated(chart, diffNum, level).value.timingList == []
  {
  }

  /** The conversion is one-to-one and keeps the order: one timing point record
      per timing point, with its time, bpm and raw text position copied and the
      other fields at their defaults, holding one note record per note. */
  lemma OneToOne(chart: Chart, diffNum: int, level: string)
    requires diffNum in chart.difficultyCharts
    requires !FirstNoteHasNoHead(chart.difficultyCharts[diffNum])
    ensures var points := chart.difficultyCharts[diffNum];
      var r := Generated(chart, diffNum, level);
      && r.Ok? && |r.value.timingList| == |points|
      && forall i | 0 <= i < |points| ::
        var s := r.value.timingList[i];
        && s.time == points[i].time && s.currentBpm == points[i].bpm
        && s.rawTextPositionX == points[i].rawX && s.rawTextPositionY == points[i].rawY
        && !s.havePlayed && s.hSpeed == 1.0 && s.notesContent == ""
        && |s.noteList| == |points[i].notes|
        && forall j | 0 <= j < |points[i].notes| ::
             s.noteList[j] == NoteRecord(points[i].time, points[i].notes[j])
  {
    var points := chart.difficultyCharts[diffNum];
    PointRecordsOneToOne(points);
    forall i | 0 <= i < |points| {
      NoteRecordsOneToOne(points[i].time, points[i].notes);
    }
  }

  /** The conversion fails, with the unbound-variable error, exactly when the
      difficulty is present and some timing point whose predecessors all have
      no notes starts with a slide without a head. A head-less slide after
      any other note converts. */
  lemma UnboundExactly(chart: Chart, diffNum: int, level: string)
    ensures Generated(chart, diffNum, level).Raise? ==>
      Generated(chart, diffNum, level).exc == UnboundLocalError
    ensures Generated(chart, diffNum, level).Raise? <==>
      diffNum in chart.difficultyCharts &&
      var points := chart.difficultyCharts[diffNum];
      exists i :: 0 <= i < |points| && points[i].notes != [] && points[i].notes[0].isNoSlideHead
        && forall k | 0 <= k < i :: points[k].notes == []
  {
    if diffNum in chart.difficultyCharts {
      var points := chart.difficultyCharts[diffNum];
      FirstNote(points);
      if AllNotes(points) != [] {
        var i := FirstWithNotes(points);
        assert AllNotes(points)[0] == points[i].notes[0];
        forall i' | 0 <= i' < |points| && points[i'].notes != []
            && (forall k | 0 <= k < i' :: points[k].notes == [])
          ensures i' == i
        {
        }
      }
    }
  }

  /** The first timing point that has notes, when one has. */
  lemma FirstWithNotes(points: seq<TimingPoint>) returns (i: int)
    requires exists i :: 0 <= i < |points| && points[i].notes != []
    ensures 0 <= i < |points| && points[i].notes != []
    ensures forall k | 0 <= k < i :: points[k].notes == []
  {
    i := 0;
    while points[i].notes == []
      invariant 0 <= i < |points|
      invariant forall k | 0 <= k < i :: points[k].notes == []
      invariant exists i' :: i <= i' < |points| && points[i'].notes != []
      decreases |points| - i
    {
      i := i + 1;
    }
  }
}

