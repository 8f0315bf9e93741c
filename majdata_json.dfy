// The chart-to-interchange conversion of majdata/json.py: the same nested
// loops as renderer.py, except that timing point records are built with
// their time and bpm only, so the raw text position keeps its default, and
// that no `prev` variable is carried, so every chart converts.

module MajdataJson {
  import opened ChartModel
  import opened MajsonRecords
  import RendererMajson

  /** The record of one timing point: its time and bpm, and its notes. */
  function PointRecord(tp: TimingPoint): SimaiTimingPoint {
    DefaultSimaiTimingPoint.(time := tp.time, currentBpm := tp.bpm,
      noteList := NoteRecords(tp.time, tp.notes))
  }

  /** The records of the timing points, one appended per point. */
  function PointRecords(points: seq<TimingPoint>): seq<SimaiTimingPoint> {
    if points == [] then []
    else PointRecords(points[..|points| - 1]) + [PointRecord(points[|points| - 1])]
  }

  /** What `generate_majson` gives: the bare header when the difficulty is
      absent, and otherwise the header with every timing point converted. */
  function Generated(chart: Chart, diffNum: int, level: string): Majson {
    var header := MajsonHeader(chart, diffNum, level);
    if diffNum !in chart.difficultyCharts then header
    else header.(timingList := PointRecords(chart.difficultyCharts[diffNum]))
  }

  /** `generate_majson`: nested loops over the timing points and their notes,
      appending each converted note to its timing point and each timing point
      to the chart. */
  method GenerateMajson(chart: Chart, diffNum: int, level: string) returns (majson: Majson)
    ensures majson == Generated(chart, diffNum, level)
  {
    majson := MajsonHeader(chart, diffNum, level);
    if diffNum !in chart.difficultyCharts {
      return;
    }
    var points := chart.difficultyCharts[diffNum];
    var i := 0;
    while i < |points|
      invariant 0 <= i <= |points|
      invariant majson == MajsonHeader(chart, diffNum, level).(timingList := PointRecords(points[..i]))
    {
      var tp := points[i];
      var simaiTp := DefaultSimaiTimingPoint.(time := tp.time, currentBpm := tp.bpm);
      var noteList := simaiTp.noteList;
      var j := 0;
      while j < |tp.notes|
        invariant 0 <= j <= |tp.notes|
        invariant noteList == NoteRecords(tp.time, tp.notes[..j])
      {
        noteList := noteList + [NoteRecord(tp.time, tp.notes[j])];
        NoteRecordsSnoc(tp.time, tp.notes, j);
        j := j + 1;
      }
      assert tp.notes[..j] == tp.notes;
      simaiTp := simaiTp.(noteList := noteList);
      majson := majson.(timingList := majson.timingList + [simaiTp]);
      assert points[..i + 1][..i] == points[..i];
      i := i + 1;
    }
    assert points[..i] == points;
  }

  lemma {:induction false} PointRecordsOneToOne(points: seq<TimingPoint>)
    ensures |PointRecords(points)| == |points|
    ensures forall i | 0 <= i < |points| :: PointRecords(points)[i] == PointRecord(points[i])
  {
    if points != [] {
      PointRecordsOneToOne(points[..|points| - 1]);
    }
  }

  /** The chart's title, artist and designer, the difficulty index with its
      name and the level are copied; an absent difficulty gives no timing points. */
  lemma HeaderCopied(chart: Chart, diffNum: int, level: string)
    ensures var m := Generated(chart, diffNum, level);
      && m.title == chart.metadata.title && m.artist == chart.metadata.artist
      && m.designer == chart.metadata.designer && m.diffNum == diffNum
      && m.difficulty == GetDifficultyText(diffNum) && m.level == level
    ensures diffNum !in chart.difficultyCharts ==> Generated(chart, diffNum, level).timingList == []
  {
  }

  /** The conversion is one-to-one and keeps the order: one timing point record
      per timing point, with its time and bpm copied and every other field,
      the raw text position included, at its default, holding one note record
      per note. */
  lemma OneToOne(chart: Chart, diffNum: int, level: string)
    requires diffNum in chart.difficultyCharts
    ensures var points := chart.difficultyCharts[diffNum];
      var m := Generated(chart, diffNum, level);
      && |m.timingList| == |points|
      && forall i | 0 <= i < |points| ::
        var s := m.timingList[i];
        && s.time == points[i].time && s.currentBpm == points[i].bpm
        && s.rawTextPositionX == 0 && s.rawTextPositionY == 0
        && !s.havePlayed && s.hSpeed == 1.0 && s.notesContent == ""
        && |s.noteList| == |points[i].notes|
        && forall j | 0 <= j < |points[i].notes| ::
             s.noteList[j] == NoteRecord(points[i].time, points[i].notes[j])
  {
    var points := chart.difficultyCharts[diffNum];
    PointRecordsOneToOne(points);
    forall i | 0 <= i < |points| {
      NoteRecordsOneToOne(points[i].time, points[i].notes);
    }
  }

  /** The two copies of the conversion agree wherever the renderer's does not
      fail, except that this one leaves every raw text position at 0. */
  lemma AgreesWithRenderer(chart: Chart, diffNum: int, level: string)
    requires RendererMajson.Generated(chart, diffNum, level).Ok?
    ensures var r := RendererMajson.Generated(chart, diffNum, level).value;
      var m := Generated(chart, diffNum, level);
      && m.(timingList := []) == r.(timingList := [])
      && |m.timingList| == |r.timingList|
      && forall i | 0 <= i < |m.timingList| ::
           m.timingList[i] == r.timingList[i].(rawTextPositionX := 0, rawTextPositionY := 0)
  {
    if diffNum in chart.difficultyCharts {
      var points := chart.difficultyCharts[diffNum];
      PointRecordsOneToOne(points);
      RendererMajson.PointRecordsOneToOne(points);
    }
  }
}
