// The records a parsed simai chart is made of: notes, timing points
// (note groups), chart metadata and the chart itself.

module ChartModel {

  /** The five note types the loader produces; `Other` carries any other
      type name a caller may hand to the converters. */
  datatype NoteKind = Tap | Hold | Slide | Touch | TouchHold | Other(name: string)

  /** One note. Every field has the default the loader gives it. */
  datatype NoteData = NoteData(
    kind: NoteKind,
    position: int,
    content: string,
    holdTime: real,
    isBreak: bool,
    isEx: bool,
    isHanabi: bool,
    isStarTap: bool,
    isFakeRotate: bool,
    isNoSlideHead: bool,
    isSlideNoHeadFade: bool,
    isSlideBreak: bool,
    slideStartTime: real,
    slideTime: real,
    slideWaitTime: real,
    slideEndPosition: int,
    slideDirection: string,
    touchArea: string)

  /** A note with every optional field at its default. */
  function DefaultNote(kind: NoteKind, position: int, content: string): (n: NoteData)
    ensures n.kind == kind && n.position == position && n.content == content
    ensures n.holdTime == 0.0 && n.slideTime == 0.0 && n.slideWaitTime == 0.0
    ensures !n.isBreak && !n.isEx && !n.isHanabi && !n.isStarTap && !n.isFakeRotate
    ensures !n.isNoSlideHead && !n.isSlideNoHeadFade && !n.isSlideBreak
    ensures n.slideEndPosition == 0 && n.touchArea == ""
  {
    NoteData(kind, position, content, 0.0, false, false, false, false, false,
             false, false, false, 0.0, 0.0, 0.0, 0, "", "")
  }

  /** A note group: the notes sounding at one tick of the clock, with the
      tempo in force and the line/column of the group in the chart text. */
  datatype TimingPoint = TimingPoint(time: real, bpm: real, notes: seq<NoteData>,
                                     rawY: int, rawX: int)

  const LevelCount: nat := 7

  datatype ChartMetadata = ChartMetadata(
    title: string,
    artist: string,
    designer: string,
    firstBeatTime: real,
    levels: seq<string>,
    otherCommands: string)

  /** Metadata before any `&` line is read. */
  function DefaultMetadata(): (m: ChartMetadata)
    ensures |m.levels| == LevelCount && forall k :: 0 <= k < |m.levels| ==> m.levels[k] == ""
    ensures m.firstBeatTime == 0.0 && m.otherCommands == ""
  {
    ChartMetadata("default", "default", "default", 0.0, seq(LevelCount, _ => ""), "")
  }

  /** A chart: metadata plus the timing points of each difficulty 0..6. */
  datatype Chart = Chart(metadata: ChartMetadata, difficultyCharts: map<int, seq<TimingPoint>>)
}
