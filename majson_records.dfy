// The interchange records a chart is converted into for the chart viewer:
// notes, timing points and the whole chart, with the defaults their
// record types give every field, and the pure pieces of the conversion.
// renderer.py and majdata/json.py declare these records and functions
// twice with the same fields, defaults and bodies; they are defined once here.

module MajsonRecords {
  import opened Py
  import opened ChartModel

  datatype SimaiNoteType = TapType | SlideType | HoldType | TouchType | TouchHoldType

  /** The enumeration member's name. */
  function TypeName(t: SimaiNoteType): string {
    match t
    case TapType => "Tap" case SlideType => "Slide" case HoldType => "Hold"
    case TouchType => "Touch" case TouchHoldType => "TouchHold"
  }

  /** The enumeration member of a name, if any. */
  function TypeNamed(name: string): Option<SimaiNoteType> {
    if name == "Tap" then Some(TapType) else if name == "Slide" then Some(SlideType)
    else if name == "Hold" then Some(HoldType) else if name == "Touch" then Some(TouchType)
    else if name == "TouchHold" then Some(TouchHoldType) else None
  }

  lemma TypeNamedName(t: SimaiNoteType)
    ensures TypeNamed(TypeName(t)) == Some(t)
  {
  }

  datatype SimaiNote = SimaiNote(
    holdTime: real,
    isBreak: bool,
    isEx: bool,
    isFakeRotate: bool,
    isForceStar: bool,
    isHanabi: bool,
    isSlideBreak: bool,
    isSlideNoHead: bool,
    noteContent: Option<string>,
    noteType: SimaiNoteType,
    slideStartTime: real,
    slideTime: real,
    startPosition: int,
    touchArea: string)

  /** A note record with every field at its declared default. */
  const DefaultSimaiNote: SimaiNote :=
    SimaiNote(0.0, false, false, false, false, false, false, false, None, TapType, 0.0, 0.0, 1, " ")

  datatype SimaiTimingPoint = SimaiTimingPoint(
    currentBpm: real,
    havePlayed: bool,
    hSpeed: real,
    noteList: seq<SimaiNote>,
    notesContent: string,
    rawTextPositionX: int,
    rawTextPositionY: int,
    time: real)

  /** A timing point record with every field at its declared default. */
  const DefaultSimaiTimingPoint: SimaiTimingPoint :=
    SimaiTimingPoint(-1.0, false, 1.0, [], "", 0, 0, 0.0)

  datatype Majson = Majson(
    artist: string,
    designer: string,
    difficulty: string,
    diffNum: int,
    level: string,
    timingList: seq<SimaiTimingPoint>,
    title: string)

  /** A chart record with every field at its declared default. */
  const DefaultMajson: Majson := Majson("default", "default", "EASY", 0, "1", [], "default")

  // ------------------------------------------------------------ difficulty names

  const DifficultyNames: seq<string> :=
    ["EASY", "BASIC", "ADVANCED", "EXPERT", "MASTER", "Re:MASTER", "ORIGINAL"]

  /** The name of a difficulty index; any index outside 0..6 is "DEFAULT". */
  function GetDifficultyText(index: int): (r: string)
    ensures 0 <= index < |DifficultyNames| ==> r == DifficultyNames[index]
    ensures !(0 <= index < |DifficultyNames|) ==> r == "DEFAULT"
  {
    if 0 <= index < |DifficultyNames| then DifficultyNames[index] else "DEFAULT"
  }

  /** The index of a difficulty name, if it is one of the seven. */
  function DifficultyIndex(name: string): Option<int> {
    if name == "EASY" then Some(0) else if name == "BASIC" then Some(1)
    else if name == "ADVANCED" then Some(2) else if name == "EXPERT" then Some(3)
    else if name == "MASTER" then Some(4) else if name == "Re:MASTER" then Some(5)
    else if name == "ORIGINAL" then Some(6) else None
  }

  /** The seven names are distinct and none of them is "DEFAULT": the name
      gives the index back, and "DEFAULT" exactly for the indices outside 0..6. */
  lemma DifficultyTextRoundTrip(index: int)
    ensures DifficultyIndex(GetDifficultyText(index))
            == (if 0 <= index < |DifficultyNames| then Some(index) else None)
  {
    assert index == 0 || index == 1 || index == 2 || index == 3 || index == 4 || index == 5
        || index == 6 || !(0 <= index < |DifficultyNames|);
  }

  // ------------------------------------------------------------ note content

  /** The modifier characters removed from a note's text. */
  predicate IsModifier(c: char) {
    c == '!' || c == '?' || c == 'b' || c == '$' || c == 'x'
  }

  /** `s.replace(c, "")` for a one-character `c`: every occurrence removed. */
  function Remove(s: string, c: char): (r: string)
    ensures |r| <= |s|
  {
    if s == [] then [] else (if s[0] == c then [] else [s[0]]) + Remove(s[1..], c)
  }

  /** The note text with `!`, `?`, `b`, `$` and `x` removed, one `replace`
      after another; empty text stays empty. */
  function BuildNoteContent(content: string): string {
    if content == [] then ""
    else Remove(Remove(Remove(Remove(Remove(content, '!'), '?'), 'b'), '$'), 'x')
  }

  /** The reference: the characters of `s` that are not modifiers, in order. */
  function KeepPlain(s: string): string {
    if s == [] then [] else (if IsModifier(s[0]) then [] else [s[0]]) + KeepPlain(s[1..])
  }

  /** Removing each modifier in turn is removing all of them at once. */
  lemma {:induction false} BuildNoteContentIsKeepPlain(s: string)
    ensures BuildNoteContent(s) == KeepPlain(s)
  {
    if s != [] {
      RemoveAll(s);
    }
  }

  lemma {:induction false} RemoveAll(s: string)
    ensures Remove(Remove(Remove(Remove(Remove(s, '!'), '?'), 'b'), '$'), 'x') == KeepPlain(s)
  {
    if s != [] {
      var c, t := s[0], s[1..];
      assert s == [c] + t;
      RemoveAll(t);
      var t1 := Remove(t, '!');
      var t2 := Remove(t1, '?');
      var t3 := Remove(t2, 'b');
      var t4 := Remove(t3, '$');
      RemoveCons(c, t, '!');
      if c != '!' {
        RemoveCons(c, t1, '?');
        if c != '?' {
          RemoveCons(c, t2, 'b');
          if c != 'b' {
            RemoveCons(c, t3, '$');
            if c != '$' {
              RemoveCons(c, t4, 'x');
            } else {
              assert [] + t4 == t4;
            }
          } else {
            assert [] + t3 == t3;
          }
        } else {
          assert [] + t2 == t2;
        }
      } else {
        assert [] + t1 == t1;
      }
    }
  }

  lemma RemoveCons(c: char, s: string, d: char)
    ensures Remove([c] + s, d) == (if c == d then [] else [c]) + Remove(s, d)
  {
    assert ([c] + s)[1..] == s;
  }

  lemma {:induction false} KeepPlainAppend(a: string, b: string)
    ensures KeepPlain(a + b) == KeepPlain(a) + KeepPlain(b)
  {
    if a != [] {
      KeepPlainAppend(a[1..], b);
      assert (a + b)[0] == a[0];
      assert (a + b)[1..] == a[1..] + b;
    } else {
      assert a + b == b;
    }
  }

  /** The cleaned text has no modifier left, and every plain character of the
      input is kept, in its order: plain text comes out unchanged, a modifier
      vanishes, and cleaning a concatenation cleans each part. */
  lemma {:induction false} NoteContentCleaned(s: string)
    ensures forall c :: c in BuildNoteContent(s) ==> !IsModifier(c)
    ensures (forall c :: c in s ==> !IsModifier(c)) ==> BuildNoteContent(s) == s
    ensures forall a, b :: BuildNoteContent(a + b) == BuildNoteContent(a) + BuildNoteContent(b)
  {
    BuildNoteContentIsKeepPlain(s);
    KeepPlainClean(s);
    forall a, b ensures BuildNoteContent(a + b) == BuildNoteContent(a) + BuildNoteContent(b) {
      BuildNoteContentIsKeepPlain(a);
      BuildNoteContentIsKeepPlain(b);
      BuildNoteContentIsKeepPlain(a + b);
      KeepPlainAppend(a, b);
    }
  }

  lemma {:induction false} KeepPlainClean(s: string)
    ensures forall c :: c in KeepPlain(s) ==> !IsModifier(c)
    ensures (forall c :: c in s ==> !IsModifier(c)) ==> KeepPlain(s) == s
  {
    if s != [] {
      KeepPlainClean(s[1..]);
      assert forall c :: c in s[1..] ==> c in s;
    }
  }

  /** Cleaning twice is cleaning once. */
  lemma NoteContentIdempotent(s: string)
    ensures BuildNoteContent(BuildNoteContent(s)) == BuildNoteContent(s)
  {
    NoteContentCleaned(s);
    NoteContentCleaned(BuildNoteContent(s));
  }

  // ------------------------------------------------------------ one note

  /** The loader's type name of a note kind. */
  function KindName(k: NoteKind): string {
    match k
    case Tap => "tap" case Hold => "hold" case Slide => "slide" case Touch => "touch"
    case TouchHold => "touch_hold" case Other(name) => name
  }

  /** The type table, looked up by the type name; an unknown name is a tap. */
  function NoteTypeOf(k: NoteKind): SimaiNoteType {
    var name := KindName(k);
    if name == "tap" then TapType else if name == "hold" then HoldType
    else if name == "slide" then SlideType else if name == "touch" then TouchType
    else if name == "touch_hold" then TouchHoldType else TapType
  }

  /** Python's `s or " "`: an empty touch area becomes one space. */
  function TouchAreaOf(area: string): string {
    if area == "" then " " else area
  }

  /** The record of one note of a timing point at `tpTime`. */
  function NoteRecord(tpTime: real, n: NoteData): SimaiNote {
    DefaultSimaiNote.(
      noteType := NoteTypeOf(n.kind),
      startPosition := n.position,
      holdTime := n.holdTime,
      isBreak := n.isBreak,
      isEx := n.isEx,
      isHanabi := n.isHanabi,
      isSlideNoHead := n.isNoSlideHead,
      isSlideBreak := n.isSlideBreak,
      slideTime := n.slideTime,
      slideStartTime := if KindName(n.kind) == "slide" then tpTime + n.slideWaitTime else 0.0,
      touchArea := TouchAreaOf(n.touchArea),
      noteContent := Some(BuildNoteContent(n.content)))
  }

  /** The five kinds map to their own types and every other kind to a tap. */
  lemma NoteTypes(k: NoteKind)
    ensures NoteTypeOf(k) == match k
      case Tap => TapType case Hold => HoldType case Slide => SlideType
      case Touch => TouchType case TouchHold => TouchHoldType
      case Other(name) => if name == "hold" then HoldType else if name == "slide" then SlideType
                          else if name == "touch" then TouchType
                          else if name == "touch_hold" then TouchHoldType else TapType
  {
  }

  /** What a note record holds: the note's fields copied, the slide start offset
      by the timing point's time for slides only, a blank touch area as one space,
      the cleaned text, and the fake-rotate and force-star flags at their default
      `false` whatever the note says. */
  lemma NoteRecordFields(tpTime: real, n: NoteData)
    ensures var r := NoteRecord(tpTime, n);
      && r.startPosition == n.position && r.holdTime == n.holdTime && r.slideTime == n.slideTime
      && r.isBreak == n.isBreak && r.isEx == n.isEx && r.isHanabi == n.isHanabi
      && r.isSlideNoHead == n.isNoSlideHead && r.isSlideBreak == n.isSlideBreak
      && (n.kind == Slide ==> r.slideStartTime == tpTime + n.slideWaitTime)
      && (n.kind != Slide && !n.kind.Other? ==> r.slideStartTime == 0.0)
      && (n.touchArea == "" ==> r.touchArea == " ")
      && (n.touchArea != "" ==> r.touchArea == n.touchArea)
      && r.noteContent == Some(BuildNoteContent(n.content))
      && !r.isFakeRotate && !r.isForceStar
  {
  }

  // ------------------------------------------------------------ conversion pieces

  /** The converted chart before any timing point: the chart's title, artist and
      designer, the difficulty index with its name, and the level. */
  function MajsonHeader(chart: Chart, diffNum: int, level: string): Majson {
    DefaultMajson.(title := chart.metadata.title, artist := chart.metadata.artist,
      designer := chart.metadata.designer, diffNum := diffNum,
      difficulty := GetDifficultyText(diffNum), level := level)
  }

  /** The records of a timing point's notes, one appended per note. */
  function NoteRecords(tpTime: real, notes: seq<NoteData>): seq<SimaiNote> {
    if notes == [] then []
    else NoteRecords(tpTime, notes[..|notes| - 1]) + [NoteRecord(tpTime, notes[|notes| - 1])]
  }

  lemma NoteRecordsSnoc(tpTime: real, notes: seq<NoteData>, j: int)
    requires 0 <= j < |notes|
    ensures NoteRecords(tpTime, notes[..j + 1]) == NoteRecords(tpTime, notes[..j]) + [NoteRecord(tpTime, notes[j])]
  {
    assert notes[..j + 1][..j] == notes[..j];
  }

  /** One record per note, in the notes' order. */
  lemma {:induction false} NoteRecordsOneToOne(tpTime: real, notes: seq<NoteData>)
    ensures |NoteRecords(tpTime, notes)| == |notes|
    ensures forall j | 0 <= j < |notes| :: NoteRecords(tpTime, notes)[j] == NoteRecord(tpTime, notes[j])
  {
    if notes != [] {
      NoteRecordsOneToOne(tpTime, notes[..|notes| - 1]);
    }
  }

  /** Every note of the timing points, in the order the loops meet them. */
  function AllNotes(points: seq<TimingPoint>): seq<NoteData> {
    if points == [] then [] else AllNotes(points[..|points| - 1]) + points[|points| - 1].notes
  }

  lemma {:induction false} AllNotesSplit(s: seq<TimingPoint>, t: seq<TimingPoint>)
    ensures AllNotes(s + t) == AllNotes(s) + AllNotes(t)
    decreases |t|
  {
    if t == [] {
      assert s + t == s;
    } else {
      var u := t[..|t| - 1];
      assert (s + t)[..|s + t| - 1] == s + u;
      AllNotesSplit(s, u);
    }
  }

  /** The first note met has no earlier note: it is the first note of the
      first timing point that has notes. */
  lemma {:induction false} FirstNote(points: seq<TimingPoint>)
    ensures AllNotes(points) != [] <==> exists i :: 0 <= i < |points| && points[i].notes != []
    ensures forall i | 0 <= i < |points| && points[i].notes != []
              && (forall k | 0 <= k < i :: points[k].notes == []) ::
              AllNotes(points)[0] == points[i].notes[0]
  {
    forall i | 0 <= i < |points| && points[i].notes != []
      ensures AllNotes(points) != []
      ensures (forall k | 0 <= k < i :: points[k].notes == []) ==> AllNotes(points)[0] == points[i].notes[0]
    {
      assert points == points[..i] + [points[i]] + points[i + 1..];
      AllNotesSplit(points[..i] + [points[i]], points[i + 1..]);
      AllNotesSplit(points[..i], [points[i]]);
      assert AllNotes([points[i]]) == points[i].notes by {
        assert [points[i]][..0] == [];
      }
      if forall k | 0 <= k < i :: points[k].notes == [] {
        NoNotes(points[..i]);
      }
    }
    if AllNotes(points) != [] && forall i | 0 <= i < |points| :: points[i].notes == [] {
      NoNotes(points);
    }
  }

  lemma {:induction false} NoNotes(points: seq<TimingPoint>)
    requires forall k | 0 <= k < |points| :: points[k].notes == []
    ensures AllNotes(points) == []
  {
    if points != [] {
      NoNotes(points[..|points| - 1]);
    }
  }
}
