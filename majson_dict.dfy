// The `to_dict` conversions of the interchange records: the dictionaries
// handed to the JSON encoder. `dataclasses.asdict` turns a record into a
// dictionary with one key per field in declaration order, leaving the note
// type as the enumeration member; a note's `to_dict` then stores the member's
// name in its place. A dictionary is its entries in insertion order.

module MajsonDict {
  import opened Py
  import opened MajsonRecords

  datatype Value =
    | Null
    | Bool(b: bool)
    | Int(i: int)
    | Float(r: real)
    | Str(s: string)
    | Member(t: SimaiNoteType)
    | List(items: seq<Value>)
    | Dict(entries: Entries)

  datatype Entries = End | Entry(key: string, value: Value, rest: Entries)

  /** A value the JSON encoder accepts: no enumeration member anywhere inside. */
  predicate IsJson(v: Value)
    decreases v, 1
  {
    match v
    case Member(_) => false
    case List(items) => forall i | 0 <= i < |items| :: IsJson(items[i])
    case Dict(e) => EntriesJson(e)
    case _ => true
  }

  predicate EntriesJson(e: Entries)
    decreases e, 0
  {
    match e
    case End => true
    case Entry(_, v, rest) => IsJson(v) && EntriesJson(rest)
  }

  /** `d.get(key)`. */
  function Get(e: Entries, key: string): Option<Value> {
    match e
    case End => None
    case Entry(k, v, rest) => if k == key then Some(v) else Get(rest, key)
  }

  function Size(e: Entries): nat {
    match e
    case End => 0
    case Entry(_, _, rest) => 1 + Size(rest)
  }

  /** `d[key] = v`: an existing key keeps its place, a new one goes last. */
  function Put(e: Entries, key: string, v: Value): (r: Entries)
    ensures Get(r, key) == Some(v)
    ensures forall k :: k != key ==> Get(r, k) == Get(e, k)
    ensures Size(r) == if Get(e, key).Some? then Size(e) else Size(e) + 1
  {
    match e
    case End => Entry(key, v, End)
    case Entry(k, w, rest) => if k == key then Entry(k, v, rest) else Entry(k, w, Put(rest, key, v))
  }

  /** Storing under a key the first entry does not hold passes that entry by. */
  lemma PutPast(e: Entries, key: string, v: Value)
    requires e.Entry? && e.key != key
    ensures Put(e, key, v) == Entry(e.key, e.value, Put(e.rest, key, v))
  {
  }

  function OptionalStr(o: Option<string>): Value {
    match o
    case None => Null
    case Some(s) => Str(s)
  }

  // ------------------------------------------------------------ notes

  /** `asdict` of a note: its fields in declaration order, the type still a member. */
  function NoteAsDict(n: SimaiNote): Entries {
    Entry("holdTime", Float(n.holdTime), Entry("isBreak", Bool(n.isBreak),
    Entry("isEx", Bool(n.isEx), Entry("isFakeRotate", Bool(n.isFakeRotate),
    Entry("isForceStar", Bool(n.isForceStar), Entry("isHanabi", Bool(n.isHanabi),
    Entry("isSlideBreak", Bool(n.isSlideBreak), Entry("isSlideNoHead", Bool(n.isSlideNoHead),
    Entry("noteContent", OptionalStr(n.noteContent), Entry("noteType", Member(n.noteType),
    Entry("slideStartTime", Float(n.slideStartTime), Entry("slideTime", Float(n.slideTime),
    Entry("startPosition", Int(n.startPosition), Entry("touchArea", Str(n.touchArea),
    End))))))))))))))
  }

  /** `to_dict` of a note: `asdict` with the type member replaced by its name. */
  function NoteToDict(n: SimaiNote): (r: Value)
    ensures r.Dict?
    ensures Get(r.entries, "noteType") == Some(Str(TypeName(n.noteType)))
    ensures forall k :: k != "noteType" ==> Get(r.entries, k) == Get(NoteAsDict(n), k)
  {
    Dict(Put(NoteAsDict(n), "noteType", Str(TypeName(n.noteType))))
  }

  /** The type's name takes the member's place, between the text and the
      slide start: the entries keep `asdict`'s key order. */
  lemma NoteDictEntries(n: SimaiNote)
    ensures NoteToDict(n) == Dict(
      Entry("holdTime", Float(n.holdTime), Entry("isBreak", Bool(n.isBreak),
      Entry("isEx", Bool(n.isEx), Entry("isFakeRotate", Bool(n.isFakeRotate),
      Entry("isForceStar", Bool(n.isForceStar), Entry("isHanabi", Bool(n.isHanabi),
      Entry("isSlideBreak", Bool(n.isSlideBreak), Entry("isSlideNoHead", Bool(n.isSlideNoHead),
      Entry("noteContent", OptionalStr(n.noteContent),
      Entry("noteType", Str(TypeName(n.noteType)),
      Entry("slideStartTime", Float(n.slideStartTime), Entry("slideTime", Float(n.slideTime),
      Entry("startPosition", Int(n.startPosition), Entry("touchArea", Str(n.touchArea),
      End)))))))))))))))
  {
    var e := NoteAsDict(n);
    var k, v := "noteType", Str(TypeName(n.noteType));
    PutPast(e, k, v);
    PutPast(e.rest, k, v);
    PutPast(e.rest.rest, k, v);
    PutPast(e.rest.rest.rest, k, v);
    PutPast(e.rest.rest.rest.rest, k, v);
    PutPast(e.rest.rest.rest.rest.rest, k, v);
    PutPast(e.rest.rest.rest.rest.rest.rest, k, v);
    PutPast(e.rest.rest.rest.rest.rest.rest.rest, k, v);
    PutPast(e.rest.rest.rest.rest.rest.rest.rest.rest, k, v);
  }

  /** No enumeration member is left in a note's dictionary: the encoder accepts it. */
  lemma NoteDictIsJson(n: SimaiNote)
    ensures IsJson(NoteToDict(n))
  {
    NoteDictEntries(n);
    var e := NoteToDict(n).entries;
    // from the last entry back to the first
    assert EntriesJson(e.rest.rest.rest.rest.rest.rest.rest.rest.rest.rest.rest.rest.rest.rest);
    assert EntriesJson(e.rest.rest.rest.rest.rest.rest.rest.rest.rest.rest.rest.rest.rest);
    assert EntriesJson(e.rest.rest.rest.rest.rest.rest.rest.rest.rest.rest.rest.rest);
    assert EntriesJson(e.rest.rest.rest.rest.rest.rest.rest.rest.rest.rest.rest);
    assert EntriesJson(e.rest.rest.rest.rest.rest.rest.rest.rest.rest.rest);
    assert EntriesJson(e.rest.rest.rest.rest.rest.rest.rest.rest.rest);
    assert EntriesJson(e.rest.rest.rest.rest.rest.rest.rest.rest);
    assert EntriesJson(e.rest.rest.rest.rest.rest.rest.rest);
    assert EntriesJson(e.rest.rest.rest.rest.rest.rest);
    assert EntriesJson(e.rest.rest.rest.rest.rest);
    assert EntriesJson(e.rest.rest.rest.rest);
    assert EntriesJson(e.rest.rest.rest);
    assert EntriesJson(e.rest.rest);
    assert EntriesJson(e.rest);
  }

  /** The note a dictionary with a note's keys, in order, describes; None for
      any other dictionary or a value of the wrong kind. */
  function NoteFromDict(v: Value): Option<SimaiNote> {
    match v
    case Dict(Entry("holdTime", Float(holdTime), Entry("isBreak", Bool(isBreak),
      Entry("isEx", Bool(isEx), Entry("isFakeRotate", Bool(isFakeRotate),
      Entry("isForceStar", Bool(isForceStar), Entry("isHanabi", Bool(isHanabi),
      Entry("isSlideBreak", Bool(isSlideBreak), Entry("isSlideNoHead", Bool(isSlideNoHead),
      Entry("noteContent", content, Entry("noteType", Str(typeName),
      Entry("slideStartTime", Float(slideStartTime), Entry("slideTime", Float(slideTime),
      Entry("startPosition", Int(startPosition), Entry("touchArea", Str(touchArea),
      End)))))))))))))))
      =>
      if (content.Null? || content.Str?) && TypeNamed(typeName).Some? then
        Some(SimaiNote(holdTime, isBreak, isEx, isFakeRotate, isForceStar, isHanabi,
          isSlideBreak, isSlideNoHead, if content.Null? then None else Some(content.s),
          TypeNamed(typeName).value, slideStartTime, slideTime, startPosition, touchArea))
      else None
    case _ => None
  }

  /** Reading a note's dictionary back gives the note: nothing is lost. */
  lemma NoteRoundTrip(n: SimaiNote)
    ensures NoteFromDict(NoteToDict(n)) == Some(n)
  {
    NoteDictEntries(n);
    TypeNamedName(n.noteType);
  }

  // ------------------------------------------------------------ timing points

  function NoteAsDicts(notes: seq<SimaiNote>): seq<Value> {
    seq(|notes|, i requires 0 <= i < |notes| => Dict(NoteAsDict(notes[i])))
  }

  function NoteToDicts(notes: seq<SimaiNote>): (r: seq<Value>)
    ensures |r| == |notes|
    ensures forall i | 0 <= i < |notes| :: r[i] == NoteToDict(notes[i])
  {
    seq(|notes|, i requires 0 <= i < |notes| => NoteToDict(notes[i]))
  }

  /** `asdict` of a timing point: its notes turned into dictionaries too. */
  function PointAsDict(tp: SimaiTimingPoint): Entries {
    Entry("currentBpm", Float(tp.currentBpm), Entry("havePlayed", Bool(tp.havePlayed),
    Entry("HSpeed", Float(tp.hSpeed), Entry("noteList", List(NoteAsDicts(tp.noteList)),
    Entry("notesContent", Str(tp.notesContent), Entry("rawTextPositionX", Int(tp.rawTextPositionX),
    Entry("rawTextPositionY", Int(tp.rawTextPositionY), Entry("time", Float(tp.time), End))))))))
  }

  /** `to_dict` of a timing point: `asdict` with the note list replaced by the
      notes' own dictionaries, one per note in order. */
  function PointToDict(tp: SimaiTimingPoint): (r: Value)
    ensures r.Dict?
    ensures Get(r.entries, "noteList") == Some(List(NoteToDicts(tp.noteList)))
    ensures forall k :: k != "noteList" ==> Get(r.entries, k) == Get(PointAsDict(tp), k)
  {
    Dict(Put(PointAsDict(tp), "noteList", List(NoteToDicts(tp.noteList))))
  }

  /** The note list stays fourth: the entries keep `asdict`'s key order. */
  lemma PointDictEntries(tp: SimaiTimingPoint)
    ensures PointToDict(tp) == Dict(
      Entry("currentBpm", Float(tp.currentBpm), Entry("havePlayed", Bool(tp.havePlayed),
      Entry("HSpeed", Float(tp.hSpeed), Entry("noteList", List(NoteToDicts(tp.noteList)),
      Entry("notesContent", Str(tp.notesContent),
      Entry("rawTextPositionX", Int(tp.rawTextPositionX),
      Entry("rawTextPositionY", Int(tp.rawTextPositionY), Entry("time", Float(tp.time), End)))))))))
  {
    var e := PointAsDict(tp);
    var k, v := "noteList", List(NoteToDicts(tp.noteList));
    PutPast(e, k, v);
    PutPast(e.rest, k, v);
    PutPast(e.rest.rest, k, v);
  }

  /** No enumeration member is left in a timing point's dictionary. */
  lemma PointDictIsJson(tp: SimaiTimingPoint)
    ensures IsJson(PointToDict(tp))
  {
    PointDictEntries(tp);
    forall i | 0 <= i < |tp.noteList| {
      NoteDictIsJson(tp.noteList[i]);
    }
    var e := PointToDict(tp).entries;
    assert EntriesJson(e.rest.rest.rest.rest.rest.rest.rest.rest);
    assert EntriesJson(e.rest.rest.rest.rest.rest.rest.rest);
    assert EntriesJson(e.rest.rest.rest.rest.rest.rest);
    assert EntriesJson(e.rest.rest.rest.rest.rest);
    assert EntriesJson(e.rest.rest.rest.rest);
    assert EntriesJson(e.rest.rest.rest);
    assert EntriesJson(e.rest.rest);
    assert EntriesJson(e.rest);
  }

  function NotesFromList(items: seq<Value>): (r: Option<seq<SimaiNote>>)
    ensures r.Some? ==> |r.value| == |items|
  {
    if items == [] then Some([])
    else match (NoteFromDict(items[0]), NotesFromList(items[1..]))
      case (Some(n), Some(rest)) => Some([n] + rest)
      case _ => None
  }

  lemma {:induction false} NotesRoundTrip(notes: seq<SimaiNote>)
    ensures NotesFromList(NoteToDicts(notes)) == Some(notes)
  {
    if notes != [] {
      NoteRoundTrip(notes[0]);
      NotesRoundTrip(notes[1..]);
      assert NoteToDicts(notes)[1..] == NoteToDicts(notes[1..]);
      assert [notes[0]] + notes[1..] == notes;
    }
  }

  /** The timing point a dictionary with a timing point's keys, in order, describes. */
  function PointFromDict(v: Value): Option<SimaiTimingPoint> {
    match v
    case Dict(Entry("currentBpm", Float(currentBpm), Entry("havePlayed", Bool(havePlayed),
      Entry("HSpeed", Float(hSpeed), Entry("noteList", List(items),
      Entry("notesContent", Str(notesContent), Entry("rawTextPositionX", Int(rawX),
      Entry("rawTextPositionY", Int(rawY), Entry("time", Float(time), End)))))))))
      =>
      var notes := NotesFromList(items);
      if notes.Some? then
        Some(SimaiTimingPoint(currentBpm, havePlayed, hSpeed, notes.value, notesContent,
          rawX, rawY, time))
      else None
    case _ => None
  }

  /** Reading a timing point's dictionary back gives the timing point. */
  lemma PointRoundTrip(tp: SimaiTimingPoint)
    ensures PointFromDict(PointToDict(tp)) == Some(tp)
  {
    PointDictEntries(tp);
    NotesRoundTrip(tp.noteList);
  }

  // ------------------------------------------------------------ charts

  function PointToDicts(points: seq<SimaiTimingPoint>): (r: seq<Value>)
    ensures |r| == |points|
    ensures forall i | 0 <= i < |points| :: r[i] == PointToDict(points[i])
  {
    seq(|points|, i requires 0 <= i < |points| => PointToDict(points[i]))
  }

  /** `to_dict` of the chart, written out key by key with the timing points'
      own dictionaries, in order, under "timingList". */
  function MajsonToDict(m: Majson): (r: Value)
    ensures r.Dict?
  {
    Dict(Entry("artist", Str(m.artist), Entry("designer", Str(m.designer),
      Entry("difficulty", Str(m.difficulty), Entry("diffNum", Int(m.diffNum),
      Entry("level", Str(m.level), Entry("timingList", List(PointToDicts(m.timingList)),
      Entry("title", Str(m.title), End))))))))
  }

  /** No enumeration member is left anywhere in the chart's dictionary: the
      JSON encoder accepts it. */
  lemma MajsonDictIsJson(m: Majson)
    ensures IsJson(MajsonToDict(m))
  {
    forall i | 0 <= i < |m.timingList| {
      PointDictIsJson(m.timingList[i]);
    }
    var e := MajsonToDict(m).entries;
    assert EntriesJson(e.rest.rest.rest.rest.rest.rest.rest);
    assert EntriesJson(e.rest.rest.rest.rest.rest.rest);
    assert EntriesJson(e.rest.rest.rest.rest.rest);
    assert EntriesJson(e.rest.rest.rest.rest);
    assert EntriesJson(e.rest.rest.rest);
    assert EntriesJson(e.rest.rest);
    assert EntriesJson(e.rest);
  }

  function PointsFromList(items: seq<Value>): (r: Option<seq<SimaiTimingPoint>>)
    ensures r.Some? ==> |r.value| == |items|
  {
    if items == [] then Some([])
    else match (PointFromDict(items[0]), PointsFromList(items[1..]))
      case (Some(tp), Some(rest)) => Some([tp] + rest)
      case _ => None
  }

  lemma {:induction false} PointsRoundTrip(points: seq<SimaiTimingPoint>)
    ensures PointsFromList(PointToDicts(points)) == Some(points)
  {
    if points != [] {
      PointRoundTrip(points[0]);
      PointsRoundTrip(points[1..]);
      assert PointToDicts(points)[1..] == PointToDicts(points[1..]);
      assert [points[0]] + points[1..] == points;
    }
  }

  /** The chart a dictionary with a chart's keys, in order, describes. */
  function MajsonFromDict(v: Value): Option<Majson> {
    match v
    case Dict(Entry("artist", Str(artist), Entry("designer", Str(designer),
      Entry("difficulty", Str(difficulty), Entry("diffNum", Int(diffNum),
      Entry("level", Str(level), Entry("timingList", List(items),
      Entry("title", Str(title), End))))))))
      =>
      var points := PointsFromList(items);
      if points.Some? then
        Some(Majson(artist, designer, difficulty, diffNum, level, points.value, title))
      else None
    case _ => None
  }

  /** Reading the chart's dictionary back gives the chart: the JSON written
      for the viewer carries every field of every record. */
  lemma MajsonRoundTrip(m: Majson)
    ensures MajsonFromDict(MajsonToDict(m)) == Some(m)
  {
    PointsRoundTrip(m.timingList);
  }
}
