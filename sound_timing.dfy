// When sound effects play. Every note of one difficulty adds flags to the
// sound event at its own millisecond, and holds, slides and touch holds also
// to the events at their release or slide times. The events are kept in a
// table keyed by the rounded millisecond and returned sorted by time.

module SoundTiming {
  import opened ChartModel

  /** The fifteen `has_*` flags of a sound event. */
  datatype Flag = HasAnswer | HasJudge | HasJudgeBreak | HasJudgeEx | HasBreak | HasTouch
                | HasHanabi | HasTouchHold | HasSlide | HasTouchHoldEnd | HasAllPerfect
                | HasClock | HasBreakSlideStart | HasBreakSlide | HasJudgeBreakSlide

  /** The value of a `SoundEffectTiming`: `flags` holds exactly the flags that are true. */
  datatype SoundEvent = SoundEvent(time: real, noteGroupIndex: int, flags: set<Flag>,
                                   touchHoldDuration: real)

  /** A freshly created event: no flag set, no note group, no duration. */
  function NewEvent(time: real): SoundEvent {
    SoundEvent(time, -1, {}, 0.0)
  }

  // ------------------------------------------------------------ millisecond key

  /** Python's `round`: the nearest integer, ties to the even one. */
  function RoundHalfEven(x: real): (n: int)
    ensures x - 0.5 <= n as real <= x + 0.5
    ensures (n as real == x - 0.5 || n as real == x + 0.5) ==> n % 2 == 0
  {
    var f := x.Floor;
    var d := x - f as real;
    if d < 0.5 then f
    else if d > 0.5 then f + 1
    else if f % 2 == 0 then f
    else f + 1
  }

  /** The dictionary key of a time: the time rounded to the millisecond, in milliseconds. */
  function MsKey(t: real): int {
    RoundHalfEven(t * 1000.0)
  }

  // ------------------------------------------------------------ judge sounds

  /** The flags `_add_judge_sound` sets: break wins over ex, ex over a plain judge. */
  function JudgeFlags(n: NoteData): set<Flag> {
    if n.isBreak then {HasBreak, HasJudgeBreak}
    else if n.isEx then {HasJudgeEx}
    else {HasJudge}
  }

  /** An event after `_add_judge_sound`. */
  function Judged(e: SoundEvent, n: NoteData): (r: SoundEvent)
    ensures r.time == e.time && r.noteGroupIndex == e.noteGroupIndex
    ensures r.touchHoldDuration == e.touchHoldDuration
    ensures n.isBreak ==> r.flags == e.flags + {HasBreak, HasJudgeBreak}
    ensures !n.isBreak && n.isEx ==> r.flags == e.flags + {HasJudgeEx}
    ensures !n.isBreak && !n.isEx ==> r.flags == e.flags + {HasJudge}
  {
    e.(flags := e.flags + JudgeFlags(n))
  }

  // ------------------------------------------------------------ the sounds of a note

  /** One sound a note asks for: these flags at this time. */
  datatype Sound = Sound(time: real, flags: set<Flag>)

  function Hanabi(n: NoteData): set<Flag> {
    if n.isHanabi then {HasHanabi} else {}
  }

  /** A hold's release judges only when the note is neither break nor ex. */
  function ReleaseJudge(n: NoteData): set<Flag> {
    if !n.isBreak && !n.isEx then {HasJudge} else {}
  }

  /** Where a body-break slide ends. */
  function SlideEndTime(time: real, n: NoteData): real {
    if n.slideStartTime > 0.0 then n.slideStartTime + n.slideTime
    else time + n.slideWaitTime + n.slideTime
  }

  /** The start of a tap or hold: answer, its judge and, for a hanabi note, hanabi. */
  function HeadSound(n: NoteData, time: real): Sound {
    Sound(time, {HasAnswer} + JudgeFlags(n) + Hanabi(n))
  }

  /** A hold's release. */
  function ReleaseSound(n: NoteData, time: real): Sound {
    Sound(time + n.holdTime, {HasAnswer} + ReleaseJudge(n))
  }

  /** The start of a slide's star: answer and its judge, no hanabi. */
  function StarSound(n: NoteData, time: real): Sound {
    Sound(time, {HasAnswer} + JudgeFlags(n))
  }

  /** The slide sound after the wait, for a slide whose body is not a break. */
  function SlideSound(n: NoteData, time: real): Sound {
    Sound(time + n.slideWaitTime, {HasSlide})
  }

  /** The start of a body-break slide, after the wait. */
  function BreakSlideStartSound(n: NoteData, time: real): Sound {
    Sound(time + n.slideWaitTime, {HasBreakSlideStart})
  }

  /** The end of a body-break slide. */
  function BreakSlideEndSound(n: NoteData, time: real): Sound {
    Sound(SlideEndTime(time, n), {HasBreakSlide, HasJudgeBreakSlide})
  }

  /** A touch. */
  function TouchSound(n: NoteData, time: real): Sound {
    Sound(time, {HasAnswer, HasTouch} + Hanabi(n))
  }

  /** The start of a touch hold; the riser only when it lasts. */
  function TouchHoldStartSound(n: NoteData, time: real): Sound {
    Sound(time, {HasAnswer, HasTouch} + (if n.holdTime > 0.0 then {HasTouchHold} else {}))
  }

  /** The end of a touch hold, where its hanabi plays. */
  function TouchHoldEndSound(n: NoteData, time: real): Sound {
    Sound(time + n.holdTime, {HasAnswer, HasTouchHoldEnd} + Hanabi(n))
  }

  /** The sounds of a note in the group at `time`, in the order their events are created. */
  function NoteSounds(n: NoteData, time: real): seq<Sound> {
    match n.kind
    case Tap => [HeadSound(n, time)]
    case Hold =>
      if n.holdTime > 0.0 then [HeadSound(n, time), ReleaseSound(n, time)] else [HeadSound(n, time)]
    case Slide =>
      if !n.isSlideBreak then [StarSound(n, time), SlideSound(n, time)]
      else if n.slideTime > 0.0 then
        [StarSound(n, time), BreakSlideStartSound(n, time), BreakSlideEndSound(n, time)]
      else [StarSound(n, time), BreakSlideStartSound(n, time)]
    case Touch => [TouchSound(n, time)]
    case TouchHold =>
      if n.holdTime > 0.0 then [TouchHoldStartSound(n, time), TouchHoldEndSound(n, time)]
      else [TouchHoldStartSound(n, time)]
    case Other(_) => []
  }

  /** Every flag the sounds ask for at millisecond key `k`. */
  function Heard(ss: seq<Sound>, k: int): set<Flag> {
    if ss == [] then {}
    else (if MsKey(ss[0].time) == k then ss[0].flags else {}) + Heard(ss[1..], k)
  }

  /** The millisecond keys the sounds fall on. */
  function SoundKeys(ss: seq<Sound>): set<int> {
    if ss == [] then {} else {MsKey(ss[0].time)} + SoundKeys(ss[1..])
  }

  // ------------------------------------------------------------ the table

  /** `timing_list` together with the order its keys were inserted in. */
  datatype Table = Table(entries: map<int, SoundEvent>, order: seq<int>)

  function Empty(): Table {
    Table(map[], [])
  }

  /** A duration is only ever stored next to a set touch-hold flag. */
  predicate DurationMarked(e: SoundEvent) {
    e.touchHoldDuration == 0.0 || (e.touchHoldDuration > 0.0 && HasTouchHold in e.flags)
  }

  /** The table's invariant: `order` lists every key once, and each event sits
      under the millisecond key of its own time. */
  ghost predicate Valid(t: Table) {
    (forall k :: k in t.entries <==> k in t.order)
    && (forall a, b :: 0 <= a < b < |t.order| ==> t.order[a] != t.order[b])
    && (forall k :: k in t.entries ==> MsKey(t.entries[k].time) == k && DurationMarked(t.entries[k]))
  }

  /** The flags of the event at `k`; none when there is no event. */
  function FlagsAt(t: Table, k: int): set<Flag> {
    if k in t.entries then t.entries[k].flags else {}
  }

  /** The event at the key of `time`, created when missing. */
  function Slot(t: Table, time: real): (r: Table)
    ensures t.entries.Keys <= r.entries.Keys && MsKey(time) in r.entries
  {
    var key := MsKey(time);
    if key in t.entries then t
    else Table(t.entries[key := NewEvent(time)], t.order + [key])
  }

  /** Sets the flags `fs` of the event at `key`. */
  function Mark(t: Table, key: int, fs: set<Flag>): (r: Table)
    requires key in t.entries
    ensures r.entries.Keys == t.entries.Keys
  {
    var e := t.entries[key];
    t.(entries := t.entries[key := e.(flags := e.flags + fs)])
  }

  /** Sets the flags `fs` of the event at `time`, created when missing. */
  function MarkAt(t: Table, time: real, fs: set<Flag>): (r: Table)
    ensures t.entries.Keys <= r.entries.Keys && MsKey(time) in r.entries
  {
    Mark(Slot(t, time), MsKey(time), fs)
  }

  /** Plays the sounds into the table, one after the other. */
  function Play(t: Table, ss: seq<Sound>): (r: Table)
    ensures t.entries.Keys <= r.entries.Keys
    decreases |ss|
  {
    if ss == [] then t
    else Play(MarkAt(t, ss[0].time, ss[0].flags), ss[1..])
  }

  /** Stores a touch hold's duration at `key`. */
  function WithDuration(t: Table, key: int, d: real): (r: Table)
    requires key in t.entries
    ensures r.entries.Keys == t.entries.Keys
  {
    t.(entries := t.entries[key := t.entries[key].(touchHoldDuration := d)])
  }

  /** What one note of the group at `time`, whose event is at `key`, does to the table. */
  function AddNote(t: Table, key: int, time: real, n: NoteData): (r: Table)
    requires key in t.entries
    ensures t.entries.Keys <= r.entries.Keys
  {
    var s := Play(t, NoteSounds(n, time));
    if n.kind.TouchHold? && n.holdTime > 0.0 then WithDuration(s, key, n.holdTime) else s
  }

  /** The first `k` notes of a group, one after the other. */
  function AddNotes(t: Table, key: int, time: real, notes: seq<NoteData>, k: nat): (r: Table)
    requires key in t.entries && k <= |notes|
    ensures t.entries.Keys <= r.entries.Keys
    decreases k
  {
    if k == 0 then t
    else AddNote(AddNotes(t, key, time, notes, k - 1), key, time, notes[k - 1])
  }

  /** Sets the note group index of the event at `key`. */
  function WithIndex(t: Table, key: int, i: int): (r: Table)
    requires key in t.entries
    ensures r.entries.Keys == t.entries.Keys
  {
    t.(entries := t.entries[key := t.entries[key].(noteGroupIndex := i)])
  }

  /** One iteration of the timing-point loop: group `i` at `tp.time`. */
  function AddPoint(t: Table, i: int, tp: TimingPoint, start: real): Table {
    if tp.time < start then t
    else
      var key := MsKey(tp.time);
      AddNotes(WithIndex(Slot(t, tp.time), key, i), key, tp.time, tp.notes, |tp.notes|)
  }

  /** The table after the first `n` timing points. */
  function AddPoints(points: seq<TimingPoint>, n: nat, start: real): Table
    requires n <= |points|
  {
    if n == 0 then Empty()
    else AddPoint(AddPoints(points, n - 1, start), n - 1, points[n - 1], start)
  }

  // ------------------------------------------------------------ the table invariant

  lemma SlotValid(t: Table, time: real)
    requires Valid(t)
    ensures Valid(Slot(t, time))
  {
  }

  lemma MarkValid(t: Table, key: int, fs: set<Flag>)
    requires Valid(t) && key in t.entries
    ensures Valid(Mark(t, key, fs))
  {
  }

  lemma MarkAtValid(t: Table, time: real, fs: set<Flag>)
    requires Valid(t)
    ensures Valid(MarkAt(t, time, fs))
  {
    SlotValid(t, time);
    MarkValid(Slot(t, time), MsKey(time), fs);
  }

  lemma {:induction false} PlayValid(t: Table, ss: seq<Sound>)
    requires Valid(t)
    ensures Valid(Play(t, ss))
    decreases |ss|
  {
    if ss != [] {
      MarkAtValid(t, ss[0].time, ss[0].flags);
      PlayValid(MarkAt(t, ss[0].time, ss[0].flags), ss[1..]);
    }
  }

  /** Marking adds the flags at the key of `time` and nothing elsewhere. */
  lemma MarkAtFlags(t: Table, time: real, fs: set<Flag>)
    ensures forall k :: FlagsAt(MarkAt(t, time, fs), k) == FlagsAt(t, k) + (if k == MsKey(time) then fs else {})
  {
  }

  /** Playing sets exactly the flags the sounds ask for, each at its own key. */
  lemma {:induction false} PlayFlags(t: Table, ss: seq<Sound>)
    ensures forall k :: FlagsAt(Play(t, ss), k) == FlagsAt(t, k) + Heard(ss, k)
    decreases |ss|
  {
    if ss != [] {
      var s := MarkAt(t, ss[0].time, ss[0].flags);
      MarkAtFlags(t, ss[0].time, ss[0].flags);
      PlayFlags(s, ss[1..]);
    }
  }

  lemma AddNoteValid(t: Table, key: int, time: real, n: NoteData)
    requires Valid(t) && key == MsKey(time) && key in t.entries
    ensures Valid(AddNote(t, key, time, n))
  {
    PlayValid(t, NoteSounds(n, time));
    if n.kind.TouchHold? && n.holdTime > 0.0 {
      RiserMarked(t, key, time, n);
    }
  }

  /** A lasting touch hold sets the riser flag on its own event. */
  lemma RiserMarked(t: Table, key: int, time: real, n: NoteData)
    requires key == MsKey(time) && n.kind.TouchHold? && n.holdTime > 0.0
    ensures HasTouchHold in FlagsAt(Play(t, NoteSounds(n, time)), key)
  {
    var start, end := TouchHoldStartSound(n, time), TouchHoldEndSound(n, time);
    assert NoteSounds(n, time) == [start, end];
    PlayTwo(t, start, end);
    var g := MarkAt(t, time, start.flags);
    MarkAtFlags(t, time, start.flags);
    MarkAtFlags(g, end.time, end.flags);
    assert HasTouchHold in FlagsAt(g, key);
  }

  lemma {:induction false} AddNotesValid(t: Table, key: int, time: real, notes: seq<NoteData>, k: nat)
    requires Valid(t) && key == MsKey(time) && key in t.entries && k <= |notes|
    ensures Valid(AddNotes(t, key, time, notes, k))
    decreases k
  {
    if k > 0 {
      AddNotesValid(t, key, time, notes, k - 1);
      AddNoteValid(AddNotes(t, key, time, notes, k - 1), key, time, notes[k - 1]);
    }
  }

  lemma AddPointValid(t: Table, i: int, tp: TimingPoint, start: real)
    requires Valid(t)
    ensures Valid(AddPoint(t, i, tp, start))
  {
    if tp.time >= start {
      var key := MsKey(tp.time);
      SlotValid(t, tp.time);
      assert Valid(WithIndex(Slot(t, tp.time), key, i));
      AddNotesValid(WithIndex(Slot(t, tp.time), key, i), key, tp.time, tp.notes, |tp.notes|);
    }
  }

  /** Every table `generate` builds keeps the invariant. */
  lemma {:induction false} AddPointsValid(points: seq<TimingPoint>, n: nat, start: real)
    requires n <= |points|
    ensures Valid(AddPoints(points, n, start))
  {
    if n > 0 {
      AddPointsValid(points, n - 1, start);
      AddPointValid(AddPoints(points, n - 1, start), n - 1, points[n - 1], start);
    }
  }

  /** `timing_list.values()`: the events in the order their keys were inserted. */
  function Values(t: Table): (vs: seq<SoundEvent>)
    requires Valid(t)
    ensures |vs| == |t.order|
    ensures forall j :: 0 <= j < |vs| ==> t.order[j] in t.entries && vs[j] == t.entries[t.order[j]]
  {
    assert forall j :: 0 <= j < |t.order| ==> t.order[j] in t.order;
    seq(|t.order|, j requires 0 <= j < |t.order| => t.entries[t.order[j]])
  }

  // ------------------------------------------------------------ sorting by time

  /** `p` lists indices into `times` by non-decreasing time; equal times keep index order. */
  predicate StableOrder(p: seq<nat>, times: seq<real>) {
    (forall a :: 0 <= a < |p| ==> p[a] < |times|)
    && forall a, b :: 0 <= a < b < |p| ==>
         times[p[a]] < times[p[b]] || (times[p[a]] == times[p[b]] && p[a] < p[b])
  }

  /** Index `j`, later than every index in `p`, put after all indices of no greater time. */
  function InsertIndex(p: seq<nat>, j: nat, times: seq<real>): (r: seq<nat>)
    requires j < |times| && forall a :: 0 <= a < |p| ==> p[a] < j
    ensures |r| == |p| + 1
    ensures forall x :: x in r <==> x in p || x == j
  {
    if p == [] || times[j] < times[p[0]] then [j] + p
    else
      assert forall x :: x in p[1..] ==> x in p;
      [p[0]] + InsertIndex(p[1..], j, times)
  }

  /** Inserting keeps the order stable. */
  lemma {:induction false} InsertStable(p: seq<nat>, j: nat, times: seq<real>)
    requires j < |times| && forall a :: 0 <= a < |p| ==> p[a] < j
    requires StableOrder(p, times)
    ensures StableOrder(InsertIndex(p, j, times), times)
  {
    if p == [] || times[j] < times[p[0]] {
      assert forall b :: 0 < b < |p| ==> times[p[0]] <= times[p[b]];
    } else {
      var rest := InsertIndex(p[1..], j, times);
      InsertStable(p[1..], j, times);
      assert forall x :: x in p[1..] ==> times[p[0]] < times[x] || (times[p[0]] == times[x] && p[0] < x);
      assert forall a :: 0 <= a < |rest| ==> rest[a] in rest;
    }
  }

  /** A stable ordering of the first `n` indices by time. */
  function TimeOrder(times: seq<real>, n: nat): (p: seq<nat>)
    requires n <= |times|
    ensures |p| == n && StableOrder(p, times)
    ensures forall x: nat :: x in p <==> x < n
  {
    if n == 0 then []
    else
      var p := TimeOrder(times, n - 1);
      assert forall a :: 0 <= a < |p| ==> p[a] in p;
      InsertStable(p, n - 1, times);
      InsertIndex(p, n - 1, times)
  }

  function Times(vs: seq<SoundEvent>): (ts: seq<real>)
    ensures |ts| == |vs| && forall j :: 0 <= j < |vs| ==> ts[j] == vs[j].time
  {
    seq(|vs|, j requires 0 <= j < |vs| => vs[j].time)
  }

  /** Python's `sorted(vs, key=lambda x: x.time)`: a stable sort by time. */
  function SortByTime(vs: seq<SoundEvent>): (r: seq<SoundEvent>)
    ensures |r| == |vs|
    ensures forall a, b :: 0 <= a < b < |r| ==> r[a].time <= r[b].time
  {
    var p := TimeOrder(Times(vs), |vs|);
    seq(|p|, a requires 0 <= a < |p| => vs[p[a]])
  }

  /** `SoundTimingGenerator.generate` without the opening clock sounds: the events
      of difficulty `diff` from `start` on, sorted by time. */
  function Generated(chart: Chart, start: real, diff: int): (r: seq<SoundEvent>)
    ensures diff !in chart.difficultyCharts ==> r == []
    ensures forall a, b :: 0 <= a < b < |r| ==> r[a].time <= r[b].time
  {
    if diff !in chart.difficultyCharts then []
    else
      var points := chart.difficultyCharts[diff];
      AddPointsValid(points, |points|, start);
      SortByTime(Values(AddPoints(points, |points|, start)))
  }

  // ------------------------------------------------------------ the objects

  /** A sound event object, shared through the table and updated in place. */
  class SoundEffectTiming {
    var time: real
    var noteGroupIndex: int
    var flags: set<Flag>
    var touchHoldDuration: real

    constructor (time: real)
      ensures Value() == NewEvent(time)
    {
      this.time := time;
      noteGroupIndex := -1;
      flags := {};
      touchHoldDuration := 0.0;
    }

    function Value(): SoundEvent
      reads this
    {
      SoundEvent(time, noteGroupIndex, flags, touchHoldDuration)
    }
  }


  /** The values of a list of objects. */
  function Snapshot(objs: seq<SoundEffectTiming>): (vs: seq<SoundEvent>)
    reads set o | o in objs
    ensures |vs| == |objs| && forall j :: 0 <= j < |objs| ==> vs[j] == objs[j].Value()
  {
    if objs == [] then [] else [objs[0].Value()] + Snapshot(objs[1..])
  }

  /** The dictionary `m` of objects, with insertion order `order`, holds the table `t`:
      distinct keys hold distinct objects, and each object's value is the table's event. */
  ghost predicate Holds(m: map<int, SoundEffectTiming>, order: seq<int>, t: Table)
    reads m.Values
  {
    order == t.order && m.Keys == t.entries.Keys
    && (forall a, b :: a in m && b in m && a != b ==> m[a] != m[b])
    && (forall k :: k in m ==> m[k].Value() == t.entries[k])
  }

  // ------------------------------------------------------------ equalities of table updates

  lemma MarkMerge(t: Table, key: int, a: set<Flag>, b: set<Flag>)
    requires key in t.entries
    ensures Mark(Mark(t, key, a), key, b) == Mark(t, key, a + b)
  {
    var e := t.entries[key];
    assert e.flags + a + b == e.flags + (a + b);
    assert t.entries[key := e.(flags := e.flags + a)][key := e.(flags := e.flags + (a + b))]
        == t.entries[key := e.(flags := e.flags + (a + b))];
  }

  lemma MarkNothing(t: Table, key: int)
    requires key in t.entries
    ensures Mark(t, key, {}) == t
  {
    assert t.entries[key].(flags := t.entries[key].flags + {}) == t.entries[key];
  }

  lemma PlayOne(t: Table, a: Sound)
    ensures Play(t, [a]) == MarkAt(t, a.time, a.flags)
  {
    assert [a][1..] == [];
  }

  lemma PlayTwo(t: Table, a: Sound, b: Sound)
    ensures Play(t, [a, b]) == MarkAt(MarkAt(t, a.time, a.flags), b.time, b.flags)
  {
    assert [a, b][1..] == [b];
    PlayOne(MarkAt(t, a.time, a.flags), b);
  }

  lemma PlayThree(t: Table, a: Sound, b: Sound, c: Sound)
    ensures Play(t, [a, b, c]) == MarkAt(MarkAt(MarkAt(t, a.time, a.flags), b.time, b.flags), c.time, c.flags)
  {
    assert [a, b, c][1..] == [b, c];
    PlayTwo(MarkAt(t, a.time, a.flags), b, c);
  }

  /** Storing the duration and setting flags anywhere commute. */
  lemma DurationCommutes(t: Table, key: int, d: real, time: real, fs: set<Flag>)
    requires key in t.entries
    ensures MarkAt(WithDuration(t, key, d), time, fs) == WithDuration(MarkAt(t, time, fs), key, d)
  {
    var k := MsKey(time);
    if k == key {
      var e := t.entries[key];
      assert MarkAt(WithDuration(t, key, d), time, fs).entries
          == t.entries[key := e.(touchHoldDuration := d, flags := e.flags + fs)];
    } else {
      assert MarkAt(WithDuration(t, key, d), time, fs).entries
          == MarkAt(t, time, fs).entries[key := t.entries[key].(touchHoldDuration := d)];
    }
  }

  /** What each kind of note does, as the steps `generate` takes. */
  lemma TapSteps(t: Table, key: int, time: real, n: NoteData)
    requires key == MsKey(time) && key in t.entries && n.kind.Tap?
    ensures AddNote(t, key, time, n) == MarkAt(t, time, HeadSound(n, time).flags)
  {
    PlayOne(t, HeadSound(n, time));
  }

  lemma HoldSteps(t: Table, key: int, time: real, n: NoteData)
    requires key == MsKey(time) && key in t.entries && n.kind.Hold?
    ensures var g := MarkAt(t, time, HeadSound(n, time).flags);
            AddNote(t, key, time, n)
              == if n.holdTime > 0.0 then MarkAt(g, ReleaseSound(n, time).time, ReleaseSound(n, time).flags) else g
  {
    if n.holdTime > 0.0 {
      PlayTwo(t, HeadSound(n, time), ReleaseSound(n, time));
    } else {
      PlayOne(t, HeadSound(n, time));
    }
  }

  lemma SlideSteps(t: Table, key: int, time: real, n: NoteData)
    requires key == MsKey(time) && key in t.entries && n.kind.Slide?
    ensures var g := MarkAt(t, time, StarSound(n, time).flags);
            AddNote(t, key, time, n)
              == if !n.isSlideBreak then MarkAt(g, SlideSound(n, time).time, {HasSlide})
                 else
                   var b := MarkAt(g, BreakSlideStartSound(n, time).time, {HasBreakSlideStart});
                   if n.slideTime > 0.0
                   then MarkAt(b, BreakSlideEndSound(n, time).time, BreakSlideEndSound(n, time).flags)
                   else b
  {
    if !n.isSlideBreak {
      PlayTwo(t, StarSound(n, time), SlideSound(n, time));
    } else if n.slideTime > 0.0 {
      PlayThree(t, StarSound(n, time), BreakSlideStartSound(n, time), BreakSlideEndSound(n, time));
    } else {
      PlayTwo(t, StarSound(n, time), BreakSlideStartSound(n, time));
    }
  }

  lemma TouchSteps(t: Table, key: int, time: real, n: NoteData)
    requires key == MsKey(time) && key in t.entries && n.kind.Touch?
    ensures AddNote(t, key, time, n) == MarkAt(t, time, TouchSound(n, time).flags)
  {
    PlayOne(t, TouchSound(n, time));
  }

  lemma TouchHoldSteps(t: Table, key: int, time: real, n: NoteData)
    requires key == MsKey(time) && key in t.entries && n.kind.TouchHold?
    ensures var g := MarkAt(t, time, TouchHoldStartSound(n, time).flags);
            AddNote(t, key, time, n)
              == if n.holdTime > 0.0
                 then MarkAt(WithDuration(g, key, n.holdTime),
                             TouchHoldEndSound(n, time).time, TouchHoldEndSound(n, time).flags)
                 else g
  {
    var g := MarkAt(t, time, TouchHoldStartSound(n, time).flags);
    if n.holdTime > 0.0 {
      PlayTwo(t, TouchHoldStartSound(n, time), TouchHoldEndSound(n, time));
      DurationCommutes(g, key, n.holdTime, TouchHoldEndSound(n, time).time, TouchHoldEndSound(n, time).flags);
    } else {
      PlayOne(t, TouchHoldStartSound(n, time));
    }
  }

  // ------------------------------------------------------------ updating the objects

  /** `_add_judge_sound`: sets the judge flags of the event in place. */
  method AddJudgeSound(st: SoundEffectTiming, n: NoteData)
    modifies st
    ensures st.Value() == Judged(old(st.Value()), n)
  {
    if n.isBreak {
      st.flags := st.flags + {HasBreak};
      st.flags := st.flags + {HasJudgeBreak};
    } else if n.isEx {
      st.flags := st.flags + {HasJudgeEx};
    } else {
      st.flags := st.flags + {HasJudge};
    }
  }

  /** The object at the key of `time`, created when missing. */
  method EntryAt(m: map<int, SoundEffectTiming>, order: seq<int>, time: real, ghost t: Table)
    returns (m2: map<int, SoundEffectTiming>, order2: seq<int>)
    requires Holds(m, order, t)
    ensures Holds(m2, order2, Slot(t, time)) && MsKey(time) in m2
    ensures forall o :: o in m2.Values ==> o in m.Values || fresh(o)
  {
    var key := MsKey(time);
    if key in m {
      m2, order2 := m, order;
    } else {
      var st := new SoundEffectTiming(time);
      m2, order2 := m[key := st], order + [key];
    }
  }

  /** Sets the flags `fs` on the object at `key`. */
  method SetFlags(m: map<int, SoundEffectTiming>, order: seq<int>, key: int, fs: set<Flag>, ghost t: Table)
    requires Holds(m, order, t) && key in m
    modifies m[key]
    ensures Holds(m, order, Mark(t, key, fs))
  {
    m[key].flags := m[key].flags + fs;
  }

  /** Sets the flags `fs` on the object at the key of `time`, created when missing. */
  method SetFlagsAt(m: map<int, SoundEffectTiming>, order: seq<int>, time: real, fs: set<Flag>,
                    ghost t: Table)
    returns (m2: map<int, SoundEffectTiming>, order2: seq<int>)
    requires Holds(m, order, t)
    modifies m.Values
    ensures Holds(m2, order2, MarkAt(t, time, fs))
    ensures forall o :: o in m2.Values ==> o in m.Values || fresh(o)
  {
    m2, order2 := EntryAt(m, order, time, t);
    SetFlags(m2, order2, MsKey(time), fs, Slot(t, time));
  }

  /** `_add_judge_sound` on the object at `key`. */
  method JudgeEntry(m: map<int, SoundEffectTiming>, order: seq<int>, key: int, n: NoteData, ghost t: Table)
    requires Holds(m, order, t) && key in m
    modifies m[key]
    ensures Holds(m, order, Mark(t, key, JudgeFlags(n)))
  {
    AddJudgeSound(m[key], n);
  }

  /** Stores a touch hold's duration on the object at `key`. */
  method SetDuration(m: map<int, SoundEffectTiming>, order: seq<int>, key: int, d: real, ghost t: Table)
    requires Holds(m, order, t) && key in m
    modifies m[key]
    ensures Holds(m, order, WithDuration(t, key, d))
  {
    m[key].touchHoldDuration := d;
  }

  /** Stores the note group index on the object at `key`. */
  method SetIndex(m: map<int, SoundEffectTiming>, order: seq<int>, key: int, i: int, ghost t: Table)
    requires Holds(m, order, t) && key in m
    modifies m[key]
    ensures Holds(m, order, WithIndex(t, key, i))
  {
    m[key].noteGroupIndex := i;
  }

  /** Sets flag `a`, then flag set `b`, on the object at `key`. */
  method SetFlagsTwice(m: map<int, SoundEffectTiming>, order: seq<int>, key: int, a: set<Flag>, b: set<Flag>,
                       ghost t: Table)
    requires Holds(m, order, t) && key in m
    modifies m[key]
    ensures Holds(m, order, Mark(t, key, a + b))
  {
    SetFlags(m, order, key, a, t);
    SetFlags(m, order, key, b, Mark(t, key, a));
    MarkMerge(t, key, a, b);
  }

  /** Sets the hanabi flag on the object at `key` when the note is a hanabi note. */
  method SetHanabi(m: map<int, SoundEffectTiming>, order: seq<int>, key: int, n: NoteData, ghost t: Table)
    requires Holds(m, order, t) && key in m
    modifies m[key]
    ensures Holds(m, order, Mark(t, key, Hanabi(n)))
  {
    if n.isHanabi {
      SetFlags(m, order, key, {HasHanabi}, t);
    } else {
      MarkNothing(t, key);
    }
  }

  /** The start of a tap or hold: answer, judge and, for a hanabi note, hanabi. */
  method HeadSounds(m: map<int, SoundEffectTiming>, order: seq<int>, key: int, time: real, n: NoteData,
                    ghost t: Table)
    requires key == MsKey(time) && key in m && Holds(m, order, t)
    modifies m.Values
    ensures Holds(m, order, MarkAt(t, time, HeadSound(n, time).flags))
  {
    SetFlags(m, order, key, {HasAnswer}, t);
    JudgeEntry(m, order, key, n, Mark(t, key, {HasAnswer}));
    MarkMerge(t, key, {HasAnswer}, JudgeFlags(n));
    SetHanabi(m, order, key, n, Mark(t, key, {HasAnswer} + JudgeFlags(n)));
    MarkMerge(t, key, {HasAnswer} + JudgeFlags(n), Hanabi(n));
  }

  /** A hold's release: answer, and judge unless the note is break or ex. */
  method HoldRelease(m: map<int, SoundEffectTiming>, order: seq<int>, time: real, n: NoteData,
                     ghost t: Table)
    returns (m2: map<int, SoundEffectTiming>, order2: seq<int>)
    requires Holds(m, order, t)
    modifies m.Values
    ensures Holds(m2, order2, MarkAt(t, ReleaseSound(n, time).time, ReleaseSound(n, time).flags))
    ensures forall o :: o in m2.Values ==> o in m.Values || fresh(o)
  {
    var releaseTime := time + n.holdTime;
    var releaseKey := MsKey(releaseTime);
    m2, order2 := EntryAt(m, order, releaseTime, t);
    ghost var s := Slot(t, releaseTime);
    SetFlags(m2, order2, releaseKey, {HasAnswer}, s);
    if !n.isBreak && !n.isEx {
      SetFlags(m2, order2, releaseKey, {HasJudge}, Mark(s, releaseKey, {HasAnswer}));
    } else {
      MarkNothing(Mark(s, releaseKey, {HasAnswer}), releaseKey);
    }
    MarkMerge(s, releaseKey, {HasAnswer}, ReleaseJudge(n));
  }

  /** A tap: answer, judge, hanabi. */
  method TapNote(m: map<int, SoundEffectTiming>, order: seq<int>, key: int, time: real, n: NoteData,
                 ghost t: Table)
    requires key == MsKey(time) && key in m && Holds(m, order, t) && n.kind.Tap?
    modifies m.Values
    ensures Holds(m, order, AddNote(t, key, time, n))
  {
    HeadSounds(m, order, key, time, n, t);
    TapSteps(t, key, time, n);
  }

  /** A hold: as a tap at its start, and its release when it lasts. */
  method HoldNote(m: map<int, SoundEffectTiming>, order: seq<int>, key: int, time: real, n: NoteData,
                  ghost t: Table)
    returns (m2: map<int, SoundEffectTiming>, order2: seq<int>)
    requires key == MsKey(time) && key in m && Holds(m, order, t) && n.kind.Hold?
    modifies m.Values
    ensures Holds(m2, order2, AddNote(t, key, time, n))
    ensures forall o :: o in m2.Values ==> o in m.Values || fresh(o)
  {
    m2, order2 := m, order;
    HeadSounds(m, order, key, time, n, t);
    HoldSteps(t, key, time, n);
    if n.holdTime > 0.0 {
      m2, order2 := HoldRelease(m, order, time, n, MarkAt(t, time, HeadSound(n, time).flags));
    }
  }

  /** The end of a body-break slide: break slide and its judge. */
  method BreakSlideEnd(m: map<int, SoundEffectTiming>, order: seq<int>, time: real, n: NoteData,
                       ghost t: Table)
    returns (m2: map<int, SoundEffectTiming>, order2: seq<int>)
    requires Holds(m, order, t)
    modifies m.Values
    ensures Holds(m2, order2, MarkAt(t, BreakSlideEndSound(n, time).time, BreakSlideEndSound(n, time).flags))
    ensures forall o :: o in m2.Values ==> o in m.Values || fresh(o)
  {
    var slideEndTime := if n.slideStartTime > 0.0 then n.slideStartTime + n.slideTime
                        else time + n.slideWaitTime + n.slideTime;
    assert slideEndTime == BreakSlideEndSound(n, time).time;
    assert {HasBreakSlide} + {HasJudgeBreakSlide} == BreakSlideEndSound(n, time).flags;
    m2, order2 := EntryAt(m, order, slideEndTime, t);
    SetFlagsTwice(m2, order2, MsKey(slideEndTime), {HasBreakSlide}, {HasJudgeBreakSlide}, Slot(t, slideEndTime));
  }

  /** The sounds of a body-break slide after its star: the break start after the wait and,
      when the slide lasts, the break end. */
  method BreakSlideSounds(m: map<int, SoundEffectTiming>, order: seq<int>, time: real, n: NoteData,
                          ghost t: Table)
    returns (m2: map<int, SoundEffectTiming>, order2: seq<int>)
    requires Holds(m, order, t)
    modifies m.Values
    ensures var b := MarkAt(t, BreakSlideStartSound(n, time).time, {HasBreakSlideStart});
            Holds(m2, order2, if n.slideTime > 0.0
                              then MarkAt(b, BreakSlideEndSound(n, time).time, BreakSlideEndSound(n, time).flags)
                              else b)
    ensures forall o :: o in m2.Values ==> o in m.Values || fresh(o)
  {
    var slideSoundTime := time + n.slideWaitTime;
    assert slideSoundTime == BreakSlideStartSound(n, time).time;
    ghost var b := MarkAt(t, slideSoundTime, {HasBreakSlideStart});
    m2, order2 := SetFlagsAt(m, order, slideSoundTime, {HasBreakSlideStart}, t);
    if n.slideTime > 0.0 {
      m2, order2 := BreakSlideEnd(m2, order2, time, n, b);
    }
  }

  /** The start of a slide's star: answer and judge. */
  method StarSounds(m: map<int, SoundEffectTiming>, order: seq<int>, key: int, time: real, n: NoteData,
                    ghost t: Table)
    requires key == MsKey(time) && key in m && Holds(m, order, t)
    modifies m.Values
    ensures Holds(m, order, MarkAt(t, time, StarSound(n, time).flags))
  {
    SetFlags(m, order, key, {HasAnswer}, t);
    JudgeEntry(m, order, key, n, Mark(t, key, {HasAnswer}));
    MarkMerge(t, key, {HasAnswer}, JudgeFlags(n));
  }

  /** A slide: answer and judge for the star, then the slide sound after the wait;
      a body-break slide has a break start there and, when it lasts, a break end. */
  method SlideNote(m: map<int, SoundEffectTiming>, order: seq<int>, key: int, time: real, n: NoteData,
                   ghost t: Table)
    returns (m2: map<int, SoundEffectTiming>, order2: seq<int>)
    requires key == MsKey(time) && key in m && Holds(m, order, t) && n.kind.Slide?
    modifies m.Values
    ensures Holds(m2, order2, AddNote(t, key, time, n))
    ensures forall o :: o in m2.Values ==> o in m.Values || fresh(o)
  {
    StarSounds(m, order, key, time, n, t);
    ghost var g := MarkAt(t, time, StarSound(n, time).flags);
    SlideSteps(t, key, time, n);
    if n.isSlideBreak {
      m2, order2 := BreakSlideSounds(m, order, time, n, g);
    } else {
      m2, order2 := SetFlagsAt(m, order, time + n.slideWaitTime, {HasSlide}, g);
    }
  }

  /** A touch: answer, touch, hanabi. */
  method TouchNote(m: map<int, SoundEffectTiming>, order: seq<int>, key: int, time: real, n: NoteData,
                   ghost t: Table)
    requires key == MsKey(time) && key in m && Holds(m, order, t) && n.kind.Touch?
    modifies m.Values
    ensures Holds(m, order, AddNote(t, key, time, n))
  {
    SetFlagsTwice(m, order, key, {HasAnswer}, {HasTouch}, t);
    SetHanabi(m, order, key, n, Mark(t, key, {HasAnswer} + {HasTouch}));
    MarkMerge(t, key, {HasAnswer} + {HasTouch}, Hanabi(n));
    TouchSteps(t, key, time, n);
  }

  /** The start of a touch hold: answer and touch, and the riser with its duration when it lasts. */
  method TouchHoldStart(m: map<int, SoundEffectTiming>, order: seq<int>, key: int, time: real, n: NoteData,
                        ghost t: Table)
    requires key == MsKey(time) && key in m && Holds(m, order, t)
    modifies m.Values
    ensures var g := MarkAt(t, time, TouchHoldStartSound(n, time).flags);
            Holds(m, order, if n.holdTime > 0.0 then WithDuration(g, key, n.holdTime) else g)
  {
    ghost var fs := TouchHoldStartSound(n, time).flags;
    assert Slot(t, time) == t;
    SetFlagsTwice(m, order, key, {HasAnswer}, {HasTouch}, t);
    ghost var g := Mark(t, key, {HasAnswer} + {HasTouch});
    if n.holdTime > 0.0 {
      SetFlags(m, order, key, {HasTouchHold}, g);
      MarkMerge(t, key, {HasAnswer} + {HasTouch}, {HasTouchHold});
      assert {HasAnswer} + {HasTouch} + {HasTouchHold} == fs;
      SetDuration(m, order, key, n.holdTime, Mark(t, key, fs));
    } else {
      assert {HasAnswer} + {HasTouch} == fs;
    }
  }

  /** The release of a touch hold: answer, the end sound and hanabi. */
  method TouchHoldRelease(m: map<int, SoundEffectTiming>, order: seq<int>, time: real, n: NoteData,
                          ghost t: Table)
    returns (m2: map<int, SoundEffectTiming>, order2: seq<int>)
    requires Holds(m, order, t)
    modifies m.Values
    ensures Holds(m2, order2, MarkAt(t, TouchHoldEndSound(n, time).time, TouchHoldEndSound(n, time).flags))
    ensures forall o :: o in m2.Values ==> o in m.Values || fresh(o)
  {
    var releaseTime := time + n.holdTime;
    var releaseKey := MsKey(releaseTime);
    assert releaseTime == TouchHoldEndSound(n, time).time;
    assert {HasAnswer} + {HasTouchHoldEnd} + Hanabi(n) == TouchHoldEndSound(n, time).flags;
    m2, order2 := EntryAt(m, order, releaseTime, t);
    ghost var s := Slot(t, releaseTime);
    SetFlagsTwice(m2, order2, releaseKey, {HasAnswer}, {HasTouchHoldEnd}, s);
    SetHanabi(m2, order2, releaseKey, n, Mark(s, releaseKey, {HasAnswer} + {HasTouchHoldEnd}));
    MarkMerge(s, releaseKey, {HasAnswer} + {HasTouchHoldEnd}, Hanabi(n));
  }

  /** A touch hold. */
  method TouchHoldNote(m: map<int, SoundEffectTiming>, order: seq<int>, key: int, time: real, n: NoteData,
                       ghost t: Table)
    returns (m2: map<int, SoundEffectTiming>, order2: seq<int>)
    requires key == MsKey(time) && key in m && Holds(m, order, t) && n.kind.TouchHold?
    modifies m.Values
    ensures Holds(m2, order2, AddNote(t, key, time, n))
    ensures forall o :: o in m2.Values ==> o in m.Values || fresh(o)
  {
    m2, order2 := m, order;
    TouchHoldStart(m, order, key, time, n, t);
    TouchHoldSteps(t, key, time, n);
    if n.holdTime > 0.0 {
      ghost var g := MarkAt(t, time, TouchHoldStartSound(n, time).flags);
      m2, order2 := TouchHoldRelease(m, order, time, n, WithDuration(g, key, n.holdTime));
    }
  }

  /** The sounds of one note of the group at `time`, whose object is at `key`. */
  method AddNoteSounds(m: map<int, SoundEffectTiming>, order: seq<int>, key: int, time: real, n: NoteData,
                       ghost t: Table)
    returns (m2: map<int, SoundEffectTiming>, order2: seq<int>)
    requires key == MsKey(time) && key in m && Holds(m, order, t)
    modifies m.Values
    ensures Holds(m2, order2, AddNote(t, key, time, n))
    ensures forall o :: o in m2.Values ==> o in m.Values || fresh(o)
  {
    m2, order2 := m, order;
    match n.kind
    case Tap => TapNote(m, order, key, time, n, t);
    case Hold => m2, order2 := HoldNote(m, order, key, time, n, t);
    case Slide => m2, order2 := SlideNote(m, order, key, time, n, t);
    case Touch => TouchNote(m, order, key, time, n, t);
    case TouchHold => m2, order2 := TouchHoldNote(m, order, key, time, n, t);
    case Other(_) => assert NoteSounds(n, time) == [];
  }

  /** The notes of a group at `time`, whose object is at `key`, one after the other. */
  method AddNotesSounds(m: map<int, SoundEffectTiming>, order: seq<int>, key: int, time: real,
                        notes: seq<NoteData>, ghost t: Table)
    returns (m2: map<int, SoundEffectTiming>, order2: seq<int>)
    requires key == MsKey(time) && key in m && Holds(m, order, t)
    modifies m.Values
    ensures Holds(m2, order2, AddNotes(t, key, time, notes, |notes|))
    ensures forall o :: o in m2.Values ==> o in m.Values || fresh(o)
  {
    m2, order2 := m, order;
    ghost var cur := t;
    var j := 0;
    while j < |notes|
      invariant 0 <= j <= |notes| && cur == AddNotes(t, key, time, notes, j)
      invariant key in m2 && Holds(m2, order2, cur)
      invariant forall o :: o in m2.Values ==> o in m.Values || fresh(o)
    {
      m2, order2, cur := AddNextNote(m2, order2, key, time, notes, j, t, cur);
      j := j + 1;
    }
  }

  /** The loop body of `AddNotesSounds`: note `j` of the group. */
  method AddNextNote(m: map<int, SoundEffectTiming>, order: seq<int>, key: int, time: real,
                     notes: seq<NoteData>, j: nat, ghost t: Table, ghost cur: Table)
    returns (m2: map<int, SoundEffectTiming>, order2: seq<int>, ghost cur2: Table)
    requires j < |notes| && key == MsKey(time) && key in t.entries && cur == AddNotes(t, key, time, notes, j)
    requires key in m && Holds(m, order, cur)
    modifies m.Values
    ensures cur2 == AddNotes(t, key, time, notes, j + 1)
    ensures key in m2 && Holds(m2, order2, cur2)
    ensures forall o :: o in m2.Values ==> o in m.Values || fresh(o)
  {
    m2, order2 := AddNoteSounds(m, order, key, time, notes[j], cur);
    cur2 := AddNote(cur, key, time, notes[j]);
  }

  /** One iteration of the timing-point loop: the group's object takes the group index,
      then each note adds its sounds; a group before `start` is skipped. */
  method AddGroupSounds(m: map<int, SoundEffectTiming>, order: seq<int>, i: int, tp: TimingPoint, start: real,
                        ghost t: Table)
    returns (m2: map<int, SoundEffectTiming>, order2: seq<int>)
    requires Holds(m, order, t)
    modifies m.Values
    ensures Holds(m2, order2, AddPoint(t, i, tp, start))
    ensures forall o :: o in m2.Values ==> o in m.Values || fresh(o)
  {
    m2, order2 := m, order;
    if tp.time < start {
      return;
    }
    var key := MsKey(tp.time);
    m2, order2 := EntryAt(m, order, tp.time, t);
    SetIndex(m2, order2, key, i, Slot(t, tp.time));
    m2, order2 := AddNotesSounds(m2, order2, key, tp.time, tp.notes, WithIndex(Slot(t, tp.time), key, i));
  }

  /** The timing-point loop of `generate`: the dictionary after every group. */
  method FillTable(points: seq<TimingPoint>, start: real)
    returns (timingList: map<int, SoundEffectTiming>, order: seq<int>)
    ensures Holds(timingList, order, AddPoints(points, |points|, start))
    ensures forall o :: o in timingList.Values ==> fresh(o)
  {
    timingList, order := map[], [];
    ghost var cur := Empty();
    var i := 0;
    while i < |points|
      invariant 0 <= i <= |points| && cur == AddPoints(points, i, start)
      invariant Holds(timingList, order, cur)
      invariant forall o :: o in timingList.Values ==> fresh(o)
    {
      timingList, order := AddGroupSounds(timingList, order, i, points[i], start, cur);
      cur := AddPoint(cur, i, points[i], start);
      i := i + 1;
    }
  }

  /** `timing_list.values()` on the objects: in the order their keys were inserted. */
  method ValueObjects(m: map<int, SoundEffectTiming>, order: seq<int>, ghost t: Table)
    returns (objs: seq<SoundEffectTiming>)
    requires Valid(t) && Holds(m, order, t)
    ensures Snapshot(objs) == Values(t)
    ensures forall o :: o in objs ==> o in m.Values
  {
    assert forall j :: 0 <= j < |order| ==> order[j] in t.order;
    objs := seq(|order|, j requires 0 <= j < |order| => m[order[j]]);
  }

  /** `sorted(objs, key=lambda x: x.time)`: the same objects, stably sorted by time. */
  method SortObjects(objs: seq<SoundEffectTiming>) returns (result: seq<SoundEffectTiming>)
    ensures Snapshot(result) == SortByTime(Snapshot(objs))
    ensures forall o :: o in result ==> o in objs
  {
    var vs := Snapshot(objs);
    var p := TimeOrder(Times(vs), |objs|);
    result := seq(|p|, a requires 0 <= a < |p| => objs[p[a]]);
    assert forall a :: 0 <= a < |result| ==> result[a] == objs[p[a]];
    ghost var sorted := SortByTime(vs);
    assert sorted == seq(|p|, a requires 0 <= a < |p| => vs[p[a]]);
    assert forall a :: 0 <= a < |p| ==> Snapshot(result)[a] == sorted[a];
  }

  /** `SoundTimingGenerator.generate` without the opening clock sounds: fills the dictionary
      group by group, then sorts its objects by time. */
  method Generate(chart: Chart, start: real, diff: int) returns (result: seq<SoundEffectTiming>)
    ensures Snapshot(result) == Generated(chart, start, diff)
    ensures forall o :: o in result ==> fresh(o)
  {
    if diff !in chart.difficultyCharts {
      return [];
    }
    var points := chart.difficultyCharts[diff];
    var timingList, order := FillTable(points, start);
    AddPointsValid(points, |points|, start);
    var objs := ValueObjects(timingList, order, AddPoints(points, |points|, start));
    result := SortObjects(objs);
  }
}
