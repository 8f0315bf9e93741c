// What `generate` promises about the events it returns: one event per
// millisecond, in time order, carrying exactly the flags the notes ask for.

module SoundTimingFacts {
  import opened ChartModel
  import opened SoundTiming

  // ------------------------------------------------------------ the millisecond key

  /** Rounding half to even never reverses an order. */
  lemma RoundMonotone(x: real, y: real)
    requires x <= y
    ensures RoundHalfEven(x) <= RoundHalfEven(y)
  {
    var fx, fy := x.Floor, y.Floor;
    assert fx <= RoundHalfEven(x) <= fx + 1;
    assert fy <= RoundHalfEven(y) <= fy + 1;
    if fx == fy {
      assert x - fx as real <= y - fy as real;
    }
  }

  /** A later time never has an earlier key. */
  lemma MsKeyMonotone(a: real, b: real)
    requires a <= b
    ensures MsKey(a) <= MsKey(b)
  {
    RoundMonotone(a * 1000.0, b * 1000.0);
  }

  // ------------------------------------------------------------ sorting

  /** The values at the indices `p`. */
  function Pick(vs: seq<SoundEvent>, p: seq<nat>): (r: seq<SoundEvent>)
    requires forall x :: x in p ==> x < |vs|
    ensures |r| == |p| && forall a :: 0 <= a < |p| ==> p[a] in p && r[a] == vs[p[a]]
  {
    assert forall a :: 0 <= a < |p| ==> p[a] in p;
    seq(|p|, a requires 0 <= a < |p| => vs[p[a]])
  }

  /** The index order `sorted` puts the values in. */
  function SortOrder(vs: seq<SoundEvent>): seq<nat> {
    TimeOrder(Times(vs), |vs|)
  }

  lemma PickCons(vs: seq<SoundEvent>, x: nat, p: seq<nat>)
    requires x < |vs| && forall y :: y in p ==> y < |vs|
    ensures Pick(vs, [x] + p) == [vs[x]] + Pick(vs, p)
  {
  }

  /** Picking one index in front of others. */
  lemma PickLater(vs: seq<SoundEvent>, x: nat, q: seq<nat>, rest: seq<nat>, extra: SoundEvent)
    requires x < |vs| && (forall y :: y in q ==> y < |vs|) && forall y :: y in rest ==> y < |vs|
    requires multiset(Pick(vs, rest)) == multiset(Pick(vs, q)) + multiset{extra}
    ensures multiset(Pick(vs, [x] + rest)) == multiset(Pick(vs, [x] + q)) + multiset{extra}
  {
    PickCons(vs, x, q);
    PickCons(vs, x, rest);
  }

  lemma InsertFront(vs: seq<SoundEvent>, times: seq<real>, p: seq<nat>, j: nat)
    requires |times| == |vs| && j < |vs| && forall a :: 0 <= a < |p| ==> p[a] < j
    requires p == [] || times[j] < times[p[0]]
    ensures multiset(Pick(vs, InsertIndex(p, j, times))) == multiset(Pick(vs, p)) + multiset{vs[j]}
  {
    assert forall y :: y in p ==> y < j;
    assert InsertIndex(p, j, times) == [j] + p;
    PickCons(vs, j, p);
  }

  lemma {:induction false} InsertPick(vs: seq<SoundEvent>, times: seq<real>, p: seq<nat>, j: nat)
    requires |times| == |vs| && j < |vs| && forall a :: 0 <= a < |p| ==> p[a] < j
    ensures multiset(Pick(vs, InsertIndex(p, j, times))) == multiset(Pick(vs, p)) + multiset{vs[j]}
  {
    if p == [] || times[j] < times[p[0]] {
      InsertFront(vs, times, p, j);
    } else {
      var rest := InsertIndex(p[1..], j, times);
      assert forall y :: y in p ==> y < j;
      assert forall y :: y in p[1..] ==> y in p;
      InsertPick(vs, times, p[1..], j);
      assert p == [p[0]] + p[1..];
      PickLater(vs, p[0], p[1..], rest, vs[j]);
    }
  }

  lemma TakeSnoc(vs: seq<SoundEvent>, n: nat)
    requires n < |vs|
    ensures vs[..n + 1] == vs[..n] + [vs[n]]
  {
  }

  lemma {:induction false} TimeOrderPick(vs: seq<SoundEvent>, times: seq<real>, n: nat)
    requires |times| == |vs| && n <= |vs|
    ensures multiset(Pick(vs, TimeOrder(times, n))) == multiset(vs[..n])
  {
    if n > 0 {
      var p := TimeOrder(times, n - 1);
      TimeOrderPick(vs, times, n - 1);
      assert forall a :: 0 <= a < |p| ==> p[a] in p;
      InsertPick(vs, times, p, n - 1);
      TakeSnoc(vs, n - 1);
    }
  }

  /** `sorted` returns the same events, each as often as before. */
  lemma SortIsPermutation(vs: seq<SoundEvent>)
    ensures multiset(SortByTime(vs)) == multiset(vs)
  {
    TimeOrderPick(vs, Times(vs), |vs|);
    assert vs[..|vs|] == vs;
    assert SortByTime(vs) == Pick(vs, SortOrder(vs));
  }

  /** `sorted` is stable: events of equal time keep the order their keys were inserted in. */
  lemma SortIsStable(vs: seq<SoundEvent>)
    ensures var p := SortOrder(vs);
            SortByTime(vs) == Pick(vs, p)
            && forall a, b :: 0 <= a < b < |p| && vs[p[a]].time == vs[p[b]].time ==> p[a] < p[b]
  {
    var p := SortOrder(vs);
    assert forall a, b :: 0 <= a < b < |p| ==> Times(vs)[p[a]] == vs[p[a]].time && Times(vs)[p[b]] == vs[p[b]].time;
  }

  // ------------------------------------------------------------ the returned list

  /** The table `generate` builds for the timing points of one difficulty. */
  ghost function Built(points: seq<TimingPoint>, start: real): Table {
    AddPoints(points, |points|, start)
  }

  /** No two returned events share a millisecond key, and the keys increase strictly. */
  lemma GeneratedKeysIncrease(chart: Chart, start: real, diff: int)
    ensures var r := Generated(chart, start, diff);
            forall a, b :: 0 <= a < b < |r| ==> MsKey(r[a].time) < MsKey(r[b].time)
  {
    if diff in chart.difficultyCharts {
      var points := chart.difficultyCharts[diff];
      var t := Built(points, start);
      AddPointsValid(points, |points|, start);
      var vs := Values(t);
      var p := SortOrder(vs);
      var r := Generated(chart, start, diff);
      assert r == Pick(vs, p);
      forall a, b | 0 <= a < b < |r|
        ensures MsKey(r[a].time) < MsKey(r[b].time)
      {
        assert p[a] != p[b];
        assert MsKey(r[a].time) == t.order[p[a]] && MsKey(r[b].time) == t.order[p[b]];
        assert MsKey(r[a].time) != MsKey(r[b].time);
        MsKeyMonotone(r[a].time, r[b].time);
      }
    }
  }

  /** The returned events are the table's events, each once. */
  lemma GeneratedAreTheEvents(chart: Chart, start: real, diff: int)
    requires diff in chart.difficultyCharts
    ensures var points := chart.difficultyCharts[diff];
            var t := Built(points, start);
            Valid(t) && multiset(Generated(chart, start, diff)) == multiset(Values(t))
  {
    var points := chart.difficultyCharts[diff];
    AddPointsValid(points, |points|, start);
    SortIsPermutation(Values(Built(points, start)));
  }

  // ------------------------------------------------------------ flags: exactly what the sounds ask for

  /** The sounds of the first `k` notes of a group at `time`. */
  function GroupSounds(notes: seq<NoteData>, time: real, k: nat): seq<Sound>
    requires k <= |notes|
  {
    if k == 0 then [] else GroupSounds(notes, time, k - 1) + NoteSounds(notes[k - 1], time)
  }

  /** Every sound the first `n` timing points ask for, in the order they are played;
      a group before `start` asks for none. */
  function ChartSounds(points: seq<TimingPoint>, n: nat, start: real): seq<Sound>
    requires n <= |points|
  {
    if n == 0 then []
    else
      var tp := points[n - 1];
      ChartSounds(points, n - 1, start) + (if tp.time < start then [] else GroupSounds(tp.notes, tp.time, |tp.notes|))
  }

  lemma {:induction false} HeardAppend(a: seq<Sound>, b: seq<Sound>, k: int)
    ensures Heard(a + b, k) == Heard(a, k) + Heard(b, k)
  {
    if a == [] {
      assert a + b == b;
    } else {
      assert (a + b)[1..] == a[1..] + b;
      HeardAppend(a[1..], b, k);
    }
  }

  lemma HeardAppendAll(a: seq<Sound>, b: seq<Sound>)
    ensures forall k :: Heard(a + b, k) == Heard(a, k) + Heard(b, k)
  {
    forall k
      ensures Heard(a + b, k) == Heard(a, k) + Heard(b, k)
    {
      HeardAppend(a, b, k);
    }
  }

  lemma AddNoteFlags(t: Table, key: int, time: real, n: NoteData)
    requires key in t.entries
    ensures forall k :: FlagsAt(AddNote(t, key, time, n), k) == FlagsAt(t, k) + Heard(NoteSounds(n, time), k)
  {
    PlayFlags(t, NoteSounds(n, time));
  }

  lemma {:induction false} AddNotesFlags(t: Table, key: int, time: real, notes: seq<NoteData>, j: nat)
    requires key in t.entries && j <= |notes|
    ensures forall k :: FlagsAt(AddNotes(t, key, time, notes, j), k) == FlagsAt(t, k) + Heard(GroupSounds(notes, time, j), k)
  {
    if j > 0 {
      var before := AddNotes(t, key, time, notes, j - 1);
      AddNotesFlags(t, key, time, notes, j - 1);
      AddNoteFlags(before, key, time, notes[j - 1]);
      HeardAppendAll(GroupSounds(notes, time, j - 1), NoteSounds(notes[j - 1], time));
    }
  }

  lemma AddPointFlags(t: Table, i: int, tp: TimingPoint, start: real)
    ensures forall k :: FlagsAt(AddPoint(t, i, tp, start), k)
                        == FlagsAt(t, k) + (if tp.time < start then {} else Heard(GroupSounds(tp.notes, tp.time, |tp.notes|), k))
  {
    if tp.time >= start {
      var key := MsKey(tp.time);
      var g := WithIndex(Slot(t, tp.time), key, i);
      assert forall k :: FlagsAt(g, k) == FlagsAt(t, k);
      AddNotesFlags(g, key, tp.time, tp.notes, |tp.notes|);
    }
  }

  /** The flags at every key are exactly those some sound of the chart asks for at that key:
      a later note only adds flags and never clears one. */
  lemma {:induction false} AddPointsFlags(points: seq<TimingPoint>, n: nat, start: real)
    requires n <= |points|
    ensures forall k :: FlagsAt(AddPoints(points, n, start), k) == Heard(ChartSounds(points, n, start), k)
  {
    if n > 0 {
      var tp := points[n - 1];
      AddPointsFlags(points, n - 1, start);
      AddPointFlags(AddPoints(points, n - 1, start), n - 1, tp, start);
      HeardAppendAll(ChartSounds(points, n - 1, start),
                     if tp.time < start then [] else GroupSounds(tp.notes, tp.time, |tp.notes|));
    }
  }

  // ------------------------------------------------------------ keys: one event per group and per sound

  /** The keys of the groups among the first `n` timing points that are not before `start`. */
  function GroupKeys(points: seq<TimingPoint>, n: nat, start: real): set<int>
    requires n <= |points|
  {
    if n == 0 then {}
    else GroupKeys(points, n - 1, start) + (if points[n - 1].time < start then {} else {MsKey(points[n - 1].time)})
  }

  lemma {:induction false} SoundKeysAppend(a: seq<Sound>, b: seq<Sound>)
    ensures SoundKeys(a + b) == SoundKeys(a) + SoundKeys(b)
  {
    if a == [] {
      assert a + b == b;
    } else {
      assert (a + b)[1..] == a[1..] + b;
      SoundKeysAppend(a[1..], b);
    }
  }

  lemma {:induction false} PlayKeys(t: Table, ss: seq<Sound>)
    ensures Play(t, ss).entries.Keys == t.entries.Keys + SoundKeys(ss)
    decreases |ss|
  {
    if ss != [] {
      PlayKeys(MarkAt(t, ss[0].time, ss[0].flags), ss[1..]);
    }
  }

  lemma KeysStep(t: Table, before: Table, key: int, time: real, n: NoteData, prior: seq<Sound>)
    requires key in before.entries && before.entries.Keys == t.entries.Keys + SoundKeys(prior)
    ensures AddNote(before, key, time, n).entries.Keys == t.entries.Keys + SoundKeys(prior + NoteSounds(n, time))
  {
    PlayKeys(before, NoteSounds(n, time));
    SoundKeysAppend(prior, NoteSounds(n, time));
  }

  lemma {:induction false} AddNotesKeys(t: Table, key: int, time: real, notes: seq<NoteData>, j: nat)
    requires key in t.entries && j <= |notes|
    ensures AddNotes(t, key, time, notes, j).entries.Keys == t.entries.Keys + SoundKeys(GroupSounds(notes, time, j))
  {
    if j > 0 {
      AddNotesKeys(t, key, time, notes, j - 1);
      KeysStep(t, AddNotes(t, key, time, notes, j - 1), key, time, notes[j - 1], GroupSounds(notes, time, j - 1));
    }
  }

  /** The table has an event at the key of every group not before `start`, at the key of
      every sound, and nowhere else. */
  lemma {:induction false} AddPointsKeys(points: seq<TimingPoint>, n: nat, start: real)
    requires n <= |points|
    ensures AddPoints(points, n, start).entries.Keys == GroupKeys(points, n, start) + SoundKeys(ChartSounds(points, n, start))
  {
    if n > 0 {
      var tp := points[n - 1];
      var t := AddPoints(points, n - 1, start);
      AddPointsKeys(points, n - 1, start);
      var more := if tp.time < start then [] else GroupSounds(tp.notes, tp.time, |tp.notes|);
      SoundKeysAppend(ChartSounds(points, n - 1, start), more);
      if tp.time >= start {
        var key := MsKey(tp.time);
        AddNotesKeys(WithIndex(Slot(t, tp.time), key, n - 1), key, tp.time, tp.notes, |tp.notes|);
      } else {
        assert SoundKeys(more) == {};
      }
    }
  }

  // ------------------------------------------------------------ the note group index

  /** The last of the first `n` groups not before `start` whose key is `k`; -1 when none is. */
  function LastGroup(points: seq<TimingPoint>, n: nat, start: real, k: int): int
    requires n <= |points|
  {
    if n == 0 then -1
    else if points[n - 1].time >= start && MsKey(points[n - 1].time) == k then n - 1
    else LastGroup(points, n - 1, start, k)
  }

  /** `r` keeps the group index of every event of `t` and gives a new event none. */
  ghost predicate IndexFrom(t: Table, r: Table) {
    t.entries.Keys <= r.entries.Keys
    && forall k :: k in r.entries ==>
         r.entries[k].noteGroupIndex == if k in t.entries then t.entries[k].noteGroupIndex else -1
  }

  lemma {:induction false} PlayIndex(t: Table, ss: seq<Sound>)
    ensures IndexFrom(t, Play(t, ss))
    decreases |ss|
  {
    if ss != [] {
      var s := MarkAt(t, ss[0].time, ss[0].flags);
      PlayIndex(s, ss[1..]);
    }
  }

  lemma {:induction false} AddNotesIndex(t: Table, key: int, time: real, notes: seq<NoteData>, j: nat)
    requires key in t.entries && j <= |notes|
    ensures IndexFrom(t, AddNotes(t, key, time, notes, j))
  {
    if j > 0 {
      var before := AddNotes(t, key, time, notes, j - 1);
      AddNotesIndex(t, key, time, notes, j - 1);
      PlayIndex(before, NoteSounds(notes[j - 1], time));
    }
  }

  /** Each event carries the index of the last group at its key, or -1 when only the
      release or slide sounds of other groups fall on it. */
  lemma {:induction false} AddPointsIndex(points: seq<TimingPoint>, n: nat, start: real)
    requires n <= |points|
    ensures var t := AddPoints(points, n, start);
            (forall k :: k in t.entries ==> t.entries[k].noteGroupIndex == LastGroup(points, n, start, k))
            && forall k :: LastGroup(points, n, start, k) != -1 ==> k in t.entries
  {
    if n > 0 {
      var tp := points[n - 1];
      var t := AddPoints(points, n - 1, start);
      AddPointsIndex(points, n - 1, start);
      if tp.time >= start {
        var key := MsKey(tp.time);
        var g := WithIndex(Slot(t, tp.time), key, n - 1);
        assert forall k :: k in g.entries ==> g.entries[k].noteGroupIndex == LastGroup(points, n, start, k);
        AddNotesIndex(g, key, tp.time, tp.notes, |tp.notes|);
      }
    }
  }

  // ------------------------------------------------------------ what each kind of note sounds

  /** The flags one sound asks for at key `k`. */
  function At(a: Sound, k: int): set<Flag> {
    if MsKey(a.time) == k then a.flags else {}
  }

  lemma HeardOne(a: Sound, k: int)
    ensures Heard([a], k) == At(a, k)
  {
    assert [a][1..] == [];
  }

  lemma HeardTwo(a: Sound, b: Sound, k: int)
    ensures Heard([a, b], k) == At(a, k) + At(b, k)
  {
    assert [a, b][1..] == [b];
    HeardOne(b, k);
  }

  lemma HeardThree(a: Sound, b: Sound, c: Sound, k: int)
    ensures Heard([a, b, c], k) == At(a, k) + At(b, k) + At(c, k)
  {
    assert [a, b, c][1..] == [b, c];
    HeardTwo(b, c, k);
  }

  /** A tap sounds only at its own key: answer, exactly its judge, and hanabi for a hanabi note. */
  lemma TapSounds(n: NoteData, time: real, k: int)
    requires n.kind.Tap?
    ensures Heard(NoteSounds(n, time), k)
            == if k == MsKey(time) then {HasAnswer} + JudgeFlags(n) + Hanabi(n) else {}
  {
    HeardOne(HeadSound(n, time), k);
  }

  /** A touch sounds only at its own key: answer, touch, and hanabi for a hanabi note; it never judges. */
  lemma TouchSounds(n: NoteData, time: real, k: int)
    requires n.kind.Touch?
    ensures Heard(NoteSounds(n, time), k)
            == if k == MsKey(time) then {HasAnswer, HasTouch} + Hanabi(n) else {}
  {
    HeardOne(TouchSound(n, time), k);
  }

  /** A hold answers and judges at its start; a lasting hold also answers at its release,
      with a plain judge only when it is neither break nor ex, and no hanabi there. */
  lemma HoldSounds(n: NoteData, time: real, k: int)
    requires n.kind.Hold?
    ensures var heard := Heard(NoteSounds(n, time), k);
            var start, release := MsKey(time), MsKey(time + n.holdTime);
            (k == start ==> {HasAnswer} + JudgeFlags(n) + Hanabi(n) <= heard)
            && (n.holdTime > 0.0 && k == release ==> HasAnswer in heard)
            && (n.holdTime > 0.0 && k == release && k != start
                ==> heard == {HasAnswer} + (if !n.isBreak && !n.isEx then {HasJudge} else {}))
            && (k != start && (n.holdTime <= 0.0 || k != release) ==> heard == {})
  {
    if n.holdTime > 0.0 {
      HeardTwo(HeadSound(n, time), ReleaseSound(n, time), k);
    } else {
      HeardOne(HeadSound(n, time), k);
    }
  }

  /** A slide answers and judges at its start, without hanabi. After the wait a normal slide
      plays the slide sound and a body-break slide the break slide start; a lasting body-break
      slide also plays the break slide and its judge where it ends. */
  lemma SlideSounds(n: NoteData, time: real, k: int)
    requires n.kind.Slide?
    ensures var heard := Heard(NoteSounds(n, time), k);
            var wait, end := MsKey(time + n.slideWaitTime), MsKey(SlideEndTime(time, n));
            (k == MsKey(time) ==> {HasAnswer} + JudgeFlags(n) <= heard)
            && HasHanabi !in heard
            && (!n.isSlideBreak ==> (k == wait ==> HasSlide in heard)
                                    && HasBreakSlideStart !in heard && HasBreakSlide !in heard)
            && (n.isSlideBreak ==> (k == wait ==> HasBreakSlideStart in heard) && HasSlide !in heard)
            && (n.isSlideBreak && n.slideTime > 0.0 && k == end ==> {HasBreakSlide, HasJudgeBreakSlide} <= heard)
            && (n.slideTime <= 0.0 ==> HasBreakSlide !in heard && HasJudgeBreakSlide !in heard)
  {
    if !n.isSlideBreak {
      HeardTwo(StarSound(n, time), SlideSound(n, time), k);
    } else if n.slideTime > 0.0 {
      HeardThree(StarSound(n, time), BreakSlideStartSound(n, time), BreakSlideEndSound(n, time), k);
    } else {
      HeardTwo(StarSound(n, time), BreakSlideStartSound(n, time), k);
    }
  }

  /** A touch hold answers and touches at its start, with the riser only when it lasts; a
      lasting touch hold ends with answer, the end sound and its hanabi at its release. A touch
      hold that does not last has no hanabi at all. */
  lemma TouchHoldSounds(n: NoteData, time: real, k: int)
    requires n.kind.TouchHold?
    ensures var heard := Heard(NoteSounds(n, time), k);
            var start, release := MsKey(time), MsKey(time + n.holdTime);
            (k == start ==> {HasAnswer, HasTouch} <= heard && (HasTouchHold in heard <==> n.holdTime > 0.0))
            && (HasTouchHold in heard ==> k == start)
            && (HasTouchHoldEnd in heard <==> n.holdTime > 0.0 && k == release)
            && (HasHanabi in heard <==> n.isHanabi && n.holdTime > 0.0 && k == release)
            && HasJudge !in heard
  {
    if n.holdTime > 0.0 {
      HeardTwo(TouchHoldStartSound(n, time), TouchHoldEndSound(n, time), k);
    } else {
      HeardOne(TouchHoldStartSound(n, time), k);
    }
  }

  /** A note of another kind changes nothing. */
  lemma OtherIsSilent(t: Table, key: int, time: real, n: NoteData)
    requires key in t.entries && n.kind.Other?
    ensures AddNote(t, key, time, n) == t
  {
    assert NoteSounds(n, time) == [];
  }

  /** Only a lasting touch hold stores a duration, on its own event, and it stores its hold time. */
  lemma {:induction false} PlayKeepsDurations(t: Table, ss: seq<Sound>)
    ensures forall k :: k in t.entries ==> Play(t, ss).entries[k].touchHoldDuration == t.entries[k].touchHoldDuration
    decreases |ss|
  {
    if ss != [] {
      PlayKeepsDurations(MarkAt(t, ss[0].time, ss[0].flags), ss[1..]);
    }
  }

  lemma TouchHoldDuration(t: Table, key: int, time: real, n: NoteData)
    requires key in t.entries
    ensures var r := AddNote(t, key, time, n);
            r.entries[key].touchHoldDuration
              == if n.kind.TouchHold? && n.holdTime > 0.0 then n.holdTime else t.entries[key].touchHoldDuration
  {
    PlayKeepsDurations(t, NoteSounds(n, time));
  }

  // ------------------------------------------------------------ nothing is lost

  /** Events are only added, never removed or moved, and their flags only become true. */
  ghost predicate Grows(t: Table, r: Table) {
    t.order <= r.order
    && forall k :: k in t.entries ==>
         k in r.entries && r.entries[k].time == t.entries[k].time
         && t.entries[k].flags <= r.entries[k].flags
  }

  lemma {:induction false} PlayGrows(t: Table, ss: seq<Sound>)
    ensures Grows(t, Play(t, ss))
    decreases |ss|
  {
    if ss != [] {
      var s := MarkAt(t, ss[0].time, ss[0].flags);
      PlayGrows(s, ss[1..]);
    }
  }

  lemma GrowsTrans(a: Table, b: Table, c: Table)
    requires Grows(a, b) && Grows(b, c)
    ensures Grows(a, c)
  {
  }

  lemma AddNoteGrows(t: Table, key: int, time: real, n: NoteData)
    requires key in t.entries
    ensures Grows(t, AddNote(t, key, time, n))
  {
    PlayGrows(t, NoteSounds(n, time));
  }

  lemma {:induction false} AddNotesGrow(t: Table, key: int, time: real, notes: seq<NoteData>, j: nat)
    requires key in t.entries && j <= |notes|
    ensures Grows(t, AddNotes(t, key, time, notes, j))
  {
    if j > 0 {
      var before := AddNotes(t, key, time, notes, j - 1);
      AddNotesGrow(t, key, time, notes, j - 1);
      AddNoteGrows(before, key, time, notes[j - 1]);
      GrowsTrans(t, before, AddNotes(t, key, time, notes, j));
    }
  }

  lemma AddPointGrows(t: Table, i: int, tp: TimingPoint, start: real)
    ensures Grows(t, AddPoint(t, i, tp, start))
  {
    if tp.time >= start {
      var key := MsKey(tp.time);
      AddNotesGrow(WithIndex(Slot(t, tp.time), key, i), key, tp.time, tp.notes, |tp.notes|);
    }
  }

  /** Every later timing point only adds events and sets flags: none is cleared, none moves. */
  lemma {:induction false} AddPointsGrow(points: seq<TimingPoint>, a: nat, b: nat, start: real)
    requires a <= b <= |points|
    ensures Grows(AddPoints(points, a, start), AddPoints(points, b, start))
    decreases b
  {
    if a < b {
      AddPointsGrow(points, a, b - 1, start);
      AddPointGrows(AddPoints(points, b - 1, start), b - 1, points[b - 1], start);
    }
  }

  // ------------------------------------------------------------ the start time

  /** Timing points before `start` contribute nothing: when all are, no event is returned. */
  lemma {:induction false} AllBeforeStart(points: seq<TimingPoint>, n: nat, start: real)
    requires n <= |points|
    ensures (forall i :: 0 <= i < n ==> points[i].time < start) ==> AddPoints(points, n, start) == Empty()
  {
    if n > 0 {
      AllBeforeStart(points, n - 1, start);
    }
  }

  lemma NothingBeforeStart(chart: Chart, start: real, diff: int)
    requires diff in chart.difficultyCharts
    requires forall i :: 0 <= i < |chart.difficultyCharts[diff]| ==> chart.difficultyCharts[diff][i].time < start
    ensures Generated(chart, start, diff) == []
  {
    var points := chart.difficultyCharts[diff];
    AllBeforeStart(points, |points|, start);
  }
}

