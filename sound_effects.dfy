// Which sound effects are played for one scheduled sound event, in which
// order and at which volume.

module SoundEffects {
  import opened Py
  import opened SoundTiming

  /** One effect to mix in: the name of its sound bank and a volume multiplier. */
  datatype Effect = Effect(name: string, volume: real)

  /** The effects an event can carry, in the order they are emitted. */
  datatype Sound = Answer | Judge | JudgeBreak | JudgeEx | Break | Hanabi | TouchHold | Touch
                 | Slide | BreakSlideStart | BreakSlide | JudgeBreakSlide | AllPerfect | Fanfare
                 | Clock

  /** The order in which effects are emitted. */
  const Order: seq<Sound> := [Answer, Judge, JudgeBreak, JudgeEx, Break, Hanabi, TouchHold,
                              Touch, Slide, BreakSlideStart, BreakSlide, JudgeBreakSlide,
                              AllPerfect, Fanfare, Clock]

  /** The position of a sound in `Order`. */
  function Rank(s: Sound): nat {
    match s
    case Answer => 0 case Judge => 1 case JudgeBreak => 2 case JudgeEx => 3 case Break => 4
    case Hanabi => 5 case TouchHold => 6 case Touch => 7 case Slide => 8
    case BreakSlideStart => 9 case BreakSlide => 10 case JudgeBreakSlide => 11
    case AllPerfect => 12 case Fanfare => 13 case Clock => 14
  }

  /** The name of the sound bank. */
  function Name(s: Sound): string {
    match s
    case Answer => "answer" case Judge => "judge" case JudgeBreak => "judge_break"
    case JudgeEx => "judge_ex" case Break => "break" case Hanabi => "hanabi"
    case TouchHold => "touch_hold" case Touch => "touch" case Slide => "slide"
    case BreakSlideStart => "break_slide_start" case BreakSlide => "break_slide"
    case JudgeBreakSlide => "judge_break_slide" case AllPerfect => "all_perfect"
    case Fanfare => "fanfare" case Clock => "clock"
  }

  /** Break is played quieter than everything else. */
  function Volume(s: Sound): real {
    if s == Break then 0.75 else 1.0
  }

  /** The flag of the event that turns the sound on; the all-perfect flag turns on two. */
  function Trigger(s: Sound): Flag {
    match s
    case Answer => HasAnswer case Judge => HasJudge case JudgeBreak => HasJudgeBreak
    case JudgeEx => HasJudgeEx case Break => HasBreak case Hanabi => HasHanabi
    case TouchHold => HasTouchHold case Touch => HasTouch case Slide => HasSlide
    case BreakSlideStart => HasBreakSlideStart case BreakSlide => HasBreakSlide
    case JudgeBreakSlide => HasJudgeBreakSlide case AllPerfect => HasAllPerfect
    case Fanfare => HasAllPerfect case Clock => HasClock
  }

  function AsEffect(s: Sound): Effect {
    Effect(Name(s), Volume(s))
  }

  /** The effect of the sound at position `i` of `Order` when its flag is set. */
  function On(fs: set<Flag>, i: nat): seq<Effect>
    requires i < |Order|
  {
    if Trigger(Order[i]) in fs then [AsEffect(Order[i])] else []
  }

  /** The effects of the first `i` sounds of `Order` whose flag is set, in order. */
  function EffectsUpTo(fs: set<Flag>, i: nat): seq<Effect>
    requires i <= |Order|
  {
    if i == 0 then [] else EffectsUpTo(fs, i - 1) + On(fs, i - 1)
  }

  /** The effects of an event whose true flags are `fs`. */
  function EffectsOf(fs: set<Flag>): seq<Effect> {
    EffectsUpTo(fs, |Order|)
  }

  /** The sounds among the first `i` of `Order` whose flag is set, in order. */
  function SoundsUpTo(fs: set<Flag>, i: nat): seq<Sound>
    requires i <= |Order|
  {
    if i == 0 then []
    else SoundsUpTo(fs, i - 1) + (if Trigger(Order[i - 1]) in fs then [Order[i - 1]] else [])
  }

  function SoundsOf(fs: set<Flag>): seq<Sound> {
    SoundsUpTo(fs, |Order|)
  }

  /** The effect list of a scheduled event: one flag test and one append per flag,
      two appends for all-perfect. */
  method GetEffectsFromTiming(timing: SoundEffectTiming) returns (effects: seq<Effect>)
    ensures effects == EffectsOf(timing.flags)
  {
    var fs := timing.flags;
    effects := [];
    effects := effects + (if HasAnswer in fs then [Effect("answer", 1.0)] else []);
    effects := effects + (if HasJudge in fs then [Effect("judge", 1.0)] else []);
    effects := effects + (if HasJudgeBreak in fs then [Effect("judge_break", 1.0)] else []);
    effects := effects + (if HasJudgeEx in fs then [Effect("judge_ex", 1.0)] else []);
    JudgeEffects(fs);
    NoteEffects(effects, fs);
    effects := effects + (if HasBreak in fs then [Effect("break", 0.75)] else []);
    effects := effects + (if HasHanabi in fs then [Effect("hanabi", 1.0)] else []);
    effects := effects + (if HasTouchHold in fs then [Effect("touch_hold", 1.0)] else []);
    effects := effects + (if HasTouch in fs then [Effect("touch", 1.0)] else []);
    SlideEffects(effects, fs);
    effects := effects + (if HasSlide in fs then [Effect("slide", 1.0)] else []);
    effects := effects
      + (if HasBreakSlideStart in fs then [Effect("break_slide_start", 1.0)] else []);
    effects := effects + (if HasBreakSlide in fs then [Effect("break_slide", 1.0)] else []);
    effects := effects
      + (if HasJudgeBreakSlide in fs then [Effect("judge_break_slide", 1.0)] else []);
    EndEffects(effects, fs);
    effects := effects
      + (if HasAllPerfect in fs then [Effect("all_perfect", 1.0), Effect("fanfare", 1.0)] else []);
    effects := effects + (if HasClock in fs then [Effect("clock", 1.0)] else []);
  }

  /** The first four tests build the first four positions of the list. */
  lemma JudgeEffects(fs: set<Flag>)
    ensures []
        + (if HasAnswer in fs then [Effect("answer", 1.0)] else [])
        + (if HasJudge in fs then [Effect("judge", 1.0)] else [])
        + (if HasJudgeBreak in fs then [Effect("judge_break", 1.0)] else [])
        + (if HasJudgeEx in fs then [Effect("judge_ex", 1.0)] else []) == EffectsUpTo(fs, 4)
  {
    assert On(fs, 0) == (if HasAnswer in fs then [Effect("answer", 1.0)] else []);
    assert On(fs, 1) == (if HasJudge in fs then [Effect("judge", 1.0)] else []);
    assert On(fs, 2) == (if HasJudgeBreak in fs then [Effect("judge_break", 1.0)] else []);
    assert On(fs, 3) == (if HasJudgeEx in fs then [Effect("judge_ex", 1.0)] else []);
    assert EffectsUpTo(fs, 1) == [] + On(fs, 0);
    assert EffectsUpTo(fs, 3) == [] + On(fs, 0) + On(fs, 1) + On(fs, 2);
  }

  /** The next four tests extend it by positions 4 to 7. */
  lemma NoteEffects(prev: seq<Effect>, fs: set<Flag>)
    requires prev == EffectsUpTo(fs, 4)
    ensures prev
        + (if HasBreak in fs then [Effect("break", 0.75)] else [])
        + (if HasHanabi in fs then [Effect("hanabi", 1.0)] else [])
        + (if HasTouchHold in fs then [Effect("touch_hold", 1.0)] else [])
        + (if HasTouch in fs then [Effect("touch", 1.0)] else []) == EffectsUpTo(fs, 8)
  {
    assert On(fs, 4) == (if HasBreak in fs then [Effect("break", 0.75)] else []);
    assert On(fs, 5) == (if HasHanabi in fs then [Effect("hanabi", 1.0)] else []);
    assert On(fs, 6) == (if HasTouchHold in fs then [Effect("touch_hold", 1.0)] else []);
    assert On(fs, 7) == (if HasTouch in fs then [Effect("touch", 1.0)] else []);
    assert EffectsUpTo(fs, 6) == prev + On(fs, 4) + On(fs, 5);
  }

  /** The next four tests extend it by positions 8 to 11. */
  lemma SlideEffects(prev: seq<Effect>, fs: set<Flag>)
    requires prev == EffectsUpTo(fs, 8)
    ensures prev
        + (if HasSlide in fs then [Effect("slide", 1.0)] else [])
        + (if HasBreakSlideStart in fs then [Effect("break_slide_start", 1.0)] else [])
        + (if HasBreakSlide in fs then [Effect("break_slide", 1.0)] else [])
        + (if HasJudgeBreakSlide in fs then [Effect("judge_break_slide", 1.0)] else [])
      == EffectsUpTo(fs, 12)
  {
    assert On(fs, 8) == (if HasSlide in fs then [Effect("slide", 1.0)] else []);
    assert On(fs, 9) ==
      (if HasBreakSlideStart in fs then [Effect("break_slide_start", 1.0)] else []);
    assert On(fs, 10) == (if HasBreakSlide in fs then [Effect("break_slide", 1.0)] else []);
    assert On(fs, 11) ==
      (if HasJudgeBreakSlide in fs then [Effect("judge_break_slide", 1.0)] else []);
    assert EffectsUpTo(fs, 10) == prev + On(fs, 8) + On(fs, 9);
  }

  /** The all-perfect test covers positions 12 and 13 and the clock test position 14. */
  lemma EndEffects(prev: seq<Effect>, fs: set<Flag>)
    requires prev == EffectsUpTo(fs, 12)
    ensures prev
        + (if HasAllPerfect in fs then [Effect("all_perfect", 1.0), Effect("fanfare", 1.0)] else [])
        + (if HasClock in fs then [Effect("clock", 1.0)] else []) == EffectsOf(fs)
  {
    assert On(fs, 12) + On(fs, 13) ==
      (if HasAllPerfect in fs then [Effect("all_perfect", 1.0), Effect("fanfare", 1.0)] else []);
    assert On(fs, 14) == (if HasClock in fs then [Effect("clock", 1.0)] else []);
    assert EffectsUpTo(fs, 14) == prev + On(fs, 12) + On(fs, 13);
  }

  // ------------------------------------------------------------ properties

  /** The effect list is the sound list, sound by sound. */
  lemma {:induction false} EffectsAreSounds(fs: set<Flag>, i: nat)
    requires i <= |Order|
    ensures |EffectsUpTo(fs, i)| == |SoundsUpTo(fs, i)|
    ensures forall k :: 0 <= k < |SoundsUpTo(fs, i)| ==>
              EffectsUpTo(fs, i)[k] == AsEffect(SoundsUpTo(fs, i)[k])
  {
    if i > 0 {
      EffectsAreSounds(fs, i - 1);
    }
  }

  /** The sounds of `fs` are those of `Order` whose flag is set, listed in the order
      of `Order`: a sound is present exactly when its flag is, and the ranks of the
      listed sounds strictly increase. */
  lemma {:induction false} SoundsInOrder(fs: set<Flag>, i: nat)
    requires i <= |Order|
    ensures forall s :: s in SoundsUpTo(fs, i) <==> Rank(s) < i && Trigger(s) in fs
    ensures forall a, b :: 0 <= a < b < |SoundsUpTo(fs, i)| ==>
              Rank(SoundsUpTo(fs, i)[a]) < Rank(SoundsUpTo(fs, i)[b])
  {
    if i > 0 {
      SoundsInOrder(fs, i - 1);
      RanksOfOrder(i - 1);
      forall s ensures Rank(s) == i - 1 ==> s == Order[i - 1] {
        OrderOfRank(s);
      }
    }
  }

  lemma RanksOfOrder(i: nat)
    requires i < |Order|
    ensures Rank(Order[i]) == i
  {
    assert i == 0 || i == 1 || i == 2 || i == 3 || i == 4 || i == 5 || i == 6 || i == 7
        || i == 8 || i == 9 || i == 10 || i == 11 || i == 12 || i == 13 || i == 14;
  }

  lemma OrderOfRank(s: Sound)
    ensures Rank(s) < |Order| && Order[Rank(s)] == s
  {
  }

  /** A sound is played exactly when its flag is set. */
  lemma SoundPlayedIffFlag(fs: set<Flag>, s: Sound)
    ensures AsEffect(s) in EffectsOf(fs) <==> Trigger(s) in fs
  {
    SoundsInOrder(fs, |Order|);
    EffectsAreSounds(fs, |Order|);
    OrderOfRank(s);
    var ss := SoundsOf(fs);
    if AsEffect(s) in EffectsOf(fs) {
      var k :| 0 <= k < |ss| && EffectsOf(fs)[k] == AsEffect(s);
      NameDetermines(ss[k], s);
    }
  }

  /** The sound whose bank has the given name, if any. */
  function Named(name: string): Option<Sound>
  {
    if name == "answer" then Some(Answer) else if name == "judge" then Some(Judge)
    else if name == "judge_break" then Some(JudgeBreak)
    else if name == "judge_ex" then Some(JudgeEx)
    else if name == "break" then Some(Break) else if name == "hanabi" then Some(Hanabi)
    else if name == "touch_hold" then Some(TouchHold) else if name == "touch" then Some(Touch)
    else if name == "slide" then Some(Slide)
    else if name == "break_slide_start" then Some(BreakSlideStart)
    else if name == "break_slide" then Some(BreakSlide)
    else if name == "judge_break_slide" then Some(JudgeBreakSlide)
    else if name == "all_perfect" then Some(AllPerfect) else if name == "fanfare" then Some(Fanfare)
    else if name == "clock" then Some(Clock) else None
  }

  /** Every sound bank name names exactly one sound. */
  lemma NamedName(s: Sound)
    ensures Named(Name(s)) == Some(s)
  {
  }

  lemma NameDetermines(a: Sound, b: Sound)
    requires Name(a) == Name(b)
    ensures a == b
  {
    NamedName(a);
    NamedName(b);
  }

  /** `break` is played at 0.75 and every other effect at full volume. */
  lemma Volumes(fs: set<Flag>)
    ensures forall e :: e in EffectsOf(fs) ==> e.volume == (if e.name == "break" then 0.75 else 1.0)
  {
    EffectsAreSounds(fs, |Order|);
    forall e | e in EffectsOf(fs)
      ensures e.volume == (if e.name == "break" then 0.75 else 1.0)
    {
      var k :| 0 <= k < |EffectsOf(fs)| && EffectsOf(fs)[k] == e;
      var s := SoundsOf(fs)[k];
      if e.name == "break" {
        NameDetermines(s, Break);
      }
    }
  }

  /** The all-perfect flag emits `all_perfect` immediately followed by `fanfare`. */
  lemma AllPerfectThenFanfare(fs: set<Flag>)
    requires HasAllPerfect in fs
    ensures exists k :: 0 <= k < |EffectsOf(fs)| - 1
                        && EffectsOf(fs)[k] == Effect("all_perfect", 1.0)
                        && EffectsOf(fs)[k + 1] == Effect("fanfare", 1.0)
  {
    var pre := EffectsUpTo(fs, 12);
    assert EffectsUpTo(fs, 14) == pre + [AsEffect(AllPerfect)] + [AsEffect(Fanfare)];
    assert EffectsOf(fs)[|pre|] == Effect("all_perfect", 1.0);
    assert EffectsOf(fs)[|pre| + 1] == Effect("fanfare", 1.0);
  }

  /** The touch-hold-end flag is never looked at. */
  lemma TouchHoldEndIsSilent(fs: set<Flag>)
    ensures EffectsOf(fs + {HasTouchHoldEnd}) == EffectsOf(fs - {HasTouchHoldEnd})
  {
    TouchHoldEndIsSilentUpTo(fs, |Order|);
  }

  lemma {:induction false} TouchHoldEndIsSilentUpTo(fs: set<Flag>, i: nat)
    requires i <= |Order|
    ensures EffectsUpTo(fs + {HasTouchHoldEnd}, i) == EffectsUpTo(fs - {HasTouchHoldEnd}, i)
  {
    if i > 0 {
      TouchHoldEndIsSilentUpTo(fs, i - 1);
    }
  }

  // ------------------------------------------------------------ the number of effects

  /** The position in `Order` at which the flag first appears; none for touch-hold-end. */
  function FirstRank(f: Flag): int {
    match f
    case HasAnswer => 0 case HasJudge => 1 case HasJudgeBreak => 2 case HasJudgeEx => 3
    case HasBreak => 4 case HasHanabi => 5 case HasTouchHold => 6 case HasTouch => 7
    case HasSlide => 8 case HasBreakSlideStart => 9 case HasBreakSlide => 10
    case HasJudgeBreakSlide => 11 case HasAllPerfect => 12 case HasClock => 14
    case HasTouchHoldEnd => -1
  }

  lemma FirstRankOfTrigger(s: Sound)
    ensures FirstRank(Trigger(s)) == (if s == Fanfare then 12 else Rank(s))
  {
  }

  lemma TriggerOfFirstRank(f: Flag)
    requires f != HasTouchHoldEnd
    ensures 0 <= FirstRank(f) < |Order| && Trigger(Order[FirstRank(f)]) == f
  {
  }

  /** The flags that the first `i` positions of `Order` look at. */
  function Checked(i: nat): set<Flag>
    requires i <= |Order|
  {
    if i == 0 then {} else Checked(i - 1) + {Trigger(Order[i - 1])}
  }

  lemma {:induction false} CheckedRanks(i: nat)
    requires i <= |Order|
    ensures forall f :: f in Checked(i) ==> 0 <= FirstRank(f) < i
    ensures forall j :: 0 <= j < i ==> Trigger(Order[j]) in Checked(i)
  {
    if i > 0 {
      CheckedRanks(i - 1);
      RanksOfOrder(i - 1);
      FirstRankOfTrigger(Order[i - 1]);
    }
  }

  lemma {:induction false} CountUpTo(fs: set<Flag>, i: nat)
    requires i <= |Order|
    ensures |SoundsUpTo(fs, i)| == |fs * Checked(i)|
        + (if i > 13 && HasAllPerfect in fs then 1 else 0)
  {
    if i > 0 {
      CountUpTo(fs, i - 1);
      SoundsStep(fs, i);
      if i - 1 == 13 {
        FanfareSeen();
      } else {
        FreshTrigger(i - 1);
        CardAdd(fs, Checked(i - 1), Trigger(Order[i - 1]));
      }
    }
  }

  lemma SoundsStep(fs: set<Flag>, i: nat)
    requires 0 < i <= |Order|
    ensures |SoundsUpTo(fs, i)| == |SoundsUpTo(fs, i - 1)| + (if Trigger(Order[i - 1]) in fs then 1 else 0)
  {
  }

  /** Every sound but the fanfare has a flag not looked at before it. */
  lemma FreshTrigger(i: nat)
    requires i < |Order| && i != 13
    ensures Trigger(Order[i]) !in Checked(i)
  {
    CheckedRanks(i);
    RanksOfOrder(i);
    FirstRankOfTrigger(Order[i]);
  }

  /** The fanfare shares the all-perfect flag, already looked at. */
  lemma FanfareSeen()
    ensures Trigger(Order[13]) == HasAllPerfect && Checked(14) == Checked(13)
  {
    OrderOfRank(AllPerfect);
    OrderOfRank(Fanfare);
    CheckedRanks(13);
    assert HasAllPerfect in Checked(13) by {
      assert Trigger(Order[12]) in Checked(13);
    }
  }

  lemma CardAdd(fs: set<Flag>, c: set<Flag>, f: Flag)
    requires f !in c
    ensures |fs * (c + {f})| == |fs * c| + (if f in fs then 1 else 0)
  {
    if f in fs {
      assert fs * (c + {f}) == fs * c + {f};
    } else {
      assert fs * (c + {f}) == fs * c;
    }
  }

  /** One effect per true flag that is looked at, one more for all-perfect;
      the touch-hold-end flag adds nothing. */
  lemma EffectCount(fs: set<Flag>)
    ensures |EffectsOf(fs)| == |fs - {HasTouchHoldEnd}| + (if HasAllPerfect in fs then 1 else 0)
  {
    CountUpTo(fs, |Order|);
    EffectsAreSounds(fs, |Order|);
    CheckedRanks(|Order|);
    forall f ensures f in Checked(|Order|) <==> f != HasTouchHoldEnd {
      if f != HasTouchHoldEnd {
        TriggerOfFirstRank(f);
      }
    }
    assert fs * Checked(|Order|) == fs - {HasTouchHoldEnd};
  }

  /** No effect at all exactly when no flag that is looked at is set. */
  lemma NoEffects(fs: set<Flag>)
    ensures EffectsOf(fs) == [] <==> fs <= {HasTouchHoldEnd}
  {
    EffectCount(fs);
    if fs <= {HasTouchHoldEnd} {
      assert fs - {HasTouchHoldEnd} == {};
    } else {
      var f :| f in fs && f != HasTouchHoldEnd;
      assert f in fs - {HasTouchHoldEnd};
    }
  }
}
