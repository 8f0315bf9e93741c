/**
  The loader and the tokenizer over their real callees: `load_chart` runs
  `_parse_simai` over `_parse_note_group` over `_parse_note`, with
  `float()` for the `&first=` value; `tokenize_simai` uses `float()` and
  `int()` for its directives. What the parts promise for any callee is
  here stated of the composed program.
*/
module Maidata {
  import opened Py
  import opened ChartModel
  import NoteGrammar
  import NoteGroups
  import SimaiScanner
  import ChartLoader
  import Tokenizer

  // ---------------------------------------------------------------- load_chart

  /** `ChartLoader.load_chart` on the lines of a maidata file. */
  function LoadMaidata(lines: seq<string>): (r: Outcome<Chart>)
    ensures r.Ok? ==> |r.value.metadata.levels| == LevelCount
    ensures r.Ok? ==> forall d :: d in r.value.difficultyCharts ==> 0 <= d < LevelCount
  {
    ChartLoader.Load(lines, ChartLoader.SimaiOf(NoteGrammar.ParseNote), ParseFloat)
  }

  /** Every note `_parse_note` returns, chains included, passes `HoldHasLength`. */
  lemma ParseNoteHolds()
    ensures NoteGroups.OnlyYields(NoteGrammar.ParseNote, NoteGrammar.HoldHasLength)
  {
    forall s: string, bpm: real | NoteGrammar.ParseNote(s, bpm).Ok?
      ensures NoteGroups.AllPass(NoteGrammar.ParseNote(s, bpm).value, NoteGrammar.HoldHasLength)
    {
      NoteGrammar.ParsedHoldsHaveLength(s, bpm);
    }
  }

  /** Every timing point of every chart a maidata file loads to carries notes. */
  lemma LoadedPointsHaveNotes(lines: seq<string>)
    ensures LoadMaidata(lines).Ok? ==>
      forall d :: d in LoadMaidata(lines).value.difficultyCharts ==>
        SimaiScanner.AllHaveNotes(LoadMaidata(lines).value.difficultyCharts[d])
  {
    var simai := ChartLoader.SimaiOf(NoteGrammar.ParseNote);
    forall text: string, first: real | simai(text, first).Ok?
      ensures SimaiScanner.AllHaveNotes(simai(text, first).value)
    {
      SimaiScanner.PointsHaveNotes(text, first, NoteGrammar.ParseNote);
    }
    ChartLoader.LoadKeeps(lines, simai, ParseFloat, SimaiScanner.AllHaveNotes);
  }

  /** Every hold and touch hold of every chart a maidata file loads to has a non-zero length. */
  lemma LoadedHoldsHaveLength(lines: seq<string>)
    ensures LoadMaidata(lines).Ok? ==>
      forall d, k, j ::
        (d in LoadMaidata(lines).value.difficultyCharts &&
         0 <= k < |LoadMaidata(lines).value.difficultyCharts[d]| &&
         0 <= j < |LoadMaidata(lines).value.difficultyCharts[d][k].notes|) ==>
          NoteGrammar.HoldHasLength(LoadMaidata(lines).value.difficultyCharts[d][k].notes[j])
  {
    var simai := ChartLoader.SimaiOf(NoteGrammar.ParseNote);
    var lengthy := (points: seq<TimingPoint>) => SimaiScanner.PointsPass(points, NoteGrammar.HoldHasLength);
    ParseNoteHolds();
    forall text: string, first: real | simai(text, first).Ok?
      ensures lengthy(simai(text, first).value)
    {
      SimaiScanner.SimaiPasses(text, first, NoteGrammar.ParseNote, NoteGrammar.HoldHasLength);
    }
    ChartLoader.LoadKeeps(lines, simai, ParseFloat, lengthy);
  }

  // ---------------------------------------------------------------- tokenize_simai

  /** `tokenize_simai` on a chart's note text. */
  function TokenizeText(text: string): (s: Tokenizer.Stream)
    ensures forall k :: 0 <= k < |s.tokens| ==> Tokenizer.CleanGroup(s.tokens[k])
    ensures s.raised.Some? ==> s.raised == Some(ValueError) && exists p :: Tokenizer.Unterminated(text, p)
  {
    Tokenizer.GroupsAreClean(text, 0, ParseFloat, ParseInt);
    Tokenizer.RaisesOnlyAtGroups(text, 0, ParseFloat, ParseInt);
    Tokenizer.Tokenize(text, ParseFloat, ParseInt)
  }

  /**
    A text that opens with a whole-number tempo `(w)` tokenizes to
    `BPM(w)` followed by the tokens of the rest, read from after the `)`.
  */
  lemma TempoFirst(w: string, rest: string)
    requires w != [] && AllDigits(w)
    ensures var text := "(" + w + ")" + rest;
      TokenizeText(text) == Tokenizer.Cons(Some(Tokenizer.BPM(DigitsValue(w) as real)),
        Tokenizer.Run(text, |w| + 2, ParseFloat, ParseInt))
  {
    var text := "(" + w + ")" + rest;
    Enclosed(text, "(", w, ")", rest);
    TempoOpens(text, w);
  }

  /** A text that starts with `(`, the digits `w` and `)` tokenizes to `BPM` first. */
  lemma TempoOpens(text: string, w: string)
    requires w != [] && AllDigits(w) && |text| >= |w| + 2
    requires text[0] == '(' && text[1..|w| + 1] == w && text[|w| + 1] == ')'
    ensures TokenizeText(text) == Tokenizer.Cons(Some(Tokenizer.BPM(DigitsValue(w) as real)),
      Tokenizer.Run(text, |w| + 2, ParseFloat, ParseInt))
  {
    TempoPassFirst(text, w);
    assert Tokenizer.Run(text, 0, ParseFloat, ParseInt)
      == Tokenizer.Cons(Some(Tokenizer.BPM(DigitsValue(w) as real)), Tokenizer.Run(text, |w| + 2, ParseFloat, ParseInt));
  }

  /** Where the pieces of `open + body + close + rest` sit. */
  lemma Enclosed(text: string, open: string, body: string, close: string, rest: string)
    requires |open| == 1 && |close| == 1 && text == open + body + close + rest
    ensures |text| >= |body| + 2 && text[0] == open[0] && text[1..|body| + 1] == body && text[|body| + 1] == close[0]
  {
    assert text[1..|body| + 1] == body;
  }

  /** The first pass over `(w)`: `BPM(float(w))`, resuming after the `)`. */
  lemma TempoPassFirst(text: string, w: string)
    requires w != [] && AllDigits(w) && |text| >= |w| + 2
    requires text[0] == '(' && text[1..|w| + 1] == w && text[|w| + 1] == ')'
    ensures Tokenizer.Step(text, 0, ParseFloat, ParseInt) == Ok(Tokenizer.Emit(Some(Tokenizer.BPM(DigitsValue(w) as real)), |w| + 2))
  {
    assert forall j :: 1 <= j < |w| + 1 ==> text[j] == w[j - 1];
    FindAnyIs(text, 1, ")", |w| + 1);
    assert Tokenizer.Directive(text, 0, ')') == w;
    ParseFloatWhole(w);
  }

  /** A `{n}` division directive with digits `n` opening the text tokenizes to `Division(n)`. */
  lemma DivisionFirst(n: string, rest: string)
    requires n != [] && AllDigits(n)
    ensures var text := "{" + n + "}" + rest;
      TokenizeText(text) == Tokenizer.Cons(Some(Tokenizer.Division(DigitsValue(n) as int)),
        Tokenizer.Run(text, |n| + 2, ParseFloat, ParseInt))
  {
    var text := "{" + n + "}" + rest;
    Enclosed(text, "{", n, "}", rest);
    DivisionOpens(text, n);
  }

  /** A text that starts with `{`, the digits `n` and `}` tokenizes to `Division` first. */
  lemma DivisionOpens(text: string, n: string)
    requires n != [] && AllDigits(n) && |text| >= |n| + 2
    requires text[0] == '{' && text[1..|n| + 1] == n && text[|n| + 1] == '}'
    ensures TokenizeText(text) == Tokenizer.Cons(Some(Tokenizer.Division(DigitsValue(n) as int)),
      Tokenizer.Run(text, |n| + 2, ParseFloat, ParseInt))
  {
    DivisionPassFirst(text, n);
    assert Tokenizer.Run(text, 0, ParseFloat, ParseInt)
      == Tokenizer.Cons(Some(Tokenizer.Division(DigitsValue(n) as int)), Tokenizer.Run(text, |n| + 2, ParseFloat, ParseInt));
  }

  /** The first pass over `{n}`: `Division(int(n))`, resuming after the `}`. */
  lemma DivisionPassFirst(text: string, n: string)
    requires n != [] && AllDigits(n) && |text| >= |n| + 2
    requires text[0] == '{' && text[1..|n| + 1] == n && text[|n| + 1] == '}'
    ensures Tokenizer.Step(text, 0, ParseFloat, ParseInt) == Ok(Tokenizer.Emit(Some(Tokenizer.Division(DigitsValue(n) as int)), |n| + 2))
  {
    assert forall j :: 1 <= j < |n| + 1 ==> text[j] == n[j - 1];
    FindAnyIs(text, 1, "}", |n| + 1);
    assert Tokenizer.Directive(text, 0, '}') == n;
    ParseIntDigits(n);
  }
}
