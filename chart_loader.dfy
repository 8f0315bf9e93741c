/**
  The `&`-line dispatch of `ChartLoader.load_chart`, over the lines of a
  maidata file already read into memory. Each stripped line is looked at
  once: the `&title=`, `&artist=`, `&des=`, `&first=` and `&lv_N=` lines set
  metadata, an `&inote_N=` line starts a block of raw chart lines that runs
  to the next line starting with `&` and is handed to the chart scanner,
  other `&` lines are kept as "other commands", and every other line is
  skipped.
*/
module ChartLoader {
  import opened Py
  import opened ChartModel
  import opened NoteGroups
  import opened SimaiScanner

  predicate StartsWith(s: string, p: string) {
    |p| <= |s| && s[..|p|] == p
  }

  // ---------------------------------------------------------------- _get_value

  /** `_get_value`: the text after the first `=`, or "" when there is none. */
  function GetValue(line: string): (r: string)
    ensures '=' !in line ==> r == ""
    ensures '=' in line ==>
      |r| < |line| && line[|line| - |r| - 1] == '=' && r == line[|line| - |r|..] && '=' !in line[..|line| - |r| - 1]
  {
    var k := FindAny(line, 0, "=");
    if k < |line| then
      assert line[..k] == line[..|line| - |line[k + 1..]| - 1];
      assert forall j :: 0 <= j < k ==> line[..k][j] == line[j];
      line[k + 1..]
    else ""
  }

  /** The value of a `key=value` line whose key has no `=` is the value. */
  lemma GetValueOfKey(key: string, value: string)
    requires '=' !in key
    ensures GetValue(key + "=" + value) == value
  {
    var line := key + "=" + value;
    assert line[|key|] == '=';
    assert forall j :: 0 <= j < |key| ==> line[j] == key[j];
    FindAnyIs(line, 0, "=", |key|);
    assert line[|key| + 1..] == value;
  }

  // ---------------------------------------------------------------- the patterns

  /**
    `re.match(r"&lv_(\d)=(.+)", line)`: the level index (the digit less one)
    and the level text, which runs to the first newline and is not empty.
  */
  function LevelMatch(line: string): (m: Option<(int, string)>)
    ensures m.Some? ==> m.value.1 != [] && '\n' !in m.value.1 && StartsWith(line, "&lv_")
    ensures m.Some? ==> -1 <= m.value.0 <= 8
  {
    if StartsWith(line, "&lv_") && |line| >= 6 && IsDigit(line[4]) && line[5] == '=' then
      var rest := line[6..];
      var text := rest[..FindAny(rest, 0, "\n")];
      if text == [] then None else Some((DigitValue(line[4]) - 1, text))
    else None
  }

  /** A level line reads back the digit and the text that were written. */
  lemma LevelMatchOf(d: char, text: string)
    requires IsDigit(d) && text != [] && '\n' !in text
    ensures LevelMatch("&lv_" + [d] + "=" + text) == Some((DigitValue(d) - 1, text))
  {
    var line := "&lv_" + [d] + "=" + text;
    assert line[..4] == "&lv_" && line[4] == d && line[5] == '=';
    assert line[6..] == text;
    FindAnyIs(text, 0, "\n", |text|);
    assert text[..|text|] == text;
  }

  /** `re.match(r"&inote_(\d)=", line)`: the difficulty index (the digit less one). */
  function NoteMatch(line: string): (m: Option<int>)
    ensures m.Some? ==> StartsWith(line, "&inote_") && -1 <= m.value <= 8
  {
    if StartsWith(line, "&inote_") && |line| >= 9 && IsDigit(line[7]) && line[8] == '=' then
      Some(DigitValue(line[7]) - 1)
    else None
  }

  /** An `&inote_` line reads back the digit that was written. */
  lemma NoteMatchOf(d: char, value: string)
    requires IsDigit(d)
    ensures NoteMatch("&inote_" + [d] + "=" + value) == Some(DigitValue(d) - 1)
  {
    var line := "&inote_" + [d] + "=" + value;
    assert line[..7] == "&inote_" && line[7] == d && line[8] == '=';
  }

  // ---------------------------------------------------------------- the chart block

  /** The first line at or after `j` that starts with `&`, or the number of lines. */
  function BlockEnd(lines: seq<string>, j: nat): (e: nat)
    requires j <= |lines|
    ensures j <= e <= |lines|
    ensures e < |lines| ==> StartsWith(lines[e], "&")
    ensures forall k :: j <= k < e ==> !StartsWith(lines[k], "&")
    decreases |lines| - j
  {
    if j == |lines| || StartsWith(lines[j], "&") then j else BlockEnd(lines, j + 1)
  }

  /** The lines joined as they are, each keeping its own line ending. */
  function Concat(ls: seq<string>): (s: string)
  {
    if ls == [] then "" else Concat(ls[..|ls| - 1]) + ls[|ls| - 1]
  }

  /** Every line of the block is in the chart text, in order. */
  lemma {:induction false} ConcatLength(ls: seq<string>)
    ensures |Concat(ls)| == if ls == [] then 0 else |Concat(ls[..|ls| - 1])| + |ls[|ls| - 1]|
    ensures forall k :: 0 <= k < |ls| ==> |ls[k]| <= |Concat(ls)|
  {
    if ls != [] {
      ConcatLength(ls[..|ls| - 1]);
      assert forall k :: 0 <= k < |ls| - 1 ==> ls[..|ls| - 1][k] == ls[k];
    }
  }

  // ---------------------------------------------------------------- the loop

  /** What `_parse_simai` does with a chart text and the current first-beat time. */
  type SimaiParser = (string, real) -> Outcome<seq<TimingPoint>>

  /**
    `_parse_simai` (corrected) over the note parser `parse`, as a chart
    parser; `load_chart` uses it with `NoteGrammar.ParseNote`, and
    `SimaiScanner.ParseSimai` is its code.
  */
  function SimaiOf(parse: NoteParser): SimaiParser
  {
    (text, first) => Simai(text, first, parse)
  }

  /** The loop's state: the line index, the metadata and the charts read so far. */
  datatype Loading = Loading(i: nat, metadata: ChartMetadata, charts: map<int, seq<TimingPoint>>)

  /** Seven level texts, and charts only under the difficulties 0..6. */
  predicate Valid(st: Loading) {
    |st.metadata.levels| == LevelCount && forall d :: d in st.charts ==> 0 <= d < LevelCount
  }

  function Initial(): (st: Loading)
    ensures Valid(st)
  {
    Loading(0, DefaultMetadata(), map[])
  }

  /** `&lv_N=text`: level N (1..7) takes the text; other lines change nothing. */
  function LevelStep(st: Loading, line: string): (r: Loading)
    requires Valid(st)
    ensures Valid(r) && r.i == st.i + 1 && r.charts == st.charts
  {
    var m := st.metadata;
    match LevelMatch(line)
    case Some((d, text)) =>
      if 0 <= d < LevelCount then st.(i := st.i + 1, metadata := m.(levels := m.levels[d := text]))
      else st.(i := st.i + 1)
    case None => st.(i := st.i + 1)
  }

  /**
    `&inote_N=value`: the chart text is the value and a newline followed by
    every raw line up to the next line starting with `&`; it is parsed with
    the current first-beat time and stored under difficulty N - 1 when
    that is 0..6. The loop resumes at the line that ended the block.
  */
  function NoteBlock(lines: seq<string>, st: Loading, line: string, d: int, simai: SimaiParser): (r: Outcome<Loading>)
    requires st.i < |lines| && Valid(st)
    ensures r.Ok? ==> Valid(r.value) && r.value.i == BlockEnd(lines, st.i + 1) && r.value.metadata == st.metadata
    ensures var points := simai(GetValue(line) + "\n" + Concat(lines[st.i + 1..BlockEnd(lines, st.i + 1)]), st.metadata.firstBeatTime);
      (r.Raise? <==> points.Raise?) &&
      (r.Ok? ==> r.value.charts == if 0 <= d < LevelCount then st.charts[d := points.value] else st.charts)
  {
    var e := BlockEnd(lines, st.i + 1);
    var text := GetValue(line) + "\n" + Concat(lines[st.i + 1..e]);
    match simai(text, st.metadata.firstBeatTime)
    case Raise(x) => Raise(x)
    case Ok(points) =>
      Ok(st.(i := e, charts := if 0 <= d < LevelCount then st.charts[d := points] else st.charts))
  }

  /** Which branch of the loop a stripped line takes; the keys are tried in this order. */
  datatype LineKind = TitleKey | ArtistKey | DesignerKey | FirstKey | LevelKey | NoteKey | OtherKey | NotCommand

  function Classify(line: string): (k: LineKind)
    ensures k == NotCommand <==> !StartsWith(line, "&")
  {
    if StartsWith(line, "&title=") then TitleKey
    else if StartsWith(line, "&artist=") then ArtistKey
    else if StartsWith(line, "&des=") then DesignerKey
    else if StartsWith(line, "&first=") then FirstKey
    else if StartsWith(line, "&lv_") then LevelKey
    else if StartsWith(line, "&inote_") then NoteKey
    else if StartsWith(line, "&") then OtherKey
    else NotCommand
  }

  /** One pass of the dispatch loop, on the stripped line `line`. */
  function StepOn(lines: seq<string>, st: Loading, line: string, simai: SimaiParser, toReal: string -> Option<real>): (r: Outcome<Loading>)
    requires st.i < |lines| && Valid(st)
    ensures r.Ok? ==> Valid(r.value) && st.i < r.value.i <= |lines|
    ensures Classify(line) != NoteKey ==> r.Ok? ==> r.value.i == st.i + 1 && r.value.charts == st.charts
  {
    var next := st.(i := st.i + 1);
    var m := st.metadata;
    match Classify(line)
    case TitleKey => Ok(next.(metadata := m.(title := GetValue(line))))
    case ArtistKey => Ok(next.(metadata := m.(artist := GetValue(line))))
    case DesignerKey => Ok(next.(metadata := m.(designer := GetValue(line))))
    case FirstKey =>
      (match toReal(GetValue(line))
       case None => Raise(ValueError)
       case Some(v) => Ok(next.(metadata := m.(firstBeatTime := v))))
    case LevelKey => Ok(LevelStep(st, line))
    case NoteKey =>
      (match NoteMatch(line)
       case None => Ok(next)
       case Some(d) => NoteBlock(lines, st, line, d, simai))
    case OtherKey => Ok(next.(metadata := m.(otherCommands := m.otherCommands + Strip(line) + "\n")))
    case NotCommand => Ok(next)
  }

  /** One pass of the loop (corrected): an `&inote_` line that does not match is skipped. */
  function Step(lines: seq<string>, st: Loading, simai: SimaiParser, toReal: string -> Option<real>): (r: Outcome<Loading>)
    requires st.i < |lines| && Valid(st)
    ensures r.Ok? ==> Valid(r.value) && st.i < r.value.i <= |lines|
  {
    StepOn(lines, st, Strip(lines[st.i]), simai, toReal)
  }

  /**
    One pass as written: on an `&inote_` line that does not match the
    pattern the loop continues without moving to the next line.
  */
  function StepAsWritten(lines: seq<string>, st: Loading, simai: SimaiParser, toReal: string -> Option<real>): (r: Outcome<Loading>)
    requires st.i < |lines| && Valid(st)
  {
    var line := Strip(lines[st.i]);
    if Classify(line) == NoteKey && NoteMatch(line).None? then Ok(st)
    else StepOn(lines, st, line, simai, toReal)
  }

  /** The loop run from `st` to the last line. */
  function Run(lines: seq<string>, st: Loading, simai: SimaiParser, toReal: string -> Option<real>): (r: Outcome<Loading>)
    requires st.i <= |lines| && Valid(st)
    ensures r.Ok? ==> Valid(r.value) && r.value.i == |lines|
    decreases |lines| - st.i
  {
    if st.i == |lines| then Ok(st)
    else
      match Step(lines, st, simai, toReal)
      case Raise(x) => Raise(x)
      case Ok(next) => Run(lines, next, simai, toReal)
  }

  /** `load_chart` (corrected) on the lines of a maidata file. */
  function Load(lines: seq<string>, simai: SimaiParser, toReal: string -> Option<real>): (r: Outcome<Chart>)
    ensures r.Ok? ==> |r.value.metadata.levels| == LevelCount
    ensures r.Ok? ==> forall d :: d in r.value.difficultyCharts ==> 0 <= d < LevelCount
  {
    match Run(lines, Initial(), simai, toReal)
    case Raise(x) => Raise(x)
    case Ok(st) => Ok(Chart(st.metadata, st.charts))
  }

  // ---------------------------------------------------------------- properties

  /** A key ending in a digit has no `=` when its stem has none. */
  lemma NoEquals(stem: string, d: char)
    requires '=' !in stem && IsDigit(d)
    ensures '=' !in stem + [d]
  {
    assert forall c :: c in stem + [d] ==> c in stem || c == d;
  }

  /** `key + rest` starts with `key`. */
  lemma KeyPrefix(key: string, rest: string)
    ensures StartsWith(key + rest, key)
  {
    assert (key + rest)[..|key|] == key;
  }

  /** A line that differs from `p` at index `k` does not start with `p`. */
  lemma NotPrefix(line: string, p: string, k: nat)
    requires k < |p| && (k >= |line| || line[k] != p[k])
    ensures !StartsWith(line, p)
  {
    if |p| <= |line| {
      assert line[..|p|][k] == line[k];
    }
  }

  /** A `&title=` line takes the title branch. */
  lemma TitleKeyLine(value: string)
    ensures Classify("&title=" + value) == TitleKey
  {
    KeyPrefix("&title=", value);
  }

  /** An `&artist=` line takes the artist branch. */
  lemma ArtistKeyLine(value: string)
    ensures Classify("&artist=" + value) == ArtistKey
  {
    var line := "&artist=" + value;
    KeyPrefix("&artist=", value);
    NotPrefix(line, "&title=", 1);
  }

  /** A `&des=` line takes the designer branch. */
  lemma DesignerKeyLine(value: string)
    ensures Classify("&des=" + value) == DesignerKey
  {
    var line := "&des=" + value;
    KeyPrefix("&des=", value);
    NotPrefix(line, "&title=", 1);
    NotPrefix(line, "&artist=", 1);
  }

  /** A `&first=` line takes the first-beat branch. */
  lemma FirstKeyLine(value: string)
    ensures Classify("&first=" + value) == FirstKey
  {
    var line := "&first=" + value;
    KeyPrefix("&first=", value);
    NotPrefix(line, "&title=", 1);
    NotPrefix(line, "&artist=", 1);
    NotPrefix(line, "&des=", 1);
  }

  /** A line `&lv_` + `rest` takes the level branch. */
  lemma LevelKeyLine(rest: string)
    ensures Classify("&lv_" + rest) == LevelKey
  {
    var line := "&lv_" + rest;
    KeyPrefix("&lv_", rest);
    NotPrefix(line, "&title=", 1);
    NotPrefix(line, "&artist=", 1);
    NotPrefix(line, "&des=", 1);
    NotPrefix(line, "&first=", 1);
  }

  /** A line `&inote_` + `rest` takes the chart-block branch. */
  lemma NoteKeyLine(rest: string)
    ensures Classify("&inote_" + rest) == NoteKey
  {
    var line := "&inote_" + rest;
    KeyPrefix("&inote_", rest);
    NotPrefix(line, "&title=", 1);
    NotPrefix(line, "&artist=", 1);
    NotPrefix(line, "&des=", 1);
    NotPrefix(line, "&first=", 1);
    NotPrefix(line, "&lv_", 1);
  }

  // The lemmas below are about one pass on the stripped line `line`;
  // `Step` makes that pass on `Strip(lines[st.i])`.

  /** A `&title=` line sets the title to the value and nothing else. */
  lemma TitleLine(lines: seq<string>, st: Loading, simai: SimaiParser, toReal: string -> Option<real>, value: string)
    requires st.i < |lines| && Valid(st)
    ensures StepOn(lines, st, "&title=" + value, simai, toReal)
      == Ok(st.(i := st.i + 1, metadata := st.metadata.(title := value)))
  {
    TitleKeyLine(value);
    GetValueOfKey("&title", value);
    assert "&title" + "=" + value == "&title=" + value;
  }

  /** An `&artist=` line sets the artist to the value and nothing else. */
  lemma ArtistLine(lines: seq<string>, st: Loading, simai: SimaiParser, toReal: string -> Option<real>, value: string)
    requires st.i < |lines| && Valid(st)
    ensures StepOn(lines, st, "&artist=" + value, simai, toReal)
      == Ok(st.(i := st.i + 1, metadata := st.metadata.(artist := value)))
  {
    ArtistKeyLine(value);
    GetValueOfKey("&artist", value);
    assert "&artist" + "=" + value == "&artist=" + value;
  }

  /** A `&des=` line sets the designer to the value and nothing else. */
  lemma DesignerLine(lines: seq<string>, st: Loading, simai: SimaiParser, toReal: string -> Option<real>, value: string)
    requires st.i < |lines| && Valid(st)
    ensures StepOn(lines, st, "&des=" + value, simai, toReal)
      == Ok(st.(i := st.i + 1, metadata := st.metadata.(designer := value)))
  {
    DesignerKeyLine(value);
    GetValueOfKey("&des", value);
    assert "&des" + "=" + value == "&des=" + value;
  }

  /** `&first=`: the first-beat time becomes what `float()` makes of the value, which must parse. */
  lemma FirstLine(lines: seq<string>, st: Loading, simai: SimaiParser, toReal: string -> Option<real>, value: string)
    requires st.i < |lines| && Valid(st)
    ensures toReal(value).None? ==> StepOn(lines, st, "&first=" + value, simai, toReal) == Raise(ValueError)
    ensures toReal(value).Some? ==>
      StepOn(lines, st, "&first=" + value, simai, toReal)
        == Ok(st.(i := st.i + 1, metadata := st.metadata.(firstBeatTime := toReal(value).value)))
  {
    FirstKeyLine(value);
    GetValueOfKey("&first", value);
    assert "&first" + "=" + value == "&first=" + value;
  }

  /** `&lv_N=text` with N in 1..7 sets level N - 1 to the text and nothing else. */
  lemma LevelLine(lines: seq<string>, st: Loading, simai: SimaiParser, toReal: string -> Option<real>, d: char, text: string)
    requires st.i < |lines| && Valid(st)
    requires '1' <= d <= '7' && text != [] && '\n' !in text
    ensures StepOn(lines, st, "&lv_" + [d] + "=" + text, simai, toReal)
      == Ok(st.(i := st.i + 1, metadata := st.metadata.(levels := st.metadata.levels[DigitValue(d) - 1 := text])))
  {
    LevelKeyLine([d] + "=" + text);
    assert "&lv_" + ([d] + "=" + text) == "&lv_" + [d] + "=" + text;
    LevelMatchOf(d, text);
  }

  /** A line that does not start with `&` is skipped: only the line index moves. */
  lemma PlainLine(lines: seq<string>, st: Loading, line: string, simai: SimaiParser, toReal: string -> Option<real>)
    requires st.i < |lines| && Valid(st) && (line == [] || line[0] != '&')
    ensures StepOn(lines, st, line, simai, toReal) == Ok(st.(i := st.i + 1))
  {
    NotPrefix(line, "&", 0);
  }

  /**
    An `&inote_N=` line with N a digit opens a chart block for difficulty
    N - 1 (which `NoteBlock` stores only for 0..6).
  */
  lemma NoteLine(lines: seq<string>, st: Loading, simai: SimaiParser, toReal: string -> Option<real>, d: char, value: string)
    requires st.i < |lines| && Valid(st) && IsDigit(d)
    ensures StepOn(lines, st, "&inote_" + [d] + "=" + value, simai, toReal)
      == NoteBlock(lines, st, "&inote_" + [d] + "=" + value, DigitValue(d) - 1, simai)
  {
    NoteKeyLine([d] + "=" + value);
    assert "&inote_" + ([d] + "=" + value) == "&inote_" + [d] + "=" + value;
    NoteMatchOf(d, value);
  }

  /** The value of an `&inote_N=` line is the text after its `=`. */
  lemma NoteLineValue(d: char, value: string)
    requires IsDigit(d)
    ensures GetValue("&inote_" + [d] + "=" + value) == value
  {
    NoEquals("&inote_", d);
    GetValueOfKey("&inote_" + [d], value);
    assert ("&inote_" + [d]) + "=" + value == "&inote_" + [d] + "=" + value;
  }

  /** Any other `&` line is appended, stripped and with a newline, to the other commands. */
  lemma OtherLine(lines: seq<string>, st: Loading, raw: string, simai: SimaiParser, toReal: string -> Option<real>)
    requires st.i < |lines| && Valid(st) && Classify(Strip(raw)) == OtherKey
    ensures StepOn(lines, st, Strip(raw), simai, toReal) == Ok(st.(i := st.i + 1,
      metadata := st.metadata.(otherCommands := st.metadata.otherCommands + Strip(raw) + "\n")))
  {
    StripClean(Strip(raw));
  }

  /** Every stored chart satisfies `ok`. */
  predicate ChartsAre(charts: map<int, seq<TimingPoint>>, ok: seq<TimingPoint> -> bool)
  {
    forall d :: d in charts ==> ok(charts[d])
  }

  /** Every chart that the scanner returns satisfies `ok`. */
  ghost predicate ScansAre(simai: SimaiParser, ok: seq<TimingPoint> -> bool)
  {
    forall text: string, first: real {:trigger simai(text, first)} :: simai(text, first).Ok? ==> ok(simai(text, first).value)
  }

  /** The loop stores only charts that the scanner returned. */
  lemma {:induction false} RunKeeps(lines: seq<string>, st: Loading, simai: SimaiParser, toReal: string -> Option<real>,
                                    ok: seq<TimingPoint> -> bool)
    requires st.i <= |lines| && Valid(st) && ScansAre(simai, ok) && ChartsAre(st.charts, ok)
    ensures Run(lines, st, simai, toReal).Ok? ==> ChartsAre(Run(lines, st, simai, toReal).value.charts, ok)
    decreases |lines| - st.i
  {
    if st.i < |lines| {
      var step := Step(lines, st, simai, toReal);
      if step.Ok? {
        var line := Strip(lines[st.i]);
        if Classify(line) == NoteKey && NoteMatch(line).Some? {
          var text := GetValue(line) + "\n" + Concat(lines[st.i + 1..BlockEnd(lines, st.i + 1)]);
          assert simai(text, st.metadata.firstBeatTime).Ok? ==> ok(simai(text, st.metadata.firstBeatTime).value);
        }
        RunKeeps(lines, step.value, simai, toReal, ok);
      }
    }
  }

  /**
    Every chart `load_chart` stores is one the chart scanner returned:
    whatever the scanner promises of its result holds of each difficulty.
  */
  lemma LoadKeeps(lines: seq<string>, simai: SimaiParser, toReal: string -> Option<real>, ok: seq<TimingPoint> -> bool)
    requires ScansAre(simai, ok)
    ensures Load(lines, simai, toReal).Ok? ==> ChartsAre(Load(lines, simai, toReal).value.difficultyCharts, ok)
  {
    RunKeeps(lines, Initial(), simai, toReal, ok);
  }

  /** The loop as written stands still on an `&inote_` line that does not match its pattern. */
  lemma NoteLineStallsAsWritten(lines: seq<string>, st: Loading, simai: SimaiParser, toReal: string -> Option<real>)
    requires st.i < |lines| && Valid(st)
    requires Classify(Strip(lines[st.i])) == NoteKey && NoteMatch(Strip(lines[st.i])).None?
    ensures StepAsWritten(lines, st, simai, toReal) == Ok(st)
    ensures Step(lines, st, simai, toReal) == Ok(st.(i := st.i + 1))
  {
  }

  /** For example the line `&inote_x=`, whose digit is missing. */
  lemma NoteLineWithoutDigit(value: string)
    ensures Classify("&inote_x=" + value) == NoteKey && NoteMatch("&inote_x=" + value).None?
  {
    var line := "&inote_x=" + value;
    NoteKeyLine("x=" + value);
    assert line == "&inote_" + ("x=" + value);
    assert line[7] == 'x';
  }

  // ---------------------------------------------------------------- the code

  /** The inner loop that reads the raw lines of an `&inote_` block. */
  method ReadBlock(lines: seq<string>, from: nat) returns (text: string, e: nat)
    requires from <= |lines|
    ensures e == BlockEnd(lines, from) && text == Concat(lines[from..e])
  {
    e := from;
    text := "";
    assert lines[from..from] == [];
    while e < |lines|
      invariant from <= e <= |lines|
      invariant BlockEnd(lines, e) == BlockEnd(lines, from)
      invariant text == Concat(lines[from..e])
      decreases |lines| - e
    {
      if StartsWith(lines[e], "&") {
        break;
      }
      assert lines[from..e + 1][..e - from] == lines[from..e];
      text := text + lines[e];
      e := e + 1;
    }
  }

  /** The `&inote_` branch with a matching line, as code. */
  method ReadNoteBlock(lines: seq<string>, st: Loading, line: string, d: int, simai: SimaiParser) returns (r: Outcome<Loading>)
    requires st.i < |lines| && Valid(st)
    ensures r == NoteBlock(lines, st, line, d, simai)
  {
    var body, e := ReadBlock(lines, st.i + 1);
    var chartText := GetValue(line) + "\n" + body;
    var points := simai(chartText, st.metadata.firstBeatTime);
    if points.Raise? {
      return Raise(points.exc);
    }
    var charts := st.charts;
    if 0 <= d < LevelCount {
      charts := charts[d := points.value];
    }
    r := Ok(st.(i := e, charts := charts));
  }

  /** One pass of the dispatch loop, as code. */
  method Dispatch(lines: seq<string>, st: Loading, simai: SimaiParser, toReal: string -> Option<real>) returns (r: Outcome<Loading>)
    requires st.i < |lines| && Valid(st)
    ensures r == Step(lines, st, simai, toReal)
  {
    var line := Strip(lines[st.i]);
    var m := st.metadata;
    var next := st.(i := st.i + 1);
    var kind := Classify(line);
    if kind == TitleKey {
      return Ok(next.(metadata := m.(title := GetValue(line))));
    }
    if kind == ArtistKey {
      return Ok(next.(metadata := m.(artist := GetValue(line))));
    }
    if kind == DesignerKey {
      return Ok(next.(metadata := m.(designer := GetValue(line))));
    }
    if kind == FirstKey {
      var v := toReal(GetValue(line));
      if v.None? {
        return Raise(ValueError);
      }
      return Ok(next.(metadata := m.(firstBeatTime := v.value)));
    }
    if kind == LevelKey {
      return Ok(LevelStep(st, line));
    }
    if kind == NoteKey {
      var d := NoteMatch(line);
      if d.None? {
        return Ok(next);
      }
      r := ReadNoteBlock(lines, st, line, d.value, simai);
      return;
    }
    if kind == OtherKey {
      return Ok(next.(metadata := m.(otherCommands := m.otherCommands + Strip(line) + "\n")));
    }
    r := Ok(next);
  }

  /** `load_chart`'s loop (corrected), over the lines of the file. */
  method LoadChart(lines: seq<string>, simai: SimaiParser, toReal: string -> Option<real>) returns (r: Outcome<Chart>)
    ensures r == Load(lines, simai, toReal)
  {
    var st := Initial();
    while st.i < |lines|
      invariant st.i <= |lines| && Valid(st)
      invariant Run(lines, st, simai, toReal) == Run(lines, Initial(), simai, toReal)
      decreases |lines| - st.i
    {
      var next := Dispatch(lines, st, simai, toReal);
      if next.Raise? {
        return Raise(next.exc);
      }
      st := next.value;
    }
    r := Ok(Chart(st.metadata, st.charts));
  }
}
