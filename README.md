# mai-renderer core, modelled in Dafny

mai-renderer turns a maimai chart written in simai notation (a `maidata.txt`
file) into audio and into the JSON interchange format that the Majdata
viewer reads. This project models the parts of it that compute, and proves
what they promise:

- **Chart loading** (`mai_renderer/chart_loader.py`). The line-by-line reader
  of `maidata.txt` (title, artist, designer, first-beat time, the seven level
  texts, one `&inote_N=` chart block per difficulty). The simai scanner that
  turns a chart block into timing points: `(bpm)`, `{division}`, `,` and
  note groups. The parsers of note groups (EACH with `/`, pseudo-EACH with
  backticks), of single notes (tap, hold, touch, touch-hold and their
  modifiers), of slides with one or more chained tracks, and of the bracket
  timings `[D:C]`, `[B#D:C]` and `[W##...]`.
- **The standalone tokenizer** (`mai_renderer/simai/tokenizer.py`). A second
  scan of the same text that yields BPM, division, note-group and
  advance-time tokens.
- **Sound scheduling** (`mai_renderer/sound_timing.py`). The table of sound
  events keyed by millisecond that `SoundTimingGenerator.generate` fills from
  the chart's notes, and the sorted list it returns.
- **Effect selection** (`mai_renderer/sound/render.py`,
  `_get_effects_from_timing`). The list of sound effects, with volumes, that
  one sound event plays.
- **The interchange records** (`mai_renderer/renderer.py` and
  `mai_renderer/majdata/json.py`). Note, timing-point and chart records; the
  difficulty names; the cleaning of note text; `generate_majson` in both
  copies; and the `to_dict` conversions.

The module `Maidata` puts the parts together: `load_chart` over the chart
scanner, the note-group parser and the note grammar, and `tokenize_simai`
over `float()` and `int()`. It proves the parts' properties of the whole,
such as "every hold of every loaded chart has a length".

The Python integers and floats are modelled as Dafny `int` and `real`.
Exceptions the code can raise are modelled as the outcome `Py.Outcome`, which
is either `Ok(value)` or `Raise(ValueError | ZeroDivisionError |
UnboundLocalError)`. The loops of the source are written as Dafny methods
with loop invariants. Each method is proved equal to a specification
function, and the properties are proved as lemmas about those functions.

Three facts about the code that shape the model:

- `_parse_beat_value` computes the example values its docstring gives, and
  `BracketExamples` proves them: `4:5` at 120 BPM is 2.5 seconds, `8:3` is
  0.75 seconds and `1:1` is 2 seconds.
- `_parse_simai` appends one timing point for each note group that yields
  notes. Two groups at the same time give two timing points, and the model
  does the same.
- `majdata/json.py` imports its `Chart` from `mai_renderer/simai/loader.py`.
  That file is not part of this model. Its `Chart` is taken to have the
  shape `chart_loader.py` defines.

## Model

| member | source | states |
|---|---|---|
| `Py.Div` | mai_renderer/chart_loader.py:846 | Float division raises ZeroDivisionError exactly for a zero divisor; otherwise the quotient times the divisor gives back the dividend |
| `Py.Strip` | mai_renderer/chart_loader.py:89 | `str.strip()`: the result neither starts nor ends with whitespace, and is the slice between the first and the last non-blank character (empty only for an all-blank string) |
| `Py.StripClean` | mai_renderer/chart_loader.py:349 | Stripping a string that has no surrounding whitespace gives it back |
| `Py.SplitOn` | mai_renderer/chart_loader.py:347 | `str.split(sep)` gives one part more than there are separators, and no part holds the separator |
| `Py.SplitJoin` | mai_renderer/chart_loader.py:347 | Joining the parts of `split(sep)` with `sep` gives back the original string |
| `Py.SplitOnPair` | mai_renderer/chart_loader.py:849-850 | `a:b` with no `:` in either side splits into exactly `[a, b]` |
| `Py.FindAny` | mai_renderer/chart_loader.py:341-342 | The first index at or after the start holding one of the delimiters, or the length when there is none |
| `Py.FindSub` | mai_renderer/chart_loader.py:888-889 | The first index where a separator such as `##` occurs, or the length when it does not occur |
| `Py.ParseFloatWhole` | mai_renderer/chart_loader.py:852-853 | `float()` of a string of digits is the number those digits spell |
| `Py.ParseFloat` | mai_renderer/chart_loader.py:852-853 | Python's `float()` on decimal literals: surrounding whitespace, an optional sign, digits with an optional `.` and a fraction, at least one digit; anything else is a ValueError (`None`). `ParseFloatWhole` and `ParseFloatDecimal` state its values |
| `Py.ParseFloatDecimal` | mai_renderer/chart_loader.py:852-853 | `float()` of `w.f` is the whole digits plus the fraction digits |
| `Py.ParseIntDigits` | mai_renderer/chart_loader.py:234 | `int()` of a string of digits is the number those digits spell |
| `Py.ParseInt` | mai_renderer/chart_loader.py:234 | Python's `int()`: surrounding whitespace, an optional sign, one or more digits, else ValueError (`None`). `ParseIntDigits`, `ParseIntNegDigits` and `IntToStringRoundTrip` state its values |
| `Py.IsDigit` | mai_renderer/chart_loader.py:536 | `str.isdigit()` for the ASCII digits `0`..`9`; the non-ASCII digits Python also accepts are listed under Left out |
| `Py.ParseIntNegDigits` | mai_renderer/chart_loader.py:234 | `int()` of `-` followed by digits is the negated number |
| `Py.IntToStringRoundTrip` | mai_renderer/chart_loader.py:471 | `int(str(n)) == n` for every integer |
| `Py.CountAppend` | mai_renderer/chart_loader.py:850 | The number of occurrences of a character in a concatenation is the sum over the parts |
| `Py.Count` | mai_renderer/chart_loader.py:849-850 | The occurrences of a character, the number of separators `split` cuts at: at most the length, and zero exactly when the character is absent |
| `Py.IntToString` | mai_renderer/chart_loader.py:471 | `str(n)` of an integer is never empty |
| `Py.NatToStringValue` | mai_renderer/chart_loader.py:471 | The decimal digits `str(n)` writes for a natural number have the value `n` |
| `ChartModel.DefaultNote` | mai_renderer/chart_loader.py:11-32 | A note built from a kind, a position and its text has every optional field at its dataclass default |
| `ChartModel.DefaultMetadata` | mai_renderer/chart_loader.py:46-55 | Fresh metadata has seven empty level texts, first-beat time 0 and no other commands |
| `BracketTiming.BeatParts` | mai_renderer/chart_loader.py:848-853 | Two numbers are read only from a `D:C` string with exactly one `:`, each side accepted by `float()` |
| `BracketTiming.BeatSeconds` | mai_renderer/chart_loader.py:846-854 | `(60 / bpm) * 4 / D * C` raises ZeroDivisionError exactly when the tempo or D is zero |
| `BracketTiming.ParseBeatValue` | mai_renderer/chart_loader.py:824-858 | `_parse_beat_value`: a zero tempo always raises; a bracket without exactly one `:` is 0.0; the only other error is ZeroDivisionError, for a zero D |
| `BracketTiming.BeatSecondsFormula` | mai_renderer/chart_loader.py:846-854 | `D:C` at `bpm` lasts `240 C / (bpm D)` seconds: C notes of a 1/D measure of four beats |
| `BracketTiming.BeatSecondsTimesTempo` | mai_renderer/chart_loader.py:846-854 | The seconds of `D:C` times the tempo do not depend on the tempo |
| `BracketTiming.BeatPartsOfSplit` | mai_renderer/chart_loader.py:849-853 | A string that splits into two numbers around `:` reads exactly those numbers |
| `BracketTiming.LiteralPairSplits` | mai_renderer/chart_loader.py:845-850 | `d:c` with no `:` in either side and no surrounding blanks is its own strip and splits back into `d` and `c` |
| `BracketTiming.BeatPartsOfLiterals` | mai_renderer/chart_loader.py:845-853 | `D:C` written with two plain decimal literals reads those two numbers |
| `BracketTiming.BeatValueFormula` | mai_renderer/chart_loader.py:845-854 | `_parse_beat_value("D:C", bpm)` is `240 C / (bpm D)` for literals D, C and non-zero bpm and D |
| `BracketTiming.BeatValueOfSplit` | mai_renderer/chart_loader.py:845-854 | Any bracket that reads as `(D, C)` gives `240 C / (bpm D)` |
| `BracketTiming.ParseBeatValueOfParts` | mai_renderer/chart_loader.py:845-854 | A bracket that reads as two numbers gives their beat length at the tempo |
| `BracketTiming.ZeroDivisorRaises` | mai_renderer/chart_loader.py:852-856 | A bracket `0:C` raises ZeroDivisionError: the `except ValueError` does not catch it |
| `BracketTiming.TempoKeepsOutcome` | mai_renderer/chart_loader.py:845-858 | Whether a bracket raises does not depend on the (non-zero) tempo |
| `BracketTiming.TempoScaling` | mai_renderer/chart_loader.py:845-858 | The value of a bracket scales inversely with the tempo: `x * bpm == y * other` |
| `BracketTiming.ZeroWhenUnsplit` | mai_renderer/chart_loader.py:848-858 | A bracket that does not read as two numbers is 0.0, and one whose D is zero raises |
| `BracketTiming.SlideDuration` | mai_renderer/chart_loader.py:938-947 | A duration without `:` is seconds (`float()`, or 0.0 when that fails); only ZeroDivisionError can escape |
| `BracketTiming.DurationAfterWait` | mai_renderer/chart_loader.py:899-922 | The duration after `W##` (empty, `B#...` at tempo B, or plain) can only raise ZeroDivisionError |
| `BracketTiming.AtTempo` | mai_renderer/chart_loader.py:925-947 | The `B#rest` form never lets ValueError escape; a B that does not parse keeps one beat at the current tempo as the wait |
| `BracketTiming.ParseSlideTiming` | mai_renderer/chart_loader.py:860-960 | `_parse_slide_timing`: a zero current tempo raises, and ValueError never escapes |
| `BracketTiming.SlideTimingOf` | mai_renderer/chart_loader.py:880-960 | `_parse_slide_timing` after its first `strip()`: the wait branch at `##`, the tempo branch at one `#`, else one beat of wait; a zero tempo raises and ValueError never escapes |
| `BracketTiming.WaitForm` | mai_renderer/chart_loader.py:888-922 | The `W##rest` form waits `float(W)` seconds, or one beat when W does not parse |
| `BracketTiming.WithWait` | mai_renderer/chart_loader.py:960 | The returned pair is the duration and the wait, or the duration's error |
| `BracketTiming.SlideTimingDefault` | mai_renderer/chart_loader.py:949-960 | Without `#`, the wait is one beat at the current tempo and the duration is the plain duration |
| `BracketTiming.SlideTimingWaitBranch` | mai_renderer/chart_loader.py:888-891 | A string holding `##` takes the wait branch, split at the first `##` |
| `BracketTiming.SlideTimingTempoBranch` | mai_renderer/chart_loader.py:925-928 | A string with `#` but no `##` takes the tempo branch, split at the first `#` |
| `BracketTiming.AtParsedTempo` | mai_renderer/chart_loader.py:931-941 | A tempo B that parses and is not zero waits one beat at B and measures the duration at B |
| `BracketTiming.TempoSplit` | mai_renderer/chart_loader.py:925-928 | How `B#rest` splits when neither side holds `#` or surrounding blanks |
| `BracketTiming.SlideTimingAtTempo` | mai_renderer/chart_loader.py:925-947 | `B#rest` gives `(duration of rest at B, 60 / B)` |
| `BracketTiming.SlideTimingWait` | mai_renderer/chart_loader.py:888-922 | `W##rest` gives `(duration of rest, float(W) or one beat)` |
| `BracketTiming.WaitThenTempo` | mai_renderer/chart_loader.py:901-913 | After `W##`, a `B#rest` duration is `rest` measured at tempo B |
| `BracketTiming.SlideTimingBeats` | mai_renderer/chart_loader.py:949-954 | `D:C` alone: one beat of wait and `240 C / (bpm D)` seconds of travel |
| `BracketTiming.SlideTimingAtTempoBeats` | mai_renderer/chart_loader.py:925-941 | `B#D:C`: one beat at B of wait and `240 C / (B D)` seconds of travel |
| `BracketExamples.FiveQuarters` | mai_renderer/chart_loader.py:832 | `4:5` at 120 BPM is 2.5 seconds |
| `BracketExamples.ThreeEighths` | mai_renderer/chart_loader.py:833 | `8:3` at 120 BPM is 0.75 seconds |
| `BracketExamples.WholeNote` | mai_renderer/chart_loader.py:834 | `1:1` at 120 BPM is 2 seconds |
| `BracketExamples.ThreeEighthsAt160` | mai_renderer/chart_loader.py:845-854 | `8:3` at 160 BPM (the tempo of the slide form `160#8:3`) is 0.5625 seconds |
| `BracketExamples.DefaultHoldLength` | mai_renderer/chart_loader.py:684-687 | The default hold bracket `1280:1` lasts `3 / (16 bpm)` seconds |
| `BracketExamples.HoldSeconds` | mai_renderer/chart_loader.py:846-854 | A 1280th note at any non-zero tempo lasts `3 / (16 bpm)` seconds |
| `BracketExamples.Literal1280` | mai_renderer/chart_loader.py:852 | `float("1280")` is 1280 |
| `BracketExamples.Whole` | mai_renderer/chart_loader.py:852-853 | A digit string is a plain literal whose float is its value |
| `BracketExamples.Digit` | mai_renderer/chart_loader.py:852-853 | A one-digit literal reads as that digit |
| `ChartLoader.GetValue` | mai_renderer/chart_loader.py:152-158 | `_get_value`: the text after the first `=`, or "" when the line has none |
| `ChartLoader.GetValueOfKey` | mai_renderer/chart_loader.py:152-158 | The value of a `key=value` line whose key has no `=` is exactly `value` |
| `ChartLoader.LevelMatch` | mai_renderer/chart_loader.py:114-116 | `re.match(r"&lv_(\d)=(.+)")`: a match gives the digit less one and a non-empty one-line text |
| `ChartLoader.LevelMatchOf` | mai_renderer/chart_loader.py:114-116 | A level line reads back the digit and the text written in it |
| `ChartLoader.NoteMatch` | mai_renderer/chart_loader.py:124-126 | `re.match(r"&inote_(\d)=")`: a match gives the digit less one |
| `ChartLoader.NoteMatchOf` | mai_renderer/chart_loader.py:124-126 | An `&inote_N=` line reads back N less one |
| `ChartLoader.BlockEnd` | mai_renderer/chart_loader.py:130-134 | The chart block ends at the first following line that starts with `&`, or at the end of the file |
| `ChartLoader.ConcatLength` | mai_renderer/chart_loader.py:133 | Every line of the block is kept whole in the chart text |
| `ChartLoader.Initial` | mai_renderer/chart_loader.py:84-87 | The loop starts at line 0 with fresh metadata and no charts |
| `ChartLoader.LevelStep` | mai_renderer/chart_loader.py:112-120 | `&lv_N=text` sets level N-1 for N in 1..7 and nothing else; the line index moves by one |
| `ChartLoader.NoteBlock` | mai_renderer/chart_loader.py:122-142 | A matching `&inote_N=` line parses its value followed by the block's raw lines, stores the result only for N in 1..7, and resumes at the block's end |
| `ChartLoader.Classify` | mai_renderer/chart_loader.py:92-146 | Which branch a stripped line takes; a line not starting with `&` takes none |
| `ChartLoader.StepOn` | mai_renderer/chart_loader.py:88-148 | One pass of the dispatch loop moves forward and keeps the loading state valid; only an `&inote_` line touches the charts |
| `ChartLoader.Step` | mai_renderer/chart_loader.py:88-148 | One pass (corrected) always moves forward |
| `ChartLoader.Run` | mai_renderer/chart_loader.py:88-148 | The loop runs to the last line, keeping the state valid |
| `ChartLoader.Load` | mai_renderer/chart_loader.py:71-150 | `load_chart` (corrected): seven level texts, and charts only under difficulties 0..6 |
| `ChartLoader.SimaiOf` | mai_renderer/chart_loader.py:137 | The chart parser `load_chart` calls, `_parse_simai` over a given note parser; `Maidata.LoadMaidata` passes `NoteGrammar.ParseNote` |
| `ChartLoader.StepAsWritten` | mai_renderer/chart_loader.py:122-142 | One pass of the loop as written: an `&inote_` line that does not match its pattern leaves the state as it was, and every other line is the corrected pass; `NoteLineStallsAsWritten` states the difference |
| `ChartLoader.RunKeeps` | mai_renderer/chart_loader.py:88-148 | The loop stores under a difficulty only a chart the scanner returned, so whatever the scanner promises of every chart it returns holds of every stored chart |
| `ChartLoader.LoadKeeps` | mai_renderer/chart_loader.py:71-150 | The same of `load_chart`: every chart of the result is one the scanner returned |
| `ChartLoader.TitleKeyLine` | mai_renderer/chart_loader.py:92 | A `&title=` line takes the title branch |
| `ChartLoader.ArtistKeyLine` | mai_renderer/chart_loader.py:97 | An `&artist=` line takes the artist branch |
| `ChartLoader.DesignerKeyLine` | mai_renderer/chart_loader.py:102 | A `&des=` line takes the designer branch |
| `ChartLoader.FirstKeyLine` | mai_renderer/chart_loader.py:107 | A `&first=` line takes the first-beat branch |
| `ChartLoader.LevelKeyLine` | mai_renderer/chart_loader.py:112 | A line starting `&lv_` takes the level branch |
| `ChartLoader.NoteKeyLine` | mai_renderer/chart_loader.py:122 | A line starting `&inote_` takes the chart-block branch |
| `ChartLoader.TitleLine` | mai_renderer/chart_loader.py:92-95 | A `&title=` line sets the title to its value and changes nothing else |
| `ChartLoader.ArtistLine` | mai_renderer/chart_loader.py:97-100 | An `&artist=` line sets the artist to its value and changes nothing else |
| `ChartLoader.DesignerLine` | mai_renderer/chart_loader.py:102-105 | A `&des=` line sets the designer to its value and changes nothing else |
| `ChartLoader.FirstLine` | mai_renderer/chart_loader.py:107-110 | `&first=` sets the first-beat time to `float()` of the value, and raises ValueError when that fails |
| `ChartLoader.LevelLine` | mai_renderer/chart_loader.py:112-120 | `&lv_N=text` with N in 1..7 sets level N-1 to the text and changes nothing else |
| `ChartLoader.PlainLine` | mai_renderer/chart_loader.py:144-148 | A line not starting with `&` only moves the line index |
| `ChartLoader.NoteLine` | mai_renderer/chart_loader.py:122-142 | An `&inote_N=` line reads its block and stores the parsed points under N-1 when that is 0..6 |
| `ChartLoader.NoteLineValue` | mai_renderer/chart_loader.py:127 | The value of an `&inote_N=` line is the text after its `=` |
| `ChartLoader.OtherLine` | mai_renderer/chart_loader.py:144-148 | Any other `&` line is appended, stripped and followed by a newline, to the other commands |
| `ChartLoader.NoteLineStallsAsWritten` | mai_renderer/chart_loader.py:122-142 | As written, an `&inote_` line that does not match leaves the whole state unchanged, so the loop never ends; the corrected step moves on one line |
| `ChartLoader.NoteLineWithoutDigit` | mai_renderer/chart_loader.py:124 | `&inote_x=` is such a line: it takes the chart-block branch but does not match |
| `ChartLoader.ReadBlock` | mai_renderer/chart_loader.py:130-134 | The inner loop stops at the block's end and has collected exactly the block's raw lines |
| `ChartLoader.ReadNoteBlock` | mai_renderer/chart_loader.py:124-142 | The `&inote_` branch as code computes `NoteBlock` |
| `ChartLoader.Dispatch` | mai_renderer/chart_loader.py:89-148 | One pass of the loop as code computes the corrected `Step` |
| `ChartLoader.LoadChart` | mai_renderer/chart_loader.py:84-150 | The loop as code computes `Load` |
| `SimaiScanner.Tick` | mai_renderer/chart_loader.py:242 | One `,` adds `60 / bpm * (4 / beats)` seconds, and raises ZeroDivisionError exactly when either is zero |
| `SimaiScanner.TickLength` | mai_renderer/chart_loader.py:242 | A tick times the tempo times the division is 240; it is positive when both are |
| `SimaiScanner.CloseAt` | mai_renderer/chart_loader.py:216-218 | The directive ends at its closing bracket or at the end of the text, after the opening one |
| `SimaiScanner.NewTempo` | mai_renderer/chart_loader.py:219-222 | The tempo after `(content)` is `float(content)`, or the old tempo when that fails |
| `SimaiScanner.NewDivision` | mai_renderer/chart_loader.py:233-236 | The division after `{content}` is `int(content)`, or the old division when that fails |
| `SimaiScanner.TempoStep` | mai_renderer/chart_loader.py:213-224 | `(bpm)` replaces the tempo with what `float()` accepts and resumes after `)` |
| `SimaiScanner.DivisionStep` | mai_renderer/chart_loader.py:227-238 | `{beats}` replaces the division with what `int()` accepts and resumes after `}` |
| `SimaiScanner.PlainStep` | mai_renderer/chart_loader.py:193-250 | A pass that is not a note group adds no timing point, and changes the tempo only at `(`, the division only at `{` and the time only at `,` |
| `SimaiScanner.GroupStep` | mai_renderer/chart_loader.py:253-268 | A note-group pass keeps the time, tempo and division |
| `SimaiScanner.GroupsAdvance` | mai_renderer/chart_loader.py:289-361 | The corrected group parser always moves forward from a note start and never past the end of the text, so the scanner over it terminates |
| `SimaiScanner.Step` | mai_renderer/chart_loader.py:189-270 | With an advancing group parser, every pass moves forward |
| `SimaiScanner.Run` | mai_renderer/chart_loader.py:189-272 | The `while i < len(simai_text)` loop from a state to the end of the text, returning the points collected; `RunExtends` and `RunPasses` state what it gives |
| `SimaiScanner.Groups` | mai_renderer/chart_loader.py:289-361 | `_parse_note_group` over a note parser, with the stall corrected, as the scanner's group parser; `GroupsAdvance` states that it moves forward |
| `SimaiScanner.Corrected` | mai_renderer/chart_loader.py:220-254 | The scanner's callees: `Groups(parse)`, `float()` for `(bpm)` and `int()` for `{beats}`; `PassAsWrittenUnlessStalled` relates it to `AsWritten` |
| `SimaiScanner.PlainAt` | mai_renderer/chart_loader.py:253 | Away from a note start, a pass is a plain one |
| `SimaiScanner.TempoPass` | mai_renderer/chart_loader.py:213 | At `(`, a pass is the tempo pass |
| `SimaiScanner.DivisionPass` | mai_renderer/chart_loader.py:227 | At `{`, a pass is the division pass |
| `SimaiScanner.TimeOnlyAtComma` | mai_renderer/chart_loader.py:241-244 | Only a `,` moves the clock, and by exactly one tick |
| `SimaiScanner.CommaRaises` | mai_renderer/chart_loader.py:241-244 | A `,` raises ZeroDivisionError exactly when the tempo or the division is zero |
| `SimaiScanner.TempoOnlyAtParen` | mai_renderer/chart_loader.py:212-224 | The tempo changes only at `(`; there it becomes `float()` of the content or stays |
| `SimaiScanner.DivisionOnlyAtBrace` | mai_renderer/chart_loader.py:226-238 | The division changes only at `{`; there it becomes `int()` of the content or stays |
| `SimaiScanner.PointPerGroup` | mai_renderer/chart_loader.py:252-268 | A timing point is added exactly for a note group that yields notes, with the clock's time and tempo and the group's line and column |
| `SimaiScanner.RunExtends` | mai_renderer/chart_loader.py:189-272 | The loop keeps the points collected so far in front, and every point it adds has notes |
| `SimaiScanner.PointsHaveNotes` | mai_renderer/chart_loader.py:257-265 | Every timing point of a parsed chart carries notes |
| `SimaiScanner.Simai` | mai_renderer/chart_loader.py:161-272 | `_parse_simai` over a note parser, with `_parse_note_group` corrected only at the groups where the code as written would rescan forever (`NoteGroups.CorrectedOnlyWhereStalled`), and `float()` and `int()` for the directives; `PointsHaveNotes`, `SimaiPasses` and `ParseSimai` state what it gives |
| `SimaiScanner.GroupsAsWritten` | mai_renderer/chart_loader.py:289-361 | `_parse_note_group` as written, as a group parser; `StallsForever` shows that it does not always advance |
| `SimaiScanner.AsWritten` | mai_renderer/chart_loader.py:161-272 | The scanner's callees as written: the stalling group parser, `float()` and `int()`; `StallsForever` shows the loop over them never ends at a stalling group |
| `SimaiScanner.RunPasses` | mai_renderer/chart_loader.py:189-272 | Every point the loop adds carries the notes the group parser returned, so a property of every note the group parser returns holds of every note of every point |
| `SimaiScanner.SimaiPasses` | mai_renderer/chart_loader.py:161-361 | Every note of every timing point of a chart is one the note parser returned: whatever the note parser promises of each note holds of the chart |
| `SimaiScanner.StallsForever` | mai_renderer/chart_loader.py:316-336 | As written, at an EACH group whose first member yields no note, a pass moves only the column and the next state stalls again |
| `SimaiScanner.PassAsWrittenUnlessStalled` | mai_renderer/chart_loader.py:253-268 | A pass over the corrected group parser equals the pass as written, except at a note start where the code as written reads an empty group ending at that start |
| `SimaiScanner.ReadDirective` | mai_renderer/chart_loader.py:214-218 | The inner loop collects the directive's text up to its closing bracket |
| `SimaiScanner.ReadTempo` | mai_renderer/chart_loader.py:213-224 | The `(bpm)` branch as code computes `TempoStep` |
| `SimaiScanner.ReadDivision` | mai_renderer/chart_loader.py:227-238 | The `{beats}` branch as code computes `DivisionStep` |
| `SimaiScanner.PlainScan` | mai_renderer/chart_loader.py:193-250 | The passes that start no note group, as code, compute `PlainStep` |
| `SimaiScanner.GroupScan` | mai_renderer/chart_loader.py:253-268 | A note-group pass as code computes `Step` over the group parser that differs from the source's only where the source stalls; an EACH group cut short at a member yielding no note resumes the scan at that member, as the source does |
| `SimaiScanner.ParseSimai` | mai_renderer/chart_loader.py:161-272 | `_parse_simai` as code computes `Simai`, the timing points of the chart text, whose every pass is the source's pass except at a group where the source rescans forever (`PassAsWrittenUnlessStalled`) |
| `NoteGroups.TopLevelSlashMeans` | mai_renderer/chart_loader.py:303-314 | The lookahead is true exactly when a `/` at bracket depth 0 comes before the group's `,` or newline |
| `NoteGroups.LookAheadSlash` | mai_renderer/chart_loader.py:303-314 | The lookahead loop computes that test |
| `NoteGroups.SingleGroup` | mai_renderer/chart_loader.py:363-387 | `_process_single_group` ends at the next `,`, `/`, newline or space, and yields nothing from an empty member |
| `NoteGroups.ProcessSingleGroup` | mai_renderer/chart_loader.py:376-387 | The character loop computes `SingleGroup` |
| `NoteGroups.EachLoop` | mai_renderer/chart_loader.py:318-336 | The EACH loop, where a member yielding no note is skipped only while no earlier member has yielded one; afterwards the `else: break` of the source applies. It never reads past the group, ends at the group's end when it yields nothing, and moves forward when it yields notes |
| `NoteGroups.ReadEach` | mai_renderer/chart_loader.py:318-336 | The EACH loop as code, with the `break` taken once notes have been collected, computes `EachLoop` |
| `NoteGroups.StripAll` | mai_renderer/chart_loader.py:348-349 | Each backtick segment is trimmed, one for one |
| `NoteGroups.SegmentsRaiseStays` | mai_renderer/chart_loader.py:348-357 | Once a segment raises, the loop over the segments raises that exception |
| `NoteGroups.Segments` | mai_renderer/chart_loader.py:348-357 | The notes of the first `k` trimmed backtick segments in order, blank segments skipped and the first exception kept; `BlankSegmentSkipped`, `SegmentAppended` and `SegmentsPass` state it |
| `NoteGroups.BlankSegmentSkipped` | mai_renderer/chart_loader.py:350 | A segment that is blank once trimmed adds no note |
| `NoteGroups.SegmentAppended` | mai_renderer/chart_loader.py:350-357 | Any other segment adds the notes of its trimmed text after the earlier ones |
| `NoteGroups.PseudoEach` | mai_renderer/chart_loader.py:337-359 | The pseudo-EACH path ends at the group's `,` or newline |
| `NoteGroups.FindGroupEnd` | mai_renderer/chart_loader.py:340-342 | The loop finds the first `,` or newline |
| `NoteGroups.StripEach` | mai_renderer/chart_loader.py:348-349 | The trimming loop computes `StripAll` |
| `NoteGroups.ReadSegment` | mai_renderer/chart_loader.py:349-357 | One pass over a segment extends the notes as `Segments` says |
| `NoteGroups.ReadSegments` | mai_renderer/chart_loader.py:348-357 | The segment loop computes `Segments` |
| `NoteGroups.ReadPseudoEach` | mai_renderer/chart_loader.py:340-359 | The pseudo-EACH path as code computes `PseudoEach` |
| `NoteGroups.NoteGroup` | mai_renderer/chart_loader.py:289-361 | `_parse_note_group` with the stalling case corrected: it never reads past the group, and it ends at the group's `,` or newline on the pseudo-EACH path and whenever it yields no note |
| `NoteGroups.ParseNoteGroup` | mai_renderer/chart_loader.py:289-361 | `_parse_note_group` as code computes `NoteGroup` |
| `NoteGroups.GroupAdvances` | mai_renderer/chart_loader.py:253-267 | From a note start, the corrected group parser returns an index past the start |
| `NoteGroups.CorrectedOnlyWhereStalled` | mai_renderer/chart_loader.py:316-336 | At a note start the corrected group parser differs from the code as written only where the latter returns no notes at the start index, the input on which `_parse_simai` rescans the group forever |
| `NoteGroups.EachStopsAtSilentMember` | mai_renderer/chart_loader.py:318-336 | An EACH group whose first member yields notes and whose next member yields none (`2/9-*` then `/4,`) returns the first member's notes and the index of the silent member, as the source's `break` does |
| `NoteGroups.EachStallsAsWritten` | mai_renderer/chart_loader.py:327-336 | As written, an EACH group whose first member yields no note returns its own start index |
| `NoteGroups.IsNoteStart` | mai_renderer/chart_loader.py:275-287 | `_is_note_start`: a button digit `1`..`8` or `E`, or a touch area letter `A`..`E`; `Tokenizer.SameNoteStarts` shows the tokenizer's test is the same |
| `NoteGroups.EachLoopAsWritten` | mai_renderer/chart_loader.py:318-336 | The EACH loop as written: `/` and blanks skipped, each member parsed, and the loop stopped at the start of a member that yields no note; `EachStallsAsWritten` states the consequence |
| `NoteGroups.NoteGroupAsWritten` | mai_renderer/chart_loader.py:289-361 | `_parse_note_group` as written: the EACH loop as written when a `/` comes outside brackets, the pseudo-EACH path otherwise |
| `NoteGroups.SingleGroupPasses` | mai_renderer/chart_loader.py:364-387 | A member yields only notes the note parser returned |
| `NoteGroups.EachLoopAsWrittenPasses` | mai_renderer/chart_loader.py:318-336 | The EACH loop as written yields only notes the note parser returned for its members |
| `NoteGroups.EachLoopPasses` | mai_renderer/chart_loader.py:318-336 | The EACH loop yields only notes the note parser returned for its members |
| `NoteGroups.SegmentsPass` | mai_renderer/chart_loader.py:348-357 | The backtick segments yield only notes the note parser returned |
| `NoteGroups.NoteGroupPasses` | mai_renderer/chart_loader.py:289-361 | On both paths, a group yields only notes the note parser returned, so what the note parser promises of each note holds of the group's |
| `SlideGrammar.LastDigit` | mai_renderer/chart_loader.py:719-725 | The index of the last digit in a stretch, and no digit after it; none when the stretch has no digit |
| `SlideGrammar.EndDigit` | mai_renderer/chart_loader.py:534-539 | The value of the last digit of a stretch is a single digit, 0 when there is none |
| `SlideGrammar.EndDigitIsLast` | mai_renderer/chart_loader.py:534-539 | The digit after which no digit follows is the one reported |
| `SlideGrammar.ExtractEndPosition` | mai_renderer/chart_loader.py:514-539 | `_extract_end_position`: the last digit before the first `[` (the whole track without one), 0 when there is none |
| `SlideGrammar.TrackBody` | mai_renderer/chart_loader.py:710-716 | The destination scan starts past one slide mark and any shape letters |
| `SlideGrammar.TrackScanEnd` | mai_renderer/chart_loader.py:721 | The destination scan stops at the next `[` or `*` |
| `SlideGrammar.TrackBracketAt` | mai_renderer/chart_loader.py:727-733 | A bracket may open right after the destination digit and an `@` on it |
| `SlideGrammar.TrackTiming` | mai_renderer/chart_loader.py:735-750 | One beat of wait and no duration unless a non-empty bracket parses; a ValueError keeps those defaults, a zero tempo raises ZeroDivisionError |
| `SlideGrammar.SlideTrack` | mai_renderer/chart_loader.py:691-752 | `_parse_slide_track`: a zero tempo raises, ValueError never escapes, and the destination is the last digit before the next `[` or `*` |
| `SlideGrammar.ScanDestination` | mai_renderer/chart_loader.py:719-725 | The destination loop finds the last digit's index and value |
| `SlideGrammar.ParseSlideTrack` | mai_renderer/chart_loader.py:707-752 | The scan as code computes `SlideTrack` |
| `SlideGrammar.ParseTrackBracket` | mai_renderer/chart_loader.py:735-750 | The bracket part as code computes `TrackTiming` |
| `SlideGrammar.TrackOfTiming` | mai_renderer/chart_loader.py:696 | A track written as a mark, a destination digit and `[t]` has that destination and the timing of `t` |
| `SlideGrammar.TrackShape` | mai_renderer/chart_loader.py:707-744 | Where the mark, the destination and the bracket of such a track sit |
| `SlideGrammar.TimingOfBracket` | mai_renderer/chart_loader.py:739-750 | A non-empty bracket that parses gives its timing |
| `SlideGrammar.SlideTrackOf` | mai_renderer/chart_loader.py:752 | The track's result is its timing and its destination |
| `SlideGrammar.TrackOfBeats` | mai_renderer/chart_loader.py:696 | `-4[8:3]`: destination 4, one beat of wait, `240 C / (bpm D)` seconds of travel |
| `SlideGrammar.TrackEnd` | mai_renderer/chart_loader.py:776-794 | One track is skipped through its marks, shape letters, up to `[` or `*`, and through a closing `]` |
| `SlideGrammar.ChainEnd` | mai_renderer/chart_loader.py:796-819 | Every further `*`-separated track is skipped; the scan never stops on a `*` |
| `SlideGrammar.SkipTracks` | mai_renderer/chart_loader.py:773-819 | Where `_skip_past_all_slide_tracks` stops: past the first track and every chained one |
| `SlideGrammar.SkipTrack` | mai_renderer/chart_loader.py:776-794 | The scan over one track as code computes `TrackEnd` |
| `SlideGrammar.SkipPastAllSlideTracks` | mai_renderer/chart_loader.py:754-823 | The index past every track, and a break slide exactly when `b` occurs anywhere in the note text |
| `SlideGrammar.SlideTrackFromString` | mai_renderer/chart_loader.py:481-512 | No `[` gives no duration and one beat of wait; a `[` without a later `]` gives nothing, and so does a ValueError; other errors propagate |
| `NoteGrammar.DigitRun` | mai_renderer/chart_loader.py:560-562 | The run of sensor digits after a touch area letter ends at the first non-digit |
| `NoteGrammar.NoteHead` | mai_renderer/chart_loader.py:550-568 | A touch letter gives a touch note with that area; a digit gives a tap at that button; anything else raises ValueError; every other field is at its default |
| `NoteGrammar.ReadHead` | mai_renderer/chart_loader.py:550-568 | The head code, with its sensor-digit loop, computes `NoteHead` |
| `NoteGrammar.HoldKind` | mai_renderer/chart_loader.py:578-585 | Without `h` the type stays; a button becomes a hold; a touch becomes a touch hold, and a second `h` makes it a hold |
| `NoteGrammar.ModifierStep` | mai_renderer/chart_loader.py:578-628 | One modifier character: `h` makes a hold (a touch hold on a touch), `b`, `x`, `f` set their flags, the second `$` makes a rotating star, `!`/`?` drop the head and `?` fades it in; `@` and other characters change nothing. `ReadFlags`, `ReadHeadless` and `ReadKeeps` state it |
| `NoteGrammar.ReadModifiers` | mai_renderer/chart_loader.py:575-657 | The note after reading a modifier run left to right; `ReadSnoc`, `ReadKind` and `ModifiersAnyOrder` state it |
| `NoteGrammar.LastModifier` | mai_renderer/chart_loader.py:575 | The modifier run splits into its earlier part and its last character |
| `NoteGrammar.ReadSnoc` | mai_renderer/chart_loader.py:575-657 | Reading one more modifier is one more step of the loop |
| `NoteGrammar.ReadKind` | mai_renderer/chart_loader.py:578-585 | The type after the modifiers depends only on how many `h` there are |
| `NoteGrammar.ReadFlags` | mai_renderer/chart_loader.py:587-615 | Break, EX, fireworks and star are set exactly when their letter occurs; two `$` make a rotating star |
| `NoteGrammar.ReadHeadless` | mai_renderer/chart_loader.py:622-627 | `!` or `?` drops the slide head, and `?` also fades it in |
| `NoteGrammar.ReadKeeps` | mai_renderer/chart_loader.py:575-657 | The modifiers change nothing but the type and those flags |
| `NoteGrammar.ModifiersAnyOrder` | mai_renderer/chart_loader.py:570 | Modifiers may come in any order: the note depends only on which modifiers occur, and how often |
| `NoteGrammar.ModifierEnd` | mai_renderer/chart_loader.py:575-654 | The modifier loop stops at a `[` or at a slide mark |
| `NoteGrammar.StopsAre` | mai_renderer/chart_loader.py:575-629 | A character stops the run exactly when it is `[` or a slide mark |
| `NoteGrammar.ApplyModifier` | mai_renderer/chart_loader.py:576-657 | One pass of the modifier loop keeps the loop's state description |
| `NoteGrammar.ScanModifiers` | mai_renderer/chart_loader.py:570-657 | The modifier loop stops where `ModifierEnd` says, with the note the modifiers read, and `has_hold` exactly when an `h` was seen |
| `NoteGrammar.SlideNote` | mai_renderer/chart_loader.py:629-654 | A slide mark makes the note a slide with the first track's timing and end; a slide break exactly when it already was one or `b` occurs anywhere |
| `NoteGrammar.BracketClose` | mai_renderer/chart_loader.py:663-665 | The hold bracket ends at `]` or at the end of the text |
| `NoteGrammar.AfterBracket` | mai_renderer/chart_loader.py:672-674 | Reading resumes after the hold bracket |
| `NoteGrammar.HoldTimed` | mai_renderer/chart_loader.py:660-674 | The hold bracket sets only the hold time; only ZeroDivisionError can escape |
| `NoteGrammar.BreakAfter` | mai_renderer/chart_loader.py:676-682 | A `b` after the bracket makes any note but a slide a break, and changes nothing else |
| `NoteGrammar.PseudoHoldSeconds` | mai_renderer/chart_loader.py:684-687 | The pseudo hold lasts `3 / (16 bpm)` seconds, and raises for a zero tempo |
| `NoteGrammar.PseudoHoldIsBracket` | mai_renderer/chart_loader.py:687 | That length is what `_parse_beat_value("1280:1")` gives |
| `NoteGrammar.PseudoHoldNote` | mai_renderer/chart_loader.py:684-687 | Only a hold still at length zero changes, and only its hold time |
| `NoteGrammar.NoteFromString` | mai_renderer/chart_loader.py:541-689 | `_parse_note_from_string`: a blank string is no note |
| `NoteGrammar.ReadSlide` | mai_renderer/chart_loader.py:629-654 | The slide branch as code computes `SlideNote` and resumes past every track |
| `NoteGrammar.ReadHoldBracket` | mai_renderer/chart_loader.py:660-674 | The hold bracket reader as code computes `HoldTimed` and resumes after the bracket |
| `NoteGrammar.ReadTrailingBreak` | mai_renderer/chart_loader.py:676-682 | The trailing-`b` check as code computes `BreakAfter` |
| `NoteGrammar.ApplyPseudoHold` | mai_renderer/chart_loader.py:684-687 | The pseudo-hold step as code computes `PseudoHoldNote` |
| `NoteGrammar.ReadBody` | mai_renderer/chart_loader.py:570-689 | Everything after the head, as code, computes `NoteBody` |
| `NoteGrammar.NoteBody` | mai_renderer/chart_loader.py:570-689 | Everything after the head: the modifier loop, the slide branch or the hold bracket, the trailing `b` and the pseudo hold length; `BodyParts`, `BodyHoldLength` and `BodyErrors` state it |
| `NoteGrammar.ParseNoteFromString` | mai_renderer/chart_loader.py:541-689 | `_parse_note_from_string` as code computes `NoteFromString` |
| `NoteGrammar.ChainedSlide` | mai_renderer/chart_loader.py:457-477 | A part after `*`, stripped: empty is skipped; otherwise a headless slide from the first slide's button, keeping its wait, with its content and end position; ValueError never escapes |
| `NoteGrammar.Collect` | mai_renderer/chart_loader.py:457-477 | The slides collected from the parts, no more than there are parts |
| `NoteGrammar.ChainResults` | mai_renderer/chart_loader.py:447-457 | One result per part after the first `*`, in order: result `i` is what part `i + 1` reads as |
| `NoteGrammar.ChainResultsAgree` | mai_renderer/chart_loader.py:457 | The per-part results record, for every later part, what that part reads as |
| `NoteGrammar.MultipleSlides` | mai_renderer/chart_loader.py:416-479 | `_parse_multiple_slides`: no `*` raises ValueError; a result has at least two notes and starts with a slide |
| `NoteGrammar.ReadChainedSlide` | mai_renderer/chart_loader.py:458-477 | The loop body as code computes `ChainedSlide` |
| `NoteGrammar.CollectRaiseStays` | mai_renderer/chart_loader.py:457-477 | Once a part raises, the whole loop raises that exception |
| `NoteGrammar.ReadPart` | mai_renderer/chart_loader.py:458-476 | Reading part `k` in the loop gives exactly the per-part result recorded for it |
| `NoteGrammar.ReadChainedSlides` | mai_renderer/chart_loader.py:457-477 | The loop over the later parts computes `Collect` of the per-part results, stopping at the first failure |
| `NoteGrammar.ParseMultipleSlides` | mai_renderer/chart_loader.py:416-479 | `_parse_multiple_slides` as code computes `MultipleSlides` |
| `NoteGrammar.ParseNote` | mai_renderer/chart_loader.py:389-414 | `_parse_note`: more than one note only for a string with a slide mark and a `*` |
| `NoteGrammar.ReadNote` | mai_renderer/chart_loader.py:389-414 | `_parse_note` as code computes `ParseNote` |
| `NoteGrammar.PseudoHoldLength` | mai_renderer/chart_loader.py:684-687 | A hold never keeps a zero length; a zero one becomes `3 / (16 bpm)` |
| `NoteGrammar.BodyParts` | mai_renderer/chart_loader.py:570-689 | The type of a parsed note is fixed by its `h` count, and its slide-break flag by the slide branch |
| `NoteGrammar.HoldsHaveLength` | mai_renderer/chart_loader.py:684-687 | Every hold and touch hold the parser returns has a non-zero length |
| `NoteGrammar.BodyHoldLength` | mai_renderer/chart_loader.py:659-687 | The same for the part after the head |
| `NoteGrammar.SlideBreakAnywhere` | mai_renderer/chart_loader.py:648-652 | A slide is a slide break exactly when `b` occurs anywhere in its stripped note text |
| `NoteGrammar.BodyErrors` | mai_renderer/chart_loader.py:570-689 | After the head nothing raises ValueError |
| `NoteGrammar.NoteErrors` | mai_renderer/chart_loader.py:566-567 | The only ValueError is `int()` on a head that is neither a touch letter nor a digit |
| `NoteGrammar.UnclosedTrackDropped` | mai_renderer/chart_loader.py:502-504 | A later track whose `[` is never closed is dropped |
| `NoteGrammar.ChainReadHeadless` | mai_renderer/chart_loader.py:466-476 | Every slide a later part reads as is headless, from the first slide's button, with its wait |
| `NoteGrammar.ChainResultsHeadless` | mai_renderer/chart_loader.py:457-476 | When every part reads as a headless slide or nothing, every per-part result is one too |
| `NoteGrammar.ChainedAreHeadless` | mai_renderer/chart_loader.py:466-477 | Every slide collected from the later parts is headless, from the first slide's button, with its wait |
| `NoteGrammar.MultipleSlidesShape` | mai_renderer/chart_loader.py:439-479 | A chain starts with the whole string's slide, its content cut at the first `*`, followed by headless slides from the same button with the same wait |
| `NoteGrammar.ChainHoldsHaveLength` | mai_renderer/chart_loader.py:417-480 | A slide followed by headless slides holds no hold or touch hold, so no note of it is a hold without length |
| `NoteGrammar.ParsedHoldsHaveLength` | mai_renderer/chart_loader.py:390-415 | Every hold and touch hold `_parse_note` returns, from a single note or from a chain, has a non-zero length |
| `Tokenizer.TypeOf` | mai_renderer/simai/tokenizer.py:10-29 | Each token class has one of the literal types `bpm`, `division`, `notes`, `advance` |
| `Tokenizer.TypeOfDistinguishes` | mai_renderer/simai/tokenizer.py:10-29 | Two tokens have the same `type` exactly when they are of the same class |
| `Tokenizer.SameNoteStarts` | mai_renderer/simai/tokenizer.py:32-43 | The tokenizer's `_is_note_start` accepts exactly what the chart loader's does |
| `Tokenizer.IsNoteStart` | mai_renderer/simai/tokenizer.py:32-43 | The tokenizer's `_is_note_start`: a button digit `1`..`8` or `E`, or a touch area letter `A`..`E` |
| `Tokenizer.GroupEnd` | mai_renderer/simai/tokenizer.py:130 | `min(text.index(","), text.index("\n"))`: the nearer delimiter, and ValueError exactly when either one is missing |
| `Tokenizer.Step` | mai_renderer/simai/tokenizer.py:67-136 | Every pass moves forward, and the only error is ValueError at a note start |
| `Tokenizer.Run` | mai_renderer/simai/tokenizer.py:67-136 | The generator's loop from an index to the end, as the stream of its tokens ending in the error if one is raised; `GroupsAreClean` and `RaisesOnlyAtGroups` state it |
| `Tokenizer.AdvanceAtComma` | mai_renderer/simai/tokenizer.py:116-120 | `AdvanceTime` is yielded exactly at a `,`, which moves on one character |
| `Tokenizer.DirectiveTokens` | mai_renderer/simai/tokenizer.py:86-114 | `(x)` yields `BPM(float(x))` and `{n}` yields `Division(int(n))` when they parse, nothing otherwise; the scan resumes after the closing bracket |
| `Tokenizer.DirectivesOnlyAtBrackets` | mai_renderer/simai/tokenizer.py:86-114 | A `BPM` is yielded only at `(`, a `Division` only at `{` |
| `Tokenizer.SilentCharacters` | mai_renderer/simai/tokenizer.py:70-84 | Newlines, blanks, `||` comments, the end marker `E` and unknown characters yield nothing |
| `Tokenizer.GroupTokens` | mai_renderer/simai/tokenizer.py:122-134 | A note group is yielded only at a note start that is not the end marker; its text runs to the nearer delimiter; without one the pass raises ValueError |
| `Tokenizer.GroupsAreClean` | mai_renderer/simai/tokenizer.py:128-134 | Every note group yielded is non-empty, starts with a note start and holds neither `,` nor a newline |
| `Tokenizer.RaisesOnlyAtGroups` | mai_renderer/simai/tokenizer.py:128-134 | The tokenizer raises only ValueError, and only at a note start with no `,` or no newline after it |
| `Tokenizer.Index` | mai_renderer/simai/tokenizer.py:130 | `text.index(c, i)`: the first occurrence from `i`, and ValueError exactly when there is none |
| `Tokenizer.ReadDirective` | mai_renderer/simai/tokenizer.py:89-92 | The loop collects the directive's text up to its closing bracket |
| `Tokenizer.ReadGroup` | mai_renderer/simai/tokenizer.py:129-134 | The note-group branch as code yields the group's text and resumes at its end |
| `Tokenizer.NextToken` | mai_renderer/simai/tokenizer.py:67-136 | One pass of the loop as code computes `Step` |
| `Tokenizer.TokenizeSimai` | mai_renderer/simai/tokenizer.py:46-136 | `tokenize_simai` as code yields the tokens of `Tokenize`, in order, ending with the error if one is raised |
| `Tokenizer.Tokenize` | mai_renderer/simai/tokenizer.py:46-136 | `tokenize_simai` over any `float()` and `int()`: the tokens of the loop run from the start of the text, then the error that ends it, if any; `GroupsAreClean` and `RaisesOnlyAtGroups` state what it gives |
| `SoundTiming.RoundHalfEven` | mai_renderer/sound_timing.py:94 | Python's `round`: within one half of its argument, and even on a tie |
| `SoundTiming.MsKey` | mai_renderer/sound_timing.py:94 | The dictionary key of a time, `round(t * 1000)` in milliseconds; `RoundHalfEven` states the rounding |
| `SoundTiming.JudgeFlags` | mai_renderer/sound_timing.py:214-229 | The flags `_add_judge_sound` sets; `Judged` and `AddJudgeSound` state them |
| `SoundTiming.NoteSounds` | mai_renderer/sound_timing.py:104-208 | The sounds one note creates, by kind and in order; `TapSteps`, `HoldSteps`, `SlideSteps`, `TouchSteps` and `TouchHoldSteps` state them |
| `SoundTiming.Judged` | mai_renderer/sound_timing.py:214-229 | `_add_judge_sound` sets break and break-judge for a break note, else the ex judge for an ex note, else the plain judge, and changes nothing else |
| `SoundTiming.Slot` | mai_renderer/sound_timing.py:97-100 | Get-or-create keeps every key and leaves an event at the key of the time |
| `SoundTiming.Mark` | mai_renderer/sound_timing.py:107-111 | Setting flags on an existing event adds no key |
| `SoundTiming.MarkAt` | mai_renderer/sound_timing.py:126-133 | Get-or-create then set flags leaves an event at the key of the time |
| `SoundTiming.Play` | mai_renderer/sound_timing.py:104-208 | Playing sounds into the table never removes a key |
| `SoundTiming.WithDuration` | mai_renderer/sound_timing.py:193 | Storing a touch hold's duration adds no key |
| `SoundTiming.AddNote` | mai_renderer/sound_timing.py:104-208 | One note never removes a key |
| `SoundTiming.AddNotes` | mai_renderer/sound_timing.py:104 | A group's notes never remove a key |
| `SoundTiming.AddPoint` | mai_renderer/sound_timing.py:90-208 | One pass of the timing-point loop: a point before the start adds nothing; otherwise its event is created, given the group index, and the notes' sounds are added. `AddPointValid`, `AddPointFlags` and `AddPointGrows` state it |
| `SoundTiming.AddPoints` | mai_renderer/sound_timing.py:90-208 | The table after the first `n` timing points; `AddPointsValid`, `AddPointsFlags`, `AddPointsKeys` and `AddPointsIndex` state it |
| `SoundTiming.WithIndex` | mai_renderer/sound_timing.py:101 | Setting the note group index adds no key |
| `SoundTiming.SlotValid` | mai_renderer/sound_timing.py:97-100 | Get-or-create keeps the dictionary's invariant: one event per key, each under the key of its own time |
| `SoundTiming.MarkValid` | mai_renderer/sound_timing.py:107-111 | Setting flags keeps the invariant |
| `SoundTiming.MarkAtValid` | mai_renderer/sound_timing.py:126-133 | Get-or-create and set keeps the invariant |
| `SoundTiming.PlayValid` | mai_renderer/sound_timing.py:104-208 | Any sequence of sounds keeps the invariant |
| `SoundTiming.MarkAtFlags` | mai_renderer/sound_timing.py:126-133 | Marking adds exactly the given flags at the key of its time, and nothing at any other key |
| `SoundTiming.PlayFlags` | mai_renderer/sound_timing.py:104-208 | Playing sounds adds at every key exactly the flags asked for there |
| `SoundTiming.AddNoteValid` | mai_renderer/sound_timing.py:104-208 | One note keeps the invariant, its duration stored only beside a set riser flag |
| `SoundTiming.RiserMarked` | mai_renderer/sound_timing.py:190-193 | A touch hold with positive hold time sets the riser flag on its own event |
| `SoundTiming.AddNotesValid` | mai_renderer/sound_timing.py:104 | A whole group keeps the invariant |
| `SoundTiming.AddPointValid` | mai_renderer/sound_timing.py:90-101 | One timing point, skipped or not, keeps the invariant |
| `SoundTiming.AddPointsValid` | mai_renderer/sound_timing.py:90-208 | Every dictionary the loop builds keeps the invariant |
| `SoundTiming.Values` | mai_renderer/sound_timing.py:211 | `timing_list.values()`: one event per key, in insertion order |
| `SoundTiming.InsertIndex` | mai_renderer/sound_timing.py:211 | Inserting an index into a sort order adds exactly that index |
| `SoundTiming.InsertStable` | mai_renderer/sound_timing.py:211 | Inserting a later index after all indices of no greater time keeps the order stable |
| `SoundTiming.TimeOrder` | mai_renderer/sound_timing.py:211 | A stable order of the first n indices by time holds each of them |
| `SoundTiming.Times` | mai_renderer/sound_timing.py:211 | The sort key `lambda x: x.time` of each event |
| `SoundTiming.SortByTime` | mai_renderer/sound_timing.py:211 | `sorted` keeps the length and orders the times non-decreasingly |
| `SoundTiming.Generated` | mai_renderer/sound_timing.py:46-212 | `generate` returns nothing for an absent difficulty, and its events are ordered by time |
| `SoundTiming.SoundEffectTiming.constructor` | mai_renderer/sound_timing.py:15-40 | A new event has its time, no note group, no flag set and no duration |
| `SoundTiming.Snapshot` | mai_renderer/sound_timing.py:211 | The value of each object in a list, position by position |
| `SoundTiming.MarkMerge` | mai_renderer/sound_timing.py:223-229 | Setting two flag sets one after the other is setting their union |
| `SoundTiming.MarkNothing` | mai_renderer/sound_timing.py:110-111 | Setting no flag changes nothing, as a note that is not a hanabi note |
| `SoundTiming.PlayOne` | mai_renderer/sound_timing.py:104-208 | One sound is one get-or-create and set |
| `SoundTiming.PlayTwo` | mai_renderer/sound_timing.py:104-208 | Two sounds are two get-or-create and set steps, in order |
| `SoundTiming.PlayThree` | mai_renderer/sound_timing.py:104-208 | Three sounds likewise |
| `SoundTiming.DurationCommutes` | mai_renderer/sound_timing.py:190-208 | Storing the duration and setting flags later commute |
| `SoundTiming.TapSteps` | mai_renderer/sound_timing.py:105-111 | A tap sets answer, its judge and hanabi on its own event |
| `SoundTiming.HoldSteps` | mai_renderer/sound_timing.py:113-133 | A hold does the tap's steps, then, when it lasts, answer and a plain judge unless break or ex at its release |
| `SoundTiming.SlideSteps` | mai_renderer/sound_timing.py:135-175 | A slide sets answer and judge, then a break start and break end, or a slide sound, after its wait |
| `SoundTiming.TouchSteps` | mai_renderer/sound_timing.py:177-183 | A touch sets answer, touch and hanabi on its own event |
| `SoundTiming.TouchHoldSteps` | mai_renderer/sound_timing.py:185-208 | A touch hold sets answer and touch, and riser, duration, and release sounds when it lasts |
| `SoundTiming.AddJudgeSound` | mai_renderer/sound_timing.py:214-229 | The object after `_add_judge_sound` has the value `Judged` gives |
| `SoundTiming.EntryAt` | mai_renderer/sound_timing.py:97-100 | The objects after get-or-create hold the table after `Slot`; every object is old or new |
| `SoundTiming.SetFlags` | mai_renderer/sound_timing.py:107 | Setting flags on an object updates the table as `Mark` does |
| `SoundTiming.SetFlagsAt` | mai_renderer/sound_timing.py:126-131 | Get-or-create then set updates the table as `MarkAt` does |
| `SoundTiming.JudgeEntry` | mai_renderer/sound_timing.py:108 | `_add_judge_sound` on an object sets the judge flags in the table |
| `SoundTiming.SetDuration` | mai_renderer/sound_timing.py:193 | The duration assignment updates the table as `WithDuration` does |
| `SoundTiming.SetIndex` | mai_renderer/sound_timing.py:101 | `note_group_index = i` updates the table as `WithIndex` does |
| `SoundTiming.SetFlagsTwice` | mai_renderer/sound_timing.py:151-168 | Two flag assignments add the union of both |
| `SoundTiming.SetHanabi` | mai_renderer/sound_timing.py:110-111 | The hanabi assignment happens exactly for a hanabi note |
| `SoundTiming.HeadSounds` | mai_renderer/sound_timing.py:107-111 | The start of a tap or hold sets the head sound's flags |
| `SoundTiming.HoldRelease` | mai_renderer/sound_timing.py:121-133 | The release sets answer, and a plain judge unless break or ex, at the release key |
| `SoundTiming.TapNote` | mai_renderer/sound_timing.py:105-111 | The tap branch updates the table as `AddNote` does |
| `SoundTiming.HoldNote` | mai_renderer/sound_timing.py:113-133 | The hold branch updates the table as `AddNote` does |
| `SoundTiming.BreakSlideEnd` | mai_renderer/sound_timing.py:155-168 | The end of a break slide sets break slide and its judge at its end key |
| `SoundTiming.BreakSlideSounds` | mai_renderer/sound_timing.py:146-168 | The break start after the wait and, when it lasts, the break end |
| `SoundTiming.StarSounds` | mai_renderer/sound_timing.py:137-138 | The star sets answer and its judge on its own event |
| `SoundTiming.SlideNote` | mai_renderer/sound_timing.py:135-175 | The slide branch updates the table as `AddNote` does |
| `SoundTiming.TouchNote` | mai_renderer/sound_timing.py:177-183 | The touch branch updates the table as `AddNote` does |
| `SoundTiming.TouchHoldStart` | mai_renderer/sound_timing.py:186-193 | Answer and touch, and the riser with its duration when the hold lasts |
| `SoundTiming.TouchHoldRelease` | mai_renderer/sound_timing.py:196-208 | Answer, touch-hold end and hanabi at the release key |
| `SoundTiming.TouchHoldNote` | mai_renderer/sound_timing.py:185-208 | The touch-hold branch updates the table as `AddNote` does |
| `SoundTiming.AddNoteSounds` | mai_renderer/sound_timing.py:104-208 | The branch for the note's type updates the table as `AddNote` does; other types do nothing |
| `SoundTiming.AddNotesSounds` | mai_renderer/sound_timing.py:104-208 | The note loop updates the table as `AddNotes` does over the whole group |
| `SoundTiming.AddNextNote` | mai_renderer/sound_timing.py:104-208 | One pass of the note loop: the table after the next note |
| `SoundTiming.AddGroupSounds` | mai_renderer/sound_timing.py:90-208 | One pass of the timing-point loop updates the table as `AddPoint` does, skipping a group before the start |
| `SoundTiming.FillTable` | mai_renderer/sound_timing.py:69-208 | The dictionary after the loop holds the table of all timing points, all its objects new |
| `SoundTiming.ValueObjects` | mai_renderer/sound_timing.py:211 | `timing_list.values()` gives the objects whose values are the table's events in insertion order |
| `SoundTiming.SortObjects` | mai_renderer/sound_timing.py:211 | `sorted` gives the same objects whose values are stably sorted by time |
| `SoundTiming.Generate` | mai_renderer/sound_timing.py:46-212 | `generate` returns new objects whose values are the events of `Generated` |
| `SoundTimingFacts.RoundMonotone` | mai_renderer/sound_timing.py:94 | Rounding half to even never reverses an order |
| `SoundTimingFacts.MsKeyMonotone` | mai_renderer/sound_timing.py:94 | A later time never gets an earlier millisecond key |
| `SoundTimingFacts.Pick` | mai_renderer/sound_timing.py:211 | The events at a list of indices, position by position |
| `SoundTimingFacts.PickCons` | mai_renderer/sound_timing.py:211 | Picking one index in front of others puts its event in front |
| `SoundTimingFacts.PickLater` | mai_renderer/sound_timing.py:211 | Picking one index in front of two lists keeps their multiset relation |
| `SoundTimingFacts.InsertFront` | mai_renderer/sound_timing.py:211 | Inserting in front of all later times adds exactly the inserted event |
| `SoundTimingFacts.InsertPick` | mai_renderer/sound_timing.py:211 | Inserting an index adds exactly its event to the picked multiset |
| `SoundTimingFacts.TakeSnoc` | mai_renderer/sound_timing.py:211 | A prefix one longer is the prefix and the next event |
| `SoundTimingFacts.TimeOrderPick` | mai_renderer/sound_timing.py:211 | The events of the sort order of a prefix are that prefix's events, each as often |
| `SoundTimingFacts.SortIsPermutation` | mai_renderer/sound_timing.py:211 | `sorted` returns the same events, each as often as before |
| `SoundTimingFacts.SortIsStable` | mai_renderer/sound_timing.py:211 | `sorted` is stable: events of equal time keep their insertion order |
| `SoundTimingFacts.GeneratedKeysIncrease` | mai_renderer/sound_timing.py:94-212 | No two returned events share a millisecond key, and the keys increase strictly |
| `SoundTimingFacts.GeneratedAreTheEvents` | mai_renderer/sound_timing.py:210-212 | The returned events are the dictionary's events, each exactly once |
| `SoundTimingFacts.HeardAppend` | mai_renderer/sound_timing.py:104-208 | The flags asked for by two runs of sounds are the union of each run's |
| `SoundTimingFacts.HeardAppendAll` | mai_renderer/sound_timing.py:104-208 | The same at every key |
| `SoundTimingFacts.AddNoteFlags` | mai_renderer/sound_timing.py:104-208 | One note adds at every key exactly the flags its sounds ask for there |
| `SoundTimingFacts.AddNotesFlags` | mai_renderer/sound_timing.py:104 | A group adds at every key exactly the flags its notes' sounds ask for |
| `SoundTimingFacts.AddPointFlags` | mai_renderer/sound_timing.py:90-208 | One timing point adds its group's flags, or none before the start |
| `SoundTimingFacts.AddPointsFlags` | mai_renderer/sound_timing.py:90-208 | The flags at every key are exactly those some sound of the chart asks for there; a later note never clears one |
| `SoundTimingFacts.SoundKeysAppend` | mai_renderer/sound_timing.py:104-208 | The keys of two runs of sounds are the union of each run's |
| `SoundTimingFacts.PlayKeys` | mai_renderer/sound_timing.py:104-208 | Playing sounds adds exactly their keys |
| `SoundTimingFacts.KeysStep` | mai_renderer/sound_timing.py:104-208 | One more note adds exactly its sounds' keys |
| `SoundTimingFacts.AddNotesKeys` | mai_renderer/sound_timing.py:104 | A group adds exactly its sounds' keys |
| `SoundTimingFacts.AddPointsKeys` | mai_renderer/sound_timing.py:90-208 | The dictionary has an event at the key of every group not before the start and of every sound, and nowhere else |
| `SoundTimingFacts.PlayIndex` | mai_renderer/sound_timing.py:126-208 | Playing sounds keeps every note group index and gives a new event none |
| `SoundTimingFacts.AddNotesIndex` | mai_renderer/sound_timing.py:104-208 | The same for a group's notes |
| `SoundTimingFacts.AddPointsIndex` | mai_renderer/sound_timing.py:90-101 | Each event carries the index of the last group at its key, or -1 when only other groups' later sounds fall on it |
| `SoundTimingFacts.HeardOne` | mai_renderer/sound_timing.py:104-208 | One sound asks for its flags at its own key only |
| `SoundTimingFacts.HeardTwo` | mai_renderer/sound_timing.py:104-208 | Two sounds ask for the union of their flags |
| `SoundTimingFacts.HeardThree` | mai_renderer/sound_timing.py:104-208 | Three sounds likewise |
| `SoundTimingFacts.TapSounds` | mai_renderer/sound_timing.py:105-111 | A tap sounds only at its own key: answer, exactly its judge, and hanabi for a hanabi note |
| `SoundTimingFacts.TouchSounds` | mai_renderer/sound_timing.py:177-183 | A touch sounds only at its own key: answer, touch, and hanabi for a hanabi note; it never judges |
| `SoundTimingFacts.HoldSounds` | mai_renderer/sound_timing.py:113-133 | A hold answers and judges at its start; a lasting hold answers at its release, with a plain judge only when neither break nor ex, and no hanabi there |
| `SoundTimingFacts.SlideSounds` | mai_renderer/sound_timing.py:135-175 | A slide answers and judges at its star; after the wait a normal slide plays the slide sound and a body-break slide the break start, and a lasting body-break slide the break slide with its judge where it ends |
| `SoundTimingFacts.TouchHoldSounds` | mai_renderer/sound_timing.py:185-208 | A touch hold answers and touches at its start, with the riser only when it lasts; a lasting one answers, ends and has its hanabi at its release; one that does not last has no hanabi at all |
| `SoundTimingFacts.OtherIsSilent` | mai_renderer/sound_timing.py:104-208 | A note of any other type changes nothing |
| `SoundTimingFacts.PlayKeepsDurations` | mai_renderer/sound_timing.py:193 | Sounds never change a stored duration |
| `SoundTimingFacts.TouchHoldDuration` | mai_renderer/sound_timing.py:190-193 | Only a lasting touch hold stores a duration, on its own event, and it stores its hold time |
| `SoundTimingFacts.PlayGrows` | mai_renderer/sound_timing.py:104-208 | Sounds only add events and set flags; none is removed or moved |
| `SoundTimingFacts.GrowsTrans` | mai_renderer/sound_timing.py:90-208 | Growing is transitive |
| `SoundTimingFacts.AddNoteGrows` | mai_renderer/sound_timing.py:104-208 | One note only adds events and sets flags |
| `SoundTimingFacts.AddNotesGrow` | mai_renderer/sound_timing.py:104 | A group likewise |
| `SoundTimingFacts.AddPointGrows` | mai_renderer/sound_timing.py:90-208 | One timing point likewise |
| `SoundTimingFacts.AddPointsGrow` | mai_renderer/sound_timing.py:90-208 | Every later timing point only adds events and sets flags |
| `SoundTimingFacts.AllBeforeStart` | mai_renderer/sound_timing.py:91-92 | Timing points before the start contribute nothing |
| `SoundTimingFacts.NothingBeforeStart` | mai_renderer/sound_timing.py:91-92 | When every timing point is before the start, no event is returned |
| `SoundEffects.GetEffectsFromTiming` | mai_renderer/sound/render.py:267-309 | `_get_effects_from_timing` returns the effects of the event's true flags, in the fixed order of the tests |
| `SoundEffects.EffectsOf` | mai_renderer/sound/render.py:267-309 | The effects of an event with a given set of true flags, the fourteen tests in order; `SoundsInOrder`, `EffectCount` and `SoundPlayedIffFlag` state what it gives |
| `SoundEffects.EffectsUpTo` | mai_renderer/sound/render.py:267-309 | The effects of the first `i` tests whose flag is set, in test order; `EffectsAreSounds`, `JudgeEffects` and `TouchHoldEndIsSilentUpTo` state it |
| `SoundEffects.JudgeEffects` | mai_renderer/sound/render.py:279-286 | The first four tests give answer, judge, break judge and ex judge, each when its flag is set |
| `SoundEffects.NoteEffects` | mai_renderer/sound/render.py:287-294 | The next four give break, hanabi, touch hold and touch |
| `SoundEffects.SlideEffects` | mai_renderer/sound/render.py:295-302 | The next four give slide, break slide start, break slide and break slide judge |
| `SoundEffects.EndEffects` | mai_renderer/sound/render.py:303-307 | All-perfect gives all-perfect and fanfare, then the clock test gives clock |
| `SoundEffects.EffectsAreSounds` | mai_renderer/sound/render.py:277-309 | Each effect is the name and volume of the corresponding sound |
| `SoundEffects.SoundsInOrder` | mai_renderer/sound/render.py:277-309 | A sound is listed exactly when its flag is set and it comes in the range looked at; the listed sounds keep the test order, none twice |
| `SoundEffects.RanksOfOrder` | mai_renderer/sound/render.py:277-309 | Each position of the test order holds the sound of that rank |
| `SoundEffects.OrderOfRank` | mai_renderer/sound/render.py:277-309 | Every sound has a rank within the test order |
| `SoundEffects.SoundPlayedIffFlag` | mai_renderer/sound/render.py:279-307 | A sound is played exactly when its flag is set |
| `SoundEffects.NamedName` | mai_renderer/sound/render.py:280-307 | Every sound bank name names exactly one sound |
| `SoundEffects.NameDetermines` | mai_renderer/sound/render.py:280-307 | Two sounds with the same bank name are the same sound |
| `SoundEffects.Volumes` | mai_renderer/sound/render.py:280-307 | `break` is played at 0.75 and every other effect at 1.0 |
| `SoundEffects.AllPerfectThenFanfare` | mai_renderer/sound/render.py:303-305 | The all-perfect flag emits `all_perfect` immediately followed by `fanfare` |
| `SoundEffects.TouchHoldEndIsSilent` | mai_renderer/sound/render.py:277-309 | The touch-hold-end flag is never looked at: it never changes the effects |
| `SoundEffects.TouchHoldEndIsSilentUpTo` | mai_renderer/sound/render.py:277-309 | The same for every prefix of the tests |
| `SoundEffects.FirstRankOfTrigger` | mai_renderer/sound/render.py:303-305 | Each sound's flag is first looked at its own position, the fanfare's at all-perfect's |
| `SoundEffects.TriggerOfFirstRank` | mai_renderer/sound/render.py:279-307 | Every flag but touch-hold end is looked at, first by the sound it turns on |
| `SoundEffects.CheckedRanks` | mai_renderer/sound/render.py:279-307 | The flags a prefix looks at are exactly those first looked at within it |
| `SoundEffects.CountUpTo` | mai_renderer/sound/render.py:279-307 | The sounds of a prefix are as many as the set flags it looks at |
| `SoundEffects.SoundsStep` | mai_renderer/sound/render.py:279-307 | Each further flag test adds one sound when its flag is set, none otherwise |
| `SoundEffects.FreshTrigger` | mai_renderer/sound/render.py:279-307 | Every sound but the fanfare looks at a flag not looked at before it |
| `SoundEffects.FanfareSeen` | mai_renderer/sound/render.py:303-305 | The fanfare goes with the all-perfect flag, already looked at |
| `SoundEffects.CardAdd` | mai_renderer/sound/render.py:279-307 | Looking at one new flag adds one to the count exactly when it is set |
| `SoundEffects.EffectCount` | mai_renderer/sound/render.py:277-309 | One effect per set flag that is looked at, one more for all-perfect; touch-hold end adds nothing |
| `SoundEffects.NoEffects` | mai_renderer/sound/render.py:277-309 | No effect at all exactly when no flag that is looked at is set |
| `MajsonRecords.TypeNamedName` | mai_renderer/renderer.py:24-31 | Each note type's member name gives the member back |
| `MajsonRecords.GetDifficultyText` | mai_renderer/renderer.py:92-104 | Indices 0 to 6 give EASY, BASIC, ADVANCED, EXPERT, MASTER, Re:MASTER, ORIGINAL; every other index gives DEFAULT |
| `MajsonRecords.DifficultyTextRoundTrip` | mai_renderer/renderer.py:92-104 | The seven names are distinct and none is DEFAULT: a name gives its index back, and DEFAULT comes exactly from the indices outside 0..6 |
| `MajsonRecords.Remove` | mai_renderer/renderer.py:140-144 | `replace(c, "")` never lengthens the text |
| `MajsonRecords.BuildNoteContent` | mai_renderer/renderer.py:123-146 | `_build_note_content`: the five `replace` calls in a row; `NoteContentCleaned` and `NoteContentIdempotent` state what it gives |
| `MajsonRecords.BuildNoteContentIsKeepPlain` | mai_renderer/renderer.py:123-146 | Removing the five modifiers one after another is removing all of them at once, keeping the other characters in order |
| `MajsonRecords.RemoveAll` | mai_renderer/renderer.py:140-144 | The five `replace` calls in a row keep exactly the characters that are not modifiers |
| `MajsonRecords.RemoveCons` | mai_renderer/renderer.py:140-144 | `replace` drops a leading character exactly when it is the one removed |
| `MajsonRecords.KeepPlainAppend` | mai_renderer/renderer.py:123-146 | Keeping the plain characters of a concatenation keeps those of each part |
| `MajsonRecords.NoteContentCleaned` | mai_renderer/renderer.py:123-146 | No modifier is left; text with none is unchanged; cleaning a concatenation cleans each part |
| `MajsonRecords.KeepPlainClean` | mai_renderer/renderer.py:123-146 | The reference keeps no modifier and leaves clean text unchanged |
| `MajsonRecords.NoteContentIdempotent` | mai_renderer/renderer.py:123-146 | Cleaning twice is cleaning once |
| `MajsonRecords.NoteTypes` | mai_renderer/renderer.py:187-193 | The five loader type names map to their own interchange type and every other name to a tap |
| `MajsonRecords.NoteTypeOf` | mai_renderer/renderer.py:187-193 | The type table looked up by the loader's type name, a tap for an unknown name; `NoteTypes` states it |
| `MajsonRecords.TouchAreaOf` | mai_renderer/renderer.py:218 | `touch_area or " "`: an empty touch area becomes one space |
| `MajsonRecords.NoteRecord` | mai_renderer/renderer.py:196-220 | The record of one note; `NoteRecordFields` states its fields |
| `MajsonRecords.NoteRecords` | mai_renderer/renderer.py:186-221 | The records of a point's notes, one appended per note in order; `NoteRecordsSnoc` and `NoteRecordsOneToOne` state it |
| `MajsonRecords.MajsonHeader` | mai_renderer/renderer.py:161-172 | The record before any timing point: title, artist, designer, difficulty index and name, and level; `HeaderCopied` states it for both copies |
| `MajsonRecords.NoteRecordFields` | mai_renderer/renderer.py:196-220 | A note record copies the note's fields, offsets a slide's start by the timing point's time and gives other notes 0, turns an empty touch area into one space, carries the cleaned text, and keeps the fake-rotate and force-star flags false |
| `MajsonRecords.NoteRecordsSnoc` | mai_renderer/renderer.py:221 | Each pass of the note loop appends the note's record |
| `MajsonRecords.NoteRecordsOneToOne` | mai_renderer/renderer.py:186-221 | One record per note, in the notes' order |
| `MajsonRecords.AllNotesSplit` | mai_renderer/renderer.py:177-221 | The notes met over two runs of timing points are those of each run in turn |
| `MajsonRecords.FirstNote` | mai_renderer/renderer.py:177-205 | Some note is met exactly when some timing point has notes; the first met is the first note of the first such timing point |
| `MajsonRecords.NoNotes` | mai_renderer/renderer.py:177-205 | Timing points without notes give no note |
| `MajsonDict.Put` | mai_renderer/renderer.py:56 | `d[key] = v` stores `v` under the key, leaves every other key alone and adds an entry only for a new key |
| `MajsonDict.PutPast` | mai_renderer/renderer.py:56 | Storing under a key the first entry does not hold keeps that entry first |
| `MajsonDict.NoteToDict` | mai_renderer/renderer.py:53-57 | A note's dictionary holds the type's name under `noteType` and `asdict`'s value under every other key |
| `MajsonDict.NoteAsDict` | mai_renderer/renderer.py:53-57 | `asdict` of a note: its fields in declaration order; `NoteDictEntries` and `NoteRoundTrip` state it |
| `MajsonDict.NoteDictEntries` | mai_renderer/renderer.py:53-57 | The entries are the fields in declaration order, the type's name in the member's place |
| `MajsonDict.NoteDictIsJson` | mai_renderer/renderer.py:53-57 | No enumeration member is left in a note's dictionary |
| `MajsonDict.NoteRoundTrip` | mai_renderer/renderer.py:53-57 | Reading a note's dictionary back gives the note |
| `MajsonDict.NoteToDicts` | mai_renderer/renderer.py:76 | One dictionary per note, in order |
| `MajsonDict.PointToDict` | mai_renderer/renderer.py:73-77 | A timing point's dictionary holds its notes' dictionaries under `noteList` and `asdict`'s value under every other key |
| `MajsonDict.PointAsDict` | mai_renderer/renderer.py:73-77 | `asdict` of a timing point, its notes turned into dictionaries too; `PointDictEntries` and `PointRoundTrip` state it |
| `MajsonDict.PointDictEntries` | mai_renderer/renderer.py:73-77 | The entries are the fields in declaration order, the note list in its own place |
| `MajsonDict.PointDictIsJson` | mai_renderer/renderer.py:73-77 | No enumeration member is left in a timing point's dictionary |
| `MajsonDict.NotesFromList` | mai_renderer/renderer.py:76 | Decoding a list of note dictionaries gives one note per item |
| `MajsonDict.NotesRoundTrip` | mai_renderer/renderer.py:76 | Reading the note dictionaries back gives the notes |
| `MajsonDict.PointRoundTrip` | mai_renderer/renderer.py:73-77 | Reading a timing point's dictionary back gives the timing point |
| `MajsonDict.PointToDicts` | mai_renderer/renderer.py:114 | One dictionary per timing point, in order |
| `MajsonDict.MajsonToDict` | mai_renderer/renderer.py:106-116 | The chart's dictionary is a dictionary; `MajsonRoundTrip` shows it keeps every field |
| `MajsonDict.MajsonDictIsJson` | mai_renderer/renderer.py:106-120 | No enumeration member is left anywhere in the chart's dictionary, so `json.dumps` accepts it |
| `MajsonDict.PointsFromList` | mai_renderer/renderer.py:114 | Decoding a list of timing point dictionaries gives one timing point per item |
| `MajsonDict.PointsRoundTrip` | mai_renderer/renderer.py:114 | Reading the timing point dictionaries back gives the timing points |
| `MajsonDict.MajsonRoundTrip` | mai_renderer/renderer.py:106-116 | Reading the chart's dictionary back gives the chart: every field of every record is carried |
| `RendererMajson.GenerateMajson` | mai_renderer/renderer.py:149-225 | The nested loops compute `Generated`: the header alone for an absent difficulty, the unbound-variable error when the first note is a head-less slide, otherwise one record per timing point |
| `RendererMajson.ConvertNotes` | mai_renderer/renderer.py:186-221 | The inner loop gives one record per note, in order; it fails with the unbound-variable error exactly when nothing is bound yet and the first note is a head-less slide, and after it something is bound unless there were no notes and nothing before |
| `RendererMajson.UnboundAtFirstNote` | mai_renderer/renderer.py:202-205 | A head-less slide at the first timing point with notes is the first note met |
| `RendererMajson.PointRecordsOneToOne` | mai_renderer/renderer.py:177-223 | One timing point record per timing point, in order |
| `RendererMajson.PointRecord` | mai_renderer/renderer.py:177-221 | A point's record: its time, tempo and raw text position, and its notes' records; `OneToOne` states it |
| `RendererMajson.PointRecords` | mai_renderer/renderer.py:176-223 | The records of the points, one appended per point; `PointRecordsOneToOne` states it |
| `RendererMajson.HeaderCopied` | mai_renderer/renderer.py:161-172 | Every result that is not an error carries the chart's title, artist and designer, the difficulty index and its name, and the level; an absent difficulty gives no timing points |
| `RendererMajson.OneToOne` | mai_renderer/renderer.py:177-223 | One record per timing point with its time, bpm and raw text position, other fields at their defaults, and one record per note |
| `RendererMajson.UnboundExactly` | mai_renderer/renderer.py:202-205 | The conversion fails, always with UnboundLocalError, exactly when the difficulty is present and the first timing point with notes starts with a head-less slide |
| `RendererMajson.FirstWithNotes` | mai_renderer/renderer.py:177-205 | The first timing point that has notes, when one has |
| `RendererMajson.Generated` | mai_renderer/renderer.py:149-225 | What `generate_majson` gives: the header alone for an absent difficulty, UnboundLocalError when the first note is a head-less slide, otherwise one record per timing point; `HeaderCopied`, `OneToOne` and `UnboundExactly` state it |
| `MajdataJson.GenerateMajson` | mai_renderer/majdata/json.py:134-203 | The nested loops compute `Generated`: the header alone for an absent difficulty, otherwise one record per timing point; no chart fails |
| `MajdataJson.PointRecordsOneToOne` | mai_renderer/majdata/json.py:162-201 | One timing point record per timing point, in order |
| `MajdataJson.PointRecord` | mai_renderer/majdata/json.py:162-199 | A point's record: its time and tempo, the raw position at its default, and its notes' records; `OneToOne` and `AgreesWithRenderer` state it |
| `MajdataJson.PointRecords` | mai_renderer/majdata/json.py:161-201 | The records of the points, one appended per point; `PointRecordsOneToOne` states it |
| `MajdataJson.HeaderCopied` | mai_renderer/majdata/json.py:145-157 | The chart's title, artist and designer, the difficulty index and its name, and the level are copied; an absent difficulty gives no timing points |
| `MajdataJson.OneToOne` | mai_renderer/majdata/json.py:162-201 | One record per timing point with its time and bpm, the raw text position and other fields at their defaults, and one record per note |
| `MajdataJson.AgreesWithRenderer` | mai_renderer/majdata/json.py:134-203 | Wherever the renderer's copy does not fail, both give the same header and the same timing points except for the raw text position, which this copy leaves at 0 |
| `MajdataJson.Generated` | mai_renderer/majdata/json.py:134-203 | What this copy of `generate_majson` gives: the header alone for an absent difficulty, otherwise one record per timing point; `HeaderCopied`, `OneToOne` and `AgreesWithRenderer` state it |
| `Maidata.LoadMaidata` | mai_renderer/chart_loader.py:71-150 | `load_chart` with its real callees, each corrected only where the source loops forever: seven level texts, and charts only under difficulties 0..6 |
| `Maidata.ParseNoteHolds` | mai_renderer/chart_loader.py:390-415 | Every note `_parse_note` returns passes the hold-length test, the premise the group and scanner lemmas take |
| `Maidata.LoadedPointsHaveNotes` | mai_renderer/chart_loader.py:71-272 | Every timing point of every chart a maidata file loads to carries notes |
| `Maidata.LoadedHoldsHaveLength` | mai_renderer/chart_loader.py:71-415 | Every hold and touch hold of every chart a maidata file loads to has a non-zero length |
| `Maidata.TokenizeText` | mai_renderer/simai/tokenizer.py:46-136 | `tokenize_simai` with `float()` and `int()`: every note group token is non-empty, starts with a note start and holds no `,` or newline; the only error is ValueError, at a note start with no `,` or no newline after it |
| `Maidata.TempoFirst` | mai_renderer/simai/tokenizer.py:86-99 | A text opening with `(w)`, `w` a whole number, yields `BPM(w)` first and goes on after the `)` |
| `Maidata.TempoOpens` | mai_renderer/simai/tokenizer.py:86-99 | Any text whose first characters are `(`, whole-number digits `w` and `)` tokenizes to `BPM(w)` followed by the tokens after the `)` |
| `Maidata.TempoPassFirst` | mai_renderer/simai/tokenizer.py:86-99 | The pass over such a `(w)` yields `BPM(float(w))` and resumes after the `)` |
| `Maidata.DivisionFirst` | mai_renderer/simai/tokenizer.py:100-113 | A text opening with `{n}`, `n` digits, yields `Division(n)` first and goes on after the `}` |
| `Maidata.DivisionOpens` | mai_renderer/simai/tokenizer.py:100-113 | Any text whose first characters are `{`, digits `n` and `}` tokenizes to `Division(n)` followed by the tokens after the `}` |
| `Maidata.DivisionPassFirst` | mai_renderer/simai/tokenizer.py:100-113 | The pass over such a `{n}` yields `Division(int(n))` and resumes after the `}` |

## Left out

- File input: `load_chart` opens and reads `maidata.txt`; the model takes the file's lines as a sequence of strings.
- Floating point: Python floats are modelled as exact reals, so rounding error in sums and in `time * 1000` is not modelled.
- `Py.ParseFloat`: `float()` is modelled for optional blanks, an optional sign, and decimal digits with at most one point. Exponents, `inf`/`nan`, underscores and non-ASCII digits are not accepted.
- `Py.ParseInt`: `int()` is modelled for optional blanks, an optional sign and ASCII digits. Underscores and non-ASCII digits are not accepted.
- `Py.IsSpace`: `str.isspace` and `strip()` are modelled for ASCII whitespace only.
- Regular expressions (`&lv_(\d)=(.+)`, `&inote_(\d)=`) are written as explicit matchers. They agree with the patterns for ASCII digits only; see `Py.IsDigit`.
- `Py.IsDigit`: `\d` (chart_loader.py:114, 124), `str.isdigit()` (chart_loader.py:536, 560, 722) and `int()` of one character are modelled for the ASCII digits `0`-`9` only. In Python they also accept other Unicode decimal digits, such as `٣`, which `int()` reads as 3. `isdigit()` is also true of superscripts such as `²`, on which `int()` then raises ValueError. The model treats all of these as non-digits.
- `ChartLoader.LevelMatch`: recognises `&lv_N=` only with an ASCII digit `N`; see `Py.IsDigit`.
- `ChartLoader.NoteMatch`: recognises `&inote_N=` only with an ASCII digit `N`; see `Py.IsDigit`.
- `NoteGrammar.DigitRun`: the sensor number after a touch area letter (chart_loader.py:560) is read from ASCII digits only; see `Py.IsDigit`.
- `NoteGrammar.NoteHead`: a button note must start with an ASCII digit, where `int(note_str[i])` (chart_loader.py:567) also reads other Unicode digits; see `Py.IsDigit`.
- `SlideGrammar.LastDigit`: the last digit of a slide track (chart_loader.py:536, 722) is looked for among the ASCII digits only; see `Py.IsDigit`.
- `SlideGrammar.EndDigit`: the end position of a slide is therefore taken from the last ASCII digit only; see `Py.IsDigit`.
- The callees of the loader, the scanner and the group parser are parameters of their functions (`SimaiParser`, `NoteParser`, `GroupParser`, the `float`/`int` readers), so their lemmas hold for any callee. `Maidata.LoadMaidata` is `load_chart` with its real callees: the scanner over the group parser (corrected only where it stalls) over `NoteGrammar.ParseNote`, and `float()`. `Maidata.TokenizeText` is `tokenize_simai` with `float()` and `int()`. The lemmas in `Maidata` state the parts' properties of the composed program.
- A bpm or division of zero is not excluded. It raises ZeroDivisionError as the source does, and the model returns that error.
- The second loop of `_skip_past_all_slide_tracks` over the shape letters never runs, because every shape letter is also a slide mark. The model proves that and keeps only the first loop.
- The tokenizer is a generator; the model is the finite list of tokens it yields, followed by the error that ends it, if any.
- `SoundTimingGenerator._generate_clock_sounds` and the `include_op` argument are left out: the only call is in commented-out code (sound_timing.py:77-87).
- `SoundTiming.Generated`: the dictionary key `round(t * 1000) / 1000` is modelled as the integer millisecond `round(t * 1000)`. The two give equal keys for equal milliseconds, and float error is not modelled.
- The fourteen `if flag: effects.append(...)` statements of `_get_effects_from_timing` are written as appends of a list that is empty when the flag is false. The result is the same.
- The interchange records (`SimaiNote`, `SimaiTimingPoint`, `Majson`) are values. Notes are collected in a local list and stored in their timing point record after the note loop; the result is the same as appending to the record's own list.
- `print(prev)` in renderer.py writes to standard output; only the unbound-variable error it can raise is modelled.
- Dictionaries built by `asdict` and `to_dict` are modelled as insertion-ordered entry lists. The decoders used for the round trips read the keys in that order.
- `to_json` / `json.dumps` are left out. The model proves instead that no enumeration member is left in a dictionary, which is what makes it encodable.
- mai_renderer/simai/loader.py is not part of this model.
- ipc.py, config.py, the `Renderer` class and its video output, the command-line entry point, and the audio side of sound/render.py (loading, resampling, mixing and writing WAV files) are left out: they do I/O or call libraries.

## Findings

| source | as written | input that shows it | evidently intended | confidence | as-written member | corrected member |
|---|---|---|---|---|---|---|
| mai_renderer/chart_loader.py:316-336 | In an EACH group, when the first member yields no note, the loop breaks without moving. `_parse_note_group` then returns the group's own start index, and `_parse_simai` (chart_loader.py:253-268) sets `i` to it and scans the same group again, forever | a chart block holding `1-*/2,`, whose first member is a slide chain with no usable track | skip a member that yields nothing while no earlier member has yielded a note, as the pseudo-EACH branch skips an empty segment; once notes are collected, keep the as-written `break`, which returns a later index and does not stall (on `2/9-*/4,` the code and the corrected parser both give the point `[2]` and then the point `[4]`) | not executed | `NoteGroups.EachStallsAsWritten`, `SimaiScanner.StallsForever` | `NoteGroups.NoteGroup`, `NoteGroups.CorrectedOnlyWhereStalled`, `SimaiScanner.GroupsAdvance` |
| mai_renderer/chart_loader.py:122-142 | An `&inote_` line that does not match `&inote_(\d)=` takes the `continue` without `i += 1`, so `load_chart` reads the same line forever | the line `&inote_x=` | skip the line, as every other branch does | not executed | `ChartLoader.NoteLineStallsAsWritten`, `ChartLoader.NoteLineWithoutDigit` | `ChartLoader.Step`, `ChartLoader.Load` |
