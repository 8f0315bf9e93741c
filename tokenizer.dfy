/**
  The standalone simai tokenizer (`simai/tokenizer.py`): a second scan of
  the same chart text that keeps no timing state and only reports what it
  finds, as `BPM`, `Division`, `NoteGroup` and `AdvanceTime` tokens.

  `tokenize_simai` is a generator; a caller sees the tokens yielded so far
  and then, possibly, the ValueError of a note group with no `,` or no
  newline after it. A `Stream` records both.
*/
module Tokenizer {
  import opened Py
  import NoteGroups

  /** The token dataclasses; each one's `type` field is `TypeOf`. */
  datatype Token = BPM(bpm: real) | Division(beats: int) | NoteGroup(notes: string) | AdvanceTime

  /** The literal `type` field of each token class. */
  function TypeOf(t: Token): (s: string)
    ensures s in {"bpm", "division", "notes", "advance"}
  {
    match t
    case BPM(_) => "bpm"
    case Division(_) => "division"
    case NoteGroup(_) => "notes"
    case AdvanceTime => "advance"
  }

  /** The `type` field tells the token classes apart. */
  lemma TypeOfDistinguishes(a: Token, b: Token)
    ensures TypeOf(a) == TypeOf(b) <==>
      (a.BPM? && b.BPM?) || (a.Division? && b.Division?) || (a.NoteGroup? && b.NoteGroup?) || (a.AdvanceTime? && b.AdvanceTime?)
  {
    assert |TypeOf(a)| == (if a.BPM? then 3 else if a.Division? then 8 else if a.NoteGroup? then 5 else 7);
    assert |TypeOf(b)| == (if b.BPM? then 3 else if b.Division? then 8 else if b.NoteGroup? then 5 else 7);
  }

  /** What the tokenizer yields, in order, and the exception that ended it, if any. */
  datatype Stream = Stream(tokens: seq<Token>, raised: Option<Exception>)

  // ---------------------------------------------------------------- one step

  /** `_is_note_start`: a button `1`..`8` or `E`, or a touch area `A`..`E`. */
  predicate IsNoteStart(text: string, pos: nat) {
    pos < |text| && (text[pos] in "12345678E" || text[pos] in "ABCDE")
  }

  /** The tokenizer's note starts are the chart scanner's. */
  lemma SameNoteStarts(text: string, pos: nat)
    ensures IsNoteStart(text, pos) <==> NoteGroups.IsNoteStart(text, pos)
  {
    if pos < |text| {
      var c := text[pos];
      assert c in "12345678E" <==> ('1' <= c <= '8' || c == 'E');
      assert c in "ABCDE" <==> 'A' <= c <= 'E';
    }
  }

  /** An `E` that ends the text or its line closes a difficulty; it is not a note. */
  predicate EndMarker(text: string, i: nat)
    requires i < |text|
  {
    text[i] == 'E' && (i + 1 >= |text| || text[i + 1] == '\n')
  }

  /**
    `min(text.index(",", i), text.index("\n", i))`: the nearer delimiter,
    or ValueError when either one is missing.
  */
  function GroupEnd(text: string, i: nat): (r: Outcome<nat>)
    requires i <= |text|
    ensures r.Raise? <==> FindAny(text, i, ",") == |text| || FindAny(text, i, "\n") == |text|
    ensures r.Raise? ==> r.exc == ValueError
    ensures r.Ok? ==> r.value == FindAny(text, i, ",\n") && r.value < |text|
  {
    var comma := FindAny(text, i, ",");
    var newline := FindAny(text, i, "\n");
    if comma == |text| || newline == |text| then Raise(ValueError)
    else
      var e := if comma < newline then comma else newline;
      FindAnyIs(text, i, ",\n", e);
      Ok(e)
  }

  /** A pass of the loop: at most one token, and the index to resume at. */
  datatype Emit = Emit(token: Option<Token>, next: nat)

  /** A `(...)` or `{...}` directive's text, from `i` to its closing bracket or the end. */
  function Directive(text: string, i: nat, close: char): (content: string)
    requires i < |text|
  {
    text[i + 1..FindAny(text, i + 1, [close])]
  }

  /** One pass of `tokenize_simai`'s loop at index `i`. */
  function Step(text: string, i: nat, toReal: string -> Option<real>, toInt: string -> Option<int>): (r: Outcome<Emit>)
    requires i < |text|
    ensures r.Ok? ==> i < r.value.next <= |text| + 1
    ensures r.Raise? ==> IsNoteStart(text, i) && r.exc == ValueError
  {
    var c := text[i];
    if c == '\n' then Ok(Emit(None, i + 1))
    else if c == '|' && i + 1 < |text| && text[i + 1] == '|' then Ok(Emit(None, FindAny(text, i, "\n")))
    else if c == ' ' || c == '\t' || c == '\r' then Ok(Emit(None, i + 1))
    else if c == '(' then
      var token := match toReal(Directive(text, i, ')')) case Some(v) => Some(BPM(v)) case None => None;
      Ok(Emit(token, FindAny(text, i + 1, ")") + 1))
    else if c == '{' then
      var token := match toInt(Directive(text, i, '}')) case Some(v) => Some(Division(v)) case None => None;
      Ok(Emit(token, FindAny(text, i + 1, "}") + 1))
    else if c == ',' then Ok(Emit(Some(AdvanceTime), i + 1))
    else if EndMarker(text, i) then Ok(Emit(None, i + 1))
    else if IsNoteStart(text, i) then
      match GroupEnd(text, i)
      case Raise(x) => Raise(x)
      case Ok(e) => Ok(Emit(Some(NoteGroup(text[i..e])), e))
    else Ok(Emit(None, i + 1))
  }

  // ---------------------------------------------------------------- the stream

  /** A token (if any) in front of a stream. */
  function Cons(token: Option<Token>, s: Stream): Stream
  {
    match token
    case None => s
    case Some(t) => Stream([t] + s.tokens, s.raised)
  }

  /** The loop run from index `i` to the end of the text. */
  function Run(text: string, i: nat, toReal: string -> Option<real>, toInt: string -> Option<int>): (s: Stream)
    requires i <= |text| + 1
    decreases |text| + 1 - i
  {
    if i >= |text| then Stream([], None)
    else
      match Step(text, i, toReal, toInt)
      case Raise(x) => Stream([], Some(x))
      case Ok(Emit(token, next)) => Cons(token, Run(text, next, toReal, toInt))
  }

  /** `tokenize_simai`, with `float()` and `int()` as `toReal` and `toInt`. */
  function Tokenize(text: string, toReal: string -> Option<real>, toInt: string -> Option<int>): Stream
  {
    Run(text, 0, toReal, toInt)
  }

  // ---------------------------------------------------------------- properties

  /** A pass yields `AdvanceTime` exactly at a `,`, and then moves one character on. */
  lemma AdvanceAtComma(text: string, i: nat, toReal: string -> Option<real>, toInt: string -> Option<int>)
    requires i < |text|
    ensures Step(text, i, toReal, toInt).Ok? && Step(text, i, toReal, toInt).value.token == Some(AdvanceTime)
      <==> text[i] == ','
    ensures text[i] == ',' ==> Step(text, i, toReal, toInt) == Ok(Emit(Some(AdvanceTime), i + 1))
  {
  }

  /**
    `(x)` yields `BPM(float(x))` when `x` parses and nothing otherwise, and
    `{n}` yields `Division(int(n))` likewise; either way the scan resumes
    after the closing bracket.
  */
  lemma DirectiveTokens(text: string, i: nat, toReal: string -> Option<real>, toInt: string -> Option<int>)
    requires i < |text|
    ensures text[i] == '(' ==> Step(text, i, toReal, toInt) == Ok(Emit(
      if toReal(Directive(text, i, ')')).Some? then Some(BPM(toReal(Directive(text, i, ')')).value)) else None,
      FindAny(text, i + 1, ")") + 1))
    ensures text[i] == '{' ==> Step(text, i, toReal, toInt) == Ok(Emit(
      if toInt(Directive(text, i, '}')).Some? then Some(Division(toInt(Directive(text, i, '}')).value)) else None,
      FindAny(text, i + 1, "}") + 1))
  {
  }

  /** A pass yields a `BPM` only at `(`, and a `Division` only at `{`. */
  lemma DirectivesOnlyAtBrackets(text: string, i: nat, toReal: string -> Option<real>, toInt: string -> Option<int>)
    requires i < |text| && Step(text, i, toReal, toInt).Ok? && Step(text, i, toReal, toInt).value.token.Some?
    ensures Step(text, i, toReal, toInt).value.token.value.BPM? ==> text[i] == '('
    ensures Step(text, i, toReal, toInt).value.token.value.Division? ==> text[i] == '{'
  {
  }

  /**
    Newlines, blanks, `||` comments (to the end of their line), an `E`
    that closes the text or its line, and characters the tokenizer does
    not know yield nothing.
  */
  lemma SilentCharacters(text: string, i: nat, toReal: string -> Option<real>, toInt: string -> Option<int>)
    requires i < |text|
    ensures text[i] in "\n \t\r" ==> Step(text, i, toReal, toInt) == Ok(Emit(None, i + 1))
    ensures text[i] == '|' && i + 1 < |text| && text[i + 1] == '|' ==>
      Step(text, i, toReal, toInt) == Ok(Emit(None, FindAny(text, i, "\n")))
    ensures EndMarker(text, i) ==> Step(text, i, toReal, toInt) == Ok(Emit(None, i + 1))
    ensures text[i] !in "\n|( \t\r{," && !IsNoteStart(text, i) ==> Step(text, i, toReal, toInt) == Ok(Emit(None, i + 1))
  {
  }

  /**
    A note group starts only at a note start that is not an end marker;
    its text runs to the nearer of the next `,` and newline, where the
    scan resumes; without either delimiter the pass raises ValueError.
  */
  lemma GroupTokens(text: string, i: nat, toReal: string -> Option<real>, toInt: string -> Option<int>)
    requires i < |text|
    ensures (Step(text, i, toReal, toInt).Ok? && Step(text, i, toReal, toInt).value.token.Some? &&
             Step(text, i, toReal, toInt).value.token.value.NoteGroup?)
      ==> IsNoteStart(text, i) && !EndMarker(text, i)
    ensures IsNoteStart(text, i) && !EndMarker(text, i) ==>
      (Step(text, i, toReal, toInt).Raise? <==> FindAny(text, i, ",") == |text| || FindAny(text, i, "\n") == |text|)
    ensures IsNoteStart(text, i) && !EndMarker(text, i) && Step(text, i, toReal, toInt).Ok? ==>
      var e := FindAny(text, i, ",\n");
      Step(text, i, toReal, toInt) == Ok(Emit(Some(NoteGroup(text[i..e])), e))
  {
    var c := text[i];
    if IsNoteStart(text, i) {
      assert c != '\n' && c != '|' && c != ' ' && c != '\t' && c != '\r' && c != '(' && c != '{' && c != ',';
    }
  }

  /** A `NoteGroup` token's text. */
  predicate CleanGroup(t: Token) {
    t.NoteGroup? ==>
      t.notes != [] && (t.notes[0] in "12345678E" || t.notes[0] in "ABCDE") && ',' !in t.notes && '\n' !in t.notes
  }

  /**
    Every note group the tokenizer yields is non-empty, starts with a note
    start, and holds neither `,` nor a newline.
  */
  lemma {:induction false} GroupsAreClean(text: string, i: nat, toReal: string -> Option<real>, toInt: string -> Option<int>)
    requires i <= |text| + 1
    ensures forall k :: 0 <= k < |Run(text, i, toReal, toInt).tokens| ==> CleanGroup(Run(text, i, toReal, toInt).tokens[k])
    decreases |text| + 1 - i
  {
    if i < |text| {
      var step := Step(text, i, toReal, toInt);
      if step.Ok? {
        GroupsAreClean(text, step.value.next, toReal, toInt);
        var rest := Run(text, step.value.next, toReal, toInt);
        if step.value.token.Some? {
          var t := step.value.token.value;
          if t.NoteGroup? {
            GroupTokens(text, i, toReal, toInt);
            var e := FindAny(text, i, ",\n");
            assert t.notes == text[i..e];
            assert forall j :: 0 <= j < |t.notes| ==> t.notes[j] == text[i + j];
            assert t.notes[0] == text[i];
          }
          assert Run(text, i, toReal, toInt).tokens == [t] + rest.tokens;
        }
      }
    }
  }

  /** A note start from which a `,` or a newline is missing. */
  predicate Unterminated(text: string, p: nat) {
    IsNoteStart(text, p) && (FindAny(text, p, ",") == |text| || FindAny(text, p, "\n") == |text|)
  }

  /** The tokenizer raises only ValueError, and only at a note start with no `,` or no newline after it. */
  lemma {:induction false} RaisesOnlyAtGroups(text: string, i: nat, toReal: string -> Option<real>, toInt: string -> Option<int>)
    requires i <= |text| + 1
    ensures Run(text, i, toReal, toInt).raised.Some? ==>
      Run(text, i, toReal, toInt).raised == Some(ValueError) && exists p :: i <= p && Unterminated(text, p)
    decreases |text| + 1 - i
  {
    if i < |text| {
      var step := Step(text, i, toReal, toInt);
      if step.Ok? {
        RaisesOnlyAtGroups(text, step.value.next, toReal, toInt);
      } else {
        GroupTokens(text, i, toReal, toInt);
        assert Unterminated(text, i);
      }
    }
  }

  // ---------------------------------------------------------------- the code

  /** `text.index(c, i)`, with ValueError when `c` does not occur from `i` on. */
  method Index(text: string, c: char, i: nat) returns (r: Outcome<nat>)
    requires i <= |text|
    ensures r.Ok? <==> FindAny(text, i, [c]) < |text|
    ensures r.Ok? ==> r.value == FindAny(text, i, [c])
    ensures r.Raise? ==> r.exc == ValueError
  {
    var k := i;
    while k < |text| && text[k] != c
      invariant i <= k <= |text|
      invariant FindAny(text, k, [c]) == FindAny(text, i, [c])
      decreases |text| - k
    {
      k := k + 1;
    }
    if k == |text| {
      return Raise(ValueError);
    }
    r := Ok(k);
  }

  /** The loop that collects a directive's text, one character at a time. */
  method ReadDirective(text: string, i: nat, close: char) returns (content: string, e: nat)
    requires i < |text|
    ensures e == FindAny(text, i + 1, [close]) && content == Directive(text, i, close)
  {
    e := i + 1;
    content := "";
    while e < |text| && text[e] != close
      invariant i + 1 <= e <= |text|
      invariant FindAny(text, e, [close]) == FindAny(text, i + 1, [close])
      invariant content == text[i + 1..e]
      decreases |text| - e
    {
      SliceSnoc(text, i + 1, e);
      content := content + [text[e]];
      e := e + 1;
    }
  }

  /** The note-group branch as code. */
  method ReadGroup(text: string, i: nat) returns (r: Outcome<Emit>)
    requires i < |text|
    ensures r == (match GroupEnd(text, i) case Raise(x) => Raise(x) case Ok(e) => Ok(Emit(Some(NoteGroup(text[i..e])), e)))
  {
    var comma := Index(text, ',', i);
    if comma.Raise? {
      return Raise(comma.exc);
    }
    var newline := Index(text, '\n', i);
    if newline.Raise? {
      return Raise(newline.exc);
    }
    var e := if comma.value < newline.value then comma.value else newline.value;
    r := Ok(Emit(Some(NoteGroup(text[i..e])), e));
  }

  /** One pass of the loop, as code. */
  method NextToken(text: string, i: nat, toReal: string -> Option<real>, toInt: string -> Option<int>) returns (r: Outcome<Emit>)
    requires i < |text|
    ensures r == Step(text, i, toReal, toInt)
  {
    var c := text[i];
    if c == '\n' {
      return Ok(Emit(None, i + 1));
    }
    if c == '|' && i + 1 < |text| && text[i + 1] == '|' {
      var k := i;
      while k < |text| && text[k] != '\n'
        invariant i <= k <= |text|
        invariant FindAny(text, k, "\n") == FindAny(text, i, "\n")
        decreases |text| - k
      {
        k := k + 1;
      }
      return Ok(Emit(None, k));
    }
    if c == ' ' || c == '\t' || c == '\r' {
      return Ok(Emit(None, i + 1));
    }
    if c == '(' {
      var content, e := ReadDirective(text, i, ')');
      var v := toReal(content);
      var token: Option<Token> := None;
      if v.Some? {
        token := Some(BPM(v.value));
      }
      return Ok(Emit(token, e + 1));
    }
    if c == '{' {
      var content, e := ReadDirective(text, i, '}');
      var v := toInt(content);
      var token: Option<Token> := None;
      if v.Some? {
        token := Some(Division(v.value));
      }
      return Ok(Emit(token, e + 1));
    }
    if c == ',' {
      return Ok(Emit(Some(AdvanceTime), i + 1));
    }
    if c == 'E' && (i + 1 >= |text| || text[i + 1] == '\n') {
      return Ok(Emit(None, i + 1));
    }
    if IsNoteStart(text, i) {
      r := ReadGroup(text, i);
      return;
    }
    r := Ok(Emit(None, i + 1));
  }

  /** `tokenize_simai` as code: the tokens in the order the generator yields them. */
  method TokenizeSimai(text: string, toReal: string -> Option<real>, toInt: string -> Option<int>) returns (r: Stream)
    ensures r == Tokenize(text, toReal, toInt)
  {
    var tokens: seq<Token> := [];
    var i := 0;
    while i < |text|
      invariant i <= |text| + 1
      invariant Tokenize(text, toReal, toInt) == Stream(tokens + Run(text, i, toReal, toInt).tokens, Run(text, i, toReal, toInt).raised)
      decreases |text| + 1 - i
    {
      var step := NextToken(text, i, toReal, toInt);
      if step.Raise? {
        return Stream(tokens, Some(step.exc));
      }
      if step.value.token.Some? {
        assert tokens + Run(text, i, toReal, toInt).tokens
          == (tokens + [step.value.token.value]) + Run(text, step.value.next, toReal, toInt).tokens;
        tokens := tokens + [step.value.token.value];
      }
      i := step.value.next;
    }
    assert tokens + [] == tokens;
    r := Stream(tokens, None);
  }
}
