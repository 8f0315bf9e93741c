/**
  The worked examples of the `D:C` notation, each derived from the general
  forms in `BracketTiming` at a tempo of 120 (one beat = 0.5 s, the chart
  loader's starting tempo) and 160, and the default hold length.
*/
module BracketExamples {
  import opened Py
  import opened BracketTiming

  /** A digit string is a numeral whose float is its value. */
  lemma Whole(w: string, n: nat)
    requires w != [] && AllDigits(w) && DigitsValue(w) == n
    ensures Numeral(w) && ParseFloat(w) == Some(n as real)
  {
    ParseFloatWhole(w);
  }

  /** A one-digit literal is a numeral whose float is that digit. */
  lemma Digit(w: string, n: nat)
    requires |w| == 1 && IsDigit(w[0]) && DigitValue(w[0]) == n
    ensures Numeral(w) && ParseFloat(w) == Some(n as real)
  {
    assert DigitsPrefix(w, 0) == 0;
    Whole(w, n);
  }

  lemma Literal1280()
    ensures Numeral("1280") && ParseFloat("1280") == Some(1280.0)
  {
    assert DigitsPrefix("1280", 1) == 1;
    assert DigitsPrefix("1280", 2) == 12;
    assert DigitsPrefix("1280", 3) == 128;
    Whole("1280", 1280);
  }

  /** The example literals, spelt as the concatenations the general forms take. */
  lemma Spellings()
    ensures "4:5" == "4" + ":" + "5"
    ensures "8:3" == "8" + ":" + "3"
    ensures "1:1" == "1" + ":" + "1"
    ensures "1280:1" == "1280" + ":" + "1"
  {
  }

  /** `4:5` at 120: five quarter notes, 2.5 seconds. */
  lemma FiveQuarters()
    ensures ParseBeatValue("4:5", 120.0) == Ok(2.5)
  {
    Spellings();
    Digit("4", 4);
    Digit("5", 5);
    BeatPartsOfLiterals("4", "5");
    ParseBeatValueOfParts("4:5", 120.0, 4.0, 5.0);
  }

  /** `8:3` at 120: three eighth notes, 0.75 seconds. */
  lemma ThreeEighths()
    ensures ParseBeatValue("8:3", 120.0) == Ok(0.75)
  {
    Spellings();
    Digit("8", 8);
    Digit("3", 3);
    BeatPartsOfLiterals("8", "3");
    ParseBeatValueOfParts("8:3", 120.0, 8.0, 3.0);
  }

  /** `1:1` at 120: one whole note, 2 seconds. */
  lemma WholeNote()
    ensures ParseBeatValue("1:1", 120.0) == Ok(2.0)
  {
    Spellings();
    Digit("1", 1);
    BeatPartsOfLiterals("1", "1");
    ParseBeatValueOfParts("1:1", 120.0, 1.0, 1.0);
  }

  /** `8:3` at 160: 0.5625 seconds. */
  lemma ThreeEighthsAt160()
    ensures ParseBeatValue("8:3", 160.0) == Ok(0.5625)
  {
    Spellings();
    Digit("8", 8);
    Digit("3", 3);
    BeatPartsOfLiterals("8", "3");
    ParseBeatValueOfParts("8:3", 160.0, 8.0, 3.0);
  }

  /** The default hold length `1280:1` is `3 / (16 * bpm)` seconds at any non-zero tempo. */
  lemma DefaultHoldLength(bpm: real)
    requires bpm != 0.0
    ensures ParseBeatValue("1280:1", bpm) == Ok(3.0 / (16.0 * bpm))
  {
    Spellings();
    Literal1280();
    Digit("1", 1);
    BeatPartsOfLiterals("1280", "1");
    ParseBeatValueOfParts("1280:1", bpm, 1280.0, 1.0);
    HoldSeconds(bpm);
  }

  lemma HoldSeconds(bpm: real)
    requires bpm != 0.0
    ensures BeatSeconds(bpm, 1280.0, 1.0) == Ok(3.0 / (16.0 * bpm))
  {
    BeatSecondsFormula(bpm, 1280.0, 1.0);
    var x := 240.0 * 1.0 / (bpm * 1280.0);
    assert x * (bpm * 1280.0) == 240.0;
    var y := 3.0 / (16.0 * bpm);
    assert y * (16.0 * bpm) == 3.0;
    assert x * (16.0 * bpm) * 80.0 == 240.0;
    Cancel(x, y, 16.0 * bpm);
  }
}
