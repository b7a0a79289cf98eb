/**
 * The clock text shown by the control panel and the overlay: `formatTimer`
 * turns whole seconds into `MM:SS`, or `HH:MM:SS` from one hour on, and the
 * control panel's `parseTimer` reads such text back.
 */
module TimerFormat {
  import opened Wrappers
  import opened Text

  const SecondsPerMinute := 60
  const SecondsPerHour := 3600

  /** One clock field: the decimal digits of `n`, zero-padded to two characters. */
  function Field(n: nat): (r: string)
    ensures AllDigits(r) && DigitsValue(r) == n
    ensures ':' !in r
    ensures |r| >= 2 && (n < 100 ==> |r| == 2)
  {
    var d := DecimalString(n);
    var r := PadTwo(d);
    if |d| == 1 then
      assert r == "0" + d;
      LeadingZero(d);
      r
    else r
  }

  /** `formatTimer(seconds)`. */
  function FormatTimer(seconds: nat): string
  {
    var hours := seconds / SecondsPerHour;
    var minutes := (seconds % SecondsPerHour) / SecondsPerMinute;
    var secs := seconds % SecondsPerMinute;
    if hours > 0 then Field(hours) + ":" + Field(minutes) + ":" + Field(secs)
    else Field(minutes) + ":" + Field(secs)
  }

  /**
   * `parseTimer(timeStr)`: split at ':', read each part with `Number`, and
   * combine two parts as minutes and seconds, three as hours, minutes and
   * seconds; any other number of parts reads as 0. `None` stands for NaN,
   * which a part that is not a number propagates.
   */
  function ParseTimer(timeStr: string): Option<int>
  {
    CombineParts(ReadNumbers(Split(timeStr, ':')))
  }

  /** `parts.map(Number)`. */
  function ReadNumbers(parts: seq<string>): (nums: seq<Option<int>>)
    ensures |nums| == |parts|
  {
    if parts == [] then [] else [ToNumber(parts[0])] + ReadNumbers(parts[1..])
  }

  /** The arithmetic `parseTimer` applies to the numbers read from the parts. */
  function CombineParts(nums: seq<Option<int>>): Option<int>
  {
    if |nums| == 2 then
      if nums[0].Some? && nums[1].Some? then Some(nums[0].value * 60 + nums[1].value) else None
    else if |nums| == 3 then
      if nums[0].Some? && nums[1].Some? && nums[2].Some? then
        Some(nums[0].value * 3600 + nums[1].value * 60 + nums[2].value)
      else None
    else Some(0)
  }

  /** The fields `FormatTimer` prints, each as a digit string with its value. */
  predicate ShowsField(part: string, value: nat)
  {
    AllDigits(part) && DigitsValue(part) == value
  }

  lemma SplitTwo(a: string, b: string)
    requires ':' !in a && ':' !in b
    ensures Split(a + ":" + b, ':') == [a, b]
  {
    SplitAtSeparator(a, ':', b);
    SplitNoSeparator(b, ':');
  }

  lemma SplitThree(a: string, b: string, c: string)
    requires ':' !in a && ':' !in b && ':' !in c
    ensures Split(a + ":" + b + ":" + c, ':') == [a, b, c]
  {
    ThreeFieldsRegroup(a, b, c);
    SplitAtSeparator(a, ':', b + ":" + c);
    SplitTwo(b, c);
    assert [a] + [b, c] == [a, b, c];
  }

  lemma ThreeFieldsRegroup(a: string, b: string, c: string)
    ensures a + ":" + b + ":" + c == a + [':'] + (b + ":" + c)
  {
  }

  /** The hours, minutes and seconds of a count of seconds. */
  lemma ClockArithmetic(seconds: nat)
    ensures seconds < 3600 ==> seconds / 3600 == 0 && seconds % 3600 == seconds
    ensures seconds >= 3600 ==> seconds / 3600 > 0
    ensures (seconds % 3600) / 60 < 60 && seconds % 60 < 60
    ensures (seconds / 3600) * 3600 + ((seconds % 3600) / 60) * 60 + seconds % 60 == seconds
    ensures (seconds / 60) * 60 + seconds % 60 == seconds
  {
  }

  /**
   * Below one hour the text is two two-digit fields, minutes then seconds;
   * from one hour on it is three fields, hours (at least two digits), then
   * minutes and seconds (two digits each, both below 60).
   */
  lemma FormatTimerFields(seconds: nat)
    ensures var parts := Split(FormatTimer(seconds), ':');
      && (seconds < SecondsPerHour ==>
            && |parts| == 2 && |parts[0]| == 2 && |parts[1]| == 2
            && ShowsField(parts[0], seconds / 60) && ShowsField(parts[1], seconds % 60)
            && seconds / 60 < 60)
      && (seconds >= SecondsPerHour ==>
            && |parts| == 3 && |parts[0]| >= 2 && |parts[1]| == 2 && |parts[2]| == 2
            && ShowsField(parts[0], seconds / 3600)
            && ShowsField(parts[1], (seconds % 3600) / 60) && (seconds % 3600) / 60 < 60
            && ShowsField(parts[2], seconds % 60))
  {
    ClockArithmetic(seconds);
    var h, m, s := seconds / 3600, (seconds % 3600) / 60, seconds % 60;
    if h > 0 {
      SplitThree(Field(h), Field(m), Field(s));
    } else {
      SplitTwo(Field(m), Field(s));
    }
  }

  /** `map(Number)` over two and three parts, written out. */
  lemma ReadNumbersShort(a: string, b: string, c: string)
    ensures ReadNumbers([b, c]) == [ToNumber(b), ToNumber(c)]
    ensures ReadNumbers([a, b, c]) == [ToNumber(a), ToNumber(b), ToNumber(c)]
  {
    assert [c][1..] == [];
    assert [b, c][1..] == [c];
    assert [a, b, c][1..] == [b, c];
  }

  /** Two parts that read as numbers combine as minutes and seconds. */
  lemma CombineTwoParts(t: string, a: string, b: string, x: int, y: int)
    requires Split(t, ':') == [a, b] && ToNumber(a) == Some(x) && ToNumber(b) == Some(y)
    ensures ParseTimer(t) == Some(x * 60 + y)
  {
    ReadNumbersShort(a, a, b);
  }

  /** Three parts that read as numbers combine as hours, minutes and seconds. */
  lemma CombineThreeParts(t: string, a: string, b: string, c: string, x: int, y: int, z: int)
    requires Split(t, ':') == [a, b, c]
    requires ToNumber(a) == Some(x) && ToNumber(b) == Some(y) && ToNumber(c) == Some(z)
    ensures ParseTimer(t) == Some(x * 3600 + y * 60 + z)
  {
    ReadNumbersShort(a, b, c);
  }

  lemma ReadTwoNumbers(a: string, b: string, x: int, y: int)
    requires ':' !in a && ':' !in b && ToNumber(a) == Some(x) && ToNumber(b) == Some(y)
    ensures ParseTimer(a + ":" + b) == Some(x * 60 + y)
  {
    SplitTwo(a, b);
    CombineTwoParts(a + ":" + b, a, b, x, y);
  }

  lemma ReadThreeNumbers(a: string, b: string, c: string, x: int, y: int, z: int)
    requires ':' !in a && ':' !in b && ':' !in c
    requires ToNumber(a) == Some(x) && ToNumber(b) == Some(y) && ToNumber(c) == Some(z)
    ensures ParseTimer(a + ":" + b + ":" + c) == Some(x * 3600 + y * 60 + z)
  {
    SplitThree(a, b, c);
    CombineThreeParts(a + ":" + b + ":" + c, a, b, c, x, y, z);
  }

  /** A digit field holds no separator and reads as the number it denotes. */
  lemma DigitField(s: string)
    requires s != [] && AllDigits(s)
    ensures ':' !in s && ToNumber(s) == Some(DigitsValue(s))
  {
    ToNumberOfDigits(s);
  }

  /** Two colon-separated digit fields read as minutes and seconds. */
  lemma ParseTwoFields(a: string, b: string)
    requires a != [] && b != [] && AllDigits(a) && AllDigits(b)
    ensures ParseTimer(a + ":" + b) == Some(DigitsValue(a) * 60 + DigitsValue(b))
  {
    DigitField(a);
    DigitField(b);
    ReadTwoNumbers(a, b, DigitsValue(a), DigitsValue(b));
  }

  /** Three colon-separated digit fields read as hours, minutes and seconds. */
  lemma ParseThreeFields(a: string, b: string, c: string)
    requires a != [] && b != [] && c != [] && AllDigits(a) && AllDigits(b) && AllDigits(c)
    ensures ParseTimer(a + ":" + b + ":" + c)
         == Some(DigitsValue(a) * 3600 + DigitsValue(b) * 60 + DigitsValue(c))
  {
    DigitField(a);
    DigitField(b);
    DigitField(c);
    ReadThreeNumbers(a, b, c, DigitsValue(a), DigitsValue(b), DigitsValue(c));
  }

  /** Below one hour the clock text is two fields: minutes, then seconds. */
  lemma FormatBelowHour(seconds: nat)
    requires seconds < SecondsPerHour
    ensures FormatTimer(seconds) == Field(seconds / 60) + ":" + Field(seconds % 60)
  {
    assert seconds % 3600 == seconds;
  }

  /** From one hour on the clock text is three fields: hours, minutes, seconds. */
  lemma FormatFromHour(seconds: nat)
    requires seconds >= SecondsPerHour
    ensures FormatTimer(seconds)
         == Field(seconds / 3600) + ":" + Field((seconds % 3600) / 60) + ":" + Field(seconds % 60)
  {
    assert seconds / 3600 > 0;
  }

  lemma ReadBelowHour(seconds: nat, text: string)
    requires seconds < SecondsPerHour
    requires text == Field(seconds / 60) + ":" + Field(seconds % 60)
    ensures ParseTimer(text) == Some(seconds)
  {
    ParseTwoFields(Field(seconds / 60), Field(seconds % 60));
  }

  lemma ReadFromHour(seconds: nat, text: string)
    requires text == Field(seconds / 3600) + ":" + Field((seconds % 3600) / 60) + ":" + Field(seconds % 60)
    ensures ParseTimer(text) == Some(seconds)
  {
    var h, m, s := seconds / 3600, (seconds % 3600) / 60, seconds % 60;
    assert h * 3600 + m * 60 + s == seconds by {
      ClockArithmetic(seconds);
    }
    var fh, fm, fs := Field(h), Field(m), Field(s);
    assert DigitsValue(fh) == h && DigitsValue(fm) == m && DigitsValue(fs) == s;
    ParseThreeFields(fh, fm, fs);
  }

  /** Parsing the text `FormatTimer` prints gives back the number of seconds. */
  lemma ParseFormatRoundTrip(seconds: nat)
    ensures ParseTimer(FormatTimer(seconds)) == Some(seconds)
  {
    if seconds < SecondsPerHour {
      FormatBelowHour(seconds);
      ReadBelowHour(seconds, FormatTimer(seconds));
    } else {
      FormatFromHour(seconds);
      ReadFromHour(seconds, FormatTimer(seconds));
    }
  }
}
