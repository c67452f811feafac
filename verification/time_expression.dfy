/**
 * TTML time expressions (rs_mcai_worker_sdk/src/message/media/ttml/
 * time_expression.rs): their `Display` text and the reading of that text
 * back. Offsets are `f32` values; their decimal text and its parsing are
 * the parameters `show` and `parse`.
 */
module TimeExpressions {
  import opened Wrappers
  import opened Strings

  datatype Frames = FrameCount(value: nat) | SubFrames(value: nat)

  datatype TimeUnit = Hours | Minutes | Seconds | Milliseconds | FramesUnit | Ticks

  /** Clock fields are `u16`, `u8`, `u8` and a `u16` frame value. */
  datatype TimeExpression =
    | ClockTime(hours: nat, minutes: nat, seconds: nat, frames: Frames)
    | OffsetTime(offset: real, unit: TimeUnit)

  /** The clock fields as the text patterns and integer types allow them. */
  predicate ClockFits(te: TimeExpression)
    requires te.ClockTime?
  {
    te.hours <= 0xFFFF && te.minutes < 100 && te.seconds < 100 && te.frames.value <= 0xFFFF
  }

  /** `Display for TimeUnit`. */
  function UnitText(u: TimeUnit): (t: string)
    ensures 1 <= |t| <= 2
  {
    match u
    case Hours => "h"
    case Minutes => "m"
    case Seconds => "s"
    case Milliseconds => "ms"
    case FramesUnit => "f"
    case Ticks => "t"
  }

  /** The frame part: ":" and two padded digits, or "." and the value unpadded. */
  function FramesText(f: Frames): string {
    match f
    case FrameCount(v) => ":" + Pad2(v)
    case SubFrames(v) => "." + NatToString(v)
  }

  /** `Display for TimeExpression`. */
  function Display(te: TimeExpression, show: real -> string): string {
    match te
    case ClockTime(h, m, s, f) => Pad2(h) + ":" + Pad2(m) + ":" + Pad2(s) + FramesText(f)
    case OffsetTime(offset, unit) => show(offset) + UnitText(unit)
  }

  /** The outcome of reading a time expression: `unwrap` on a too large number panics. */
  datatype Deserialized = Parsed(te: TimeExpression) | Failed(message: string) | Panicked

  const NumberError: string := "unable to parse number of TimeExpression"

  function SyntaxError(content: string): string {
    "unable to parse TimeExpression: " + content
  }

  /** `value.parse::<f32>()` on the text before the unit suffix. */
  function ReadOffset(value: string, unit: TimeUnit, parse: string -> Option<real>): (r: Deserialized)
    ensures r.Parsed? <==> parse(value).Some?
    ensures r.Parsed? ==> r.te == OffsetTime(parse(value).value, unit)
    ensures r.Failed? ==> r.message == NumberError
  {
    match parse(value)
    case Some(offset) => Parsed(OffsetTime(offset, unit))
    case None => Failed(NumberError)
  }

  /** `H+:DD:DD` at the front of a clock value, and what follows it. */
  datatype ClockText = ClockText(hours: string, minutes: string, seconds: string, rest: string)

  /**
   * The common head of the three clock patterns: the hours are the digits
   * before the first ':' (at least one), then two digits, ':', two digits.
   */
  function SplitClock(value: string): (r: Option<ClockText>)
    ensures r.Some? ==> AllDigits(r.value.hours) && |r.value.hours| >= 1
    ensures r.Some? ==> AllDigits(r.value.minutes) && |r.value.minutes| == 2
    ensures r.Some? ==> AllDigits(r.value.seconds) && |r.value.seconds| == 2
    ensures r.Some? ==> value == r.value.hours + ":" + r.value.minutes + ":" + r.value.seconds + r.value.rest
  {
    match IndexOf(value, ":")
    case None => None
    case Some(i) =>
      if i == 0 || !AllDigits(value[..i]) || |value| < i + 6 then None
      else
        var minutes := value[i + 1..i + 3];
        var seconds := value[i + 4..i + 6];
        if AllDigits(minutes) && value[i + 3] == ':' && AllDigits(seconds) then
          assert value == value[..i] + ":" + minutes + ":" + seconds + value[i + 6..];
          Some(ClockText(value[..i], minutes, seconds, value[i + 6..]))
        else None
  }

  /** `(\d+)` after a separator: one or more digits. */
  predicate DigitRun(s: string) {
    |s| >= 1 && AllDigits(s)
  }

  /**
   * The separator the sub-frame pattern accepts. As written the pattern has
   * an unescaped `.`, which matches any character but a newline.
   */
  predicate SubFrameSeparator(c: char, anySeparator: bool) {
    if anySeparator then c != '\n' else c == '.'
  }

  /** `parse::<u16>().unwrap()` on the captured fields. */
  function ClockOf(c: ClockText, frames: string, sub: bool): (r: Deserialized)
    requires AllDigits(c.hours) && AllDigits(c.minutes) && AllDigits(c.seconds) && AllDigits(frames)
    ensures r.Panicked? <==> ParseNat(c.hours) > 0xFFFF || ParseNat(frames) > 0xFFFF
    ensures r.Parsed? ==> r.te.ClockTime?
    ensures r.Parsed? ==> r.te.hours == ParseNat(c.hours) && r.te.minutes == ParseNat(c.minutes) && r.te.seconds == ParseNat(c.seconds)
    ensures r.Parsed? ==> r.te.frames == (if sub then SubFrames(ParseNat(frames)) else FrameCount(ParseNat(frames)))
  {
    if ParseNat(c.hours) > 0xFFFF || ParseNat(frames) > 0xFFFF then Panicked
    else
      var value := ParseNat(frames);
      Parsed(ClockTime(ParseNat(c.hours), ParseNat(c.minutes), ParseNat(c.seconds), if sub then SubFrames(value) else FrameCount(value)))
  }

  /** Whether the text ends with the given character (`ends_with` on a `char`). */
  predicate LastIs(content: string, c: char) {
    |content| >= 1 && content[|content| - 1] == c
  }

  /**
   * The unit suffix `deserialize` takes, testing h, m, ms, s, f, t in that
   * order: "ms" is tested before "s", and nothing ending in "m" gets there.
   */
  function UnitSuffix(content: string): (r: Option<TimeUnit>)
    ensures r.Some? ==> |UnitText(r.value)| <= |content|
    ensures r.Some? ==> content[|content| - |UnitText(r.value)|..] == UnitText(r.value)
    ensures r.None? <==> |content| == 0 || content[|content| - 1] !in {'h', 'm', 's', 'f', 't'}
  {
    if LastIs(content, 'h') then Some(Hours)
    else if LastIs(content, 'm') then Some(Minutes)
    else if LastIs(content, 's') then
      if |content| >= 2 && content[|content| - 2] == 'm' then
        assert content[|content| - 2..] == "ms";
        Some(Milliseconds)
      else Some(Seconds)
    else if LastIs(content, 'f') then Some(FramesUnit)
    else if LastIs(content, 't') then Some(Ticks)
    else None
  }

  /**
   * The three clock patterns, tried in order: `H:MM:SS:F`, `H:MM:SS<sep>F`
   * and `H:MM:SS`.
   */
  function ReadClock(content: string, anySeparator: bool): (r: Deserialized)
    ensures r.Failed? ==> r.message == SyntaxError(content)
    ensures r.Parsed? ==> r.te.ClockTime? && SplitClock(content).Some? && ClockFits(r.te)
    ensures r.Parsed? && r.te.frames.SubFrames? ==>
              var rest := SplitClock(content).value.rest;
              |rest| >= 2 && SubFrameSeparator(rest[0], anySeparator)
  {
    match SplitClock(content)
    case None => Failed(SyntaxError(content))
    case Some(c) =>
      TwoDigitsBelow100(c.minutes);
      TwoDigitsBelow100(c.seconds);
      var rest := c.rest;
      if |rest| >= 2 && rest[0] == ':' && DigitRun(rest[1..]) then ClockOf(c, rest[1..], false)
      else if |rest| >= 2 && SubFrameSeparator(rest[0], anySeparator) && DigitRun(rest[1..]) then ClockOf(c, rest[1..], true)
      else if rest == "" then ClockOf(c, "0", false)
      else Failed(SyntaxError(content))
  }

  /**
   * `YaDeserialize for TimeExpression` on the element's text: an offset when
   * a unit suffix ends it, a clock time otherwise.
   */
  function DeserializeWith(content: string, parse: string -> Option<real>, anySeparator: bool): (r: Deserialized)
    ensures r.Failed? ==> r.message == NumberError || r.message == SyntaxError(content)
    ensures r.Parsed? && r.te.OffsetTime? ==>
              && UnitSuffix(content) == Some(r.te.unit)
              && parse(content[..|content| - |UnitText(r.te.unit)|]) == Some(r.te.offset)
    ensures r.Parsed? && r.te.ClockTime? ==> ClockFits(r.te)
  {
    match UnitSuffix(content)
    case Some(u) => ReadOffset(content[..|content| - |UnitText(u)|], u, parse)
    case None => ReadClock(content, anySeparator)
  }

  /** The deserializer as written. */
  function DeserializeAsWritten(content: string, parse: string -> Option<real>): Deserialized {
    DeserializeWith(content, parse, true)
  }

  /** The deserializer with the sub-frame separator escaped (`\.`), as evidently intended. */
  function Deserialize(content: string, parse: string -> Option<real>): (r: Deserialized)
    ensures r.Failed? ==> r.message == NumberError || r.message == SyntaxError(content)
    ensures r.Parsed? && r.te.OffsetTime? ==>
              && UnitSuffix(content) == Some(r.te.unit)
              && parse(content[..|content| - |UnitText(r.te.unit)|]) == Some(r.te.offset)
    ensures r.Parsed? && r.te.ClockTime? ==> ClockFits(r.te)
    ensures r.Parsed? && r.te.ClockTime? && r.te.frames.SubFrames? ==>
              && SplitClock(content).Some? && |SplitClock(content).value.rest| >= 1
              && SplitClock(content).value.rest[0] == '.'
  {
    DeserializeWith(content, parse, false)
  }

  lemma Pad2Parse(n: nat)
    ensures ParseNat(Pad2(n)) == n
  {
    ParseNatToString(n);
    if n < 10 {
      var t := Pad2(n);
      assert t == ['0', DigitChar(n)];
      assert t[..1] == "0";
    }
  }

  lemma Pad2Length(n: nat)
    requires n < 100
    ensures |Pad2(n)| == 2
  {
    if n >= 10 {
      assert NatToString(n) == NatToString(n / 10) + [DigitChar(n % 10)];
    }
  }

  lemma TwoDigitsBelow100(d: string)
    requires AllDigits(d) && |d| == 2
    ensures ParseNat(d) < 100
  {
    var head := d[..1];
    assert head[..0] == [] && head[0] == d[0];
    assert ParseNat(head) == DigitValue(d[0]);
    assert d[..|d| - 1] == head;
    assert ParseNat(d) == ParseNat(head) * 10 + DigitValue(d[1]);
    assert ParseNat(head) * 10 <= 90;
  }

  /** No unit suffix ends a text whose last character is a digit. */
  lemma NoSuffixAfterDigit(t: string)
    requires |t| >= 1 && IsDigit(t[|t| - 1])
    ensures UnitSuffix(t) == None
  {
  }

  /** The text of a clock time ends with a digit, so no unit suffix is taken for it. */
  lemma ClockTextEndsWithDigit(te: TimeExpression, show: real -> string)
    requires te.ClockTime?
    ensures var t := Display(te, show); |t| >= 1 && IsDigit(t[|t| - 1])
  {
    var t := Display(te, show);
    match te.frames
    case FrameCount(v) =>
      assert t[|t| - 1] == Pad2(v)[|Pad2(v)| - 1];
    case SubFrames(v) =>
      assert t[|t| - 1] == NatToString(v)[|NatToString(v)| - 1];
  }

  /** Splitting a printed clock time gives back its printed fields. */
  lemma SplitPrintedClock(h: nat, m: nat, s: nat, rest: string)
    requires m < 100 && s < 100
    ensures SplitClock(Pad2(h) + ":" + Pad2(m) + ":" + Pad2(s) + rest) == Some(ClockText(Pad2(h), Pad2(m), Pad2(s), rest))
  {
    Pad2Length(m);
    Pad2Length(s);
    SplitClockFields(Pad2(h), Pad2(m), Pad2(s), rest);
  }

  /** Digit fields joined by ':' split back into those fields. */
  lemma SplitClockFields(hh: string, mm: string, ss: string, rest: string)
    requires AllDigits(hh) && |hh| >= 1
    requires AllDigits(mm) && |mm| == 2 && AllDigits(ss) && |ss| == 2
    ensures SplitClock(hh + ":" + mm + ":" + ss + rest) == Some(ClockText(hh, mm, ss, rest))
  {
    var t := hh + ":" + mm + ":" + ss + rest;
    DigitsFree(hh, ":");
    assert hh + ":"[..0] == hh;
    FirstMatchAfter(hh, ":", mm + ":" + ss + rest);
    assert t == hh + ":" + (mm + ":" + ss + rest);
    ClockTextSlices(hh, mm, ss, rest);
  }

  /** Where each field of a clock text lies. */
  lemma ClockTextSlices(hh: string, mm: string, ss: string, rest: string)
    requires |mm| == 2 && |ss| == 2
    ensures var t, i := hh + ":" + mm + ":" + ss + rest, |hh|;
            && |t| >= i + 6 && t[..i] == hh && t[i + 1..i + 3] == mm && t[i + 3] == ':'
            && t[i + 4..i + 6] == ss && t[i + 6..] == rest
  {
    var t := hh + ":" + mm + ":" + ss + rest;
    var i := |hh|;
    var a, b := hh + ":" + mm, ":" + ss + rest;
    assert t == a + b && |a| == i + 3;
    assert t[..i] == a[..i] == hh;
    assert t[i + 1..i + 3] == a[i + 1..] == mm;
    assert t[i + 3] == b[0] == ':';
    assert t[i + 4..i + 6] == b[1..3] == ss;
    assert t[i + 6..] == b[3..] == rest;
  }

  /** The frames pattern reads a printed frame-count time back. */
  lemma ReadPrintedFrameCount(h: nat, m: nat, s: nat, v: nat)
    requires h <= 0xFFFF && m < 100 && s < 100 && v <= 0xFFFF
    ensures ReadClock(Pad2(h) + ":" + Pad2(m) + ":" + Pad2(s) + (":" + Pad2(v)), false) == Parsed(ClockTime(h, m, s, FrameCount(v)))
  {
    var rest := ":" + Pad2(v);
    SplitPrintedClock(h, m, s, rest);
    var c := ClockText(Pad2(h), Pad2(m), Pad2(s), rest);
    Pad2Parse(h);
    Pad2Parse(m);
    Pad2Parse(s);
    Pad2Parse(v);
    assert rest[1..] == Pad2(v);
    assert ClockOf(c, rest[1..], false) == Parsed(ClockTime(h, m, s, FrameCount(v)));
  }

  /** The sub-frames pattern reads a printed sub-frame time back. */
  lemma ReadPrintedSubFrames(h: nat, m: nat, s: nat, v: nat)
    requires h <= 0xFFFF && m < 100 && s < 100 && v <= 0xFFFF
    ensures ReadClock(Pad2(h) + ":" + Pad2(m) + ":" + Pad2(s) + ("." + NatToString(v)), false) == Parsed(ClockTime(h, m, s, SubFrames(v)))
  {
    var rest := "." + NatToString(v);
    SplitPrintedClock(h, m, s, rest);
    var c := ClockText(Pad2(h), Pad2(m), Pad2(s), rest);
    Pad2Parse(h);
    Pad2Parse(m);
    Pad2Parse(s);
    ParseNatToString(v);
    assert rest[1..] == NatToString(v);
    assert ClockOf(c, rest[1..], true) == Parsed(ClockTime(h, m, s, SubFrames(v)));
  }

  /** A clock time whose fields fit reads back from its text. */
  lemma ClockRoundTrip(te: TimeExpression, show: real -> string, parse: string -> Option<real>)
    requires te.ClockTime? && ClockFits(te)
    ensures Deserialize(Display(te, show), parse) == Parsed(te)
  {
    var t := Display(te, show);
    assert t == Pad2(te.hours) + ":" + Pad2(te.minutes) + ":" + Pad2(te.seconds) + FramesText(te.frames);
    ClockTextEndsWithDigit(te, show);
    NoSuffixAfterDigit(t);
    assert Deserialize(t, parse) == ReadClock(t, false);
    match te.frames
    case FrameCount(v) => ReadPrintedFrameCount(te.hours, te.minutes, te.seconds, v);
    case SubFrames(v) => ReadPrintedSubFrames(te.hours, te.minutes, te.seconds, v);
  }

  /** The unit suffix read back from its text. */
  lemma UnitTextInjective(a: TimeUnit, b: TimeUnit)
    requires UnitText(a) == UnitText(b)
    ensures a == b
  {
  }

  /** A unit suffix after a text ending in a digit is taken for exactly that unit. */
  lemma UnitSuffixOf(x: string, unit: TimeUnit)
    requires |x| >= 1 && IsDigit(x[|x| - 1])
    ensures UnitSuffix(x + UnitText(unit)) == Some(unit)
  {
    var t := x + UnitText(unit);
    assert t[|t| - 1] == UnitText(unit)[|UnitText(unit)| - 1];
    if unit == Milliseconds {
      assert t[|t| - 2] == 'm';
    } else {
      assert t[|t| - 2] == x[|x| - 1];
    }
  }

  /**
   * An offset reads back when its number text does: the text must end with a
   * digit, so it cannot be taken for part of a unit suffix.
   */
  lemma OffsetRoundTrip(offset: real, unit: TimeUnit, show: real -> string, parse: string -> Option<real>)
    requires |show(offset)| >= 1 && IsDigit(show(offset)[|show(offset)| - 1])
    requires parse(show(offset)) == Some(offset)
    ensures Deserialize(Display(OffsetTime(offset, unit), show), parse) == Parsed(OffsetTime(offset, unit))
  {
    var x := show(offset);
    var t := x + UnitText(unit);
    UnitSuffixOf(x, unit);
    assert t[..|t| - |UnitText(unit)|] == x;
  }

  /** Reading normalises: a clock time read from any text prints to a text that reads back to it. */
  lemma ClockNormalises(content: string, show: real -> string, parse: string -> Option<real>)
    requires Deserialize(content, parse).Parsed? && Deserialize(content, parse).te.ClockTime?
    ensures Deserialize(Display(Deserialize(content, parse).te, show), parse) == Deserialize(content, parse)
  {
    ClockRoundTrip(Deserialize(content, parse).te, show, parse);
  }


  lemma SmallPads()
    ensures Pad2(0) == "00" && Pad2(4) == "04" && Pad2(9) == "09" && Pad2(6) == "06" && Pad2(14) == "14"
  {
    assert NatToString(14) == NatToString(1) + [DigitChar(4)];
  }

  /** The clock vectors of the source's own test print as written there. */
  lemma ClockTestVectorsPrint(show: real -> string)
    ensures Display(ClockTime(0, 4, 9, SubFrames(249)), show) == "00:04:09.249"
    ensures Display(ClockTime(0, 4, 9, SubFrames(0)), show) == "00:04:09.0"
    ensures Display(ClockTime(0, 4, 14, FrameCount(6)), show) == "00:04:14:06"
    ensures Display(ClockTime(0, 4, 14, FrameCount(0)), show) == "00:04:14:00"
  {
    SubFrameVectorsPrint(show);
    FrameVectorsPrint(show);
  }

  lemma SubFrameVectorsPrint(show: real -> string)
    ensures Display(ClockTime(0, 4, 9, SubFrames(249)), show) == "00:04:09.249"
    ensures Display(ClockTime(0, 4, 9, SubFrames(0)), show) == "00:04:09.0"
  {
    SubFramesPrint(show);
    NoSubFramesPrint(show);
  }

  lemma SubFramesPrint(show: real -> string)
    ensures Display(ClockTime(0, 4, 9, SubFrames(249)), show) == "00:04:09.249"
  {
    SmallPads();
    assert NatToString(249) == "249" by {
      assert NatToString(249) == NatToString(24) + [DigitChar(9)];
      assert NatToString(24) == NatToString(2) + [DigitChar(4)];
    }
  }

  lemma NoSubFramesPrint(show: real -> string)
    ensures Display(ClockTime(0, 4, 9, SubFrames(0)), show) == "00:04:09.0"
  {
    SmallPads();
  }

  lemma FrameVectorsPrint(show: real -> string)
    ensures Display(ClockTime(0, 4, 14, FrameCount(6)), show) == "00:04:14:06"
    ensures Display(ClockTime(0, 4, 14, FrameCount(0)), show) == "00:04:14:00"
  {
    SmallPads();
  }

  /** The test's clock texts read to the times that print them back. */
  lemma ClockTestVectors(show: real -> string, parse: string -> Option<real>)
    ensures Deserialize("00:04:09.249", parse) == Parsed(ClockTime(0, 4, 9, SubFrames(249)))
    ensures Deserialize("00:04:09.0", parse) == Parsed(ClockTime(0, 4, 9, SubFrames(0)))
    ensures Deserialize("00:04:14:06", parse) == Parsed(ClockTime(0, 4, 14, FrameCount(6)))
    ensures Deserialize("00:04:14:00", parse) == Parsed(ClockTime(0, 4, 14, FrameCount(0)))
  {
    ClockTestVectorsPrint(show);
    ClockRoundTrip(ClockTime(0, 4, 9, SubFrames(249)), show, parse);
    ClockRoundTrip(ClockTime(0, 4, 9, SubFrames(0)), show, parse);
    ClockRoundTrip(ClockTime(0, 4, 14, FrameCount(6)), show, parse);
    ClockRoundTrip(ClockTime(0, 4, 14, FrameCount(0)), show, parse);
  }

  lemma SplitCounterexample()
    ensures SplitClock("00:04:0912") == Some(ClockText("00", "04", "09", "12"))
  {
    assert AllDigits("00") && AllDigits("04") && AllDigits("09");
    SplitClockFields("00", "04", "09", "12");
    assert "00" + ":" + "04" + ":" + "09" + "12" == "00:04:0912";
  }

  lemma CounterexampleNumerals()
    ensures ParseNat("00") == 0 && ParseNat("04") == 4 && ParseNat("09") == 9 && ParseNat("2") == 2
  {
    assert "00"[..1] == "0" && "04"[..1] == "0" && "09"[..1] == "0";
    assert "0"[..0] == "" && "2"[..0] == "";
  }

  /** As written, "00:04:0912" is a sub-frame time: seconds 09, separator '1', sub-frames 2. */
  lemma AnySeparatorAccepted(parse: string -> Option<real>)
    ensures DeserializeAsWritten("00:04:0912", parse) == Parsed(ClockTime(0, 4, 9, SubFrames(2)))
    ensures Deserialize("00:04:0912", parse) == Failed(SyntaxError("00:04:0912"))
  {
    NoSuffixAfterDigit("00:04:0912");
    CounterexampleAnySeparator();
    CounterexampleDotOnly();
  }

  /** With any separator accepted, the rest "12" is a separator and one digit. */
  lemma CounterexampleAnySeparator()
    ensures ReadClock("00:04:0912", true) == Parsed(ClockTime(0, 4, 9, SubFrames(2)))
  {
    SplitCounterexample();
    CounterexampleNumerals();
    var c := ClockText("00", "04", "09", "12");
    assert "12"[1..] == "2" && DigitRun("2");
    assert ClockOf(c, "2", true) == Parsed(ClockTime(0, 4, 9, SubFrames(2)));
  }

  /** With only '.' accepted, no pattern matches the rest "12". */
  lemma CounterexampleDotOnly()
    ensures ReadClock("00:04:0912", false) == Failed(SyntaxError("00:04:0912"))
  {
    SplitCounterexample();
    assert "12"[0] == '1';
  }

}
