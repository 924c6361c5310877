/** The `m:ss` rendering both players use for the current time and the duration. */
module Clock {
  import opened Common
  import opened Text

  /** JavaScript's `x % 60` on numbers: `x` less a whole multiple of 60, with the sign
      of the dividend and a magnitude below 60. */
  function JsRem60(x: real): (r: real)
    ensures x >= 0.0 ==> 0.0 <= r < 60.0
    ensures x <= 0.0 ==> -60.0 < r <= 0.0
    ensures ((x - r) / 60.0).Floor as real == (x - r) / 60.0
  {
    var q := x / 60.0;
    var truncated := if q >= 0.0 then q.Floor else -((-q).Floor);
    x - 60.0 * truncated as real
  }

  /** `s.padStart(2, "0")`. */
  function PadStart2(s: string): (r: string)
    ensures |s| >= 2 ==> r == s
    ensures |s| < 2 ==> |r| == 2 && r[2 - |s|..] == s && forall i :: 0 <= i < 2 - |s| ==> r[i] == '0'
  {
    if |s| >= 2 then s else seq(2 - |s|, _ => '0') + s
  }

  /** `formatTime`: whole minutes, a colon, and the whole seconds of the last minute
      padded to two characters. */
  function FormatTime(time: real): string {
    var minutes := (time / 60.0).Floor;
    var seconds := JsRem60(time).Floor;
    IntToString(minutes) + ":" + PadStart2(IntToString(seconds))
  }

  /** A negative time is rendered with a sign on both sides, except at a whole minute,
      where the remainder is zero and the seconds read "00". */
  lemma FormatTimeNegative()
    ensures FormatTime(-60.0) == "-1:00"
    ensures FormatTime(-30.0) == "-1:-30"
  {
    assert JsRem60(-60.0) == 0.0;
    assert JsRem60(-30.0) == -30.0;
    assert IntToString(-1) == "-1";
    assert IntToString(0) == "0";
    assert IntToString(-30) == "-30";
  }

  /** Two decimal digits for a number below 100. */
  function TwoDigits(n: nat): (r: string)
    requires n < 100
    ensures |r| == 2 && IsDecimalDigit(r[0]) && IsDecimalDigit(r[1])
    ensures DigitValue(r[0]) * 10 + DigitValue(r[1]) == n
  {
    [DigitChar(n / 10), DigitChar(n % 10)]
  }

  /** For a time that is not negative, the rendering is the minute count, a colon, and
      the seconds in 0..59 always as two digits; together they count the whole seconds
      elapsed. */
  lemma FormatTimeShape(time: real)
    requires time >= 0.0
    ensures var m := (time / 60.0).Floor;
            var sec := time.Floor - 60 * m;
            && 0 <= m && 0 <= sec < 60
            && FormatTime(time) == NatToString(m) + ":" + TwoDigits(sec)
  {
    var m := (time / 60.0).Floor;
    var rem := JsRem60(time);
    assert rem == time - 60.0 * m as real;
    FloorShift(time, 60 * m);
    var sec := time.Floor - 60 * m;
    assert rem.Floor == sec;
    assert 0 <= sec < 60;
    if sec >= 10 {
      assert NatToString(sec) == NatToString(sec / 10) + [DigitChar(sec % 10)];
    }
  }

  lemma FloorShift(x: real, k: int)
    ensures (x - k as real).Floor == x.Floor - k
  {
  }

  /** Every character is a decimal digit. */
  predicate AllDecimal(t: string) {
    forall i :: 0 <= i < |t| ==> IsDecimalDigit(t[i])
  }

  /** Reads an `m:ss` clock back into a count of seconds; `None` for anything that is not
      one. */
  function ParseClock(s: string): (r: Option<int>)
    ensures r.Some? ==> r.value >= 0
  {
    var k := FindIndex(s, ':');
    if k < 1 || |s| != k + 3 then None
    else if !AllDecimal(s[..k]) then None
    else if !(IsDecimalDigit(s[k + 1]) && IsDecimalDigit(s[k + 2])) then None
    else
      var sec := DigitValue(s[k + 1]) * 10 + DigitValue(s[k + 2]);
      if sec >= 60 then None else Some(60 * RadixValue(s[..k], false) + sec)
  }

  /** A run of digits, a colon and two digits below 60 read back as minutes and
      seconds. */
  lemma ParseClockOfParts(digits: string, sec: nat)
    requires |digits| > 0 && AllDecimal(digits)
    requires sec < 60
    ensures var s := digits + ":" + TwoDigits(sec);
            s[..|digits|] == digits && ParseClock(s) == Some(60 * RadixValue(s[..|digits|], false) + sec)
  {
    var two := TwoDigits(sec);
    var k := |digits|;
    assert ':' !in digits by {
      forall j | 0 <= j < k ensures digits[j] != ':' {
        assert IsDecimalDigit(digits[j]);
      }
    }
    FindIndexAfter(digits, ':', two);
    var s := digits + [':'] + two;
    assert s[k + 1] == two[0] && s[k + 2] == two[1];
    assert AllDecimal(s[..k]) by {
      assert s[..k] == digits;
    }
  }

  /** Round trip: reading back what `formatTime` shows for a time that is not negative
      gives the whole seconds of that time. */
  lemma FormatTimeRoundTrip(time: real)
    requires time >= 0.0
    ensures ParseClock(FormatTime(time)) == Some(time.Floor)
  {
    FormatTimeShape(time);
    var m := (time / 60.0).Floor;
    var sec := time.Floor - 60 * m;
    NatToStringValue(m);
    ParseClockOfParts(NatToString(m), sec);
    RadixValueOfPrefix(NatToString(m), ":", TwoDigits(sec), false);
  }
}
