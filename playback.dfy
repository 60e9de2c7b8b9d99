/** Playback-position bookkeeping of RIVL.py: milliseconds from the media
    player turned into whole seconds, a 0..1000 slider value, an HH:MM:SS
    label, and back. */
module Playback {
  import Easing

  /** Milliseconds per second (RIVL.py:593, RIVL.py:602). */
  const MsPerSecond: int := 1000
  /** The position slider's range is 0..SliderMax (RIVL.py:498). */
  const SliderMax: int := 1000
  /** How far seek_backward jumps back (RIVL.py:589). */
  const SeekStepMs: int := 5000

  /** update_duration: `duration // 1000`. Python's floor division and
      Dafny's Euclidean division agree for a positive divisor. */
  function DurationSeconds(durationMs: int): (s: int)
    ensures s * MsPerSecond <= durationMs < s * MsPerSecond + MsPerSecond
  {
    durationMs / MsPerSecond
  }

  /** Python's int() on a float: truncation toward zero. */
  function Trunc(x: real): (r: int)
    ensures 0.0 <= x ==> 0 <= r && r as real <= x < r as real + 1.0
    ensures x < 0.0 ==> r <= 0 && r as real - 1.0 < x <= r as real
  {
    if x >= 0.0 then x.Floor else -((-x).Floor)
  }

  /** Integer division truncated toward zero, for a positive divisor. */
  function TruncDiv(n: int, d: int): (q: int)
    requires d > 0
    ensures 0 <= n ==> 0 <= q && q * d <= n < q * d + d
    ensures n < 0 ==> q <= 0 && q * d - d < n <= q * d
  {
    DivBounds(if n >= 0 then n else -n, d);
    if n >= 0 then n / d else -((-n) / d)
  }

  lemma DivBounds(n: nat, d: int)
    requires d > 0
    ensures 0 <= n / d && (n / d) * d <= n < (n / d) * d + d
  {
  }

  /** The slider value update_position sets: `int(position / duration * 1000)`
      (RIVL.py:597-599), with the duration positive. */
  function SliderValue(positionMs: int, durationMs: int): int
    requires durationMs > 0
  {
    TruncDiv(positionMs * SliderMax, durationMs)
  }

  /** The slider value is the exact real fraction, truncated: over the reals,
      int(position / duration * 1000) and the integer form coincide. */
  lemma SliderValueIsTruncatedFraction(positionMs: int, durationMs: int)
    requires durationMs > 0
    ensures SliderValue(positionMs, durationMs)
         == Trunc(positionMs as real / durationMs as real * 1000.0)
  {
    var n := positionMs * SliderMax;
    var x := positionMs as real / durationMs as real * 1000.0;
    assert x == n as real / durationMs as real;
    TruncDivIsTrunc(n, durationMs);
  }

  lemma TruncDivIsTrunc(n: int, d: int)
    requires d > 0
    ensures TruncDiv(n, d) == Trunc(n as real / d as real)
  {
    var q := TruncDiv(n, d);
    if n >= 0 {
      FloorOfQuotient(q, n, d);
    } else {
      FloorOfQuotient(-q, -n, d);
      assert (-n) as real / d as real == -(n as real / d as real);
    }
  }

  /** An integer quotient bracketed by q d <= n < q d + d is the floor of
      the real quotient. */
  lemma FloorOfQuotient(q: int, n: int, d: int)
    requires d > 0 && q * d <= n < q * d + d
    ensures (n as real / d as real).Floor == q
  {
    CastBetween(q, n, d);
    RealQuotientBetween(q as real, n as real, d as real);
  }

  /** q d <= n < q d + d carries over from the integers to the reals. */
  lemma CastBetween(q: int, n: int, d: int)
    requires d > 0 && q * d <= n < q * d + d
    ensures q as real * d as real <= n as real < q as real * d as real + d as real
  {
    CastMul(q, d);
  }

  /** Converting a product to a real is the product of the conversions. */
  lemma {:induction false} CastMul(a: int, b: nat)
    ensures (a * b) as real == a as real * b as real
  {
    if b > 0 {
      CastMul(a, b - 1);
      assert a * b == a * (b - 1) + a;
      assert a as real * b as real == a as real * (b - 1) as real + a as real;
    }
  }

  /** From q d <= n < q d + d with d > 0: q <= n / d < q + 1. */
  lemma RealQuotientBetween(q: real, n: real, d: real)
    requires d > 0.0 && q * d <= n < q * d + d
    ensures q <= n / d < q + 1.0
  {
    var y := n / d;
    assert y * d == n;
    if y < q {
      Easing.MulStrictLeft(y, q, d);
    }
    if y >= q + 1.0 {
      assert (q + 1.0) * d == q * d + d;
      Easing.MulMono(q + 1.0, y, d);
    }
  }

  /** For a position within the media, the slider stays in its range and
      reaches its end exactly at the end of the media. */
  lemma SliderValueInRange(positionMs: int, durationMs: int)
    requires 0 <= positionMs <= durationMs && durationMs > 0
    ensures 0 <= SliderValue(positionMs, durationMs) <= SliderMax
    ensures SliderValue(positionMs, durationMs) == SliderMax <==> positionMs == durationMs
  {
    var v := SliderValue(positionMs, durationMs);
    assert v * durationMs <= positionMs * SliderMax < v * durationMs + durationMs;
    if v > SliderMax {
      MulLe(SliderMax + 1, v, durationMs);
    }
    if v == SliderMax {
      assert positionMs * SliderMax >= SliderMax * durationMs;
    }
    if positionMs == durationMs {
      if v < SliderMax {
        MulLe(v + 1, SliderMax, durationMs);
      }
    }
  }

  lemma MulLe(a: int, b: int, c: int)
    requires a <= b && 0 <= c
    ensures a * c <= b * c
  {
  }

  /** The media position set_position requests for a slider value:
      `int((val / 1000) * duration)` (RIVL.py:610), with the duration positive. */
  function SliderTarget(sliderValue: int, durationMs: int): int
    requires durationMs > 0
  {
    TruncDiv(sliderValue * durationMs, SliderMax)
  }

  /** A slider value in range requests a position within the media. */
  lemma SliderTargetInRange(sliderValue: int, durationMs: int)
    requires 0 <= sliderValue <= SliderMax && durationMs > 0
    ensures 0 <= SliderTarget(sliderValue, durationMs) <= durationMs
    ensures sliderValue == 0 ==> SliderTarget(sliderValue, durationMs) == 0
    ensures sliderValue == SliderMax ==> SliderTarget(sliderValue, durationMs) == durationMs
  {
    var t := SliderTarget(sliderValue, durationMs);
    MulLe(sliderValue, SliderMax, durationMs);
    assert t * SliderMax <= sliderValue * durationMs <= SliderMax * durationMs;
    if t > durationMs {
      MulLe(durationMs + 1, t, SliderMax);
    }
  }

  /** The seek target is the exact real product, truncated: over the reals,
      int((val / 1000) * duration) and the integer form coincide. */
  lemma SliderTargetIsTrunc(sliderValue: int, durationMs: int)
    requires durationMs > 0
    ensures SliderTarget(sliderValue, durationMs)
         == Trunc(sliderValue as real / 1000.0 * durationMs as real)
  {
    TruncDivIsTrunc(sliderValue * durationMs, SliderMax);
    CastMul(sliderValue, durationMs);
    assert sliderValue as real / 1000.0 * durationMs as real
        == (sliderValue * durationMs) as real / SliderMax as real;
  }

  /** Position -> slider -> position loses less than one slider step:
      the position requested back is never later, and earlier by less than
      duration / 1000 + 1 milliseconds. */
  lemma PositionRoundTrip(positionMs: int, durationMs: int)
    requires 0 <= positionMs && durationMs > 0
    ensures var back := SliderTarget(SliderValue(positionMs, durationMs), durationMs);
      back <= positionMs && (positionMs - back) * SliderMax < durationMs + SliderMax
  {
    var v := SliderValue(positionMs, durationMs);
    var back := SliderTarget(v, durationMs);
    assert v * durationMs <= positionMs * SliderMax < v * durationMs + durationMs;
    assert 0 <= v;
    assert back * SliderMax <= v * durationMs < back * SliderMax + SliderMax;
  }

  /** Slider -> position -> slider: the slider value read back is never
      larger, and smaller by less than 1 + 1000 / duration. */
  lemma SliderRoundTrip(sliderValue: int, durationMs: int)
    requires 0 <= sliderValue && durationMs > 0
    ensures var back := SliderValue(SliderTarget(sliderValue, durationMs), durationMs);
      back <= sliderValue && (sliderValue - back) * durationMs < durationMs + SliderMax
  {
    var p := SliderTarget(sliderValue, durationMs);
    var back := SliderValue(p, durationMs);
    NonnegMul(sliderValue, durationMs);
    assert p * SliderMax <= sliderValue * durationMs < p * SliderMax + SliderMax;
    assert 0 <= p;
    assert back * durationMs <= p * SliderMax < back * durationMs + durationMs;
    if back > sliderValue {
      MulLe(sliderValue + 1, back, durationMs);
    }
  }

  lemma NonnegMul(a: int, b: int)
    requires 0 <= a && 0 <= b
    ensures 0 <= a * b
  {
  }

  // The HH:MM:SS label

  /** Hours, minutes and seconds of a position (RIVL.py:602-605). */
  datatype Clock = Clock(hours: int, minutes: int, seconds: int)

  function ClockOf(positionMs: int): (c: Clock)
    ensures c.hours * 3600 + c.minutes * 60 + c.seconds == positionMs / MsPerSecond
    ensures 0 <= c.minutes < 60 && 0 <= c.seconds < 60
    ensures 0 <= positionMs ==> 0 <= c.hours
  {
    var posS := positionMs / MsPerSecond;
    Clock(posS / 3600, (posS % 3600) / 60, posS % 60)
  }

  predicate IsDigit(c: char) { '0' <= c <= '9' }

  predicate AllDigits(s: string) { forall i :: 0 <= i < |s| ==> IsDigit(s[i]) }

  function DigitChar(d: int): (c: char)
    requires 0 <= d < 10
    ensures IsDigit(c) && c as int - '0' as int == d
  {
    ('0' as int + d) as char
  }

  /** Python's str() of a natural number: decimal, no leading zero. */
  function Decimal(n: nat): (s: string)
    ensures 1 <= |s| && AllDigits(s)
    ensures |s| == 1 <==> n < 10
    ensures n > 0 ==> s[0] != '0'
  {
    if n < 10 then [DigitChar(n)] else Decimal(n / 10) + [DigitChar(n % 10)]
  }

  /** The number a string of decimal digits denotes. */
  function DigitsValue(s: string): nat
    requires AllDigits(s)
  {
    if s == [] then 0 else DigitsValue(s[..|s| - 1]) * 10 + (s[|s| - 1] as int - '0' as int)
  }

  /** Decimal and DigitsValue are inverse. */
  lemma {:induction false} DecimalValue(n: nat)
    ensures DigitsValue(Decimal(n)) == n
  {
    if n >= 10 {
      var s := Decimal(n);
      assert s[..|s| - 1] == Decimal(n / 10);
      DecimalValue(n / 10);
    }
  }

  /** A leading zero does not change the value of a digit string. */
  lemma {:induction false} LeadingZeroValue(s: string)
    requires AllDigits(s)
    ensures AllDigits("0" + s) && DigitsValue("0" + s) == DigitsValue(s)
  {
    if s != [] {
      var t := "0" + s;
      assert t[..|t| - 1] == "0" + s[..|s| - 1];
      LeadingZeroValue(s[..|s| - 1]);
    }
  }

  /** Python's f"{n:02}": at least two characters, zero-padded; a negative
      number is its sign followed by its digits, which already fill the width. */
  function ZeroPad2(n: int): (s: string)
    ensures 0 <= n ==> 2 <= |s| && AllDigits(s) && DigitsValue(s) == n
    ensures 0 <= n < 100 ==> |s| == 2
    ensures 100 <= n ==> s == Decimal(n)
    ensures n < 0 ==> 2 <= |s| && s[0] == '-' && AllDigits(s[1..]) && DigitsValue(s[1..]) == -n
    ensures n < 0 ==> s == "-" + Decimal(-n)
  {
    if n >= 0 then
      DecimalValue(n);
      if n < 10 then LeadingZeroValue(Decimal(n)); "0" + Decimal(n) else Decimal(n)
    else
      DecimalValue(-n);
      assert ("-" + Decimal(-n))[1..] == Decimal(-n);
      "-" + Decimal(-n)
  }

  /** The label update_position shows (RIVL.py:602-606). */
  function TimeLabel(positionMs: int): string
  {
    var c := ClockOf(positionMs);
    ZeroPad2(c.hours) + ":" + ZeroPad2(c.minutes) + ":" + ZeroPad2(c.seconds)
  }

  /** Reading the label back gives the clock of the position field by
      field: the last six characters hold ":MM:SS" with both fields below
      60, everything before them the hours, together the whole seconds, and
      the label is exactly eight characters below 100 hours. */
  lemma TimeLabelReadsBack(positionMs: int)
    requires 0 <= positionMs
    ensures var s := TimeLabel(positionMs); var k := |s| - 6;
      && 2 <= k && s[k] == ':' && s[k + 3] == ':'
      && AllDigits(s[..k]) && AllDigits(s[k + 1..k + 3]) && AllDigits(s[k + 4..])
      && DigitsValue(s[..k]) == ClockOf(positionMs).hours
      && DigitsValue(s[k + 1..k + 3]) == ClockOf(positionMs).minutes < 60
      && DigitsValue(s[k + 4..]) == ClockOf(positionMs).seconds < 60
      && DigitsValue(s[..k]) * 3600 + DigitsValue(s[k + 1..k + 3]) * 60 + DigitsValue(s[k + 4..])
         == positionMs / MsPerSecond
      && (positionMs / MsPerSecond < 100 * 3600 <==> |s| == 8)
  {
    var c := ClockOf(positionMs);
    var h, m, sec := ZeroPad2(c.hours), ZeroPad2(c.minutes), ZeroPad2(c.seconds);
    var s := TimeLabel(positionMs);
    assert s == h + ":" + m + ":" + sec;
    var k := |h|;
    assert |s| - 6 == k;
    assert s[..k] == h;
    assert s[k + 1..k + 3] == m;
    assert s[k + 4..] == sec;
    if positionMs / MsPerSecond >= 100 * 3600 {
      assert c.hours >= 100;
      assert |Decimal(c.hours)| > 2;
    }
  }
}
