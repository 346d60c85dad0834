/**
 * FormattingHelpers: byte counts with a binary unit, uptimes, percentages and
 * network speeds as display text. Values are exact reals; the "F1"/"F2"
 * fixed-point text is Fixed below.
 */
module Formatting {
  import opened Text
  import opened Numerics
  import opened Models

  // ------------------------------------------------------ fixed-point text

  function Pow10(d: nat): (r: nat)
    ensures r >= 1
  {
    if d == 0 then 1 else 10 * Pow10(d - 1)
  }

  /** `k` zero characters. */
  function Zeros(k: nat): (r: string)
    ensures |r| == k && forall i :: 0 <= i < k ==> r[i] == '0'
  {
    seq(k, _ => '0')
  }

  /** Left-pads a digit string with zeros to `width` characters (PadLeft). */
  function ZeroPad(s: string, width: nat): (r: string)
    ensures |r| == if |s| >= width then |s| else width
    ensures forall i :: 0 <= i < |s| ==> r[|r| - |s| + i] == s[i]
    ensures forall i :: 0 <= i < |r| - |s| ==> r[i] == '0'
  {
    Zeros(if |s| >= width then 0 else width - |s|) + s
  }

  /** x * 10^decimals in magnitude, rounded half away from zero. */
  function Rounded(x: real, decimals: nat): nat
  {
    var n := ((if x < 0.0 then -x else x) * Pow10(decimals) as real + 0.5).Floor;
    if n < 0 then 0 else n
  }

  /**
   * The digits of n / 10^decimals: the decimal digits of n, zero-padded to
   * more than `decimals` digits, with a point before the last `decimals`.
   */
  function FixedDigits(n: nat, decimals: nat): string
  {
    if decimals == 0 then NatToString(n)
    else
      var s := ZeroPad(NatToString(n), decimals + 1);
      s[..|s| - decimals] + "." + s[|s| - decimals..]
  }

  /**
   * The "F<decimals>" format of x in the invariant culture: a minus sign for a
   * negative value, the integral digits, and `decimals` digits after a point,
   * rounded half away from zero.
   */
  function Fixed(x: real, decimals: nat): string
  {
    (if x < 0.0 then "-" else "") + FixedDigits(Rounded(x, decimals), decimals)
  }

  /** Fixed-point digits are digits and at most one point, never a sign. */
  lemma FixedDigitsChars(n: nat, decimals: nat)
    ensures forall i :: 0 <= i < |FixedDigits(n, decimals)| ==>
      IsDigit(FixedDigits(n, decimals)[i]) || FixedDigits(n, decimals)[i] == '.'
    ensures |FixedDigits(n, decimals)| >= 1 && IsDigit(FixedDigits(n, decimals)[0])
  {
    if decimals > 0 {
      var t := NatToString(n);
      var s := ZeroPad(t, decimals + 1);
      assert forall i :: 0 <= i < |s| ==> IsDigit(s[i]) by {
        forall i | 0 <= i < |s| ensures IsDigit(s[i]) {
          if i >= |s| - |t| {
            assert s[i] == t[i - (|s| - |t|)];
          }
        }
      }
    }
  }

  /** The fixed-point text is made only of digits, a leading '-' and a '.'; it has no comma. */
  lemma FixedChars(x: real, decimals: nat)
    ensures forall i :: 0 <= i < |Fixed(x, decimals)| ==>
      IsDigit(Fixed(x, decimals)[i]) || Fixed(x, decimals)[i] in "-."
    ensures |Fixed(x, decimals)| >= 1 && (Fixed(x, decimals)[0] == '-' <==> x < 0.0)
  {
    FixedDigitsChars(Rounded(x, decimals), decimals);
  }

  // ------------------------------------------------------------ FormatBytes

  const Sizes: seq<string> := ["B", "KB", "MB", "GB", "TB"]

  function Pow1024(k: nat): (r: real)
    ensures r >= 1.0
  {
    if k == 0 then 1.0 else 1024.0 * Pow1024(k - 1)
  }

  /** The unit loop of FormatBytes from a given step: the magnitude and the unit index it stops at. */
  function Scaled(len: real, order: nat): (r: (real, nat))
    requires order <= 4
    ensures order <= r.1 <= 4
    decreases 4 - order
  {
    if len >= 1024.0 && order < 4 then Scaled(len / 1024.0, order + 1) else (len, order)
  }

  /**
   * From step `o`, the loop stops at a unit index k with o <= k <= 4: it has
   * divided by 1024 once per step, every value it divided was at least 1024,
   * and the magnitude left is below 1024 unless the largest unit was reached.
   */
  lemma {:induction false} ScaledFacts(len: real, o: nat)
    requires o <= 4
    ensures var (m, k) := Scaled(len, o);
      && o <= k <= 4
      && m * Pow1024(k - o) == len
      && (k < 4 ==> m < 1024.0)
      && (k > o ==> m >= 1.0)
      && (forall d :: 0 <= d < k - o ==> len >= 1024.0 * Pow1024(d))
  {
    ScaledRange(len, o);
    ScaledProduct(len, o);
    ScaledAbove(len, o);
  }

  /** The unit index the loop stops at, and the magnitude it leaves. */
  lemma {:induction false} ScaledRange(len: real, o: nat)
    requires o <= 4
    ensures var (m, k) := Scaled(len, o);
      && o <= k <= 4
      && (k < 4 ==> m < 1024.0)
      && (k > o ==> m >= 1.0)
      && (k == o ==> m == len)
    decreases 4 - o
  {
    if len >= 1024.0 && o < 4 {
      var next := len / 1024.0;
      assert next >= 1.0;
      ScaledRange(next, o + 1);
    }
  }

  /** Each step divides by 1024: the magnitude times 1024 per step taken is the start value. */
  lemma {:induction false} ScaledProduct(len: real, o: nat)
    requires o <= 4
    ensures Scaled(len, o).0 * Pow1024(Scaled(len, o).1 - o) == len
    decreases 4 - o
  {
    if len >= 1024.0 && o < 4 {
      var next := len / 1024.0;
      ScaledProduct(next, o + 1);
      var (m, k) := Scaled(next, o + 1);
      assert Scaled(len, o) == (m, k);
      MulShift(m, Pow1024(k - (o + 1)), Pow1024(k - o), next, len);
    } else {
      assert Scaled(len, o) == (len, o);
      assert Pow1024(0) == 1.0;
    }
  }

  /** One more division by 1024 is one more factor 1024 in the product. */
  lemma MulShift(m: real, q: real, p: real, next: real, len: real)
    requires m * q == next && next == len / 1024.0 && p == 1024.0 * q
    ensures m * p == len
  {
  }

  /** Every value the loop divided was at least 1024. */
  lemma {:induction false} ScaledAbove(len: real, o: nat)
    requires o <= 4
    ensures forall d :: 0 <= d < Scaled(len, o).1 - o ==> len >= 1024.0 * Pow1024(d)
    decreases 4 - o
  {
    if len >= 1024.0 && o < 4 {
      var next := len / 1024.0;
      ScaledAbove(next, o + 1);
      var k := Scaled(next, o + 1).1;
      forall d | 0 <= d < k - o
        ensures len >= 1024.0 * Pow1024(d)
      {
        if d > 0 {
          var r := Pow1024(d - 1);
          assert next >= 1024.0 * r;
          assert Pow1024(d) == 1024.0 * r;
        }
      }
    }
  }

  /** The magnitude and unit index FormatBytes displays for a byte count. */
  function BytesScale(bytes: int): (real, nat)
  {
    Scaled(bytes as real, 0)
  }

  /**
   * The unit index is the number of divisions by 1024 taken while the value
   * is at least 1024, capped at 4 ("TB"); the magnitude is bytes / 1024^order
   * and is below 1024 unless the unit is "TB".
   */
  lemma BytesScaleMeaning(bytes: int)
    ensures var (len, order) := BytesScale(bytes);
      && order < |Sizes|
      && len == bytes as real / Pow1024(order)
      && (order < 4 ==> len < 1024.0)
      && (order > 0 ==> len >= 1.0)
      && (forall d :: 0 <= d < order ==> bytes as real >= 1024.0 * Pow1024(d))
  {
    ScaledFacts(bytes as real, 0);
  }

  /** Values below 1024, negative ones included, are shown in bytes, undivided. */
  lemma SmallBytes(bytes: int)
    requires bytes < 1024
    ensures BytesScale(bytes) == (bytes as real, 0)
  {
  }

  /** The text FormatBytes returns: "{len:F2} {unit}". */
  function BytesText(bytes: int): (t: string)
  {
    var (len, order) := BytesScale(bytes);
    ScaledFacts(bytes as real, 0);
    Fixed(len, 2) + " " + Sizes[order]
  }

  /** FormatBytes: divides by 1024 until the value is below 1024 or the unit is "TB". */
  method FormatBytes(bytes: int) returns (text: string)
    ensures text == BytesText(bytes)
  {
    var len := bytes as real;
    var order := 0;
    while len >= 1024.0 && order < |Sizes| - 1
      invariant 0 <= order <= 4
      invariant Scaled(len, order) == BytesScale(bytes)
      decreases 4 - order
    {
      order := order + 1;
      len := len / 1024.0;
    }
    text := Fixed(len, 2) + " " + Sizes[order];
  }

  // ----------------------------------------------------------- FormatUptime

  /** DateTime ticks: 100 nanoseconds each. */
  const TicksPerMinute: int := 600_000_000
  const TicksPerHour: int := 60 * TicksPerMinute
  const TicksPerDay: int := 24 * TicksPerHour

  /** TimeSpan.Days, Hours and Minutes: whole components, truncated toward zero. */
  function UptimeParts(start: Timestamp, now: Timestamp): (r: (int, int, int))
    ensures now >= start ==>
      var (d, h, m) := r;
      && d >= 0 && 0 <= h < 24 && 0 <= m < 60
      && d * TicksPerDay + h * TicksPerHour + m * TicksPerMinute <= now - start
      < d * TicksPerDay + h * TicksPerHour + (m + 1) * TicksPerMinute
  {
    var ticks := now - start;
    var r := (TruncDiv(ticks, TicksPerDay), TruncMod(TruncDiv(ticks, TicksPerHour), 24), TruncMod(TruncDiv(ticks, TicksPerMinute), 60));
    if ticks >= 0 then
      UptimeSplit(ticks);
      r
    else r
  }

  /** The whole days, hours of the day and minutes of the hour in a non-negative tick count. */
  lemma UptimeSplit(ticks: nat)
    ensures var d, h, m := ticks / TicksPerDay, (ticks / TicksPerHour) % 24, (ticks / TicksPerMinute) % 60;
      && d * TicksPerDay + h * TicksPerHour + m * TicksPerMinute <= ticks
      < d * TicksPerDay + h * TicksPerHour + (m + 1) * TicksPerMinute
      && TruncDiv(ticks, TicksPerDay) == d
      && TruncMod(TruncDiv(ticks, TicksPerHour), 24) == h
      && TruncMod(TruncDiv(ticks, TicksPerMinute), 60) == m
  {
    var minutes := ticks / 600_000_000;
    var hours := minutes / 60;
    var days := hours / 24;
    var r1 := ticks % 600_000_000;
    var r2 := minutes % 60;
    var r3 := hours % 24;
    assert ticks == minutes * 600_000_000 + r1;
    assert minutes == hours * 60 + r2;
    assert hours == days * 24 + r3;
    DivUnique(ticks, 36_000_000_000, hours, r2 * 600_000_000 + r1);
    DivUnique(ticks, 864_000_000_000, days, r3 * 36_000_000_000 + r2 * 600_000_000 + r1);
  }

  /** A quotient is determined by any split with a remainder in range. */
  lemma DivUnique(a: nat, m: nat, q: nat, r: nat)
    requires m > 0 && r < m && a == q * m + r
    ensures a / m == q
  {
    var k := a / m - q;
    assert k * m == r - a % m;
    if k >= 1 {
      assert false;
    } else if k <= -1 {
      assert false;
    }
  }

  /** FormatUptime, with the clock read as `now`: "{Days}d {Hours}h {Minutes}m". */
  function UptimeText(start: Timestamp, now: Timestamp): string
  {
    var (d, h, m) := UptimeParts(start, now);
    IntToString(d) + "d " + IntToString(h) + "h " + IntToString(m) + "m"
  }

  // ------------------------------------------------------- FormatPercentage

  /** Math.Min(100, Math.Max(0, value)). */
  function Clamp(value: real): (r: real)
    ensures 0.0 <= r <= 100.0
    ensures 0.0 <= value <= 100.0 ==> r == value
    ensures value < 0.0 ==> r == 0.0
    ensures value > 100.0 ==> r == 100.0
  {
    MinReal(100.0, MaxReal(0.0, value))
  }

  /** FormatPercentage: the clamped value with one decimal and a percent sign. */
  function PercentageText(value: real): string
  {
    Fixed(Clamp(value), 1) + "%"
  }

  /** Clamping first changes nothing, so the text never shows a sign and ends in '%'. */
  lemma PercentageClamped(value: real)
    ensures PercentageText(value) == PercentageText(Clamp(value))
    ensures PercentageText(value)[0] != '-'
    ensures PercentageText(value)[|PercentageText(value)| - 1] == '%'
  {
    FixedChars(Clamp(value), 1);
  }

  /** Values at or below zero read "0.0%"; values at or above 100 read as 100 does. */
  lemma PercentageBounds(value: real)
    ensures value <= 0.0 ==> PercentageText(value) == "0.0%"
    ensures value >= 100.0 ==> PercentageText(value) == PercentageText(100.0)
  {
    assert Pow10(1) == 10;
    if value <= 0.0 {
      assert Clamp(value) == 0.0;
      assert Rounded(0.0, 1) == 0;
      FixedDigitsZero();
    }
  }

  lemma FixedDigitsZero()
    ensures FixedDigits(0, 1) == "0.0"
  {
    assert NatToString(0) == "0";
    var s := ZeroPad("0", 2);
    assert s == "00";
  }

  // ----------------------------------------------------- FormatNetworkSpeed

  /** FormatNetworkSpeed: the byte text of the value truncated to a long, with "/s". */
  method FormatNetworkSpeed(bytesPerSec: real) returns (text: string)
    ensures text == BytesText(TruncateToInt(bytesPerSec)) + "/s"
  {
    var b := FormatBytes(TruncateToInt(bytesPerSec));
    text := b + "/s";
  }

  /** Below 1024 bytes per second (negatives too) the speed is shown in "B/s" of the truncated value. */
  lemma SlowNetworkSpeed(bytesPerSec: real)
    requires bytesPerSec < 1024.0
    ensures BytesText(TruncateToInt(bytesPerSec)) + "/s" == Fixed(TruncateToInt(bytesPerSec) as real, 2) + " B/s"
  {
    SmallBytes(TruncateToInt(bytesPerSec));
  }
}
