/**
 * What the plotters' `update_plot` computes before drawing: the series
 * to draw, the x-range and the y-range, plus the sample rate shown in the
 * status line. Drawing itself is left to the plotting library and is not
 * modelled; a view is the data that would be handed to it.
 */
module WindowView {
  import HexDecoder

  /** An axis range `[lo, hi]` as passed to `set_xlim` / `set_ylim`. */
  datatype Range = Range(lo: real, hi: real)

  /** Either nothing is drawn, or one series with its axis ranges. */
  datatype View = Skip | Draw(times: seq<real>, values: seq<int>, xRange: Range, yRange: Range)

  /** Either nothing is drawn, or two series over shared times, each with its own y-range. */
  datatype DualView =
    | SkipBoth
    | DrawBoth(times: seq<real>, ch0: seq<int>, ch1: seq<int>, xRange: Range, y0Range: Range, y1Range: Range)

  /** The width, in seconds, of the visible window. */
  const WindowSeconds: real := 10.0

  /** The padding `main.py` leaves above and below each channel's data. */
  const ScrollMargin: real := 200.0

  /** The padding used by the auto-scaled view when every value is the same. */
  const FlatPadding: real := 200.0

  function Min(s: seq<int>): (m: int)
    requires |s| > 0
    ensures forall i :: 0 <= i < |s| ==> m <= s[i]
    ensures exists i :: 0 <= i < |s| && s[i] == m
  {
    if |s| == 1 then s[0]
    else
      var rest := Min(s[1..]);
      assert forall i :: 1 <= i < |s| ==> s[i] == s[1..][i - 1];
      if s[0] <= rest then s[0] else rest
  }

  function Max(s: seq<int>): (m: int)
    requires |s| > 0
    ensures forall i :: 0 <= i < |s| ==> s[i] <= m
    ensures exists i :: 0 <= i < |s| && s[i] == m
  {
    if |s| == 1 then s[0]
    else
      var rest := Max(s[1..]);
      assert forall i :: 1 <= i < |s| ==> s[i] == s[1..][i - 1];
      if s[0] >= rest then s[0] else rest
  }

  /**
   * Times shifted so that the last one sits at the right edge of the
   * window (10 s); the spacing between any two samples is kept.
   */
  function RightAligned(times: seq<real>): (r: seq<real>)
    requires |times| > 0
    ensures |r| == |times|
    ensures r[|r| - 1] == WindowSeconds
    ensures forall i, j :: 0 <= i < |r| && 0 <= j < |r| ==> r[i] - r[j] == times[i] - times[j]
  {
    seq(|times|, i requires 0 <= i < |times| => times[i] - times[|times| - 1] + WindowSeconds)
  }

  /** `m` is the exact distance between the data and either end of `r`. */
  ghost predicate Margins(r: Range, vs: seq<int>, m: real)
  {
    && (forall i :: 0 <= i < |vs| ==> r.lo + m <= vs[i] as real <= r.hi - m)
    && (exists i :: 0 <= i < |vs| && vs[i] as real == r.lo + m)
    && (exists i :: 0 <= i < |vs| && vs[i] as real == r.hi - m)
  }

  /** The y-padding of `main1.py`: a tenth of the spread, or 200 for flat data. */
  function Padding(lo: int, hi: int): (p: real)
    requires lo <= hi
    ensures p > 0.0
    ensures lo < hi ==> p * 10.0 == (hi - lo) as real
    ensures lo == hi ==> p == FlatPadding
  {
    if hi > lo then (hi - lo) as real * 0.1 else FlatPadding
  }

  /**
   * `main1.py`'s view: right-aligned times over the fixed window [0, 10] and
   * a y-range fitted to the data with symmetric padding.
   */
  function AutoScaledView(times: seq<real>, values: seq<int>): (v: View)
    requires |times| == |values|
    ensures v.Skip? <==> |times| < 2
    ensures |times| >= 2 ==> v.values == values && v.times == RightAligned(times)
    ensures |times| >= 2 ==> v.xRange == Range(0.0, WindowSeconds)
    ensures |times| >= 2 ==> Margins(v.yRange, values, Padding(Min(values), Max(values)))
  {
    if |times| < 2 then Skip
    else
      var lo, hi := Min(values), Max(values);
      var pad := Padding(lo, hi);
      Draw(RightAligned(times), values, Range(0.0, WindowSeconds), Range(lo as real - pad, hi as real + pad))
  }

  /** Every value lies strictly inside the auto-scaled y-range, which is 1.2 times the spread wide (400 for flat data). */
  lemma AutoScaledFits(times: seq<real>, values: seq<int>)
    requires |times| == |values| && |times| >= 2
    ensures var y := AutoScaledView(times, values).yRange;
      && (forall i :: 0 <= i < |values| ==> y.lo < values[i] as real < y.hi)
      && (Min(values) < Max(values) ==> (y.hi - y.lo) * 10.0 == (Max(values) - Min(values)) as real * 12.0)
      && (Min(values) == Max(values) ==> y.hi - y.lo == 2.0 * FlatPadding)
  {
    var y := AutoScaledView(times, values).yRange;
    var p := Padding(Min(values), Max(values));
    assert y == Range(Min(values) as real - p, Max(values) as real + p);
  }

  /** `mainSingle.py`'s view: right-aligned times, window [0, 10], fixed ADC y-range [0, 4095]. */
  function FixedAxisView(times: seq<real>, values: seq<int>): (v: View)
    requires |times| == |values|
    ensures v.Skip? <==> |times| < 2
    ensures |times| >= 2 ==> v.values == values && v.times == RightAligned(times)
    ensures |times| >= 2 ==> v.xRange == Range(0.0, WindowSeconds)
    ensures |times| >= 2 ==> v.yRange == Range(0.0, HexDecoder.AdcMax as real)
    ensures |times| >= 2 && HexDecoder.AllInAdcRange(values) ==>
      forall i :: 0 <= i < |values| ==> v.yRange.lo <= values[i] as real <= v.yRange.hi
  {
    if |times| < 2 then Skip
    else Draw(RightAligned(times), values, Range(0.0, WindowSeconds), Range(0.0, HexDecoder.AdcMax as real))
  }

  /**
   * `main.py`'s view: the raw times, an x-range scrolling with the newest
   * time, and per-channel y-ranges 200 beyond the data.
   */
  function ScrollingView(times: seq<real>, ch0: seq<int>, ch1: seq<int>): (v: DualView)
    requires |times| == |ch0| == |ch1|
    ensures v.SkipBoth? <==> |times| < 2
    ensures |times| >= 2 ==> v.times == times && v.ch0 == ch0 && v.ch1 == ch1
    ensures |times| >= 2 ==> Margins(v.y0Range, ch0, ScrollMargin) && Margins(v.y1Range, ch1, ScrollMargin)
    ensures |times| >= 2 ==>
      var last := times[|times| - 1];
      && v.xRange.hi == last + 1.0
      && v.xRange.lo == (if last - WindowSeconds > 0.0 then last - WindowSeconds else 0.0)
      && 0.0 <= v.xRange.lo
      && v.xRange.hi - v.xRange.lo <= WindowSeconds + 1.0
      && (forall i :: 0 <= i < |times| && 0.0 <= times[i] && last - WindowSeconds <= times[i] <= last ==>
            v.xRange.lo <= times[i] <= v.xRange.hi)
  {
    if |times| < 2 then SkipBoth
    else
      var last := times[|times| - 1];
      var lo := if last - WindowSeconds > 0.0 then last - WindowSeconds else 0.0;
      DrawBoth(times, ch0, ch1, Range(lo, last + 1.0),
               Range(Min(ch0) as real - ScrollMargin, Max(ch0) as real + ScrollMargin),
               Range(Min(ch1) as real - ScrollMargin, Max(ch1) as real + ScrollMargin))
  }

  /** Samples per second shown in the status line; 0 before any time has passed. */
  function Rate(count: nat, elapsed: real): (r: real)
    ensures r >= 0.0
    ensures elapsed <= 0.0 ==> r == 0.0
    ensures elapsed > 0.0 ==> r * elapsed == count as real
  {
    if elapsed > 0.0 then count as real / elapsed else 0.0
  }
}
