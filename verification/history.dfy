/** The two bounded FIFO histories the render context keeps (recent frames
    and recent frame rates) and the statistics read from them. An f32 rate
    that is not finite (n / 0 is infinite, 0 / 0 is NaN) is `None`. */
module FrameHistory {
  import opened Optional
  import opened Frames

  const FrameBufferLength: nat := 128
  const FrameRateBufferLength: nat := 128

  function Min(a: int, b: int): int
  {
    if a < b then a else b
  }

  function Max(a: int, b: int): int
  {
    if a < b then b else a
  }

  /** `push_back` followed by one `pop_front` when the length then exceeds
      `cap`. */
  function PushBounded<T>(s: seq<T>, x: T, cap: nat): (r: seq<T>)
    ensures |r| == if |s| + 1 > cap then |s| else |s| + 1
    ensures r == (s + [x])[|s| + 1 - |r|..]
  {
    var pushed := s + [x];
    if |pushed| > cap then pushed[1..] else pushed
  }

  /** Pushing into a history within its bound keeps it within the bound and
      leaves the pushed item newest. */
  lemma PushBoundedKeepsBound<T>(s: seq<T>, x: T, cap: nat)
    requires 1 <= cap && |s| <= cap
    ensures |PushBounded(s, x, cap)| == Min(|s| + 1, cap) <= cap
    ensures PushBounded(s, x, cap)[|PushBounded(s, x, cap)| - 1] == x
  {
  }

  /** Pushing the items of `xs` one after the other, oldest first. */
  function PushAll<T>(s: seq<T>, xs: seq<T>, cap: nat): seq<T>
    decreases |xs|
  {
    if |xs| == 0 then s else PushAll(PushBounded(s, xs[0], cap), xs[1..], cap)
  }

  /** However many items are pushed, a history that starts within its bound
      holds exactly the newest `cap` of everything seen, oldest first. */
  lemma {:induction false} PushAllKeepsNewest<T>(s: seq<T>, xs: seq<T>, cap: nat)
    requires 1 <= cap && |s| <= cap
    ensures PushAll(s, xs, cap) == (s + xs)[Max(0, |s| + |xs| - cap)..]
    decreases |xs|
  {
    if |xs| == 0 {
      assert s + xs == s;
    } else {
      var s' := PushBounded(s, xs[0], cap);
      var k := |s| + 1 - |s'|;
      PushAllKeepsNewest(s', xs[1..], cap);
      assert s' + xs[1..] == (s + xs)[k..] by {
        assert s + xs == (s + [xs[0]]) + xs[1..];
      }
      assert (s' + xs[1..])[Max(0, |s'| + |xs[1..]| - cap)..]
          == (s + xs)[k + Max(0, |s'| + |xs[1..]| - cap)..];
    }
  }

  /** `f32::round`: to the nearest integer, halves away from zero. */
  function Round(x: real): (r: int)
    ensures x - 0.5 <= r as real <= x + 0.5
    ensures 0.0 <= x ==> 0 <= r
    ensures r == 0 <==> -0.5 < x < 0.5
    ensures r as real - x == 0.5 ==> 0.0 < x
    ensures x - r as real == 0.5 ==> x < 0.0
  {
    if 0.0 <= x then (x + 0.5).Floor else -((-x + 0.5).Floor)
  }

  /** `(x * 100.0).round() / 100.0`: x rounded to a whole number of
      hundredths, halves away from zero. */
  function RoundHundredths(x: real): (r: real)
    ensures x - 0.005 <= r <= x + 0.005
    ensures r == 0.0 <==> -0.005 < x < 0.005
    ensures r * 100.0 == (r * 100.0).Floor as real
    ensures r - x == 0.005 ==> 0.0 < x
    ensures x - r == 0.005 ==> x < 0.0
  {
    var r := Round(x * 100.0) as real / 100.0;
    assert r * 100.0 == Round(x * 100.0) as real;
    r
  }

  /** The frame time of every frame, all elapsed times read at `clock`,
      summed oldest first as the source's fold does. */
  function SumFrameTimes(frames: seq<Frame>, clock: real): real
  {
    if |frames| == 0 then 0.0
    else SumFrameTimes(frames[..|frames| - 1], clock) + FrameTimeS(frames[|frames| - 1], clock, clock)
  }

  /** The summed durations of the frames, which need no clock. */
  function SumDurations(frames: seq<Frame>): real
  {
    if |frames| == 0 then 0.0 else SumDurations(frames[..|frames| - 1]) + Duration(frames[|frames| - 1])
  }

  /** For a history of complete frames the summed frame time is the summed
      duration: the clock reading does not matter. */
  lemma {:induction false} SumOfCompleteFrames(frames: seq<Frame>, clock: real)
    requires forall i :: 0 <= i < |frames| ==> Complete(frames[i])
    ensures SumFrameTimes(frames, clock) == SumDurations(frames)
  {
    if |frames| > 0 {
      SumOfCompleteFrames(frames[..|frames| - 1], clock);
    }
  }

  /** `Context::frame_rate`: the number of frames over their total frame
      time rounded to hundredths of a second. `None` when that rounded time
      is 0 (an f32 infinity, or NaN for an empty history). */
  function FrameRate(frames: seq<Frame>, clock: real): (r: Option<real>)
    ensures r.Some? <==> RoundHundredths(SumFrameTimes(frames, clock)) != 0.0
    ensures r.Some? ==> r.value * RoundHundredths(SumFrameTimes(frames, clock)) == |frames| as real
    ensures |frames| == 0 ==> r == None
  {
    var rounded := RoundHundredths(SumFrameTimes(frames, clock));
    if rounded == 0.0 then None else Some(|frames| as real / rounded)
  }

  /** The finite frame rates summed oldest first; `None` as soon as one of
      them is not finite (an f32 sum that meets an infinity stays
      infinite). */
  function SumRates(rates: seq<Option<real>>): (r: Option<real>)
    ensures r.Some? <==> forall i :: 0 <= i < |rates| ==> rates[i].Some?
  {
    if |rates| == 0 then Some(0.0)
    else
      match SumRates(rates[..|rates| - 1])
      case None => None
      case Some(s) => if rates[|rates| - 1].Some? then Some(s + rates[|rates| - 1].value) else None
  }

  /** `Context::average_frame_rate`: the mean of the rate history. `None`
      for an empty history (0 / 0) or one holding a non-finite rate. */
  function AverageFrameRate(rates: seq<Option<real>>): (r: Option<real>)
    ensures r.Some? <==> |rates| > 0 && forall i :: 0 <= i < |rates| ==> rates[i].Some?
    ensures r.Some? ==> r.value * |rates| as real == SumRates(rates).value
  {
    if |rates| == 0 then None
    else
      match SumRates(rates)
      case None => None
      case Some(s) => Some(s / |rates| as real)
  }

  /** Every rate of the history lies in [lo, hi]. */
  ghost predicate RatesWithin(rates: seq<Option<real>>, lo: real, hi: real)
  {
    forall i :: 0 <= i < |rates| ==> rates[i].Some? && lo <= rates[i].value <= hi
  }

  lemma {:induction false} SumRatesWithin(rates: seq<Option<real>>, lo: real, hi: real)
    requires RatesWithin(rates, lo, hi)
    ensures SumRates(rates).Some?
    ensures |rates| as real * lo <= SumRates(rates).value <= |rates| as real * hi
  {
    if |rates| > 0 {
      var init := rates[..|rates| - 1];
      SumRatesWithin(init, lo, hi);
      var n := |init| as real;
      assert |rates| as real * lo == n * lo + lo;
      assert |rates| as real * hi == n * hi + hi;
    }
  }

  /** The average lies between the smallest and the largest rate. */
  lemma AverageWithinBounds(rates: seq<Option<real>>, lo: real, hi: real)
    requires |rates| > 0 && RatesWithin(rates, lo, hi)
    ensures AverageFrameRate(rates).Some?
    ensures lo <= AverageFrameRate(rates).value <= hi
  {
    SumRatesWithin(rates, lo, hi);
    var n := |rates| as real;
    var a := AverageFrameRate(rates).value;
    assert a * n == SumRates(rates).value;
    assert a * n >= lo * n;
    assert a * n <= hi * n;
  }

  /** Ten rates of 60 followed by five of 30 average to 50. */
  lemma AverageOfMixedHistory()
    ensures AverageFrameRate(seq(10, _ => Some(60.0)) + seq(5, _ => Some(30.0))) == Some(50.0)
  {
    var rates := seq(10, _ => Some(60.0)) + seq(5, _ => Some(30.0));
    SumRatesWithin(rates[..10], 60.0, 60.0);
    SumRatesWithin(rates[10..], 30.0, 30.0);
    assert SumRates(rates[..10]).value == 600.0;
    assert SumRates(rates[10..]).value == 150.0;
    SumRatesSplit(rates[..10], rates[10..]);
    assert rates[..10] + rates[10..] == rates;
    assert SumRates(rates) == Some(750.0);
    var a := AverageFrameRate(rates).value;
    assert a * 15.0 == 750.0;
  }

  /** Summing a concatenation sums the parts. */
  lemma {:induction false} SumRatesSplit(a: seq<Option<real>>, b: seq<Option<real>>)
    requires SumRates(a).Some? && SumRates(b).Some?
    ensures SumRates(a + b) == Some(SumRates(a).value + SumRates(b).value)
    decreases |b|
  {
    if |b| == 0 {
      assert a + b == a;
    } else {
      var b' := b[..|b| - 1];
      assert (a + b)[..|a + b| - 1] == a + b';
      assert SumRates(b').Some?;
      SumRatesSplit(a, b');
    }
  }
}
