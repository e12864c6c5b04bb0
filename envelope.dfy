/** The level detectors and the gain curve of EffectExtra.h.

    `Peak` and `RMS` are windowed envelope followers whose counters,
    accumulators and smoothed outputs are updated in place, so they are
    classes; each carries a ghost `window` (the samples seen since the last
    reset) that its `Valid()` ties to the real accumulators.  `compress` only
    computes a value, so the curve and the gain are functions. */
module Envelope {
  import opened Numerics

  // ---------------------------------------------------------------------
  // Specification functions for the detectors
  // ---------------------------------------------------------------------

  function Max(a: real, b: real): real { if a >= b then a else b }

  /** The largest |s[i]|, or 0 for an empty window (the value `fMax` is reset to). */
  function MaxAbs(s: seq<real>): (r: real)
    ensures r >= 0.0
  {
    if s == [] then 0.0 else Max(MaxAbs(s[..|s| - 1]), Abs(s[|s| - 1]))
  }

  /** `MaxAbs` is the maximum of |s[i]|: it bounds every element and is
      attained by one of them unless it is the empty window's 0. */
  lemma {:induction false} MaxAbsIsMaximum(s: seq<real>)
    ensures forall i :: 0 <= i < |s| ==> Abs(s[i]) <= MaxAbs(s)
    ensures MaxAbs(s) == 0.0 || exists i :: 0 <= i < |s| && MaxAbs(s) == Abs(s[i])
  {
    if s != [] {
      var p := s[..|s| - 1];
      MaxAbsIsMaximum(p);
      assert forall i :: 0 <= i < |p| ==> s[i] == p[i];
      if MaxAbs(s) != 0.0 && MaxAbs(s) != Abs(s[|s| - 1]) {
        var i :| 0 <= i < |p| && MaxAbs(p) == Abs(p[i]);
        assert MaxAbs(s) == Abs(s[i]);
      }
    }
  }

  /** The sum of the squares of a window, the quantity `fSumOfSamples` accumulates. */
  function SumSquares(s: seq<real>): (r: real)
    ensures r >= 0.0
  {
    if s == [] then 0.0
    else
      var x := s[|s| - 1];
      assert x * x >= 0.0 by { SquareNonNegative(x); }
      SumSquares(s[..|s| - 1]) + x * x
  }

  lemma SquareNonNegative(x: real)
    ensures x * x >= 0.0
  {
    if x < 0.0 {
      assert x * x == (-x) * (-x);
    }
  }

  lemma {:induction false} MaxAbsSnoc(s: seq<real>, x: real)
    ensures MaxAbs(s + [x]) == Max(MaxAbs(s), Abs(x))
  {
    assert (s + [x])[..|s|] == s;
  }

  lemma {:induction false} SumSquaresSnoc(s: seq<real>, x: real)
    ensures SumSquares(s + [x]) == SumSquares(s) + Abs(x) * Abs(x)
  {
    assert (s + [x])[..|s|] == s;
    assert Abs(x) * Abs(x) == x * x;
  }

  /** The attack coefficient is used when the new window value exceeds the
      previous smoothed output, the release coefficient otherwise. */
  function Coefficient(newValue: real, previous: real, attack: real, release: real): real
  {
    if newValue > previous then attack else release
  }

  /** The one-pole update both detectors return: coeff*new + (1-coeff)*old. */
  function Smooth(newValue: real, previous: real, attack: real, release: real): real
  {
    var c := Coefficient(newValue, previous, attack, release);
    c * newValue + (1.0 - c) * previous
  }

  /** With a coefficient in [0, 1] the smoothed value lies between the
      previous output and the new window value. */
  lemma SmoothBetween(newValue: real, previous: real, attack: real, release: real)
    requires 0.0 <= Coefficient(newValue, previous, attack, release) <= 1.0
    ensures var r := Smooth(newValue, previous, attack, release);
      (newValue <= previous ==> newValue <= r <= previous) &&
      (previous <= newValue ==> previous <= r <= newValue)
  {
    var c := Coefficient(newValue, previous, attack, release);
    var r := Smooth(newValue, previous, attack, release);
    assert r - previous == c * (newValue - previous);
    assert newValue - r == (1.0 - c) * (newValue - previous);
    if newValue <= previous {
      assert c * (newValue - previous) <= 0.0 by { ProductSign(c, previous - newValue); }
      assert (1.0 - c) * (newValue - previous) <= 0.0 by { ProductSign(1.0 - c, previous - newValue); }
    } else {
      assert c * (newValue - previous) >= 0.0 by { ProductSign(c, newValue - previous); }
      assert (1.0 - c) * (newValue - previous) >= 0.0 by { ProductSign(1.0 - c, newValue - previous); }
    }
  }

  /** Each update shrinks the distance to the new window value by the factor
      (1 - coeff): with a constant window value the output converges to it
      from any starting state when 0 < coeff <= 1. */
  lemma SmoothContracts(newValue: real, previous: real, attack: real, release: real)
    ensures var c := Coefficient(newValue, previous, attack, release);
      Smooth(newValue, previous, attack, release) - newValue == (1.0 - c) * (previous - newValue)
  {
    var c := Coefficient(newValue, previous, attack, release);
    calc {
      Smooth(newValue, previous, attack, release) - newValue;
      c * newValue + (1.0 - c) * previous - newValue;
      (1.0 - c) * previous - (1.0 - c) * newValue;
      (1.0 - c) * (previous - newValue);
    }
  }

  lemma ProductSign(a: real, b: real)
    requires a >= 0.0 && b >= 0.0
    ensures a * b >= 0.0
  {
  }

  // ---------------------------------------------------------------------
  // Peak: running maximum of |x| over a window of iMeasuredLength calls
  // ---------------------------------------------------------------------

  /** The non-scratch fields of a `Peak`, as a value. */
  datatype PeakState = PeakState(length: int, items: int, max: real, smoothed: real, latest: real)

  /** One `Peak::process` call as a function of the detector's state: the
      new state and the returned value. */
  function PeakStep(lib: Lib, s: PeakState, fIn: real, attack: real, release: real): (r: (PeakState, real))
    requires lib.Sane()
    ensures r.0.length == s.length && r.1 == r.0.smoothed
    ensures r.0.items == 0 || r.0.items == s.items + 1
    ensures s.items >= 0 ==> (s.items + 1 == s.length <==> r.0.items == 0)
    ensures s.items + 1 == s.length ==> r.0.max == 0.0
    ensures s.items + 1 != s.length ==> r.0.latest == s.latest && r.0.max >= Abs(fIn)
    ensures s.length >= 1 && 0 <= s.items < s.length ==> 0 <= r.0.items < s.length
    ensures r.0.smoothed == Smooth(r.0.latest, s.smoothed, attack, release)
  {
    var m := Max(s.max, Abs(fIn));
    var n := s.items + 1;
    var reset := n == s.length;
    var items := if reset then 0 else n;
    var max := if reset then 0.0 else m;
    var latest := if reset then Compand(lib, m) else s.latest;
    var out := Smooth(latest, s.smoothed, attack, release);
    (PeakState(s.length, items, max, out, latest), out)
  }

  /** On a detector whose state tracks the window w, the call that fills the
      window publishes the companded maximum magnitude of the whole window,
      the current input included; every other call keeps tracking it. */
  lemma PeakStepTracksWindow(lib: Lib, s: PeakState, w: seq<real>, fIn: real, attack: real, release: real)
    requires lib.Sane() && s.items == |w| && s.max == MaxAbs(w)
    ensures var r := PeakStep(lib, s, fIn, attack, release).0;
      (|w| + 1 == s.length ==>
        r.latest == Compand(lib, MaxAbs(w + [fIn])) && r.max == MaxAbs([])) &&
      (|w| + 1 != s.length ==> r.items == |w + [fIn]| && r.max == MaxAbs(w + [fIn]))
  {
    MaxAbsSnoc(w, fIn);
  }

  class Peak {
    const lib: Lib
    /** `fLog40 = log10(40)`, fixed when the object is created. */
    const fLog40: real
    var iMeasuredLength: int
    var iMeasuredItems: int
    var fMax: real
    var fMaxOld: real
    var fMaxNew: real
    /** The samples passed to `Process` since the last reset. */
    ghost var window: seq<real>

    ghost predicate Wired()
    {
      lib.Sane() && fLog40 == lib.log10(40.0)
    }

    function State(): PeakState
      reads this
    {
      PeakState(iMeasuredLength, iMeasuredItems, fMax, fMaxOld, fMaxNew)
    }

    ghost predicate Valid()
      reads this
    {
      Wired() &&
      iMeasuredItems == |window| &&
      fMax == MaxAbs(window) &&
      (iMeasuredLength >= 1 ==> iMeasuredItems < iMeasuredLength)
    }

    /** The C++ object starts with indeterminate fields; `initialise` must be
        called before use, which the plugin does in its constructor. */
    constructor (lib: Lib)
      requires lib.Sane()
      ensures Wired() && this.lib == lib
    {
      this.lib := lib;
      fLog40 := lib.log10(40.0);
      iMeasuredLength, iMeasuredItems := *, *;
      fMax, fMaxOld, fMaxNew := *, *, *;
    }

    method Initialise(length: int)
      requires Wired()
      modifies this
      ensures Valid() && window == []
      ensures State() == PeakState(length, 0, 0.0, 0.0, 0.0)
    {
      iMeasuredLength := length;
      iMeasuredItems := 0;
      fMax, fMaxOld, fMaxNew := 0.0, 0.0, 0.0;
      window := [];
    }

    /** One detector call.  When the window fills, its maximum is companded
        into `fMaxNew` and the maximum and the counter restart from 0; the
        returned value is the smoothed `fMaxOld`. */
    method Process(fIn: real, fAttack: real, fRelease: real) returns (out: real)
      requires Valid()
      modifies this
      ensures Valid()
      ensures State() == PeakStep(lib, old(State()), fIn, fAttack, fRelease).0
      ensures out == PeakStep(lib, old(State()), fIn, fAttack, fRelease).1
      ensures |old(window)| + 1 == iMeasuredLength ==> window == []
      ensures |old(window)| + 1 != iMeasuredLength ==> window == old(window) + [fIn]
    {
      MaxAbsSnoc(window, fIn);
      var fAval := Abs(fIn);
      if fAval > fMax {
        fMax := fAval;
      }
      iMeasuredItems := iMeasuredItems + 1;
      window := window + [fIn];
      if iMeasuredItems == iMeasuredLength {
        assert fMax == MaxAbs(window);
        fMaxNew := lib.log10(fMax * 39.0 + 1.0) / fLog40;
        assert fMaxNew == Compand(lib, MaxAbs(window));
        fMax, iMeasuredItems := 0.0, 0;
        window := [];
      }
      fMaxOld := Smooth(fMaxNew, fMaxOld, fAttack, fRelease);
      out := fMaxOld;
    }
  }

  // ---------------------------------------------------------------------
  // RMS: sum of squares over a fixed window of 512 calls
  // ---------------------------------------------------------------------

  const RmsWindow: int := 512

  /** The non-scratch fields of an `RMS`, as a value. */
  datatype RmsState = RmsState(items: int, sum: real, smoothed: real, latest: real)

  /** One `RMS::process` call as a function of the detector's state. */
  function RmsStep(lib: Lib, s: RmsState, fIn: real, attack: real, release: real): (r: (RmsState, real))
    requires lib.Sane()
    ensures r.1 == r.0.smoothed
    ensures s.items >= 0 ==> (s.items + 1 == RmsWindow <==> r.0.items == 0)
    ensures s.items + 1 == RmsWindow ==> r.0.sum == 0.0
    ensures s.items + 1 != RmsWindow ==> r.0.items == s.items + 1 && r.0.latest == s.latest
    ensures 0 <= s.items < RmsWindow ==> 0 <= r.0.items < RmsWindow
    ensures r.0.smoothed == Smooth(r.0.latest, s.smoothed, attack, release)
  {
    var a := Abs(fIn);
    var sum := s.sum + a * a;
    var n := s.items + 1;
    var reset := n == RmsWindow;
    var latest := if reset then Compand(lib, lib.sqrt(sum / 512.0)) else s.latest;
    var out := Smooth(latest, s.smoothed, attack, release);
    (RmsState(if reset then 0 else n, if reset then 0.0 else sum, out, latest), out)
  }

  /** On a detector whose state tracks the window w, the 512th call
      publishes the companded root mean square of the whole window, the
      current input included; every other call keeps tracking it. */
  lemma RmsStepTracksWindow(lib: Lib, s: RmsState, w: seq<real>, fIn: real, attack: real, release: real)
    requires lib.Sane() && s.items == |w| && s.sum == SumSquares(w)
    ensures var r := RmsStep(lib, s, fIn, attack, release).0;
      (|w| + 1 == RmsWindow ==>
        r.latest == Compand(lib, lib.sqrt(SumSquares(w + [fIn]) / 512.0)) && r.sum == SumSquares([])) &&
      (|w| + 1 != RmsWindow ==> r.items == |w + [fIn]| && r.sum == SumSquares(w + [fIn]))
  {
    SumSquaresSnoc(w, fIn);
  }

  class RMS {
    const lib: Lib
    var iMeasuredItems: int
    var fSumOfSamples: real
    var oldSum: real
    var newSum: real
    ghost var window: seq<real>

    function State(): RmsState
      reads this
    {
      RmsState(iMeasuredItems, fSumOfSamples, oldSum, newSum)
    }

    ghost predicate Valid()
      reads this
    {
      lib.Sane() &&
      iMeasuredItems == |window| < RmsWindow &&
      fSumOfSamples == SumSquares(window)
    }

    /** Only `fSumOfSamples` has an initialiser in the C++ class; the counter
        and the two smoothed values start indeterminate and `oldSum`/`newSum`
        are never reset. */
    constructor (lib: Lib)
      requires lib.Sane()
      ensures this.lib == lib && fSumOfSamples == 0.0
    {
      this.lib := lib;
      iMeasuredItems := *;
      fSumOfSamples := 0.0;
      oldSum, newSum := *, *;
    }

    method Initialise()
      requires lib.Sane()
      modifies this
      ensures Valid() && window == [] && iMeasuredItems == 0 && fSumOfSamples == 0.0
      ensures oldSum == old(oldSum) && newSum == old(newSum)
    {
      iMeasuredItems := 0;
      fSumOfSamples := 0.0;
      window := [];
    }

    /** One detector call.  After 512 calls the window value is
        sqrt(sum of squares / 512), companded into `newSum`, and the sum and
        the counter restart. */
    method Process(fIn: real, fAttack: real, fRelease: real) returns (out: real)
      requires Valid()
      modifies this
      ensures Valid()
      ensures State() == RmsStep(lib, old(State()), fIn, fAttack, fRelease).0
      ensures out == RmsStep(lib, old(State()), fIn, fAttack, fRelease).1
      ensures |old(window)| + 1 == RmsWindow ==> window == []
      ensures |old(window)| + 1 != RmsWindow ==> window == old(window) + [fIn]
    {
      ghost var step := RmsStep(lib, State(), fIn, fAttack, fRelease);
      SumSquaresSnoc(window, fIn);
      var fAval := Abs(fIn);
      fSumOfSamples := fSumOfSamples + fAval * fAval;
      iMeasuredItems := iMeasuredItems + 1;
      window := window + [fIn];
      if iMeasuredItems == RmsWindow {
        assert fSumOfSamples == SumSquares(window);
        ghost var rootMean := lib.sqrt(SumSquares(window) / 512.0);
        fSumOfSamples := fSumOfSamples / 512.0;
        fSumOfSamples := lib.sqrt(fSumOfSamples);
        assert fSumOfSamples == rootMean;
        newSum := lib.log10(fSumOfSamples * 39.0 + 1.0) / lib.log10(40.0);
        assert newSum == Compand(lib, rootMean);
        assert newSum == step.0.latest;
        Initialise();
      }
      assert newSum == step.0.latest;
      oldSum := Smooth(newSum, oldSum, fAttack, fRelease);
      out := oldSum;
    }
  }

  // ---------------------------------------------------------------------
  // The gain curve of Peak::compress, in dB
  // ---------------------------------------------------------------------

  /** The quadratic soft-knee interpolation of the middle region. */
  function SoftKnee(x: real, t: real, ratio: real, k: real): real
    requires ratio != 0.0 && k != 0.0
  {
    var v := x - t + k / 2.0;
    x + ((1.0 / ratio - 1.0) * (v * v)) / (k * 2.0)
  }

  /** The output level y of `compress` exactly as the code computes it, for an
      input level x, threshold t and knee width k (all dB).  `None` marks the
      cases where the code divides by zero, so that the float result is NaN or
      infinite.  The three guards are exhaustive over the reals for every k,
      so the scratch field `y` is always written. */
  function CurveAsWritten(x: real, t: real, ratio: real, k: real): (r: Option<real>)
    ensures r == None <==> 2.0 * (x - t) >= -k && (ratio == 0.0 || (k == 0.0 && x == t))
  {
    if 2.0 * (x - t) < -k then Some(x)
    else if 2.0 * Abs(x - t) <= k then
      if ratio == 0.0 || k == 0.0 then None else Some(SoftKnee(x, t, ratio, k))
    else if 2.0 * (x - t) > k then
      if ratio == 0.0 then None else Some(t + (x - t) / ratio)
    else
      assert false; None
  }

  /** The curve the rest of the model uses: the code's three regions, with the
      two divisions by zero guarded.  A zero knee width leaves only the point
      x == t in the middle region, where both neighbouring regions give x; a
      zero ratio is treated as unity (no gain change). */
  function Curve(x: real, t: real, ratio: real, k: real): real
  {
    if 2.0 * (x - t) < -k then x
    else if 2.0 * Abs(x - t) <= k then
      if ratio == 0.0 || k == 0.0 then x else SoftKnee(x, t, ratio, k)
    else if 2.0 * (x - t) > k then
      if ratio == 0.0 then x else t + (x - t) / ratio
    else
      assert false; x
  }

  /** Wherever the code's float arithmetic stays finite, the guarded curve
      gives exactly the code's value. */
  lemma CurveAgreesWithSource(x: real, t: real, ratio: real, k: real)
    requires CurveAsWritten(x, t, ratio, k).Some?
    ensures Curve(x, t, ratio, k) == CurveAsWritten(x, t, ratio, k).value
  {
  }

  /** Counterexample: at knee width 0 (the dB value of the knee control's
      initial setting 1.0) a level exactly at the threshold reaches the
      soft-knee branch and divides 0 by 0. */
  lemma CurveAsWrittenZeroKnee(t: real, ratio: real)
    ensures CurveAsWritten(t, t, ratio, 0.0) == None
    ensures Curve(t, t, ratio, 0.0) == t
  {
  }

  /** Counterexample: a ratio of 0 above the lower knee edge divides by 0. */
  lemma CurveAsWrittenZeroRatio(x: real, t: real, k: real)
    requires 2.0 * (x - t) >= -k
    ensures CurveAsWritten(x, t, 0.0, k) == None
    ensures Curve(x, t, 0.0, k) == x
  {
  }

  /** Below the knee the level passes unchanged. */
  lemma CurveBelowKnee(x: real, t: real, ratio: real, k: real)
    requires 2.0 * (x - t) < -k
    ensures Curve(x, t, ratio, k) == x
  {
  }

  /** Above the knee (for a non-negative width) the hard ratio applies. */
  lemma CurveAboveKnee(x: real, t: real, ratio: real, k: real)
    requires k >= 0.0 && 2.0 * (x - t) > k && ratio != 0.0
    ensures Curve(x, t, ratio, k) == t + (x - t) / ratio
  {
  }

  /** With a negative knee width (a knee control below 1.0) the middle region
      is empty and the pass-through region reaches up to t + |k|/2. */
  lemma CurveNegativeKnee(x: real, t: real, ratio: real, k: real)
    requires k < 0.0 && ratio != 0.0
    ensures Curve(x, t, ratio, k) == if 2.0 * (x - t) < -k then x else t + (x - t) / ratio
  {
  }

  /** Continuity: the soft knee meets the pass-through line at x - t = -k/2
      and the hard-ratio line at x - t = k/2. */
  lemma SoftKneeContinuous(t: real, ratio: real, k: real)
    requires k > 0.0 && ratio != 0.0
    ensures SoftKnee(t - k / 2.0, t, ratio, k) == t - k / 2.0
    ensures SoftKnee(t + k / 2.0, t, ratio, k) == t + (k / 2.0) / ratio
  {
    var a := 1.0 / ratio - 1.0;
    assert (t + k / 2.0) - t + k / 2.0 == k;
    assert (a * (k * k)) / (k * 2.0) == a * (k / 2.0) by {
      assert a * (k * k) == (a * (k / 2.0)) * (k * 2.0);
    }
    assert a * (k / 2.0) == (k / 2.0) / ratio - k / 2.0;
  }

  /** For a ratio of at least 1 the output level never exceeds the input level. */
  lemma CurveNeverBoosts(x: real, t: real, ratio: real, k: real)
    requires ratio >= 1.0
    ensures Curve(x, t, ratio, k) <= x
  {
    var d := x - t;
    if 2.0 * d < -k {
    } else if 2.0 * Abs(d) <= k {
      if k != 0.0 {
        var v := d + k / 2.0;
        var a := 1.0 / ratio - 1.0;
        assert 1.0 / ratio <= 1.0;
        assert v * v >= 0.0 by { SquareNonNegative(v); }
        assert -a >= 0.0;
        assert (-a) * (v * v) >= 0.0 by { ProductSign(-a, v * v); }
        assert (a * (v * v)) / (k * 2.0) <= 0.0;
      }
    } else {
      assert d > 0.0;
      assert d / ratio <= d;
    }
  }

  // ---------------------------------------------------------------------
  // The returned gain
  // ---------------------------------------------------------------------

  /** `Peak::compress`: the linear gain 10^(y/20) / 10^(x/20) for the level
      x = 20*log10(input) and y the curve's output; exactly 1 for a
      non-positive input. */
  function Compress(lib: Lib, input: real, thresh: real, ratio: real, kneeWidth: real): (g: real)
    requires lib.Sane()
    ensures input <= 0.0 ==> g == 1.0
    ensures g > 0.0
  {
    if input <= 0.0 then 1.0
    else
      var x := LinearToDecibel(lib, input);
      var y := Curve(x, thresh, ratio, kneeWidth);
      lib.pow10(0.05 * y) / lib.pow10(0.05 * x)
  }

  /** Below the knee the gain is exactly 1. */
  lemma CompressUnityBelowKnee(lib: Lib, input: real, thresh: real, ratio: real, kneeWidth: real)
    requires lib.Sane() && input > 0.0
    requires 2.0 * (LinearToDecibel(lib, input) - thresh) < -kneeWidth
    ensures Compress(lib, input, thresh, ratio, kneeWidth) == 1.0
  {
    var x := LinearToDecibel(lib, input);
    var p := lib.pow10(0.05 * x);
    assert p > 0.0;
    assert Curve(x, thresh, ratio, kneeWidth) == x;
    assert Compress(lib, input, thresh, ratio, kneeWidth) == p / p;
    assert p / p == 1.0;
  }

  /** For a monotone 10^x and a ratio of at least 1, the gain lies in (0, 1]:
      the compressor only ever reduces the level. */
  lemma CompressNeverBoosts(lib: Lib, input: real, thresh: real, ratio: real, kneeWidth: real)
    requires lib.Sane() && lib.Monotone() && ratio >= 1.0
    ensures 0.0 < Compress(lib, input, thresh, ratio, kneeWidth) <= 1.0
  {
    if input > 0.0 {
      var x := LinearToDecibel(lib, input);
      var y := Curve(x, thresh, ratio, kneeWidth);
      CurveNeverBoosts(x, thresh, ratio, kneeWidth);
      assert lib.pow10(0.05 * y) <= lib.pow10(0.05 * x);
      assert lib.pow10(0.05 * x) > 0.0;
    }
  }
}
