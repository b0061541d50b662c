/** The spectrogram view: the column of the server's spectrogram (8192 Hz
    analysis rate, hop 916 samples) under the playback position, smoothed
    only to find its peak, and drawn as a curve over the key axis. */
module FrequencyGraph {
  import opened Numbers
  import opened Optional
  import opened KeyAxis
  import opened Spectral

  const SampleRate: real := 8192.0
  const HopLength: real := 916.0
  /** Frames per second of the spectrogram. */
  const FrameRate: real := SampleRate / HopLength
  const BlurSigma: real := 1.5

  /** Bins span 0 .. 4096 Hz, the curve uses 85% of the height above an
      80 dB headroom. */
  const GraphStyle: Style := Style(SampleRate / 2.0, 80.0, 0.85)

  /** At 2.0 s the view shows frame 17. */
  lemma FrameAtTwoSeconds()
    ensures FrameIndex(2.0, FrameRate) == 17
  {
    assert 2.0 * FrameRate == 16384.0 / 916.0;
    assert 17.0 <= 16384.0 / 916.0 < 18.0;
  }

  // ---------------------------------------------------------------------
  // Gaussian blur

  /** `Math.ceil(sigma * 3) * 2 + 1`. */
  function KernelSize(sigma: real): (n: nat)
    requires sigma > 0.0
    ensures n % 2 == 1 && n >= 3
  {
    Ceil(sigma * 3.0) * 2 + 1
  }

  /** With sigma = 1.5 the kernel has 11 weights. */
  lemma KernelSizeAtSigma()
    ensures KernelSize(BlurSigma) == 11
  {
    assert Ceil(4.5) == 5;
  }

  /** Weight i: `exp(-0.5 * ((i - floor(n / 2)) / sigma) ** 2)`. */
  function Kernel(exp: ExpFn, sigma: real): (kernel: seq<real>)
    requires sigma > 0.0
    ensures |kernel| == KernelSize(sigma)
    ensures forall j :: 0 <= j < |kernel| ==> kernel[j] > 0.0
    ensures kernel[|kernel| / 2] == 1.0
  {
    var n := KernelSize(sigma);
    var half := n / 2;
    var k := seq(n, j requires 0 <= j < n => exp(-0.5 * Square(((j - half) as real) / sigma)));
    assert k[half] == exp(0.0) by {
      assert Square(((half - half) as real) / sigma) == 0.0;
    }
    assert forall j :: 0 <= j < n ==> k[j] > 0.0 by {
      forall j | 0 <= j < n
        ensures k[j] > 0.0
      {
        ExpPositive(exp, -0.5 * Square(((j - half) as real) / sigma));
      }
    }
    k
  }

  function Square(d: real): real { d * d }

  /** The running `value` and `weightSum` after the first j kernel taps
      around sample i. */
  function Acc(data: seq<Num>, kernel: seq<real>, i: nat, j: nat): (Num, real)
    requires j <= |kernel|
    decreases j
  {
    if j == 0 then (Fin(0.0), 0.0) else Tap(data, kernel, i, j - 1, Acc(data, kernel, i, j - 1))
  }

  /** Tap j of the kernel around sample i: `index = i + j - floor(n / 2)`; a
      tap falling outside the data is skipped, otherwise the sample times its
      weight is added to the value and the weight to the weight sum. */
  function Tap(data: seq<Num>, kernel: seq<real>, i: nat, j: nat, acc: (Num, real)): (Num, real)
    requires j < |kernel|
  {
    var index := i + j - |kernel| / 2;
    if 0 <= index < |data| then (Add(acc.0, Mul(data[index], Fin(kernel[j]))), acc.1 + kernel[j])
    else acc
  }

  /** Smoothed sample i: `value / weightSum`. */
  function Blurred(data: seq<Num>, kernel: seq<real>, i: nat): Num {
    var acc := Acc(data, kernel, i, |kernel|);
    Div(acc.0, Fin(acc.1))
  }

  function BlurSpec(data: seq<Num>, kernel: seq<real>): (out: seq<Num>)
    ensures |out| == |data|
  {
    seq(|data|, i requires 0 <= i < |data| => Blurred(data, kernel, i))
  }

  /** gaussianBlur: `data.map` around the inner accumulation loop. */
  method GaussianBlur(exp: ExpFn, data: seq<Num>, sigma: real) returns (out: seq<Num>)
    requires sigma > 0.0
    ensures out == BlurSpec(data, Kernel(exp, sigma))
  {
    var kernel := Kernel(exp, sigma);
    var half := |kernel| / 2;
    out := [];
    var i := 0;
    while i < |data|
      invariant 0 <= i <= |data| && |out| == i
      invariant forall k :: 0 <= k < i ==> out[k] == Blurred(data, kernel, k)
    {
      var value := Fin(0.0);
      var weightSum := 0.0;
      var j := 0;
      while j < |kernel|
        invariant 0 <= j <= |kernel|
        invariant (value, weightSum) == Acc(data, kernel, i, j)
      {
        var index := i + j - half;
        if 0 <= index < |data| {
          value := Add(value, Mul(data[index], Fin(kernel[j])));
          weightSum := weightSum + kernel[j];
        }
        j := j + 1;
      }
      out := out + [Div(value, Fin(weightSum))];
      i := i + 1;
    }
  }

  /** The weight sum is never below the centre weight, which sample i itself
      always contributes. */
  lemma {:induction false} AccWeight(data: seq<Num>, kernel: seq<real>, i: nat, j: nat)
    requires i < |data| && j <= |kernel|
    requires forall t :: 0 <= t < |kernel| ==> kernel[t] > 0.0
    ensures Acc(data, kernel, i, j).1 >= 0.0
    ensures j > |kernel| / 2 ==> Acc(data, kernel, i, j).1 >= kernel[|kernel| / 2]
  {
    if j > 0 {
      AccWeight(data, kernel, i, j - 1);
    }
  }

  /** An accumulated value that is finite and between lo and hi times its
      weight sum. */
  ghost predicate WeightedWithin(acc: (Num, real), lo: real, hi: real) {
    acc.0.Fin? && lo * acc.1 <= acc.0.v <= hi * acc.1
  }

  /** Where every sample of the window is finite and in [lo, hi], the
      accumulated value stays between lo and hi times the weight sum. */
  lemma {:induction false} AccBounds(data: seq<Num>, kernel: seq<real>, i: nat, j: nat, lo: real, hi: real)
    requires j <= |kernel|
    requires forall t :: 0 <= t < |kernel| ==> kernel[t] > 0.0
    requires forall t :: 0 <= t < |data| && i - |kernel| / 2 <= t < i - |kernel| / 2 + |kernel| ==>
      data[t].Fin? && lo <= data[t].v <= hi
    ensures WeightedWithin(Acc(data, kernel, i, j), lo, hi)
  {
    if j > 0 {
      var prev := Acc(data, kernel, i, j - 1);
      AccBounds(data, kernel, i, j - 1, lo, hi);
      var t := i + (j - 1) - |kernel| / 2;
      assert 0 <= t < |data| ==> data[t].Fin? && lo <= data[t].v <= hi;
      assert Acc(data, kernel, i, j) == Tap(data, kernel, i, j - 1, prev);
      TapBounds(data, kernel, i, j - 1, prev, lo, hi);
    } else {
      assert lo * 0.0 == 0.0 && hi * 0.0 == 0.0;
    }
  }

  lemma TapBounds(data: seq<Num>, kernel: seq<real>, i: nat, j: nat, acc: (Num, real), lo: real, hi: real)
    requires j < |kernel| && kernel[j] > 0.0
    requires var t := i + j - |kernel| / 2;
      0 <= t < |data| ==> data[t].Fin? && lo <= data[t].v <= hi
    requires WeightedWithin(acc, lo, hi)
    ensures WeightedWithin(Tap(data, kernel, i, j, acc), lo, hi)
  {
    var t := i + j - |kernel| / 2;
    if 0 <= t < |data| {
      var a, k := data[t].v, kernel[j];
      ScaleBetween(lo, a, hi, k);
      assert Mul(data[t], Fin(k)) == Fin(a * k);
      assert Add(acc.0, Fin(a * k)) == Fin(acc.0.v + a * k);
    }
  }

  lemma ScaleBetween(lo: real, a: real, hi: real, k: real)
    requires lo <= a <= hi && k > 0.0
    ensures lo * k <= a * k <= hi * k
  {
  }

  /** The denominator of every smoothed sample is positive (at least the
      centre weight 1). */
  lemma BlurDenominatorPositive(exp: ExpFn, data: seq<Num>, sigma: real, i: nat)
    requires sigma > 0.0 && i < |data|
    ensures Acc(data, Kernel(exp, sigma), i, |Kernel(exp, sigma)|).1 >= 1.0
  {
    AccWeight(data, Kernel(exp, sigma), i, |Kernel(exp, sigma)|);
  }

  /** A smoothed sample is a positively weighted average of its window: when
      the window's samples are all finite and within [lo, hi], so is the
      result.  In particular a constant input stays constant. */
  lemma BlurWithinWindow(exp: ExpFn, data: seq<Num>, sigma: real, i: nat, lo: real, hi: real)
    requires sigma > 0.0 && i < |data|
    requires var half := |Kernel(exp, sigma)| / 2;
      forall t :: 0 <= t < |data| && i - half <= t <= i + half ==> data[t].Fin? && lo <= data[t].v <= hi
    ensures var r := BlurSpec(data, Kernel(exp, sigma))[i];
      r.Fin? && lo <= r.v <= hi
  {
    var kernel := Kernel(exp, sigma);
    AccWeight(data, kernel, i, |kernel|);
    AccBounds(data, kernel, i, |kernel|, lo, hi);
    var (v, w) := Acc(data, kernel, i, |kernel|);
    assert w > 0.0;
    assert lo <= v.v / w <= hi by {
      DivBetween(lo, v.v, hi, w);
    }
  }

  lemma DivBetween(lo: real, v: real, hi: real, w: real)
    requires w > 0.0 && lo * w <= v <= hi * w
    ensures lo <= v / w <= hi
  {
  }

  lemma BlurConstant(exp: ExpFn, data: seq<Num>, sigma: real, c: real)
    requires sigma > 0.0
    requires forall t :: 0 <= t < |data| ==> data[t] == Fin(c)
    ensures BlurSpec(data, Kernel(exp, sigma)) == data
  {
    forall i | 0 <= i < |data|
      ensures BlurSpec(data, Kernel(exp, sigma))[i] == Fin(c)
    {
      BlurWithinWindow(exp, data, sigma, i, c, c);
    }
  }

  // ---------------------------------------------------------------------
  // Drawing a frame

  /** The peak the frame is normalised by: the maximum of the smoothed frame. */
  function SmoothedPeak(exp: ExpFn, frame: seq<Num>): Num {
    MaxOf(BlurSpec(frame, Kernel(exp, BlurSigma)))
  }

  /** drawFrame: smooth, take the peak, build the points from the raw
      amplitudes and keep the finite ones. */
  method DrawFrame(view: View, exp: ExpFn, frame: seq<Num>) returns (points: seq<real>)
    ensures points == Flatten(FrameCandidates(view, GraphStyle, frame, SmoothedPeak(exp, frame)))
  {
    var smoothed := GaussianBlur(exp, frame, BlurSigma);
    var peak := MaxOf(smoothed);
    var pairs := FlatPairs(BinPairs(view, GraphStyle, frame, peak));
    points := FilterFinite(pairs);
    KeepFiniteFlat(BinPairs(view, GraphStyle, frame, peak));
  }

  /** What a drawn frame contains: a point for bin k > 0 exactly when its raw
      amplitude is finite and the smoothed peak is finite and non-zero (so a
      zero peak draws nothing), at the key-axis position of `k * 4096 / n`
      Hz; and the points run left to right. */
  lemma DrawnFrame(view: View, exp: ExpFn, frame: seq<Num>, k: nat)
    requires k < |frame|
    ensures var peak := SmoothedPeak(exp, frame);
      var c := FrameCandidates(view, GraphStyle, frame, peak)[k];
      && (c.Some? <==> k > 0 && frame[k].Fin? && peak.Fin? && peak.v != 0.0)
      && (c.Some? ==> c.value.0 == OctaveX(view.lg, view.width, BinFrequency(k, |frame|, SampleRate / 2.0)))
    ensures var peak := SmoothedPeak(exp, frame);
      !(peak.Fin? && peak.v != 0.0) ==> Flatten(FrameCandidates(view, GraphStyle, frame, peak)) == []
    ensures view.width > 0.0 ==>
      StrictlyIncreasing(Xs(Flatten(FrameCandidates(view, GraphStyle, frame, SmoothedPeak(exp, frame)))))
  {
    var peak := SmoothedPeak(exp, frame);
    var c := FrameCandidates(view, GraphStyle, frame, peak);
    FrameCandidateShape(view, GraphStyle, frame, peak, k);
    if !(peak.Fin? && peak.v != 0.0) {
      forall t | 0 <= t < |c|
        ensures c[t].None?
      {
        FrameCandidateShape(view, GraphStyle, frame, peak, t);
      }
      FlattenNone(c);
    }
    if view.width > 0.0 {
      FrameCandidatesOrdered(view, GraphStyle, frame, peak);
      FlattenSorted(c);
    }
  }

  // ---------------------------------------------------------------------
  // The component

  class FrequencyGraphView {
    /** The decoded spectrogram: one row per bin, one column per frame. */
    var fftData: seq<seq<Num>>
    var visualizationPoints: seq<real>

    constructor ()
      ensures fftData == [] && visualizationPoints == []
    {
      fftData := [];
      visualizationPoints := [];
    }

    /** A decoded server response replaces the spectrogram. */
    method SetData(matrix: seq<seq<Num>>)
      modifies this
      ensures fftData == matrix && visualizationPoints == old(visualizationPoints)
    {
      fftData := matrix;
    }

    /** One animation tick at playback time t: redraw from the frame under
        t, or keep the old curve when there is no such frame. */
    method Update(view: View, exp: ExpFn, t: real)
      modifies this
      ensures fftData == old(fftData)
      ensures var sel := SelectFrame(fftData, t, FrameRate);
        visualizationPoints == if sel.Some?
          then Flatten(FrameCandidates(view, GraphStyle, sel.value, SmoothedPeak(exp, sel.value)))
          else old(visualizationPoints)
    {
      var sel := SelectFrame(fftData, t, FrameRate);
      if sel.Some? {
        visualizationPoints := DrawFrame(view, exp, sel.value);
      }
    }
  }
}
