/** The live spectrum view: one FFT magnitude array (8192-point analysis)
    drawn over the key axis, restricted to C1 .. C7 and thinned above 500 Hz. */
module FftGraph {
  import opened Numbers
  import opened Optional
  import opened KeyAxis
  import opened Spectral

  const FftSize: real := 8192.0
  /** The sample rate assumed when no audio context is available. */
  const FallbackSampleRate: real := 4186.0
  /** Above this frequency only every fourth bin is drawn. */
  const DownsampleThreshold: real := 500.0
  /** Amplitudes are decibels lifted by 140 and drawn over the full height;
      this view places bins by frequency itself, so the style's frequency
      limit (the fallback Nyquist frequency) is not consulted here. */
  const GraphStyle: Style := Style(FallbackSampleRate / 2.0, 140.0, 1.0)

  /** `(sampleRate || 4186) / fftSize`: a missing or zero sample rate falls
      back to 4186 Hz. */
  function Resolution(sampleRate: Option<real>): (r: real)
    ensures sampleRate.None? || sampleRate.value == 0.0 ==> r == FallbackSampleRate / FftSize
    ensures sampleRate.Some? && sampleRate.value != 0.0 ==> r * FftSize == sampleRate.value
  {
    (if sampleRate.None? || sampleRate.value == 0.0 then FallbackSampleRate else sampleRate.value) / FftSize
  }

  /** Bin i lies within the keyboard's range C1 .. C7. */
  predicate InBand(freq: real) { C1 <= freq <= C7 }

  /** Bin i survives the thinning: below 500 Hz every bin, above it only
      the bins whose index is a multiple of 4. */
  predicate Sampled(i: nat, freq: real) { !(freq > DownsampleThreshold && i % 4 != 0) }

  /** What the `forEach` callback pushes for bin i, if anything. */
  function FftCandidate(view: View, resolution: real, data: seq<Num>, max: Num, i: nat): Option<(real, real)>
    requires i < |data|
  {
    var freq := (i as real) * resolution;
    if InBand(freq) && Sampled(i, freq) then
      var x := KeyX(view.lg, view.width, Fin(freq));
      var y := BinY(view, GraphStyle, data[i], max);
      if x.Fin? && y.Fin? then Some((x.v, y.v)) else None
    else None
  }

  function FftCandidates(view: View, resolution: real, data: seq<Num>, max: Num): (c: seq<Option<(real, real)>>)
    ensures |c| == |data|
  {
    seq(|data|, i requires 0 <= i < |data| => FftCandidate(view, resolution, data, max, i))
  }

  lemma CandidateAt(view: View, resolution: real, data: seq<Num>, max: Num, i: nat)
    requires i < |data|
    ensures var freq := (i as real) * resolution;
      var x := KeyX(view.lg, view.width, Fin(freq));
      var y := BinY(view, GraphStyle, data[i], max);
      FftCandidates(view, resolution, data, max)[i]
        == if InBand(freq) && Sampled(i, freq) && x.Fin? && y.Fin? then Some((x.v, y.v)) else None
  {
  }

  /** The points drawn for an FFT array with the given sample rate. */
  function FftPoints(view: View, sampleRate: Option<real>, data: seq<Num>): seq<real> {
    Flatten(FftCandidates(view, Resolution(sampleRate), data, MaxOf(data)))
  }

  /** drawFrequencyData. */
  method DrawFrequencyData(view: View, sampleRate: Option<real>, fftData: seq<Num>) returns (points: seq<real>)
    ensures points == FftPoints(view, sampleRate, fftData)
  {
    points := [];
    if |fftData| > 0 {
      var freqResolution := Resolution(sampleRate);
      var maxAmplitude := MaxOf(fftData);
      ghost var cands := FftCandidates(view, freqResolution, fftData, maxAmplitude);
      var i := 0;
      while i < |fftData|
        invariant 0 <= i <= |fftData|
        invariant points == Flatten(cands[..i])
      {
        var freq := (i as real) * freqResolution;
        FlattenSnoc(cands, i);
        CandidateAt(view, freqResolution, fftData, maxAmplitude, i);
        if freq >= C1 && freq <= C7 {
          var isAboveThreshold := freq > DownsampleThreshold;
          if !(isAboveThreshold && i % 4 != 0) {
            var x := KeyX(view.lg, view.width, Fin(freq));
            var y := BinY(view, GraphStyle, fftData[i], maxAmplitude);
            if x.Fin? && y.Fin? {
              points := points + [x.v, y.v];
            }
          }
        }
        i := i + 1;
      }
      assert cands[..|fftData|] == cands;
    }
  }

  /** Which bins are drawn and where: bin i gives a point exactly when its
      frequency `i * resolution` lies in C1 .. C7, it survives the thinning
      above 500 Hz, its amplitude is finite and the array's maximum is
      finite and non-zero; the point sits at the key-axis position of that
      frequency and at the exaggerated height. */
  lemma FftCandidateShape(view: View, resolution: real, data: seq<Num>, max: Num, i: nat)
    requires i < |data|
    ensures var freq := (i as real) * resolution;
      var c := FftCandidates(view, resolution, data, max)[i];
      && (c.Some? <==> InBand(freq) && Sampled(i, freq) && data[i].Fin? && max.Fin? && max.v != 0.0)
      && (c.Some? ==>
            var q := data[i].v / max.v;
            && c.value.0 == OctaveX(view.lg, view.width, freq)
            && c.value.1 == view.height - (q * q * max.v + 140.0) / 140.0 * view.height)
  {
    var freq := (i as real) * resolution;
    CandidateAt(view, resolution, data, max, i);
    FftY(view, data[i], max);
    var x := KeyX(view.lg, view.width, Fin(freq));
    assert InBand(freq) ==> x.Fin? && x.v == OctaveX(view.lg, view.width, freq);
  }

  /** The height of a bin in this view: the full height is used. */
  lemma FftY(view: View, a: Num, max: Num)
    ensures var y := BinY(view, GraphStyle, a, max);
      && (y.Fin? <==> a.Fin? && max.Fin? && max.v != 0.0)
      && (y.Fin? ==> var q := a.v / max.v;
            y.v == view.height - (q * q * max.v + 140.0) / 140.0 * view.height)
  {
    var y := BinY(view, GraphStyle, a, max);
    if y.Fin? {
      var q := a.v / max.v;
      var lifted := (q * q * max.v + 140.0) / 140.0;
      assert y.v == view.height - lifted * (view.height * 1.0);
      assert lifted * (view.height * 1.0) == lifted * view.height;
    }
  }

  /** Silence (every amplitude -Infinity, as the analyser reports it) and an
      empty array draw nothing; so does any NaN amplitude. */
  lemma NothingDrawn(view: View, sampleRate: Option<real>, data: seq<Num>)
    requires |data| == 0 || (forall k :: 0 <= k < |data| ==> data[k].NegInf?)
      || (exists k :: 0 <= k < |data| && data[k].NaN?)
    ensures FftPoints(view, sampleRate, data) == []
  {
    var max := MaxOf(data);
    var c := FftCandidates(view, Resolution(sampleRate), data, max);
    if |data| > 0 {
      if exists k :: 0 <= k < |data| && data[k].NaN? {
        var k :| 0 <= k < |data| && data[k].NaN?;
        MaxOfNaN(data, k);
      } else {
        assert !data[|data| - 1].Fin?;
      }
      forall t | 0 <= t < |c|
        ensures c[t].None?
      {
        FftCandidateShape(view, Resolution(sampleRate), data, max, t);
      }
    }
    FlattenNone(c);
  }

  /** With a positive resolution, higher drawn bins lie further right. */
  lemma FftCandidatesOrdered(view: View, res: real, data: seq<Num>, max: Num)
    requires view.width > 0.0 && res > 0.0
    ensures OrderedByBin(FftCandidates(view, res, data, max))
  {
    var c := FftCandidates(view, res, data, max);
    forall i | 0 <= i < |c|
      ensures AtKeyX(c, view, res, i)
    {
      CandidateX(view, res, data, max, i);
    }
    KeyXOrdered(c, view, res);
  }

  /** Candidate i, if drawn, sits at the key-axis position of `i * res`. */
  ghost predicate AtKeyX(c: seq<Option<(real, real)>>, view: View, res: real, i: int)
    requires 0 <= i < |c|
  {
    var freq := (i as real) * res;
    c[i].Some? ==> freq >= C1 && c[i].value.0 == OctaveX(view.lg, view.width, freq)
  }

  lemma KeyXOrdered(c: seq<Option<(real, real)>>, view: View, res: real)
    requires view.width > 0.0 && res > 0.0
    requires forall i :: 0 <= i < |c| ==> AtKeyX(c, view, res, i)
    ensures OrderedByBin(c)
  {
    forall i, j | 0 <= i < j < |c| && c[i].Some? && c[j].Some?
      ensures c[i].value.0 < c[j].value.0
    {
      assert AtKeyX(c, view, res, i) && AtKeyX(c, view, res, j);
      BinXOrdered(view, res, i, j, c[i].value.0, c[j].value.0);
    }
  }

  lemma BinXOrdered(view: View, res: real, i: nat, j: nat, x: real, y: real)
    requires view.width > 0.0 && res > 0.0 && i < j
    requires (i as real) * res >= C1 && x == OctaveX(view.lg, view.width, (i as real) * res)
    requires (j as real) * res >= C1 && y == OctaveX(view.lg, view.width, (j as real) * res)
    ensures x < y
  {
    BinFrequencyLt(i, j, res);
    OctaveXIncreasing(view.lg, view.width, (i as real) * res, (j as real) * res, x, y);
  }

  /** With a non-negative sample rate and a visible axis the points run
      left to right. */
  lemma FftPointsOrdered(view: View, sampleRate: Option<real>, data: seq<Num>)
    requires view.width > 0.0 && (sampleRate.None? || sampleRate.value >= 0.0)
    ensures StrictlyIncreasing(Xs(FftPoints(view, sampleRate, data)))
  {
    var res := Resolution(sampleRate);
    assert res > 0.0;
    FftCandidatesOrdered(view, res, data, MaxOf(data));
    FlattenSorted(FftCandidates(view, res, data, MaxOf(data)));
  }

  /** A drawn bin is in band and sits at the key-axis position of its frequency. */
  lemma CandidateX(view: View, resolution: real, data: seq<Num>, max: Num, i: nat)
    requires i < |data|
    ensures var freq := (i as real) * resolution;
      var c := FftCandidates(view, resolution, data, max)[i];
      c.Some? ==> freq >= C1 && c.value.0 == OctaveX(view.lg, view.width, freq)
  {
    CandidateAt(view, resolution, data, max, i);
  }

  lemma BinFrequencyLt(i: nat, j: nat, res: real)
    requires i < j && res > 0.0
    ensures (i as real) * res < (j as real) * res
  {
  }

  /** Above 500 Hz the drawn bins are at least four apart. */
  lemma ThinnedAbove500(view: View, resolution: real, data: seq<Num>, max: Num, i: nat, j: nat)
    requires i < j < |data|
    requires (i as real) * resolution > DownsampleThreshold && (j as real) * resolution > DownsampleThreshold
    requires FftCandidates(view, resolution, data, max)[i].Some?
    requires FftCandidates(view, resolution, data, max)[j].Some?
    ensures j - i >= 4 && (j - i) % 4 == 0
  {
    FftCandidateShape(view, resolution, data, max, i);
    FftCandidateShape(view, resolution, data, max, j);
  }
}
