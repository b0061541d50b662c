/** The experimental spectrum view: like the spectrogram view but on the
    server's 4500 Hz analysis (hop 128 samples), normalised by the raw peak
    of the column and drawn over the full height. */
module TestFft {
  import opened Numbers
  import opened Optional
  import opened KeyAxis
  import opened Spectral

  /** Frames per second of this analysis: `4500 / 128`. */
  const FrameRate: real := 4500.0 / 128.0

  /** Bins span 0 .. 2250 Hz; the curve uses the whole height above an
      80 dB headroom. */
  const GraphStyle: Style := Style(4500.0 / 2.0, 80.0, 1.0)

  /** At 2.0 s the view shows frame 70 (2 * 35.15625 = 70.3125). */
  lemma FrameAtTwoSeconds()
    ensures FrameIndex(2.0, FrameRate) == 70
  {
    assert 2.0 * FrameRate == 70.3125;
  }

  /** drawFrame: the peak is `Math.max` of the raw column; the points are
      built by the shared candidate construction and filtered pairwise. */
  method DrawFrame(view: View, frame: seq<Num>) returns (points: seq<real>)
    ensures points == Flatten(FrameCandidates(view, GraphStyle, frame, MaxOf(frame)))
  {
    var peak := MaxOf(frame);
    var pairs := FlatPairs(BinPairs(view, GraphStyle, frame, peak));
    points := FilterFinite(pairs);
    KeepFiniteFlat(BinPairs(view, GraphStyle, frame, peak));
  }

  /** A column of finite amplitudes with a non-zero peak draws one point per
      bin except bin 0 (frequency 0 has no place on the logarithmic axis);
      a single NaN amplitude makes the peak NaN and blanks the whole curve. */
  lemma DrawnFrame(view: View, frame: seq<Num>, k: nat)
    requires k < |frame|
    ensures var c := FrameCandidates(view, GraphStyle, frame, MaxOf(frame))[k];
      && (c.Some? <==> k > 0 && frame[k].Fin? && MaxOf(frame).Fin? && MaxOf(frame).v != 0.0)
      && (c.Some? ==> c.value.0 == OctaveX(view.lg, view.width, BinFrequency(k, |frame|, 2250.0)))
    ensures frame[k].NaN? ==> Flatten(FrameCandidates(view, GraphStyle, frame, MaxOf(frame))) == []
    ensures view.width > 0.0 ==>
      StrictlyIncreasing(Xs(Flatten(FrameCandidates(view, GraphStyle, frame, MaxOf(frame)))))
  {
    var c := FrameCandidates(view, GraphStyle, frame, MaxOf(frame));
    FrameCandidateShape(view, GraphStyle, frame, MaxOf(frame), k);
    if frame[k].NaN? {
      MaxOfNaN(frame, k);
      forall t | 0 <= t < |c|
        ensures c[t].None?
      {
        FrameCandidateShape(view, GraphStyle, frame, MaxOf(frame), t);
      }
      FlattenNone(c);
    }
    if view.width > 0.0 {
      FrameCandidatesOrdered(view, GraphStyle, frame, MaxOf(frame));
      FlattenSorted(c);
    }
  }

  class TestFftView {
    /** The decoded analysis: one row per bin, one column per frame. */
    var cqtData: seq<seq<Num>>
    var rectangles: seq<real>

    constructor ()
      ensures cqtData == [] && rectangles == []
    {
      cqtData := [];
      rectangles := [];
    }

    method SetData(matrix: seq<seq<Num>>)
      modifies this
      ensures cqtData == matrix && rectangles == old(rectangles)
    {
      cqtData := matrix;
    }

    /** One animation tick at playback time t. */
    method Update(view: View, t: real)
      modifies this
      ensures cqtData == old(cqtData)
      ensures var sel := SelectFrame(cqtData, t, FrameRate);
        rectangles == if sel.Some?
          then Flatten(FrameCandidates(view, GraphStyle, sel.value, MaxOf(sel.value)))
          else old(rectangles)
    {
      var sel := SelectFrame(cqtData, t, FrameRate);
      if sel.Some? {
        rectangles := DrawFrame(view, sel.value);
      }
    }
  }
}
