/** What the spectrum views share: picking the column of the spectrogram that
    belongs to the playback time, turning one column of amplitudes into
    (x, y) points over the key axis, and keeping only the finite points. */
module Spectral {
  import opened Numbers
  import opened Optional
  import opened KeyAxis

  // ---------------------------------------------------------------------
  // Frame selection

  /** `row[j]`: a missing cell reads as `undefined`, which every later
      arithmetic step and `isFinite` treat like NaN. */
  function Cell(row: seq<Num>, j: int): (c: Num)
    ensures 0 <= j < |row| ==> c == row[j]
    ensures !(0 <= j < |row|) ==> c.NaN?
  {
    if 0 <= j < |row| then row[j] else NaN
  }

  /** `Math.floor(currentTime * framesPerSecond)`. */
  function FrameIndex(t: real, framesPerSecond: real): int {
    (t * framesPerSecond).Floor
  }

  /** The frame on screen at time t is the one whose hop window contains t,
      and later times never show earlier frames. */
  lemma FrameIndexWindow(t: real, u: real, framesPerSecond: real)
    requires framesPerSecond > 0.0
    ensures var i := FrameIndex(t, framesPerSecond);
      (i as real) <= t * framesPerSecond < (i + 1) as real
    ensures t <= u ==> FrameIndex(t, framesPerSecond) <= FrameIndex(u, framesPerSecond)
  {
    if t <= u {
      assert t * framesPerSecond <= u * framesPerSecond;
    }
  }

  /** The per-tick frame selection: with a non-empty matrix (one row per
      bin) and a frame index below the length of the first row, the frame is
      `matrix.map(row => row[frameIndex])`; otherwise nothing is drawn. */
  function SelectFrame(matrix: seq<seq<Num>>, t: real, framesPerSecond: real): (r: Option<seq<Num>>)
    ensures r.Some? <==> |matrix| > 0 && FrameIndex(t, framesPerSecond) < |matrix[0]|
    ensures r.Some? ==> (|r.value| == |matrix|
      && forall k :: 0 <= k < |matrix| ==> r.value[k] == Cell(matrix[k], FrameIndex(t, framesPerSecond)))
  {
    var i := FrameIndex(t, framesPerSecond);
    if |matrix| > 0 && i < |matrix[0]| then
      Some(seq(|matrix|, k requires 0 <= k < |matrix| => Cell(matrix[k], i)))
    else None
  }

  /** Rows as long as the first one give a frame of real cells (none is
      missing) for every time up to the end of the first row. */
  lemma SelectFrameFull(matrix: seq<seq<Num>>, t: real, framesPerSecond: real)
    requires |matrix| > 0 && t >= 0.0 && framesPerSecond > 0.0
    requires forall k :: 0 <= k < |matrix| ==> |matrix[k]| == |matrix[0]|
    requires FrameIndex(t, framesPerSecond) < |matrix[0]|
    ensures var r := SelectFrame(matrix, t, framesPerSecond);
      r.Some? && forall k :: 0 <= k < |matrix| ==> r.value[k] == matrix[k][FrameIndex(t, framesPerSecond)]
  {
    assert t * framesPerSecond >= 0.0;
  }

  // ---------------------------------------------------------------------
  // Flat point lists

  /** A flat `[x0, y0, x1, y1, ...]` list, built from one optional point per
      bin, in bin order. */
  function Flatten(c: seq<Option<(real, real)>>): (p: seq<real>)
    ensures |p| % 2 == 0
  {
    if |c| == 0 then []
    else (if c[0].Some? then [c[0].value.0, c[0].value.1] else []) + Flatten(c[1..])
  }

  lemma {:induction false} FlattenAppend(a: seq<Option<(real, real)>>, b: seq<Option<(real, real)>>)
    ensures Flatten(a + b) == Flatten(a) + Flatten(b)
  {
    if |a| > 0 {
      assert (a + b)[1..] == a[1..] + b;
      FlattenAppend(a[1..], b);
    } else {
      assert a + b == b;
    }
  }

  /** Flattening one more optional point appends its coordinates. */
  lemma FlattenSnoc(c: seq<Option<(real, real)>>, i: nat)
    requires i < |c|
    ensures Flatten(c[..i + 1]) == Flatten(c[..i]) + (if c[i].Some? then [c[i].value.0, c[i].value.1] else [])
  {
    FlattenAppend(c[..i], [c[i]]);
    assert c[..i + 1] == c[..i] + [c[i]];
    assert [c[i]][1..] == [];
  }

  lemma {:induction false} FlattenNone(c: seq<Option<(real, real)>>)
    requires forall k :: 0 <= k < |c| ==> c[k].None?
    ensures Flatten(c) == []
  {
    if |c| > 0 {
      FlattenNone(c[1..]);
    }
  }

  /** The x coordinates of a flat point list. */
  function Xs(p: seq<real>): seq<real> {
    if |p| < 2 then [] else [p[0]] + Xs(p[2..])
  }

  predicate StrictlyIncreasing(s: seq<real>) {
    forall i, j :: 0 <= i < j < |s| ==> s[i] < s[j]
  }

  /** The points present are ordered by x in bin order. */
  predicate OrderedByBin(c: seq<Option<(real, real)>>) {
    forall i, j :: 0 <= i < j < |c| && c[i].Some? && c[j].Some? ==> c[i].value.0 < c[j].value.0
  }

  /** The x list of one point followed by a flat list. */
  lemma XsCons(p: (real, real), rest: seq<real>)
    ensures Xs([p.0, p.1] + rest) == [p.0] + Xs(rest)
  {
    var f := [p.0, p.1] + rest;
    assert f[2..] == rest;
  }

  /** A bound below every present point's x bounds the flat list's xs. */
  lemma {:induction false} XsAbove(c: seq<Option<(real, real)>>, b: real)
    requires forall i :: 0 <= i < |c| && c[i].Some? ==> b < c[i].value.0
    ensures forall k :: 0 <= k < |Xs(Flatten(c))| ==> b < Xs(Flatten(c))[k]
  {
    if |c| > 0 {
      var rest := c[1..];
      assert forall i :: 0 <= i < |rest| && rest[i].Some? ==> b < rest[i].value.0 by {
        forall i | 0 <= i < |rest| && rest[i].Some?
          ensures b < rest[i].value.0
        {
          assert rest[i] == c[i + 1];
        }
      }
      XsAbove(rest, b);
      if c[0].Some? {
        XsCons(c[0].value, Flatten(rest));
      } else {
        assert Flatten(c) == Flatten(rest);
      }
    }
  }

  lemma ConsIncreasing(x: real, tail: seq<real>)
    requires StrictlyIncreasing(tail)
    requires forall k :: 0 <= k < |tail| ==> x < tail[k]
    ensures StrictlyIncreasing([x] + tail)
  {
    var s := [x] + tail;
    forall i, j | 0 <= i < j < |s|
      ensures s[i] < s[j]
    {
      assert s[j] == tail[j - 1];
      if i > 0 {
        assert s[i] == tail[i - 1];
      }
    }
  }

  /** If the bins' points are ordered by x, the flat list's x coordinates
      strictly increase. */
  lemma {:induction false} FlattenSorted(c: seq<Option<(real, real)>>)
    requires OrderedByBin(c)
    ensures StrictlyIncreasing(Xs(Flatten(c)))
  {
    if |c| > 0 {
      var rest := c[1..];
      assert OrderedByBin(rest) by {
        forall i, j | 0 <= i < j < |rest| && rest[i].Some? && rest[j].Some?
          ensures rest[i].value.0 < rest[j].value.0
        {
          assert rest[i] == c[i + 1] && rest[j] == c[j + 1];
        }
      }
      FlattenSorted(rest);
      if c[0].Some? {
        var p := c[0].value;
        assert forall i :: 0 <= i < |rest| && rest[i].Some? ==> p.0 < rest[i].value.0 by {
          forall i | 0 <= i < |rest| && rest[i].Some?
            ensures p.0 < rest[i].value.0
          {
            assert rest[i] == c[i + 1];
          }
        }
        XsAbove(rest, p.0);
        XsCons(p, Flatten(rest));
        ConsIncreasing(p.0, Xs(Flatten(rest)));
      } else {
        assert Flatten(c) == Flatten(rest);
      }
    }
  }

  /** The pair `points[i], points[i + 1]` as reals, if both are finite. */
  function PairAt(points: seq<Num>, i: nat): seq<real>
    requires i + 1 < |points|
  {
    if points[i].Fin? && points[i + 1].Fin? then [points[i].v, points[i + 1].v] else []
  }

  /** The stride-2 filter from index i on: the pairs `points[j], points[j + 1]`
      (j = i, i + 2, ...) whose two numbers are both finite, in order; a lone
      trailing x has an undefined y and is dropped. */
  function KeepFiniteFrom(points: seq<Num>, i: nat): seq<real>
    decreases |points| - i
  {
    if i + 1 < |points| then PairAt(points, i) + KeepFiniteFrom(points, i + 2) else []
  }

  function KeepFinite(points: seq<Num>): seq<real> {
    KeepFiniteFrom(points, 0)
  }

  /** One step of the filter: the pair at i (or nothing, past the last full
      pair) followed by the filter from i + 2. */
  lemma KeepFiniteFromStep(points: seq<Num>, i: nat)
    ensures KeepFiniteFrom(points, i) ==
      (if i + 1 < |points| then PairAt(points, i) else []) + KeepFiniteFrom(points, i + 2)
  {
    if i + 1 >= |points| {
      assert KeepFiniteFrom(points, i + 2) == [];
    }
  }

  /** The `validPoints` loop. */
  method FilterFinite(points: seq<Num>) returns (valid: seq<real>)
    ensures valid == KeepFinite(points)
  {
    valid := [];
    var i := 0;
    while i < |points|
      invariant valid + KeepFiniteFrom(points, i) == KeepFinite(points)
      decreases |points| - i
    {
      ghost var before := valid;
      ghost var pair := if i + 1 < |points| then PairAt(points, i) else [];
      ghost var rest := KeepFiniteFrom(points, i + 2);
      KeepFiniteFromStep(points, i);
      var x := points[i];
      var y := if i + 1 < |points| then points[i + 1] else NaN;
      if x.Fin? && y.Fin? {
        valid := valid + [x.v, y.v];
      }
      assert valid == before + pair;
      assert before + (pair + rest) == (before + pair) + rest;
      i := i + 2;
    }
    assert KeepFiniteFrom(points, i) == [];
  }

  /** Filtering is unaffected by what precedes the starting index. */
  lemma {:induction false} KeepFiniteShift(h: seq<Num>, t: seq<Num>, j: nat)
    ensures KeepFiniteFrom(h + t, |h| + j) == KeepFiniteFrom(t, j)
    decreases |t| - j
  {
    var ht := h + t;
    if j + 1 < |t| {
      KeepFiniteShift(h, t, j + 2);
      assert ht[|h| + j] == t[j] && ht[|h| + j + 1] == t[j + 1];
      assert PairAt(ht, |h| + j) == PairAt(t, j);
      assert KeepFiniteFrom(ht, |h| + j) == PairAt(ht, |h| + j) + KeepFiniteFrom(ht, |h| + j + 2);
      assert KeepFiniteFrom(t, j) == PairAt(t, j) + KeepFiniteFrom(t, j + 2);
    } else {
      assert KeepFiniteFrom(ht, |h| + j) == [];
      assert KeepFiniteFrom(t, j) == [];
    }
  }

  // ---------------------------------------------------------------------
  // Point generation

  /** The drawing surface: the log2 in use and the measured size. */
  datatype View = View(lg: Log2Fn, width: real, height: real)

  /** What distinguishes the views: the frequency of the last bin's upper
      edge (half the analysis sample rate), the decibel headroom added before
      scaling, and the share of the height the curve may use. */
  datatype Style = Style(nyquist: real, headroom: real, heightFactor: real)

  /** `bin * nyquist / binCount`. */
  function BinFrequency(bin: nat, binCount: nat, nyquist: real): real
    requires binCount > 0
  {
    (bin as real) * nyquist / (binCount as real)
  }

  /** `height - ((a / max) ** 2 * max + headroom) / headroom * scale`: the
      amplitude is squared relative to the frame's maximum and lifted by the
      headroom. */
  function YCoordinate(a: Num, max: Num, height: real, headroom: real, scale: real): (y: Num)
    requires headroom > 0.0
    ensures y.Fin? <==> a.Fin? && max.Fin? && max.v != 0.0
    ensures y.Fin? ==>
      var q := a.v / max.v;
      y.v == height - (q * q * max.v + headroom) / headroom * scale
  {
    var exaggerated := Mul(Pow2(Div(a, max)), max);
    Sub(Fin(height), Mul(Div(Add(exaggerated, Fin(headroom)), Fin(headroom)), Fin(scale)))
  }

  /** The x and y a bin is drawn at. */
  function BinX(view: View, style: Style, bin: nat, binCount: nat): Num
    requires binCount > 0
  {
    KeyX(view.lg, view.width, Fin(BinFrequency(bin, binCount, style.nyquist)))
  }

  function BinY(view: View, style: Style, a: Num, max: Num): Num
    requires style.headroom > 0.0
  {
    YCoordinate(a, max, view.height, style.headroom, view.height * style.heightFactor)
  }

  /** The `flatMap` callback for bin k: nothing when the amplitude is not
      finite, otherwise the bin's x and y (each of which may still be
      infinite or NaN).  The bin frequency itself is always finite. */
  function BinPair(view: View, style: Style, frame: seq<Num>, max: Num, k: nat): Option<(Num, Num)>
    requires style.headroom > 0.0 && k < |frame|
  {
    if frame[k].Fin? then Some((BinX(view, style, k, |frame|), BinY(view, style, frame[k], max))) else None
  }

  function BinPairs(view: View, style: Style, frame: seq<Num>, max: Num): (ps: seq<Option<(Num, Num)>>)
    requires style.headroom > 0.0
    ensures |ps| == |frame|
    ensures forall k :: 0 <= k < |frame| ==> ps[k] == BinPair(view, style, frame, max, k)
  {
    seq(|frame|, k requires 0 <= k < |frame| => BinPair(view, style, frame, max, k))
  }

  /** What `flatMap` returns: the pairs laid end to end. */
  function FlatPairs(ps: seq<Option<(Num, Num)>>): seq<Num> {
    if |ps| == 0 then []
    else (if ps[0].Some? then [ps[0].value.0, ps[0].value.1] else []) + FlatPairs(ps[1..])
  }

  /** The pairs whose two numbers are finite, as real points. */
  function FiniteOnly(ps: seq<Option<(Num, Num)>>): (c: seq<Option<(real, real)>>)
    ensures |c| == |ps|
    ensures forall k :: 0 <= k < |ps| ==>
      c[k] == if ps[k].Some? && ps[k].value.0.Fin? && ps[k].value.1.Fin?
              then Some((ps[k].value.0.v, ps[k].value.1.v)) else None
  {
    seq(|ps|, k requires 0 <= k < |ps| =>
      if ps[k].Some? && ps[k].value.0.Fin? && ps[k].value.1.Fin?
      then Some((ps[k].value.0.v, ps[k].value.1.v)) else None)
  }

  /** Filtering the flattened pairs two by two keeps exactly the finite
      pairs, in order: the pairs stay aligned because every bin contributes
      zero or two numbers. */
  lemma {:induction false} KeepFiniteFlat(ps: seq<Option<(Num, Num)>>)
    ensures KeepFinite(FlatPairs(ps)) == Flatten(FiniteOnly(ps))
  {
    if |ps| > 0 {
      KeepFiniteFlat(ps[1..]);
      assert FiniteOnly(ps)[1..] == FiniteOnly(ps[1..]);
      var rest := FlatPairs(ps[1..]);
      var c := FiniteOnly(ps);
      assert Flatten(c) == (if c[0].Some? then [c[0].value.0, c[0].value.1] else []) + Flatten(c[1..]);
      if ps[0].Some? {
        var h := [ps[0].value.0, ps[0].value.1];
        assert FlatPairs(ps) == h + rest;
        KeepFiniteShift(h, rest, 0);
        assert KeepFinite(h + rest) == PairAt(h + rest, 0) + KeepFiniteFrom(h + rest, 2);
      } else {
        assert FlatPairs(ps) == rest;
      }
    }
  }

  /** The points one frame is drawn with, one optional point per bin. */
  function FrameCandidates(view: View, style: Style, frame: seq<Num>, max: Num): seq<Option<(real, real)>>
    requires style.headroom > 0.0
  {
    FiniteOnly(BinPairs(view, style, frame, max))
  }

  /** Which bins are drawn and where: bin k gives a point exactly when k > 0
      (bin 0 is at frequency 0, i.e. x = -Infinity), its amplitude is finite
      and the frame maximum is finite and non-zero; the point lies at the
      key-axis position of the bin's frequency and at the exaggerated height. */
  lemma FrameCandidateShape(view: View, style: Style, frame: seq<Num>, max: Num, k: nat)
    requires style.headroom > 0.0 && style.nyquist > 0.0 && k < |frame|
    ensures var c := FrameCandidates(view, style, frame, max)[k];
      && (c.Some? <==> k > 0 && frame[k].Fin? && max.Fin? && max.v != 0.0)
      && (c.Some? ==>
            var q := frame[k].v / max.v;
            && c.value.0 == OctaveX(view.lg, view.width, BinFrequency(k, |frame|, style.nyquist))
            && c.value.1 == view.height - (q * q * max.v + style.headroom) / style.headroom
                                          * (view.height * style.heightFactor))
  {
    var f := BinFrequency(k, |frame|, style.nyquist);
    assert k > 0 <==> f > 0.0 by {
      if k > 0 {
        assert (k as real) * style.nyquist > 0.0;
      }
    }
    CandidateAt(view, style, frame, max, k);
  }

  /** Bin k's candidate in terms of its x and y. */
  lemma CandidateAt(view: View, style: Style, frame: seq<Num>, max: Num, k: nat)
    requires style.headroom > 0.0 && k < |frame|
    ensures var x := BinX(view, style, k, |frame|);
      var y := BinY(view, style, frame[k], max);
      FrameCandidates(view, style, frame, max)[k]
        == if frame[k].Fin? && x.Fin? && y.Fin? then Some((x.v, y.v)) else None
  {
    assert BinPairs(view, style, frame, max)[k] == BinPair(view, style, frame, max, k);
  }

  lemma BinFrequencyIncreasing(i: nat, j: nat, binCount: nat, nyquist: real)
    requires 0 < i < j && binCount > 0 && nyquist > 0.0
    ensures 0.0 < BinFrequency(i, binCount, nyquist) < BinFrequency(j, binCount, nyquist)
  {
    var n := binCount as real;
    var a, b := (i as real) * nyquist, (j as real) * nyquist;
    assert 0.0 < a < b by {
      assert (j as real) * nyquist - (i as real) * nyquist == ((j - i) as real) * nyquist;
    }
    assert a / n < b / n;
  }

  /** Higher bins lie further right on a visible axis. */
  lemma FrameCandidatesOrdered(view: View, style: Style, frame: seq<Num>, max: Num)
    requires style.headroom > 0.0 && style.nyquist > 0.0 && view.width > 0.0
    ensures OrderedByBin(FrameCandidates(view, style, frame, max))
  {
    var c := FrameCandidates(view, style, frame, max);
    forall i, j | 0 <= i < j < |c| && c[i].Some? && c[j].Some?
      ensures c[i].value.0 < c[j].value.0
    {
      FrameCandidateShape(view, style, frame, max, i);
      FrameCandidateShape(view, style, frame, max, j);
      BinFrequencyIncreasing(i, j, |frame|, style.nyquist);
      FrequencyXIncreasing(view.lg, view.width, BinFrequency(i, |frame|, style.nyquist), BinFrequency(j, |frame|, style.nyquist));
    }
  }
}
