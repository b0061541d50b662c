/** The horizontal frequency axis shared by the three spectrum views: a
    logarithmic map from C1 (32.7 Hz) to C7 (2093 Hz) onto the width of the
    43 white piano keys, and the grid lines drawn over it. */
module KeyAxis {
  import opened Numbers

  const C1: real := 32.7
  const C7: real := 2093.0
  /** White keys of the six-octave piano (C1 to C7). */
  const KeyColumns: nat := 43

  /** The frequencies of the seven C's the thick lines mark. */
  const OctaveLabels: seq<real> := [32.703, 65.406, 130.813, 261.626, 523.251, 1046.502, 2093.005]

  /** `width - width / 43`: the axis leaves one key column of room. */
  function AxisSpan(width: real): real {
    width - width / (KeyColumns as real)
  }

  /** log2(C7 / C1) is positive, so the map below never divides by 0. */
  lemma OctaveSpanPositive(lg: Log2Fn)
    ensures lg(C7 / C1) > 0.0
  {
    Log2Increasing(lg, 1.0, C7 / C1);
  }

  /** `log2(f / C1) / log2(C7 / C1) * (width - width / 43)` for a positive
      frequency f. */
  function FrequencyX(lg: Log2Fn, width: real, f: real): real
    requires f > 0.0
  {
    OctaveSpanPositive(lg);
    lg(f / C1) / lg(C7 / C1) * AxisSpan(width)
  }

  /** mapFrequencyToX on a JavaScript number: finite exactly for a finite
      positive frequency, where it is FrequencyX; frequency 0 goes to
      log2(0) = -Infinity and never gives a finite x. */
  function MapFrequencyToX(lg: Log2Fn, width: real, f: Num): (x: Num)
    ensures x.Fin? <==> f.Fin? && f.v > 0.0
    ensures x.Fin? ==> x.v == FrequencyX(lg, width, f.v)
  {
    OctaveSpanPositive(lg);
    Mul(Div(Log2(lg, Div(f, Fin(C1))), Fin(lg(C7 / C1))), Fin(AxisSpan(width)))
  }

  /** `mapFrequencyToX(f) + width / 86`: the x of frequency f in the middle
      of its key column, as the spectrum views draw it. */
  function KeyX(lg: Log2Fn, width: real, f: Num): (x: Num)
    ensures x.Fin? <==> f.Fin? && f.v > 0.0
    ensures x.Fin? ==> x.v == OctaveX(lg, width, f.v)
  {
    Add(MapFrequencyToX(lg, width, f), Fin(width / (2 * KeyColumns) as real))
  }

  /** C1 is mapped to the left edge and C7 to `width - width / 43`. */
  lemma FrequencyXEnds(lg: Log2Fn, width: real)
    ensures FrequencyX(lg, width, C1) == 0.0
    ensures FrequencyX(lg, width, C7) == AxisSpan(width)
  {
    OctaveSpanPositive(lg);
    assert C1 / C1 == 1.0;
  }

  /** On a visible axis, a higher frequency is drawn further right. */
  lemma FrequencyXIncreasing(lg: Log2Fn, width: real, f: real, g: real)
    requires 0.0 < f < g && width > 0.0
    ensures FrequencyX(lg, width, f) < FrequencyX(lg, width, g)
  {
    OctaveSpanPositive(lg);
    var d := lg(C7 / C1);
    var a, b := lg(f / C1), lg(g / C1);
    Log2Increasing(lg, f / C1, g / C1);
    assert a / d < b / d;
    var s := AxisSpan(width);
    assert s > 0.0;
    assert a / d * s < b / d * s;
  }

  datatype LineStyle = Solid | Dashed | Octave

  /** A vertical grid line: its x and how it is stroked. */
  datatype AxisLine = AxisLine(x: real, style: LineStyle)

  /** Solid line i: `i / 43 * width + width / 86`, the middle of white key i. */
  function SolidX(width: real, i: nat): real {
    (i as real) / (KeyColumns as real) * width + width / (2 * KeyColumns) as real
  }

  /** Dashed line i: `i / 43 * width + width / 43`, the boundary after key i. */
  function DashedX(width: real, i: nat): real {
    (i as real) / (KeyColumns as real) * width + width / (KeyColumns as real)
  }

  /** Octave line for frequency f: its axis position shifted by half a key. */
  function OctaveX(lg: Log2Fn, width: real, f: real): real
    requires f > 0.0
  {
    FrequencyX(lg, width, f) + width / (2 * KeyColumns) as real
  }

  /** Key-axis positions grow with the frequency. */
  lemma OctaveXIncreasing(lg: Log2Fn, width: real, f: real, g: real, x: real, y: real)
    requires C1 <= f < g && width > 0.0
    requires x == OctaveX(lg, width, f) && y == OctaveX(lg, width, g)
    ensures x < y
  {
    FrequencyXIncreasing(lg, width, f, g);
  }

  /** renderLabels: 43 solid lines, then 43 dashed lines, then one thick
      line per octave label, in that order. */
  method RenderLabels(lg: Log2Fn, width: real) returns (lines: seq<AxisLine>)
    ensures |lines| == 2 * KeyColumns + |OctaveLabels|
    ensures forall i :: 0 <= i < KeyColumns ==> lines[i] == AxisLine(SolidX(width, i), Solid)
    ensures forall i :: KeyColumns <= i < 2 * KeyColumns ==>
      lines[i] == AxisLine(DashedX(width, i - KeyColumns), Dashed)
    ensures forall i :: 2 * KeyColumns <= i < |lines| ==>
      lines[i] == AxisLine(OctaveX(lg, width, OctaveLabels[i - 2 * KeyColumns]), Octave)
  {
    lines := [];
    var i := 0;
    while i < KeyColumns
      invariant 0 <= i <= KeyColumns && |lines| == i
      invariant forall k :: 0 <= k < i ==> lines[k] == AxisLine(SolidX(width, k), Solid)
    {
      lines := lines + [AxisLine(SolidX(width, i), Solid)];
      i := i + 1;
    }
    i := 0;
    while i < KeyColumns
      invariant 0 <= i <= KeyColumns && |lines| == KeyColumns + i
      invariant forall k :: 0 <= k < KeyColumns ==> lines[k] == AxisLine(SolidX(width, k), Solid)
      invariant forall k :: KeyColumns <= k < KeyColumns + i ==>
        lines[k] == AxisLine(DashedX(width, k - KeyColumns), Dashed)
    {
      lines := lines + [AxisLine(DashedX(width, i), Dashed)];
      i := i + 1;
    }
    i := 0;
    while i < |OctaveLabels|
      invariant 0 <= i <= |OctaveLabels| && |lines| == 2 * KeyColumns + i
      invariant forall k :: 0 <= k < KeyColumns ==> lines[k] == AxisLine(SolidX(width, k), Solid)
      invariant forall k :: KeyColumns <= k < 2 * KeyColumns ==>
        lines[k] == AxisLine(DashedX(width, k - KeyColumns), Dashed)
      invariant forall k :: 2 * KeyColumns <= k < 2 * KeyColumns + i ==>
        lines[k] == AxisLine(OctaveX(lg, width, OctaveLabels[k - 2 * KeyColumns]), Octave)
    {
      lines := lines + [AxisLine(OctaveX(lg, width, OctaveLabels[i]), Octave)];
      i := i + 1;
    }
  }

  /** On a visible axis the solid lines run left to right inside (0, width),
      and each dashed line sits halfway between two neighbouring solid lines
      (the key boundary between two key centres). */
  lemma GridLinesLayout(width: real, i: nat, j: nat)
    requires width > 0.0 && i < j < KeyColumns
    ensures 0.0 < SolidX(width, i) < SolidX(width, j) < width
    ensures DashedX(width, i) == (SolidX(width, i) + SolidX(width, i + 1)) / 2.0
  {
    var n := KeyColumns as real;
    assert (i as real) / n * width < (j as real) / n * width by {
      assert (i as real) / n < (j as real) / n;
    }
    assert (j as real) / n * width <= 42.0 / n * width by {
      assert (j as real) / n <= 42.0 / n;
    }
  }

  /** The octave lines run left to right: the labels are increasing. */
  lemma OctaveLinesIncreasing(lg: Log2Fn, width: real, i: nat, j: nat)
    requires width > 0.0 && i < j < |OctaveLabels|
    ensures OctaveX(lg, width, OctaveLabels[i]) < OctaveX(lg, width, OctaveLabels[j])
  {
    assert OctaveLabels[i] < OctaveLabels[j];
    FrequencyXIncreasing(lg, width, OctaveLabels[i], OctaveLabels[j]);
  }
}
