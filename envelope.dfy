/** The waveform envelope: channel-0 samples cut into a fixed number of chunks
    of `ceil(length / count)` samples, each summarised by the JavaScript
    `Math.min(...chunk)` / `Math.max(...chunk)` of its samples.  Used with 300
    chunks for the whole track and with 500 chunks for the first five seconds. */
module Envelope {
  import opened Numbers

  /** One display column: an empty chunk gives min = +Infinity, max = -Infinity. */
  datatype MinMax = MinMax(min: Num, max: Num)

  /** `Math.ceil(length / count)`. */
  function ChunkSize(length: nat, count: nat): (size: nat)
    requires count > 0
    ensures size * count >= length
    ensures length > 0 ==> size > 0 && (size - 1) * count < length
  {
    CeilDiv(length, count);
    (length + count - 1) / count
  }

  lemma CeilDiv(length: nat, count: nat)
    requires count > 0
    ensures ((length + count - 1) / count) * count >= length
    ensures length > 0 ==> (length + count - 1) / count > 0
    ensures length > 0 ==> ((length + count - 1) / count - 1) * count < length
  {
    var q, r := (length + count - 1) / count, (length + count - 1) % count;
    assert q * count + r == length + count - 1;
    assert (q - 1) * count == q * count - count;
  }

  function Min(a: int, b: int): int { if a <= b then a else b }

  /** First sample of chunk i: `slice` clamps its bounds to the length. */
  function ChunkStart(length: nat, size: nat, i: nat): nat { Min(i * size, length) }

  /** One past the last sample of chunk i. */
  function ChunkEnd(length: nat, size: nat, i: nat): nat { Min((i + 1) * size, length) }

  /** `samples.slice(i * size, (i + 1) * size)`. */
  function Chunk(samples: seq<real>, size: nat, i: nat): (c: seq<real>)
    ensures |c| == ChunkEnd(|samples|, size, i) - ChunkStart(|samples|, size, i)
  {
    assert ChunkStart(|samples|, size, i) <= ChunkEnd(|samples|, size, i) by {
      assert i * size <= (i + 1) * size;
    }
    samples[ChunkStart(|samples|, size, i)..ChunkEnd(|samples|, size, i)]
  }

  /** `{ min: Math.min(...chunk), max: Math.max(...chunk) }`. */
  function Summary(chunk: seq<real>): MinMax {
    MinMax(MinOf(Lift(chunk)), MaxOf(Lift(chunk)))
  }

  /** The envelope the chunk loop builds. */
  function EnvelopeOf(samples: seq<real>, count: nat): (env: seq<MinMax>)
    requires count > 0
    ensures |env| == count
  {
    var size := ChunkSize(|samples|, count);
    seq(count, i requires 0 <= i < count => Summary(Chunk(samples, size, i)))
  }

  /** The chunk loop of constructWaveform (and of the five-second variant):
      one summary per chunk, in chunk order. */
  method Reduce(samples: array<real>, count: nat) returns (env: seq<MinMax>)
    requires count > 0
    ensures env == EnvelopeOf(samples[..], count)
  {
    var size := (samples.Length + count - 1) / count;
    assert size == ChunkSize(samples.Length, count);
    env := [];
    var i := 0;
    while i < count
      invariant 0 <= i <= count
      invariant |env| == i
      invariant forall k :: 0 <= k < i ==> env[k] == Summary(Chunk(samples[..], size, k))
    {
      var lo := Min(i * size, samples.Length);
      var hi := Min((i + 1) * size, samples.Length);
      assert i * size <= (i + 1) * size;
      var chunk := samples[lo..hi];
      assert chunk == Chunk(samples[..], size, i);
      env := env + [MinMax(MinOf(Lift(chunk)), MaxOf(Lift(chunk)))];
      i := i + 1;
    }
  }

  /** Which chunk a sample falls in. */
  lemma ChunkIndex(j: nat, size: nat, i: nat)
    requires size > 0
    ensures i * size <= j < (i + 1) * size <==> i == j / size
  {
    var q := j / size;
    assert q * size <= j < (q + 1) * size;
    if i < q {
      assert (i + 1) * size <= q * size by { MulMonotone(i + 1, q, size); }
    } else if i > q {
      assert (q + 1) * size <= i * size by { MulMonotone(q + 1, i, size); }
    }
  }

  lemma MulMonotone(a: nat, b: nat, c: nat)
    requires a <= b
    ensures a * c <= b * c
  {
  }

  /** The chunks tile the samples: chunk 0 starts at sample 0, each chunk ends
      where the next begins, the last one ends at the last sample, and sample j
      lies in chunk i exactly when i = j / size.  So the chunks are disjoint
      and together cover every sample. */
  lemma {:induction false} ChunksPartition(length: nat, count: nat, j: nat, i: nat)
    requires count > 0
    ensures var size := ChunkSize(length, count);
      && ChunkStart(length, size, 0) == 0
      && ChunkEnd(length, size, count - 1) == length
      && (i + 1 < count ==> ChunkEnd(length, size, i) == ChunkStart(length, size, i + 1))
      && (j < length && i < count ==>
            (ChunkStart(length, size, i) <= j < ChunkEnd(length, size, i) <==> i == j / size))
      && (j < length ==> j / size < count)
  {
    var size := ChunkSize(length, count);
    assert (count - 1 + 1) * size == size * count;
    if j < length {
      ChunkIndex(j, size, i);
      ChunkIndex(j, size, j / size);
      if j / size >= count {
        assert count * size <= (j / size) * size by { MulMonotone(count, j / size, size); }
      }
    }
  }

  /** A chunk is empty exactly when it starts at or after the last sample. */
  lemma ChunkEmpty(samples: seq<real>, size: nat, i: nat)
    requires size > 0 || |samples| == 0
    ensures |Chunk(samples, size, i)| == 0 <==> i * size >= |samples|
  {
    assert i * size <= (i + 1) * size;
  }

  /** A non-empty chunk is summarised by its true extremes, so min <= max;
      an empty chunk gives min = +Infinity and max = -Infinity. */
  lemma SummaryExtremes(chunk: seq<real>)
    ensures |chunk| == 0 ==> Summary(chunk) == MinMax(PosInf, NegInf)
    ensures |chunk| > 0 ==>
      var m := Summary(chunk);
      && m.min.Fin? && m.max.Fin? && m.min.v <= m.max.v
      && (exists k :: 0 <= k < |chunk| && chunk[k] == m.min.v)
      && (exists k :: 0 <= k < |chunk| && chunk[k] == m.max.v)
      && (forall k :: 0 <= k < |chunk| ==> m.min.v <= chunk[k] <= m.max.v)
  {
    if |chunk| > 0 {
      MinOfFinite(chunk);
      MaxOfFinite(chunk);
      assert MinOf(Lift(chunk)).v <= chunk[0] <= MaxOf(Lift(chunk)).v;
    }
  }

  /** Entry i of an envelope summarises exactly the samples of chunk i. */
  lemma EnvelopeEntry(samples: seq<real>, count: nat, i: nat)
    requires count > 0 && i < count
    ensures var size := ChunkSize(|samples|, count);
      var e := EnvelopeOf(samples, count)[i];
      && (i * size >= |samples| <==> e == MinMax(PosInf, NegInf))
      && (i * size < |samples| ==>
            e.min.Fin? && e.max.Fin? && e.min.v <= e.max.v
            && forall j :: ChunkStart(|samples|, size, i) <= j < ChunkEnd(|samples|, size, i) ==>
                 e.min.v <= samples[j] <= e.max.v)
  {
    var size := ChunkSize(|samples|, count);
    var c := Chunk(samples, size, i);
    ChunkEmpty(samples, size, i);
    SummaryExtremes(c);
    if i * size < |samples| {
      forall j | ChunkStart(|samples|, size, i) <= j < ChunkEnd(|samples|, size, i)
        ensures EnvelopeOf(samples, count)[i].min.v <= samples[j] <= EnvelopeOf(samples, count)[i].max.v
      {
        assert samples[j] == c[j - ChunkStart(|samples|, size, i)];
      }
    }
  }
}
