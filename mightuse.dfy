/** The unused five-second loader: decode a file, keep the first five
    seconds of channel 0 and reduce them to a 500-column envelope. */
module FirstSeconds {
  import opened Numbers
  import opened Optional
  import opened Store
  import opened Envelope

  const PreviewSeconds: real := 5.0
  const PreviewChunks: nat := 500

  /** How many samples `channelData.slice(0, sampleRate * 5)` keeps: the
      whole seconds' worth of samples, or the whole channel when it is
      shorter. */
  function PrefixLength(length: nat, sampleRate: real): (n: nat)
    requires sampleRate >= 0.0
    ensures n <= length
    ensures n == length <==> (length as real) <= sampleRate * PreviewSeconds
    ensures n < length ==> (n as real) <= sampleRate * PreviewSeconds < (n + 1) as real
  {
    var limit := (sampleRate * PreviewSeconds).Floor;
    if limit < length then limit else length
  }

  /** handleFileChange of the loader: nothing happens without a file;
      otherwise the first five seconds are copied out and reduced. */
  method LoadPreview(file: Option<SongFile>, channelData: array<real>, sampleRate: real)
    returns (waveform: Option<seq<MinMax>>)
    requires sampleRate >= 0.0
    ensures file.None? <==> waveform.None?
    ensures waveform.Some? ==>
      waveform.value == EnvelopeOf(channelData[..PrefixLength(channelData.Length, sampleRate)], PreviewChunks)
  {
    if file.None? {
      return None;
    }
    var numberOfSamples := PrefixLength(channelData.Length, sampleRate);
    var initialChannelData := new real[numberOfSamples](k requires 0 <= k < numberOfSamples reads channelData => channelData[k]);
    assert initialChannelData[..] == channelData[..numberOfSamples];
    var env := Reduce(initialChannelData, PreviewChunks);
    waveform := Some(env);
  }

  /** The preview always has 500 columns; a track no longer than five
      seconds is reduced whole; and the columns cut the kept samples into
      chunks of `ceil(n / 500)` that tile them, each sample in exactly one. */
  lemma PreviewShape(samples: seq<real>, sampleRate: real, j: nat, i: nat)
    requires sampleRate >= 0.0
    ensures var n := PrefixLength(|samples|, sampleRate);
      |EnvelopeOf(samples[..n], PreviewChunks)| == PreviewChunks
    ensures (|samples| as real) <= sampleRate * PreviewSeconds ==>
      EnvelopeOf(samples[..PrefixLength(|samples|, sampleRate)], PreviewChunks) == EnvelopeOf(samples, PreviewChunks)
    ensures var n := PrefixLength(|samples|, sampleRate);
      var size := ChunkSize(n, PreviewChunks);
      j < n && i < PreviewChunks ==>
        (ChunkStart(n, size, i) <= j < ChunkEnd(n, size, i) <==> i == j / size)
  {
    var n := PrefixLength(|samples|, sampleRate);
    if (|samples| as real) <= sampleRate * PreviewSeconds {
      assert samples[..n] == samples;
    }
    ChunksPartition(n, PreviewChunks, j, i);
  }
}
