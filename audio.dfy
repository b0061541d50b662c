/** The parts of the HTML audio element the components read and write.  The
    element's own playback (time advancing, decoding, buffering) is not
    modelled: its fields change only through the calls below. */
module Audio {
  import opened Numbers
  import opened Optional
  import opened Store

  class AudioElement {
    /** Playback position in seconds. */
    var currentTime: real
    /** Length in seconds; NaN until the metadata has loaded. */
    var duration: Num
    var paused: bool
    var loop: bool
    /** Output volume in [0, 1]. */
    var volume: real
    var playbackRate: real
    /** The file behind the element's object URL, if any. */
    var src: Option<SongFile>

    /** `new Audio()`: nothing loaded, paused, at time 0. */
    constructor ()
      ensures currentTime == 0.0 && duration == NaN && paused && !loop
      ensures volume == 1.0 && playbackRate == 1.0 && src == None
    {
      currentTime := 0.0;
      duration := NaN;
      paused := true;
      loop := false;
      volume := 1.0;
      playbackRate := 1.0;
      src := None;
    }

    /** Assigning `currentTime`: a non-finite value is refused (the element
        throws a TypeError) and the position stays where it was. */
    method Seek(t: Num)
      modifies this
      ensures currentTime == (if t.Fin? then t.v else old(currentTime))
      ensures duration == old(duration) && paused == old(paused) && loop == old(loop)
      ensures volume == old(volume) && playbackRate == old(playbackRate) && src == old(src)
    {
      if t.Fin? {
        currentTime := t.v;
      }
    }

    /** Assigning `src` (and calling `load()`): the media element's load
        algorithm stops playback, rewinds to 0, forgets the old duration until
        the new metadata arrives, and resets the playback rate to its default. */
    method Load(file: SongFile)
      modifies this
      ensures src == Some(file) && paused && currentTime == 0.0 && duration == NaN
      ensures playbackRate == 1.0
      ensures loop == old(loop) && volume == old(volume)
    {
      src := Some(file);
      paused := true;
      currentTime := 0.0;
      duration := NaN;
      playbackRate := 1.0;
    }

    method Play()
      modifies this
      ensures !paused
      ensures currentTime == old(currentTime) && duration == old(duration) && loop == old(loop)
      ensures volume == old(volume) && playbackRate == old(playbackRate) && src == old(src)
    {
      paused := false;
    }

    method Pause()
      modifies this
      ensures paused
      ensures currentTime == old(currentTime) && duration == old(duration) && loop == old(loop)
      ensures volume == old(volume) && playbackRate == old(playbackRate) && src == old(src)
    {
      paused := true;
    }
  }
}
