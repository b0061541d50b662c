/** The transport bar: play/pause, loop, speed and volume controls, the
    `mm:ss` time display and the file label. */
module Controls {
  import opened Numbers
  import opened Optional
  import opened Text
  import opened Store
  import opened Audio

  // ---------------------------------------------------------------------
  // Time display

  /** The minutes and seconds formatDuration shows: `floor(s / 60)` and
      `floor(s % 60)`, i.e. the whole seconds split into minutes and the
      seconds left over. */
  function DurationFields(seconds: real): (f: (nat, nat))
    requires seconds >= 0.0
    ensures f.0 == seconds.Floor / 60 && f.1 == seconds.Floor % 60 && f.1 < 60
  {
    FloorBy60(seconds);
    ((seconds / 60.0).Floor, JsRem(seconds, 60.0).Floor)
  }

  /** formatDuration: both fields padded to two digits, minutes never cut. */
  function FormatDuration(seconds: real): string
    requires seconds >= 0.0
  {
    var (m, s) := DurationFields(seconds);
    Pad2(m) + ":" + Pad2(s)
  }

  /** The display reads back as the whole seconds; the seconds field is
      always two digits in 00 .. 59 and the minutes field at least two. */
  lemma FormatDurationReadsBack(seconds: real)
    requires seconds >= 0.0
    ensures var r := ReadClock(FormatDuration(seconds));
      r.Some? && r.value == seconds.Floor
    ensures var (m, s) := DurationFields(seconds);
      |Pad2(s)| == 2 && ParseNat(Pad2(s)) < 60 && |Pad2(m)| >= 2 && ParseNat(Pad2(m)) == seconds.Floor / 60
  {
    var (m, s) := DurationFields(seconds);
    Pad2Parses(m);
    Pad2Parses(s);
    ReadClock2(Pad2(m), Pad2(s));
  }

  /** The total shown next to the position: "00:00" for a zero duration,
      which is also what formatDuration(0) gives. */
  function TotalText(duration: real): (text: string)
    requires duration >= 0.0
    ensures text == FormatDuration(duration)
  {
    var zero := FormatDuration(0.0);
    assert zero == "00:00" by {
      assert DurationFields(0.0) == (0, 0);
      assert NatToString(0) == "0";
    }
    if duration != 0.0 then FormatDuration(duration) else "00:00"
  }

  /** `audio.duration || 0`: NaN (no metadata yet) and 0 become 0; every
      other value, infinite ones included, is kept. */
  function DurationOrZero(d: Num): (r: Num)
    ensures d.NaN? || d == Fin(0.0) ==> r == Fin(0.0)
    ensures !(d.NaN? || d == Fin(0.0)) ==> r == d
  {
    if d.NaN? || d == Fin(0.0) then Fin(0.0) else d
  }

  // ---------------------------------------------------------------------
  // Volume icon and file label

  datatype VolumeIcon = Muted | Low | Mid | High

  /** getVolumeIcon: muted at 0, low up to 33, mid up to 66, high above. */
  function ControlsVolumeIcon(volume: int): (icon: VolumeIcon)
    ensures icon == Muted <==> volume == 0
    ensures icon == Low <==> volume != 0 && volume <= 33
    ensures icon == Mid <==> 33 < volume <= 66
    ensures icon == High <==> volume > 66
  {
    if volume == 0 then Muted
    else if volume <= 33 then Low
    else if volume <= 66 then Mid
    else High
  }

  /** The song title: the file's name, or "No Song Loaded" without a song
      or with an empty name. */
  function SongTitle(song: Option<SongFile>): (title: string)
    ensures song.Some? && song.value.name != "" ==> title == song.value.name
    ensures !(song.Some? && song.value.name != "") ==> title == "No Song Loaded"
  {
    if song.Some? && song.value.name != "" then song.value.name else "No Song Loaded"
  }

  /** The file label: the name's last '.'-separated part upper-cased, plus
      " FILE"; "NO FILE" without a song. */
  function FileLabel(song: Option<SongFile>): string {
    if song.None? then "NO FILE"
    else
      var parts := Split(song.value.name, '.');
      ToUpper(parts[|parts| - 1]) + " FILE"
  }

  /** The last piece of a split is what follows the last separator. */
  lemma {:induction false} SplitLast(s: string, c: char, tail: string)
    requires c !in tail
    ensures var parts := Split(s + [c] + tail, c);
      |parts| >= 2 && parts[|parts| - 1] == tail
  {
    var whole := s + [c] + tail;
    if |s| == 0 {
      assert whole == [c] + tail;
      assert whole[1..] == tail;
      SplitNone(tail, c);
    } else {
      SplitLast(s[1..], c, tail);
      assert whole[1..] == s[1..] + [c] + tail;
    }
  }

  /** The label names the extension after the last '.', or the whole name
      when it has none. */
  lemma FileLabelExtension(name: string, bytes: seq<bv8>, stem: string, ext: string)
    ensures '.' !in name ==> FileLabel(Some(SongFile(name, bytes))) == ToUpper(name) + " FILE"
    ensures name == stem + "." + ext && '.' !in ext ==>
      FileLabel(Some(SongFile(name, bytes))) == ToUpper(ext) + " FILE"
  {
    if '.' !in name {
      SplitNone(name, '.');
    }
    if name == stem + "." + ext && '.' !in ext {
      SplitLast(stem, '.', ext);
    }
  }

  /** The title line and the label line over the store's song: both say
      that no song is loaded when there is none; a song named
      `<stem>.<ext>` is titled by its full name and labelled by its
      upper-cased extension; a file with an empty name is titled as no song
      while its label still reads " FILE". */
  lemma TitleAndLabel(song: Option<SongFile>, stem: string, ext: string)
    ensures song.None? ==> SongTitle(song) == "No Song Loaded" && FileLabel(song) == "NO FILE"
    ensures song.Some? && song.value.name == stem + "." + ext && '.' !in ext ==>
      SongTitle(song) == stem + "." + ext && FileLabel(song) == ToUpper(ext) + " FILE"
    ensures song.Some? && song.value.name == "" ==>
      SongTitle(song) == "No Song Loaded" && FileLabel(song) == " FILE"
  {
    if song.Some? {
      FileLabelExtension(song.value.name, song.value.bytes, stem, ext);
    }
  }

  // ---------------------------------------------------------------------
  // The component

  class ControlsView {
    const audio: AudioElement
    var isPlaying: bool
    /** The playback-speed slider (0.2 .. 2). */
    var slowdown: real
    /** The volume slider (0 .. 100). */
    var volume: int
    var currentTime: real
    var duration: Num
    var isLooping: bool

    /** The play button shows the element's state. */
    predicate InSync()
      reads this, audio
    {
      isPlaying == !audio.paused
    }

    constructor (audio: AudioElement)
      ensures this.audio == audio
      ensures !isPlaying && slowdown == 1.0 && volume == 75
      ensures currentTime == 0.0 && duration == Fin(0.0) && !isLooping
    {
      this.audio := audio;
      isPlaying := false;
      slowdown := 1.0;
      volume := 75;
      currentTime := 0.0;
      duration := Fin(0.0);
      isLooping := false;
    }

    /** handlePausePlay: pause a playing element, play a paused one, and
        flip the button; a synchronised button stays synchronised. */
    method HandlePausePlay()
      modifies this, audio
      ensures isPlaying == !old(isPlaying)
      ensures audio.paused == old(isPlaying)
      ensures old(InSync()) ==> InSync()
      ensures slowdown == old(slowdown) && volume == old(volume) && currentTime == old(currentTime)
      ensures duration == old(duration) && isLooping == old(isLooping)
      ensures audio.currentTime == old(audio.currentTime) && audio.duration == old(audio.duration)
      ensures audio.loop == old(audio.loop) && audio.volume == old(audio.volume)
      ensures audio.playbackRate == old(audio.playbackRate) && audio.src == old(audio.src)
    {
      if isPlaying {
        audio.Pause();
      } else {
        audio.Play();
      }
      isPlaying := !isPlaying;
    }

    /** toggleLoop: flip the element's loop flag and mirror it. */
    method ToggleLoop()
      modifies this, audio
      ensures audio.loop == !old(audio.loop) && isLooping == audio.loop
      ensures isPlaying == old(isPlaying) && slowdown == old(slowdown) && volume == old(volume)
      ensures currentTime == old(currentTime) && duration == old(duration)
      ensures audio.currentTime == old(audio.currentTime) && audio.duration == old(audio.duration)
      ensures audio.paused == old(audio.paused) && audio.volume == old(audio.volume)
      ensures audio.playbackRate == old(audio.playbackRate) && audio.src == old(audio.src)
    {
      audio.loop := !audio.loop;
      isLooping := audio.loop;
    }

    /** handleVolumeChange: the slider value, and the element's volume as
        its fraction of 100. */
    method HandleVolumeChange(value: int)
      modifies this, audio
      ensures volume == value && audio.volume == (value as real) / 100.0
      ensures 0 <= value <= 100 ==> 0.0 <= audio.volume <= 1.0
      ensures isPlaying == old(isPlaying) && slowdown == old(slowdown) && isLooping == old(isLooping)
      ensures currentTime == old(currentTime) && duration == old(duration)
      ensures audio.currentTime == old(audio.currentTime) && audio.duration == old(audio.duration)
      ensures audio.paused == old(audio.paused) && audio.loop == old(audio.loop)
      ensures audio.playbackRate == old(audio.playbackRate) && audio.src == old(audio.src)
    {
      volume := value;
      audio.volume := (value as real) / 100.0;
    }

    /** handleSlowdownChange followed by the effect that applies the speed
        to the element. */
    method HandleSlowdownChange(value: real)
      modifies this, audio
      ensures slowdown == value && audio.playbackRate == value
      ensures isPlaying == old(isPlaying) && volume == old(volume) && isLooping == old(isLooping)
      ensures currentTime == old(currentTime) && duration == old(duration)
      ensures audio.currentTime == old(audio.currentTime) && audio.duration == old(audio.duration)
      ensures audio.paused == old(audio.paused) && audio.loop == old(audio.loop)
      ensures audio.volume == old(audio.volume) && audio.src == old(audio.src)
    {
      slowdown := value;
      audio.playbackRate := slowdown;
    }

    /** updateTimes, on `timeupdate` and `loadedmetadata`. */
    method UpdateTimes()
      modifies this
      ensures currentTime == audio.currentTime && duration == DurationOrZero(audio.duration)
      ensures isPlaying == old(isPlaying) && slowdown == old(slowdown)
      ensures volume == old(volume) && isLooping == old(isLooping)
    {
      currentTime := audio.currentTime;
      duration := DurationOrZero(audio.duration);
    }

    /** handleEnded: the element has stopped by itself. */
    method HandleEnded()
      modifies this
      ensures !isPlaying
      ensures audio.paused ==> InSync()
      ensures slowdown == old(slowdown) && volume == old(volume) && currentTime == old(currentTime)
      ensures duration == old(duration) && isLooping == old(isLooping)
    {
      isPlaying := false;
    }

    /** A click on the upload label pauses the song before the picker opens. */
    method LabelClick()
      modifies this, audio
      ensures !isPlaying && audio.paused && InSync()
      ensures slowdown == old(slowdown) && volume == old(volume) && currentTime == old(currentTime)
      ensures duration == old(duration) && isLooping == old(isLooping)
      ensures audio.currentTime == old(audio.currentTime) && audio.duration == old(audio.duration)
      ensures audio.loop == old(audio.loop) && audio.volume == old(audio.volume)
      ensures audio.playbackRate == old(audio.playbackRate) && audio.src == old(audio.src)
    {
      audio.Pause();
      isPlaying := false;
    }

    /** The speed effect, re-run whenever the slider or the song changes:
        the element plays at the slider's speed. */
    method ApplySlowdown()
      modifies audio
      ensures audio.playbackRate == slowdown
      ensures audio.currentTime == old(audio.currentTime) && audio.duration == old(audio.duration)
      ensures audio.paused == old(audio.paused) && audio.loop == old(audio.loop)
      ensures audio.volume == old(audio.volume) && audio.src == old(audio.src)
    {
      audio.playbackRate := slowdown;
    }

    /** A drop on the upload label, as written: the first dropped file
        goes straight to the upload handler, becomes the store's song, is
        loaded into the element (which stops it) and gets the slider's
        speed back, but the play button is left as it was.  Dropping while
        playing therefore leaves a "pause" button over a paused song. */
    method DropAsWritten(store: AppStore, files: seq<SongFile>)
      modifies this, audio, store
      ensures |files| > 0 ==>
        && store.songFile == Some(files[0]) && audio.src == Some(files[0])
        && audio.paused && audio.currentTime == 0.0 && audio.playbackRate == slowdown
      ensures |files| == 0 ==>
        store.songFile == old(store.songFile) && audio.src == old(audio.src) && audio.paused == old(audio.paused)
      ensures isPlaying == old(isPlaying)
      ensures |files| > 0 && old(isPlaying) ==> !InSync()
      ensures slowdown == old(slowdown) && volume == old(volume) && isLooping == old(isLooping)
      ensures audio.loop == old(audio.loop) && audio.volume == old(audio.volume)
      ensures store.visibleKeys == old(store.visibleKeys)
    {
      if |files| > 0 {
        store.SetSongFile(Some(files[0]));
        audio.Load(files[0]);
        ApplySlowdown();
      }
    }

    /** A drop on the upload label handled like a click on it: the song is
        paused and the button reset before the upload, so the button shows
        the element's state afterwards whatever it showed before. */
    method Drop(store: AppStore, files: seq<SongFile>)
      modifies this, audio, store
      ensures !isPlaying && audio.paused && InSync()
      ensures |files| > 0 ==>
        && store.songFile == Some(files[0]) && audio.src == Some(files[0])
        && audio.currentTime == 0.0 && audio.playbackRate == slowdown
      ensures |files| == 0 ==> store.songFile == old(store.songFile) && audio.src == old(audio.src)
      ensures slowdown == old(slowdown) && volume == old(volume) && isLooping == old(isLooping)
      ensures audio.loop == old(audio.loop) && audio.volume == old(audio.volume)
      ensures store.visibleKeys == old(store.visibleKeys)
    {
      LabelClick();
      if |files| > 0 {
        store.SetSongFile(Some(files[0]));
        audio.Load(files[0]);
        ApplySlowdown();
      }
    }
  }

  /** The drop desynchronisation on a concrete run: a fresh player is
      started with the play button, then a song is dropped; the button was
      in step before the drop and is not after it, while the same run with
      the corrected drop ends in step. */
  method DropWhilePlaying() returns (syncedBefore: bool, syncedAfter: bool, syncedAfterFix: bool)
    ensures syncedBefore && !syncedAfter && syncedAfterFix
  {
    var song := SongFile("take.mp3", []);
    var store := new AppStore();
    var audio := new AudioElement();
    var view := new ControlsView(audio);
    view.HandlePausePlay();
    syncedBefore := view.InSync();
    view.DropAsWritten(store, [song]);
    syncedAfter := view.InSync();

    var fixedAudio := new AudioElement();
    var fixedView := new ControlsView(fixedAudio);
    fixedView.HandlePausePlay();
    fixedView.Drop(store, [song]);
    syncedAfterFix := fixedView.InSync();
  }
}
