/** The transcription page: a song picked by the user, or the project's
    stored song, becomes the store's song file and the audio element's
    source.  Stored songs are named `<id>_<original name>`. */
module Transcription {
  import opened Numbers
  import opened Optional
  import opened Text
  import opened Store
  import opened Audio

  /** `song_url.split("_").slice(1).join("_")`. */
  function OriginalName(songUrl: string): string {
    Join(Split(songUrl, '_')[1..], '_')
  }

  /** The original name is everything after the first '_', later
      underscores included; a URL without '_' gives the empty name. */
  lemma OriginalNameAfterPrefix(prefix: string, rest: string)
    requires '_' !in prefix
    ensures OriginalName(prefix + "_" + rest) == rest
  {
    SplitFirst(prefix, '_', rest);
    assert Split(prefix + "_" + rest, '_')[1..] == Split(rest, '_');
    JoinSplit(rest, '_');
  }

  lemma OriginalNameWithoutPrefix(songUrl: string)
    requires '_' !in songUrl
    ensures OriginalName(songUrl) == ""
  {
    SplitNone(songUrl, '_');
  }

  /** The project record the page loads; only its song URL is used. */
  datatype Project = Project(songUrl: string)

  class TranscriptionPage {
    const store: AppStore
    const audio: AudioElement

    constructor (store: AppStore, audio: AudioElement)
      ensures this.store == store && this.audio == audio
    {
      this.store := store;
      this.audio := audio;
    }

    /** handleSongUpload: a selected file becomes the song; with no file
        selected nothing changes. */
    method HandleSongUpload(selected: Option<SongFile>)
      modifies store
      ensures store.songFile == if selected.Some? then selected else old(store.songFile)
      ensures store.visibleKeys == old(store.visibleKeys)
    {
      if selected.Some? {
        store.SetSongFile(selected);
      }
    }

    /** The song-loading effect: only once the project query has succeeded
        with data; `body` is the fetched song (None when the fetch fails,
        which only raises a notice).  Assigning the element's source runs its
        load algorithm. */
    method LoadSong(isSuccess: bool, project: Option<Project>, body: Option<seq<bv8>>)
      modifies store, audio
      ensures var loads := isSuccess && project.Some? && body.Some?;
        && (loads ==>
              (var file := SongFile(OriginalName(project.value.songUrl), body.value);
               && store.songFile == Some(file) && audio.src == Some(file)
               && audio.paused && audio.currentTime == 0.0 && audio.duration == NaN
               && audio.playbackRate == 1.0))
        && (!loads ==>
              && store.songFile == old(store.songFile) && audio.src == old(audio.src)
              && audio.paused == old(audio.paused) && audio.currentTime == old(audio.currentTime)
              && audio.duration == old(audio.duration) && audio.playbackRate == old(audio.playbackRate))
      ensures store.visibleKeys == old(store.visibleKeys)
      ensures audio.loop == old(audio.loop) && audio.volume == old(audio.volume)
    {
      if !isSuccess || project.None? {
        return;
      }
      if body.None? {
        return;
      }
      var originalName := OriginalName(project.value.songUrl);
      var file := SongFile(originalName, body.value);
      store.SetSongFile(Some(file));
      audio.Load(file);
    }
  }
}
