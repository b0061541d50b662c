/** The application store shared by the components: the current song file
    and a key-width value (`visibleKeys`), each replaced wholesale by its
    setter.  The piano roll keeps its own zoom (`PianoRollView.visibleKeys`),
    nothing calls the store's setter for it, and the store's value is read
    only as the frequency graph's horizontal scale, so it stays 2.3263. */
module Store {
  import opened Optional

  /** A browser File: its name and its bytes. */
  datatype SongFile = SongFile(name: string, bytes: seq<bv8>)

  const InitialVisibleKeys: real := 2.3263

  class AppStore {
    var songFile: Option<SongFile>
    var visibleKeys: real

    /** The store starts with no song and the default zoom. */
    constructor ()
      ensures songFile == None && visibleKeys == InitialVisibleKeys
    {
      songFile := None;
      visibleKeys := InitialVisibleKeys;
    }

    /** `setSongFile(file)`: replaces the song (clearing it with null is allowed)
        and leaves the zoom alone. */
    method SetSongFile(file: Option<SongFile>)
      modifies this
      ensures songFile == file && visibleKeys == old(visibleKeys)
    {
      songFile := file;
    }

    /** `setVisibleKeys(keys)`: stores the value as given, without clamping,
        and leaves the song alone. */
    method SetVisibleKeys(keys: real)
      modifies this
      ensures visibleKeys == keys && songFile == old(songFile)
    {
      visibleKeys := keys;
    }
  }
}
