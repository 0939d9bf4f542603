/** The player state of the application component and the four handlers
    that change it: play a song, toggle play/pause, next and previous. Each
    React state variable is a field; each setter call is an assignment. */
module App {
  import opened Types
  import opened Navigation

  class AppState {
    var activeTab: ViewState
    var isSettingsOpen: bool
    var isDemoMode: bool
    var credentials: Credentials

    // Player state
    var currentSong: Option<Song>
    var isPlaying: bool
    var isPlayerExpanded: bool

    // Data state: the ordered song list is the one navigation runs over
    var songs: seq<Song>
    var albums: seq<Album>
    var playlists: seq<Playlist>

    /** The initial state. The demo flag and the credentials are what the
        initialisers read from storage; they arrive here as parameters. */
    constructor (demoMode: bool, creds: Credentials)
      ensures activeTab == HOME && !isSettingsOpen
      ensures isDemoMode == demoMode && credentials == creds
      ensures currentSong == None && !isPlaying && !isPlayerExpanded
      ensures songs == [] && albums == [] && playlists == []
    {
      activeTab := HOME;
      isSettingsOpen := false;
      isDemoMode := demoMode;
      credentials := creds;
      currentSong := None;
      isPlaying := false;
      isPlayerExpanded := false;
      songs := [];
      albums := [];
      playlists := [];
    }

    /** A fetched catalog arrives: the three lists are replaced, last write
        wins, and the player state is left alone. */
    method LoadCatalog(newSongs: seq<Song>, newAlbums: seq<Album>, newPlaylists: seq<Playlist>)
      modifies this`songs, this`albums, this`playlists
      ensures songs == newSongs && albums == newAlbums && playlists == newPlaylists
      ensures currentSong == old(currentSong) && isPlaying == old(isPlaying)
      ensures isPlayerExpanded == old(isPlayerExpanded)
    {
      songs := newSongs;
      albums := newAlbums;
      playlists := newPlaylists;
    }

    /** Play a chosen song: it becomes current, playback starts and the
        player expands; nothing else changes. */
    method HandlePlaySong(song: Song)
      modifies this`currentSong, this`isPlaying, this`isPlayerExpanded
      ensures currentSong == Some(song) && isPlaying && isPlayerExpanded
      ensures songs == old(songs) && albums == old(albums) && playlists == old(playlists)
      ensures activeTab == old(activeTab) && credentials == old(credentials)
      ensures isDemoMode == old(isDemoMode) && isSettingsOpen == old(isSettingsOpen)
    {
      currentSong := Some(song);
      isPlaying := true;
      isPlayerExpanded := true;
    }

    /** The player's expand and collapse callbacks: only the expansion flag
        changes. */
    method SetPlayerExpanded(expanded: bool)
      modifies this`isPlayerExpanded
      ensures isPlayerExpanded == expanded
      ensures currentSong == old(currentSong) && isPlaying == old(isPlaying) && songs == old(songs)
    {
      isPlayerExpanded := expanded;
    }

    /** Flip the playing flag, with no guard: it may become true while no
        song is loaded. Nothing else changes. */
    method TogglePlayPause()
      modifies this`isPlaying
      ensures isPlaying == !old(isPlaying)
      ensures currentSong == old(currentSong) && isPlayerExpanded == old(isPlayerExpanded)
      ensures songs == old(songs)
    {
      isPlaying := !isPlaying;
    }

    /** Step to the next song. No current song: nothing changes. Current id
        missing from a non-empty list: the head becomes current and the
        playing flag is kept. Otherwise the song after it (wrapping) becomes
        current and playback starts; with an empty list that song is
        `undefined`, so the current song is cleared. */
    method HandleNext()
      modifies this`currentSong, this`isPlaying
      ensures old(currentSong).None? ==> currentSong == None && isPlaying == old(isPlaying)
      ensures old(currentSong).Some? ==>
        currentSong == NextSong(songs, old(currentSong).value.id) &&
        isPlaying == (if Lost(songs, old(currentSong).value.id) then old(isPlaying) else true)
      ensures songs == old(songs) && isPlayerExpanded == old(isPlayerExpanded)
      ensures albums == old(albums) && playlists == old(playlists) && activeTab == old(activeTab)
    {
      if currentSong.None? {
        return;
      }
      var idx := FindIndex(songs, currentSong.value.id);
      if idx == -1 && |songs| > 0 {
        currentSong := Some(songs[0]);
        return;
      }
      var nextIdx := JsRem(idx + 1, |songs|);
      currentSong := Lookup(songs, nextIdx);
      isPlaying := true;
    }

    /** Step to the previous song, with the same three branches as
        HandleNext and the index (idx - 1 + n) % n. */
    method HandlePrev()
      modifies this`currentSong, this`isPlaying
      ensures old(currentSong).None? ==> currentSong == None && isPlaying == old(isPlaying)
      ensures old(currentSong).Some? ==>
        currentSong == PrevSong(songs, old(currentSong).value.id) &&
        isPlaying == (if Lost(songs, old(currentSong).value.id) then old(isPlaying) else true)
      ensures songs == old(songs) && isPlayerExpanded == old(isPlayerExpanded)
      ensures albums == old(albums) && playlists == old(playlists) && activeTab == old(activeTab)
    {
      if currentSong.None? {
        return;
      }
      var idx := FindIndex(songs, currentSong.value.id);
      if idx == -1 && |songs| > 0 {
        currentSong := Some(songs[0]);
        return;
      }
      var prevIdx := JsRem(idx - 1 + |songs|, |songs|);
      currentSong := Lookup(songs, prevIdx);
      isPlaying := true;
    }
  }

  /** Three distinct songs, the first one played, then "next" pressed three
      times: the player visits the second, the third and wraps to the first,
      playing all along; pausing and toggling twice restores the flag. */
  method NextThreeTimes(t1: Song, t2: Song, t3: Song, creds: Credentials)
    returns (visited: seq<Option<Song>>, playing: bool)
    requires t1.id != t2.id && t1.id != t3.id && t2.id != t3.id
    ensures visited == [Some(t2), Some(t3), Some(t1)]
    ensures playing
  {
    var app := new AppState(false, creds);
    var catalog := [t1, t2, t3];
    app.LoadCatalog(catalog, [], []);
    app.HandlePlaySong(t1);
    visited := [];
    NextWhenFound(catalog, 0);
    app.HandleNext();
    visited := visited + [app.currentSong];
    NextWhenFound(catalog, 1);
    app.HandleNext();
    visited := visited + [app.currentSong];
    NextWhenFound(catalog, 2);
    app.HandleNext();
    visited := visited + [app.currentSong];
    app.TogglePlayPause();
    app.TogglePlayPause();
    playing := app.isPlaying;
  }

  /** With an empty song list, next from a loaded song clears the song yet
      sets the playing flag: playing does not imply a song is loaded. */
  method NextOnEmptyList(song: Song, creds: Credentials) returns (current: Option<Song>, playing: bool)
    ensures current == None && playing
  {
    var app := new AppState(false, creds);
    app.HandlePlaySong(song);
    app.TogglePlayPause();
    EmptyListClears(song.id);
    app.HandleNext();
    current, playing := app.currentSong, app.isPlaying;
  }
}
