/** The records of the player: songs, albums, playlists, server credentials
    and the tabs of the main view. Only `Song.id` drives navigation. */
module Types {

  /** A value that may be missing: JavaScript's `null` / `undefined`. */
  datatype Option<T> = None | Some(value: T)

  /** Server login; the password is optional. */
  datatype Credentials = Credentials(url: string, username: string, password: Option<string>)

  /** A playable track. `duration` is in seconds; `streamUrl` is generated on demand. */
  datatype Song = Song(
    id: string,
    title: string,
    artist: string,
    album: string,
    coverArt: string,
    duration: int,
    streamUrl: Option<string>)

  datatype Album = Album(id: string, title: string, artist: string, coverArt: string, year: Option<int>)

  datatype Playlist = Playlist(id: string, name: string, songCount: int, coverArt: string)

  /** The tabs of the main view; each carries its string value. */
  datatype ViewState = HOME | PLAYLISTS | ALBUMS | SONGS
  {
    function Name(): string {
      match this
      case HOME => "HOME"
      case PLAYLISTS => "PLAYLISTS"
      case ALBUMS => "ALBUMS"
      case SONGS => "SONGS"
    }
  }

  /** No two songs of the list share an id. */
  predicate DistinctIds(songs: seq<Song>) {
    forall i, j :: 0 <= i < j < |songs| ==> songs[i].id != songs[j].id
  }
}
