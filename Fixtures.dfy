/** The demo catalog of the mock service, as concrete witnesses for the
    navigation lemmas: five songs with ids "1" to "5", extended to seven. */
module Fixtures {
  import opened Types
  import opened Navigation

  function Track(id: string, title: string, artist: string, album: string, duration: int, cover: string): Song {
    Song(id, title, artist, album, "https://picsum.photos/300/300?random=" + cover, duration, None)
  }

  function RecentSongs(): (r: seq<Song>)
    ensures |r| == 5 && DistinctIds(r)
  {
    [ Track("1", "Midnight City", "M83", "Hurry Up, We're Dreaming", 243, "1"),
      Track("2", "Blinding Lights", "The Weeknd", "After Hours", 200, "2"),
      Track("3", "Levitating", "Dua Lipa", "Future Nostalgia", 203, "3"),
      Track("4", "Do I Wanna Know?", "Arctic Monkeys", "AM", 272, "4"),
      Track("5", "The Less I Know The Better", "Tame Impala", "Currents", 216, "5") ]
  }

  function AllSongs(): (r: seq<Song>)
    ensures |r| == 7 && r[..5] == RecentSongs() && DistinctIds(r)
  {
    RecentSongs() + [
      Track("6", "Bohemian Rhapsody", "Queen", "A Night at the Opera", 354, "13"),
      Track("7", "Hotel California", "Eagles", "Hotel California", 391, "14") ]
  }

  /** On the demo list, next from the last song wraps to the first and
      previous from the first wraps to the last; an unknown id goes to the head. */
  lemma DemoWraparound()
    ensures NextSong(RecentSongs(), "5") == Some(RecentSongs()[0])
    ensures PrevSong(RecentSongs(), "1") == Some(RecentSongs()[4])
    ensures NextSong(AllSongs(), "5") == Some(AllSongs()[5])
    ensures NextSong(RecentSongs(), "6") == Some(RecentSongs()[0])
  {
    var s := RecentSongs();
    var a := AllSongs();
    FindIndexDistinct(s, 4);
    NextWhenFound(s, 4);
    FindIndexDistinct(s, 0);
    PrevWhenFound(s, 0);
    FindIndexDistinct(a, 4);
    NextWhenFound(a, 4);
    LostGoesToHead(s, "6");
  }
}
