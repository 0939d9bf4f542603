/** The index arithmetic behind the "next" and "previous" buttons: find the
    current song by id in the ordered song list and step one place forward or
    back, wrapping around at either end, with JavaScript's own semantics for
    `findIndex`, `%` and out-of-range indexing. */
module Navigation {
  import opened Types

  /** A JavaScript number as the navigation arithmetic produces it: an
      integer, or NaN after a remainder by zero. */
  datatype Num = Int(v: int) | NaN

  function Abs(x: int): nat {
    if x < 0 then -x else x
  }

  /** `songs.findIndex(s => s.id === id)`: the first index whose song has
      the id, or -1 when none has. */
  function FindIndex(songs: seq<Song>, id: string): (r: int)
    ensures -1 <= r < |songs|
    ensures r == -1 <==> forall j :: 0 <= j < |songs| ==> songs[j].id != id
    ensures r >= 0 ==> songs[r].id == id && forall j :: 0 <= j < r ==> songs[j].id != id
  {
    if |songs| == 0 then -1
    else if songs[0].id == id then 0
    else
      var r := FindIndex(songs[1..], id);
      if r == -1 then -1 else r + 1
  }

  /** JavaScript's `a % b`: the remainder of truncating division, carrying
      the sign of the dividend; a zero divisor gives NaN. */
  function JsRem(a: int, b: int): (r: Num)
    ensures r.NaN? <==> b == 0
    ensures r.Int? ==> Abs(r.v) < Abs(b)
    ensures r.Int? && a >= 0 ==> r.v >= 0
    ensures r.Int? && a <= 0 ==> r.v <= 0
    ensures r.Int? && a >= 0 && b > 0 ==> r.v == a % b
  {
    if b == 0 then NaN
    else
      var m := Abs(a) % Abs(b);
      Int(if a < 0 then -m else m)
  }

  /** The two identities that settle JavaScript's remainder for negative
      operands: the divisor's sign does not matter, and a negative dividend
      gives the negated remainder of its magnitude. */
  lemma JsRemNegative(a: int, b: int)
    ensures JsRem(a, b) == JsRem(a, -b)
    ensures JsRem(a, b).Int? && a < 0 ==> JsRem(a, b) == Int(-JsRem(-a, b).v)
  {
  }

  /** `songs[n]`: the song at an integer index inside the list, otherwise
      `undefined` (a negative index, one past the end, or NaN). */
  function Lookup(songs: seq<Song>, n: Num): Option<Song> {
    if n.Int? && 0 <= n.v < |songs| then Some(songs[n.v]) else None
  }

  /** The current id is missing from a non-empty list: both handlers then
      fall back to the head of the list and return early. */
  predicate Lost(songs: seq<Song>, id: string) {
    FindIndex(songs, id) == -1 && |songs| > 0
  }

  /** The song `handleNext` selects when the current song has the given id. */
  function NextSong(songs: seq<Song>, id: string): (r: Option<Song>)
    ensures r.Some? <==> |songs| > 0
    ensures r.Some? ==> r.value in songs
  {
    var idx := FindIndex(songs, id);
    if idx == -1 && |songs| > 0 then Some(songs[0])
    else Lookup(songs, JsRem(idx + 1, |songs|))
  }

  /** The song `handlePrev` selects when the current song has the given id. */
  function PrevSong(songs: seq<Song>, id: string): (r: Option<Song>)
    ensures r.Some? <==> |songs| > 0
    ensures r.Some? ==> r.value in songs
  {
    var idx := FindIndex(songs, id);
    if idx == -1 && |songs| > 0 then Some(songs[0])
    else Lookup(songs, JsRem(idx - 1 + |songs|, |songs|))
  }

  /** Song `i` is the first song with its own id. */
  predicate FirstWithId(songs: seq<Song>, i: int)
    requires 0 <= i < |songs|
  {
    forall j :: 0 <= j < i ==> songs[j].id != songs[i].id
  }

  lemma FindIndexOfFirst(songs: seq<Song>, i: int)
    requires 0 <= i < |songs| && FirstWithId(songs, i)
    ensures FindIndex(songs, songs[i].id) == i
  {
  }

  /** With distinct ids every song is the first with its id. */
  lemma FindIndexDistinct(songs: seq<Song>, i: int)
    requires DistinctIds(songs) && 0 <= i < |songs|
    ensures FindIndex(songs, songs[i].id) == i
  {
    FindIndexOfFirst(songs, i);
  }

  /** A remainder by n of a value in [0, 2n) subtracts n at most once. */
  lemma ModBelowTwice(a: int, n: int)
    requires 0 < n && 0 <= a < 2 * n
    ensures a % n == if a < n then a else a - n
  {
    if a >= n {
      assert a == 1 * n + (a - n);
    }
  }

  /** Next from a song found at index i selects song (i+1) mod n, starts
      playback, and from the last song wraps to the first. */
  lemma NextWhenFound(songs: seq<Song>, i: int)
    requires 0 <= i < |songs| && FirstWithId(songs, i)
    ensures !Lost(songs, songs[i].id)
    ensures NextSong(songs, songs[i].id) == Some(songs[(i + 1) % |songs|])
    ensures i == |songs| - 1 ==> NextSong(songs, songs[i].id) == Some(songs[0])
    ensures i < |songs| - 1 ==> NextSong(songs, songs[i].id) == Some(songs[i + 1])
  {
    FindIndexOfFirst(songs, i);
    ModBelowTwice(i + 1, |songs|);
  }

  /** Previous from a song found at index i selects song (i-1+n) mod n, an
      index always inside the list, and from the first song wraps to the last. */
  lemma PrevWhenFound(songs: seq<Song>, i: int)
    requires 0 <= i < |songs| && FirstWithId(songs, i)
    ensures !Lost(songs, songs[i].id)
    ensures 0 <= (i - 1 + |songs|) % |songs| < |songs|
    ensures PrevSong(songs, songs[i].id) == Some(songs[(i - 1 + |songs|) % |songs|])
    ensures i == 0 ==> PrevSong(songs, songs[i].id) == Some(songs[|songs| - 1])
    ensures i > 0 ==> PrevSong(songs, songs[i].id) == Some(songs[i - 1])
  {
    FindIndexOfFirst(songs, i);
    ModBelowTwice(i - 1 + |songs|, |songs|);
  }

  /** A current id absent from a non-empty list sends both directions to the
      head of the list through the early-return branch. */
  lemma LostGoesToHead(songs: seq<Song>, id: string)
    requires |songs| > 0
    requires forall j :: 0 <= j < |songs| ==> songs[j].id != id
    ensures Lost(songs, id)
    ensures NextSong(songs, id) == Some(songs[0])
    ensures PrevSong(songs, id) == Some(songs[0])
  {
  }

  /** With an empty list the index is -1 and the remainder is by zero: both
      directions select `undefined`, and do so outside the early return. */
  lemma EmptyListClears(id: string)
    ensures FindIndex([], id) == -1 && !Lost([], id)
    ensures JsRem(FindIndex([], id) + 1, 0).NaN? && JsRem(FindIndex([], id) - 1 + 0, 0).NaN?
    ensures NextSong([], id) == None && PrevSong([], id) == None
  {
  }

  /** A one-song list: next and previous both select that song, whatever the
      current id. */
  lemma SingletonStays(song: Song, id: string)
    ensures NextSong([song], id) == Some(song)
    ensures PrevSong([song], id) == Some(song)
  {
    if song.id == id {
      NextWhenFound([song], 0);
      PrevWhenFound([song], 0);
    }
  }

  /** With distinct ids, previous undoes next for every song of the list. */
  lemma PrevAfterNext(songs: seq<Song>, k: int)
    requires DistinctIds(songs) && 0 <= k < |songs|
    ensures NextSong(songs, songs[k].id).Some?
    ensures PrevSong(songs, NextSong(songs, songs[k].id).value.id) == Some(songs[k])
  {
    var n := |songs|;
    FindIndexDistinct(songs, k);
    NextWhenFound(songs, k);
    var j := if k + 1 < n then k + 1 else 0;
    assert NextSong(songs, songs[k].id) == Some(songs[j]);
    FindIndexDistinct(songs, j);
    PrevWhenFound(songs, j);
  }

  /** With distinct ids, next undoes previous for every song of the list. */
  lemma NextAfterPrev(songs: seq<Song>, k: int)
    requires DistinctIds(songs) && 0 <= k < |songs|
    ensures PrevSong(songs, songs[k].id).Some?
    ensures NextSong(songs, PrevSong(songs, songs[k].id).value.id) == Some(songs[k])
  {
    var n := |songs|;
    FindIndexDistinct(songs, k);
    PrevWhenFound(songs, k);
    var j := if k > 0 then k - 1 else n - 1;
    assert PrevSong(songs, songs[k].id) == Some(songs[j]);
    FindIndexDistinct(songs, j);
    NextWhenFound(songs, j);
  }

  /** Without distinct ids the round trip can fail: in [Y, X, Y'] next from X
      reaches Y', whose id is first found at index 0, so previous goes to
      Y' again rather than back to X. */
  lemma RoundTripNeedsDistinctIds(x: Song, y: Song)
    requires x.id != y.id
    ensures var songs := [y, x, y];
      NextSong(songs, x.id) == Some(y) && PrevSong(songs, y.id) == Some(y) && y != x
  {
    var songs := [y, x, y];
    NextWhenFound(songs, 1);
    PrevWhenFound(songs, 0);
  }
}
