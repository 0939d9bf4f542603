# Player navigation of a Subsonic client, in Dafny

This project models the player state of the application component of a
Subsonic-compatible music client (`App.tsx`): which song is current, whether
it is playing, whether the player is expanded, and the ordered song list the
"next" and "previous" buttons walk through. The four handlers that change
that state — play a song, toggle play/pause, next, previous — are methods of
a class whose fields are the component's state variables; the index
selection they use (`findIndex`, then `(idx + 1) % n` or `(idx - 1 + n) % n`,
then `songs[...]`) is a set of pure functions with lemmas. The header title
(the active tab's name capitalised) is modelled as a pure function.

Files:

- `Types.dfy` — the records of `types.ts` (`Song`, `Album`, `Playlist`,
  `Credentials`, `ViewState`) and `Option` for JavaScript's `null`/`undefined`.
- `Navigation.dfy` — `FindIndex`, JavaScript's `%` (`JsRem`, where a zero
  divisor gives NaN), indexing that yields `undefined` out of range
  (`Lookup`), the songs selected by next and previous (`NextSong`,
  `PrevSong`), and the lemmas: wraparound, head-of-list recovery, the empty
  list, one-song lists and the round trips.
- `App.dfy` — class `AppState` with the handlers, each written with the
  source's early returns and proved against `NextSong`/`PrevSong`; two client
  methods replay scenarios (three presses of next wrapping around; next on an
  empty list).
- `Title.dfy` — ASCII capitalisation and the header title of each tab.
- `Fixtures.dfy` — the demo songs of the mock service (ids "1" to "5", and
  the seven-song list) as concrete witnesses.

Behaviour kept as the code has it:

- With an empty song list and a current song, next and previous compute
  `-1`, take a remainder by zero (NaN) and index with it, so the current song
  becomes `undefined` while the playing flag is set to true. The model keeps
  this (`EmptyListClears`, `NextOnEmptyList`; App.tsx:99-101 and
  App.tsx:111-113), so "playing implies a song is loaded" is not an invariant
  of the model. `TogglePlayPause` alone breaks it too, but in the program its
  only caller is the player's button, and the player renders nothing without
  a current song (components/Player.tsx:14-16); so in the running program
  only the empty-list branch of next/previous reaches "playing with no song".
- When the current id is missing from a non-empty list both handlers select
  the head and return early, leaving the playing flag as it was.
- The round trip (previous after next) holds for lists with distinct ids;
  `RoundTripNeedsDistinctIds` shows a list with a repeated id where it fails.

## Model

| member | source | states |
|---|---|---|
| Navigation.FindIndex | App.tsx:94 | the result is -1 exactly when no song has the id; otherwise the song there has the id and no earlier song does |
| Navigation.FindIndexDistinct | App.tsx:94 | with distinct ids, looking up the id of song i finds index i |
| Navigation.JsRem | App.tsx:99 | JavaScript remainder: NaN exactly for a zero divisor, magnitude below the divisor's, sign of the dividend, equal to the mathematical remainder for non-negative operands |
| Navigation.JsRemNegative | App.tsx:111 | for negative operands: the divisor's sign does not change the result, and a negative dividend gives the negated remainder of its magnitude; with JsRem's contract this fixes every value |
| Navigation.NextSong | App.tsx:94-100 | the song selected by next exists exactly when the list is non-empty, and is then a member of the list |
| Navigation.PrevSong | App.tsx:106-112 | the song selected by previous exists exactly when the list is non-empty, and is then a member of the list |
| Navigation.NextWhenFound | App.tsx:94-100 | from the song found first at index i, next selects song (i+1) mod n outside the early-return branch; the last song wraps to the first, others go to i+1 |
| Navigation.PrevWhenFound | App.tsx:106-112 | from the song found first at index i, previous selects song (i-1+n) mod n, an index always inside the list; the first song wraps to the last, others go to i-1 |
| Navigation.LostGoesToHead | App.tsx:94-110 | an id absent from a non-empty list takes the early-return branch, and both next and previous select the head of the list |
| Navigation.EmptyListClears | App.tsx:99-112 | on an empty list the index is -1, both remainders are NaN, the branch is not the early return, and both directions select `undefined` |
| Navigation.SingletonStays | App.tsx:94-112 | on a one-song list next and previous both select that song, for any current id |
| Navigation.PrevAfterNext | App.tsx:94-112 | with distinct ids, previous applied to the song next selects returns to the original song, for every song of the list |
| Navigation.NextAfterPrev | App.tsx:94-112 | with distinct ids, next applied to the song previous selects returns to the original song, for every song of the list |
| Navigation.RoundTripNeedsDistinctIds | App.tsx:94-112 | with a repeated id ([Y, X, Y]) next from X reaches Y and previous from Y stays on Y, so the round trip fails |
| App.AppState.constructor | App.tsx:19-44 | initial state: home tab, settings closed, no current song, not playing, collapsed, empty lists, demo flag and credentials as given |
| App.AppState.LoadCatalog | App.tsx:61-63 | a fetched catalog replaces the three lists and leaves the player state untouched |
| App.AppState.HandlePlaySong | App.tsx:81-86 | the song becomes current, playing and expanded become true, and lists, tab, credentials and flags are unchanged |
| App.AppState.SetPlayerExpanded | App.tsx:271-272 | the expand and collapse callbacks set the expansion flag to the given value and leave song, playing flag and list unchanged |
| App.AppState.TogglePlayPause | App.tsx:88-90 | the playing flag is negated with no guard on the current song; song, expansion and list are unchanged |
| App.AppState.HandleNext | App.tsx:92-102 | no current song: nothing changes; otherwise the current song becomes NextSong of its id and playing becomes true except in the early-return branch, where it is kept; list and expansion unchanged |
| App.AppState.HandlePrev | App.tsx:104-114 | no current song: nothing changes; otherwise the current song becomes PrevSong of its id and playing becomes true except in the early-return branch, where it is kept; list and expansion unchanged |
| App.NextThreeTimes | App.tsx:81-102 | from the first of three distinct songs, three presses of next visit the second, the third and the first again, and toggling twice leaves it playing |
| App.NextOnEmptyList | App.tsx:88-102 | with an empty list, next from a loaded paused song clears the song and sets playing to true |
| Title.LowerCase | App.tsx:252 | lower-casing keeps the length, leaves no upper-case letter and differs from the input only in letter case |
| Title.Capitalize | App.tsx:252 | the result is capitalised (first character not lower case, no upper-case letter after it) and differs from the input only in letter case |
| Title.CapitalizeUnique | App.tsx:252 | the capitalised form is the only capitalised string equal to the input ignoring case |
| Title.HeaderTitle | App.tsx:252 | the title of a tab is capitalised and equals the tab's name ignoring case |
| Title.HeaderTitles | types.ts:32-37 | the four tabs HOME, PLAYLISTS, ALBUMS, SONGS are titled Home, Playlists, Albums, Songs |
| Fixtures.RecentSongs | services/subsonicService.ts:4-10 | the demo list has five songs with distinct ids |
| Fixtures.AllSongs | services/subsonicService.ts:25-29 | the full demo list has seven songs with distinct ids and starts with the five recent ones |
| Fixtures.DemoWraparound | services/subsonicService.ts:4-29 | on the demo lists next from "5" wraps to "1" (or goes on to "6" in the seven-song list), previous from "1" wraps to "5", and the unknown id "6" goes to the head |

## Left out

- Rendering: the JSX, `renderContent`, the tab switching it wires to buttons, the player and settings components; they are presentation.
- Storage: the `localStorage` reads behind the initial demo flag and credentials, and the writes and state updates of `handleSettingsSave` (App.tsx:74-79); the constructor takes the two values as parameters instead.
- The asynchronous catalog fetch (`fetchData`, `Promise.all`, the demo/live switch): network and async plumbing whose service functions are not part of this model; `LoadCatalog` stands for the setter calls it makes when its results arrive.
- The announcer service (a foreign speech SDK, base64 decoding, audio buffers, floating-point sample conversion) and the bootstrap and build configuration files.
- Stream and artwork URLs, seeking, progress and time formatting: no code for them is part of this model.
- Title.Capitalize: models ASCII letters only; JavaScript's Unicode case mapping of other characters is not modelled.
- Numbers: `Song.duration`, `Album.year` and `Playlist.songCount` (types.ts:13, types.ts:22, types.ts:28) are whole numbers (`int`), where JavaScript allows any number, fractions and NaN included.
