/** The header title: the active tab's name with its first character upper
    case and the rest lower case, so HOME reads "Home". Case mapping covers
    ASCII letters only. */
module Title {
  import opened Types

  predicate IsUpper(c: char) { 'A' <= c <= 'Z' }
  predicate IsLower(c: char) { 'a' <= c <= 'z' }

  function ToUpper(c: char): (r: char)
    ensures !IsLower(r)
  {
    if IsLower(c) then (c as int - 32) as char else c
  }

  function ToLower(c: char): (r: char)
    ensures !IsUpper(r)
  {
    if IsUpper(c) then (c as int + 32) as char else c
  }

  /** `s.toLowerCase()`, over ASCII. */
  function LowerCase(s: string): (r: string)
    ensures |r| == |s|
    ensures forall i :: 0 <= i < |r| ==> !IsUpper(r[i])
    ensures SameIgnoringCase(r, s)
  {
    seq(|s|, i requires 0 <= i < |s| => ToLower(s[i]))
  }

  /** Two strings that differ at most in the case of their letters. */
  predicate SameIgnoringCase(s: string, t: string) {
    |s| == |t| && forall i :: 0 <= i < |s| ==> ToLower(s[i]) == ToLower(t[i])
  }

  /** Capitalised: no lower-case letter first, no upper-case letter after. */
  predicate IsCapitalized(s: string) {
    (|s| > 0 ==> !IsLower(s[0])) && forall i :: 1 <= i < |s| ==> !IsUpper(s[i])
  }

  /** `s.charAt(0).toUpperCase() + s.slice(1).toLowerCase()`; on the empty
      string both parts are empty. */
  function Capitalize(s: string): (r: string)
    ensures IsCapitalized(r)
    ensures SameIgnoringCase(r, s)
  {
    if |s| == 0 then "" else [ToUpper(s[0])] + LowerCase(s[1..])
  }

  lemma CaseCharsAgree(a: char, b: char)
    requires ToLower(a) == ToLower(b)
    requires (!IsUpper(a) && !IsUpper(b)) || (!IsLower(a) && !IsLower(b))
    ensures a == b
  {
  }

  /** The capitalised form is the only capitalised string that differs from
      the input at most in letter case. */
  lemma CapitalizeUnique(s: string, t: string)
    requires IsCapitalized(t) && SameIgnoringCase(t, s)
    ensures t == Capitalize(s)
  {
    var r := Capitalize(s);
    forall i | 0 <= i < |t|
      ensures t[i] == r[i]
    {
      CaseCharsAgree(t[i], r[i]);
    }
  }

  /** The title shown in the header for a tab. */
  function HeaderTitle(tab: ViewState): (r: string)
    ensures IsCapitalized(r) && SameIgnoringCase(r, tab.Name())
  {
    Capitalize(tab.Name())
  }

  lemma HeaderTitles()
    ensures HeaderTitle(HOME) == "Home"
    ensures HeaderTitle(PLAYLISTS) == "Playlists"
    ensures HeaderTitle(ALBUMS) == "Albums"
    ensures HeaderTitle(SONGS) == "Songs"
  {
    CapitalizeUnique("HOME", "Home");
    CapitalizeUnique("PLAYLISTS", "Playlists");
    CapitalizeUnique("ALBUMS", "Albums");
    CapitalizeUnique("SONGS", "Songs");
  }
}
