/**
 * The library screen's state (LibraryViewModel.kt): the song list filtered
 * by a case-insensitive search over title, artist and album, sorted stably
 * by the chosen key, the loading flag, and the playback commands the screen
 * sends to the service connection.
 */
module Library {
  import opened Wrappers
  import opened Songs

  datatype SortOption = Title | Artist | Album | Duration

  // ---------------------------------------------------------------- text

  /** `lowercase()` on one character; only the ASCII letters are modelled. */
  function LowerChar(c: char): char {
    if 'A' <= c <= 'Z' then (c as int + 32) as char else c
  }

  function Lower(s: string): string {
    seq(|s|, i requires 0 <= i < |s| => LowerChar(s[i]))
  }

  /** `Char.isWhitespace` on the ASCII range: tab to carriage return, the four separators, space. */
  predicate IsWhitespace(c: char) {
    '\t' <= c <= '\r' || '\U{1C}' <= c <= ' '
  }

  /** `isBlank()`: empty or only whitespace. */
  predicate IsBlank(s: string) {
    forall i :: 0 <= i < |s| ==> IsWhitespace(s[i])
  }

  predicate OccursAt(s: string, sub: string, i: nat) {
    i + |sub| <= |s| && s[i..i + |sub|] == sub
  }

  /** `sub` appears somewhere in `s` (the empty string appears everywhere). */
  ghost predicate IsSubstring(sub: string, s: string) {
    exists i: nat :: OccursAt(s, sub, i)
  }

  /** `indexOf(sub, from)`: the first position at or after `from` where `sub` occurs, or -1. */
  function IndexOf(s: string, sub: string, from: nat): (r: int)
    ensures r == -1 || (from <= r && OccursAt(s, sub, r))
    ensures r == -1 <==> forall i: nat :: from <= i ==> !OccursAt(s, sub, i)
    ensures r != -1 ==> forall i: nat :: from <= i < r ==> !OccursAt(s, sub, i)
    decreases |s| - from
  {
    if from + |sub| > |s| then -1
    else if s[from..from + |sub|] == sub then from
    else IndexOf(s, sub, from + 1)
  }

  /** `contains`, as the search runs it: `indexOf(sub) >= 0`. */
  predicate Contains(s: string, sub: string) {
    IndexOf(s, sub, 0) >= 0
  }

  lemma ContainsIsSubstring(s: string, sub: string)
    ensures Contains(s, sub) <==> IsSubstring(sub, s)
  {
    if IsSubstring(sub, s) {
      var i: nat :| OccursAt(s, sub, i);
    }
  }

  // ---------------------------------------------------------------- search

  /** A blank query matches every song; otherwise the lowercased query must occur in a lowercased field. */
  predicate MatchesSearch(song: Song, query: string) {
    if IsBlank(query) then true
    else
      var q := Lower(query);
      Contains(Lower(song.title), q) || Contains(Lower(song.artist), q) || Contains(Lower(song.album), q)
  }

  lemma MatchesSearchMeaning(song: Song, query: string)
    ensures MatchesSearch(song, query) <==>
      IsBlank(query)
      || IsSubstring(Lower(query), Lower(song.title))
      || IsSubstring(Lower(query), Lower(song.artist))
      || IsSubstring(Lower(query), Lower(song.album))
  {
    ContainsIsSubstring(Lower(song.title), Lower(query));
    ContainsIsSubstring(Lower(song.artist), Lower(query));
    ContainsIsSubstring(Lower(song.album), Lower(query));
  }

  /** `filter { matchesSearch(it, query) }`, keeping the list order. */
  function FilterMatching(songs: seq<Song>, query: string): seq<Song> {
    if songs == [] then []
    else (if MatchesSearch(songs[0], query) then [songs[0]] else []) + FilterMatching(songs[1..], query)
  }

  /** The filter keeps exactly the matching songs, each as often as it occurs. */
  lemma {:induction false} FilterMatchingCounts(songs: seq<Song>, query: string, x: Song)
    ensures multiset(FilterMatching(songs, query))[x] == if MatchesSearch(x, query) then multiset(songs)[x] else 0
  {
    if songs != [] {
      FilterMatchingCounts(songs[1..], query, x);
      assert songs == [songs[0]] + songs[1..];
    }
  }

  // ---------------------------------------------------------------- ordering

  /** `String.CASE_INSENSITIVE_ORDER` as a sign: character by character, then shorter first. */
  function CompareIgnoreCase(a: string, b: string): (r: int)
    ensures -1 <= r <= 1
  {
    if a == [] && b == [] then 0
    else if a == [] then -1
    else if b == [] then 1
    else if LowerChar(a[0]) < LowerChar(b[0]) then -1
    else if LowerChar(a[0]) > LowerChar(b[0]) then 1
    else CompareIgnoreCase(a[1..], b[1..])
  }

  /** Two strings compare equal exactly when their lowercase forms are equal. */
  lemma {:induction false} CompareIgnoreCaseZero(a: string, b: string)
    ensures CompareIgnoreCase(a, b) == 0 <==> Lower(a) == Lower(b)
  {
    if a != [] && b != [] {
      CompareIgnoreCaseZero(a[1..], b[1..]);
      assert Lower(a) == [LowerChar(a[0])] + Lower(a[1..]);
      assert Lower(b) == [LowerChar(b[0])] + Lower(b[1..]);
      assert Lower(a)[0] == LowerChar(a[0]) && Lower(b)[0] == LowerChar(b[0]);
      assert Lower(a)[1..] == Lower(a[1..]) && Lower(b)[1..] == Lower(b[1..]);
    }
  }

  lemma {:induction false} CompareIgnoreCaseAntisymmetric(a: string, b: string)
    ensures CompareIgnoreCase(a, b) == -CompareIgnoreCase(b, a)
  {
    if a != [] && b != [] {
      CompareIgnoreCaseAntisymmetric(a[1..], b[1..]);
    }
  }

  lemma {:induction false} CompareIgnoreCaseTransitive(a: string, b: string, c: string)
    requires CompareIgnoreCase(a, b) <= 0 && CompareIgnoreCase(b, c) <= 0
    ensures CompareIgnoreCase(a, c) <= 0
  {
    if a != [] && b != [] && c != [] && LowerChar(a[0]) == LowerChar(b[0]) == LowerChar(c[0]) {
      CompareIgnoreCaseTransitive(a[1..], b[1..], c[1..]);
    }
  }

  /** The comparator `getSortComparator` builds for each option, as a sign. */
  function Compare(option: SortOption, a: Song, b: Song): (r: int)
    ensures -1 <= r <= 1
  {
    match option
    case Title => CompareIgnoreCase(a.title, b.title)
    case Artist => CompareIgnoreCase(a.artist, b.artist)
    case Album => CompareIgnoreCase(a.album, b.album)
    case Duration => if a.duration < b.duration then -1 else if a.duration > b.duration then 1 else 0
  }

  /** Every comparator is a total preorder: swapping the arguments negates it, and `<=` is transitive. */
  lemma CompareIsTotalPreorder(option: SortOption, a: Song, b: Song, c: Song)
    ensures Compare(option, a, b) == -Compare(option, b, a)
    ensures Compare(option, a, b) <= 0 && Compare(option, b, c) <= 0 ==> Compare(option, a, c) <= 0
  {
    match option
    case Title =>
      CompareIgnoreCaseAntisymmetric(a.title, b.title);
      if CompareIgnoreCase(a.title, b.title) <= 0 && CompareIgnoreCase(b.title, c.title) <= 0 {
        CompareIgnoreCaseTransitive(a.title, b.title, c.title);
      }
    case Artist =>
      CompareIgnoreCaseAntisymmetric(a.artist, b.artist);
      if CompareIgnoreCase(a.artist, b.artist) <= 0 && CompareIgnoreCase(b.artist, c.artist) <= 0 {
        CompareIgnoreCaseTransitive(a.artist, b.artist, c.artist);
      }
    case Album =>
      CompareIgnoreCaseAntisymmetric(a.album, b.album);
      if CompareIgnoreCase(a.album, b.album) <= 0 && CompareIgnoreCase(b.album, c.album) <= 0 {
        CompareIgnoreCaseTransitive(a.album, b.album, c.album);
      }
    case Duration =>
  }

  /** The key each option compares on: the lowercased field, or the duration. */
  lemma CompareZeroMeansSameKey(option: SortOption, a: Song, b: Song)
    ensures Compare(option, a, b) == 0 <==>
      match option
      case Title => Lower(a.title) == Lower(b.title)
      case Artist => Lower(a.artist) == Lower(b.artist)
      case Album => Lower(a.album) == Lower(b.album)
      case Duration => a.duration == b.duration
  {
    CompareIgnoreCaseZero(a.title, b.title);
    CompareIgnoreCaseZero(a.artist, b.artist);
    CompareIgnoreCaseZero(a.album, b.album);
  }

  // ---------------------------------------------------------------- sorting

  predicate Sorted(option: SortOption, s: seq<Song>) {
    forall i, j :: 0 <= i < j < |s| ==> Compare(option, s[i], s[j]) <= 0
  }

  /** Inserts `x` before the first element not smaller than it. */
  function Insert(option: SortOption, x: Song, s: seq<Song>): seq<Song> {
    if s == [] then [x]
    else if Compare(option, x, s[0]) <= 0 then [x] + s
    else [s[0]] + Insert(option, x, s[1..])
  }

  /** `sortedWith(comparator)`: an insertion sort, which is stable like the library's merge sort. */
  function Sort(option: SortOption, s: seq<Song>): seq<Song> {
    if s == [] then [] else Insert(option, s[0], Sort(option, s[1..]))
  }

  /** The songs of `s` whose key equals the key of `k`, in order. */
  function SameKey(option: SortOption, s: seq<Song>, k: Song): seq<Song> {
    if s == [] then []
    else (if Compare(option, s[0], k) == 0 then [s[0]] else []) + SameKey(option, s[1..], k)
  }

  lemma {:induction false} InsertCounts(option: SortOption, x: Song, s: seq<Song>)
    ensures multiset(Insert(option, x, s)) == multiset(s) + multiset{x}
  {
    if s != [] && Compare(option, x, s[0]) > 0 {
      InsertCounts(option, x, s[1..]);
      assert s == [s[0]] + s[1..];
    }
  }

  lemma {:induction false} InsertSorted(option: SortOption, x: Song, s: seq<Song>)
    requires Sorted(option, s)
    ensures Sorted(option, Insert(option, x, s))
  {
    if s == [] {
    } else if Compare(option, x, s[0]) <= 0 {
      forall j | 0 <= j < |s|
        ensures Compare(option, x, s[j]) <= 0
      {
        CompareIsTotalPreorder(option, x, s[0], s[j]);
      }
      SortedCons(option, x, s);
    } else {
      var rest := Insert(option, x, s[1..]);
      assert Sorted(option, s[1..]);
      InsertSorted(option, x, s[1..]);
      InsertCounts(option, x, s[1..]);
      CompareIsTotalPreorder(option, x, s[0], x);
      forall j | 0 <= j < |rest|
        ensures Compare(option, s[0], rest[j]) <= 0
      {
        assert rest[j] in multiset(rest);
        if rest[j] != x {
          assert rest[j] in s[1..];
        }
      }
      SortedCons(option, s[0], rest);
    }
  }

  lemma SortedCons(option: SortOption, h: Song, r: seq<Song>)
    requires Sorted(option, r)
    requires forall j :: 0 <= j < |r| ==> Compare(option, h, r[j]) <= 0
    ensures Sorted(option, [h] + r)
  {
  }

  /** Inserting adds `x` at the end of its key's run and leaves the other runs alone. */
  lemma {:induction false} InsertSameKey(option: SortOption, x: Song, s: seq<Song>, k: Song)
    ensures SameKey(option, Insert(option, x, s), k)
      == (if Compare(option, x, k) == 0 then [x] else []) + SameKey(option, s, k)
  {
    if s == [] {
      assert SameKey(option, [x], k) == (if Compare(option, x, k) == 0 then [x] else []) + SameKey(option, [], k);
    } else if Compare(option, x, s[0]) <= 0 {
      assert ([x] + s)[1..] == s;
    } else {
      var rest := Insert(option, x, s[1..]);
      InsertSameKey(option, x, s[1..], k);
      assert ([s[0]] + rest)[0] == s[0] && ([s[0]] + rest)[1..] == rest;
      CompareIsTotalPreorder(option, x, k, s[0]);
      CompareIsTotalPreorder(option, k, s[0], x);
      var ox := if Compare(option, x, k) == 0 then [x] else [];
      var o0 := if Compare(option, s[0], k) == 0 then [s[0]] else [];
      assert SameKey(option, [s[0]] + rest, k) == o0 + (ox + SameKey(option, s[1..], k));
      assert SameKey(option, s, k) == o0 + SameKey(option, s[1..], k);
      assert ox == [] || o0 == [];
      SwapEmpty(o0, ox, SameKey(option, s[1..], k));
    }
  }

  lemma SwapEmpty(a: seq<Song>, b: seq<Song>, c: seq<Song>)
    requires a == [] || b == []
    ensures a + (b + c) == b + (a + c)
  {
  }

  /**
   * The sort returns a sorted permutation of its input in which songs with
   * equal keys keep their input order.
   */
  lemma {:induction false} SortCorrect(option: SortOption, s: seq<Song>)
    ensures Sorted(option, Sort(option, s))
    ensures multiset(Sort(option, s)) == multiset(s)
    ensures forall k :: SameKey(option, Sort(option, s), k) == SameKey(option, s, k)
  {
    if s != [] {
      SortCorrect(option, s[1..]);
      InsertSorted(option, s[0], Sort(option, s[1..]));
      InsertCounts(option, s[0], Sort(option, s[1..]));
      assert s == [s[0]] + s[1..];
      forall k
        ensures SameKey(option, Sort(option, s), k) == SameKey(option, s, k)
      {
        InsertSameKey(option, s[0], Sort(option, s[1..]), k);
      }
    }
  }

  // ---------------------------------------------------------------- screen state

  datatype LibraryUiState = LibraryUiState(
    songs: seq<Song>,
    isLoading: bool,
    searchQuery: string,
    sortOption: SortOption,
    error: Option<string>)

  /** The state shown before the first combination: loading, no songs, no query, by title. */
  const InitialUiState: LibraryUiState := LibraryUiState([], true, "", Title, None)

  /** The `combine` of the repository's songs with the query, the sort option and the loading flag. */
  function Combine(allSongs: seq<Song>, query: string, option: SortOption, loading: bool): LibraryUiState {
    LibraryUiState(Sort(option, FilterMatching(allSongs, query)), loading && allSongs == [], query, option, None)
  }

  /**
   * The shown list holds exactly the matching songs, each as often as in
   * the library, sorted by the option with ties in library order; the
   * spinner shows only while loading an empty library.
   */
  lemma CombineCorrect(allSongs: seq<Song>, query: string, option: SortOption, loading: bool)
    ensures var ui := Combine(allSongs, query, option, loading);
      && Sorted(option, ui.songs)
      && (forall x :: multiset(ui.songs)[x] == if MatchesSearch(x, query) then multiset(allSongs)[x] else 0)
      && (forall k :: SameKey(option, ui.songs, k) == SameKey(option, FilterMatching(allSongs, query), k))
      && (ui.isLoading <==> loading && allSongs == [])
      && ui.searchQuery == query && ui.sortOption == option && ui.error == None
  {
    SortCorrect(option, FilterMatching(allSongs, query));
    forall x
      ensures multiset(Combine(allSongs, query, option, loading).songs)[x]
        == if MatchesSearch(x, query) then multiset(allSongs)[x] else 0
    {
      FilterMatchingCounts(allSongs, query, x);
    }
  }

  // ---------------------------------------------------------------- commands

  /** A call the screen makes on the service connection. */
  datatype ServiceCall = PlayAllCall(songs: seq<Song>, startIndex: int) | PlayCall(song: Song) | AddToQueueCall(song: Song) | NoCall

  /** `indexOf`: the first position of `x`, or -1. */
  function IndexOfSong(songs: seq<Song>, x: Song): (r: int)
    ensures -1 <= r < |songs|
    ensures 0 <= r ==> songs[r] == x && x !in songs[..r]
    ensures r == -1 <==> x !in songs
  {
    if songs == [] then -1
    else if songs[0] == x then 0
    else
      var k := IndexOfSong(songs[1..], x);
      assert k >= 0 ==> songs[..k + 1] == [songs[0]] + songs[1..][..k];
      if k < 0 then -1 else k + 1
  }

  /**
   * A song in the shown list starts the whole list at its first occurrence;
   * any other song is played on its own.
   */
  function PlaySong(currentSongs: seq<Song>, song: Song): (c: ServiceCall)
    ensures c.PlayAllCall? <==> song in currentSongs
    ensures c.PlayAllCall? ==>
      && c.songs == currentSongs && 0 <= c.startIndex < |currentSongs|
      && currentSongs[c.startIndex] == song && song !in currentSongs[..c.startIndex]
    ensures !c.PlayAllCall? ==> c == PlayCall(song)
  {
    var index := IndexOfSong(currentSongs, song);
    if index >= 0 then PlayAllCall(currentSongs, index) else PlayCall(song)
  }

  /** Playing all of an empty list sends nothing. */
  function PlayAll(currentSongs: seq<Song>, startIndex: int): (c: ServiceCall)
    ensures c == NoCall <==> currentSongs == []
    ensures c != NoCall ==> c.PlayAllCall? && c.songs == currentSongs && c.startIndex == startIndex
  {
    if currentSongs != [] then PlayAllCall(currentSongs, startIndex) else NoCall
  }

  function AddToQueue(song: Song): ServiceCall {
    AddToQueueCall(song)
  }

  class LibraryViewModel {
    var searchQuery: string
    var sortOption: SortOption
    var isLoading: bool
    /** Every value the loading flag has been set to, oldest first. */
    ghost var loadingLog: seq<bool>

    /** Starts with no query, sorted by title, loading. */
    constructor ()
      ensures searchQuery == "" && sortOption == Title && isLoading
      ensures loadingLog == [true]
    {
      searchQuery := "";
      sortOption := Title;
      isLoading := true;
      loadingLog := [true];
    }

    /** The screen state for the repository's current songs. */
    function UiState(allSongs: seq<Song>): LibraryUiState
      reads this
    {
      Combine(allSongs, searchQuery, sortOption, isLoading)
    }

    method SetSearchQuery(query: string)
      modifies this
      ensures searchQuery == query
      ensures sortOption == old(sortOption) && isLoading == old(isLoading) && loadingLog == old(loadingLog)
    {
      searchQuery := query;
    }

    method SetSortOption(option: SortOption)
      modifies this
      ensures sortOption == option
      ensures searchQuery == old(searchQuery) && isLoading == old(isLoading) && loadingLog == old(loadingLog)
    {
      sortOption := option;
    }

    /**
     * Raises the loading flag, runs the repository refresh (whose failure is
     * the parameter `refreshThrows`) and lowers the flag again whether or not
     * the refresh threw; the failure is passed on.
     */
    method RefreshLibrary(refreshThrows: bool) returns (thrown: bool)
      modifies this
      ensures !isLoading && loadingLog == old(loadingLog) + [true, false]
      ensures thrown == refreshThrows
      ensures searchQuery == old(searchQuery) && sortOption == old(sortOption)
    {
      isLoading := true;
      loadingLog := loadingLog + [true];
      thrown := refreshThrows;
      isLoading := false;
      loadingLog := loadingLog + [false];
    }
  }
}
