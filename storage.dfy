/** The persistent store: a key-value map standing for `localStorage`, with
    every key of this application under the `mymusic_` prefix, and the typed
    collections kept in it (library, playlists, favourites, settings,
    playback state, search history, statistics). JSON encoding is the
    identity: a stored value is read back unchanged. */
module Storage {
  import opened Common
  import opened Seqs
  import opened Strings
  import opened Model

  type Store = map<string, Value>

  const Prefix: string := "mymusic_"

  function Key(k: string): string {
    Prefix + k
  }

  lemma KeyInjective(a: string, b: string)
    ensures Key(a) == Key(b) <==> a == b
  {
    if Key(a) == Key(b) {
      assert a == Key(a)[|Prefix|..];
      assert b == Key(b)[|Prefix|..];
    }
  }

  /** `get(k)`: the stored value, `null` when the key is absent. */
  function Lookup(st: Store, k: string): Value {
    if Key(k) in st then st[Key(k)] else VNull
  }

  /** `set(k, v)`. */
  function Put(st: Store, k: string, v: Value): Store {
    st[Key(k) := v]
  }

  /** Reading a key after writing it gives the written value; every other
      key reads as before. */
  lemma LookupPut(st: Store, k: string, v: Value, k2: string)
    ensures Lookup(Put(st, k, v), k2) == if k2 == k then v else Lookup(st, k2)
  {
    KeyInjective(k, k2);
  }

  // ---------------------------------------------------------------------
  // Defaults and the typed views
  // ---------------------------------------------------------------------

  function DefaultSettings(): map<string, Value> {
    map["theme" := VStr("dark"), "volume" := VNum(0.5), "autoPlayNext" := VBool(true),
        "shuffle" := VBool(false), "repeat" := VStr("none"), "crossfade" := VBool(true),
        "lastFm" := VBool(false), "notifications" := VBool(true), "equalizer" := VStr("normal")]
  }

  function DefaultPlaybackState(): map<string, Value> {
    map["currentSong" := VNull, "currentTime" := VNum(0.0), "isPlaying" := VBool(false),
        "queue" := VSongs([]), "currentIndex" := VNum(-1.0), "history" := VStrings([])]
  }

  function DefaultStats(): map<string, Value> {
    map["totalPlayTime" := VNum(0.0), "songsPlayed" := VNum(0.0), "favoriteGenre" := VNull,
        "favoriteArtist" := VNull, "lastPlayed" := VNull]
  }

  /** The own keys of a value spread with `...`: an object's fields, nothing otherwise. */
  function Spread(v: Value): map<string, Value> {
    if v.VObject? then v.fields else map[]
  }

  /** `getLibrary()`. */
  function LibraryOf(st: Store): seq<Song> {
    var v := Lookup(st, "library");
    if v.VSongs? then v.songs else []
  }

  /** `getPlaylists()`. */
  function PlaylistsOf(st: Store): seq<Playlist> {
    var v := Lookup(st, "playlists");
    if v.VPlaylists? then v.playlists else []
  }

  /** `getFavorites()`. */
  function FavoritesOf(st: Store): seq<string> {
    var v := Lookup(st, "favorites");
    if v.VStrings? then v.items else []
  }

  /** `getSearchHistory()`. */
  function SearchHistoryOf(st: Store): seq<string> {
    var v := Lookup(st, "searchHistory");
    if v.VStrings? then v.items else []
  }

  /** `getSettings()`: the defaults overridden by the stored keys. */
  function SettingsOf(st: Store): map<string, Value> {
    DefaultSettings() + Spread(Lookup(st, "settings"))
  }

  /** `getSetting(k)`; `None` is `undefined`. */
  function SettingOf(st: Store, k: string): Option<Value> {
    Field(SettingsOf(st), k)
  }

  /** `getPlaybackState()`: the defaults overridden by the stored keys. */
  function PlaybackStateOf(st: Store): map<string, Value> {
    DefaultPlaybackState() + Spread(Lookup(st, "playbackState"))
  }

  /** `getStats()`: the stored object, or the default one when nothing is
      stored; the two are not merged. */
  function StatsOf(st: Store): map<string, Value> {
    var v := Lookup(st, "stats");
    if v.VObject? then v.fields else DefaultStats()
  }

  /** Settings always carry every default key, and a stored key wins over its default. */
  lemma SettingsComplete(st: Store, k: string)
    ensures k in DefaultSettings() ==> k in SettingsOf(st)
    ensures k in Spread(Lookup(st, "settings")) ==> SettingOf(st, k) == Some(Spread(Lookup(st, "settings"))[k])
    ensures k !in Spread(Lookup(st, "settings")) ==> SettingOf(st, k) == Field(DefaultSettings(), k)
  {
  }

  // ---------------------------------------------------------------------
  // init
  // ---------------------------------------------------------------------

  const InitKeyList: seq<string> := ["library", "playlists", "favorites", "settings", "playbackState"]

  function InitDefault(k: string): Value {
    if k == "library" then VSongs([])
    else if k == "playlists" then VPlaylists([])
    else if k == "favorites" then VStrings([])
    else if k == "settings" then VObject(DefaultSettings())
    else VObject(DefaultPlaybackState())
  }

  /** `if (!this.get(k)) this.set(k, default)`. */
  function InitKey(st: Store, k: string): Store {
    if Truthy(Lookup(st, k)) then st else Put(st, k, InitDefault(k))
  }

  /** `init()` on the given keys, in order. */
  function InitKeys(st: Store, keys: seq<string>): Store {
    if keys == [] then st else InitKey(InitKeys(st, keys[..|keys| - 1]), keys[|keys| - 1])
  }

  /** What `init()` leaves in the store. */
  function InitStore(st: Store): Store {
    InitKeys(st, InitKeyList)
  }

  lemma InitKeyLookup(st: Store, k: string, k2: string)
    ensures Lookup(InitKey(st, k), k2) ==
            if k2 == k && !Truthy(Lookup(st, k)) then InitDefault(k) else Lookup(st, k2)
  {
    LookupPut(st, k, InitDefault(k), k2);
  }

  /** `init` replaces exactly the falsy (absent, `null`, ...) entries among its
      keys by their defaults and leaves every other key as it was. */
  lemma {:induction false} InitKeysLookup(st: Store, keys: seq<string>, k: string)
    requires Distinct(keys)
    ensures Lookup(InitKeys(st, keys), k) ==
            if k in keys && !Truthy(Lookup(st, k)) then InitDefault(k) else Lookup(st, k)
  {
    if keys != [] {
      var front := keys[..|keys| - 1];
      assert Distinct(front);
      InitKeysLookup(st, front, k);
      InitKeyLookup(InitKeys(st, front), keys[|keys| - 1], k);
      assert keys == front + [keys[|keys| - 1]];
    }
  }

  lemma InitStoreLookup(st: Store, k: string)
    ensures Lookup(InitStore(st), k) ==
            if k in InitKeyList && !Truthy(Lookup(st, k)) then InitDefault(k) else Lookup(st, k)
  {
    InitKeysLookup(st, InitKeyList, k);
  }

  /** Running `init` a second time changes nothing. */
  lemma InitStoreIdempotent(st: Store, k: string)
    ensures Lookup(InitStore(InitStore(st)), k) == Lookup(InitStore(st), k)
    ensures k in InitKeyList ==> Truthy(Lookup(InitStore(st), k))
  {
    InitStoreLookup(st, k);
    InitStoreLookup(InitStore(st), k);
  }

  /** Writing one key leaves the collections kept under the other keys as they were. */
  lemma ViewsAfterPut(st: Store, k: string, v: Value)
    ensures k != "library" ==> LibraryOf(Put(st, k, v)) == LibraryOf(st)
    ensures k != "playlists" ==> PlaylistsOf(Put(st, k, v)) == PlaylistsOf(st)
    ensures k != "favorites" ==> FavoritesOf(Put(st, k, v)) == FavoritesOf(st)
    ensures k != "searchHistory" ==> SearchHistoryOf(Put(st, k, v)) == SearchHistoryOf(st)
    ensures k != "settings" ==> SettingsOf(Put(st, k, v)) == SettingsOf(st)
    ensures k != "playbackState" ==> PlaybackStateOf(Put(st, k, v)) == PlaybackStateOf(st)
    ensures k != "stats" ==> StatsOf(Put(st, k, v)) == StatsOf(st)
  {
    LookupPut(st, k, v, "library");
    LookupPut(st, k, v, "playlists");
    LookupPut(st, k, v, "favorites");
    LookupPut(st, k, v, "searchHistory");
    LookupPut(st, k, v, "settings");
    LookupPut(st, k, v, "playbackState");
    LookupPut(st, k, v, "stats");
  }

  /** `remove(k)`. */
  function Remove(st: Store, k: string): Store {
    st - {Key(k)}
  }

  lemma LookupRemove(st: Store, k: string, k2: string)
    ensures Lookup(Remove(st, k), k2) == if k2 == k then VNull else Lookup(st, k2)
  {
    KeyInjective(k, k2);
  }

  /** `clear()`: drops every key carrying the prefix and keeps the others. */
  function ClearStore(st: Store): Store {
    map x | x in st && !StartsWith(x, Prefix) :: st[x]
  }

  lemma ClearStoreSpec(st: Store, k: string, x: string)
    ensures Lookup(ClearStore(st), k) == VNull
    ensures !StartsWith(x, Prefix) ==> (x in ClearStore(st) <==> x in st)
    ensures x in ClearStore(st) ==> ClearStore(st)[x] == st[x]
  {
    assert Key(k)[..|Prefix|] == Prefix;
  }

  // ---------------------------------------------------------------------
  // Library
  // ---------------------------------------------------------------------

  function PathNotIn(paths: seq<string>): Song -> bool {
    (s: Song) => s.path !in paths
  }

  function PathIsNot(path: string): Song -> bool {
    (s: Song) => s.path != path
  }

  /** The songs of a batch that `addToLibrary` appends. */
  function NewSongs(library: seq<Song>, songs: seq<Song>): seq<Song> {
    Filter(songs, PathNotIn(Paths(library)))
  }

  /** Exactly the batch songs whose path the library lacks are appended, in
      batch order. */
  lemma NewSongsSpec(library: seq<Song>, songs: seq<Song>)
    ensures forall s :: s in NewSongs(library, songs) <==> s in songs && s.path !in Paths(library)
    ensures IsSubsequence(NewSongs(library, songs), songs)
  {
    forall s ensures s in NewSongs(library, songs) <==> s in songs && s.path !in Paths(library) {
      FilterMembership(songs, PathNotIn(Paths(library)), s);
    }
    FilterIsSubsequence(songs, PathNotIn(Paths(library)));
  }

  /** Two new songs with the same path in one batch are both appended. */
  lemma NewSongsKeepsBatchDuplicates(library: seq<Song>, s: Song)
    requires s.path !in Paths(library)
    ensures NewSongs(library, [s, s]) == [s, s]
  {
    var p := PathNotIn(Paths(library));
    assert p(s);
    assert [s, s][1..] == [s];
    assert Filter([s], p) == [s] + Filter([s][1..], p);
    assert Filter([s, s], p) == [s] + Filter([s, s][1..], p);
  }

  /** Adding the same batch again adds nothing. */
  lemma NewSongsAgain(library: seq<Song>, songs: seq<Song>)
    ensures NewSongs(library + NewSongs(library, songs), songs) == []
  {
    var added := NewSongs(library, songs);
    var after := library + added;
    assert Paths(after) == Paths(library) + Paths(added);
    var again := NewSongs(after, songs);
    if again != [] {
      FilterMembership(songs, PathNotIn(Paths(after)), again[0]);
      FilterMembership(songs, PathNotIn(Paths(library)), again[0]);
    }
  }

  /** The library without the songs at `path`. */
  function RemoveSong(library: seq<Song>, path: string): seq<Song> {
    Filter(library, PathIsNot(path))
  }

  /** Every song at `path` goes, every other song stays in order, and the
      length changes exactly when some song was at `path`. */
  lemma RemoveSongSpec(library: seq<Song>, path: string)
    ensures forall s :: s in RemoveSong(library, path) <==> s in library && s.path != path
    ensures |RemoveSong(library, path)| != |library| <==> exists i :: 0 <= i < |library| && library[i].path == path
    ensures IsSubsequence(RemoveSong(library, path), library)
  {
    forall s ensures s in RemoveSong(library, path) <==> s in library && s.path != path {
      FilterMembership(library, PathIsNot(path), s);
    }
    FilterSound(library, PathIsNot(path));
    FilterIsSubsequence(library, PathIsNot(path));
  }

  /** `updateSongInLibrary`'s new library: the first song at `path` merged
      with the update, or `None` when no song is there. */
  function UpdateSong(library: seq<Song>, path: string, u: SongUpdate): Option<seq<Song>> {
    match FirstIndex(library, PathIs(path))
    case None => None
    case Some(i) => Some(library[i := MergeSong(library[i], u)])
  }

  /** Only the first song at `path` changes, and it is merged with the update. */
  lemma UpdateSongSpec(library: seq<Song>, path: string, u: SongUpdate)
    ensures UpdateSong(library, path, u).None? <==> forall i :: 0 <= i < |library| ==> library[i].path != path
    ensures UpdateSong(library, path, u).Some? ==>
      var r := UpdateSong(library, path, u).value;
      |r| == |library| && Paths(r) == Paths(library) &&
      forall j :: 0 <= j < |library| ==>
        r[j] == if library[j].path == path && forall k :: 0 <= k < j ==> library[k].path != path
                then MergeSong(library[j], u) else library[j]
  {
  }

  // ---------------------------------------------------------------------
  // Playlists
  // ---------------------------------------------------------------------

  function IdIs(id: string): Playlist -> bool {
    (p: Playlist) => p.id == id
  }

  function IdIsNot(id: string): Playlist -> bool {
    (p: Playlist) => p.id != id
  }

  /** The playlists without those carrying `id`. */
  function RemovePlaylist(playlists: seq<Playlist>, id: string): seq<Playlist> {
    Filter(playlists, IdIsNot(id))
  }

  lemma RemovePlaylistSpec(playlists: seq<Playlist>, id: string)
    ensures forall p :: p in RemovePlaylist(playlists, id) <==> p in playlists && p.id != id
    ensures |RemovePlaylist(playlists, id)| != |playlists| <==> exists i :: 0 <= i < |playlists| && playlists[i].id == id
    ensures IsSubsequence(RemovePlaylist(playlists, id), playlists)
  {
    forall p ensures p in RemovePlaylist(playlists, id) <==> p in playlists && p.id != id {
      FilterMembership(playlists, IdIsNot(id), p);
    }
    FilterSound(playlists, IdIsNot(id));
    FilterIsSubsequence(playlists, IdIsNot(id));
  }

  /** `updatePlaylist`'s new list: the first playlist with `id` merged with
      the update and stamped `now`, or `None` when there is none. */
  function UpdatePlaylistById(playlists: seq<Playlist>, id: string, u: PlaylistUpdate, now: int): Option<seq<Playlist>> {
    match FirstIndex(playlists, IdIs(id))
    case None => None
    case Some(i) => Some(playlists[i := MergePlaylist(playlists[i], u, now)])
  }

  lemma UpdatePlaylistByIdSpec(playlists: seq<Playlist>, id: string, u: PlaylistUpdate, now: int)
    ensures UpdatePlaylistById(playlists, id, u, now).None? <==> forall i :: 0 <= i < |playlists| ==> playlists[i].id != id
    ensures UpdatePlaylistById(playlists, id, u, now).Some? ==>
      var r := UpdatePlaylistById(playlists, id, u, now).value;
      |r| == |playlists| &&
      forall j :: 0 <= j < |playlists| ==>
        r[j] == if playlists[j].id == id && forall k :: 0 <= k < j ==> playlists[k].id != id
                then MergePlaylist(playlists[j], u, now) else playlists[j]
  {
  }

  function NotIn(xs: seq<string>): string -> bool {
    (x: string) => x !in xs
  }

  function IsNot(x: string): string -> bool {
    (y: string) => y != x
  }

  /** The paths of a batch that `addToPlaylist` appends to `p`. */
  function NewPaths(p: Playlist, paths: seq<string>): seq<string> {
    Filter(paths, NotIn(p.songs))
  }

  /** Only paths the playlist lacks are appended, in batch order; a playlist
      and a batch without repeats give a playlist without repeats; adding the
      same batch again adds nothing. */
  lemma NewPathsSpec(p: Playlist, paths: seq<string>)
    ensures forall x :: x in NewPaths(p, paths) <==> x in paths && x !in p.songs
    ensures Distinct(p.songs) && Distinct(paths) ==> Distinct(p.songs + NewPaths(p, paths))
    ensures NewPaths(p.(songs := p.songs + NewPaths(p, paths)), paths) == []
  {
    var added := NewPaths(p, paths);
    forall x ensures x in added <==> x in paths && x !in p.songs {
      FilterMembership(paths, NotIn(p.songs), x);
    }
    if Distinct(p.songs) && Distinct(paths) {
      FilterDistinct(paths, NotIn(p.songs));
      var all := p.songs + added;
      forall i, j | 0 <= i < j < |all| ensures all[i] != all[j] {
        if i < |p.songs| <= j {
          assert all[j] in added;
        }
      }
    }
    var again := NewPaths(p.(songs := p.songs + added), paths);
    if again != [] {
      FilterMembership(paths, NotIn(p.songs + added), again[0]);
    }
  }

  /** The list without any occurrence of `x`. */
  function Without(xs: seq<string>, x: string): seq<string> {
    Filter(xs, IsNot(x))
  }

  lemma WithoutSpec(xs: seq<string>, x: string)
    ensures forall y :: y in Without(xs, x) <==> y in xs && y != x
    ensures |Without(xs, x)| != |xs| <==> x in xs
    ensures IsSubsequence(Without(xs, x), xs)
    ensures x !in xs ==> Without(xs, x) == xs
  {
    forall y ensures y in Without(xs, x) <==> y in xs && y != x {
      FilterMembership(xs, IsNot(x), y);
    }
    FilterSound(xs, IsNot(x));
    FilterIsSubsequence(xs, IsNot(x));
    if x !in xs {
      FilterAllKept(xs, IsNot(x));
    }
  }

  // ---------------------------------------------------------------------
  // Favourites
  // ---------------------------------------------------------------------

  /** `addToFavorites`: appended unless already present. */
  function AddFavorite(favorites: seq<string>, path: string): seq<string> {
    if path in favorites then favorites else favorites + [path]
  }

  datatype ToggleResult = Added | Removed | Error

  /** The favourites after `toggleFavorite`. */
  function ToggleFavorites(favorites: seq<string>, path: string): seq<string> {
    if path in favorites then Without(favorites, path) else AddFavorite(favorites, path)
  }

  /** Toggling flips membership, never creates a repeat, and toggling a
      non-favourite twice restores the list. */
  lemma ToggleFavoritesSpec(favorites: seq<string>, path: string)
    ensures path in ToggleFavorites(favorites, path) <==> path !in favorites
    ensures forall y :: y != path ==> (y in ToggleFavorites(favorites, path) <==> y in favorites)
    ensures Distinct(favorites) ==> Distinct(ToggleFavorites(favorites, path))
    ensures path !in favorites ==> ToggleFavorites(ToggleFavorites(favorites, path), path) == favorites
  {
    WithoutSpec(favorites, path);
    if path in favorites {
      if Distinct(favorites) {
        FilterDistinct(favorites, IsNot(path));
      }
    } else {
      FilterSnoc(favorites, path, IsNot(path));
      WithoutSpec(favorites + [path], path);
    }
  }

  // ---------------------------------------------------------------------
  // Settings, playback state, statistics
  // ---------------------------------------------------------------------

  /** `updateSettings(upd)`: the current settings overridden by `upd`, written back. */
  function WithSettings(st: Store, upd: map<string, Value>): Store {
    Put(st, "settings", VObject(SettingsOf(st) + upd))
  }

  /** After an update each updated key reads its new value and every other
      key reads as before; nothing but the settings changes. */
  lemma WithSettingsSpec(st: Store, upd: map<string, Value>, k: string)
    ensures SettingOf(WithSettings(st, upd), k) == if k in upd then Some(upd[k]) else SettingOf(st, k)
    ensures forall k2 :: k2 != "settings" ==> Lookup(WithSettings(st, upd), k2) == Lookup(st, k2)
  {
    LookupPut(st, "settings", VObject(SettingsOf(st) + upd), "settings");
    forall k2 | k2 != "settings" ensures Lookup(WithSettings(st, upd), k2) == Lookup(st, k2) {
      LookupPut(st, "settings", VObject(SettingsOf(st) + upd), k2);
    }
  }

  /** `setSetting(k, v)` then `getSetting(k)` gives `v`; other settings keep their values. */
  lemma SetSettingGet(st: Store, k: string, v: Value, k2: string)
    ensures SettingOf(WithSettings(st, map[k := v]), k2) == if k2 == k then Some(v) else SettingOf(st, k2)
  {
    WithSettingsSpec(st, map[k := v], k2);
  }

  /** `updatePlaybackState(upd)`. */
  function WithPlaybackState(st: Store, upd: map<string, Value>): Store {
    Put(st, "playbackState", VObject(PlaybackStateOf(st) + upd))
  }

  lemma WithPlaybackStateSpec(st: Store, upd: map<string, Value>, k: string)
    ensures Field(PlaybackStateOf(WithPlaybackState(st, upd)), k) ==
            if k in upd then Some(upd[k]) else Field(PlaybackStateOf(st), k)
  {
    LookupPut(st, "playbackState", VObject(PlaybackStateOf(st) + upd), "playbackState");
  }

  /** `updateStats(upd)`: the current statistics overridden by `upd`, written back. */
  function WithStats(st: Store, upd: map<string, Value>): Store {
    Put(st, "stats", VObject(StatsOf(st) + upd))
  }

  lemma WithStatsSpec(st: Store, upd: map<string, Value>, k: string)
    ensures Field(StatsOf(WithStats(st, upd)), k) == if k in upd then Some(upd[k]) else Field(StatsOf(st), k)
  {
    LookupPut(st, "stats", VObject(StatsOf(st) + upd), "stats");
  }

  /** The statistics object `incrementPlayCount` writes. */
  function PlayedStats(stats: map<string, Value>, now: int): map<string, Value> {
    stats["songsPlayed" := VNum(NumOrZero(stats, "songsPlayed") + 1.0)]["lastPlayed" := VNum(now as real)]
  }

  /** The update `incrementPlayCount` merges into the song at `path`. */
  function PlayedUpdate(library: seq<Song>, path: string, now: int): SongUpdate {
    var count := match FindSong(library, path) case Some(s) => s.playCount case None => 0;
    NoSongUpdate.(playCount := Some(count + 1), lastPlayed := Some(now))
  }

  /** What `incrementPlayCount(path)` leaves in the store at time `now`. */
  function IncrementPlayCountStore(st: Store, path: string, now: int): Store {
    var stats := PlayedStats(StatsOf(st), now);
    var st1 := match UpdateSong(LibraryOf(st), path, PlayedUpdate(LibraryOf(st), path, now))
      case Some(l) => Put(st, "library", VSongs(l))
      case None => st;
    WithStats(st1, stats)
  }

  /** One more song played, stamped `now`. */
  lemma IncrementPlayCountStats(st: Store, path: string, now: int)
    ensures NumOrZero(StatsOf(IncrementPlayCountStore(st, path, now)), "songsPlayed") == NumOrZero(StatsOf(st), "songsPlayed") + 1.0
    ensures Field(StatsOf(IncrementPlayCountStore(st, path, now)), "lastPlayed") == Some(VNum(now as real))
  {
    var lib := LibraryOf(st);
    var u := PlayedUpdate(lib, path, now);
    var st1 := match UpdateSong(lib, path, u) case Some(l) => Put(st, "library", VSongs(l)) case None => st;
    if UpdateSong(lib, path, u).Some? {
      LookupPut(st, "library", VSongs(UpdateSong(lib, path, u).value), "stats");
    }
    assert StatsOf(st1) == StatsOf(st);
    LookupPut(st1, "stats", VObject(StatsOf(st1) + PlayedStats(StatsOf(st), now)), "stats");
  }

  /** The first song at `path` gains one play and the stamp `now`; every other
      song is unchanged, and nothing changes when no song is at `path`. */
  lemma IncrementPlayCountLibrary(st: Store, path: string, now: int)
    ensures LibraryOf(IncrementPlayCountStore(st, path, now)) ==
      match FirstIndex(LibraryOf(st), PathIs(path))
      case None => LibraryOf(st)
      case Some(i) => LibraryOf(st)[i := LibraryOf(st)[i].(playCount := LibraryOf(st)[i].playCount + 1, lastPlayed := Some(now))]
  {
    var lib := LibraryOf(st);
    var u := PlayedUpdate(lib, path, now);
    var st1 := match UpdateSong(lib, path, u) case Some(l) => Put(st, "library", VSongs(l)) case None => st;
    match UpdateSong(lib, path, u) {
      case Some(l) => LookupPut(st, "library", VSongs(l), "library");
      case None =>
    }
    LookupPut(st1, "stats", VObject(StatsOf(st1) + PlayedStats(StatsOf(st), now)), "library");
  }

  /** What `addPlayTime(seconds)` leaves in the store. */
  function AddPlayTimeStore(st: Store, seconds: real): Store {
    var stats := StatsOf(st);
    WithStats(st, stats["totalPlayTime" := VNum(NumOrZero(stats, "totalPlayTime") + seconds)])
  }

  lemma AddPlayTimeSpec(st: Store, seconds: real)
    ensures NumOrZero(StatsOf(AddPlayTimeStore(st, seconds)), "totalPlayTime") == NumOrZero(StatsOf(st), "totalPlayTime") + seconds
  {
    var stats := StatsOf(st);
    LookupPut(st, "stats", VObject(stats + stats["totalPlayTime" := VNum(NumOrZero(stats, "totalPlayTime") + seconds)]), "stats");
  }

  // ---------------------------------------------------------------------
  // Search history
  // ---------------------------------------------------------------------

  const HistoryLimit: nat := 20

  /** The history after searching `q`: `q` in front, its older occurrences
      dropped, cut to the first twenty entries. */
  function PushHistory(history: seq<string>, q: string): (r: seq<string>) {
    var rest := Without(history, q);
    var n := if |rest| < HistoryLimit - 1 then |rest| else HistoryLimit - 1;
    [q] + rest[..n]
  }

  /** The query comes first and occurs once, at most twenty entries remain,
      the others keep their relative order, nothing else is dropped while
      there is room, and on overflow the entries kept are the most recent
      ones: the front of the history without `q`. */
  lemma PushHistorySpec(history: seq<string>, q: string)
    ensures |PushHistory(history, q)| <= HistoryLimit && PushHistory(history, q)[0] == q
    ensures forall i :: 1 <= i < |PushHistory(history, q)| ==> PushHistory(history, q)[i] != q
    ensures IsSubsequence(PushHistory(history, q)[1..], history)
    ensures |Without(history, q)| < HistoryLimit ==> PushHistory(history, q)[1..] == Without(history, q)
    ensures |PushHistory(history, q)| == if |Without(history, q)| < HistoryLimit then |Without(history, q)| + 1 else HistoryLimit
    ensures PushHistory(history, q)[1..] == Without(history, q)[..|PushHistory(history, q)| - 1]
  {
    var rest := Without(history, q);
    var r := PushHistory(history, q);
    var n := |r| - 1;
    assert r[1..] == rest[..n];
    FilterSound(history, IsNot(q));
    forall i | 1 <= i < |r| ensures r[i] != q {
      assert r[i] == rest[i - 1];
      assert IsNot(q)(rest[i - 1]);
    }
    InfixIsSubsequence(rest[..n], rest, 0);
    FilterIsSubsequence(history, IsNot(q));
    SubsequenceTrans(r[1..], rest, history);
  }

  /** Searching the same query twice in a row is the same as once. */
  lemma PushHistoryIdempotent(history: seq<string>, q: string)
    ensures PushHistory(PushHistory(history, q), q) == PushHistory(history, q)
  {
    var r := PushHistory(history, q);
    PushHistorySpec(history, q);
    assert r == [q] + r[1..];
    FilterConcat([q], r[1..], IsNot(q));
    assert Filter([q], IsNot(q)) == [];
    FilterAllKept(r[1..], IsNot(q));
  }

  // ---------------------------------------------------------------------
  // Export and import
  // ---------------------------------------------------------------------

  /** `exportData()` at time `now`. */
  function ExportData(st: Store, now: int): map<string, Value> {
    map["library" := VSongs(LibraryOf(st)), "playlists" := VPlaylists(PlaylistsOf(st)),
        "favorites" := VStrings(FavoritesOf(st)), "settings" := VObject(SettingsOf(st)),
        "stats" := VObject(StatsOf(st)), "exportTime" := VNum(now as real), "version" := VStr("1.0.0")]
  }

  predicate TruthyField(data: map<string, Value>, k: string) {
    k in data && Truthy(data[k])
  }

  /** `if (data.k) this.set(k, data.k)`. */
  function ImportCollection(st: Store, data: map<string, Value>, k: string): Store {
    if TruthyField(data, k) then Put(st, k, data[k]) else st
  }

  /** What `importData(data)` leaves in the store: each truthy collection
      replaces the stored one; settings and statistics are merged in. */
  function ImportStore(st: Store, data: map<string, Value>): Store {
    var s3 := ImportCollection(ImportCollection(ImportCollection(st, data, "library"), data, "playlists"), data, "favorites");
    var s4 := if TruthyField(data, "settings") then WithSettings(s3, Spread(data["settings"])) else s3;
    if TruthyField(data, "stats") then WithStats(s4, Spread(data["stats"])) else s4
  }

  lemma ImportCollectionLookup(st: Store, data: map<string, Value>, k: string, k2: string)
    ensures Lookup(ImportCollection(st, data, k), k2) == if k2 == k && TruthyField(data, k) then data[k] else Lookup(st, k2)
  {
    if TruthyField(data, k) {
      LookupPut(st, k, data[k], k2);
    }
  }

  /** Each key after an import: the imported collection, the merged settings
      or statistics, or what was stored before. */
  lemma ImportStoreLookup(st: Store, data: map<string, Value>, k: string)
    ensures Lookup(ImportStore(st, data), k) ==
      if (k == "library" || k == "playlists" || k == "favorites") && TruthyField(data, k) then data[k]
      else if k == "settings" && TruthyField(data, k) then VObject(SettingsOf(st) + Spread(data[k]))
      else if k == "stats" && TruthyField(data, k) then VObject(StatsOf(st) + Spread(data[k]))
      else Lookup(st, k)
  {
    var s1 := ImportCollection(st, data, "library");
    var s2 := ImportCollection(s1, data, "playlists");
    var s3 := ImportCollection(s2, data, "favorites");
    var s4 := if TruthyField(data, "settings") then WithSettings(s3, Spread(data["settings"])) else s3;
    forall k2 | k2 == k || k2 == "settings" || k2 == "stats"
      ensures Lookup(s3, k2) == if (k2 == "library" || k2 == "playlists" || k2 == "favorites") && TruthyField(data, k2) then data[k2] else Lookup(st, k2)
    {
      ImportCollectionLookup(st, data, "library", k2);
      ImportCollectionLookup(s1, data, "playlists", k2);
      ImportCollectionLookup(s2, data, "favorites", k2);
    }
    if TruthyField(data, "settings") {
      LookupPut(s3, "settings", VObject(SettingsOf(s3) + Spread(data["settings"])), k);
      LookupPut(s3, "settings", VObject(SettingsOf(s3) + Spread(data["settings"])), "stats");
    }
    if TruthyField(data, "stats") {
      LookupPut(s4, "stats", VObject(StatsOf(s4) + Spread(data["stats"])), k);
    }
  }

  /** Merging over a complete settings object makes the defaults irrelevant. */
  lemma SettingsAbsorbDefaults(st: Store, upd: map<string, Value>)
    ensures DefaultSettings() + (SettingsOf(st) + upd) == SettingsOf(st) + upd
  {
  }

  lemma StoredSettings(st: Store, m: map<string, Value>)
    requires Lookup(st, "settings") == VObject(m)
    ensures SettingsOf(st) == DefaultSettings() + m
  {
  }

  lemma ExportFields(st: Store, now: int)
    ensures var data := ExportData(st, now);
      TruthyField(data, "library") && data["library"] == VSongs(LibraryOf(st)) &&
      TruthyField(data, "playlists") && data["playlists"] == VPlaylists(PlaylistsOf(st)) &&
      TruthyField(data, "favorites") && data["favorites"] == VStrings(FavoritesOf(st)) &&
      TruthyField(data, "settings") && data["settings"] == VObject(SettingsOf(st)) &&
      TruthyField(data, "stats") && data["stats"] == VObject(StatsOf(st))
  {
  }

  /** Importing what was just exported leaves the library, playlists,
      favourites, search history and playback state as they were. */
  lemma ImportExportCollections(st: Store, now: int)
    ensures var after := ImportStore(st, ExportData(st, now));
      LibraryOf(after) == LibraryOf(st) && PlaylistsOf(after) == PlaylistsOf(st) &&
      FavoritesOf(after) == FavoritesOf(st) && SearchHistoryOf(after) == SearchHistoryOf(st) &&
      PlaybackStateOf(after) == PlaybackStateOf(st)
  {
    var data := ExportData(st, now);
    ExportFields(st, now);
    ImportStoreLookup(st, data, "library");
    ImportStoreLookup(st, data, "playlists");
    ImportStoreLookup(st, data, "favorites");
    ImportStoreLookup(st, data, "searchHistory");
    ImportStoreLookup(st, data, "playbackState");
  }

  /** Importing what was just exported leaves the settings and statistics as they were. */
  lemma ImportExportSettings(st: Store, now: int)
    ensures var after := ImportStore(st, ExportData(st, now));
      SettingsOf(after) == SettingsOf(st) && StatsOf(after) == StatsOf(st)
  {
    var data := ExportData(st, now);
    var after := ImportStore(st, data);
    ExportFields(st, now);
    ImportStoreLookup(st, data, "settings");
    ImportStoreLookup(st, data, "stats");
    assert SettingsOf(st) + SettingsOf(st) == SettingsOf(st);
    StoredSettings(after, SettingsOf(st) + SettingsOf(st));
    SettingsAbsorbDefaults(st, SettingsOf(st));
    assert StatsOf(st) + StatsOf(st) == StatsOf(st);
  }

  // ---------------------------------------------------------------------
  // The manager object
  // ---------------------------------------------------------------------

  /** `StorageManager`: every operation reads the collection it needs from
      `store`, computes the new value and writes it back. */
  class StorageManager {
    var store: Store

    /** `new StorageManager()` over the store found at start-up. */
    constructor(initial: Store)
      ensures store == InitStore(initial)
    {
      store := initial;
      new;
      Init();
    }

    method Init()
      modifies this
      ensures store == InitStore(old(store))
    {
      for i := 0 to |InitKeyList|
        invariant store == InitKeys(old(store), InitKeyList[..i])
      {
        assert InitKeyList[..i + 1][..i] == InitKeyList[..i];
        var k := InitKeyList[i];
        if !Truthy(Lookup(store, k)) {
          var _ := Set(k, InitDefault(k));
        }
      }
      assert InitKeyList[..|InitKeyList|] == InitKeyList;
    }

    /** `set(k, v)`; the store never refuses a write in this model. */
    method Set(k: string, v: Value) returns (ok: bool)
      modifies this
      ensures ok && store == Put(old(store), k, v)
    {
      store := Put(store, k, v);
      ok := true;
    }

    method RemoveKey(k: string) returns (ok: bool)
      modifies this
      ensures ok && store == Remove(old(store), k)
    {
      store := Remove(store, k);
      ok := true;
    }

    method Clear() returns (ok: bool)
      modifies this
      ensures ok && store == ClearStore(old(store))
    {
      store := ClearStore(store);
      ok := true;
    }

    method AddToLibrary(songs: seq<Song>) returns (added: nat)
      modifies this
      ensures added == |NewSongs(old(LibraryOf(store)), songs)|
      ensures store == if added > 0
        then Put(old(store), "library", VSongs(old(LibraryOf(store)) + NewSongs(old(LibraryOf(store)), songs)))
        else old(store)
    {
      var library := LibraryOf(store);
      var unique := NewSongs(library, songs);
      if |unique| > 0 {
        var _ := Set("library", VSongs(library + unique));
      }
      added := |unique|;
    }

    method RemoveFromLibrary(path: string) returns (removed: bool)
      modifies this
      ensures store == Put(old(store), "library", VSongs(RemoveSong(old(LibraryOf(store)), path)))
      ensures removed <==> |RemoveSong(old(LibraryOf(store)), path)| != |old(LibraryOf(store))|
    {
      var library := LibraryOf(store);
      var filtered := RemoveSong(library, path);
      var _ := Set("library", VSongs(filtered));
      removed := |library| != |filtered|;
    }

    method UpdateSongInLibrary(path: string, u: SongUpdate) returns (found: bool)
      modifies this
      ensures found <==> UpdateSong(old(LibraryOf(store)), path, u).Some?
      ensures store == if found
        then Put(old(store), "library", VSongs(UpdateSong(old(LibraryOf(store)), path, u).value))
        else old(store)
    {
      var library := LibraryOf(store);
      var index := FirstIndex(library, PathIs(path));
      found := index.Some?;
      if found {
        var i := index.value;
        var _ := Set("library", VSongs(library[i := MergeSong(library[i], u)]));
      }
    }

    /** `createPlaylist(name, description)` with the fresh id and the clock
        reading passed in. */
    method CreatePlaylist(name: string, description: string, id: string, now: int) returns (p: Playlist)
      modifies this
      ensures p == Playlist(id, name, description, [], now, now)
      ensures store == Put(old(store), "playlists", VPlaylists(old(PlaylistsOf(store)) + [p]))
    {
      var playlists := PlaylistsOf(store);
      p := Playlist(id, name, description, [], now, now);
      var _ := Set("playlists", VPlaylists(playlists + [p]));
    }

    method DeletePlaylist(id: string) returns (removed: bool)
      modifies this
      ensures store == Put(old(store), "playlists", VPlaylists(RemovePlaylist(old(PlaylistsOf(store)), id)))
      ensures removed <==> |RemovePlaylist(old(PlaylistsOf(store)), id)| != |old(PlaylistsOf(store))|
    {
      var playlists := PlaylistsOf(store);
      var filtered := RemovePlaylist(playlists, id);
      var _ := Set("playlists", VPlaylists(filtered));
      removed := |playlists| != |filtered|;
    }

    method UpdatePlaylist(id: string, u: PlaylistUpdate, now: int) returns (found: bool)
      modifies this
      ensures found <==> UpdatePlaylistById(old(PlaylistsOf(store)), id, u, now).Some?
      ensures store == if found
        then Put(old(store), "playlists", VPlaylists(UpdatePlaylistById(old(PlaylistsOf(store)), id, u, now).value))
        else old(store)
    {
      var playlists := PlaylistsOf(store);
      var index := FirstIndex(playlists, IdIs(id));
      found := index.Some?;
      if found {
        var i := index.value;
        var _ := Set("playlists", VPlaylists(playlists[i := MergePlaylist(playlists[i], u, now)]));
      }
    }

    method AddToPlaylist(id: string, paths: seq<string>, now: int) returns (added: nat)
      modifies this
      ensures old(FirstIndex(PlaylistsOf(store), IdIs(id))).None? ==> added == 0 && store == old(store)
      ensures old(FirstIndex(PlaylistsOf(store), IdIs(id))).Some? ==>
        var pls := old(PlaylistsOf(store));
        var i := old(FirstIndex(PlaylistsOf(store), IdIs(id))).value;
        var newPaths := NewPaths(pls[i], paths);
        added == |newPaths| &&
        store == if added > 0
          then Put(old(store), "playlists", VPlaylists(pls[i := pls[i].(songs := pls[i].songs + newPaths, updatedAt := now)]))
          else old(store)
    {
      var playlists := PlaylistsOf(store);
      var index := FirstIndex(playlists, IdIs(id));
      added := 0;
      if index.Some? {
        var i := index.value;
        var p := playlists[i];
        var newPaths := NewPaths(p, paths);
        if |newPaths| > 0 {
          var _ := Set("playlists", VPlaylists(playlists[i := p.(songs := p.songs + newPaths, updatedAt := now)]));
        }
        added := |newPaths|;
      }
    }

    method RemoveFromPlaylist(id: string, path: string, now: int) returns (removed: bool)
      modifies this
      ensures old(FirstIndex(PlaylistsOf(store), IdIs(id))).None? ==> !removed && store == old(store)
      ensures old(FirstIndex(PlaylistsOf(store), IdIs(id))).Some? ==>
        var pls := old(PlaylistsOf(store));
        var i := old(FirstIndex(PlaylistsOf(store), IdIs(id))).value;
        var kept := Without(pls[i].songs, path);
        (removed <==> |kept| != |pls[i].songs|) &&
        store == if removed
          then Put(old(store), "playlists", VPlaylists(pls[i := pls[i].(songs := kept, updatedAt := now)]))
          else old(store)
    {
      var playlists := PlaylistsOf(store);
      var index := FirstIndex(playlists, IdIs(id));
      removed := false;
      if index.Some? {
        var i := index.value;
        var p := playlists[i];
        var kept := Without(p.songs, path);
        if |kept| != |p.songs| {
          var _ := Set("playlists", VPlaylists(playlists[i := p.(songs := kept, updatedAt := now)]));
          removed := true;
        }
      }
    }

    method AddToFavorites(path: string) returns (added: bool)
      modifies this
      ensures added <==> path !in old(FavoritesOf(store))
      ensures store == if added then Put(old(store), "favorites", VStrings(AddFavorite(old(FavoritesOf(store)), path))) else old(store)
    {
      var favorites := FavoritesOf(store);
      added := path !in favorites;
      if added {
        var _ := Set("favorites", VStrings(favorites + [path]));
      }
    }

    method RemoveFromFavorites(path: string) returns (removed: bool)
      modifies this
      ensures removed <==> path in old(FavoritesOf(store))
      ensures store == Put(old(store), "favorites", VStrings(Without(old(FavoritesOf(store)), path)))
    {
      var favorites := FavoritesOf(store);
      var filtered := Without(favorites, path);
      var _ := Set("favorites", VStrings(filtered));
      WithoutSpec(favorites, path);
      removed := |favorites| != |filtered|;
    }

    method IsFavorite(path: string) returns (b: bool)
      ensures b <==> path in FavoritesOf(store)
    {
      b := path in FavoritesOf(store);
    }

    /** Never answers `Error`: the add or remove it delegates to always
        succeeds on the branch it is called from. */
    method ToggleFavorite(path: string) returns (r: ToggleResult)
      modifies this
      ensures r == if path in old(FavoritesOf(store)) then Removed else Added
      ensures store == Put(old(store), "favorites", VStrings(ToggleFavorites(old(FavoritesOf(store)), path)))
    {
      var fav := IsFavorite(path);
      if fav {
        var ok := RemoveFromFavorites(path);
        r := if ok then Removed else Error;
      } else {
        var ok := AddToFavorites(path);
        r := if ok then Added else Error;
      }
    }

    method UpdateSettings(upd: map<string, Value>) returns (ok: bool)
      modifies this
      ensures ok && store == WithSettings(old(store), upd)
    {
      var settings := SettingsOf(store);
      ok := Set("settings", VObject(settings + upd));
    }

    method SetSetting(k: string, v: Value) returns (ok: bool)
      modifies this
      ensures ok && store == WithSettings(old(store), map[k := v])
    {
      ok := UpdateSettings(map[k := v]);
    }

    method UpdatePlaybackState(upd: map<string, Value>) returns (ok: bool)
      modifies this
      ensures ok && store == WithPlaybackState(old(store), upd)
    {
      var state := PlaybackStateOf(store);
      ok := Set("playbackState", VObject(state + upd));
    }

    method AddToSearchHistory(q: string)
      modifies this
      ensures store == if Trim(q) == [] then old(store)
        else Put(old(store), "searchHistory", VStrings(PushHistory(old(SearchHistoryOf(store)), q)))
    {
      if Trim(q) == [] {
        return;
      }
      var history := SearchHistoryOf(store);
      var filtered := Without(history, q);
      filtered := [q] + filtered;
      var limited := filtered[..if |filtered| < HistoryLimit then |filtered| else HistoryLimit];
      assert limited == PushHistory(history, q);
      var _ := Set("searchHistory", VStrings(limited));
    }

    method ClearSearchHistory() returns (ok: bool)
      modifies this
      ensures ok && store == Put(old(store), "searchHistory", VStrings([]))
    {
      ok := Set("searchHistory", VStrings([]));
    }

    method UpdateStats(upd: map<string, Value>) returns (ok: bool)
      modifies this
      ensures ok && store == WithStats(old(store), upd)
    {
      var stats := StatsOf(store);
      ok := Set("stats", VObject(stats + upd));
    }

    /** `incrementPlayCount(path)` at time `now`. */
    method IncrementPlayCount(path: string, now: int)
      modifies this
      ensures store == IncrementPlayCountStore(old(store), path, now)
    {
      var stats := StatsOf(store);
      stats := PlayedStats(stats, now);
      var library := LibraryOf(store);
      var _ := UpdateSongInLibrary(path, PlayedUpdate(library, path, now));
      var _ := UpdateStats(stats);
    }

    method AddPlayTime(seconds: real)
      modifies this
      ensures store == AddPlayTimeStore(old(store), seconds)
    {
      var stats := StatsOf(store);
      stats := stats["totalPlayTime" := VNum(NumOrZero(stats, "totalPlayTime") + seconds)];
      var _ := UpdateStats(stats);
    }

    method ImportData(data: map<string, Value>) returns (ok: bool)
      modifies this
      ensures ok && store == ImportStore(old(store), data)
    {
      if TruthyField(data, "library") { var _ := Set("library", data["library"]); }
      if TruthyField(data, "playlists") { var _ := Set("playlists", data["playlists"]); }
      if TruthyField(data, "favorites") { var _ := Set("favorites", data["favorites"]); }
      if TruthyField(data, "settings") { var _ := UpdateSettings(Spread(data["settings"])); }
      if TruthyField(data, "stats") { var _ := UpdateStats(Spread(data["stats"])); }
      ok := true;
    }
  }
}
