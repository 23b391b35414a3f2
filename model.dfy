/** The records the application keeps: songs, playlists and the JSON values
    the persistent store holds. */
module Model {
  import opened Common
  import opened Seqs

  /** A library entry, as built by the library scanner. A `null` year or
      track number is 0; a missing duration is 0 (whole seconds). */
  datatype Song = Song(
    id: string,
    path: string,
    title: string,
    artist: string,
    album: string,
    albumArtist: string,
    year: nat,
    genre: string,
    track: nat,
    duration: nat,
    format: string,
    dateAdded: int,
    playCount: nat,
    lastPlayed: Option<int>,
    lyrics: string)

  /** The fields an update object may carry; `None` means the key is absent. */
  datatype SongUpdate = SongUpdate(
    title: Option<string>,
    artist: Option<string>,
    album: Option<string>,
    genre: Option<string>,
    lyrics: Option<string>,
    playCount: Option<nat>,
    lastPlayed: Option<int>)

  const NoSongUpdate := SongUpdate(None, None, None, None, None, None, None)

  /** `{ ...song, ...u }`: every key present in `u` wins. */
  function MergeSong(s: Song, u: SongUpdate): (r: Song)
    ensures r.id == s.id && r.path == s.path && r.duration == s.duration
  {
    s.(title := u.title.GetOr(s.title),
       artist := u.artist.GetOr(s.artist),
       album := u.album.GetOr(s.album),
       genre := u.genre.GetOr(s.genre),
       lyrics := u.lyrics.GetOr(s.lyrics),
       playCount := u.playCount.GetOr(s.playCount),
       lastPlayed := if u.lastPlayed.Some? then u.lastPlayed else s.lastPlayed)
  }

  /** `{ ...u1, ...u2 }` on two update objects. */
  function CombineSongUpdates(u1: SongUpdate, u2: SongUpdate): SongUpdate {
    SongUpdate(
      if u2.title.Some? then u2.title else u1.title,
      if u2.artist.Some? then u2.artist else u1.artist,
      if u2.album.Some? then u2.album else u1.album,
      if u2.genre.Some? then u2.genre else u1.genre,
      if u2.lyrics.Some? then u2.lyrics else u1.lyrics,
      if u2.playCount.Some? then u2.playCount else u1.playCount,
      if u2.lastPlayed.Some? then u2.lastPlayed else u1.lastPlayed)
  }

  lemma MergeSongEmpty(s: Song)
    ensures MergeSong(s, NoSongUpdate) == s
  {
  }

  lemma MergeSongIdempotent(s: Song, u: SongUpdate)
    ensures MergeSong(MergeSong(s, u), u) == MergeSong(s, u)
  {
  }

  /** Two merges in a row are one merge with the combined update. */
  lemma MergeSongTwice(s: Song, u1: SongUpdate, u2: SongUpdate)
    ensures MergeSong(MergeSong(s, u1), u2) == MergeSong(s, CombineSongUpdates(u1, u2))
  {
  }

  /** A playlist; `songs` holds song paths. */
  datatype Playlist = Playlist(
    id: string,
    name: string,
    description: string,
    songs: seq<string>,
    createdAt: int,
    updatedAt: int)

  datatype PlaylistUpdate = PlaylistUpdate(
    name: Option<string>,
    description: Option<string>,
    songs: Option<seq<string>>)

  /** `{ ...p, ...u, updatedAt: now }`. */
  function MergePlaylist(p: Playlist, u: PlaylistUpdate, now: int): (r: Playlist)
    ensures r.id == p.id && r.createdAt == p.createdAt && r.updatedAt == now
  {
    p.(name := u.name.GetOr(p.name),
       description := u.description.GetOr(p.description),
       songs := u.songs.GetOr(p.songs),
       updatedAt := now)
  }

  /** The JSON values the store holds. Arrays are kept by element kind. */
  datatype Value =
    | VNull
    | VBool(b: bool)
    | VNum(x: real)
    | VStr(s: string)
    | VSongs(songs: seq<Song>)
    | VPlaylists(playlists: seq<Playlist>)
    | VStrings(items: seq<string>)
    | VObject(fields: map<string, Value>)

  /** JavaScript truthiness: arrays and objects are always truthy. */
  predicate Truthy(v: Value) {
    match v
    case VNull => false
    case VBool(b) => b
    case VNum(x) => x != 0.0
    case VStr(s) => s != ""
    case _ => true
  }

  /** A string key of an object, `undefined` as `None`. */
  function Field(m: map<string, Value>, k: string): Option<Value> {
    if k in m then Some(m[k]) else None
  }

  /** `obj.k || 0` for a numeric field. */
  function NumOrZero(m: map<string, Value>, k: string): real {
    if k in m && m[k].VNum? then m[k].x else 0.0
  }

  /** `s => s.path === path`. */
  function PathIs(path: string): Song -> bool {
    (s: Song) => s.path == path
  }

  /** `songs.find(s => s.path === path)`. */
  function FindSong(songs: seq<Song>, path: string): (r: Option<Song>)
    ensures r.Some? ==> r.value in songs && r.value.path == path
    ensures r.None? ==> forall i :: 0 <= i < |songs| ==> songs[i].path != path
  {
    Find(songs, PathIs(path))
  }

  function Paths(songs: seq<Song>): (r: seq<string>)
    ensures |r| == |songs|
    ensures forall i :: 0 <= i < |songs| ==> r[i] == songs[i].path
  {
    seq(|songs|, i requires 0 <= i < |songs| => songs[i].path)
  }

  /** `paths.map(p => library.find(s => s.path === p)).filter(Boolean)`:
      each path that names a library song, in the playlist's order. */
  function ResolvePaths(paths: seq<string>, library: seq<Song>): (r: seq<Song>)
    ensures |r| <= |paths|
  {
    if paths == [] then []
    else match FindSong(library, paths[0])
      case Some(s) => [s] + ResolvePaths(paths[1..], library)
      case None => ResolvePaths(paths[1..], library)
  }

  predicate InLibrary(library: seq<Song>, path: string) {
    FindSong(library, path).Some?
  }

  function Known(library: seq<Song>): string -> bool {
    (p: string) => InLibrary(library, p)
  }

  /** Resolving is the same as keeping the known paths and looking each up:
      order is preserved and unknown paths are dropped. */
  lemma {:induction false} ResolvePathsKnown(paths: seq<string>, library: seq<Song>)
    ensures Paths(ResolvePaths(paths, library)) == Filter(paths, Known(library))
  {
    if paths != [] {
      ResolvePathsKnown(paths[1..], library);
      var rest := ResolvePaths(paths[1..], library);
      match FindSong(library, paths[0])
      case Some(s) =>
        assert ResolvePaths(paths, library) == [s] + rest;
        PathsCons(s, rest);
        assert Filter(paths, Known(library)) == [paths[0]] + Filter(paths[1..], Known(library));
      case None =>
        assert ResolvePaths(paths, library) == rest;
        assert Filter(paths, Known(library)) == Filter(paths[1..], Known(library));
    }
  }

  lemma PathsCons(s: Song, rest: seq<Song>)
    ensures Paths([s] + rest) == [s.path] + Paths(rest)
  {
    var l, r := Paths([s] + rest), [s.path] + Paths(rest);
    forall i | 0 <= i < |l| ensures l[i] == r[i] {
      if i > 0 {
        assert ([s] + rest)[i] == rest[i - 1];
      }
    }
  }

  /** `songs.reduce((sum, song) => sum + (song.duration || 0), 0)`. */
  function TotalDuration(songs: seq<Song>): nat {
    if songs == [] then 0 else songs[0].duration + TotalDuration(songs[1..])
  }

  /** Appending a song adds its duration. */
  lemma {:induction false} TotalDurationSnoc(songs: seq<Song>, x: Song)
    ensures TotalDuration(songs + [x]) == TotalDuration(songs) + x.duration
  {
    if songs == [] {
      assert songs + [x] == [x];
    } else {
      assert (songs + [x])[1..] == songs[1..] + [x];
      TotalDurationSnoc(songs[1..], x);
    }
  }

  function ArtistOf(): Song -> string {
    (s: Song) => s.artist
  }

  function AlbumOf(): Song -> string {
    (s: Song) => s.album
  }

  function GenreOf(): Song -> string {
    (s: Song) => s.genre
  }

  /** `new Set(songs.map(f))`. */
  function DistinctValues(songs: seq<Song>, f: Song -> string): set<string> {
    set i | 0 <= i < |songs| :: f(songs[i])
  }

  /** `set.add(f(x))` after the songs so far. */
  lemma DistinctValuesSnoc(songs: seq<Song>, x: Song, f: Song -> string)
    ensures DistinctValues(songs + [x], f) == DistinctValues(songs, f) + {f(x)}
  {
    var s := songs + [x];
    forall v | v in DistinctValues(s, f) ensures v in DistinctValues(songs, f) + {f(x)} {
      var i :| 0 <= i < |s| && f(s[i]) == v;
      if i < |songs| {
        assert s[i] == songs[i];
      }
    }
    forall v | v in DistinctValues(songs, f) ensures v in DistinctValues(s, f) {
      var i :| 0 <= i < |songs| && f(songs[i]) == v;
      assert s[i] == songs[i];
    }
    assert s[|songs|] == x;
  }
}
