/** The playlist manager: name rules for creating and renaming playlists,
    M3U export and import, statistics, playing a playlist and the numbered
    fallback selector. The music library is passed in as its song list. */
module Playlists {
  import opened Common
  import opened Seqs
  import opened Strings
  import opened Model
  import opened Storage
  import opened Player
  import Utils

  // ---------------------------------------------------------------------
  // Names
  // ---------------------------------------------------------------------

  /** `playlists.some(p => p.name === name)`. */
  predicate NameTaken(playlists: seq<Playlist>, name: string) {
    exists i :: 0 <= i < |playlists| && playlists[i].name == name
  }

  /** `playlists.some(p => p.name === name && p.id !== id)`. */
  predicate NameTakenByOther(playlists: seq<Playlist>, name: string, id: string) {
    exists i :: 0 <= i < |playlists| && playlists[i].name == name && playlists[i].id != id
  }

  ghost predicate UniqueNames(playlists: seq<Playlist>) {
    forall i, j :: 0 <= i < j < |playlists| ==> playlists[i].name != playlists[j].name
  }

  ghost predicate UniqueIds(playlists: seq<Playlist>) {
    forall i, j :: 0 <= i < j < |playlists| ==> playlists[i].id != playlists[j].id
  }

  /** Appending a playlist whose name is not taken keeps names unique. */
  lemma CreateKeepsNamesUnique(playlists: seq<Playlist>, p: Playlist)
    requires UniqueNames(playlists) && !NameTaken(playlists, p.name)
    ensures UniqueNames(playlists + [p])
  {
  }

  /** The update `renamePlaylist` hands to storage. */
  function NameUpdate(name: string): PlaylistUpdate {
    PlaylistUpdate(Some(name), None, None)
  }

  /** What `renamePlaylist` does with the prompt's answer (`None` when it was
      cancelled): the trimmed name to store, or `None` when it is rejected. */
  function RenameTarget(playlists: seq<Playlist>, id: string, newName: Option<string>): Option<string> {
    match Find(playlists, IdIs(id))
    case None => None
    case Some(p) =>
      if newName.None? || newName.value == "" then None
      else
        var name := Trim(newName.value);
        if name == p.name || NameTakenByOther(playlists, name, id) then None
        else Some(name)
  }

  /** A rename is accepted exactly for a known playlist, a non-empty answer
      whose trimmed form differs from the current name and is not the name of
      a playlist with another id; the stored name is that trimmed form. */
  lemma RenameTargetSpec(playlists: seq<Playlist>, id: string, newName: Option<string>)
    ensures RenameTarget(playlists, id, newName).Some? <==>
      (exists i :: 0 <= i < |playlists| && playlists[i].id == id) &&
      newName.Some? && newName.value != "" &&
      Trim(newName.value) != Find(playlists, IdIs(id)).value.name &&
      forall i :: 0 <= i < |playlists| && playlists[i].name == Trim(newName.value) ==> playlists[i].id == id
    ensures RenameTarget(playlists, id, newName).Some? ==>
      var name := RenameTarget(playlists, id, newName).value;
      name == Trim(newName.value) && Trim(name) == name
  {
    var found := Find(playlists, IdIs(id));
    if found.None? {
      assert forall j :: 0 <= j < |playlists| ==> !IdIs(id)(playlists[j]);
    } else {
      var k :| 0 <= k < |playlists| && playlists[k] == found.value;
      assert playlists[k].id == id;
      if newName.Some? && newName.value != "" {
        var name := Trim(newName.value);
        assert RenameTarget(playlists, id, newName).Some? <==> name != found.value.name && !NameTakenByOther(playlists, name, id);
        TrimIdempotent(newName.value);
      }
    }
  }

  /** An answer of blanks is not rejected: it becomes the empty name. */
  lemma RenameToBlank(playlists: seq<Playlist>, id: string)
    requires Find(playlists, IdIs(id)).Some? && Find(playlists, IdIs(id)).value.name != ""
    requires !NameTaken(playlists, "")
    ensures RenameTarget(playlists, id, Some("  ")) == Some("")
  {
    assert Trim("  ") == "";
  }

  /** Renaming keeps playlist names unique when ids are unique. */
  lemma RenameKeepsNamesUnique(playlists: seq<Playlist>, id: string, newName: Option<string>, now: int)
    requires UniqueNames(playlists) && UniqueIds(playlists)
    requires RenameTarget(playlists, id, newName).Some?
    ensures UpdatePlaylistById(playlists, id, NameUpdate(RenameTarget(playlists, id, newName).value), now).Some?
    ensures UniqueNames(UpdatePlaylistById(playlists, id, NameUpdate(RenameTarget(playlists, id, newName).value), now).value)
  {
    var name := RenameTarget(playlists, id, newName).value;
    var k := FirstIndex(playlists, IdIs(id)).value;
    var r := UpdatePlaylistById(playlists, id, NameUpdate(name), now).value;
    assert r == playlists[k := MergePlaylist(playlists[k], NameUpdate(name), now)];
    forall j | 0 <= j < |playlists| && j != k
      ensures playlists[j].name != name
    {
      assert playlists[j].id != id;
    }
  }

  // ---------------------------------------------------------------------
  // M3U
  // ---------------------------------------------------------------------

  const M3UHeader: string := "#EXTM3U"

  /** The `#EXTINF` line written for a library song. */
  function ExtInf(song: Song): string {
    "#EXTINF:" + NatToString(song.duration) + "," + song.artist + " - " + song.title
  }

  /** The two lines written for one playlist path, nothing for a path that
      is not in the library. */
  function M3UEntry(path: string, library: seq<Song>): string {
    match FindSong(library, path)
    case None => ""
    case Some(s) => ExtInf(s) + "\n" + path + "\n"
  }

  function M3UBody(paths: seq<string>, library: seq<Song>): string {
    if paths == [] then "" else M3UEntry(paths[0], library) + M3UBody(paths[1..], library)
  }

  /** The text `exportPlaylist(id, 'm3u')` produces for a playlist's paths. */
  function M3UText(paths: seq<string>, library: seq<Song>): string {
    M3UHeader + "\n" + M3UBody(paths, library)
  }

  lemma {:induction false} M3UBodyConcat(a: seq<string>, b: seq<string>, library: seq<Song>)
    ensures M3UBody(a + b, library) == M3UBody(a, library) + M3UBody(b, library)
  {
    if a == [] {
      assert a + b == b;
    } else {
      assert (a + b)[1..] == a[1..] + b;
      M3UBodyConcat(a[1..], b, library);
    }
  }

  /** The line test of `parseM3U`: a non-empty line not starting with `#`
      (which also skips the `#EXTINF:` lines). */
  function IsSongLine(): string -> bool {
    (t: string) => t != "" && !StartsWith(t, "#")
  }

  /** `l => l.trim()`. */
  function TrimFn(): string -> string {
    (l: string) => Trim(l)
  }

  /** `lines.map(l => l.trim())`. */
  function TrimAll(lines: seq<string>): (r: seq<string>)
    ensures |r| == |lines|
  {
    Map(lines, TrimFn())
  }

  /** The paths `parseM3U` collects from a file's lines, in order. */
  function SongPaths(lines: seq<string>): seq<string> {
    Filter(TrimAll(lines), IsSongLine())
  }

  /** The paths `parseM3U(content)` collects. */
  function M3UPaths(content: string): seq<string> {
    SongPaths(Split(content, "\n"))
  }

  lemma TrimAllCons(x: string, xs: seq<string>)
    ensures TrimAll([x] + xs) == [Trim(x)] + TrimAll(xs)
  {
    assert ([x] + xs)[1..] == xs;
  }

  lemma SongPathsCons(x: string, rest: seq<string>)
    ensures SongPaths([x] + rest) == (if IsSongLine()(Trim(x)) then [Trim(x)] else []) + SongPaths(rest)
  {
    TrimAllCons(x, rest);
    assert ([Trim(x)] + TrimAll(rest))[1..] == TrimAll(rest);
  }

  lemma SongPathsSnoc(lines: seq<string>, x: string)
    ensures SongPaths(lines + [x]) == SongPaths(lines) + (if IsSongLine()(Trim(x)) then [Trim(x)] else [])
  {
    MapConcat(lines, [x], TrimFn());
    assert TrimAll([x]) == [Trim(x)];
    FilterSnoc(TrimAll(lines), Trim(x), IsSongLine());
  }

  lemma SongPathsStep(lines: seq<string>, i: nat)
    requires i < |lines|
    ensures SongPaths(lines[..i + 1]) == SongPaths(lines[..i]) + (if IsSongLine()(Trim(lines[i])) then [Trim(lines[i])] else [])
  {
    assert lines[..i + 1] == lines[..i] + [lines[i]];
    SongPathsSnoc(lines[..i], lines[i]);
  }

  /** An `#EXTINF:` line is not a path. */
  lemma ExtInfSkipped(t: string)
    requires StartsWith(t, "#EXTINF:")
    ensures !IsSongLine()(t)
  {
    assert t[..1] == t[..8][..1];
  }

  /** The loop of `parseM3U` over the file's lines. */
  method ScanM3ULines(lines: seq<string>) returns (songs: seq<string>)
    ensures songs == SongPaths(lines)
  {
    songs := [];
    for i := 0 to |lines|
      invariant songs == SongPaths(lines[..i])
    {
      var trimmedLine := Trim(lines[i]);
      SongPathsStep(lines, i);
      if StartsWith(trimmedLine, "#EXTINF:") {
        ExtInfSkipped(trimmedLine);
      } else if trimmedLine != "" && !StartsWith(trimmedLine, "#") {
        songs := songs + [trimmedLine];
      }
    }
    assert lines[..|lines|] == lines;
  }

  /** Every collected path is trimmed, non-empty and not a comment, and the
      paths come in the order of the lines. */
  lemma SongPathsSpec(raw: seq<string>)
    ensures forall i :: 0 <= i < |SongPaths(raw)| ==>
      var t := SongPaths(raw)[i]; t != "" && t[0] != '#' && Trim(t) == t
    ensures IsSubsequence(SongPaths(raw), TrimAll(raw))
  {
    var lines := TrimAll(raw);
    FilterIsSubsequence(lines, IsSongLine());
    forall i | 0 <= i < |SongPaths(raw)|
      ensures var t := SongPaths(raw)[i]; t != "" && t[0] != '#' && Trim(t) == t
    {
      var t := SongPaths(raw)[i];
      FilterSound(lines, IsSongLine());
      assert IsSongLine()(t);
      assert t[..1] == [t[0]];
      FilterMembership(lines, IsSongLine(), t);
      var j :| 0 <= j < |lines| && lines[j] == t;
      MapIndex(raw, TrimFn(), j);
      TrimIdempotent(raw[j]);
    }
  }

  /** A line ending in a newline is the first piece of the split. */
  lemma SplitLine(x: string, rest: string)
    requires '\n' !in x
    ensures Split(x + "\n" + rest, "\n") == [x] + Split(rest, "\n")
  {
    var s := x + "\n" + rest;
    assert OccursAt(s, "\n", |x|) by {
      assert s[|x|..|x| + 1] == "\n";
    }
    forall j | 0 <= j < |x|
      ensures !OccursAt(s, "\n", j)
    {
      assert s[j..j + 1][0] == s[j] == x[j];
    }
    IndexOfFirst(s, "\n", |x|);
    SplitAtFirst(s, "\n", |x|);
    assert s[..|x|] == x;
    assert s[|x| + 1..] == rest;
  }

  /** A line that starts with `#` is skipped once trimmed. */
  lemma CommentSkipped(s: string)
    requires s != [] && s[0] == '#'
    ensures !IsSongLine()(Trim(s))
  {
    assert TrimStart(s) == s;
    TrimEndKeeps(s, 0);
    var r := TrimEnd(s);
    assert r[..1] == "#";
  }

  /** What an exported path must be for `parseM3U` to read it back. */
  predicate CleanPath(p: string) {
    p != "" && p[0] != '#' && '\n' !in p && Trim(p) == p
  }

  lemma CleanPathKept(p: string)
    requires CleanPath(p)
    ensures IsSongLine()(Trim(p)) && Trim(p) == p
  {
    assert p[..1] == [p[0]];
  }

  ghost predicate ExportableLibrary(library: seq<Song>) {
    forall s :: s in library ==> '\n' !in s.artist && '\n' !in s.title
  }

  lemma ExtInfOneLine(s: Song)
    requires '\n' !in s.artist && '\n' !in s.title
    ensures '\n' !in ExtInf(s) && ExtInf(s)[0] == '#'
  {
    var d := NatToString(s.duration);
    assert '\n' !in d;
  }

  lemma LinesAssoc(e: string, p: string, b: string)
    ensures e + "\n" + p + "\n" + b == e + "\n" + (p + "\n" + b)
  {
  }

  lemma M3UBodyCons(paths: seq<string>, library: seq<Song>, s: Song)
    requires paths != [] && FindSong(library, paths[0]) == Some(s)
    ensures M3UBody(paths, library) == ExtInf(s) + "\n" + (paths[0] + "\n" + M3UBody(paths[1..], library))
  {
    assert M3UEntry(paths[0], library) == ExtInf(s) + "\n" + paths[0] + "\n";
    LinesAssoc(ExtInf(s), paths[0], M3UBody(paths[1..], library));
  }

  lemma EmptyBodyPaths()
    ensures SongPaths(Split("", "\n")) == []
  {
    assert Split("", "\n") == [""];
    assert TrimAll([""]) == [""] by {
      assert [""][1..] == [];
      assert Trim("") == "";
    }
    assert SongPaths([""]) == [] by {
      assert [""][1..] == [];
    }
  }

  /** The two lines exported for a library song give back its path. */
  lemma EntryPaths(paths: seq<string>, library: seq<Song>, s: Song)
    requires paths != [] && FindSong(library, paths[0]) == Some(s)
    requires '\n' !in s.artist && '\n' !in s.title && CleanPath(paths[0])
    ensures SongPaths(Split(M3UBody(paths, library), "\n")) == [paths[0]] + SongPaths(Split(M3UBody(paths[1..], library), "\n"))
  {
    var p, body := paths[0], M3UBody(paths[1..], library);
    var tail := Split(body, "\n");
    var e := ExtInf(s);
    ExtInfOneLine(s);
    assert Split(M3UBody(paths, library), "\n") == [e] + ([p] + tail) by {
      M3UBodyCons(paths, library, s);
      SplitLine(e, p + "\n" + body);
      SplitLine(p, body);
    }
    SongPathsCons(e, [p] + tail);
    CommentSkipped(e);
    SongPathsCons(p, tail);
    CleanPathKept(p);
  }

  lemma {:induction false} M3UBodyPaths(paths: seq<string>, library: seq<Song>)
    requires ExportableLibrary(library)
    requires forall i :: 0 <= i < |paths| && InLibrary(library, paths[i]) ==> CleanPath(paths[i])
    ensures SongPaths(Split(M3UBody(paths, library), "\n")) == Filter(paths, Known(library))
  {
    if paths == [] {
      assert M3UBody(paths, library) == "";
      EmptyBodyPaths();
    } else {
      var rest := paths[1..];
      M3UBodyPaths(rest, library);
      match FindSong(library, paths[0])
      case None =>
        assert M3UBody(paths, library) == M3UBody(rest, library) by {
          assert M3UEntry(paths[0], library) == "";
        }
        assert Filter(paths, Known(library)) == Filter(rest, Known(library)) by {
          assert !Known(library)(paths[0]);
        }
      case Some(s) =>
        assert InLibrary(library, paths[0]);
        EntryPaths(paths, library, s);
        assert Filter(paths, Known(library)) == [paths[0]] + Filter(rest, Known(library)) by {
          assert Known(library)(paths[0]);
        }
    }
  }

  /** Export then import: `parseM3U(exportPlaylist(p)).songs` is the list of
      the playlist's paths that are in the library, in order, provided those
      paths are clean and no artist or title holds a line break. */
  lemma ExportParseRoundTrip(paths: seq<string>, library: seq<Song>)
    requires ExportableLibrary(library)
    requires forall i :: 0 <= i < |paths| && InLibrary(library, paths[i]) ==> CleanPath(paths[i])
    ensures M3UPaths(M3UText(paths, library)) == Filter(paths, Known(library))
    ensures M3UPaths(M3UText(paths, library)) == Paths(ResolvePaths(paths, library))
  {
    var body := M3UBody(paths, library);
    SplitLine(M3UHeader, body);
    SongPathsCons(M3UHeader, Split(body, "\n"));
    CommentSkipped(M3UHeader);
    M3UBodyPaths(paths, library);
    ResolvePathsKnown(paths, library);
  }

  /** `exportPlaylist`'s result: M3U text, or the JSON export object. */
  datatype Export =
    | Text(content: string)
    | Json(name: string, description: string, songs: seq<string>, createdAt: int, exportedAt: int)

  /** The export of a playlist in `format` at time `now`: M3U text, the JSON
      object, or empty text for any other format. */
  function ExportOf(p: Playlist, format: string, library: seq<Song>, now: int): Export {
    var f := ToLower(format);
    if f == "m3u" then Text(M3UText(p.songs, library))
    else if f == "json" then Json(p.name, p.description, p.songs, p.createdAt, now)
    else Text("")
  }

  /** Exporting one more path appends that path's entry. */
  lemma M3UTextSnoc(paths: seq<string>, path: string, library: seq<Song>)
    ensures M3UText(paths + [path], library) == M3UText(paths, library) + M3UEntry(path, library)
  {
    M3UBodyConcat(paths, [path], library);
    assert M3UBody([path], library) == M3UEntry(path, library) by {
      assert [path][1..] == [];
    }
    ConcatAssoc(M3UHeader + "\n", M3UBody(paths, library), M3UEntry(path, library));
  }

  lemma M3UTextStep(paths: seq<string>, i: nat, library: seq<Song>)
    requires i < |paths|
    ensures M3UText(paths[..i + 1], library) == M3UText(paths[..i], library) + M3UEntry(paths[i], library)
  {
    assert paths[..i + 1] == paths[..i] + [paths[i]];
    M3UTextSnoc(paths[..i], paths[i], library);
  }

  /** The `forEach` of `exportPlaylist(id, 'm3u')`: the header, then two
      lines for every path found in the library. */
  method BuildM3U(paths: seq<string>, library: seq<Song>) returns (content: string)
    ensures content == M3UText(paths, library)
  {
    content := M3UHeader + "\n";
    assert M3UText(paths[..0], library) == content by {
      assert paths[..0] == [];
    }
    for i := 0 to |paths|
      invariant content == M3UText(paths[..i], library)
    {
      var path := paths[i];
      var song := FindSong(library, path);
      var entry := if song.Some? then ExtInf(song.value) + "\n" + path + "\n" else "";
      assert entry == M3UEntry(path, library);
      content := content + entry;
      M3UTextStep(paths, i, library);
    }
    assert paths[..|paths|] == paths;
  }

  /** `parseM3U`'s result. */
  datatype Imported = Imported(name: string, songs: seq<string>)

  const ImportedName: string := "导入的播放列表"

  // ---------------------------------------------------------------------
  // Statistics
  // ---------------------------------------------------------------------

  datatype PlaylistStats = PlaylistStats(
    songCount: nat,
    totalDuration: nat,
    artistCount: nat,
    albumCount: nat,
    avgDuration: real)

  /** There are at most as many distinct values as songs, and at least one
      when there is a song. */
  lemma {:induction false} DistinctValuesBound(songs: seq<Song>, f: Song -> string)
    ensures |DistinctValues(songs, f)| <= |songs|
    ensures songs != [] ==> |DistinctValues(songs, f)| >= 1
  {
    if songs != [] {
      var rest := songs[1..];
      DistinctValuesBound(rest, f);
      assert DistinctValues(songs, f) == DistinctValues(rest, f) + {f(songs[0])} by {
        forall v | v in DistinctValues(songs, f)
          ensures v in DistinctValues(rest, f) + {f(songs[0])}
        {
          var i :| 0 <= i < |songs| && f(songs[i]) == v;
          if i > 0 {
            assert rest[i - 1] == songs[i];
          }
        }
        forall v | v in DistinctValues(rest, f)
          ensures v in DistinctValues(songs, f)
        {
          var i :| 0 <= i < |rest| && f(rest[i]) == v;
          assert songs[i + 1] == rest[i];
        }
      }
      assert f(songs[0]) in DistinctValues(songs, f);
    }
  }

  /** The total is at most the count times the longest duration. */
  lemma {:induction false} TotalDurationBound(songs: seq<Song>, m: nat)
    requires forall i :: 0 <= i < |songs| ==> songs[i].duration <= m
    ensures TotalDuration(songs) <= |songs| * m
  {
    if songs != [] {
      TotalDurationBound(songs[1..], m);
      assert songs[0].duration <= m;
    }
  }

  /** The statistics of resolved songs. */
  function StatsOfSongs(songs: seq<Song>): (r: PlaylistStats)
    ensures r.songCount == |songs| && r.totalDuration == TotalDuration(songs)
    ensures r.artistCount <= r.songCount && r.albumCount <= r.songCount
    ensures r.songCount > 0 ==> r.artistCount >= 1 && r.albumCount >= 1
    ensures r.songCount > 0 ==> r.avgDuration * (r.songCount as real) == r.totalDuration as real
    ensures r.songCount == 0 ==> r.avgDuration == 0.0 && r.totalDuration == 0
  {
    DistinctValuesBound(songs, ArtistOf());
    DistinctValuesBound(songs, AlbumOf());
    var total := TotalDuration(songs);
    PlaylistStats(
      |songs|,
      total,
      |DistinctValues(songs, ArtistOf())|,
      |DistinctValues(songs, AlbumOf())|,
      if |songs| > 0 then (total as real) / (|songs| as real) else 0.0)
  }

  lemma CastProduct(n: nat, m: nat)
    ensures (n * m) as real == (n as real) * (m as real)
  {
  }

  lemma QuotientBound(t: real, n: real, m: real)
    requires n > 0.0 && t <= n * m
    ensures t / n <= m
  {
    assert t / n * n == t;
  }

  /** The average never exceeds the longest duration. */
  lemma AverageBound(songs: seq<Song>, m: nat)
    requires forall i :: 0 <= i < |songs| ==> songs[i].duration <= m
    ensures StatsOfSongs(songs).avgDuration <= m as real
  {
    TotalDurationBound(songs, m);
    if |songs| > 0 {
      var n := |songs|;
      var t := TotalDuration(songs);
      CastProduct(n, m);
      QuotientBound(t as real, n as real, m as real);
      assert StatsOfSongs(songs).avgDuration == (t as real) / (n as real);
    }
  }

  // ---------------------------------------------------------------------
  // The numbered fallback selector
  // ---------------------------------------------------------------------

  datatype Selection = NoInput | InvalidChoice | Chosen(index: nat)

  /** The fallback selector: a cancelled or empty answer does nothing; the
      answer is read with `parseInt` as a 1-based number and accepted when it
      names a playlist. */
  function SelectByNumber(selectedText: Option<string>, count: nat): (r: Selection)
    ensures r.Chosen? ==> r.index < count
    ensures r == NoInput <==> selectedText.None? || selectedText.value == ""
  {
    if selectedText.None? || selectedText.value == "" then NoInput
    else match ParseInt(selectedText.value, 0)
      case None => InvalidChoice
      case Some(n) => if 0 <= n - 1 < count then Chosen(n - 1) else InvalidChoice
  }

  /** Typing the number n selects playlist n - 1 exactly when 1 <= n <= count. */
  lemma SelectByNumberSpec(n: nat, count: nat)
    ensures SelectByNumber(Some(NatToString(n)), count) == if 1 <= n <= count then Chosen(n - 1) else InvalidChoice
  {
    ParseIntDigits(NatToString(n), 0);
    NatToStringRoundTrip(n);
  }

  // ---------------------------------------------------------------------
  // PlaylistManager
  // ---------------------------------------------------------------------

  /** The manager keeps its own copy of the stored playlists and reloads it
      after every change it makes through storage. */
  class PlaylistManager {
    var playlists: seq<Playlist>
    const storage: StorageManager

    constructor(storage: StorageManager)
      ensures this.storage == storage && playlists == PlaylistsOf(storage.store)
    {
      this.storage := storage;
      playlists := PlaylistsOf(storage.store);
    }

    ghost predicate Synced()
      reads this, storage
    {
      playlists == PlaylistsOf(storage.store)
    }

    /** `createPlaylist(name, description)` with the new id and the clock
        reading passed in: a taken name gives `None` and changes nothing. */
    method CreatePlaylist(name: string, description: string, id: string, now: int) returns (r: Option<Playlist>)
      modifies this, storage
      ensures r.None? <==> NameTaken(old(playlists), name)
      ensures r.None? ==> playlists == old(playlists) && storage.store == old(storage.store)
      ensures r.Some? ==>
        r.value == Playlist(id, name, description, [], now, now) &&
        storage.store == Put(old(storage.store), "playlists", VPlaylists(old(PlaylistsOf(storage.store)) + [r.value])) &&
        playlists == old(PlaylistsOf(storage.store)) + [r.value]
      ensures old(Synced()) ==> Synced()
      ensures old(Synced()) && old(UniqueNames(playlists)) ==> UniqueNames(playlists)
    {
      if exists i :: 0 <= i < |playlists| && playlists[i].name == name {
        return None;
      }
      var p := storage.CreatePlaylist(name, description, id, now);
      LookupPut(old(storage.store), "playlists", VPlaylists(old(PlaylistsOf(storage.store)) + [p]), "playlists");
      playlists := PlaylistsOf(storage.store);
      r := Some(p);
    }

    /** `renamePlaylist(id)` with the prompt's answer passed in. */
    method RenamePlaylist(id: string, newName: Option<string>, now: int) returns (ok: bool)
      modifies this, storage
      ensures var target := RenameTarget(old(playlists), id, newName);
        ok <==> target.Some? && UpdatePlaylistById(old(PlaylistsOf(storage.store)), id, NameUpdate(target.value), now).Some?
      ensures ok ==>
        var updated := UpdatePlaylistById(old(PlaylistsOf(storage.store)), id, NameUpdate(RenameTarget(old(playlists), id, newName).value), now).value;
        storage.store == Put(old(storage.store), "playlists", VPlaylists(updated)) && playlists == updated
      ensures !ok ==> storage.store == old(storage.store) && playlists == old(playlists)
      ensures old(Synced()) ==> Synced()
      ensures old(Synced()) && old(UniqueNames(playlists)) && old(UniqueIds(playlists)) ==> UniqueNames(playlists)
    {
      var target := RenameTarget(playlists, id, newName);
      if target.None? {
        return false;
      }
      ghost var before := PlaylistsOf(storage.store);
      ok := storage.UpdatePlaylist(id, NameUpdate(target.value), now);
      if ok {
        var updated := UpdatePlaylistById(before, id, NameUpdate(target.value), now).value;
        LookupPut(old(storage.store), "playlists", VPlaylists(updated), "playlists");
        playlists := PlaylistsOf(storage.store);
        if old(Synced()) && UniqueNames(old(playlists)) && UniqueIds(old(playlists)) {
          RenameKeepsNamesUnique(old(playlists), id, newName, now);
        }
      }
    }

    /** `exportPlaylist(id, format)`: `None` for an unknown id. */
    method ExportPlaylist(id: string, format: string, library: seq<Song>, now: int) returns (r: Option<Export>)
      ensures r.None? <==> forall i :: 0 <= i < |playlists| ==> playlists[i].id != id
      ensures r.Some? ==> r.value == ExportOf(Find(playlists, IdIs(id)).value, format, library, now)
    {
      var found := Find(playlists, IdIs(id));
      if found.None? {
        return None;
      }
      var p := found.value;
      var f := ToLower(format);
      if f == "m3u" {
        var content := BuildM3U(p.songs, library);
        r := Some(Text(content));
      } else if f == "json" {
        r := Some(Json(p.name, p.description, p.songs, p.createdAt, now));
      } else {
        r := Some(Text(""));
      }
    }

    /** `parseM3U(content)`. */
    method ParseM3U(content: string) returns (r: Imported)
      ensures r == Imported(ImportedName, M3UPaths(content))
    {
      var songs := ScanM3ULines(Split(content, "\n"));
      r := Imported(ImportedName, songs);
    }

    /** `getPlaylistStats(id)`: `None` for an unknown id; otherwise the count
        is that of the playlist's paths found in the library. */
    function GetPlaylistStats(id: string, library: seq<Song>): (r: Option<PlaylistStats>)
      reads this
      ensures r.None? <==> forall i :: 0 <= i < |playlists| ==> playlists[i].id != id
      ensures r.Some? ==>
        r.value.songCount == |Filter(Find(playlists, IdIs(id)).value.songs, Known(library))| &&
        r.value == StatsOfSongs(ResolvePaths(Find(playlists, IdIs(id)).value.songs, library))
    {
      match Find(playlists, IdIs(id))
      case None => None
      case Some(p) =>
        ResolvePathsKnown(p.songs, library);
        Some(StatsOfSongs(ResolvePaths(p.songs, library)))
    }

    /** `playPlaylist(id, shuffle, startIndex)`: plays the playlist's songs
        that are in the library; with `shuffle`, a permutation of them from
        the first. The start song becomes current, plays and is counted as
        played; a start index past the queue loads nothing. Nothing happens
        when there is no song. */
    method PlayPlaylist(id: string, shuffle: bool, startIndex: int, library: seq<Song>, player: MusicPlayer, now: int)
      returns (started: bool)
      modifies player, player.storage
      ensures started <==> Find(playlists, IdIs(id)).Some? && ResolvePaths(Find(playlists, IdIs(id)).value.songs, library) != []
      ensures started && !shuffle ==>
        player.playlist == ResolvePaths(Find(playlists, IdIs(id)).value.songs, library) && player.currentIndex == startIndex
      ensures started && !shuffle && 0 <= startIndex < |player.playlist| ==>
        player.currentSong == Some(player.playlist[startIndex]) && player.isPlaying &&
        player.storage.store == IncrementPlayCountStore(old(player.storage.store), player.playlist[startIndex].path, now) &&
        player.currentTime == 0.0 && player.audioDuration == 0.0
      ensures started && !shuffle && !(0 <= startIndex < |player.playlist|) ==>
        player.currentSong == old(player.currentSong) && player.isPlaying == old(player.isPlaying) &&
        player.storage.store == old(player.storage.store) &&
        player.currentTime == old(player.currentTime) && player.audioDuration == old(player.audioDuration)
      ensures started && shuffle ==>
        multiset(player.playlist) == multiset(ResolvePaths(Find(playlists, IdIs(id)).value.songs, library)) &&
        player.currentIndex == 0 && |player.playlist| > 0 && player.currentSong == Some(player.playlist[0]) &&
        player.isPlaying &&
        player.storage.store == IncrementPlayCountStore(old(player.storage.store), player.playlist[0].path, now) &&
        player.currentTime == 0.0 && player.audioDuration == 0.0
      ensures !started ==>
        player.playlist == old(player.playlist) && player.currentIndex == old(player.currentIndex) &&
        player.currentSong == old(player.currentSong) && player.isPlaying == old(player.isPlaying) &&
        player.storage.store == old(player.storage.store) &&
        player.currentTime == old(player.currentTime) && player.audioDuration == old(player.audioDuration)
      ensures player.isShuffling == old(player.isShuffling) && player.repeatMode == old(player.repeatMode)
      ensures player.volume == old(player.volume) && player.previousVolume == old(player.previousVolume)
    {
      var found := Find(playlists, IdIs(id));
      if found.None? || found.value.songs == [] {
        return false;
      }
      var songs := ResolvePaths(found.value.songs, library);
      if songs == [] {
        return false;
      }
      if shuffle {
        var a := new Song[|songs|](i requires 0 <= i < |songs| => songs[i]);
        assert a[..] == songs;
        var b := Utils.ShuffleArray(a);
        player.SetPlaylist(b[..], 0, now);
      } else {
        player.SetPlaylist(songs, startIndex, now);
      }
      started := true;
    }
  }
}
