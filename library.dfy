/** The music library: the song list, its artist, album and genre indexes,
    and the filters, sorts and searches over it. */
module Library {
  import opened Common
  import opened Seqs
  import opened Strings
  import opened Model
  import opened Storage
  import Utils

  // ---------------------------------------------------------------------
  // createSongFromPath
  // ---------------------------------------------------------------------

  /** What the tag reader returns for a file. An empty string or a zero
      stands for a tag that is missing or empty, which the `||` fallbacks
      treat alike. */
  datatype Metadata = Metadata(
    title: string,
    artist: string,
    album: string,
    albumartist: string,
    year: nat,
    genre: string,
    track: nat,
    duration: nat,
    lyrics: string)

  /** `metadata?.x` when the reader returned nothing. */
  const NoMetadata := Metadata("", "", "", "", 0, "", 0, 0, "")

  const UnknownArtist := "未知艺术家"
  const UnknownAlbum := "未知专辑"
  const UnknownGenre := "未知"

  /** `a || b` on strings. */
  function Or(a: string, b: string): (r: string)
    ensures r == a || r == b
    ensures r == "" <==> a == "" && b == ""
  {
    if a != "" then a else b
  }

  /** The song record built for a file, or `None` when its name does not
      carry an audio extension. Each field falls back from the tag to the
      file name to a fixed placeholder. */
  function CreateSongFromPath(filePath: string, metadata: Option<Metadata>, id: string, now: int): (r: Option<Song>)
    ensures r.None? <==> !Utils.IsAudioFile(Utils.GetFileName(filePath))
    ensures r.Some? ==> r.value.id == id && r.value.path == filePath && r.value.dateAdded == now
    ensures r.Some? ==> r.value.playCount == 0 && r.value.lastPlayed.None?
    ensures r.Some? ==> r.value.artist != "" && r.value.album != "" && r.value.albumArtist != "" && r.value.genre != ""
  {
    var filename := Utils.GetFileName(filePath);
    if !Utils.IsAudioFile(filename) then None
    else
      var parsed := Utils.ParseFilename(filename);
      var m := metadata.GetOr(NoMetadata);
      Some(Song(
        id,
        filePath,
        Or(m.title, Or(parsed.title, Utils.StripExtension(filename))),
        Or(m.artist, Or(parsed.artist, UnknownArtist)),
        Or(m.album, UnknownAlbum),
        Or(m.albumartist, Or(m.artist, Or(parsed.artist, UnknownArtist))),
        m.year,
        Or(m.genre, UnknownGenre),
        m.track,
        m.duration,
        ToUpper(Utils.GetFileExtension(filename)),
        now,
        0,
        None,
        m.lyrics))
  }

  /** Tags that are present win over everything the file name says. */
  lemma MetadataWins(filePath: string, m: Metadata, id: string, now: int)
    requires Utils.IsAudioFile(Utils.GetFileName(filePath))
    requires m.title != "" && m.artist != "" && m.album != "" && m.genre != ""
    ensures CreateSongFromPath(filePath, Some(m), id, now).Some?
    ensures var s := CreateSongFromPath(filePath, Some(m), id, now).value;
      s.title == m.title && s.artist == m.artist && s.album == m.album && s.genre == m.genre &&
      s.albumArtist == (if m.albumartist != "" then m.albumartist else m.artist) &&
      s.duration == m.duration && s.year == m.year && s.track == m.track
  {
  }

  /** Without tags, the title and artist come from the file name and the
      other fields take their placeholders. */
  lemma NoTagsFallback(filePath: string, id: string, now: int)
    requires Utils.IsAudioFile(Utils.GetFileName(filePath))
    ensures CreateSongFromPath(filePath, None, id, now).Some?
    ensures var name := Utils.GetFileName(filePath);
      var parsed := Utils.ParseFilename(name);
      var s := CreateSongFromPath(filePath, None, id, now).value;
      s.title == Or(parsed.title, Utils.StripExtension(name)) && s.artist == Or(parsed.artist, UnknownArtist) &&
      s.albumArtist == s.artist && s.album == UnknownAlbum && s.genre == UnknownGenre &&
      s.duration == 0 && s.year == 0 && s.track == 0 && s.lyrics == ""
  {
  }

  lemma NoSlashName(artist: string, title: string, ext: string)
    requires '/' !in ext && '/' !in artist && '/' !in title
    ensures artist + " - " + title + "." + ext != [] && '/' !in artist + " - " + title + "." + ext
  {
  }

  /** A file named `Artist - Title.ext` without tags gives that artist and
      title. */
  lemma FileNameFallback(artist: string, title: string, ext: string, id: string, now: int)
    requires '-' !in artist && '-' !in title && Trim(artist) == artist && Trim(title) == title
    requires ext != [] && '.' !in ext && '/' !in ext && '/' !in artist && '/' !in title
    requires Utils.IsAudioFile(artist + " - " + title + "." + ext)
    ensures var r := CreateSongFromPath(artist + " - " + title + "." + ext, None, id, now);
      r.Some? && r.value.title == Or(title, artist + " - " + title) && r.value.artist == Or(artist, UnknownArtist)
  {
    var name := artist + " - " + title + "." + ext;
    NoSlashName(artist, title, ext);
    Utils.GetFileNameBackslashPath(name);
    Utils.ParseFilenameRoundTrip(artist, title, ext);
    Utils.StripKnownExtension(artist + " - " + title, ext);
    NoTagsFallback(name, id, now);
  }

  // ---------------------------------------------------------------------
  // Groups (updateStatistics)
  // ---------------------------------------------------------------------

  datatype ArtistGroup = ArtistGroup(name: string, songs: seq<Song>, albumCount: nat, totalDuration: nat)
  datatype AlbumGroup = AlbumGroup(title: string, artist: string, year: nat, songs: seq<Song>, totalDuration: nat)
  datatype GenreGroup = GenreGroup(name: string, songs: seq<Song>, artists: set<string>, totalDuration: nat)

  /** `${artist} - ${album}`: the key of the album index. */
  function AlbumKey(artist: string, album: string): string {
    artist + " - " + album
  }

  function AlbumKeyOf(): Song -> string {
    (s: Song) => AlbumKey(s.artist, s.album)
  }

  function KeyIs(key: Song -> string, k: string): Song -> bool {
    (s: Song) => key(s) == k
  }

  /** The songs whose key is `k`, in library order. */
  function Group(songs: seq<Song>, key: Song -> string, k: string): seq<Song> {
    Filter(songs, KeyIs(key, k))
  }

  /** The artist entry with its album count still at zero, as the first
      pass leaves it. */
  function TallyEntry(songs: seq<Song>, a: string): ArtistGroup {
    ArtistGroup(a, Group(songs, ArtistOf(), a), 0, TotalDuration(Group(songs, ArtistOf(), a)))
  }

  /** The second pass: the album count of an artist's songs. */
  function WithAlbumCount(g: ArtistGroup): ArtistGroup {
    g.(albumCount := |DistinctValues(g.songs, AlbumOf())|)
  }

  /** An artist's entry: its songs, their distinct albums and their total
      duration. */
  function ArtistEntry(songs: seq<Song>, a: string): ArtistGroup {
    var g := Group(songs, ArtistOf(), a);
    ArtistGroup(a, g, |DistinctValues(g, AlbumOf())|, TotalDuration(g))
  }

  /** An album entry takes its title, artist and year from its first song. */
  function AlbumEntry(songs: seq<Song>, k: string): AlbumGroup {
    var g := Group(songs, AlbumKeyOf(), k);
    if g == [] then AlbumGroup("", "", 0, [], 0)
    else AlbumGroup(g[0].album, g[0].artist, g[0].year, g, TotalDuration(g))
  }

  /** A genre entry: its songs, their distinct artists, their total duration. */
  function GenreEntry(songs: seq<Song>, name: string): GenreGroup {
    var g := Group(songs, GenreOf(), name);
    GenreGroup(name, g, DistinctValues(g, ArtistOf()), TotalDuration(g))
  }

  /** `artists` as the first pass leaves it after `songs`. */
  ghost predicate ArtistsTallied(artists: map<string, ArtistGroup>, songs: seq<Song>) {
    artists.Keys == DistinctValues(songs, ArtistOf()) &&
    forall a :: a in artists ==> artists[a] == TallyEntry(songs, a)
  }

  /** One artist entry per artist of `songs`. */
  ghost predicate ArtistsIndexed(artists: map<string, ArtistGroup>, songs: seq<Song>) {
    artists.Keys == DistinctValues(songs, ArtistOf()) &&
    forall a :: a in artists ==> artists[a] == ArtistEntry(songs, a)
  }

  /** One album entry per album key of `songs`. */
  ghost predicate AlbumsIndexed(albums: map<string, AlbumGroup>, songs: seq<Song>) {
    albums.Keys == DistinctValues(songs, AlbumKeyOf()) &&
    forall k :: k in albums ==> albums[k] == AlbumEntry(songs, k)
  }

  /** One genre entry per genre of `songs`. */
  ghost predicate GenresIndexed(genres: map<string, GenreGroup>, songs: seq<Song>) {
    genres.Keys == DistinctValues(songs, GenreOf()) &&
    forall name :: name in genres ==> genres[name] == GenreEntry(songs, name)
  }

  lemma GroupSnoc(songs: seq<Song>, x: Song, key: Song -> string, k: string)
    ensures Group(songs + [x], key, k) == if key(x) == k then Group(songs, key, k) + [x] else Group(songs, key, k)
  {
    FilterSnoc(songs, x, KeyIs(key, k));
  }

  /** A key has songs in its group exactly when some song has it. */
  lemma GroupEmpty(songs: seq<Song>, key: Song -> string, k: string)
    ensures Group(songs, key, k) != [] <==> k in DistinctValues(songs, key)
  {
    var g := Group(songs, key, k);
    if g != [] {
      FilterMembership(songs, KeyIs(key, k), g[0]);
      var j :| 0 <= j < |songs| && songs[j] == g[0];
      assert key(songs[j]) == k;
    }
    if k in DistinctValues(songs, key) {
      GroupHasKey(songs, key, k);
    }
  }

  /** A key some song has has that song in its group. */
  lemma GroupHasKey(songs: seq<Song>, key: Song -> string, k: string)
    requires k in DistinctValues(songs, key)
    ensures Group(songs, key, k) != []
  {
    var j :| 0 <= j < |songs| && key(songs[j]) == k;
    FilterMembership(songs, KeyIs(key, k), songs[j]);
  }

  lemma EmptyIndexes()
    ensures ArtistsTallied(map[], []) && ArtistsIndexed(map[], [])
    ensures AlbumsIndexed(map[], []) && GenresIndexed(map[], [])
  {
    assert DistinctValues([], ArtistOf()) == {};
    assert DistinctValues([], AlbumKeyOf()) == {};
    assert DistinctValues([], GenreOf()) == {};
  }

  /** What one song does to the artist entries in the first pass. */
  function AddToArtists(t: map<string, ArtistGroup>, x: Song): map<string, ArtistGroup> {
    var g := if x.artist in t then t[x.artist] else ArtistGroup(x.artist, [], 0, 0);
    t[x.artist := g.(songs := g.songs + [x], totalDuration := g.totalDuration + x.duration)]
  }

  /** What one song does to the album entries. */
  function AddToAlbums(t: map<string, AlbumGroup>, x: Song): map<string, AlbumGroup> {
    var k := AlbumKey(x.artist, x.album);
    var g := if k in t then t[k] else AlbumGroup(x.album, x.artist, x.year, [], 0);
    t[k := g.(songs := g.songs + [x], totalDuration := g.totalDuration + x.duration)]
  }

  /** What one song does to the genre entries. */
  function AddToGenres(t: map<string, GenreGroup>, x: Song): map<string, GenreGroup> {
    var g := if x.genre in t then t[x.genre] else GenreGroup(x.genre, [], {}, 0);
    t[x.genre := g.(songs := g.songs + [x], artists := g.artists + {x.artist}, totalDuration := g.totalDuration + x.duration)]
  }

  /** One song of the first pass, for one artist entry. */
  lemma TallyEntrySnoc(songs: seq<Song>, x: Song, a: string)
    ensures TallyEntry(songs + [x], a) ==
      if a != x.artist then TallyEntry(songs, a)
      else
        var g := if a in DistinctValues(songs, ArtistOf()) then TallyEntry(songs, a) else ArtistGroup(a, [], 0, 0);
        g.(songs := g.songs + [x], totalDuration := g.totalDuration + x.duration)
  {
    GroupSnoc(songs, x, ArtistOf(), a);
    if a == x.artist {
      GroupEmpty(songs, ArtistOf(), a);
      TotalDurationSnoc(Group(songs, ArtistOf(), a), x);
    }
  }

  lemma ArtistsTalliedSnoc(artists: map<string, ArtistGroup>, songs: seq<Song>, x: Song)
    requires ArtistsTallied(artists, songs)
    ensures ArtistsTallied(AddToArtists(artists, x), songs + [x])
  {
    DistinctValuesSnoc(songs, x, ArtistOf());
    var next := AddToArtists(artists, x);
    forall a | a in next ensures next[a] == TallyEntry(songs + [x], a) {
      TallyEntrySnoc(songs, x, a);
    }
  }

  lemma AlbumEntrySnoc(songs: seq<Song>, x: Song, k: string)
    ensures AlbumEntry(songs + [x], k) ==
      if k != AlbumKey(x.artist, x.album) then AlbumEntry(songs, k)
      else
        var g := if k in DistinctValues(songs, AlbumKeyOf()) then AlbumEntry(songs, k) else AlbumGroup(x.album, x.artist, x.year, [], 0);
        g.(songs := g.songs + [x], totalDuration := g.totalDuration + x.duration)
  {
    GroupSnoc(songs, x, AlbumKeyOf(), k);
    if k == AlbumKey(x.artist, x.album) {
      GroupEmpty(songs, AlbumKeyOf(), k);
      var g := Group(songs, AlbumKeyOf(), k);
      TotalDurationSnoc(g, x);
      assert Group(songs + [x], AlbumKeyOf(), k) == g + [x];
      if g != [] {
        assert (g + [x])[0] == g[0];
        assert k in DistinctValues(songs, AlbumKeyOf());
        assert AlbumEntry(songs, k) == AlbumGroup(g[0].album, g[0].artist, g[0].year, g, TotalDuration(g));
      } else {
        assert g + [x] == [x];
      }
    }
  }

  lemma AlbumsIndexedSnoc(albums: map<string, AlbumGroup>, songs: seq<Song>, x: Song)
    requires AlbumsIndexed(albums, songs)
    ensures AlbumsIndexed(AddToAlbums(albums, x), songs + [x])
  {
    DistinctValuesSnoc(songs, x, AlbumKeyOf());
    var next := AddToAlbums(albums, x);
    forall k | k in next ensures next[k] == AlbumEntry(songs + [x], k) {
      AlbumEntrySnoc(songs, x, k);
    }
  }

  lemma GenreEntrySnoc(songs: seq<Song>, x: Song, name: string)
    ensures GenreEntry(songs + [x], name) ==
      if name != x.genre then GenreEntry(songs, name)
      else
        var g := if name in DistinctValues(songs, GenreOf()) then GenreEntry(songs, name) else GenreGroup(x.genre, [], {}, 0);
        g.(songs := g.songs + [x], artists := g.artists + {x.artist}, totalDuration := g.totalDuration + x.duration)
  {
    GroupSnoc(songs, x, GenreOf(), name);
    if name == x.genre {
      GroupEmpty(songs, GenreOf(), name);
      var g := Group(songs, GenreOf(), name);
      TotalDurationSnoc(g, x);
      DistinctValuesSnoc(g, x, ArtistOf());
      if g == [] {
        assert DistinctValues(g, ArtistOf()) == {};
      }
    }
  }

  lemma GenresIndexedSnoc(genres: map<string, GenreGroup>, songs: seq<Song>, x: Song)
    requires GenresIndexed(genres, songs)
    ensures GenresIndexed(AddToGenres(genres, x), songs + [x])
  {
    DistinctValuesSnoc(songs, x, GenreOf());
    var next := AddToGenres(genres, x);
    forall name | name in next ensures next[name] == GenreEntry(songs + [x], name) {
      GenreEntrySnoc(songs, x, name);
    }
  }

  /** The first pass of `updateStatistics`: every song joins its artist,
      album and genre entry, creating the entry on first sight. */
  method TallySongs(songs: seq<Song>) returns (artists: map<string, ArtistGroup>, albums: map<string, AlbumGroup>, genres: map<string, GenreGroup>)
    ensures ArtistsTallied(artists, songs) && AlbumsIndexed(albums, songs) && GenresIndexed(genres, songs)
  {
    EmptyIndexes();
    artists, albums, genres := map[], map[], map[];
    for i := 0 to |songs|
      invariant ArtistsTallied(artists, songs[..i])
      invariant AlbumsIndexed(albums, songs[..i])
      invariant GenresIndexed(genres, songs[..i])
    {
      var x := songs[i];
      assert songs[..i + 1] == songs[..i] + [x];
      ArtistsTalliedSnoc(artists, songs[..i], x);
      AlbumsIndexedSnoc(albums, songs[..i], x);
      GenresIndexedSnoc(genres, songs[..i], x);

      artists := AddToArtists(artists, x);
      albums := AddToAlbums(albums, x);
      genres := AddToGenres(genres, x);
    }
    assert songs[..|songs|] == songs;
  }

  /** `new Set(songs.map(s => s.album))`, one `add` at a time. */
  method DistinctAlbums(songs: seq<Song>) returns (albums: set<string>)
    ensures albums == DistinctValues(songs, AlbumOf())
  {
    albums := {};
    assert DistinctValues([], AlbumOf()) == {};
    for j := 0 to |songs|
      invariant albums == DistinctValues(songs[..j], AlbumOf())
    {
      assert songs[..j + 1] == songs[..j] + [songs[j]];
      DistinctValuesSnoc(songs[..j], songs[j], AlbumOf());
      albums := albums + {songs[j].album};
    }
    assert songs[..|songs|] == songs;
  }

  /** The second pass of `updateStatistics`: each artist's album count. */
  method CountAlbums(tally: map<string, ArtistGroup>) returns (artists: map<string, ArtistGroup>)
    ensures artists.Keys == tally.Keys
    ensures forall a :: a in artists ==> artists[a] == WithAlbumCount(tally[a])
  {
    artists := tally;
    var pending := tally.Keys;
    while pending != {}
      invariant pending <= tally.Keys && artists.Keys == tally.Keys
      invariant forall a :: a in artists ==> artists[a] == if a in pending then tally[a] else WithAlbumCount(tally[a])
      decreases pending
    {
      var a :| a in pending;
      var albumSet := DistinctAlbums(artists[a].songs);
      artists := artists[a := artists[a].(albumCount := |albumSet|)];
      pending := pending - {a};
    }
  }

  /** Counting albums after the first pass gives the artist index. */
  lemma IndexedFromTally(tally: map<string, ArtistGroup>, artists: map<string, ArtistGroup>, songs: seq<Song>)
    requires ArtistsTallied(tally, songs)
    requires artists.Keys == tally.Keys && forall a :: a in artists ==> artists[a] == WithAlbumCount(tally[a])
    ensures ArtistsIndexed(artists, songs)
  {
  }

  // ---------------------------------------------------------------------
  // What the indexes promise
  // ---------------------------------------------------------------------

  /** A song of the library sits in exactly one group of a family: the one
      of its own key. */
  lemma {:induction false} OneGroup(songs: seq<Song>, key: Song -> string, x: Song)
    requires x in songs
    ensures key(x) in DistinctValues(songs, key)
    ensures x in Group(songs, key, key(x))
    ensures forall k :: x in Group(songs, key, k) ==> k == key(x)
  {
    var j :| 0 <= j < |songs| && songs[j] == x;
    assert key(songs[j]) in DistinctValues(songs, key);
    FilterMembership(songs, KeyIs(key, key(x)), x);
    forall k | x in Group(songs, key, k) ensures k == key(x) {
      FilterMembership(songs, KeyIs(key, k), x);
    }
  }

  /** Every song is in its artist's entry and in no other artist entry. */
  lemma SongInOneArtist(artists: map<string, ArtistGroup>, songs: seq<Song>, x: Song)
    requires ArtistsIndexed(artists, songs) && x in songs
    ensures x.artist in artists && x in artists[x.artist].songs
    ensures forall a :: a in artists && x in artists[a].songs ==> a == x.artist
  {
    OneGroup(songs, ArtistOf(), x);
  }

  /** Every song is in the entry of its album key and in no other. */
  lemma SongInOneAlbum(albums: map<string, AlbumGroup>, songs: seq<Song>, x: Song)
    requires AlbumsIndexed(albums, songs) && x in songs
    ensures AlbumKey(x.artist, x.album) in albums && x in albums[AlbumKey(x.artist, x.album)].songs
    ensures forall k :: k in albums && x in albums[k].songs ==> k == AlbumKey(x.artist, x.album)
  {
    OneGroup(songs, AlbumKeyOf(), x);
    var k0 := AlbumKey(x.artist, x.album);
    GroupHasKey(songs, AlbumKeyOf(), k0);
    forall k | k in albums && x in albums[k].songs ensures k == k0 {
      GroupHasKey(songs, AlbumKeyOf(), k);
    }
  }

  /** Every song is in its genre's entry and in no other genre entry. */
  lemma SongInOneGenre(genres: map<string, GenreGroup>, songs: seq<Song>, x: Song)
    requires GenresIndexed(genres, songs) && x in songs
    ensures x.genre in genres && x in genres[x.genre].songs
    ensures forall g :: g in genres && x in genres[g].songs ==> g == x.genre
  {
    OneGroup(songs, GenreOf(), x);
  }

  /** Every artist entry holds at least one song, all by that artist; its
      total and album count are those of its songs. */
  lemma ArtistEntries(artists: map<string, ArtistGroup>, songs: seq<Song>, a: string)
    requires ArtistsIndexed(artists, songs) && a in artists
    ensures artists[a].name == a && artists[a].songs != []
    ensures forall y :: y in artists[a].songs <==> y in songs && y.artist == a
    ensures artists[a].totalDuration == TotalDuration(artists[a].songs)
    ensures artists[a].albumCount == |DistinctValues(artists[a].songs, AlbumOf())|
  {
    GroupHasKey(songs, ArtistOf(), a);
    FilterSpec(songs, KeyIs(ArtistOf(), a));
  }

  /** Every album entry holds at least one song, all with its key, and takes
      its title and artist from the first of them. */
  lemma AlbumEntries(albums: map<string, AlbumGroup>, songs: seq<Song>, k: string)
    requires AlbumsIndexed(albums, songs) && k in albums
    ensures albums[k].songs != [] && albums[k].title == albums[k].songs[0].album && albums[k].artist == albums[k].songs[0].artist
    ensures forall y :: y in albums[k].songs <==> y in songs && AlbumKey(y.artist, y.album) == k
    ensures albums[k].totalDuration == TotalDuration(albums[k].songs)
  {
    GroupHasKey(songs, AlbumKeyOf(), k);
    FilterSpec(songs, KeyIs(AlbumKeyOf(), k));
  }

  /** Every genre entry holds at least one song, all of that genre; its
      artist set and total are those of its songs. */
  lemma GenreEntries(genres: map<string, GenreGroup>, songs: seq<Song>, name: string)
    requires GenresIndexed(genres, songs) && name in genres
    ensures genres[name].name == name && genres[name].songs != []
    ensures forall y :: y in genres[name].songs <==> y in songs && y.genre == name
    ensures genres[name].totalDuration == TotalDuration(genres[name].songs)
    ensures genres[name].artists == DistinctValues(genres[name].songs, ArtistOf())
  {
    GroupHasKey(songs, GenreOf(), name);
    FilterSpec(songs, KeyIs(GenreOf(), name));
  }

  /** The sizes of the groups of `ks`, added up. */
  function GroupSizes(ks: seq<string>, songs: seq<Song>, key: Song -> string): nat {
    if ks == [] then 0 else |Group(songs, key, ks[0])| + GroupSizes(ks[1..], songs, key)
  }

  lemma {:induction false} GroupSizesEmpty(ks: seq<string>, key: Song -> string)
    ensures GroupSizes(ks, [], key) == 0
  {
    if ks != [] {
      GroupSizesEmpty(ks[1..], key);
    }
  }

  /** A song in front adds one to the total when its key is listed once. */
  lemma {:induction false} GroupSizesCons(ks: seq<string>, x: Song, rest: seq<Song>, key: Song -> string)
    requires Distinct(ks)
    ensures GroupSizes(ks, [x] + rest, key) == GroupSizes(ks, rest, key) + (if key(x) in ks then 1 else 0)
  {
    if ks != [] {
      var s := [x] + rest;
      assert s[0] == x && s[1..] == rest;
      assert Distinct(ks[1..]);
      GroupSizesCons(ks[1..], x, rest, key);
      assert key(x) in ks <==> key(x) == ks[0] || key(x) in ks[1..];
      if key(x) == ks[0] {
        forall j | 0 <= j < |ks[1..]| ensures ks[1..][j] != key(x) {
          assert ks[1..][j] == ks[j + 1];
        }
      }
    }
  }

  /** A family's groups partition the songs: over distinct keys covering
      every song, the group sizes add up to the number of songs. */
  lemma {:induction false} PartitionSizes(ks: seq<string>, songs: seq<Song>, key: Song -> string)
    requires Distinct(ks)
    requires forall i :: 0 <= i < |songs| ==> key(songs[i]) in ks
    ensures GroupSizes(ks, songs, key) == |songs|
  {
    if songs == [] {
      GroupSizesEmpty(ks, key);
    } else {
      assert songs == [songs[0]] + songs[1..];
      GroupSizesCons(ks, songs[0], songs[1..], key);
      forall i | 0 <= i < |songs[1..]| ensures key(songs[1..][i]) in ks {
        assert songs[1..][i] == songs[i + 1];
      }
      PartitionSizes(ks, songs[1..], key);
    }
  }

  /** The song counts of the entries of `ks`, added up. */
  function SongCount<G>(ks: seq<string>, m: map<string, G>, size: G -> nat): nat
    requires forall k :: k in ks ==> k in m
  {
    if ks == [] then 0 else size(m[ks[0]]) + SongCount(ks[1..], m, size)
  }

  lemma {:induction false} SongCountGroups<G>(ks: seq<string>, m: map<string, G>, size: G -> nat, songs: seq<Song>, key: Song -> string)
    requires forall k :: k in ks ==> k in m && size(m[k]) == |Group(songs, key, k)|
    ensures SongCount(ks, m, size) == GroupSizes(ks, songs, key)
  {
    if ks != [] {
      SongCountGroups(ks[1..], m, size, songs, key);
    }
  }

  function ArtistSize(): ArtistGroup -> nat {
    (g: ArtistGroup) => |g.songs|
  }

  function AlbumSize(): AlbumGroup -> nat {
    (g: AlbumGroup) => |g.songs|
  }

  function GenreSize(): GenreGroup -> nat {
    (g: GenreGroup) => |g.songs|
  }

  /** The artist entries' song counts add up to the library size, whatever
      order the artists are listed in. */
  lemma ArtistSizesSum(artists: map<string, ArtistGroup>, songs: seq<Song>, ks: seq<string>)
    requires ArtistsIndexed(artists, songs)
    requires Distinct(ks) && forall k :: k in ks <==> k in artists
    ensures SongCount(ks, artists, ArtistSize()) == |songs|
  {
    SongCountGroups(ks, artists, ArtistSize(), songs, ArtistOf());
    forall i | 0 <= i < |songs| ensures ArtistOf()(songs[i]) in ks {
      assert ArtistOf()(songs[i]) in DistinctValues(songs, ArtistOf());
    }
    PartitionSizes(ks, songs, ArtistOf());
  }

  /** The same for the album entries. */
  lemma AlbumSizesSum(albums: map<string, AlbumGroup>, songs: seq<Song>, ks: seq<string>)
    requires AlbumsIndexed(albums, songs)
    requires Distinct(ks) && forall k :: k in ks <==> k in albums
    ensures SongCount(ks, albums, AlbumSize()) == |songs|
  {
    forall k | k in ks ensures AlbumSize()(albums[k]) == |Group(songs, AlbumKeyOf(), k)| {
      GroupHasKey(songs, AlbumKeyOf(), k);
    }
    SongCountGroups(ks, albums, AlbumSize(), songs, AlbumKeyOf());
    forall i | 0 <= i < |songs| ensures AlbumKeyOf()(songs[i]) in ks {
      assert AlbumKeyOf()(songs[i]) in DistinctValues(songs, AlbumKeyOf());
    }
    PartitionSizes(ks, songs, AlbumKeyOf());
  }

  /** The same for the genre entries. */
  lemma GenreSizesSum(genres: map<string, GenreGroup>, songs: seq<Song>, ks: seq<string>)
    requires GenresIndexed(genres, songs)
    requires Distinct(ks) && forall k :: k in ks <==> k in genres
    ensures SongCount(ks, genres, GenreSize()) == |songs|
  {
    SongCountGroups(ks, genres, GenreSize(), songs, GenreOf());
    forall i | 0 <= i < |songs| ensures GenreOf()(songs[i]) in ks {
      assert GenreOf()(songs[i]) in DistinctValues(songs, GenreOf());
    }
    PartitionSizes(ks, songs, GenreOf());
  }

  /** The album key does not separate its parts: an artist whose name
      contains ` - ` can share an entry with another artist's album. */
  lemma AlbumKeyAmbiguous()
    ensures AlbumKey("A - B", "C") == AlbumKey("A", "B - C")
  {
  }

  function AlbumIs(albumTitle: string, artistName: string): Song -> bool {
    (s: Song) => s.album == albumTitle && s.artist == artistName
  }

  /** The songs of an album by an artist all sit in the group of their key,
      in the same order. */
  lemma {:induction false} AlbumFilterWithinEntry(songs: seq<Song>, albumTitle: string, artistName: string)
    ensures Filter(Group(songs, AlbumKeyOf(), AlbumKey(artistName, albumTitle)), AlbumIs(albumTitle, artistName)) ==
      Filter(songs, AlbumIs(albumTitle, artistName))
  {
    if songs != [] {
      AlbumFilterWithinEntry(songs[1..], albumTitle, artistName);
      var p := KeyIs(AlbumKeyOf(), AlbumKey(artistName, albumTitle));
      var rest := Group(songs[1..], AlbumKeyOf(), AlbumKey(artistName, albumTitle));
      var q := AlbumIs(albumTitle, artistName);
      var front := if q(songs[0]) then [songs[0]] else [];
      assert Filter(songs, q) == front + Filter(songs[1..], q);
      if p(songs[0]) {
        assert Group(songs, AlbumKeyOf(), AlbumKey(artistName, albumTitle)) == [songs[0]] + rest;
        assert ([songs[0]] + rest)[0] == songs[0] && ([songs[0]] + rest)[1..] == rest;
        assert Filter([songs[0]] + rest, q) == front + Filter(rest, q);
      } else {
        assert !q(songs[0]);
        assert Group(songs, AlbumKeyOf(), AlbumKey(artistName, albumTitle)) == rest;
      }
    }
  }

  /** `getAlbum(title, artist)` reads the key `updateStatistics` writes: the
      entry is present exactly when some song has that key, it holds every
      song with that album and artist, and those are exactly its songs that
      carry them. */
  lemma AlbumLookup(albums: map<string, AlbumGroup>, songs: seq<Song>, title: string, artist: string)
    ensures AlbumsIndexed(albums, songs) ==>
      (AlbumKey(artist, title) in albums <==>
        exists i :: 0 <= i < |songs| && AlbumKey(songs[i].artist, songs[i].album) == AlbumKey(artist, title))
    ensures AlbumsIndexed(albums, songs) ==>
      forall x :: x in songs && x.album == title && x.artist == artist ==>
        AlbumKey(artist, title) in albums && x in albums[AlbumKey(artist, title)].songs
    ensures AlbumsIndexed(albums, songs) && AlbumKey(artist, title) in albums ==>
      Filter(albums[AlbumKey(artist, title)].songs, AlbumIs(title, artist)) == Filter(songs, AlbumIs(title, artist))
  {
    if !AlbumsIndexed(albums, songs) {
      return;
    }
    var k := AlbumKey(artist, title);
    AlbumFilterWithinEntry(songs, title, artist);
    forall x | x in songs && x.album == title && x.artist == artist
      ensures k in albums && x in albums[k].songs
    {
      SongInOneAlbum(albums, songs, x);
    }
    if k in albums {
      GroupHasKey(songs, AlbumKeyOf(), k);
    }
  }

  // ---------------------------------------------------------------------
  // Search, sorting
  // ---------------------------------------------------------------------

  /** The fuzzy match on title, artist, album or genre. */
  function Matches(query: string): Song -> bool {
    (s: Song) => Utils.Fuzzy(query, s.title) || Utils.Fuzzy(query, s.artist) ||
      Utils.Fuzzy(query, s.album) || Utils.Fuzzy(query, s.genre)
  }

  /** The search results are the matching songs in library order; a song
      whose title contains the query is among them. */
  lemma SearchResults(songs: seq<Song>, query: string)
    ensures IsSubsequence(Filter(songs, Matches(query)), songs)
    ensures forall x :: x in Filter(songs, Matches(query)) <==> x in songs && Matches(query)(x)
    ensures forall x :: multiset(Filter(songs, Matches(query)))[x] == if Matches(query)(x) then multiset(songs)[x] else 0
    ensures forall x :: x in songs && query != [] && Contains(x.title, query) ==> x in Filter(songs, Matches(query))
  {
    FilterSpec(songs, Matches(query));
    forall x | x in songs && query != [] && Contains(x.title, query) ensures x in Filter(songs, Matches(query)) {
      Utils.FuzzySubsumesSubstring(query, x.title);
      FilterMembership(songs, Matches(query), x);
    }
  }

  /** A collation that orders consistently: total and transitive. */
  ghost predicate ConsistentCollation(collate: (string, string) -> int) {
    (forall a, b :: collate(a, b) <= 0 || collate(b, a) <= 0) &&
    (forall a, b, c :: collate(a, b) <= 0 && collate(b, c) <= 0 ==> collate(a, c) <= 0)
  }

  function ByTitle(collate: (string, string) -> int): (Song, Song) -> bool {
    (a: Song, b: Song) => collate(a.title, b.title) <= 0
  }

  /** `(b.duration || 0) - (a.duration || 0)`: longest first. */
  function ByDurationDesc(): (Song, Song) -> bool {
    (a: Song, b: Song) => b.duration - a.duration <= 0
  }

  /** `(b.dateAdded || 0) - (a.dateAdded || 0)`: newest first. */
  function ByDateAddedDesc(): (Song, Song) -> bool {
    (a: Song, b: Song) => b.dateAdded - a.dateAdded <= 0
  }

  /** The comparator of each sort key, as "comes no later than"; `None` for
      a key `sortLibrary` does not know. `collate` is `localeCompare`. */
  function Ordering(sortBy: string, collate: (string, string) -> int): Option<(Song, Song) -> bool> {
    if sortBy == "title" then Some(ByTitle(collate))
    else if sortBy == "artist" then
      Some((a: Song, b: Song) =>
        (if collate(a.artist, b.artist) != 0 then collate(a.artist, b.artist) else collate(a.title, b.title)) <= 0)
    else if sortBy == "album" then
      Some((a: Song, b: Song) =>
        (if collate(a.album, b.album) != 0 then collate(a.album, b.album) else a.track - b.track) <= 0)
    else if sortBy == "duration" then Some(ByDurationDesc())
    else if sortBy == "dateAdded" then Some(ByDateAddedDesc())
    else None
  }

  /** The library after `sortLibrary(sortBy)`: a stable sort by the key's
      comparator, and the same order for an unknown key. */
  function SortedLibrary(songs: seq<Song>, sortBy: string, collate: (string, string) -> int): (r: seq<Song>)
    ensures multiset(r) == multiset(songs) && |r| == |songs|
    ensures Ordering(sortBy, collate).None? ==> r == songs
  {
    match Ordering(sortBy, collate)
    case Some(le) => SortBy(songs, le)
    case None => songs
  }

  /** Sorting by duration puts the longest first, and songs of equal
      duration keep their library order. */
  lemma SortByDuration(songs: seq<Song>, collate: (string, string) -> int)
    ensures var r := SortedLibrary(songs, "duration", collate);
      (forall i, j :: 0 <= i < j < |r| ==> r[i].duration >= r[j].duration) &&
      (forall t :: Filter(r, EquivTo(t, ByDurationDesc())) == Filter(songs, EquivTo(t, ByDurationDesc())))
  {
    var le := ByDurationDesc();
    assert TotalPreorder(le);
    SortBySorted(songs, le);
    forall t ensures Filter(SortBy(songs, le), EquivTo(t, le)) == Filter(songs, EquivTo(t, le)) {
      SortByStable(songs, le, t);
    }
  }

  /** Sorting by date added puts the newest first, and songs added at the
      same time keep their library order. */
  lemma SortByDateAdded(songs: seq<Song>, collate: (string, string) -> int)
    ensures var r := SortedLibrary(songs, "dateAdded", collate);
      (forall i, j :: 0 <= i < j < |r| ==> r[i].dateAdded >= r[j].dateAdded) &&
      (forall t :: Filter(r, EquivTo(t, ByDateAddedDesc())) == Filter(songs, EquivTo(t, ByDateAddedDesc())))
  {
    var le := ByDateAddedDesc();
    assert TotalPreorder(le);
    SortBySorted(songs, le);
    forall t ensures Filter(SortBy(songs, le), EquivTo(t, le)) == Filter(songs, EquivTo(t, le)) {
      SortByStable(songs, le, t);
    }
  }

  /** With a consistent collation, sorting by title orders the titles. */
  lemma SortByTitleOrder(songs: seq<Song>, collate: (string, string) -> int)
    requires ConsistentCollation(collate)
    ensures var r := SortedLibrary(songs, "title", collate);
      forall i, j :: 0 <= i < j < |r| ==> collate(r[i].title, r[j].title) <= 0
  {
    var le := ByTitle(collate);
    assert TotalPreorder(le) by {
      forall a: Song, b: Song ensures le(a, b) || le(b, a) {
        assert collate(a.title, b.title) <= 0 || collate(b.title, a.title) <= 0;
      }
      forall a: Song, b: Song, c: Song | le(a, b) && le(b, c) ensures le(a, c) {
        assert collate(a.title, b.title) <= 0 && collate(b.title, c.title) <= 0;
        assert collate(a.title, c.title) <= 0;
      }
    }
    SortBySorted(songs, le);
  }

  // ---------------------------------------------------------------------
  // addFiles
  // ---------------------------------------------------------------------

  /** The song made from the i-th file, as `createSongFromPath` makes it. */
  function MakeSong(metadataOf: string -> Option<Metadata>, idOf: nat -> string, now: int): (string, nat) -> Option<Song> {
    (p: string, i: nat) => CreateSongFromPath(p, metadataOf(p), idOf(i), now)
  }

  /** The songs `make` builds from `paths`, in order, skipping the files it
      refuses. */
  function CreatedSongs(paths: seq<string>, make: (string, nat) -> Option<Song>): seq<Song>
  {
    if paths == [] then []
    else
      var n := |paths| - 1;
      CreatedSongs(paths[..n], make) +
        match make(paths[n], n)
        case Some(s) => [s]
        case None => []
  }

  predicate IsAudioPath(p: string) {
    Utils.IsAudioFile(Utils.GetFileName(p))
  }

  function AudioPath(): string -> bool {
    (p: string) => IsAudioPath(p)
  }

  lemma {:induction false} CreatedSongsKept(paths: seq<string>, make: (string, nat) -> Option<Song>, keep: string -> bool)
    requires forall p, i :: make(p, i).Some? <==> keep(p)
    requires forall p, i :: make(p, i).Some? ==> make(p, i).value.path == p
    ensures Paths(CreatedSongs(paths, make)) == Filter(paths, keep)
  {
    if paths != [] {
      var n := |paths| - 1;
      var init := paths[..n];
      CreatedSongsKept(init, make, keep);
      assert paths == init + [paths[n]];
      FilterSnoc(init, paths[n], keep);
      var prefix := CreatedSongs(init, make);
      match make(paths[n], n)
      case Some(s) => {
        assert Paths(prefix + [s]) == Paths(prefix) + [s.path];
      }
      case None => {
        assert prefix + [] == prefix;
      }
    }
  }

  /** `addFiles` makes one song per audio file, carrying its path, in the
      order the files were given. */
  lemma CreatedSongsPaths(paths: seq<string>, metadataOf: string -> Option<Metadata>, idOf: nat -> string, now: int)
    ensures Paths(CreatedSongs(paths, MakeSong(metadataOf, idOf, now))) == Filter(paths, AudioPath())
  {
    var make := MakeSong(metadataOf, idOf, now);
    forall p, i ensures make(p, i).Some? <==> AudioPath()(p) {
      assert make(p, i) == CreateSongFromPath(p, metadataOf(p), idOf(i), now);
    }
    forall p, i | make(p, i).Some? ensures make(p, i).value.path == p {
      assert make(p, i) == CreateSongFromPath(p, metadataOf(p), idOf(i), now);
    }
    CreatedSongsKept(paths, make, AudioPath());
  }

  /** The loop of `addFiles`: each file in turn, keeping the songs made. */
  method CreateSongs(filePaths: seq<string>, metadataOf: string -> Option<Metadata>, idOf: nat -> string, now: int)
    returns (newSongs: seq<Song>)
    ensures newSongs == CreatedSongs(filePaths, MakeSong(metadataOf, idOf, now))
  {
    newSongs := [];
    for i := 0 to |filePaths|
      invariant newSongs == CreatedSongs(filePaths[..i], MakeSong(metadataOf, idOf, now))
    {
      assert filePaths[..i + 1][..i] == filePaths[..i];
      var song := CreateSongFromPath(filePaths[i], metadataOf(filePaths[i]), idOf(i), now);
      if song.Some? {
        newSongs := newSongs + [song.value];
      }
    }
    assert filePaths[..|filePaths|] == filePaths;
  }

  // ---------------------------------------------------------------------
  // The library object
  // ---------------------------------------------------------------------

  class MusicLibrary {
    var songs: seq<Song>
    var artists: map<string, ArtistGroup>
    var albums: map<string, AlbumGroup>
    var genres: map<string, GenreGroup>
    const storage: StorageManager

    /** The three indexes describe the current song list. */
    ghost predicate Indexed()
      reads this
    {
      ArtistsIndexed(artists, songs) && AlbumsIndexed(albums, songs) && GenresIndexed(genres, songs)
    }

    /** `new MusicLibrary()`: starts empty, then `init` runs `loadFromStorage`
        up to its first `await`, so the new library holds the stored songs,
        indexed. */
    constructor(storage: StorageManager)
      ensures this.storage == storage && songs == LibraryOf(storage.store) && Indexed()
    {
      songs := [];
      artists, albums, genres := map[], map[], map[];
      this.storage := storage;
      new;
      LoadFromStorage();
    }

    /** `updateStatistics`: rebuilds the three indexes from the songs. */
    method UpdateStatistics()
      modifies this
      ensures songs == old(songs) && Indexed()
    {
      var tally, albumIndex, genreIndex := TallySongs(songs);
      var artistIndex := CountAlbums(tally);
      IndexedFromTally(tally, artistIndex, songs);
      artists, albums, genres := artistIndex, albumIndex, genreIndex;
    }

    /** `loadFromStorage`, without the file-existence check. */
    method LoadFromStorage()
      modifies this
      ensures songs == LibraryOf(storage.store) && Indexed()
    {
      songs := LibraryOf(storage.store);
      UpdateStatistics();
    }

    /** `addFiles`: the songs made from the audio files go to storage, which
        drops paths already known; the library is then reloaded and
        reindexed. Nothing changes when no file is an audio file. */
    method AddFiles(filePaths: seq<string>, metadataOf: string -> Option<Metadata>, idOf: nat -> string, now: int)
      returns (addedCount: nat)
      modifies this, storage
      ensures var created := CreatedSongs(filePaths, MakeSong(metadataOf, idOf, now));
        if created == [] then
          addedCount == 0 && storage.store == old(storage.store) &&
          songs == old(songs) && artists == old(artists) && albums == old(albums) && genres == old(genres)
        else
          addedCount == |NewSongs(old(LibraryOf(storage.store)), created)| &&
          storage.store == (if addedCount > 0
            then Put(old(storage.store), "library", VSongs(old(LibraryOf(storage.store)) + NewSongs(old(LibraryOf(storage.store)), created)))
            else old(storage.store)) &&
          songs == LibraryOf(storage.store) && Indexed()
    {
      var newSongs := CreateSongs(filePaths, metadataOf, idOf, now);
      if |newSongs| > 0 {
        addedCount := storage.AddToLibrary(newSongs);
        songs := LibraryOf(storage.store);
        UpdateStatistics();
      } else {
        addedCount := 0;
      }
    }

    /** `search(query)`: a blank query shows the whole library and records
        nothing; otherwise the query goes to the search history and the
        matching songs are shown in library order. */
    method Search(query: string) returns (results: seq<Song>)
      modifies storage
      ensures Trim(query) == [] ==> results == songs && storage.store == old(storage.store)
      ensures Trim(query) != [] ==> results == Filter(songs, Matches(query))
      ensures Trim(query) != [] ==>
        storage.store == Put(old(storage.store), "searchHistory", VStrings(PushHistory(old(SearchHistoryOf(storage.store)), query)))
    {
      if Trim(query) == [] {
        return songs;
      }
      storage.AddToSearchHistory(query);
      results := Filter(songs, Matches(query));
    }

    /** `sortLibrary(sortBy)`: reorders the songs; the indexes are kept as
        they were. */
    method SortLibrary(sortBy: string, collate: (string, string) -> int)
      modifies this
      ensures songs == SortedLibrary(old(songs), sortBy, collate)
      ensures artists == old(artists) && albums == old(albums) && genres == old(genres)
    {
      songs := SortedLibrary(songs, sortBy, collate);
    }

    /** `filterByArtist`: the artist's songs in library order. */
    function FilterByArtist(artistName: string): (r: seq<Song>)
      reads this
      ensures IsSubsequence(r, songs)
      ensures forall x :: x in r <==> x in songs && x.artist == artistName
      ensures forall x :: multiset(r)[x] == if x.artist == artistName then multiset(songs)[x] else 0
    {
      FilterSpec(songs, KeyIs(ArtistOf(), artistName));
      Filter(songs, KeyIs(ArtistOf(), artistName))
    }

    /** `filterByAlbum`: the songs of that album by that artist. */
    function FilterByAlbum(albumTitle: string, artistName: string): (r: seq<Song>)
      reads this
      ensures IsSubsequence(r, songs)
      ensures forall x :: x in r <==> x in songs && x.album == albumTitle && x.artist == artistName
      ensures forall x :: multiset(r)[x] == if x.album == albumTitle && x.artist == artistName then multiset(songs)[x] else 0
    {
      FilterSpec(songs, AlbumIs(albumTitle, artistName));
      Filter(songs, AlbumIs(albumTitle, artistName))
    }

    /** `filterByGenre`: the genre's songs in library order. */
    function FilterByGenre(genreName: string): (r: seq<Song>)
      reads this
      ensures IsSubsequence(r, songs)
      ensures forall x :: x in r <==> x in songs && x.genre == genreName
      ensures forall x :: multiset(r)[x] == if x.genre == genreName then multiset(songs)[x] else 0
    {
      FilterSpec(songs, KeyIs(GenreOf(), genreName));
      Filter(songs, KeyIs(GenreOf(), genreName))
    }

    /** `getSongByPath`: the first song with that path. */
    function GetSongByPath(path: string): (r: Option<Song>)
      reads this
      ensures r.Some? ==> r.value in songs && r.value.path == path
      ensures r.None? <==> forall i :: 0 <= i < |songs| ==> songs[i].path != path
    {
      FindSong(songs, path)
    }

    /** `getArtist(name)`: present exactly when some song has that artist,
        with that artist's songs in library order. */
    function GetArtist(name: string): (r: Option<ArtistGroup>)
      reads this
      ensures Indexed() ==> (r.Some? <==> exists i :: 0 <= i < |songs| && songs[i].artist == name)
      ensures Indexed() && r.Some? ==> r.value.songs == FilterByArtist(name)
    {
      if name in artists then Some(artists[name]) else None
    }

    /** `getAlbum(title, artist)`: found for every song's own album and
        artist, holding every song with that album and artist. */
    function GetAlbum(title: string, artist: string): (r: Option<AlbumGroup>)
      reads this
      ensures Indexed() ==> (r.Some? <==> exists i :: 0 <= i < |songs| && AlbumKey(songs[i].artist, songs[i].album) == AlbumKey(artist, title))
      ensures Indexed() && (exists i :: 0 <= i < |songs| && songs[i].album == title && songs[i].artist == artist) ==>
        r.Some? && forall x :: x in songs && x.album == title && x.artist == artist ==> x in r.value.songs
      ensures Indexed() && r.Some? ==> Filter(r.value.songs, AlbumIs(title, artist)) == FilterByAlbum(title, artist)
    {
      AlbumLookup(albums, songs, title, artist);
      var key := AlbumKey(artist, title);
      if key in albums then Some(albums[key]) else None
    }

    /** `getGenre(name)`: present exactly when some song has that genre,
        with its songs in library order and their artists. */
    function GetGenre(name: string): (r: Option<GenreGroup>)
      reads this
      ensures Indexed() ==> (r.Some? <==> exists i :: 0 <= i < |songs| && songs[i].genre == name)
      ensures Indexed() && r.Some? ==> r.value.songs == FilterByGenre(name) && r.value.artists == DistinctValues(r.value.songs, ArtistOf())
    {
      if name in genres then Some(genres[name]) else None
    }
  }
}
