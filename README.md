# mymusic core, modelled in Dafny

mymusic is a desktop music player built with Electron. Its renderer keeps the
music library in `localStorage` and builds artist, album and genre indexes
over the songs. It plays a queue with repeat and shuffle modes, and manages
playlists with M3U export and import. It shows LRC lyrics in sync with
playback. A user-interface manager keeps track of the open side panel and the
current view, and produces share links.

This project models that core as Dafny modules, one per source file, plus
shared definitions:

- `Common`, `Seqs`, `Strings`: the JavaScript primitives the code relies on.
  These are `Option`, `filter`/`map`/`find`, a stable `sort`, `trim`,
  `split`/`join`, `indexOf`, `replace`, `toLowerCase`, `parseInt` and
  number formatting.
- `Model`: the records of the application (songs, playlists, stored JSON
  values) and the helpers every file shares.
- `Storage` (`src/js/storage.js`): the persistent store.
  - A `map` stands for `localStorage`.
  - `StorageManager` is a class whose methods update that map.
  - Each method is specified by a function on the store, and the lemmas are
    stated over those functions.
- `Utils` (`src/js/utils.js`): the stand-alone helpers and the
  keyboard-shortcut registry.
- `Lyrics` (`src/js/lyrics.js`): the LRC parser, translation merge and
  playback sync of `LyricsManager`.
- `Player` (`src/js/player.js`): `MusicPlayer`'s queue, repeat/shuffle,
  volume/mute and seek state.
- `Playlists` (`src/js/playlist.js`): `PlaylistManager`'s name rules, M3U
  export/import, statistics and playing.
- `Library` (`src/js/musicLibrary.js`): `MusicLibrary`'s song creation,
  index building, search, sorting and filters.
- `Ui` (`src/js/ui.js`): the panels, the older lyric parser, the highlight
  rule, share links, view refresh and context-menu dispatch.

Modelling conventions:

- **Falsy values.** `null`, `undefined` and `""` are the empty string for
  strings, and 0 for optional numbers.
- **Times.** Lyric times are whole milliseconds.
- **Outside the model.** The clock, generated ids, audio metadata, random
  choices and answers from dialogs are parameters of the operations that use
  them.

## Model

| member | source | states |
|---|---|---|
| Common.Clamp | src/js/player.js:449-454 | `Math.max(lo, Math.min(hi, x))` lies in `[lo, hi]` and is `x` when `x` already does |
| Model.MergeSong | src/js/storage.js:128-139 | a spread update never changes the id, path or duration |
| Model.MergeSongEmpty | src/js/storage.js:133 | merging an empty update gives the song back |
| Model.MergeSongIdempotent | src/js/storage.js:133 | applying the same update twice is applying it once |
| Model.MergeSongTwice | src/js/storage.js:133 | two updates in a row are one update with both, the later keys winning |
| Model.MergePlaylist | src/js/storage.js:195-210 | a playlist update keeps the id and creation time and stamps `updatedAt` |
| Model.FindSong | src/js/musicLibrary.js:686-688 | `find` by path returns a song with that path from the list, and nothing only when no song has it |
| Model.ResolvePaths | src/js/playlist.js:729-732 | at most one song per path, since paths missing from the library are dropped |
| Model.Paths | src/js/storage.js:108 | `songs.map(s => s.path)` element by element |
| Model.ResolvePathsKnown | src/js/playlist.js:729-732 | mapping paths to library songs and dropping misses keeps exactly the known paths, in order |
| Model.TotalDurationSnoc | src/js/playlist.js:734 | the duration sum grows by the duration of each appended song |
| Model.DistinctValuesSnoc | src/js/playlist.js:735-736 | the set of values grows by the value of each appended song |
| Storage.KeyInjective | src/js/storage.js:56-74 | prefixed keys of different names differ |
| Storage.LookupPut | src/js/storage.js:56-74 | after `set(k, v)`, `get(k)` is `v` and every other key reads as before |
| Storage.SettingsComplete | src/js/storage.js:291-306 | settings carry every default key; a stored key wins over its default |
| Storage.InitKeyLookup | src/js/storage.js:9-26 | one `init` step replaces a falsy entry by its default and leaves other keys alone |
| Storage.InitKeysLookup | src/js/storage.js:9-26 | `init` over distinct keys replaces exactly the falsy entries among them |
| Storage.InitStoreLookup | src/js/storage.js:9-26 | what each key holds after `init` |
| Storage.InitStoreIdempotent | src/js/storage.js:9-26 | a second `init` changes nothing, and every initialised key is truthy |
| Storage.ViewsAfterPut | src/js/storage.js:98-361 | writing one key leaves the collections of every other key unchanged |
| Storage.LookupRemove | src/js/storage.js:76-84 | after `remove(k)`, `k` reads `null` and the rest is unchanged |
| Storage.ClearStoreSpec | src/js/storage.js:86-95 | `clear` drops exactly the prefixed keys and keeps the others |
| Storage.NewSongsSpec | src/js/storage.js:106-119 | the songs appended are exactly the batch songs whose path the library lacks, in batch order |
| Storage.NewSongsKeepsBatchDuplicates | src/js/storage.js:108-110 | two new songs with one path in the same batch are both appended |
| Storage.NewSongsAgain | src/js/storage.js:106-119 | adding the same batch again appends nothing |
| Storage.RemoveSongSpec | src/js/storage.js:121-126 | every song at the path goes, the rest stay in order, and the length changes iff one was there |
| Storage.UpdateSongSpec | src/js/storage.js:128-139 | the update fails iff no song has the path; otherwise only the first such song is merged |
| Storage.RemovePlaylistSpec | src/js/storage.js:188-193 | playlists with the id go, the rest stay in order, and the length changes iff one was there |
| Storage.UpdatePlaylistByIdSpec | src/js/storage.js:195-210 | the update fails iff no playlist has the id; otherwise only the first one is merged and stamped |
| Storage.NewPathsSpec | src/js/storage.js:212-231 | the paths appended are the batch paths not yet in the playlist; no repeats arise; adding again adds nothing |
| Storage.WithoutSpec | src/js/storage.js:233-249 | removing a path keeps every other path in order, and changes the list iff the path was there |
| Storage.ToggleFavoritesSpec | src/js/storage.js:260-288 | toggling flips membership of the path only, never creates a repeat, and adding then removing a new path restores the list |
| Storage.WithSettingsSpec | src/js/storage.js:297-301 | each updated setting reads its new value, the others read as before, and no other key changes |
| Storage.SetSettingGet | src/js/storage.js:303-310 | `getSetting(k)` after `setSetting(k, v)` is `v`; other settings keep theirs |
| Storage.WithPlaybackStateSpec | src/js/storage.js:313-323 | playback-state updates win over stored and default keys |
| Storage.WithStatsSpec | src/js/storage.js:347-361 | statistics updates win over the stored statistics |
| Storage.IncrementPlayCountStats | src/js/storage.js:363-375 | one more song is counted as played, and `lastPlayed` is the clock reading |
| Storage.IncrementPlayCountLibrary | src/js/storage.js:363-375 | only the first song at the path gains a play and the stamp; the library is unchanged when no song is there |
| Storage.AddPlayTimeSpec | src/js/storage.js:377-381 | the total play time grows by the given seconds |
| Storage.PushHistorySpec | src/js/storage.js:330-340 | the query goes in front, its older copies go, and at most twenty entries remain; the ones kept are the most recent others, in order, and nothing else is dropped while there is room |
| Storage.PushHistoryIdempotent | src/js/storage.js:330-340 | searching the same query twice in a row equals searching it once |
| Storage.ImportCollectionLookup | src/js/storage.js:396-408 | a truthy imported collection replaces the stored one; other keys read as before |
| Storage.ImportStoreLookup | src/js/storage.js:396-408 | each key after an import is the imported collection, the merged settings or statistics, or the old value |
| Storage.SettingsAbsorbDefaults | src/js/storage.js:291-301 | merging over complete settings makes the defaults irrelevant |
| Storage.StoredSettings | src/js/storage.js:291-295 | stored settings read as the defaults overridden by them |
| Storage.ExportFields | src/js/storage.js:384-394 | the export holds each collection as stored, the settings and statistics as read, and the time |
| Storage.ImportExportCollections | src/js/storage.js:384-408 | importing a fresh export leaves library, playlists, favourites, history and playback state as they were |
| Storage.ImportExportSettings | src/js/storage.js:384-408 | importing a fresh export leaves the settings and statistics as they read before |
| Storage.StorageManager.constructor | src/js/storage.js:4-26 | a new manager holds the initialised store |
| Storage.StorageManager.Init | src/js/storage.js:9-26 | the store becomes `InitStore` of the old store |
| Storage.StorageManager.Set | src/js/storage.js:56-64 | the key is written and the call succeeds |
| Storage.StorageManager.RemoveKey | src/js/storage.js:76-84 | the key is removed |
| Storage.StorageManager.Clear | src/js/storage.js:86-95 | the prefixed keys are dropped |
| Storage.StorageManager.AddToLibrary | src/js/storage.js:106-119 | returns the number of new songs, and writes the library only when there is one |
| Storage.StorageManager.RemoveFromLibrary | src/js/storage.js:121-126 | writes the library without the path, and says whether it shrank |
| Storage.StorageManager.UpdateSongInLibrary | src/js/storage.js:128-139 | merges the update into the first song at the path, or reports false and changes nothing |
| Storage.StorageManager.CreatePlaylist | src/js/storage.js:150-186 | appends an empty playlist with the given id, stamped with the given time |
| Storage.StorageManager.DeletePlaylist | src/js/storage.js:188-193 | writes the playlists without the id, and says whether one went |
| Storage.StorageManager.UpdatePlaylist | src/js/storage.js:195-210 | merges into the first playlist with the id, or reports false and changes nothing |
| Storage.StorageManager.AddToPlaylist | src/js/storage.js:212-231 | an unknown id adds nothing; otherwise the new paths are appended and counted |
| Storage.StorageManager.RemoveFromPlaylist | src/js/storage.js:233-249 | an unknown id changes nothing; otherwise the path is removed and the result says whether it was there |
| Storage.StorageManager.AddToFavorites | src/js/storage.js:260-268 | appends the path iff it is not yet a favourite |
| Storage.StorageManager.RemoveFromFavorites | src/js/storage.js:270-275 | removes the path and says whether it was a favourite |
| Storage.StorageManager.IsFavorite | src/js/storage.js:277-280 | true iff the path is among the favourites |
| Storage.StorageManager.ToggleFavorite | src/js/storage.js:282-288 | answers `removed` for a favourite and `added` otherwise, and flips it |
| Storage.StorageManager.UpdateSettings | src/js/storage.js:297-301 | writes the settings overridden by the update |
| Storage.StorageManager.SetSetting | src/js/storage.js:308-310 | writes the settings with the one key updated |
| Storage.StorageManager.UpdatePlaybackState | src/js/storage.js:319-323 | writes the playback state overridden by the update |
| Storage.StorageManager.AddToSearchHistory | src/js/storage.js:330-340 | a blank query changes nothing; otherwise the history becomes `PushHistory` of the query as typed; only the blank test trims |
| Storage.StorageManager.ClearSearchHistory | src/js/storage.js:342-344 | the history becomes empty |
| Storage.StorageManager.UpdateStats | src/js/storage.js:357-361 | writes the statistics overridden by the update |
| Storage.StorageManager.IncrementPlayCount | src/js/storage.js:363-375 | the store becomes `IncrementPlayCountStore` at the given time |
| Storage.StorageManager.AddPlayTime | src/js/storage.js:377-381 | the store becomes `AddPlayTimeStore` |
| Storage.StorageManager.ImportData | src/js/storage.js:396-408 | the store becomes `ImportStore` of the data |
| Utils.FormatTimeSpec | src/js/utils.js:4-10 | `m:ss` with the whole minutes, a colon and the seconds padded to two digits |
| Utils.FormatTimeReadBack | src/js/utils.js:4-10 | the minutes and seconds can be read back from the formatted text |
| Utils.GetFileExtensionSpec | src/js/utils.js:73-75 | the extension is the lower-cased text after the last dot |
| Utils.IsAudioFileByExtension | src/js/utils.js:66-70 | a file is audio iff its dotted extension is one of the seven known ones |
| Utils.GetFileNameSpec | src/js/utils.js:78-80 | the name is the text after the last `/`, and after the last `\` only when the path ends in `/` or is empty |
| Utils.GetFileNameBackslashPath | src/js/utils.js:78-80 | a path without `/` is its own name, backslashes included |
| Utils.StripExtensionSpec | src/js/utils.js:85 | the name changes iff it has an extension, and then only that extension is cut |
| Utils.StripKnownExtension | src/js/musicLibrary.js:219 | cutting the extension from `name.ext` gives `name` |
| Utils.SplitNameSpec | src/js/utils.js:83-107 | at the first separator, the artist is the trimmed text before it and the title is the rest with further separators joined by spaces |
| Utils.ParseNameFirst | src/js/utils.js:83-107 | the first separator in list order that occurs decides the split |
| Utils.ParseNameNone | src/js/utils.js:83-107 | without any separator the artist is the unknown placeholder and the title is the trimmed name |
| Utils.ParseFilenameRoundTrip | src/js/utils.js:83-107 | `Artist - Title.ext` parses back to that artist and title |
| Utils.GetGenreIcon | src/js/utils.js:129-155 | a table genre gets its icon; the lookup reaches an `Object.prototype` member exactly for the lower-cased names `constructor` and `__proto__`; every other result is a table icon or the default note |
| Utils.UnknownGenreNote | src/js/utils.js:154 | a genre neither in the table nor inherited gets the note |
| Utils.ConstructorGenreInherited | src/js/utils.js:153-154 | the genre "Constructor" yields the inherited `constructor` member, not an icon |
| Utils.GenreIconIgnoresCase | src/js/utils.js:129-155 | the lookup ignores letter case |
| Utils.Substr | src/js/utils.js:477-479 | `substr` inside the string is the slice |
| Utils.ContrastColor | src/js/utils.js:472-485 | the answer is black or white |
| Utils.ContrastColorHex | src/js/utils.js:472-485 | for `#rrggbb` the answer is black iff the weighted brightness exceeds 128 |
| Utils.FuzzyMatch | src/js/utils.js:491-509 | the greedy scan answers true iff the lower-cased query is a subsequence of the lower-cased text |
| Utils.GreedyScan | src/js/utils.js:495-506 | the scan reaches the end of the query iff the query is a subsequence of the target |
| Utils.FuzzySubsumesSubstring | src/js/utils.js:491-509 | a text containing the query matches it |
| Utils.ShuffleArray | src/js/utils.js:51-58 | the shuffled copy is a permutation of the input |
| Utils.NormalizeKeyParts | src/js/utils.js:541-548 | a normalised key splits at `+` into the modifiers in fixed order and the lower-cased key |
| Utils.NormalizeKeyInjective | src/js/utils.js:541-548 | keys without `+` normalise alike iff they agree up to case and modifiers |
| Utils.NormalizeKeyPlusCollision | src/js/utils.js:541-548 | a key containing `+` can collide with a modified key |
| Utils.KeyboardShortcuts.constructor | src/js/utils.js:522-525 | no shortcut is registered |
| Utils.KeyboardShortcuts.Register | src/js/utils.js:531-534 | binds the callback under the normalised key |
| Utils.KeyboardShortcuts.Unregister | src/js/utils.js:536-539 | removes the normalised key |
| Utils.KeyboardShortcuts.HandleKeyDown | src/js/utils.js:550-567 | ignores keys typed into inputs, and otherwise finds the callback bound to the pressed combination |
| Utils.BindingAfterRegister | src/js/utils.js:531-534 | after registering, the combination finds the new callback and other combinations find what they found before |
| Utils.BindingAfterUnregister | src/js/utils.js:536-539 | after unregistering, the combination finds nothing and others are unchanged |
| Utils.RegisteredKeyFound | src/js/utils.js:531-567 | pressing a registered combination, with Ctrl or Meta alike, finds its callback |
| Lyrics.TagAt | src/js/lyrics.js:78-82 | a matched tag spans ten or eleven characters from its start |
| Lyrics.FirstTag | src/js/lyrics.js:78 | a tag found from position `p` lies at or after `p`, within the line |
| Lyrics.FirstTagLeftmost | src/js/lyrics.js:78 | the unanchored match is the leftmost tag, and fails only when no tag occurs |
| Lyrics.TagRoundTrip | src/js/lyrics.js:78-85 | a written `[mm:ss.fff]` tag is matched where written and read as its time |
| Lyrics.TwoDigitFraction | src/js/lyrics.js:82 | a two-digit fraction counts as hundredths |
| Lyrics.ParseLine | src/js/lyrics.js:77-94 | an entry has non-empty text and no translation yet |
| Lyrics.LineRest | src/js/lyrics.js:78 | `(.*)` captures the text up to the first line terminator |
| Lyrics.ParseLineSpec | src/js/lyrics.js:77-94 | a line yields an entry iff it has a tag and non-blank text after the first tag, with that tag's time |
| Lyrics.ParseLineAfterTag | src/js/lyrics.js:77-94 | text before the tag is skipped; blank text after it drops the line |
| Lyrics.ByTimePreorder | src/js/lyrics.js:98 | the time comparator is a total preorder |
| Lyrics.ParsedLRCSpec | src/js/lyrics.js:73-99 | the result is sorted by time, holds exactly the entries of the lines, and keeps line order among equal times |
| Lyrics.ParseLRC | src/js/lyrics.js:73-99 | the loop collects the entries of the lines, then sorts |
| Lyrics.TranslateAll | src/js/lyrics.js:102-116 | the translation merge keeps the number of lyric lines |
| Lyrics.TranslateAllSpec | src/js/lyrics.js:102-116 | each line gets the text of the first translation within half a second, or keeps its own translation |
| Lyrics.MergeTranslation | src/js/lyrics.js:108-115 | the in-place loop computes `TranslateAll` |
| Lyrics.TranslateAllSorted | src/js/lyrics.js:102-116 | merging a translation keeps the order by time |
| Lyrics.ReachedPrefix | src/js/lyrics.js:185-192 | the scan stops within the lyrics |
| Lyrics.ActiveIndex | src/js/lyrics.js:181-199 | the active index is a line of the lyrics or -1 |
| Lyrics.ReachedPrefixSpec | src/js/lyrics.js:185-192 | the loop stops at the first line not yet reached |
| Lyrics.ActiveIndexGreatest | src/js/lyrics.js:181-199 | on sorted lyrics the active index is the greatest reached one, or -1 |
| Lyrics.LyricsManager.constructor | src/js/lyrics.js:4-13 | empty lyrics, no active line, enabled, translation hidden, sync on |
| Lyrics.LyricsManager.ParseTranslation | src/js/lyrics.js:102-116 | without text or lyrics nothing changes; otherwise the lyrics become `TranslateAll` |
| Lyrics.LyricsManager.LoadLyrics | src/js/lyrics.js:119-146 | an empty text clears and fails; otherwise the parsed, translated lyrics are loaded with no active line |
| Lyrics.LyricsManager.SyncLyrics | src/js/lyrics.js:181-199 | with lyrics and sync enabled, the active index becomes `ActiveIndex` |
| Lyrics.LyricsManager.ClearLyrics | src/js/lyrics.js:368-380 | texts, lyrics and active index are reset |
| Player.ModeIndex | src/js/player.js:476-491 | the position of a repeat mode, or -1 for an unknown one |
| Player.NextRepeat | src/js/player.js:476-491 | the next mode is always one of the three |
| Player.RepeatCycle | src/js/player.js:476-491 | none → one → all → none, and an unknown mode becomes none |
| Player.NextTargetSpec | src/js/player.js:404-429 | past the end the queue stops unless repeating all; otherwise the target is in range and wraps under repeat-all |
| Player.PrevTargetSpec | src/js/player.js:382-402 | before the start it goes to the last song under repeat-all and to the first otherwise |
| Player.NextPrevInverse | src/js/player.js:382-429 | under repeat-all, next and previous undo each other |
| Player.ClampVolume | src/js/player.js:449-454 | the volume is clamped into `[0, 1]` |
| Player.MuteTwice | src/js/player.js:456-463 | muting sets the volume to 0, and unmuting restores it |
| Player.UnmuteDefault | src/js/player.js:456-463 | unmuting without a saved volume gives 0.5 |
| Player.SeekTarget | src/js/player.js:438-442 | the position is clamped into `[0, duration]` |
| Player.MusicPlayer.constructor | src/js/player.js:4-23 | the initial queue, modes, volume and position |
| Player.MusicPlayer.Play | src/js/player.js:289-300 | starts playing only when a song is loaded; nothing else changes |
| Player.MusicPlayer.Seek | src/js/player.js:438-442 | with a known duration, moves to the clamped position |
| Player.MusicPlayer.LoadSong | src/js/player.js:326-356 | the song becomes current, the position goes back to 0 and the duration is unknown until the metadata arrives (the media load that `audio.src` starts), and auto-play counts a play |
| Player.MusicPlayer.PlayByIndex | src/js/player.js:373-380 | an index in range becomes current, plays from position 0 with the duration unknown, and gains a play in the store; any other index changes nothing |
| Player.MusicPlayer.Previous | src/js/player.js:382-402 | nothing on an empty queue; repeat-one replays from 0; shuffle loads some index of the queue and counts its play; otherwise it loads `PrevTarget`; every load starts at position 0 with the duration unknown |
| Player.MusicPlayer.Next | src/js/player.js:404-429 | nothing on an empty queue; repeat-one replays from 0; shuffle loads some index of the queue and counts its play; otherwise it loads `NextTarget` or pauses in place; every load starts at position 0 with the duration unknown |
| Player.MusicPlayer.SetVolume | src/js/player.js:449-454 | the volume is clamped and saved in the settings |
| Player.MusicPlayer.ToggleMute | src/js/player.js:456-463 | one mute step, saved in the settings |
| Player.MusicPlayer.ToggleRepeat | src/js/player.js:476-491 | the next repeat mode, saved in the settings |
| Player.MusicPlayer.SetPlaylist | src/js/player.js:687-694 | the queue is replaced; a valid start song becomes current, plays from position 0 with the duration unknown and gains a play; otherwise nothing else changes |
| Player.MusicPlayer.OnLoadedMetadata | src/js/player.js:47-50 | the loaded song's duration becomes known; nothing else changes |
| Player.MusicPlayer.AddToQueue | src/js/player.js:696-701 | the songs are appended |
| Player.MusicPlayer.ClearQueue | src/js/player.js:703-707 | the queue is emptied and the index reset |
| Playlists.CreateKeepsNamesUnique | src/js/playlist.js:135-139 | refusing taken names keeps playlist names unique |
| Playlists.RenameTargetSpec | src/js/playlist.js:206-229 | a rename goes ahead iff the playlist exists, the answer is given, and differs from the name and every other name |
| Playlists.RenameToBlank | src/js/playlist.js:211-219 | an answer of only spaces renames the playlist to the empty name |
| Playlists.RenameKeepsNamesUnique | src/js/playlist.js:206-229 | a rename that goes ahead keeps names unique |
| Playlists.M3UBodyConcat | src/js/playlist.js:624-630 | the M3U body of a concatenation is the concatenation of the bodies |
| Playlists.SongPathsSpec | src/js/playlist.js:700-722 | import keeps exactly the trimmed non-comment lines, in order |
| Playlists.CommentSkipped | src/js/playlist.js:708-711 | a `#` line is never a path |
| Playlists.CleanPathKept | src/js/playlist.js:706-716 | a path with no surrounding space that does not start with `#` is kept as written |
| Playlists.M3UBodyPaths | src/js/playlist.js:622-631 | the path lines of an exported body, read back, are the playlist's paths that name library songs |
| Playlists.ExportParseRoundTrip | src/js/playlist.js:615-645 | re-importing an export gives the playlist's paths that name library songs, in order |
| Playlists.BuildM3U | src/js/playlist.js:623-630 | the loop builds the M3U text of the paths |
| Playlists.DistinctValuesBound | src/js/playlist.js:735-736 | there are at most as many artists and albums as songs, and at least one when there is a song |
| Playlists.TotalDurationBound | src/js/playlist.js:734 | the total duration is at most the count times the longest |
| Playlists.StatsOfSongs | src/js/playlist.js:734-744 | the count, total, distinct artists and albums, and the average (0 when empty) |
| Playlists.AverageBound | src/js/playlist.js:744 | the average duration is at most the longest duration |
| Playlists.SelectByNumber | src/js/playlist.js:564-572 | a chosen index lies within range, and a missing or empty answer is no input |
| Playlists.SelectByNumberSpec | src/js/playlist.js:564-572 | the number `n` selects the `n`-th playlist when `1 <= n <= count`, and is invalid otherwise |
| Playlists.PlaylistManager.constructor | src/js/playlist.js:4-13 | the manager holds the stored playlists |
| Playlists.PlaylistManager.CreatePlaylist | src/js/playlist.js:123-163 | fails iff the name is taken; otherwise the playlist is stored; the copy stays in sync and unique |
| Playlists.PlaylistManager.RenamePlaylist | src/js/playlist.js:206-229 | renames exactly when `RenameTarget` allows, keeping the store in sync and names unique |
| Playlists.PlaylistManager.ExportPlaylist | src/js/playlist.js:615-645 | an unknown id gives nothing; otherwise the export of the first playlist with the id |
| Playlists.PlaylistManager.ParseM3U | src/js/playlist.js:700-722 | the imported playlist's paths are `M3UPaths` of the content |
| Playlists.ScanM3ULines | src/js/playlist.js:705-716 | the loop over the lines collects exactly `SongPaths` of them |
| Playlists.PlaylistManager.GetPlaylistStats | src/js/playlist.js:725-745 | an unknown id gives nothing; otherwise the statistics of the resolved songs |
| Playlists.PlaylistManager.PlayPlaylist | src/js/playlist.js:439-466 | starts only when the playlist resolves to songs, in order from the chosen start or shuffled from the first; the start song becomes current, plays from position 0 and gains a play in the store, and a start past the queue loads nothing; shuffle, repeat mode and volumes are untouched |
| Library.Or | src/js/musicLibrary.js:216-222 | `a \|\| b` on strings is one of the two and is empty only when both are |
| Library.CreateSongFromPath | src/js/musicLibrary.js:175-251 | no song for a non-audio name; otherwise the id, path, time and zero plays, with non-empty artist, album, album artist and genre |
| Library.MetadataWins | src/js/musicLibrary.js:216-222 | tag values win over everything derived from the name |
| Library.NoTagsFallback | src/js/musicLibrary.js:216-222 | without tags the title falls back to the parsed name, then the bare file name, the artist falls back to the parsed artist, then the placeholder, and album and genre to their placeholders |
| Library.FileNameFallback | src/js/musicLibrary.js:180-222 | an untagged `Artist - Title.ext` gets that artist and title |
| Library.TallySongs | src/js/musicLibrary.js:253-301 | the `forEach` loop builds the artist, album and genre maps of the songs |
| Library.DistinctAlbums | src/js/musicLibrary.js:305-308 | the loop collects the distinct album names |
| Library.CountAlbums | src/js/musicLibrary.js:304-309 | every artist gets the number of its distinct albums, with the same keys |
| Library.IndexedFromTally | src/js/musicLibrary.js:253-310 | the tally with album counts is the artist index |
| Library.SongInOneArtist | src/js/musicLibrary.js:262-272 | each song is under its artist and under no other |
| Library.SongInOneAlbum | src/js/musicLibrary.js:275-287 | each song is under its `artist - album` key and no other |
| Library.SongInOneGenre | src/js/musicLibrary.js:290-301 | each song is under its genre and no other |
| Library.ArtistEntries | src/js/musicLibrary.js:262-309 | an artist entry holds exactly its songs, their total duration and distinct album count |
| Library.AlbumEntries | src/js/musicLibrary.js:275-287 | an album entry takes title and artist from its first song, and holds exactly its songs and their total |
| Library.GenreEntries | src/js/musicLibrary.js:290-301 | a genre entry holds exactly its songs, their total, and the set of their artists |
| Library.ArtistSizesSum | src/js/musicLibrary.js:262-272 | the artist entries' song counts add up to the library size |
| Library.AlbumSizesSum | src/js/musicLibrary.js:275-287 | the album entries' song counts add up to the library size |
| Library.GenreSizesSum | src/js/musicLibrary.js:290-301 | the genre entries' song counts add up to the library size |
| Library.AlbumKeyAmbiguous | src/js/musicLibrary.js:276 | two different artist/album pairs can share one album key |
| Library.AlbumLookup | src/js/musicLibrary.js:701-703 | the album key is found iff some song has it, and the entry filtered by the exact pair is the album filter |
| Library.SearchResults | src/js/musicLibrary.js:528-541 | the results keep library order, are exactly the matching songs with all their copies, and include every song whose title contains the query |
| Library.SortedLibrary | src/js/musicLibrary.js:581-606 | sorting permutes the songs, and an unknown criterion leaves them as they were |
| Library.SortByDuration | src/js/musicLibrary.js:596-598 | longest first, and songs of equal duration keep their order |
| Library.SortByDateAdded | src/js/musicLibrary.js:599-601 | newest first, and songs added at the same time keep their order |
| Library.SortByTitleOrder | src/js/musicLibrary.js:584-586 | with a consistent collation the songs are sorted by title |
| Library.CreatedSongsPaths | src/js/musicLibrary.js:140-152 | the songs created for a batch are the audio paths of the batch, in order |
| Library.CreatedSongsKept | src/js/musicLibrary.js:140-152 | when a song is made exactly for the kept paths, the created songs' paths are the kept paths, in order |
| Library.CreateSongs | src/js/musicLibrary.js:140-152 | the loop creates the songs of the audio paths |
| Library.MusicLibrary.constructor | src/js/musicLibrary.js:4-16 | the new library holds the stored library, indexed, because `init` runs `loadFromStorage` up to its first `await` (lines 54-56) |
| Library.MusicLibrary.UpdateStatistics | src/js/musicLibrary.js:253-310 | the indexes are rebuilt for the unchanged songs |
| Library.MusicLibrary.LoadFromStorage | src/js/musicLibrary.js:54-62 | the songs are the stored library, indexed |
| Library.MusicLibrary.AddFiles | src/js/musicLibrary.js:136-173 | the created songs go to storage, the songs are reloaded and indexed, and the number added is returned |
| Library.MusicLibrary.Search | src/js/musicLibrary.js:528-544 | a blank query gives the whole library; otherwise the matching songs, the query recorded in the history |
| Library.MusicLibrary.SortLibrary | src/js/musicLibrary.js:581-606 | the songs become `SortedLibrary` and the indexes stay |
| Library.MusicLibrary.FilterByArtist | src/js/musicLibrary.js:609-612 | exactly the artist's songs, in library order, each with all its copies |
| Library.MusicLibrary.FilterByAlbum | src/js/musicLibrary.js:614-619 | exactly the songs with that album and artist, in library order, each with all its copies |
| Library.MusicLibrary.FilterByGenre | src/js/musicLibrary.js:621-624 | exactly the genre's songs, in library order, each with all its copies |
| Library.MusicLibrary.GetSongByPath | src/js/musicLibrary.js:686-688 | a song with the path, and nothing only when there is none |
| Library.MusicLibrary.GetArtist | src/js/musicLibrary.js:696-698 | found iff some song has the artist, and then its songs are the artist filter |
| Library.MusicLibrary.GetAlbum | src/js/musicLibrary.js:701-703 | found iff some song has the album key; filtered by the pair it is the album filter |
| Library.MusicLibrary.GetGenre | src/js/musicLibrary.js:706-708 | found iff some song has the genre, and then its songs are the genre filter, with their artists |
| Ui.Toggled | src/js/ui.js:206-223 | toggling adds the named panel as a key if it is missing |
| Ui.ToggledSpec | src/js/ui.js:206-223 | the named panel opens iff it was closed, every other panel is closed, and at most one is open |
| Ui.ToggleTwice | src/js/ui.js:206-223 | toggling twice restores the named panel and leaves the rest closed |
| Ui.RefreshTarget | src/js/ui.js:361-376 | a refreshed playlist view is one whose name starts with `playlist-` |
| Ui.PlaylistViewRefresh | src/js/ui.js:369-372 | the view of playlist `X` is exactly `playlist-X` |
| Ui.UIManager.constructor | src/js/ui.js:4-13 | the library view, with all three panels closed |
| Ui.UIManager.SwitchView | src/js/ui.js:164-186 | the view changes only when the page has a section for it |
| Ui.UIManager.TogglePanel | src/js/ui.js:206-229 | the panels become `Toggled`, at most one is open, and the lyrics are redrawn iff the lyrics panel was opened |
| Ui.UIManager.CloseAllPanels | src/js/ui.js:231-237 | every panel is closed and no key is added |
| Ui.ParseLyricLine | src/js/ui.js:551-565 | a line without a leading tag yields an entry at time 0 with non-empty text, or nothing |
| Ui.TimedLineKept | src/js/ui.js:552-560 | a leading tag gives its time, and the line is kept even when the text after it is blank |
| Ui.LateTagIgnored | src/js/ui.js:552 | a tag after other text is not recognised, and the whole trimmed line is an entry at time 0 |
| Ui.BlankLineDropped | src/js/ui.js:561-564 | a blank line gives no entry |
| Ui.ParsedLyricsSpec | src/js/ui.js:545-567 | sorted by time, exactly the line entries, stable among equal times, and every non-blank line contributes |
| Ui.ParsedLyricsSound | src/js/ui.js:545-567 | every entry comes from a line of the text |
| Ui.ParseLyrics | src/js/ui.js:545-568 | an empty text gives no entries; otherwise the loop collects the line entries, then sorts |
| Ui.HighlightedLine | src/js/ui.js:586-597 | the highlighted line is the last one already reached, and there is none iff no line is reached |
| Ui.HighlightOnSorted | src/js/ui.js:586-597 | on sorted lines every line up to the highlighted one is reached |
| Ui.ShareParamsSpec | src/js/ui.js:815-829 | title and artist when present, in that order, and the path exactly when there is no title |
| Ui.ShareUrlExists | src/js/ui.js:812-837 | there is a link iff the song has a title or a path, made of the scheme and the parameters |
| Ui.ShareQuerySplits | src/js/ui.js:812-837 | splitting the query at `&` gives back the encoded parameters, in order |
| Ui.ContextMenuGuard | src/js/ui.js:302-359 | an unknown song is ignored unless the action is `remove`; a favourite toggle in a playlist view refreshes that playlist |

## Left out

- DOM rendering, CSS, animation, notifications, dialogs and event binding
  are not modelled. They are Promise- or event-driven and hold no state of
  the core. This covers the view builders of every file, `showLoading` and
  the lyrics panel markup. The answer of a dialog or prompt is a parameter.
- JSON encoding and decoding are the identity. `translated`, `exportedAt`
  and similar fields are stored as the values they hold.
- `localStorage` quota errors are not modelled. Every write succeeds in the
  model, although `set`/`get` in src/js/storage.js:56-74 catch exceptions.
- `getStorageSize`, `cleanup`, `formatFileSize`, `debounce`, `throttle`,
  `generateId` and `stringToColor` are not modelled. They deal with sizes,
  timers, randomness and hashing, not with the state of the core.
- `createAlbumArtPlaceholder`, `createAlbumArtHTML`, `highlightMatch` and
  the `AudioAnalyzer` class are not modelled. They produce markup or sample
  audio.
- `validateLibrary`, `importFiles` and `importFolder` are not modelled.
  They ask the operating system whether files exist and open file dialogs.
  `AddFiles` starts from the chosen paths.
- Utils.ShuffleArray: does not model which permutation `Math.random`
  chooses.
  - The model proves only that the result is a permutation.
  - Shuffled `Next`/`Previous` and `PlayPlaylist` take the random index as
    a choice.
- The player's audio element is reduced to its position, duration and
  volume.
  - Not modelled: `loadSettings`/`saveSettings`, `toggleShuffle`, the `ended`
    event, playback of a failed file, `togglePlay`, `playByPath` and the
    display updates.
  - The position moves only by `seek` and by a load. The `timeupdate`
    listener, which follows the position as the audio plays, is not
    modelled. Of the metadata listeners only `loadedmetadata` is modelled,
    as `OnLoadedMetadata`; `canplay` sets the same duration.
- Library.CreateSongFromPath:
  - takes the audio metadata as a parameter (reading tags is a foreign
    call);
  - does not model file size, bitrate or sample rate;
  - gives every file of a batch the same `now` as `dateAdded`.
- Library.SortByTitleOrder: locale collation (`localeCompare`) is a
  caller-supplied comparison.
  - Sortedness is proved for the title only.
  - The artist and album orders are stated as permutations defined by
    their comparators.
- Library.MusicLibrary.SortLibrary: like the source, it does not rebuild
  the indexes. Their keys and entries stay as they were, in pre-sort order.
- Library.AlbumKeyAmbiguous: the album index joins artist and album with
  `" - "`, so different pairs can share a key. The lemma shows this, and
  Library.MusicLibrary.GetAlbum is stated for that key.
- Playlists.RenameToBlank: as in the source, a rename to spaces only
  succeeds and gives an empty name. The model keeps that behaviour.
- `showCreateDialog`, `showEditDialog`, `deletePlaylist`'s confirmation,
  `showPlaylistSelector`'s list dialog and `importPlaylist`'s file reading
  are not modelled. Only the numbered fallback selector is.
- `createSmartPlaylist` and `testCreatePlaylist` are not modelled. They are
  unused or debugging code.
- Lyrics.TranslateAllSpec: times are whole milliseconds instead of binary
  floating point. The half-second tolerance is `|dt| < 500` ms, which can
  differ from the floating-point comparison at exactly half a second.
- `toLowerCase` changes ASCII letters only; other scripts pass through
  unchanged.
- Strings are sequences of code points, while JavaScript indexes UTF-16
  code units. Lengths in `trim`, `padStart` and `substr` count characters
  outside the Basic Multilingual Plane once instead of twice.
  Utils.FuzzyMatch compares whole code points, so a pattern whose code
  units form a subsequence of the text's units without being whole
  characters of it (for example `"😀"` against `"😁𐘀"`) matches in the
  source but not in the model.
- Utils.FormatTime takes an exact `real`. It does not model the `isNaN`
  branch of src/js/utils.js:5 (`'0:00'` for `NaN`), an infinite input, or
  binary floating-point rounding.
- The single-value forms `Array.isArray(x) ? x : [x]` of
  src/js/storage.js:110, src/js/storage.js:217 and src/js/player.js:697 are
  not modelled. Storage.StorageManager.AddToLibrary,
  Storage.StorageManager.AddToPlaylist and Player.MusicPlayer.AddToQueue
  take sequences only, which is what their callers pass.
- Ui.ShareUrl: form encoding (`URLSearchParams.toString`) is a
  caller-supplied `encode`. The split lemma requires only that the encoding never
  yields `&`.
- `generateShareUrls`, `shareCurrentSong` and `showShareDialog` are not
  modelled. They search an external service and show dialogs.
- Ui.ContextMenuAction describes the effect of each action and does not
  perform it. It leaves out the confirmation of `remove` and the
  notifications.
- `setTheme`, `loadTheme`, the equalizer presets and the keyboard bindings
  of the page are not modelled. They style the page and store one setting
  each.
