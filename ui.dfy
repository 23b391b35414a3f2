/** The state the user-interface manager keeps apart from the page itself:
    which side panel is open, the current view, the older lyric parser of the
    lyrics panel with its highlight rule, the share link of a song and the
    context-menu dispatch. */
module Ui {
  import opened Common
  import opened Seqs
  import opened Strings
  import opened Model
  import Lyrics

  // ---------------------------------------------------------------------
  // Panels
  // ---------------------------------------------------------------------

  /** `!!this.panels[name]`: a panel the map does not know is closed. */
  predicate IsOpen(panels: map<string, bool>, name: string) {
    name in panels && panels[name]
  }

  ghost predicate AtMostOneOpen(panels: map<string, bool>) {
    forall a, b :: IsOpen(panels, a) && IsOpen(panels, b) ==> a == b
  }

  predicate AllClosed(panels: map<string, bool>) {
    forall n :: n in panels ==> !panels[n]
  }

  /** The panels after `togglePanel(panelName)`: the named panel flips (an
      unknown name becomes a key, open), every other panel is closed. */
  function Toggled(panels: map<string, bool>, panelName: string): (r: map<string, bool>)
    ensures r.Keys == panels.Keys + {panelName}
  {
    map n | n in panels.Keys + {panelName} :: n == panelName && !IsOpen(panels, panelName)
  }

  /** Toggling opens the named panel exactly when it was closed, and leaves
      no other panel open. */
  lemma ToggledSpec(panels: map<string, bool>, panelName: string, n: string)
    ensures IsOpen(Toggled(panels, panelName), panelName) <==> !IsOpen(panels, panelName)
    ensures n != panelName ==> !IsOpen(Toggled(panels, panelName), n)
    ensures AtMostOneOpen(Toggled(panels, panelName))
  {
  }

  /** Toggling the same panel twice gives it back its old state and leaves
      every other panel closed. */
  lemma ToggleTwice(panels: map<string, bool>, panelName: string, n: string)
    ensures IsOpen(Toggled(Toggled(panels, panelName), panelName), n) <==> n == panelName && IsOpen(panels, panelName)
  {
  }

  /** The initial panels of the constructor. */
  const InitialPanels: map<string, bool> := map["lyrics" := false, "equalizer" := false, "settings" := false]

  /** The page to redraw after a change that may affect the current view. */
  datatype Refresh = LibraryView | FavoritesView | PlaylistView(playlistId: string) | NoRefresh

  const PlaylistPrefix: string := "playlist-"

  /** `refreshCurrentView`: the library and favorites views by name, a view
      `playlist-X` by its playlist id (the first `playlist-` removed), any
      other view not at all. */
  function RefreshTarget(view: string): (r: Refresh)
    ensures r.PlaylistView? ==> StartsWith(view, PlaylistPrefix)
  {
    if view == "library" then LibraryView
    else if view == "favorites" then FavoritesView
    else if StartsWith(view, PlaylistPrefix) then PlaylistView(ReplaceFirst(view, PlaylistPrefix, ""))
    else NoRefresh
  }

  /** The view of playlist `id` refreshes playlist `id`, and it is the only
      view that does. */
  lemma PlaylistViewRefresh(view: string, id: string)
    ensures RefreshTarget(view) == PlaylistView(id) <==> view == PlaylistPrefix + id
  {
    if view == PlaylistPrefix + id {
      assert view[..|PlaylistPrefix|] == PlaylistPrefix;
      assert view[|PlaylistPrefix|..] == id;
      assert view[0] == 'p' && view != "library" && view != "favorites";
      ReplaceFirstPrefix(view, PlaylistPrefix, "");
      assert "" + id == id;
    }
    if RefreshTarget(view) == PlaylistView(id) {
      ReplaceFirstPrefix(view, PlaylistPrefix, "");
      assert "" + view[|PlaylistPrefix|..] == view[|PlaylistPrefix|..];
      assert view == view[..|PlaylistPrefix|] + view[|PlaylistPrefix|..];
    }
  }

  /** The view-and-panel state of `UIManager`. */
  class UIManager {
    var currentView: string
    var panels: map<string, bool>

    constructor()
      ensures currentView == "library" && panels == InitialPanels
      ensures AllClosed(panels) && AtMostOneOpen(panels)
    {
      currentView := "library";
      panels := InitialPanels;
    }

    /** `switchView(viewName)`: the view becomes current when the page has a
        section `<viewName>-view`, or a playlist section with id `viewName`;
        otherwise the current view stays. */
    method SwitchView(viewName: string, hasNamedView: bool, hasPlaylistView: bool)
      modifies this
      ensures currentView == if hasNamedView || hasPlaylistView then viewName else old(currentView)
      ensures panels == old(panels)
    {
      if hasNamedView {
        currentView := viewName;
      } else if hasPlaylistView {
        currentView := viewName;
      }
    }

    /** `togglePanel(panelName)`: flip the named panel, then close every other
        open panel one by one. `refreshLyrics` says whether the lyrics panel
        was just opened, when the source redraws its content. */
    method TogglePanel(panelName: string) returns (refreshLyrics: bool)
      modifies this
      ensures panels == Toggled(old(panels), panelName)
      ensures AtMostOneOpen(panels)
      ensures refreshLyrics <==> panelName == "lyrics" && !IsOpen(old(panels), "lyrics")
      ensures currentView == old(currentView)
    {
      ghost var before := panels;
      panels := panels[panelName := !IsOpen(panels, panelName)];
      var names := panels.Keys;
      while names != {}
        invariant names <= panels.Keys == before.Keys + {panelName}
        invariant panels[panelName] == !IsOpen(before, panelName)
        invariant forall n :: n in panels && n !in names && n != panelName ==> !panels[n]
        invariant currentView == old(currentView)
        decreases names
      {
        var name :| name in names;
        if name != panelName && panels[name] {
          panels := panels[name := false];
        }
        names := names - {name};
      }
      assert panels == Toggled(before, panelName);
      ToggledSpec(before, panelName, panelName);
      refreshLyrics := panelName == "lyrics" && panels[panelName];
    }

    /** `closeAllPanels()`: toggle each open panel; afterwards none is open
        and no panel was added. */
    method CloseAllPanels()
      modifies this
      ensures panels.Keys == old(panels).Keys
      ensures AllClosed(panels)
      ensures currentView == old(currentView)
    {
      var names := panels.Keys;
      while names != {}
        invariant names <= panels.Keys == old(panels).Keys
        invariant forall n :: n in panels && n !in names ==> !panels[n]
        invariant currentView == old(currentView)
        decreases names
      {
        var name :| name in names;
        if panels[name] {
          ghost var before := panels;
          var _ := TogglePanel(name);
          forall n | n in panels
            ensures !panels[n]
          {
            ToggledSpec(before, name, n);
          }
        }
        names := names - {name};
      }
    }
  }

  // ---------------------------------------------------------------------
  // The lyrics panel
  // ---------------------------------------------------------------------

  /** An entry of `parseLyrics`: a time in milliseconds and its text. */
  datatype TimedText = TimedText(time: nat, text: string)

  /** One line of `parseLyrics`: a tag matched at the very start of the line
      gives its time and the trimmed rest, even if that is blank; any other
      non-blank line is an entry at time 0 holding the whole trimmed line;
      a blank line gives nothing. */
  function ParseLyricLine(line: string): (r: Option<TimedText>)
    ensures r.Some? && Lyrics.TagAt(line, 0).None? ==> r.value.time == 0 && r.value.text != ""
  {
    match Lyrics.TagAt(line, 0)
    case Some(t) => Some(TimedText(Lyrics.TagTime(t), Trim(Lyrics.LineRest(line[t.end..]))))
    case None => if Trim(line) != "" then Some(TimedText(0, Trim(line))) else None
  }

  /** A tag at the start of the line sets the time, and the line is kept even
      when nothing follows the tag. */
  lemma TimedLineKept(minutes: nat, seconds: nat, millis: nat, rest: string)
    requires minutes < 100 && seconds < 100 && millis < 1000
    ensures var r := ParseLyricLine(Lyrics.TagText(minutes, seconds, millis) + rest);
      r.Some? && r.value.time == minutes * 60000 + seconds * 1000 + millis && r.value.text == Trim(Lyrics.LineRest(rest))
  {
    LeadingTag(minutes, seconds, millis, rest);
    TaggedLine(Lyrics.TagText(minutes, seconds, millis) + rest, Lyrics.Tag(0, minutes, seconds, millis, 11));
  }

  lemma TaggedLine(line: string, tag: Lyrics.Tag)
    requires Lyrics.TagAt(line, 0) == Some(tag)
    ensures var r := ParseLyricLine(line);
      r.Some? && r.value.time == Lyrics.TagTime(tag) && r.value.text == Trim(Lyrics.LineRest(line[tag.end..]))
  {
  }

  lemma LeadingTag(minutes: nat, seconds: nat, millis: nat, rest: string)
    requires minutes < 100 && seconds < 100 && millis < 1000
    ensures var line := Lyrics.TagText(minutes, seconds, millis) + rest;
      Lyrics.TagAt(line, 0) == Some(Lyrics.Tag(0, minutes, seconds, millis, 11)) && line[11..] == rest
  {
    var line := Lyrics.TagText(minutes, seconds, millis) + rest;
    assert [] + Lyrics.TagText(minutes, seconds, millis) + rest == line;
    Lyrics.TagRoundTrip([], minutes, seconds, millis, rest);
    Lyrics.TagTextSlices([], minutes, seconds, millis, rest);
  }


  /** The tag is anchored: behind any text that does not itself open a tag,
      a tag is not recognised, and the whole line is an untimed entry. */
  lemma LateTagIgnored(prefix: string, minutes: nat, seconds: nat, millis: nat, rest: string)
    requires prefix != [] && prefix[0] != '[' && minutes < 100 && seconds < 100 && millis < 1000
    ensures var line := prefix + Lyrics.TagText(minutes, seconds, millis) + rest;
      ParseLyricLine(line) == Some(TimedText(0, Trim(line)))
  {
    var line := prefix + Lyrics.TagText(minutes, seconds, millis) + rest;
    Lyrics.TagTextSlices(prefix, minutes, seconds, millis, rest);
    assert !IsSpace(line[|prefix|]);
    TrimEmpty(line);
  }

  /** A blank line gives no entry. */
  lemma BlankLineDropped(line: string)
    requires AllSpace(line)
    ensures ParseLyricLine(line).None?
  {
    if line != [] {
      assert IsSpace(line[0]);
    }
    assert Lyrics.TagAt(line, 0).None?;
    TrimEmpty(line);
  }

  /** `(a, b) => a.time - b.time` as an ordering. */
  function ByTime(): (TimedText, TimedText) -> bool {
    (a: TimedText, b: TimedText) => a.time <= b.time
  }

  /** `parseLyrics(lyricsText)`: nothing for an empty text, otherwise the
      entries of the lines stably sorted by time. */
  function ParsedLyrics(lyricsText: string): seq<TimedText> {
    if lyricsText == "" then [] else SortBy(Collect(Split(lyricsText, "\n"), ParseLyricLine), ByTime())
  }

  /** The result is sorted by time, holds exactly the entries of the lines,
      keeps the line order among entries of equal time, and holds an entry
      for every non-blank line. */
  lemma ParsedLyricsSpec(lyricsText: string, t: TimedText, i: nat)
    requires lyricsText != ""
    ensures var lyrics, entries := ParsedLyrics(lyricsText), Collect(Split(lyricsText, "\n"), ParseLyricLine);
      SortedBy(lyrics, ByTime()) && multiset(lyrics) == multiset(entries) &&
      Filter(lyrics, EquivTo(t, ByTime())) == Filter(entries, EquivTo(t, ByTime()))
    ensures var lines := Split(lyricsText, "\n");
      i < |lines| && Trim(lines[i]) != "" ==>
        ParseLyricLine(lines[i]).Some? && ParseLyricLine(lines[i]).value in ParsedLyrics(lyricsText)
  {
    var lines := Split(lyricsText, "\n");
    var entries := Collect(lines, ParseLyricLine);
    assert TotalPreorder(ByTime());
    SortBySorted(entries, ByTime());
    SortByStable(entries, ByTime(), t);
    if i < |lines| && Trim(lines[i]) != "" {
      CollectComplete(lines, ParseLyricLine, i);
      assert multiset(ParsedLyrics(lyricsText)) == multiset(entries);
      assert ParseLyricLine(lines[i]).value in multiset(entries);
    }
  }

  /** Every entry comes from a line of the text. */
  lemma ParsedLyricsSound(lyricsText: string, e: TimedText)
    requires e in ParsedLyrics(lyricsText)
    ensures var lines := Split(lyricsText, "\n");
      exists i :: 0 <= i < |lines| && ParseLyricLine(lines[i]) == Some(e)
  {
    var lines := Split(lyricsText, "\n");
    var entries := Collect(lines, ParseLyricLine);
    assert ParsedLyrics(lyricsText) == SortBy(entries, ByTime());
    assert e in multiset(SortBy(entries, ByTime()));
    assert e in entries;
    CollectSound(lines, ParseLyricLine, e);
    var k :| 0 <= k < |lines| && ParseLyricLine(lines[k]) == Some(e);
    assert Split(lyricsText, "\n")[k] == lines[k];
  }

  /** `parseLyrics(lyricsText)`: push the entry of each line, then sort. */
  method ParseLyrics(lyricsText: string) returns (lyrics: seq<TimedText>)
    ensures lyrics == ParsedLyrics(lyricsText)
    ensures lyricsText == "" ==> lyrics == []
  {
    if lyricsText == "" {
      return [];
    }
    var lines := Split(lyricsText, "\n");
    var acc: seq<TimedText> := [];
    for i := 0 to |lines|
      invariant acc == Collect(lines[..i], ParseLyricLine)
    {
      CollectSnoc(lines, ParseLyricLine, i);
      match ParseLyricLine(lines[i])
      case Some(e) =>
        acc := acc + [e];
      case None =>
    }
    assert lines[..|lines|] == lines;
    lyrics := SortBy(acc, ByTime());
  }

  /** `time <= currentTime`, with the time in seconds as the page stores it. */
  predicate Reached(l: TimedText, currentTime: real) {
    (l.time as real) / 1000.0 <= currentTime
  }

  /** `updateLyricsHighlight`: walk every rendered line and keep the last one
      whose time has been reached; `None` when there is none. */
  method HighlightedLine(lines: seq<TimedText>, currentTime: real) returns (active: Option<nat>)
    ensures active.Some? ==> active.value < |lines| && Reached(lines[active.value], currentTime)
    ensures active.Some? ==> forall j :: active.value < j < |lines| ==> !Reached(lines[j], currentTime)
    ensures active.None? <==> forall j :: 0 <= j < |lines| ==> !Reached(lines[j], currentTime)
  {
    active := None;
    for i := 0 to |lines|
      invariant active.Some? ==> active.value < i && Reached(lines[active.value], currentTime)
      invariant active.Some? ==> forall j :: active.value < j < i ==> !Reached(lines[j], currentTime)
      invariant active.None? <==> forall j :: 0 <= j < i ==> !Reached(lines[j], currentTime)
    {
      if Reached(lines[i], currentTime) {
        active := Some(i);
      }
    }
  }

  /** On sorted lines the highlighted line ends the run of reached lines:
      every line up to it has been reached. */
  lemma HighlightOnSorted(lines: seq<TimedText>, currentTime: real, a: nat, i: nat)
    requires SortedBy(lines, ByTime()) && a < |lines| && Reached(lines[a], currentTime)
    requires forall j :: a < j < |lines| ==> !Reached(lines[j], currentTime)
    ensures i <= a ==> Reached(lines[i], currentTime)
  {
    if i <= a {
      assert ByTime()(lines[i], lines[a]);
    }
  }

  // ---------------------------------------------------------------------
  // Share links
  // ---------------------------------------------------------------------

  /** The query parameters of `generateShareUrl`, in order: `title` and
      `artist` when non-empty, `path` only when there is no title. */
  function ShareParams(song: Song): (r: seq<(string, string)>)
  {
    (if song.title != "" then [("title", song.title)] else []) +
    (if song.artist != "" then [("artist", song.artist)] else []) +
    (if song.title == "" && song.path != "" then [("path", song.path)] else [])
  }

  predicate HasParam(params: seq<(string, string)>, key: string) {
    exists i :: 0 <= i < |params| && params[i].0 == key
  }

  /** One `key=value` pair, both sides form-encoded by `encode`. */
  function Field(encode: string -> string): ((string, string)) -> string {
    (p: (string, string)) => encode(p.0) + "=" + encode(p.1)
  }

  const ShareScheme: string := "mymusic://play?"

  /** `generateShareUrl(song)`: `null` without a song, or when neither a title
      nor a path made it into the parameters; otherwise the scheme followed
      by the parameters joined with `&`. */
  function ShareUrl(song: Option<Song>, encode: string -> string): (r: Option<string>)
  {
    if song.None? then None
    else
      var params := ShareParams(song.value);
      if !HasParam(params, "title") && !HasParam(params, "path") then None
      else Some(ShareScheme + Join(Map(params, Field(encode)), "&"))
  }

  /** Which parameters a song gets: the title when it has one, the artist
      when it has one, the path exactly when it has a path but no title, and
      in that order. */
  lemma ShareParamsSpec(song: Song)
    ensures HasParam(ShareParams(song), "title") <==> song.title != ""
    ensures HasParam(ShareParams(song), "artist") <==> song.artist != ""
    ensures HasParam(ShareParams(song), "path") <==> song.title == "" && song.path != ""
    ensures song.title != "" ==> ShareParams(song)[0] == ("title", song.title)
    ensures song.title != "" && song.artist != "" ==> ShareParams(song)[1] == ("artist", song.artist)
  {
    var params := ShareParams(song);
    if song.title != "" {
      assert params[0].0 == "title";
      assert "path" != "title" && "artist" != "title";
    }
    if song.artist != "" {
      assert "title"[0] != "artist"[0] && "path"[0] != "artist"[0];
      assert params[if song.title != "" then 1 else 0].0 == "artist";
    }
    if song.title == "" && song.path != "" {
      assert params[|params| - 1].0 == "path";
      assert "artist"[0] != "path"[0];
    }
    forall i | 0 <= i < |params| && params[i].0 == "title"
      ensures song.title != ""
    {
      assert "artist"[0] != "title"[0] && "path"[0] != "title"[0];
    }
    forall i | 0 <= i < |params| && params[i].0 == "path"
      ensures song.title == "" && song.path != ""
    {
      assert "artist"[0] != "path"[0] && "title"[0] != "path"[0];
    }
  }

  /** There is a link exactly when the song has a title or a path, and the
      link is the scheme followed by its parameters. */
  lemma ShareUrlExists(song: Song, encode: string -> string)
    ensures ShareUrl(Some(song), encode).Some? <==> song.title != "" || song.path != ""
    ensures ShareUrl(Some(song), encode).Some? ==>
      ShareUrl(Some(song), encode).value == ShareScheme + Join(Map(ShareParams(song), Field(encode)), "&")
  {
    ShareParamsSpec(song);
  }

  /** With an encoding that never yields `&` (as form encoding escapes it),
      splitting the query at `&` gives back the encoded pairs in order. */
  lemma ShareQuerySplits(song: Song, encode: string -> string)
    requires forall s :: '&' !in encode(s)
    requires song.title != "" || song.path != ""
    ensures var url := ShareUrl(Some(song), encode);
      url.Some? && StartsWith(url.value, ShareScheme) &&
      Split(url.value[|ShareScheme|..], "&") == Map(ShareParams(song), Field(encode))
  {
    ShareUrlExists(song, encode);
    var params := ShareParams(song);
    var fields := Map(params, Field(encode));
    var query := Join(fields, "&");
    var url := ShareScheme + query;
    assert url[..|ShareScheme|] == ShareScheme && url[|ShareScheme|..] == query;
    assert params != [] by {
      ShareParamsSpec(song);
    }
    forall i | 0 <= i < |fields|
      ensures '&' !in fields[i]
    {
      MapIndex(params, Field(encode), i);
      var p := params[i];
      assert fields[i] == encode(p.0) + "=" + encode(p.1);
    }
    JoinSplit(fields, '&');
  }

  // ---------------------------------------------------------------------
  // Context menu
  // ---------------------------------------------------------------------

  /** What a context-menu action on a song does. */
  datatype MenuEffect =
    | Ignored
    | PlayPath(path: string)
    | AddToQueue(song: Song)
    | ShowPlaylistSelector(paths: seq<string>)
    | ToggleFavorite(path: string, refresh: Refresh)
    | RemoveFromPlaylist(playlistId: string, path: string)
    | ShowSongInfo(song: Song)
    | ConfirmRemove(path: string)
    | NoEffect

  /** `handleContextMenuAction(action, songPath, context)`: `song` is the
      library's song at `songPath`, `contextPlaylist` the playlist id of the
      menu's context (empty when there is none) and `view` the current view. */
  function ContextMenuAction(action: string, songPath: string, song: Option<Song>, contextPlaylist: string, view: string): (r: MenuEffect)
  {
    if song.None? && action != "remove" then Ignored
    else if action == "play" then PlayPath(songPath)
    else if action == "add-to-queue" then (if song.Some? then AddToQueue(song.value) else NoEffect)
    else if action == "add-to-playlist" then ShowPlaylistSelector([songPath])
    else if action == "favorite" then ToggleFavorite(songPath, RefreshTarget(view))
    else if action == "remove-from-playlist" then (if contextPlaylist != "" then RemoveFromPlaylist(contextPlaylist, songPath) else NoEffect)
    else if action == "show-info" then (if song.Some? then ShowSongInfo(song.value) else NoEffect)
    else if action == "remove" then ConfirmRemove(songPath)
    else NoEffect
  }

  /** The early return: an action on a path the library does not know is
      ignored, unless it is `remove`, which still asks to remove the path. */
  lemma ContextMenuGuard(action: string, songPath: string, song: Option<Song>, contextPlaylist: string, view: string)
    ensures ContextMenuAction(action, songPath, song, contextPlaylist, view) == Ignored <==> song.None? && action != "remove"
    ensures action == "remove" ==> ContextMenuAction(action, songPath, song, contextPlaylist, view) == ConfirmRemove(songPath)
    ensures song.Some? && action == "add-to-queue" ==> ContextMenuAction(action, songPath, song, contextPlaylist, view) == AddToQueue(song.value)
    ensures song.Some? && action == "favorite" && view == PlaylistPrefix + contextPlaylist ==>
      ContextMenuAction(action, songPath, song, contextPlaylist, view) == ToggleFavorite(songPath, PlaylistView(contextPlaylist))
  {
    if song.Some? && action == "favorite" && view == PlaylistPrefix + contextPlaylist {
      PlaylistViewRefresh(view, contextPlaylist);
    }
  }
}
