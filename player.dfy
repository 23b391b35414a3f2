/** The player's queue state machine: the play queue, the current index,
    the repeat and shuffle modes, volume, mute and seeking. The audio
    element is reduced to its volume, position and duration. */
module Player {
  import opened Common
  import opened Model
  import opened Storage

  // ---------------------------------------------------------------------
  // Repeat modes
  // ---------------------------------------------------------------------

  const Modes: seq<string> := ["none", "one", "all"]

  /** `modes.indexOf(mode)`, -1 for a mode not in the list. */
  function ModeIndex(mode: string): (i: int)
    ensures -1 <= i < 3
    ensures i >= 0 ==> Modes[i] == mode
    ensures i == -1 ==> mode !in Modes
  {
    if mode == "none" then 0 else if mode == "one" then 1 else if mode == "all" then 2 else -1
  }

  /** The mode `toggleRepeat` moves to. */
  function NextRepeat(mode: string): (r: string)
    ensures r in Modes
  {
    Modes[(ModeIndex(mode) + 1) % |Modes|]
  }

  /** The repeat button cycles none, one, all and back; any other stored mode
      goes to none. */
  lemma RepeatCycle(mode: string)
    ensures NextRepeat("none") == "one" && NextRepeat("one") == "all" && NextRepeat("all") == "none"
    ensures mode !in Modes ==> NextRepeat(mode) == "none"
    ensures mode in Modes ==> NextRepeat(NextRepeat(NextRepeat(mode))) == mode
  {
  }

  // ---------------------------------------------------------------------
  // Index arithmetic of next / previous (without shuffle)
  // ---------------------------------------------------------------------

  /** The index `previous` asks for; `playByIndex` rejects it when it is
      out of range. */
  function PrevTarget(n: nat, current: int, repeatMode: string): int {
    if current - 1 < 0 then (if repeatMode == "all" then n - 1 else 0) else current - 1
  }

  /** The index `next` asks for, or `None` when it pauses instead. */
  function NextTarget(n: nat, current: int, repeatMode: string): Option<int> {
    if current + 1 < n then Some(current + 1)
    else if repeatMode == "all" then Some(0)
    else None
  }

  /** `next` pauses exactly at the end of the queue without repeat-all, and
      otherwise asks for the following index, wrapping to 0; from any index
      at or above -1 that index is in range. */
  lemma NextTargetSpec(n: nat, current: int, repeatMode: string)
    requires n > 0 && current >= -1
    ensures NextTarget(n, current, repeatMode).None? <==> current + 1 >= n && repeatMode != "all"
    ensures NextTarget(n, current, repeatMode).Some? ==> 0 <= NextTarget(n, current, repeatMode).value < n
    ensures repeatMode == "all" && 0 <= current < n ==> NextTarget(n, current, repeatMode) == Some((current + 1) % n)
  {
  }

  /** `previous` asks for an index in range exactly when the current index is
      at most the queue length; below 0 it goes to the last song under
      repeat-all and to the first otherwise. */
  lemma PrevTargetSpec(n: nat, current: int, repeatMode: string)
    requires n > 0
    ensures 0 <= PrevTarget(n, current, repeatMode) < n <==> current <= n
    ensures current <= 0 ==> PrevTarget(n, current, repeatMode) == if repeatMode == "all" then n - 1 else 0
    ensures repeatMode == "all" && 0 <= current < n ==> PrevTarget(n, current, repeatMode) == (current - 1 + n) % n
  {
  }

  /** Under repeat-all, `next` and `previous` undo each other on every index
      of the queue. */
  lemma NextPrevInverse(n: nat, current: int)
    requires 0 <= current < n
    ensures PrevTarget(n, NextTarget(n, current, "all").value, "all") == current
    ensures NextTarget(n, PrevTarget(n, current, "all"), "all") == Some(current)
  {
    NextTargetSpec(n, current, "all");
    PrevTargetSpec(n, current, "all");
  }

  // ---------------------------------------------------------------------
  // Volume, mute and seek
  // ---------------------------------------------------------------------

  /** `Math.max(0, Math.min(1, volume))`. */
  function ClampVolume(v: real): (r: real)
    ensures 0.0 <= r <= 1.0
    ensures 0.0 <= v <= 1.0 ==> r == v
  {
    Clamp(v, 0.0, 1.0)
  }

  /** The volume and saved volume after `toggleMute`: a sounding player saves
      its volume and goes silent; a silent one restores the saved volume, or
      0.5 when none (or 0) is saved. */
  function MuteStep(volume: real, previousVolume: real): (real, real) {
    if volume > 0.0 then (ClampVolume(0.0), volume)
    else (ClampVolume(if previousVolume != 0.0 then previousVolume else 0.5), previousVolume)
  }

  /** Muting and unmuting restores the volume. */
  lemma MuteTwice(volume: real, previousVolume: real)
    requires 0.0 < volume <= 1.0
    ensures MuteStep(volume, previousVolume).0 == 0.0
    ensures var (v, p) := MuteStep(volume, previousVolume); MuteStep(v, p) == (volume, volume)
  {
  }

  /** Unmuting with nothing saved goes to half volume. */
  lemma UnmuteDefault(previousVolume: real)
    requires previousVolume == 0.0
    ensures MuteStep(0.0, previousVolume).0 == 0.5
  {
  }

  /** `Math.max(0, Math.min(time, duration))`. */
  function SeekTarget(time: real, duration: real): (r: real)
    ensures duration >= 0.0 ==> 0.0 <= r <= duration
    ensures 0.0 <= time <= duration ==> r == time
  {
    var m := if time < duration then time else duration;
    if 0.0 > m then 0.0 else m
  }

  // ---------------------------------------------------------------------
  // MusicPlayer
  // ---------------------------------------------------------------------

  /** The player state. `audioDuration` is the audio element's duration, 0
      while unknown; `previousVolume` is 0 until a mute saves one. */
  class MusicPlayer {
    var playlist: seq<Song>
    var currentIndex: int
    var currentSong: Option<Song>
    var isPlaying: bool
    var isShuffling: bool
    var repeatMode: string
    var volume: real
    var previousVolume: real
    var currentTime: real
    var audioDuration: real
    const storage: StorageManager

    constructor(storage: StorageManager)
      ensures this.storage == storage
      ensures playlist == [] && currentIndex == -1 && currentSong == None && !isPlaying
      ensures !isShuffling && repeatMode == "none" && volume == 0.5 && previousVolume == 0.0
      ensures currentTime == 0.0 && audioDuration == 0.0
    {
      this.storage := storage;
      playlist := [];
      currentIndex := -1;
      currentSong := None;
      isPlaying := false;
      isShuffling := false;
      repeatMode := "none";
      volume := 0.5;
      previousVolume := 0.0;
      currentTime := 0.0;
      audioDuration := 0.0;
    }

    /** `play()`: only with a current song; the element then reports playing. */
    method Play()
      modifies this
      ensures isPlaying == (old(isPlaying) || currentSong.Some?)
      ensures playlist == old(playlist) && currentIndex == old(currentIndex) && currentSong == old(currentSong)
      ensures isShuffling == old(isShuffling) && repeatMode == old(repeatMode) && volume == old(volume)
      ensures previousVolume == old(previousVolume) && currentTime == old(currentTime) && audioDuration == old(audioDuration)
    {
      if currentSong.Some? {
        isPlaying := true;
      }
    }

    /** `seek(time)`: clamped to the duration; nothing while it is unknown. */
    method Seek(time: real)
      modifies this
      ensures currentTime == if old(audioDuration) != 0.0 then SeekTarget(time, old(audioDuration)) else old(currentTime)
      ensures playlist == old(playlist) && currentIndex == old(currentIndex) && currentSong == old(currentSong)
      ensures isPlaying == old(isPlaying) && isShuffling == old(isShuffling) && repeatMode == old(repeatMode)
      ensures volume == old(volume) && previousVolume == old(previousVolume) && audioDuration == old(audioDuration)
    {
      if audioDuration != 0.0 {
        currentTime := SeekTarget(time, audioDuration);
      }
    }

    /** `loadSong(song, autoPlay)`: make the song current; with `autoPlay`
        count the play in the statistics and start playing. Setting the
        element's `src` runs the media load algorithm, which puts the position
        back to 0 and leaves the duration unknown until its metadata arrives. */
    method LoadSong(song: Song, autoPlay: bool, now: int)
      modifies this, storage
      ensures currentSong == Some(song)
      ensures isPlaying == (old(isPlaying) || autoPlay)
      ensures storage.store == if autoPlay then IncrementPlayCountStore(old(storage.store), song.path, now) else old(storage.store)
      ensures currentTime == 0.0 && audioDuration == 0.0
      ensures playlist == old(playlist) && currentIndex == old(currentIndex)
      ensures isShuffling == old(isShuffling) && repeatMode == old(repeatMode) && volume == old(volume)
      ensures previousVolume == old(previousVolume)
    {
      currentSong := Some(song);
      currentTime, audioDuration := 0.0, 0.0;
      if autoPlay {
        storage.IncrementPlayCount(song.path, now);
        Play();
      }
    }

    /** `playByIndex(index)`: rejected outside the queue with nothing changed;
        otherwise that song becomes current and plays. */
    method PlayByIndex(index: int, now: int) returns (ok: bool)
      modifies this, storage
      ensures ok <==> 0 <= index < |old(playlist)|
      ensures ok ==> currentIndex == index && currentSong == Some(old(playlist)[index]) && isPlaying
      ensures ok ==> storage.store == IncrementPlayCountStore(old(storage.store), old(playlist)[index].path, now)
      ensures ok ==> currentTime == 0.0 && audioDuration == 0.0
      ensures !ok ==> currentIndex == old(currentIndex) && currentSong == old(currentSong) &&
                      isPlaying == old(isPlaying) && storage.store == old(storage.store) &&
                      currentTime == old(currentTime) && audioDuration == old(audioDuration)
      ensures playlist == old(playlist) && isShuffling == old(isShuffling) && repeatMode == old(repeatMode)
      ensures volume == old(volume) && previousVolume == old(previousVolume)
    {
      if index < 0 || index >= |playlist| {
        return false;
      }
      var song := playlist[index];
      currentIndex := index;
      LoadSong(song, true, now);
      ok := true;
    }

    /** `previous()`. With shuffle the new index is an arbitrary one of the
        queue (standing for `Math.random`). */
    method Previous(now: int)
      modifies this, storage
      ensures |old(playlist)| == 0 ==> currentIndex == old(currentIndex) && currentSong == old(currentSong) &&
                                       isPlaying == old(isPlaying) && currentTime == old(currentTime) && storage.store == old(storage.store) &&
                                       audioDuration == old(audioDuration)
      ensures |old(playlist)| > 0 && old(repeatMode) == "one" ==>
        currentIndex == old(currentIndex) && currentSong == old(currentSong) && storage.store == old(storage.store) &&
        currentTime == (if old(audioDuration) != 0.0 then 0.0 else old(currentTime)) &&
        isPlaying == (old(isPlaying) || old(currentSong).Some?) && audioDuration == old(audioDuration)
      ensures |old(playlist)| > 0 && old(repeatMode) != "one" && old(isShuffling) ==>
        0 <= currentIndex < |playlist| && currentSong == Some(playlist[currentIndex]) && isPlaying &&
        storage.store == IncrementPlayCountStore(old(storage.store), playlist[currentIndex].path, now) &&
        currentTime == 0.0 && audioDuration == 0.0
      ensures |old(playlist)| > 0 && old(repeatMode) != "one" && !old(isShuffling) ==>
        var target := PrevTarget(|old(playlist)|, old(currentIndex), old(repeatMode));
        if 0 <= target < |old(playlist)| then
          currentIndex == target && currentSong == Some(old(playlist)[target]) && isPlaying &&
          storage.store == IncrementPlayCountStore(old(storage.store), old(playlist)[target].path, now) &&
          currentTime == 0.0 && audioDuration == 0.0
        else
          currentIndex == old(currentIndex) && currentSong == old(currentSong) && storage.store == old(storage.store) &&
          currentTime == old(currentTime) && audioDuration == old(audioDuration)
      ensures playlist == old(playlist) && isShuffling == old(isShuffling) && repeatMode == old(repeatMode)
      ensures volume == old(volume) && previousVolume == old(previousVolume)
    {
      if |playlist| == 0 {
        return;
      }
      if repeatMode == "one" {
        Seek(0.0);
        Play();
        return;
      }
      var newIndex;
      if isShuffling {
        newIndex :| 0 <= newIndex < |playlist|;
      } else {
        newIndex := currentIndex - 1;
        if newIndex < 0 {
          newIndex := if repeatMode == "all" then |playlist| - 1 else 0;
        }
      }
      var _ := PlayByIndex(newIndex, now);
    }

    /** `next()`. Past the end of the queue it wraps under repeat-all and
        otherwise pauses where it is. */
    method Next(now: int)
      modifies this, storage
      ensures |old(playlist)| == 0 ==> currentIndex == old(currentIndex) && currentSong == old(currentSong) &&
                                       isPlaying == old(isPlaying) && currentTime == old(currentTime) && storage.store == old(storage.store) &&
                                       audioDuration == old(audioDuration)
      ensures |old(playlist)| > 0 && old(repeatMode) == "one" ==>
        currentIndex == old(currentIndex) && currentSong == old(currentSong) && storage.store == old(storage.store) &&
        currentTime == (if old(audioDuration) != 0.0 then 0.0 else old(currentTime)) &&
        isPlaying == (old(isPlaying) || old(currentSong).Some?) && audioDuration == old(audioDuration)
      ensures |old(playlist)| > 0 && old(repeatMode) != "one" && old(isShuffling) ==>
        0 <= currentIndex < |playlist| && currentSong == Some(playlist[currentIndex]) && isPlaying &&
        storage.store == IncrementPlayCountStore(old(storage.store), playlist[currentIndex].path, now) &&
        currentTime == 0.0 && audioDuration == 0.0
      ensures |old(playlist)| > 0 && old(repeatMode) != "one" && !old(isShuffling) ==>
        match NextTarget(|old(playlist)|, old(currentIndex), old(repeatMode))
        case None =>
          currentIndex == old(currentIndex) && currentSong == old(currentSong) && !isPlaying && storage.store == old(storage.store) &&
          currentTime == old(currentTime) && audioDuration == old(audioDuration)
        case Some(target) =>
          if 0 <= target < |old(playlist)| then
            currentIndex == target && currentSong == Some(old(playlist)[target]) && isPlaying &&
            storage.store == IncrementPlayCountStore(old(storage.store), old(playlist)[target].path, now) &&
            currentTime == 0.0 && audioDuration == 0.0
          else
            currentIndex == old(currentIndex) && currentSong == old(currentSong) && storage.store == old(storage.store) &&
            currentTime == old(currentTime) && audioDuration == old(audioDuration)
      ensures playlist == old(playlist) && isShuffling == old(isShuffling) && repeatMode == old(repeatMode)
      ensures volume == old(volume) && previousVolume == old(previousVolume)
    {
      if |playlist| == 0 {
        return;
      }
      if repeatMode == "one" {
        Seek(0.0);
        Play();
        return;
      }
      var newIndex;
      if isShuffling {
        newIndex :| 0 <= newIndex < |playlist|;
      } else {
        newIndex := currentIndex + 1;
        if newIndex >= |playlist| {
          if repeatMode == "all" {
            newIndex := 0;
          } else {
            isPlaying := false;
            return;
          }
        }
      }
      var _ := PlayByIndex(newIndex, now);
    }

    /** `setVolume(v)`: clamped to [0, 1] and saved in the settings. */
    method SetVolume(v: real)
      modifies this, storage
      ensures volume == ClampVolume(v)
      ensures storage.store == WithSettings(old(storage.store), map["volume" := VNum(ClampVolume(v))])
      ensures playlist == old(playlist) && currentIndex == old(currentIndex) && currentSong == old(currentSong)
      ensures isPlaying == old(isPlaying) && isShuffling == old(isShuffling) && repeatMode == old(repeatMode)
      ensures previousVolume == old(previousVolume) && currentTime == old(currentTime) && audioDuration == old(audioDuration)
    {
      volume := ClampVolume(v);
      var _ := storage.SetSetting("volume", VNum(volume));
    }

    /** `toggleMute()`. */
    method ToggleMute()
      modifies this, storage
      ensures (volume, previousVolume) == MuteStep(old(volume), old(previousVolume))
      ensures storage.store == WithSettings(old(storage.store), map["volume" := VNum(volume)])
      ensures playlist == old(playlist) && currentIndex == old(currentIndex) && currentSong == old(currentSong)
      ensures isPlaying == old(isPlaying) && isShuffling == old(isShuffling) && repeatMode == old(repeatMode)
      ensures currentTime == old(currentTime) && audioDuration == old(audioDuration)
    {
      if volume > 0.0 {
        previousVolume := volume;
        SetVolume(0.0);
      } else {
        SetVolume(if previousVolume != 0.0 then previousVolume else 0.5);
      }
    }

    /** `toggleRepeat()`: the next mode in the cycle, saved in the settings. */
    method ToggleRepeat()
      modifies this, storage
      ensures repeatMode == NextRepeat(old(repeatMode))
      ensures storage.store == WithSettings(old(storage.store), map["repeat" := VStr(repeatMode)])
      ensures playlist == old(playlist) && currentIndex == old(currentIndex) && currentSong == old(currentSong)
      ensures isPlaying == old(isPlaying) && isShuffling == old(isShuffling) && volume == old(volume)
      ensures previousVolume == old(previousVolume) && currentTime == old(currentTime) && audioDuration == old(audioDuration)
    {
      repeatMode := NextRepeat(repeatMode);
      var _ := storage.SetSetting("repeat", VStr(repeatMode));
    }

    /** `setPlaylist(songs, startIndex)`: replace the queue and start the
        song at `startIndex` when there is one. */
    method SetPlaylist(songs: seq<Song>, startIndex: int, now: int)
      modifies this, storage
      ensures playlist == songs && currentIndex == startIndex
      ensures 0 <= startIndex < |songs| ==>
        currentSong == Some(songs[startIndex]) && isPlaying &&
        storage.store == IncrementPlayCountStore(old(storage.store), songs[startIndex].path, now) &&
        currentTime == 0.0 && audioDuration == 0.0
      ensures !(0 <= startIndex < |songs|) ==>
        currentSong == old(currentSong) && isPlaying == old(isPlaying) && storage.store == old(storage.store) &&
        currentTime == old(currentTime) && audioDuration == old(audioDuration)
      ensures isShuffling == old(isShuffling) && repeatMode == old(repeatMode) && volume == old(volume)
      ensures previousVolume == old(previousVolume)
    {
      playlist := songs;
      currentIndex := startIndex;
      if 0 <= startIndex < |songs| {
        LoadSong(songs[startIndex], true, now);
      }
    }

    /** The `loadedmetadata` listener: the element now knows the duration of
        the loaded song (`duration` is 0 when the element reports none). */
    method OnLoadedMetadata(duration: real)
      requires duration >= 0.0
      modifies this
      ensures audioDuration == duration
      ensures playlist == old(playlist) && currentIndex == old(currentIndex) && currentSong == old(currentSong)
      ensures isPlaying == old(isPlaying) && isShuffling == old(isShuffling) && repeatMode == old(repeatMode)
      ensures volume == old(volume) && previousVolume == old(previousVolume) && currentTime == old(currentTime)
    {
      audioDuration := duration;
    }

    /** `addToQueue(songs)`: append, keeping the current index. */
    method AddToQueue(songs: seq<Song>)
      modifies this
      ensures playlist == old(playlist) + songs
      ensures currentIndex == old(currentIndex) && currentSong == old(currentSong) && isPlaying == old(isPlaying)
      ensures isShuffling == old(isShuffling) && repeatMode == old(repeatMode) && volume == old(volume)
      ensures previousVolume == old(previousVolume) && currentTime == old(currentTime) && audioDuration == old(audioDuration)
    {
      playlist := playlist + songs;
    }

    /** `clearQueue()`. */
    method ClearQueue()
      modifies this
      ensures playlist == [] && currentIndex == -1
      ensures currentSong == old(currentSong) && isPlaying == old(isPlaying)
      ensures isShuffling == old(isShuffling) && repeatMode == old(repeatMode) && volume == old(volume)
      ensures previousVolume == old(previousVolume) && currentTime == old(currentTime) && audioDuration == old(audioDuration)
    {
      playlist := [];
      currentIndex := -1;
    }
  }
}
