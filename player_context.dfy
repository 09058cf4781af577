/**
 * The shared audio player state of the front end (frontend/src/contexts/PlayerContext.jsx):
 * the play queue, the current track and its index, the play mode, the playing flag,
 * position, volume and mute, and the operations the components call on them.
 * The single `<audio>` element is represented by three fields (`hasAudio`, `audioTime`,
 * `audioVolume`); `hasAudio` is false while the element is not mounted.
 */
module PlayerContext {
  import opened Wrappers
  import opened Numeric

  /** A queued track: its id and its file path. */
  datatype Track = Track(id: string, path: string)

  const Modes: set<string> := {"loop", "shuffle", "single"}

  /** `playlist[index]`: the track there, or undefined outside the list. */
  function At(playlist: seq<Track>, index: int): (r: Option<Track>)
    ensures r.Some? <==> 0 <= index < |playlist|
    ensures r.Some? ==> r.value == playlist[index]
  {
    if 0 <= index < |playlist| then Some(playlist[index]) else None
  }

  /** `findIndex(m => m.id === id)`: the first position holding `id`, or -1. */
  function FindIndex(playlist: seq<Track>, id: string): (k: int)
    ensures -1 <= k < |playlist|
    ensures k >= 0 ==> playlist[k].id == id && forall j :: 0 <= j < k ==> playlist[j].id != id
    ensures k == -1 ==> forall j :: 0 <= j < |playlist| ==> playlist[j].id != id
  {
    if |playlist| == 0 then -1
    else if playlist[0].id == id then 0
    else
      var k := FindIndex(playlist[1..], id);
      if k == -1 then -1 else k + 1
  }

  /** `togglePlayMode`: loop, shuffle, single, and back to loop; anything else becomes loop. */
  function NextMode(mode: string): (m: string)
    ensures m in Modes
    ensures mode !in Modes ==> m == "loop"
    ensures mode in Modes ==> m != mode
  {
    match mode
    case "loop" => "shuffle"
    case "shuffle" => "single"
    case "single" => "loop"
    case _ => "loop"
  }

  /** Three presses of the mode button return to the starting mode. */
  lemma NextModeCycle(mode: string)
    requires mode in Modes
    ensures NextMode(NextMode(NextMode(mode))) == mode
  {
  }

  /**
   * Loop mode, forward: `(currentIndex + 1) % playlist.length`, inside the list
   * from any index at or after -1 (nothing current).
   */
  function LoopNext(i: int, n: int): (r: int)
    requires n > 0
    ensures i >= -1 ==> 0 <= r < n
  {
    TruncRem(i + 1, n)
  }

  /** Loop mode, backward: the end of the list before the first track; one step back, cyclically. */
  function LoopPrevious(i: int, n: int): (r: int)
    ensures 0 <= i < n ==> 0 <= r < n && (r + 1) % n == i
  {
    if i == 0 then n - 1 else i - 1
  }

  /** Forward and backward in loop mode undo each other and never leave the list. */
  lemma LoopStepsInverse(i: int, n: int)
    requires 0 <= i < n
    ensures 0 <= LoopNext(i, n) < n && 0 <= LoopPrevious(i, n) < n
    ensures LoopPrevious(LoopNext(i, n), n) == i
    ensures LoopNext(LoopPrevious(i, n), n) == i
  {
    LoopNextValue(i, n);
    LoopNextValue(LoopPrevious(i, n), n);
  }

  /** Forward in loop mode is the next index, and the first one after the last. */
  lemma LoopNextValue(i: int, n: int)
    requires 0 <= i < n
    ensures LoopNext(i, n) == if i + 1 == n then 0 else i + 1
  {
    TruncMatchesEuclid(i + 1, n);
    if i + 1 < n {
      assert (i + 1) % n == i + 1;
    } else {
      assert (i + 1) % n == 0;
    }
  }

  /** `playlist.filter((_, i) => i !== index)`. */
  function Removed(playlist: seq<Track>, index: int): (r: seq<Track>)
    ensures 0 <= index < |playlist| ==>
      (|r| == |playlist| - 1
       && (forall j :: 0 <= j < index ==> r[j] == playlist[j])
       && (forall j :: index <= j < |r| ==> r[j] == playlist[j + 1]))
    ensures !(0 <= index < |playlist|) ==> r == playlist
  {
    if 0 <= index < |playlist| then playlist[..index] + playlist[index + 1..] else playlist
  }

  /** The current index once `index` has been removed from a list now of length `newLength`. */
  function IndexAfterRemoval(current: int, index: int, newLength: nat): (r: int)
    ensures 0 <= current <= newLength && 0 <= index <= newLength ==>
      if newLength == 0 then r == -1 else 0 <= r < newLength
  {
    if index == current then
      (if newLength == 0 then -1 else if current < newLength - 1 then current else newLength - 1)
    else if index < current then current - 1
    else current
  }

  /**
   * Removing a track other than the current one keeps the same track current; removing
   * the current one makes its successor (or, at the end, its predecessor) current.
   */
  lemma RemovalKeepsCurrent(playlist: seq<Track>, current: int, index: int)
    requires 0 <= current < |playlist| && 0 <= index < |playlist|
    ensures var r := Removed(playlist, index);
      var k := IndexAfterRemoval(current, index, |r|);
      (index != current ==> 0 <= k < |r| && r[k] == playlist[current])
      && (index == current && |r| > 0 ==>
          (0 <= k < |r| && r[k] == (if current < |r| then playlist[current + 1] else playlist[current - 1])))
  {
  }

  /** Some index in `[0, n)` other than `current` when there is more than one: the shuffle draw. */
  method ShuffleDraw(n: int, current: int) returns (k: int)
    requires n > 0
    ensures 0 <= k < n
    ensures n > 1 ==> k != current
  {
    assert 0 <= (if n > 1 && current == 0 then 1 else 0) < n;
    k :| 0 <= k < n && (n > 1 ==> k != current);
  }

  /**
   * The queue and the current track agree: either nothing is queued and nothing is
   * current, or the index is inside the queue and the current track has the id found there.
   */
  predicate QueueValid(playlist: seq<Track>, current: int, music: Option<Track>) {
    (playlist == [] && current == -1 && music == None)
    || (0 <= current < |playlist| && music.Some? && music.value.id == playlist[current].id)
  }

  /** The track current after removing `index`: the one at the new index when the current one left. */
  function MusicAfterRemoval(playlist: seq<Track>, current: int, music: Option<Track>, index: int): (r: Option<Track>)
    ensures index != current ==> r == music
    ensures 0 <= index == current < |playlist| ==> (r.None? <==> |playlist| == 1)
  {
    if index == current then
      var r := Removed(playlist, index);
      At(r, IndexAfterRemoval(current, index, |r|))
    else music
  }

  /** Removing a track from a consistent queue leaves it consistent. */
  lemma RemovalValid(playlist: seq<Track>, current: int, music: Option<Track>, index: int)
    ensures QueueValid(playlist, current, music) && index >= 0 ==>
      var r := Removed(playlist, index);
      QueueValid(r, IndexAfterRemoval(current, index, |r|), MusicAfterRemoval(playlist, current, music, index))
  {
    if QueueValid(playlist, current, music) && |playlist| > 0 && 0 <= index < |playlist| {
      RemovalKeepsCurrent(playlist, current, index);
    }
  }

  class Player {
    var currentMusic: Option<Track>
    var isPlaying: bool
    var playMode: string
    var playlist: seq<Track>
    var currentIndex: int
    var currentTime: real
    var duration: real
    var volume: real
    var isMuted: bool
    var hasAudio: bool
    var audioTime: real
    var audioVolume: real

    /**
     * The queue and the current track agree: either nothing is queued and nothing is
     * current, or the index is inside the queue and the current track has the id found there.
     */
    predicate Valid()
      reads this
    {
      QueueValid(playlist, currentIndex, currentMusic)
    }

    /** The queue part of the state. */
    function Queue(): (seq<Track>, int, Option<Track>, bool, string)
      reads this
    {
      (playlist, currentIndex, currentMusic, isPlaying, playMode)
    }

    /** The sound part of the state, including the element. */
    function Sound(): (real, real, real, bool, bool, real, real)
      reads this
    {
      (currentTime, duration, volume, isMuted, hasAudio, audioTime, audioVolume)
    }

    /** The initial state; the mount effect copies the volume into the element. */
    constructor (mounted: bool)
      ensures Valid()
      ensures currentMusic == None && !isPlaying && playMode == "loop" && playlist == []
      ensures currentIndex == -1 && currentTime == 0.0 && duration == 0.0
      ensures volume == 1.0 && !isMuted
      ensures hasAudio == mounted && audioTime == 0.0 && audioVolume == 1.0
    {
      currentMusic := None;
      isPlaying := false;
      playMode := "loop";
      playlist := [];
      currentIndex := -1;
      currentTime := 0.0;
      duration := 0.0;
      volume := 1.0;
      isMuted := false;
      hasAudio := mounted;
      audioTime := 0.0;
      audioVolume := 1.0;
    }

    /** `playMusicAtIndex`: only an index holding a track has an effect. */
    method PlayMusicAtIndex(index: int)
      modifies this
      ensures 0 <= index < |playlist| ==>
        (currentIndex == index && currentMusic == Some(playlist[index]) && isPlaying)
      ensures !(0 <= index < |playlist|) ==> Queue() == old(Queue())
      ensures playlist == old(playlist) && playMode == old(playMode)
      ensures old(Valid()) ==> Valid()
      ensures Sound() == old(Sound())
    {
      if 0 <= index < |playlist| {
        currentIndex := index;
        currentMusic := Some(playlist[index]);
        isPlaying := true;
      }
    }

    /**
     * `playMusic`: the track becomes current and plays; a track whose id is not queued
     * is appended, otherwise the first queued copy becomes the current index.
     */
    method PlayMusic(music: Track)
      modifies this
      ensures currentMusic == Some(music) && isPlaying
      ensures FindIndex(old(playlist), music.id) == -1 ==>
        (playlist == old(playlist) + [music] && currentIndex == |old(playlist)|)
      ensures FindIndex(old(playlist), music.id) != -1 ==>
        (playlist == old(playlist) && currentIndex == FindIndex(old(playlist), music.id))
      ensures playMode == old(playMode)
      ensures Valid()
      ensures Sound() == old(Sound())
    {
      currentMusic := Some(music);
      isPlaying := true;
      var existingIndex := FindIndex(playlist, music.id);
      if existingIndex == -1 {
        playlist := playlist + [music];
        currentIndex := |playlist| - 1;
      } else {
        currentIndex := existingIndex;
      }
    }

    /**
     * `setPlaylistAndPlay`: an empty list changes nothing; the start index
     * defaults to 0 when the caller leaves it out (None).
     */
    method SetPlaylistAndPlay(musics: seq<Track>, startIndex: Option<int>)
      modifies this
      ensures var k := if startIndex.Some? then startIndex.value else 0;
        |musics| > 0 ==>
        (playlist == musics && currentIndex == k
         && currentMusic == At(musics, k) && isPlaying && playMode == old(playMode))
      ensures |musics| == 0 ==> Queue() == old(Queue())
      ensures Sound() == old(Sound())
      ensures var k := if startIndex.Some? then startIndex.value else 0;
        |musics| > 0 && 0 <= k < |musics| ==> Valid()
      ensures |musics| == 0 && old(Valid()) ==> Valid()
    {
      var k := if startIndex.Some? then startIndex.value else 0;
      if |musics| > 0 {
        playlist := musics;
        currentIndex := k;
        currentMusic := At(musics, k);
        isPlaying := true;
      }
    }

    /** The index `playNext` moves to in the current mode. */
    method NextIndex() returns (k: int)
      requires |playlist| > 0
      ensures playMode == "shuffle" ==> 0 <= k < |playlist| && (|playlist| > 1 ==> k != currentIndex)
      ensures playMode == "single" ==> k == currentIndex
      ensures playMode != "shuffle" && playMode != "single" ==> k == LoopNext(currentIndex, |playlist|)
    {
      if playMode == "shuffle" {
        k := ShuffleDraw(|playlist|, currentIndex);
      } else if playMode == "single" {
        k := currentIndex;
      } else {
        k := LoopNext(currentIndex, |playlist|);
      }
    }

    /** The index `playPrevious` moves to in the current mode. */
    method PreviousIndex() returns (k: int)
      requires |playlist| > 0
      ensures playMode == "shuffle" ==> 0 <= k < |playlist| && (|playlist| > 1 ==> k != currentIndex)
      ensures playMode == "single" ==> k == currentIndex
      ensures playMode != "shuffle" && playMode != "single" ==> k == LoopPrevious(currentIndex, |playlist|)
    {
      if playMode == "shuffle" {
        k := ShuffleDraw(|playlist|, currentIndex);
      } else if playMode == "single" {
        k := currentIndex;
      } else {
        k := LoopPrevious(currentIndex, |playlist|);
      }
    }

    /** `playNext`: nothing on an empty queue; otherwise move by the mode and play. */
    method PlayNext()
      modifies this
      ensures |playlist| == 0 ==> Queue() == old(Queue())
      ensures |playlist| > 0 ==> currentMusic == At(playlist, currentIndex) && isPlaying
      ensures |playlist| > 0 && playMode == "shuffle" ==>
        (0 <= currentIndex < |playlist| && (|playlist| > 1 ==> currentIndex != old(currentIndex)))
      ensures |playlist| > 0 && playMode == "single" ==> currentIndex == old(currentIndex)
      ensures |playlist| > 0 && playMode != "shuffle" && playMode != "single" ==>
        currentIndex == LoopNext(old(currentIndex), |playlist|)
      ensures playlist == old(playlist) && playMode == old(playMode)
      ensures Sound() == old(Sound())
      ensures old(Valid()) ==> Valid()
    {
      if |playlist| == 0 {
        return;
      }
      var k := NextIndex();
      if playMode != "shuffle" && playMode != "single" && old(Valid()) {
        LoopStepsInverse(currentIndex, |playlist|);
      }
      currentIndex := k;
      currentMusic := At(playlist, k);
      isPlaying := true;
    }

    /** `playPrevious`: nothing on an empty queue; otherwise move back by the mode and play. */
    method PlayPrevious()
      modifies this
      ensures |playlist| == 0 ==> Queue() == old(Queue())
      ensures |playlist| > 0 ==> currentMusic == At(playlist, currentIndex) && isPlaying
      ensures |playlist| > 0 && playMode == "shuffle" ==>
        (0 <= currentIndex < |playlist| && (|playlist| > 1 ==> currentIndex != old(currentIndex)))
      ensures |playlist| > 0 && playMode == "single" ==> currentIndex == old(currentIndex)
      ensures |playlist| > 0 && playMode != "shuffle" && playMode != "single" ==>
        currentIndex == LoopPrevious(old(currentIndex), |playlist|)
      ensures playlist == old(playlist) && playMode == old(playMode)
      ensures Sound() == old(Sound())
      ensures old(Valid()) ==> Valid()
    {
      if |playlist| == 0 {
        return;
      }
      var k := PreviousIndex();
      if playMode != "shuffle" && playMode != "single" && old(Valid()) {
        LoopStepsInverse(currentIndex, |playlist|);
      }
      currentIndex := k;
      currentMusic := At(playlist, k);
      isPlaying := true;
    }

    method TogglePlay()
      modifies this
      ensures isPlaying == !old(isPlaying)
      ensures playlist == old(playlist) && currentIndex == old(currentIndex) && currentMusic == old(currentMusic)
      ensures playMode == old(playMode)
      ensures Sound() == old(Sound())
    {
      isPlaying := !isPlaying;
    }

    method TogglePlayMode()
      modifies this
      ensures playMode == NextMode(old(playMode))
      ensures playlist == old(playlist) && currentIndex == old(currentIndex) && currentMusic == old(currentMusic)
      ensures isPlaying == old(isPlaying)
      ensures Sound() == old(Sound())
    {
      playMode := NextMode(playMode);
    }

    method ClearPlaylist()
      modifies this
      ensures playlist == [] && currentIndex == -1 && currentMusic == None && !isPlaying
      ensures playMode == old(playMode)
      ensures Valid()
      ensures Sound() == old(Sound())
    {
      playlist := [];
      currentIndex := -1;
      currentMusic := None;
      isPlaying := false;
    }

    /**
     * `removeFromPlaylist`: the track at `index` leaves the queue. Removing the current
     * track makes the track now at its position (or the new last one) current, or
     * stops if the queue is empty; removing an earlier track shifts the index down.
     */
    method RemoveFromPlaylist(index: int)
      modifies this
      ensures playlist == Removed(old(playlist), index)
      ensures currentIndex == IndexAfterRemoval(old(currentIndex), index, |playlist|)
      ensures currentMusic == MusicAfterRemoval(old(playlist), old(currentIndex), old(currentMusic), index)
      ensures isPlaying == (old(isPlaying) && !(index == old(currentIndex) && |playlist| == 0))
      ensures playMode == old(playMode)
      ensures old(Valid()) && index >= 0 ==> Valid()
      ensures Sound() == old(Sound())
    {
      var newPlaylist := Removed(playlist, index);
      var newIndex := IndexAfterRemoval(currentIndex, index, |newPlaylist|);
      var newMusic := MusicAfterRemoval(playlist, currentIndex, currentMusic, index);
      var newPlaying := isPlaying && !(index == currentIndex && |newPlaylist| == 0);
      RemovalValid(playlist, currentIndex, currentMusic, index);
      playlist, currentIndex, currentMusic, isPlaying := newPlaylist, newIndex, newMusic, newPlaying;
    }

    /** `seekTo`: only with a mounted element. */
    method SeekTo(time: real)
      modifies this
      ensures hasAudio ==> audioTime == time && currentTime == time
      ensures !hasAudio ==> audioTime == old(audioTime) && currentTime == old(currentTime)
      ensures duration == old(duration) && volume == old(volume) && isMuted == old(isMuted)
      ensures hasAudio == old(hasAudio) && audioVolume == old(audioVolume)
      ensures Queue() == old(Queue())
    {
      if hasAudio {
        audioTime := time;
        currentTime := time;
      }
    }

    /** `changeVolume`: the element follows; the player is muted exactly at volume 0. */
    method ChangeVolume(newVolume: real)
      modifies this
      ensures volume == newVolume
      ensures audioVolume == (if hasAudio then newVolume else old(audioVolume))
      ensures isMuted == (newVolume == 0.0)
      ensures currentTime == old(currentTime) && duration == old(duration)
      ensures hasAudio == old(hasAudio) && audioTime == old(audioTime)
      ensures Queue() == old(Queue())
    {
      volume := newVolume;
      if hasAudio {
        audioVolume := newVolume;
      }
      if newVolume == 0.0 {
        isMuted := true;
      } else if isMuted {
        isMuted := false;
      }
    }

    /**
     * `toggleMute`: unmuting restores the stored volume (0.5 when it is 0); muting keeps
     * the stored volume and silences only the element.
     */
    method ToggleMute()
      modifies this
      ensures old(isMuted) ==>
        (!isMuted && volume == (if old(volume) != 0.0 then old(volume) else 0.5)
         && audioVolume == (if hasAudio then volume else old(audioVolume)))
      ensures !old(isMuted) ==>
        (isMuted && volume == old(volume) && audioVolume == (if hasAudio then 0.0 else old(audioVolume)))
      ensures currentTime == old(currentTime) && duration == old(duration)
      ensures hasAudio == old(hasAudio) && audioTime == old(audioTime)
      ensures Queue() == old(Queue())
    {
      if isMuted {
        ChangeVolume(if volume != 0.0 then volume else 0.5);
      } else {
        isMuted := true;
        if hasAudio {
          audioVolume := 0.0;
        }
      }
    }

    /** `handleEnded`: single mode replays from the start; every other mode plays the next track. */
    method HandleEnded()
      modifies this
      ensures playMode == "single" ==>
        (audioTime == (if hasAudio then 0.0 else old(audioTime)) && Queue() == old(Queue()))
      ensures playMode == "single" ==>
        currentTime == old(currentTime) && duration == old(duration) && volume == old(volume) &&
        isMuted == old(isMuted) && audioVolume == old(audioVolume)
      ensures playMode != "single" && |playlist| > 0 ==> isPlaying && currentMusic == At(playlist, currentIndex)
      ensures playMode != "single" && |playlist| > 0 && playMode != "shuffle" ==>
        currentIndex == LoopNext(old(currentIndex), |playlist|)
      ensures playMode == "shuffle" && |playlist| > 0 ==>
        0 <= currentIndex < |playlist| && (|playlist| > 1 ==> currentIndex != old(currentIndex))
      ensures playMode != "single" && |playlist| == 0 ==> Queue() == old(Queue())
      ensures playMode != "single" ==> Sound() == old(Sound())
      ensures playlist == old(playlist) && playMode == old(playMode)
      ensures hasAudio == old(hasAudio)
      ensures old(Valid()) ==> Valid()
    {
      if playMode == "single" {
        if hasAudio {
          audioTime := 0.0;
        }
      } else {
        PlayNext();
      }
    }

    /**
     * The effect on a change of the playing flag: with an element, a flag set
     * to true calls `play()`, and a refused `play()` clears the flag again; a
     * flag set to false pauses the element, whose own paused state is not
     * part of this model.
     */
    method OnPlayingChanged(playSucceeds: bool)
      modifies this
      ensures isPlaying == (if hasAudio then old(isPlaying) && playSucceeds else old(isPlaying))
      ensures currentMusic == old(currentMusic) && playlist == old(playlist) && currentIndex == old(currentIndex)
      ensures playMode == old(playMode) && Sound() == old(Sound())
      ensures old(Valid()) ==> Valid()
    {
      if hasAudio && isPlaying && !playSucceeds {
        isPlaying := false;
      }
    }

    /**
     * The effect on a new current track: reload from the start and, if playing, start;
     * a refused `play()` clears the playing flag.
     */
    method OnMusicChanged(playSucceeds: bool)
      modifies this
      ensures hasAudio && currentMusic.Some? ==>
        (currentTime == 0.0 && audioTime == 0.0 && isPlaying == (old(isPlaying) && playSucceeds))
      ensures !(hasAudio && currentMusic.Some?) ==>
        (currentTime == old(currentTime) && audioTime == old(audioTime) && isPlaying == old(isPlaying))
      ensures playlist == old(playlist) && currentIndex == old(currentIndex) && currentMusic == old(currentMusic)
      ensures playMode == old(playMode)
      ensures duration == old(duration) && volume == old(volume) && isMuted == old(isMuted)
      ensures hasAudio == old(hasAudio) && audioVolume == old(audioVolume)
    {
      if hasAudio && currentMusic.Some? {
        audioTime := 0.0;
        currentTime := 0.0;
        if isPlaying && !playSucceeds {
          isPlaying := false;
        }
      }
    }

    /** `handleTimeUpdate`: the shown time copies the element's position; nothing else changes. */
    method HandleTimeUpdate()
      modifies this
      ensures currentTime == (if hasAudio then audioTime else old(currentTime))
      ensures duration == old(duration) && volume == old(volume) && isMuted == old(isMuted)
      ensures hasAudio == old(hasAudio) && audioTime == old(audioTime) && audioVolume == old(audioVolume)
      ensures Queue() == old(Queue())
    {
      if hasAudio {
        currentTime := audioTime;
      }
    }

    /** `handleLoadedMetadata`: the duration copies the element's length; nothing else changes. */
    method HandleLoadedMetadata(mediaDuration: real)
      modifies this
      ensures duration == (if hasAudio then mediaDuration else old(duration))
      ensures currentTime == old(currentTime) && volume == old(volume) && isMuted == old(isMuted)
      ensures hasAudio == old(hasAudio) && audioTime == old(audioTime) && audioVolume == old(audioVolume)
      ensures Queue() == old(Queue())
    {
      if hasAudio {
        duration := mediaDuration;
      }
    }
  }

  /** Muting and unmuting again restores a non-zero volume, on the state and on the element. */
  method MuteRoundTrip(p: Player)
    requires !p.isMuted && p.volume != 0.0 && p.hasAudio
    modifies p
    ensures !p.isMuted && p.volume == old(p.volume) && p.audioVolume == old(p.volume)
  {
    p.ToggleMute();
    p.ToggleMute();
  }
}
