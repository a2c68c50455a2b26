/**
 * The player's state controller. One shared state record is updated in place
 * by the setters; the audio element is reduced to a snapshot of the values
 * the setters read and write. Times are whole milliseconds throughout (the
 * element's `currentTime` in seconds, times 1000).
 */
module UseMusic {
  import opened Wrappers
  import opened MusicTool

  /** An entry of a track list; the controller reads only its id. */
  datatype Track = Track(id: string)

  /** The track being played: its id, its address and its two lyric lists. */
  datatype MusicInfo = MusicInfo(id: string, url: string, lyricList: seq<string>, lyricTimeList: seq<Stamp>)

  /** What the controller reads of, and writes to, the audio element. */
  datatype AudioSnapshot = AudioSnapshot(currentTime: int, paused: bool, duration: int, ended: bool)

  /** The shared reactive state, without the volume and the track description. */
  datatype PlayerState = PlayerState(
    isPaused: bool,
    currentTime: int,
    duration: int,
    musicInfo: MusicInfo,
    lyricType: Option<string>,
    showLyricBoard: bool,
    currentLyricIndex: int,
    isShowMusicPlayer: bool,
    isToggleImg: bool,
    playType: string,
    playModel: string,
    musicList: seq<Track>,
    customerMusicList: seq<Track>,
    currentSchedule: real,
    isUseProgress: bool,
    isClickLyric: bool)

  /** What `setNext` hands on to the loader: the id of the chosen track, or
      nothing when `list[musicIndex]` is undefined and reading its `id` throws. */
  datatype NextTrack = Load(id: string) | NoTrack

  /** The state before any cached state is applied: paused at 0 with no
      track, no lyrics and empty lists, so `setNext` has nothing to choose. */
  function InitialState(): (r: PlayerState)
    ensures r.isPaused && r.currentTime == 0 && r.musicInfo.lyricList == []
    ensures r.playType == TOP && r.playModel == RANDOM && ActiveList(r) == []
    ensures forall draw :: NextTrackId(ActiveList(r), r.musicInfo.id, r.playModel, true, draw) == NoTrack
  {
    PlayerState(
      isPaused := true, currentTime := 0, duration := 0,
      musicInfo := MusicInfo("", "", [], []),
      lyricType := Some(COMMON), showLyricBoard := false, currentLyricIndex := 0,
      isShowMusicPlayer := false, isToggleImg := false,
      playType := TOP, playModel := RANDOM, musicList := [], customerMusicList := [],
      currentSchedule := 0.0, isUseProgress := false, isClickLyric := false)
  }

  // ---------------------------------------------------------------------------
  // Searches
  // ---------------------------------------------------------------------------

  /** `list.findIndex(item => item.id == id)`: the first position holding `id`, or -1. */
  function IndexOfId(list: seq<Track>, id: string): (i: int)
    ensures -1 <= i < |list|
    ensures 0 <= i ==> list[i].id == id
    ensures forall j :: 0 <= j < |list| && (i == -1 || j < i) ==> list[j].id != id
    decreases |list|
  {
    if list == [] then -1
    else if list[0].id == id then 0
    else
      var k := IndexOfId(list[1..], id);
      if k == -1 then -1 else k + 1
  }

  /** `v >= nowMs` for a stamp: NaN compares false with everything. */
  predicate AtOrAfter(t: Stamp, nowMs: int)
  {
    t.Ms? && t.ms >= nowMs
  }

  /** `lyricTimeList.findIndex(v => v >= audio.currentTime * 1000)`. */
  function FirstAtOrAfter(times: seq<Stamp>, nowMs: int): (i: int)
    ensures -1 <= i < |times|
    ensures 0 <= i ==> AtOrAfter(times[i], nowMs)
    ensures forall j :: 0 <= j < |times| && (i == -1 || j < i) ==> !AtOrAfter(times[j], nowMs)
    decreases |times|
  {
    if times == [] then -1
    else if AtOrAfter(times[0], nowMs) then 0
    else
      var k := FirstAtOrAfter(times[1..], nowMs);
      if k == -1 then -1 else k + 1
  }

  /** The lyric-index lookup `index - 1 || 0`: 0 is the only falsy number it
      can see, so the `|| 0` replaces 0 by 0. */
  function LyricIndex(times: seq<Stamp>, nowMs: int): (r: int)
    ensures -2 <= r <= |times| - 2
  {
    var index := FirstAtOrAfter(times, nowMs);
    var stepped := index - 1;
    if stepped == 0 then 0 else stepped
  }

  /** The lookup is the found position minus one in every case: -1 when the
      first stamp is already at or after the current time, and -2 when no
      stamp is; the `|| 0` never clamps. */
  lemma LyricIndexSteppedBack(times: seq<Stamp>, nowMs: int)
    ensures var i := FirstAtOrAfter(times, nowMs);
      var r := LyricIndex(times, nowMs);
      r == i - 1
  {
  }

  /** What the selected index means: every stamp up to and including it lies
      before the current time (or is NaN) and the next one is at or after it;
      -2 means none is at or after it. The last line is never selected. */
  lemma LyricIndexMeaning(times: seq<Stamp>, nowMs: int)
    ensures var r := LyricIndex(times, nowMs);
      && -2 <= r
      && (r == -2 <==> forall j :: 0 <= j < |times| ==> !AtOrAfter(times[j], nowMs))
      && (-1 <= r ==> r + 1 < |times| && AtOrAfter(times[r + 1], nowMs))
      && (forall j :: 0 <= j <= r && j < |times| ==> !AtOrAfter(times[j], nowMs))
      && r != |times| - 1
  {
    var i := FirstAtOrAfter(times, nowMs);
    if i == -1 && |times| > 0 {
      assert !AtOrAfter(times[0], nowMs);
    }
  }

  // ---------------------------------------------------------------------------
  // Choosing the next track
  // ---------------------------------------------------------------------------

  /** The list `setNext` walks: the customer list for CUSTOM, the chart list
      for TOP and for any other play type. */
  function ActiveList(s: PlayerState): (list: seq<Track>)
    ensures s.playType == CUSTOM ==> list == s.customerMusicList
    ensures s.playType != CUSTOM ==> list == s.musicList
  {
    if s.playType == TOP then s.musicList
    else if s.playType == CUSTOM then s.customerMusicList
    else s.musicList
  }

  /** Where `setNext` starts from: the position of the current id, 0 when it
      is absent. */
  function StartPosition(list: seq<Track>, currentId: string): (r: nat)
    ensures list == [] ==> r == 0
    ensures list != [] ==> r < |list| && (r == 0 || list[r].id == currentId)
    ensures (forall k :: 0 <= k < |list| ==> list[k].id != currentId) ==> r == 0
    ensures (exists k :: 0 <= k < |list| && list[k].id == currentId) ==> list[r].id == currentId
  {
    var found := IndexOfId(list, currentId);
    if found == -1 then 0 else found
  }

  /** The track `setNext` chooses in `list`. */
  function NextTrackId(list: seq<Track>, currentId: string, playModel: string, isPlayNext: bool, draw: int): (r: NextTrack)
    ensures list == [] ==> r == NoTrack
    ensures playModel != RANDOM && list != [] ==> r.Load?
  {
    match GetNextMusic(|list|, StartPosition(list, currentId), playModel, isPlayNext, draw)
    case Some(k) => if 0 <= k < |list| then Load(list[k].id) else NoTrack
    case None => NoTrack
  }

  /** No track is chosen exactly when the list is empty, or the order is random
      over two or more tracks and the draw hits the current position. */
  lemma NextTrackMissing(list: seq<Track>, currentId: string, playModel: string, isPlayNext: bool, draw: int)
    requires list == [] || 0 <= draw < |list|
    ensures NextTrackId(list, currentId, playModel, isPlayNext, draw) == NoTrack
        <==> (list == [] || (playModel == RANDOM && |list| >= 2 && draw == StartPosition(list, currentId)))
  {
    var pos := StartPosition(list, currentId);
    if list != [] {
      if playModel == LISTLOOP {
        ListLoopForward(|list|, pos, draw);
        ListLoopBackward(|list|, pos, draw);
      } else if playModel == RANDOM && |list| >= 2 {
        RandomNeverRepeats(|list|, pos, isPlayNext, draw);
      }
    }
  }

  /** The chosen track per play order: repeat-one keeps the current track
      (the first one when the current id is not in the list), list loop takes
      the neighbour with wrap-around, random takes the drawn track, and any
      other order restarts from the first track. A chosen id is always an id
      of the list. */
  lemma NextTrackChoice(list: seq<Track>, currentId: string, playModel: string, isPlayNext: bool, draw: int)
    requires list != [] && 0 <= draw < |list|
    ensures var r := NextTrackId(list, currentId, playModel, isPlayNext, draw);
      var pos := StartPosition(list, currentId);
      && (r.Load? ==> exists k :: 0 <= k < |list| && list[k].id == r.id)
      && (playModel == SINGLECYCLE ==> r == Load(list[pos].id))
      && (playModel == SINGLECYCLE && IndexOfId(list, currentId) != -1 ==> r == Load(currentId))
      && (playModel == LISTLOOP && isPlayNext ==> r == Load(list[(pos + 1) % |list|].id))
      && (playModel == LISTLOOP && !isPlayNext ==> r == Load(list[(pos - 1) % |list|].id))
      && (playModel == RANDOM && |list| >= 2 && draw != pos ==> r == Load(list[draw].id))
      && (playModel != RANDOM && playModel != LISTLOOP && playModel != SINGLECYCLE ==> r == Load(list[0].id))
  {
    var pos := StartPosition(list, currentId);
    ListLoopForward(|list|, pos, draw);
    ListLoopBackward(|list|, pos, draw);
    if playModel == RANDOM && |list| >= 2 {
      RandomNeverRepeats(|list|, pos, isPlayNext, draw);
    }
    var r := NextTrackId(list, currentId, playModel, isPlayNext, draw);
    if r.Load? {
      var k :| 0 <= k < |list| && GetNextMusic(|list|, pos, playModel, isPlayNext, draw) == Some(k);
      assert list[k].id == r.id;
    }
  }

  // ---------------------------------------------------------------------------
  // The customer list
  // ---------------------------------------------------------------------------

  /** The customer list after `delete`: the first entry with the id spliced out. */
  function DeleteById(list: seq<Track>, id: string): (r: seq<Track>)
    ensures (forall k :: 0 <= k < |list| ==> list[k].id != id) ==> r == list
    ensures (exists k :: 0 <= k < |list| && list[k].id == id) ==> |r| == |list| - 1
  {
    var index := IndexOfId(list, id);
    if index != -1 then list[..index] + list[index + 1..] else list
  }

  /** Deleting removes only the first entry with the id and keeps the other
      entries in order; an absent id leaves the list as it is. */
  lemma DeleteByIdRemovesFirst(list: seq<Track>, id: string)
    ensures var i := IndexOfId(list, id);
      var r := DeleteById(list, id);
      && (i == -1 ==> r == list)
      && (i != -1 ==>
            && |r| == |list| - 1
            && (forall j :: 0 <= j < i ==> r[j] == list[j] && r[j].id != id)
            && (forall j :: i <= j < |r| ==> r[j] == list[j + 1])
            && multiset(r) + multiset{list[i]} == multiset(list))
  {
    var i := IndexOfId(list, id);
    if i != -1 {
      assert list == list[..i] + [list[i]] + list[i + 1..];
    }
  }

  // ---------------------------------------------------------------------------
  // The controller
  // ---------------------------------------------------------------------------

  class MusicPlayer {
    var state: PlayerState
    var audio: AudioSnapshot

    /** The initial state and a fresh, paused audio element. */
    constructor ()
      ensures state == InitialState()
      ensures audio == AudioSnapshot(0, true, 0, false)
    {
      state := InitialState();
      audio := AudioSnapshot(0, true, 0, false);
    }

    /** The `ontimeupdate` handler, run when the element reports `a`. It mirrors
        the element's time (only when non-zero), paused flag and duration;
        recomputes the lyric index unless a lyric click is in flight; takes
        the new progress value `schedule` unless the user is dragging; and
        advances with `setNext(true)` when the track has ended. */
    method OnTimeUpdate(a: AudioSnapshot, schedule: real, draw: int) returns (next: Option<NextTrack>)
      modifies this
      ensures audio == a
      ensures state == old(state).(
        currentTime := if a.currentTime != 0 then a.currentTime else old(state.currentTime),
        isPaused := a.paused,
        duration := a.duration,
        currentLyricIndex :=
          if old(state.isClickLyric) then old(state.currentLyricIndex)
          else LyricIndex(old(state.musicInfo.lyricTimeList), a.currentTime),
        currentSchedule := if old(state.isUseProgress) then old(state.currentSchedule) else schedule)
      ensures old(state.isClickLyric) ==> state.currentLyricIndex == old(state.currentLyricIndex)
      ensures old(state.isUseProgress) ==> state.currentSchedule == old(state.currentSchedule)
      ensures a.currentTime == 0 ==> state.currentTime == old(state.currentTime)
      ensures next.Some? <==> a.ended
      ensures a.ended ==> next == Some(NextTrackId(ActiveList(state), state.musicInfo.id, state.playModel, true, draw))
    {
      audio := a;
      var currentTime, isPaused, duration := state.currentTime, state.isPaused, state.duration;
      var lyricIndex, currentSchedule := state.currentLyricIndex, state.currentSchedule;
      if audio.currentTime != 0 {
        currentTime := audio.currentTime;
      }
      if isPaused != audio.paused {
        isPaused := audio.paused;
      }
      if duration != audio.duration {
        duration := audio.duration;
      }
      if !state.isClickLyric {
        lyricIndex := LyricIndex(state.musicInfo.lyricTimeList, audio.currentTime);
      }
      if !state.isUseProgress {
        currentSchedule := schedule;
      }
      state := state.(currentTime := currentTime, isPaused := isPaused, duration := duration,
                      currentLyricIndex := lyricIndex, currentSchedule := currentSchedule);
      if audio.ended {
        var chosen := SetNext(true, draw);
        next := Some(chosen);
      } else {
        next := None;
      }
    }

    /** `clear()`: zero duration and lyric index. */
    method Clear()
      modifies this`state
      ensures state == old(state).(duration := 0, currentLyricIndex := 0)
    {
      state := state.(duration := 0, currentLyricIndex := 0);
    }

    /** `setPlay(isInit)` up to the playback request: clears, restores the
        element to the saved time on start-up or rewinds both to 0 on a track
        change, flags the image switch, and on start-up pauses the element if
        the saved state was paused. */
    method SetPlay(isInit: bool)
      modifies this
      ensures state == old(state).(
        duration := 0, currentLyricIndex := 0,
        currentTime := if isInit then old(state.currentTime) else 0,
        isToggleImg := true)
      ensures audio == old(audio).(
        currentTime := state.currentTime,
        paused := if isInit && old(state.isPaused) then true else old(audio.paused))
      ensures !isInit ==> state.currentTime == 0 && audio.currentTime == 0
      ensures isInit ==> state.currentTime == old(state.currentTime)
    {
      Clear();
      if isInit {
        audio := audio.(currentTime := state.currentTime);
      } else {
        audio := audio.(currentTime := 0);
        state := state.(currentTime := 0);
      }
      state := state.(isToggleImg := true);
      if isInit && state.isPaused {
        audio := audio.(paused := true);
      }
    }

    /** `togglePlay()`: always clears the image flag; when playing, pauses the
        element and records the pause. */
    method TogglePlay()
      modifies this
      ensures !old(state.isPaused) ==>
        state == old(state).(isPaused := true, isToggleImg := false) && audio == old(audio).(paused := true)
      ensures old(state.isPaused) ==> state == old(state).(isToggleImg := false) && audio == old(audio)
    {
      state := state.(isToggleImg := false);
      if !state.isPaused {
        audio := audio.(paused := true);
        state := state.(isPaused := true);
      }
    }

    /** `setNext(flag)` up to the loader call: picks the active list, starts
        from the current track's position (0 when absent), asks
        `getNextMusic` for an index and reads that entry's id. */
    method SetNext(flag: bool, draw: int) returns (next: NextTrack)
      ensures next == NextTrackId(ActiveList(state), state.musicInfo.id, state.playModel, flag, draw)
      ensures next.Load? ==> exists k :: 0 <= k < |ActiveList(state)| && ActiveList(state)[k].id == next.id
    {
      var list := state.musicList;
      if state.playType == TOP {
        list := state.musicList;
      } else if state.playType == CUSTOM {
        list := state.customerMusicList;
      }
      var index := IndexOfId(list, state.musicInfo.id);
      if index == -1 {
        index := 0;
      }
      var musicIndex := GetNextMusic(|list|, index, state.playModel, flag, draw);
      if musicIndex.Some? && 0 <= musicIndex.value < |list| {
        next := Load(list[musicIndex.value].id);
      } else {
        next := NoTrack;
      }
    }

    /** `setCurrentTime(progress)` with the converted time `time` given: moves
        the state and the element to it, recomputes the lyric index, and if
        the element is paused runs `togglePlay()`. */
    method SetCurrentTime(time: int)
      modifies this
      ensures audio == old(audio).(currentTime := time)
      ensures state == old(state).(
        currentTime := time,
        currentLyricIndex := LyricIndex(old(state.musicInfo.lyricTimeList), time),
        isPaused := old(state.isPaused) || old(audio.paused),
        isToggleImg := if old(audio.paused) then false else old(state.isToggleImg))
    {
      state := state.(currentTime := time);
      audio := audio.(currentTime := time);
      state := state.(currentLyricIndex := LyricIndex(state.musicInfo.lyricTimeList, audio.currentTime));
      if audio.paused {
        TogglePlay();
      }
    }

    /** `setCurrentTimeByClickLyric(index)`: flags the click, then moves the
        element and the state to the clicked line's stamp. When there is no
        such line or its stamp is NaN the assignment to the element throws and
        `ok` is false; nothing but the flag has changed then. */
    method SetCurrentTimeByClickLyric(index: int) returns (ok: bool)
      modifies this
      ensures ok <==> 0 <= index < |old(state.musicInfo.lyricTimeList)| && old(state.musicInfo.lyricTimeList)[index].Ms?
      ensures !ok ==> state == old(state).(isClickLyric := true) && audio == old(audio)
      ensures ok ==>
        var time := old(state.musicInfo.lyricTimeList)[index].ms;
        && audio == old(audio).(currentTime := time)
        && state == old(state).(
             isClickLyric := true,
             currentTime := time,
             isPaused := old(state.isPaused) || old(audio.paused),
             isToggleImg := if old(audio.paused) then false else old(state.isToggleImg))
    {
      state := state.(isClickLyric := true);
      var times := state.musicInfo.lyricTimeList;
      if 0 <= index < |times| && times[index].Ms? {
        var time := times[index].ms;
        audio := audio.(currentTime := time);
        state := state.(currentTime := time);
        if audio.paused {
          TogglePlay();
        }
        ok := true;
      } else {
        ok := false;
      }
    }

    /** `setShowLyricBoard(val)`. */
    method SetShowLyricBoard(val: bool)
      modifies this`state
      ensures state == old(state).(showLyricBoard := val)
    {
      state := state.(showLyricBoard := val);
    }

    /** `setIsShow(flag)`: a true flag shows the player, a false one toggles it. */
    method SetIsShow(flag: bool)
      modifies this`state
      ensures flag ==> state == old(state).(isShowMusicPlayer := true)
      ensures !flag ==> state == old(state).(isShowMusicPlayer := !old(state.isShowMusicPlayer))
    {
      if flag {
        state := state.(isShowMusicPlayer := true);
      } else {
        state := state.(isShowMusicPlayer := !state.isShowMusicPlayer);
      }
    }

    /** `setCustomerMusicList(type, music)`: "add" appends the track; "delete"
        removes the first entry with its id and, when the list is then empty,
        switches the play type back to TOP; any other type changes nothing. */
    method SetCustomerMusicList(kind: string, music: Track)
      modifies this`state
      ensures kind == "add" ==>
        state == old(state).(customerMusicList := old(state.customerMusicList) + [music])
      ensures kind == "delete" ==>
        var rest := DeleteById(old(state.customerMusicList), music.id);
        state == old(state).(customerMusicList := rest, playType := if rest == [] then TOP else old(state.playType))
      ensures kind != "add" && kind != "delete" ==> state == old(state)
    {
      if kind == "add" {
        state := state.(customerMusicList := state.customerMusicList + [music]);
      } else if kind == "delete" {
        var index := IndexOfId(state.customerMusicList, music.id);
        if index != -1 {
          state := state.(customerMusicList := state.customerMusicList[..index] + state.customerMusicList[index + 1..]);
        }
        if |state.customerMusicList| == 0 {
          SetPlayType(TOP);
        }
      }
    }

    /** `setIsToggleImg(isToggleImg)`. */
    method SetIsToggleImg(isToggleImg: bool)
      modifies this`state
      ensures state == old(state).(isToggleImg := isToggleImg)
    {
      state := state.(isToggleImg := isToggleImg);
    }

    /** `setLyricType(val)`: `LYRICTYPE[val]`, undefined for a name that is
        not a lyric mode. */
    method SetLyricType(val: string)
      modifies this`state
      ensures state == old(state).(lyricType := if val == COMMON || val == SPECIAL then Some(val) else None)
    {
      if val == COMMON {
        state := state.(lyricType := Some(COMMON));
      } else if val == SPECIAL {
        state := state.(lyricType := Some(SPECIAL));
      } else {
        state := state.(lyricType := None);
      }
    }

    /** `setPlayType(type)`. */
    method SetPlayType(playType: string)
      modifies this`state
      ensures state == old(state).(playType := playType)
    {
      state := state.(playType := playType);
    }

    /** `setPlayModel(model)`. */
    method SetPlayModel(model: string)
      modifies this`state
      ensures state == old(state).(playModel := model)
    {
      state := state.(playModel := model);
    }

    /** `setIsUseProgress(val)`. */
    method SetIsUseProgress(val: bool)
      modifies this`state
      ensures state == old(state).(isUseProgress := val)
    {
      state := state.(isUseProgress := val);
    }

    /** `setMusicList(list)`. */
    method SetMusicList(list: seq<Track>)
      modifies this`state
      ensures state == old(state).(musicList := list)
    {
      state := state.(musicList := list);
    }
  }
}
