/**
 * `PlaySongViewModel`: owns the single UI-state snapshot, replaces it
 * wholesale on every update, and delegates user intents to the controller.
 */
module ViewModel {
  import opened Options
  import opened Kotlin
  import opened Media
  import opened Songs
  import opened Controller

  /** `PlaySongUiState`; `songs` and `songState` are nullable in `PlaySongUiState` and stay so here. */
  datatype PlaySongUiState = PlaySongUiState(
    songs: Option<seq<SongData>>,
    selectedSong: Option<SongData>,
    songState: Option<SongState>,
    currentSong: Option<SongData>,
    currentPosition: Long,
    totalDuration: Long,
    isRepeatOneEnabled: bool)

  /** The snapshot built from the record's default arguments. */
  const InitialUiState: PlaySongUiState :=
    PlaySongUiState(Some([]), None, Some(Stop), None, 0, 0, false)

  /** `List.indexOf`: the first position holding an equal element, or -1; null is never found. */
  function IndexOf(s: seq<SongData>, x: Option<SongData>): (r: int)
    ensures -1 <= r < |s|
    ensures r == -1 <==> x.None? || x.value !in s
    ensures r >= 0 ==> x == Some(s[r]) && forall j :: 0 <= j < r ==> s[j] != s[r]
  {
    if x.None? || s == [] then -1
    else if s[0] == x.value then 0
    else
      var k := IndexOf(s[1..], x);
      if k == -1 then -1 else k + 1
  }

  /** The index `prepare` plays: none when `songs` is null, else the selection's index. */
  function PrepareIndex(ui: PlaySongUiState): (r: Option<int>)
    ensures r.None? <==> ui.songs.None?
    ensures r.Some? ==> r.value == IndexOf(ui.songs.value, ui.selectedSong)
  {
    match ui.songs
    case None => None
    case Some(s) => Some(IndexOf(s, ui.selectedSong))
  }

  /** Before any playlist is installed the list is empty, so `prepare` asks to play index -1. */
  lemma PrepareBeforeInitialize()
    ensures InitialUiState.songs == Some([]) && InitialUiState.selectedSong == None
    ensures InitialUiState.songState == Some(Stop) && InitialUiState.currentSong == None
    ensures InitialUiState.currentPosition == 0 && InitialUiState.totalDuration == 0
    ensures !InitialUiState.isRepeatOneEnabled
    ensures PrepareIndex(InitialUiState) == Some(-1)
  {
  }

  /** In a list without repeats, the `k`-th element is found at `k`. */
  lemma IndexOfDistinct(s: seq<SongData>, k: nat)
    requires k < |s|
    requires forall i, j :: 0 <= i < j < |s| ==> s[i] != s[j]
    ensures IndexOf(s, Some(s[k])) == k
  {
  }

  /** The first element is always found at 0, repeats or not. */
  lemma IndexOfFirst(s: seq<SongData>)
    requires s != []
    ensures IndexOf(s, Some(s[0])) == 0
  {
  }

  /** Selecting any built-in entry makes `prepare` play exactly that entry's index. */
  lemma PrepareDefaultEntry(ui: PlaySongUiState, res: ResourceIds, k: nat)
    requires k < 4
    requires ui.songs == Some(DefaultPlayList(res)) && ui.selectedSong == Some(DefaultPlayList(res)[k])
    ensures PrepareIndex(ui) == Some(k)
  {
    DefaultPlayListDistinct(res);
    IndexOfDistinct(DefaultPlayList(res), k);
  }

  class PlaySongViewModel {
    var uiState: PlaySongUiState
    const controller: MusicControllerImpl
    const handler: HandlerId
    const resources: ResourceIds

    /** Starts from the default snapshot and installs this view model's handler in the controller's slot. */
    constructor (controller: MusicControllerImpl, handler: HandlerId, resources: ResourceIds)
      modifies controller`callback
      ensures this.controller == controller && this.handler == handler && this.resources == resources
      ensures uiState == InitialUiState
      ensures controller.callback == Some(handler)
    {
      this.controller := controller;
      this.handler := handler;
      this.resources := resources;
      uiState := InitialUiState;
      new;
      controller.SetCallback(Some(handler));
    }

    /**
     * The registered callback: overwrites the five playback fields, keeps the
     * list and the selection, and starts position polling when playing.
     */
    method OnCallback(e: Event) returns (startsPolling: bool)
      modifies this`uiState
      ensures uiState == old(uiState).(
        songState := Some(e.state),
        currentSong := e.song,
        currentPosition := e.position,
        totalDuration := e.duration,
        isRepeatOneEnabled := e.repeatOne)
      ensures uiState.songs == old(uiState).songs && uiState.selectedSong == old(uiState).selectedSong
      ensures startsPolling <==> e.state == Playing
    {
      uiState := uiState.(
        songState := Some(e.state),
        currentSong := e.song,
        currentPosition := e.position,
        totalDuration := e.duration,
        isRepeatOneEnabled := e.repeatOne);
      startsPolling := e.state == Playing;
    }

    /**
     * The player reports events: the controller's listener calls whatever is in
     * the slot, and this view model reacts only if its own handler is there.
     * Published position and duration are then never negative.
     */
    method OnPlayerEvents(player: PlayerSnapshot) returns (startsPolling: bool)
      modifies this`uiState
      ensures controller.connected && controller.callback == Some(handler) ==>
        uiState == old(uiState).(
          songState := Some(EventOf(player).state),
          currentSong := EventOf(player).song,
          currentPosition := EventOf(player).position,
          totalDuration := EventOf(player).duration,
          isRepeatOneEnabled := EventOf(player).repeatOne)
        && uiState.currentPosition >= 0 && uiState.totalDuration >= 0
        && (startsPolling <==> EventOf(player).state == Playing)
      ensures !(controller.connected && controller.callback == Some(handler)) ==>
        uiState == old(uiState) && !startsPolling
    {
      var d := controller.OnEvents(player);
      if d.Some? && d.value.handler == handler {
        startsPolling := OnCallback(d.value.event);
      } else {
        startsPolling := false;
      }
    }

    /** One tick of the polling loop: only the position changes, to the controller's unclamped reading. */
    method PollOnce(player: PlayerSnapshot)
      modifies this`uiState
      ensures uiState == old(uiState).(currentPosition := if controller.connected then player.currentPosition else 0)
    {
      var position := controller.GetCurrentPosition(player);
      uiState := uiState.(currentPosition := position);
    }

    /** Installs the built-in list, selects its first song, and hands the same list to the controller. */
    method InitializePlaylist()
      modifies this`uiState, controller`forwarded
      ensures uiState == old(uiState).(
        songs := Some(DefaultPlayList(resources)),
        selectedSong := Some(DefaultPlayList(resources)[0]))
      ensures controller.forwarded == old(controller.forwarded)
        + Sent(controller.connected, [SetMediaItems(ToMediaItems(DefaultPlayList(resources)))])
    {
      var songs := DefaultPlayList(resources);
      uiState := uiState.(songs := Some(songs), selectedSong := Some(songs[0]));
      controller.InitializePlaylist(songs);
    }

    /** Plays the selection's index in the list (-1 when absent); does nothing when the list is null. */
    method Prepare()
      modifies controller`forwarded
      ensures PrepareIndex(uiState).None? ==> controller.forwarded == old(controller.forwarded)
      ensures PrepareIndex(uiState).Some? ==>
        controller.forwarded == old(controller.forwarded)
          + Sent(controller.connected, PlayCommands(PrepareIndex(uiState).value))
    {
      match uiState.songs {
        case None =>
        case Some(songs) =>
          controller.Play(IndexOf(songs, uiState.selectedSong));
      }
    }

    method Resume()
      modifies controller`forwarded
      ensures controller.forwarded == old(controller.forwarded) + Sent(controller.connected, [StartPlayback])
    {
      controller.Resume();
    }

    method Pause()
      modifies controller`forwarded
      ensures controller.forwarded == old(controller.forwarded) + Sent(controller.connected, [PausePlayback])
    {
      controller.Pause();
    }

    method SkipNext()
      modifies controller`forwarded
      ensures controller.forwarded == old(controller.forwarded) + Sent(controller.connected, [SeekToNext])
    {
      controller.SkipNext();
    }

    method SkipPrevious()
      modifies controller`forwarded
      ensures controller.forwarded == old(controller.forwarded) + Sent(controller.connected, [SeekToPrevious])
    {
      controller.SkipPrevious();
    }

    method SeekTo(position: Long)
      modifies controller`forwarded
      ensures controller.forwarded == old(controller.forwarded) + Sent(controller.connected, [SeekToPosition(position)])
    {
      controller.SeekTo(position);
    }

    method ChangeRepeatMode(repeatMode: Int)
      modifies controller`forwarded
      ensures controller.forwarded == old(controller.forwarded) + Sent(controller.connected, [SetRepeatMode(repeatMode)])
    {
      controller.ChangeRepeatMode(repeatMode);
    }

    method Destroy()
      modifies controller`forwarded, controller`callback
      ensures controller.forwarded == old(controller.forwarded) + [ReleaseFuture]
      ensures controller.callback == None
    {
      controller.Destroy();
    }
  }
}
