/**
 * `PlaybackService`: owns the media session for background playback, decides
 * whether to stop when the app's task is removed, and rewrites the items
 * controllers add so that each plays from its media id.
 */
module Service {
  import opened Options
  import opened Kotlin
  import opened Media
  import opened Songs
  import opened Controller

  /** A media session built around the service's player. */
  datatype MediaSession = MediaSession(id: nat)

  /** The controller asking for the session; the service does not look at it. */
  datatype ControllerInfo = ControllerInfo(packageName: string)

  /** Calls the service makes on the framework. */
  datatype ServiceCall = StopSelf | ReleasePlayer(session: MediaSession) | ReleaseSession(session: MediaSession)

  /** How `onTaskRemoved` ends: it stops the service, lets playback go on, or fails on a missing session. */
  datatype TaskRemoval = StopService | KeepPlaying | NullSession

  /** The stop test of `onTaskRemoved`: playback goes on only if it is wanted, has items and has not ended. */
  predicate ShouldStop(playWhenReady: bool, mediaItemCount: Int, playbackState: Int)
  {
    !playWhenReady || mediaItemCount == 0 || playbackState == STATE_ENDED
  }

  /** An ended player stops the service and shows as stopped in the app. */
  lemma EndedStopsBoth(playWhenReady: bool, mediaItemCount: Int, isPlaying: bool)
    ensures ShouldStop(playWhenReady, mediaItemCount, STATE_ENDED)
    ensures ToSongState(STATE_ENDED, isPlaying) == Stop
  {
  }

  /**
   * With playback wanted and items queued, the app shows STOP while the service
   * keeps running exactly when the player is idle.
   */
  lemma StoppedButRunningIff(mediaItemCount: Int, playbackState: Int, isPlaying: bool)
    requires mediaItemCount != 0
    ensures ToSongState(playbackState, isPlaying) == Stop && !ShouldStop(true, mediaItemCount, playbackState)
      <==> playbackState == STATE_IDLE
  {
  }

  /** `onAddMediaItems`: each item, in order, gets its media id as its URI; nothing else changes. */
  function AddMediaItems(items: seq<MediaItem>): (r: seq<MediaItem>)
    ensures |r| == |items|
    ensures forall i :: 0 <= i < |items| ==>
      r[i].uri == Some(items[i].mediaId) && r[i].mediaId == items[i].mediaId
      && r[i].metadata == items[i].metadata
  {
    seq(|items|, i requires 0 <= i < |items| => items[i].(uri := Some(items[i].mediaId)))
  }

  /** Rewriting twice is rewriting once. */
  lemma AddMediaItemsIdempotent(items: seq<MediaItem>)
    ensures AddMediaItems(AddMediaItems(items)) == AddMediaItems(items)
  {
    var once := AddMediaItems(items);
    var twice := AddMediaItems(once);
    assert forall i :: 0 <= i < |items| ==> twice[i] == once[i];
  }

  /** The items the app's controller sends already play from their id, so the rewrite leaves them as they are. */
  lemma AddMediaItemsKeepsAppItems(songs: seq<SongData>)
    ensures AddMediaItems(ToMediaItems(songs)) == ToMediaItems(songs)
  {
    var items := ToMediaItems(songs);
    var r := AddMediaItems(items);
    assert forall i :: 0 <= i < |items| ==> r[i] == items[i];
  }

  /**
   * Items that arrive with the app's ids and metadata but any URI, none
   * included, come out of the rewrite exactly as the app's controller built them.
   */
  lemma AddMediaItemsRestoresAppItems(songs: seq<SongData>, items: seq<MediaItem>)
    requires |items| == |songs|
    requires forall i :: 0 <= i < |items| ==> items[i] == ToMediaItem(songs[i]).(uri := items[i].uri)
    ensures AddMediaItems(items) == ToMediaItems(songs)
  {
    var r := AddMediaItems(items);
    var built := ToMediaItems(songs);
    assert forall i :: 0 <= i < |items| ==> r[i] == built[i];
  }

  class PlaybackService {
    var mediaSession: Option<MediaSession>
    var calls: seq<ServiceCall>

    constructor ()
      ensures mediaSession == None && calls == []
    {
      mediaSession := None;
      calls := [];
    }

    /** `onCreate`: builds the session around the injected player. */
    method OnCreate(session: MediaSession)
      modifies this`mediaSession
      ensures mediaSession == Some(session)
    {
      mediaSession := Some(session);
    }

    /** `onGetSession`: every controller is given the same session (or null before `onCreate`). */
    method OnGetSession(info: ControllerInfo) returns (r: Option<MediaSession>)
      ensures r == mediaSession
    {
      r := mediaSession;
    }

    /**
     * `onTaskRemoved`: with no session the `!!` fails; otherwise the service
     * stops itself exactly when `ShouldStop` holds of its player.
     */
    method OnTaskRemoved(player: PlayerSnapshot) returns (outcome: TaskRemoval)
      modifies this`calls
      ensures mediaSession.None? ==> outcome == NullSession && calls == old(calls)
      ensures mediaSession.Some? ==>
        if ShouldStop(player.playWhenReady, player.mediaItemCount, player.playbackState)
        then outcome == StopService && calls == old(calls) + [StopSelf]
        else outcome == KeepPlaying && calls == old(calls)
    {
      if mediaSession.None? {
        outcome := NullSession;
      } else if ShouldStop(player.playWhenReady, player.mediaItemCount, player.playbackState) {
        calls := calls + [StopSelf];
        outcome := StopService;
      } else {
        outcome := KeepPlaying;
      }
    }

    /** `onDestroy`: releases the player and then the session, if there is one, and forgets the session. */
    method OnDestroy()
      modifies this`mediaSession, this`calls
      ensures mediaSession == None
      ensures old(mediaSession).None? ==> calls == old(calls)
      ensures old(mediaSession).Some? ==>
        calls == old(calls) + [ReleasePlayer(old(mediaSession).value), ReleaseSession(old(mediaSession).value)]
    {
      match mediaSession {
        case None =>
        case Some(session) =>
          calls := calls + [ReleasePlayer(session), ReleaseSession(session)];
          mediaSession := None;
      }
    }
  }

  /** A second `onDestroy` releases nothing: each session is released once. */
  method DestroyTwice(service: PlaybackService)
    modifies service`mediaSession, service`calls
    ensures service.mediaSession == None
    ensures old(service.mediaSession).None? ==> service.calls == old(service.calls)
    ensures old(service.mediaSession).Some? ==>
      service.calls == old(service.calls)
        + [ReleasePlayer(old(service.mediaSession).value), ReleaseSession(old(service.mediaSession).value)]
  {
    service.OnDestroy();
    service.OnDestroy();
  }
}
