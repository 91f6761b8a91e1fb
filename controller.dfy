/**
 * `MusicControllerImpl`: the adapter between the app and the media session.
 *
 * The asynchronous connection is a `connected` flag that `Connect` sets when
 * the session client becomes available. Every call the adapter makes into
 * the session client is appended to `forwarded`; what the player then does
 * with it is outside the model. The single callback slot holds the identity
 * of the handler registered last, or nothing.
 */
module Controller {
  import opened Options
  import opened Kotlin
  import opened Media
  import opened Songs

  /** `Int.toSongState(isPlaying)`: idle and ended mean stopped; otherwise the flag decides. */
  function ToSongState(playbackState: Int, isPlaying: bool): (r: SongState)
    ensures r == Stop <==> playbackState == STATE_IDLE || playbackState == STATE_ENDED
    ensures r == Playing <==> playbackState != STATE_IDLE && playbackState != STATE_ENDED && isPlaying
    ensures r == Pause <==> playbackState != STATE_IDLE && playbackState != STATE_ENDED && !isPlaying
  {
    if playbackState == STATE_IDLE then Stop
    else if playbackState == STATE_ENDED then Stop
    else if isPlaying then Playing else Pause
  }

  /** Kotlin's `coerceAtLeast`. */
  function CoerceAtLeast(x: Long, minimum: Long): (r: Long)
    ensures r >= minimum && r >= x
    ensures r == x || r == minimum
  {
    if x < minimum then minimum else x
  }

  /** Whether a player repeat mode is "repeat the current item". */
  predicate IsRepeatOne(repeatMode: Int)
  {
    repeatMode == REPEAT_MODE_ONE
  }

  /** The arguments handed to the callback for one batch of player events. */
  datatype Event = Event(
    state: SongState,
    song: Option<SongData>,
    position: Long,
    duration: Long,
    repeatOne: bool)

  /** The event the adapter publishes for a player snapshot. */
  function EventOf(p: PlayerSnapshot): (e: Event)
    ensures e.state == ToSongState(p.playbackState, p.isPlaying)
    ensures e.song.Some? <==> p.currentMediaItem.Some?
    ensures e.song.Some? ==> e.song.value == ToSong(p.currentMediaItem.value)
    ensures e.position >= 0 && e.duration >= 0
    ensures p.currentPosition >= 0 ==> e.position == p.currentPosition
    ensures p.currentPosition < 0 ==> e.position == 0
    ensures p.duration >= 0 ==> e.duration == p.duration
    ensures p.duration < 0 ==> e.duration == 0
    ensures e.repeatOne <==> p.repeatMode == REPEAT_MODE_ONE
  {
    Event(
      ToSongState(p.playbackState, p.isPlaying),
      MapOption(p.currentMediaItem, ToSong),
      CoerceAtLeast(p.currentPosition, 0),
      CoerceAtLeast(p.duration, 0),
      IsRepeatOne(p.repeatMode))
  }

  /** A call made on the session client, or on its future. */
  datatype Command =
    | SetMediaItems(items: seq<MediaItem>)
    | SeekToDefaultPosition(mediaItemIndex: int)
    | PreparePlayer
    | StartPlayback
    | PausePlayback
    | SeekToPosition(position: Long)
    | SetRepeatMode(repeatMode: Int)
    | SeekToNext
    | SeekToPrevious
    | ReleaseFuture

  /** `mediaController?.…`: the calls are made only once the connection exists. */
  function Sent(connected: bool, calls: seq<Command>): seq<Command>
  {
    if connected then calls else []
  }

  /** What `play(i)` asks of the session client, in order. */
  function PlayCommands(mediaItemIndex: int): seq<Command>
  {
    [SeekToDefaultPosition(mediaItemIndex), PreparePlayer]
  }

  /** The identity of a registered callback. */
  type HandlerId = nat

  /** An event on its way to the handler in the callback slot. */
  datatype Delivery = Delivery(handler: HandlerId, event: Event)

  class MusicControllerImpl {
    var connected: bool
    var callback: Option<HandlerId>
    var forwarded: seq<Command>

    /** Starts connecting; no client is available yet and no callback is set. */
    constructor ()
      ensures !connected && callback == None && forwarded == []
    {
      connected := false;
      callback := None;
      forwarded := [];
    }

    /** The connection future completes. */
    method Connect()
      modifies this`connected
      ensures connected
    {
      connected := true;
    }

    /** Assigning `mediaControllerCallback`: the new value replaces the old one. */
    method SetCallback(h: Option<HandlerId>)
      modifies this`callback
      ensures callback == h
    {
      callback := h;
    }

    /**
     * The player listener's `onEvents`: a listener exists only once connected,
     * and the event goes to the handler in the slot, if there is one.
     */
    method OnEvents(player: PlayerSnapshot) returns (d: Option<Delivery>)
      ensures d.Some? <==> connected && callback.Some?
      ensures d.Some? ==> d.value.handler == callback.value && d.value.event == EventOf(player)
    {
      if connected && callback.Some? {
        d := Some(Delivery(callback.value, EventOf(player)));
      } else {
        d := None;
      }
    }

    method InitializePlaylist(songs: seq<SongData>)
      modifies this`forwarded
      ensures forwarded == old(forwarded) + Sent(connected, [SetMediaItems(ToMediaItems(songs))])
    {
      if connected {
        forwarded := forwarded + [SetMediaItems(ToMediaItems(songs))];
      }
    }

    method Play(mediaItemIndex: int)
      modifies this`forwarded
      ensures forwarded == old(forwarded) + Sent(connected, PlayCommands(mediaItemIndex))
    {
      if connected {
        forwarded := forwarded + [SeekToDefaultPosition(mediaItemIndex)];
      }
      if connected {
        forwarded := forwarded + [PreparePlayer];
      }
    }

    method Resume()
      modifies this`forwarded
      ensures forwarded == old(forwarded) + Sent(connected, [StartPlayback])
    {
      if connected {
        forwarded := forwarded + [StartPlayback];
      }
    }

    method Pause()
      modifies this`forwarded
      ensures forwarded == old(forwarded) + Sent(connected, [PausePlayback])
    {
      if connected {
        forwarded := forwarded + [PausePlayback];
      }
    }

    /** The client's position, or 0 while there is no client. */
    method GetCurrentPosition(player: PlayerSnapshot) returns (position: Long)
      ensures connected ==> position == player.currentPosition
      ensures !connected ==> position == 0
    {
      position := if connected then player.currentPosition else 0;
    }

    /** The client's current item as a song, or null while there is no client or no item. */
    method GetCurrentSong(player: PlayerSnapshot) returns (song: Option<SongData>)
      ensures song.Some? <==> connected && player.currentMediaItem.Some?
      ensures song.Some? ==> song.value == ToSong(player.currentMediaItem.value)
    {
      if connected {
        song := MapOption(player.currentMediaItem, ToSong);
      } else {
        song := None;
      }
    }

    /** The position is passed on as given; no clamping happens here. */
    method SeekTo(position: Long)
      modifies this`forwarded
      ensures forwarded == old(forwarded) + Sent(connected, [SeekToPosition(position)])
    {
      if connected {
        forwarded := forwarded + [SeekToPosition(position)];
      }
    }

    method ChangeRepeatMode(repeatMode: Int)
      modifies this`forwarded
      ensures forwarded == old(forwarded) + Sent(connected, [SetRepeatMode(repeatMode)])
    {
      if connected {
        forwarded := forwarded + [SetRepeatMode(repeatMode)];
      }
    }

    method SkipNext()
      modifies this`forwarded
      ensures forwarded == old(forwarded) + Sent(connected, [SeekToNext])
    {
      if connected {
        forwarded := forwarded + [SeekToNext];
      }
    }

    method SkipPrevious()
      modifies this`forwarded
      ensures forwarded == old(forwarded) + Sent(connected, [SeekToPrevious])
    {
      if connected {
        forwarded := forwarded + [SeekToPrevious];
      }
    }

    /** Releases the future (whether or not it has completed) and empties the callback slot. */
    method Destroy()
      modifies this`forwarded, this`callback
      ensures forwarded == old(forwarded) + [ReleaseFuture]
      ensures callback == None
    {
      forwarded := forwarded + [ReleaseFuture];
      callback := None;
    }
  }

  /** After `destroy` no event reaches any handler, whatever the player reports. */
  method DestroyThenEvent(c: MusicControllerImpl, player: PlayerSnapshot) returns (d: Option<Delivery>)
    modifies c`forwarded, c`callback
    ensures d == None
    ensures c.callback == None
  {
    c.Destroy();
    d := c.OnEvents(player);
  }

  /** Registering a second handler replaces the first: only the second receives events. */
  method ReplaceCallback(c: MusicControllerImpl, first: HandlerId, second: HandlerId, player: PlayerSnapshot)
    returns (d: Option<Delivery>)
    modifies c`callback
    ensures c.connected ==> d == Some(Delivery(second, EventOf(player)))
    ensures !c.connected ==> d == None
  {
    c.SetCallback(Some(first));
    c.SetCallback(Some(second));
    d := c.OnEvents(player);
  }

  /**
   * While the connection is pending every command is dropped, and the reads
   * give 0 and null.
   */
  method CommandsWhileConnecting(
    c: MusicControllerImpl, songs: seq<SongData>, index: int, position: Long, repeatMode: Int,
    player: PlayerSnapshot)
    returns (readPosition: Long, readSong: Option<SongData>)
    requires !c.connected
    modifies c`forwarded
    ensures c.forwarded == old(c.forwarded)
    ensures readPosition == 0 && readSong == None
  {
    c.InitializePlaylist(songs);
    c.Play(index);
    c.Resume();
    c.Pause();
    c.SeekTo(position);
    c.ChangeRepeatMode(repeatMode);
    c.SkipNext();
    c.SkipPrevious();
    readPosition := c.GetCurrentPosition(player);
    readSong := c.GetCurrentSong(player);
  }
}
