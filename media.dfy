/**
 * The Media3 values the app reads and writes, reduced to what the app looks at.
 * The library's behaviour behind them is not modelled.
 */
module Media {
  import opened Options
  import opened Kotlin

  // Player.getPlaybackState() values.
  const STATE_IDLE: Int := 1
  const STATE_BUFFERING: Int := 2
  const STATE_READY: Int := 3
  const STATE_ENDED: Int := 4

  // Player.getRepeatMode() values.
  const REPEAT_MODE_OFF: Int := 0
  const REPEAT_MODE_ONE: Int := 1
  const REPEAT_MODE_ALL: Int := 2

  /** The metadata fields the app sets or reads; each may be absent (null). */
  datatype MediaMetadata = MediaMetadata(
    title: Option<string>,
    subtitle: Option<string>,
    artist: Option<string>,
    artworkUri: Option<string>)

  /** A playlist entry: its id, the URI it plays from (if set) and its metadata. */
  datatype MediaItem = MediaItem(mediaId: string, uri: Option<string>, metadata: MediaMetadata)

  /** What the app observes of a player at one moment. */
  datatype PlayerSnapshot = PlayerSnapshot(
    playbackState: Int,
    isPlaying: bool,
    playWhenReady: bool,
    mediaItemCount: Int,
    currentMediaItem: Option<MediaItem>,
    currentPosition: Long,
    duration: Long,
    repeatMode: Int)
}
