# Music player: adapter, view model and helpers

This project models the app-side logic of a small Android music player built on
Media3. It covers five parts:

- **`Controller`** (`MusicControllerImpl`) is the adapter over the media-session client.
  - It maps the player's playback state and `isPlaying` flag onto the app's three-way `SongState`.
  - It builds the event tuple for the single callback slot.
  - It forwards commands only once the connection exists; reads return 0 or null before that.
  - The asynchronous connection is a `connected` flag.
  - Every call the adapter makes on the session client is appended to the `forwarded` log.
  - The callback slot holds the identity (`HandlerId`) of the handler registered last.
- **`ViewModel`** (`PlaySongViewModel`) owns one `PlaySongUiState` record and replaces it wholesale.
  - The handler it installs overwrites the five playback fields.
  - One polling step re-reads the position.
  - `initializePlaylist` installs the built-in list and selects its first song.
  - `prepare` plays the selection's `indexOf`.
  - The other intents are passed straight to the controller.
- **`Songs`** holds the `SongData` track descriptor, its conversions to and from the player's `MediaItem`, and the built-in four-song playlist.
- **`Screen`** holds the `m:ss` label `toTime` and the arithmetic behind the transport buttons.
- **`Service`** (`PlaybackService`) covers four decisions:
  - the stop test when the task is removed;
  - the `onAddMediaItems` rewrite;
  - `onGetSession`;
  - releasing the session once in `onDestroy`.

Support modules: `Options` (Kotlin nullables), `Kotlin` (64-bit `Long`, 32-bit `Int`, wrap-around,
truncating `/` and `%`), `Format` (`String.format` with `%2d` and `%02d`, plus the matching digit
parser) and `Media` (the Media3 values the app touches and the constants `STATE_IDLE` = 1, `STATE_ENDED` = 4
and `REPEAT_MODE_ONE` = 1).

Three behaviours a reader might expect do not hold in the code; the model follows the code:
- `seekTo` forwards a negative target unchanged. Nothing clamps it to 0.
- Only the event path clamps position and duration to at least 0. Nothing enforces position ≤ duration.
- The polling step publishes the controller's position unclamped.

`NegativeTimeLabel` shows how a negative position would be rendered.

## Model

| member | source | states |
|---|---|---|
| `Options.MapOption` | app/src/main/java/com/example/musicplayer/model/MusicControllerImpl.kt:54 | `x?.let(f)` is null exactly when `x` is, and otherwise holds `f` of the value |
| `Kotlin.WrapLong` | app/src/main/java/com/example/musicplayer/ui/screen/PlaySongScreen.kt:129-131 | `Long` arithmetic is exact within range and wraps by 2^64 just outside it |
| `Kotlin.ToInt` | app/src/main/java/com/example/musicplayer/ui/screen/PlaySongScreen.kt:314-315 | `Long.toInt()` keeps values in `Int` range, wraps by 2^32 just above it, and always differs from its input by a multiple of 2^32 |
| `Kotlin.TruncDiv` | app/src/main/java/com/example/musicplayer/ui/screen/PlaySongScreen.kt:314-315 | `/` rounds toward zero: the remainder it leaves has the dividend's sign and lies below the divisor |
| `Kotlin.TruncRem` | app/src/main/java/com/example/musicplayer/ui/screen/PlaySongScreen.kt:315 | `%` has the dividend's sign and magnitude below the divisor, and dividend = quotient·divisor + remainder |
| `Format.NatDigits` | app/src/main/java/com/example/musicplayer/ui/screen/PlaySongScreen.kt:318-320 | decimal rendering is a non-empty digit string, one digit exactly below 10, with no leading zero |
| `Format.ParseNatDigits` | app/src/main/java/com/example/musicplayer/ui/screen/PlaySongScreen.kt:318-320 | reading the digits back gives the number (induction on the number) |
| `Format.IntToString` | app/src/main/java/com/example/musicplayer/model/utility/SongData.kt:38 | a template-printed `Int` starts with '-' iff it is negative, and otherwise reads back as itself |
| `Format.PadLeft` | app/src/main/java/com/example/musicplayer/ui/screen/PlaySongScreen.kt:318-320 | width padding has length max(width, length), keeps the text at the right end and fills only on the left |
| `Format.SpacePadded` | app/src/main/java/com/example/musicplayer/ui/screen/PlaySongScreen.kt:318 | `%2d`: the printed number right-aligned in two columns; `SpacePaddedNat` and `SpacePaddedTwo` state what it produces |
| `Format.ZeroPadded` | app/src/main/java/com/example/musicplayer/ui/screen/PlaySongScreen.kt:320 | `%02d`: sign first, digits zero-filled to two columns; `TwoDigitsRoundTrip` states what it produces |
| `Format.TwoDigitsRoundTrip` | app/src/main/java/com/example/musicplayer/ui/screen/PlaySongScreen.kt:320 | `%02d` of 0..99 is exactly two digits that read back as the number |
| `Kotlin.NullableToString` | app/src/main/java/com/example/musicplayer/model/utility/SongData.kt:23-26 | `toString()` of a nullable: the value itself when present, "null" when absent |
| `Songs.ToSong` | app/src/main/java/com/example/musicplayer/model/utility/SongData.kt:21-28 | `toSong` sets both `mediaId` and `songUrl` to the item's id and copies title, subtitle and artwork; an absent field becomes "null" |
| `Songs.ToMediaItem` | app/src/main/java/com/example/musicplayer/model/MusicControllerImpl.kt:75-86 | the `MediaItem.Builder` chain for one song; `ToMediaItems`, `SongRoundTrip` and `ItemRoundTrip` state its fields and its inverse |
| `Songs.ToMediaItems` | app/src/main/java/com/example/musicplayer/model/MusicControllerImpl.kt:74-87 | one item per song in the same order. Id and URI are the song URL. Title and subtitle are copied. The artist is the subtitle. The artwork is the image URL |
| `Songs.SongRoundTrip` | app/src/main/java/com/example/musicplayer/model/utility/SongData.kt:21-28 | song → item → song keeps title, subtitle, songUrl and imageUrl and replaces mediaId by songUrl. It is the identity iff the two were already equal |
| `Songs.ItemRoundTrip` | app/src/main/java/com/example/musicplayer/model/MusicControllerImpl.kt:74-87 | item → song → item is the identity on every item of the shape the app builds |
| `Songs.ResourceUrl` | app/src/main/java/com/example/musicplayer/model/utility/SongData.kt:38-39 | every resource URL is the app's `android.resource://` prefix followed by the printed id |
| `Songs.DefaultEntry` | app/src/main/java/com/example/musicplayer/model/utility/SongData.kt:34-61 | entry k has a six-character media id "song-" ending in the digit k + 1, and a song URL under the packaged-resource prefix |
| `Songs.DefaultPlayList` | app/src/main/java/com/example/musicplayer/model/utility/SongData.kt:33-63 | exactly four entries, the k-th being built-in entry k |
| `Songs.DefaultEntryUrl` | app/src/main/java/com/example/musicplayer/model/utility/SongData.kt:34-61 | no built-in entry has its media id equal to its song URL |
| `Songs.DefaultPlayListDistinct` | app/src/main/java/com/example/musicplayer/model/utility/SongData.kt:35-59 | the four media ids are pairwise different, so the entries are pairwise unequal |
| `Songs.DefaultEntriesNotReproduced` | app/src/main/java/com/example/musicplayer/model/utility/SongData.kt:21-28 | the song the player reports for a built-in entry never equals that entry |
| `Controller.ToSongState` | app/src/main/java/com/example/musicplayer/model/MusicControllerImpl.kt:65-70 | idle and ended map to STOP. Every other state maps to PLAYING iff `isPlaying`, else to PAUSE |
| `Controller.CoerceAtLeast` | app/src/main/java/com/example/musicplayer/model/MusicControllerImpl.kt:55-56 | the result is at least the bound and at least the input, and is one of the two |
| `Controller.EventOf` | app/src/main/java/com/example/musicplayer/model/MusicControllerImpl.kt:51-58 | event state, song present iff an item is current, position and duration ≥ 0 (non-negative inputs kept, negative ones become 0), repeat flag iff mode is `REPEAT_MODE_ONE` |
| `Controller.MusicControllerImpl.constructor` | app/src/main/java/com/example/musicplayer/model/MusicControllerImpl.kt:24-43 | starts unconnected, with an empty slot and nothing forwarded |
| `Controller.MusicControllerImpl.Connect` | app/src/main/java/com/example/musicplayer/model/MusicControllerImpl.kt:26 | after the future completes the client is available |
| `Controller.MusicControllerImpl.SetCallback` | app/src/main/java/com/example/musicplayer/model/MusicControllerImpl.kt:28-36 | the slot holds exactly the value last assigned |
| `Controller.MusicControllerImpl.OnEvents` | app/src/main/java/com/example/musicplayer/model/MusicControllerImpl.kt:46-61 | an event is delivered iff connected and a handler is set, to that handler, with `EventOf` of the player |
| `Controller.MusicControllerImpl.InitializePlaylist` | app/src/main/java/com/example/musicplayer/model/MusicControllerImpl.kt:73-90 | forwards `setMediaItems` of the converted list when connected, nothing otherwise |
| `Controller.MusicControllerImpl.Play` | app/src/main/java/com/example/musicplayer/model/MusicControllerImpl.kt:92-95 | forwards `seekToDefaultPosition(i)` then `prepare()`, with `i` unchanged, when connected |
| `Controller.MusicControllerImpl.Resume` | app/src/main/java/com/example/musicplayer/model/MusicControllerImpl.kt:97-99 | forwards `play()` when connected |
| `Controller.MusicControllerImpl.Pause` | app/src/main/java/com/example/musicplayer/model/MusicControllerImpl.kt:101-103 | forwards `pause()` when connected |
| `Controller.MusicControllerImpl.GetCurrentPosition` | app/src/main/java/com/example/musicplayer/model/MusicControllerImpl.kt:105 | the player's position when connected, 0 otherwise |
| `Controller.MusicControllerImpl.GetCurrentSong` | app/src/main/java/com/example/musicplayer/model/MusicControllerImpl.kt:107 | a song iff connected with a current item, and then that item's `toSong` |
| `Controller.MusicControllerImpl.SeekTo` | app/src/main/java/com/example/musicplayer/model/MusicControllerImpl.kt:109-111 | forwards the position unchanged (no clamping) when connected |
| `Controller.MusicControllerImpl.ChangeRepeatMode` | app/src/main/java/com/example/musicplayer/model/MusicControllerImpl.kt:113-115 | forwards the mode unchanged when connected |
| `Controller.MusicControllerImpl.SkipNext` | app/src/main/java/com/example/musicplayer/model/MusicControllerImpl.kt:117-119 | forwards `seekToNext()` when connected |
| `Controller.MusicControllerImpl.SkipPrevious` | app/src/main/java/com/example/musicplayer/model/MusicControllerImpl.kt:121-123 | forwards `seekToPrevious()` when connected |
| `Controller.MusicControllerImpl.Destroy` | app/src/main/java/com/example/musicplayer/model/MusicControllerImpl.kt:125-128 | releases the future and empties the callback slot |
| `Controller.DestroyThenEvent` | app/src/main/java/com/example/musicplayer/model/MusicControllerImpl.kt:52 | after `destroy` no event is delivered to anyone |
| `Controller.ReplaceCallback` | app/src/main/java/com/example/musicplayer/model/MusicController.kt:12-18 | after two registrations only the second handler receives events |
| `Controller.CommandsWhileConnecting` | app/src/main/java/com/example/musicplayer/model/MusicControllerImpl.kt:89-123 | while unconnected all eight commands forward nothing, position reads 0 and the song reads null |
| `ViewModel.IndexOf` | app/src/main/java/com/example/musicplayer/ui/screen/PlaySongViewModel.kt:60 | `indexOf` is -1 iff the selection is null or absent. Otherwise it is a position holding the selection, with no equal element earlier |
| `ViewModel.PrepareIndex` | app/src/main/java/com/example/musicplayer/ui/screen/PlaySongViewModel.kt:58-64 | no index iff `songs` is null, otherwise the selection's `indexOf` |
| `ViewModel.PrepareBeforeInitialize` | app/src/main/java/com/example/musicplayer/ui/screen/PlaySongUiState.kt:9-17 | the initial record's fields are: empty list, no selection, STOP, no current song, 0, 0, repeat off. `prepare` then plays index -1 |
| `ViewModel.IndexOfDistinct` | app/src/main/java/com/example/musicplayer/ui/screen/PlaySongViewModel.kt:60 | in a list without repeats the k-th element is found at k |
| `ViewModel.IndexOfFirst` | app/src/main/java/com/example/musicplayer/ui/screen/PlaySongViewModel.kt:54-60 | the first element is found at 0, with or without repeats |
| `ViewModel.PrepareDefaultEntry` | app/src/main/java/com/example/musicplayer/ui/screen/PlaySongViewModel.kt:52-64 | with the built-in list installed, selecting entry k makes `prepare` play k |
| `ViewModel.PlaySongViewModel.constructor` | app/src/main/java/com/example/musicplayer/ui/screen/PlaySongViewModel.kt:22-30 | starts from the default record and puts its own handler in the controller's slot, replacing any earlier one |
| `ViewModel.PlaySongViewModel.OnCallback` | app/src/main/java/com/example/musicplayer/ui/screen/PlaySongViewModel.kt:31-48 | sets exactly the five playback fields, keeps `songs` and `selectedSong`, and starts polling iff PLAYING |
| `ViewModel.PlaySongViewModel.OnPlayerEvents` | app/src/main/java/com/example/musicplayer/ui/screen/PlaySongViewModel.kt:29-38 | the record changes only when this handler is in the slot and the client is connected; it then holds the event, with non-negative position and duration |
| `ViewModel.PlaySongViewModel.PollOnce` | app/src/main/java/com/example/musicplayer/ui/screen/PlaySongViewModel.kt:43-45 | changes only `currentPosition`, to the controller's reading |
| `ViewModel.PlaySongViewModel.InitializePlaylist` | app/src/main/java/com/example/musicplayer/ui/screen/PlaySongViewModel.kt:52-56 | installs the built-in list and selects its first song, then forwards the same list |
| `ViewModel.PlaySongViewModel.Prepare` | app/src/main/java/com/example/musicplayer/ui/screen/PlaySongViewModel.kt:58-64 | plays `PrepareIndex` once, or calls nothing when `songs` is null; the record is untouched |
| `ViewModel.PlaySongViewModel.Resume` | app/src/main/java/com/example/musicplayer/ui/screen/PlaySongViewModel.kt:66-68 | forwards to the controller, the record is untouched |
| `ViewModel.PlaySongViewModel.Pause` | app/src/main/java/com/example/musicplayer/ui/screen/PlaySongViewModel.kt:70-72 | forwards to the controller, the record is untouched |
| `ViewModel.PlaySongViewModel.SkipNext` | app/src/main/java/com/example/musicplayer/ui/screen/PlaySongViewModel.kt:74-76 | forwards to the controller, the record is untouched |
| `ViewModel.PlaySongViewModel.SkipPrevious` | app/src/main/java/com/example/musicplayer/ui/screen/PlaySongViewModel.kt:78-80 | forwards to the controller, the record is untouched |
| `ViewModel.PlaySongViewModel.SeekTo` | app/src/main/java/com/example/musicplayer/ui/screen/PlaySongViewModel.kt:82-84 | forwards the position unchanged, the record is untouched |
| `ViewModel.PlaySongViewModel.ChangeRepeatMode` | app/src/main/java/com/example/musicplayer/ui/screen/PlaySongViewModel.kt:86-88 | forwards the mode unchanged, the record is untouched |
| `ViewModel.PlaySongViewModel.Destroy` | app/src/main/java/com/example/musicplayer/ui/screen/PlaySongViewModel.kt:90-92 | releases the controller and empties its slot, the record is untouched |
| `Screen.Minutes` | app/src/main/java/com/example/musicplayer/ui/screen/PlaySongScreen.kt:314 | `(time / 60000).toInt()`; `MinutesInRange`, `ClockFields`, `NegativeClockFields` and `MinutesWrap` state its values |
| `Screen.Seconds` | app/src/main/java/com/example/musicplayer/ui/screen/PlaySongScreen.kt:315 | `(time % 60000 / 1000).toInt()`; `SecondsInRange`, `ClockFields` and `NegativeClockFields` state its values |
| `Screen.Label` | app/src/main/java/com/example/musicplayer/ui/screen/PlaySongScreen.kt:317-320 | `%2d`, ':' and `%02d` appended in order; `LabelRoundTrip` and `LabelLayout` state what it produces |
| `Screen.ToTime` | app/src/main/java/com/example/musicplayer/ui/screen/PlaySongScreen.kt:311-323 | `toTime`; `ToTimeRoundTrip`, `ToTimeLayout` and `NegativeTimeLabel` state what it produces |
| `Screen.MinutesInRange` | app/src/main/java/com/example/musicplayer/ui/screen/PlaySongScreen.kt:314 | for 0 ≤ t in `Int` minute range the minutes field is t / 60000 |
| `Screen.SecondsInRange` | app/src/main/java/com/example/musicplayer/ui/screen/PlaySongScreen.kt:315 | for every non-negative `Long` t the seconds field is (t % 60000) / 1000, so it lies in 0..59 |
| `Screen.ClockFields` | app/src/main/java/com/example/musicplayer/ui/screen/PlaySongScreen.kt:314-315 | for 0 ≤ t in `Int` minute range: minutes = t / 60000, seconds in 0..59, and minutes·60000 + seconds·1000 = t − t % 1000 |
| `Screen.SpacePaddedNat` | app/src/main/java/com/example/musicplayer/ui/screen/PlaySongScreen.kt:318 | `%2d` of a natural number is its digits after only spaces |
| `Screen.SpacePaddedTwo` | app/src/main/java/com/example/musicplayer/ui/screen/PlaySongScreen.kt:318 | `%2d` below 100 is two characters, with a leading space iff there is one digit |
| `Screen.ParseClockParts` | app/src/main/java/com/example/musicplayer/ui/screen/PlaySongScreen.kt:317-320 | a padded minutes part and two second digits joined by ':' read back as minutes·60000 + seconds·1000 |
| `Screen.LabelRoundTrip` | app/src/main/java/com/example/musicplayer/ui/screen/PlaySongScreen.kt:317-320 | the label of minutes m and seconds 0..59 reads back as m·60000 + s·1000 |
| `Screen.ToTimeRoundTrip` | app/src/main/java/com/example/musicplayer/ui/screen/PlaySongScreen.kt:311-323 | `toTime` of a non-negative time reads back as that time truncated to the second |
| `Screen.LabelLayout` | app/src/main/java/com/example/musicplayer/ui/screen/PlaySongScreen.kt:317-320 | under 100 minutes the label is five characters. The minutes are right-aligned in width 2 with a space pad, then ':', then two second digits |
| `Screen.ToTimeLayout` | app/src/main/java/com/example/musicplayer/ui/screen/PlaySongScreen.kt:311-323 | the same layout for `toTime` of times under 100 minutes; the leading space appears iff under 10 minutes |
| `Screen.NegativeClockFields` | app/src/main/java/com/example/musicplayer/ui/screen/PlaySongScreen.kt:314-315 | for every negative t in range, both fields are those of −t with the sign put back (truncation toward zero) |
| `Screen.NegativeTimeFields` | app/src/main/java/com/example/musicplayer/ui/screen/PlaySongScreen.kt:314-315 | negative times give truncated, negative fields: −1000 → (0, −1), −61000 → (−1, −1) |
| `Screen.NegativeTimeLabel` | app/src/main/java/com/example/musicplayer/ui/screen/PlaySongScreen.kt:311-323 | `toTime(-1000)` is " 0:-1" and `toTime(-61000)` is "-1:-1" |
| `Screen.MinutesWrap` | app/src/main/java/com/example/musicplayer/ui/screen/PlaySongScreen.kt:314 | just past the `Int` range the minute count wraps to `Int.MIN_VALUE` |
| `Screen.Replay10Target` | app/src/main/java/com/example/musicplayer/ui/screen/PlaySongScreen.kt:129 | the Replay10 target is never negative; it is max(0, pos − 10000) whenever that subtraction does not underflow, and the wrapped pos − 10000 + 2^64 when it does |
| `Screen.Forward10Target` | app/src/main/java/com/example/musicplayer/ui/screen/PlaySongScreen.kt:131 | the Forward10 target is pos + 10000, uncapped by the duration, and negative on `Long` overflow |
| `Screen.PlayButtonIntent` | app/src/main/java/com/example/musicplayer/ui/screen/PlaySongScreen.kt:130 | the play button asks to pause iff the state is PLAYING, otherwise to resume |
| `Screen.PlayButtonIcon` | app/src/main/java/com/example/musicplayer/ui/screen/PlaySongScreen.kt:143 | the Pause icon shows iff the state is PLAYING |
| `Screen.PlayButtonFollowsPlayer` | app/src/main/java/com/example/musicplayer/ui/screen/PlaySongScreen.kt:130-143 | after an event, the button shows Pause and asks to pause iff the player is playing and neither idle nor ended |
| `Screen.RepeatButtonMode` | app/src/main/java/com/example/musicplayer/ui/screen/PlaySongScreen.kt:137-141 | the repeat button sends 0 (off) when repeat-one is on and 1 (one) otherwise |
| `Screen.RepeatButtonToggles` | app/src/main/java/com/example/musicplayer/ui/screen/PlaySongScreen.kt:137-141 | a player in the requested mode reports the repeat flag flipped |
| `Screen.PrepareButtonClick` | app/src/main/java/com/example/musicplayer/ui/screen/PlaySongScreen.kt:133-136 | installs and selects the built-in list, then forwards `setMediaItems` followed by `play(0)`, in that order |
| `Service.ShouldStop` | app/src/main/java/com/example/musicplayer/model/PlaybackService.kt:50-52 | the stop test of `onTaskRemoved`; `EndedStopsBoth`, `StoppedButRunningIff` and `PlaybackService.OnTaskRemoved` state its consequences |
| `Service.EndedStopsBoth` | app/src/main/java/com/example/musicplayer/model/PlaybackService.kt:52 | an ended player stops the service and shows STOP in the app |
| `Service.StoppedButRunningIff` | app/src/main/java/com/example/musicplayer/model/PlaybackService.kt:50-52 | with playback wanted and items queued, the app shows STOP while the service keeps running iff the player is IDLE |
| `Service.AddMediaItems` | app/src/main/java/com/example/musicplayer/model/PlaybackService.kt:76-78 | same length and order; each URI is the item's media id and every other field is unchanged |
| `Service.AddMediaItemsIdempotent` | app/src/main/java/com/example/musicplayer/model/PlaybackService.kt:76-78 | rewriting twice equals rewriting once |
| `Service.AddMediaItemsKeepsAppItems` | app/src/main/java/com/example/musicplayer/model/PlaybackService.kt:76-78 | the items the app's controller sends pass through the rewrite unchanged |
| `Service.AddMediaItemsRestoresAppItems` | app/src/main/java/com/example/musicplayer/model/PlaybackService.kt:76-78 | items with the app's ids and metadata but any URI, none included, come out exactly as the app's controller built them |
| `Service.PlaybackService.constructor` | app/src/main/java/com/example/musicplayer/model/PlaybackService.kt:24 | the service starts without a session |
| `Service.PlaybackService.OnCreate` | app/src/main/java/com/example/musicplayer/model/PlaybackService.kt:32-38 | the session is set |
| `Service.PlaybackService.OnGetSession` | app/src/main/java/com/example/musicplayer/model/PlaybackService.kt:43-45 | every controller receives the same current session |
| `Service.PlaybackService.OnTaskRemoved` | app/src/main/java/com/example/musicplayer/model/PlaybackService.kt:48-57 | fails without a session. Otherwise it calls `stopSelf` iff the stop test holds and keeps playing otherwise |
| `Service.PlaybackService.OnDestroy` | app/src/main/java/com/example/musicplayer/model/PlaybackService.kt:60-65 | releases the player and then the session if one exists, and clears it |
| `Service.DestroyTwice` | app/src/main/java/com/example/musicplayer/model/PlaybackService.kt:60-65 | two `onDestroy` calls release exactly what one does |

## Left out

- Media3 itself is not modelled: decoding, buffering, sessions and what the player does with each forwarded command. Forwarded calls are log entries only.
- The `ListenableFuture` connection and its executor listener (MusicControllerImpl.kt:38-43) are reduced to the `connected` flag and `Connect`.
- After `destroy`, the future is released but `connected` keeps its value. A completed future yields a released controller, which Media3 itself ignores. A cancelled future would throw on `get()`. Both are Media3/Guava behaviour and are not modelled.
- `Uri.parse(…).toString()` and `MediaItem.buildUpon()` are taken to keep the text unchanged.
- The resource ids `R.raw.*` and `R.drawable.*` are generated at build time. `ResourceIds` is a parameter; the generated `R` class is not part of this model.
- The polling coroutine: only one step of it is modelled (`PollOnce`). The `while (true)` loop, `delay(3)`, coroutine scheduling, the absent cancellation and duplicate polling tasks are not.
- The slider's `Float` to `Long` seek conversion (PlaySongScreen.kt:125, 211-212) is left out because it uses floating point.
- Compose rendering, image loading and previews in PlaySongScreen.kt are left out. PlayMusicScreen.kt is left out because it is a placeholder with `TODO()` handlers.
- Hilt wiring (Modules.kt), MainActivity.kt and MainApplication.kt only connect the parts and are left out.
- `Controller.MusicControllerImpl.Play`: the media-item index is an unbounded `int`, not a 32-bit `Int`. Lists never approach `Int` range.
- `ViewModel.PlaySongViewModel.InitializePlaylist`: `songs[0]` on an empty list would throw. That case is not modelled because the built-in list always has four entries.
