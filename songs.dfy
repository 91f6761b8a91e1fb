/**
 * The track descriptor `SongData`, its conversions to and from the player's
 * `MediaItem`, the playback status `SongState`, and the built-in playlist.
 */
module Songs {
  import opened Options
  import opened Kotlin
  import opened Media
  import Format

  /** The three-way playback status shown by the UI. */
  datatype SongState = Playing | Pause | Stop

  /** An immutable track descriptor; equality is field-wise. */
  datatype SongData = SongData(
    mediaId: string,
    title: string,
    subtitle: string,
    songUrl: string,
    imageUrl: string)

  /**
   * `MediaItem.toSong()`: the media id doubles as the song URL, and each
   * metadata field is printed, so an absent one becomes the text "null".
   */
  function ToSong(m: MediaItem): (s: SongData)
    ensures s.mediaId == m.mediaId && s.songUrl == m.mediaId
    ensures m.metadata.title.Some? ==> s.title == m.metadata.title.value
    ensures m.metadata.subtitle.Some? ==> s.subtitle == m.metadata.subtitle.value
    ensures m.metadata.artworkUri.Some? ==> s.imageUrl == m.metadata.artworkUri.value
    ensures m.metadata.title.None? ==> s.title == "null"
    ensures m.metadata.subtitle.None? ==> s.subtitle == "null"
    ensures m.metadata.artworkUri.None? ==> s.imageUrl == "null"
  {
    SongData(
      mediaId := m.mediaId,
      title := NullableToString(m.metadata.title),
      subtitle := NullableToString(m.metadata.subtitle),
      songUrl := m.mediaId,
      imageUrl := NullableToString(m.metadata.artworkUri))
  }

  /**
   * The item built for one song when the playlist is installed: id and URI
   * are both the song URL, the subtitle is also the artist.
   */
  function ToMediaItem(s: SongData): MediaItem
  {
    MediaItem(
      mediaId := s.songUrl,
      uri := Some(s.songUrl),
      metadata := MediaMetadata(
        title := Some(s.title),
        subtitle := Some(s.subtitle),
        artist := Some(s.subtitle),
        artworkUri := Some(s.imageUrl)))
  }

  /** The items handed to the player for a list of songs: one per song, in order. */
  function ToMediaItems(songs: seq<SongData>): (items: seq<MediaItem>)
    ensures |items| == |songs|
    ensures forall i :: 0 <= i < |songs| ==>
      items[i].mediaId == songs[i].songUrl && items[i].uri == Some(songs[i].songUrl)
      && items[i].metadata.title == Some(songs[i].title)
      && items[i].metadata.subtitle == Some(songs[i].subtitle)
      && items[i].metadata.artist == Some(songs[i].subtitle)
      && items[i].metadata.artworkUri == Some(songs[i].imageUrl)
  {
    seq(|songs|, i requires 0 <= i < |songs| => ToMediaItem(songs[i]))
  }

  /** The shape of every item `ToMediaItem` builds. */
  predicate BuiltFromSong(m: MediaItem)
  {
    m.uri == Some(m.mediaId)
    && m.metadata.title.Some? && m.metadata.subtitle.Some? && m.metadata.artworkUri.Some?
    && m.metadata.artist == m.metadata.subtitle
  }

  /** Song to item and back keeps every field except `mediaId`, which becomes the song URL. */
  lemma SongRoundTrip(s: SongData)
    ensures BuiltFromSong(ToMediaItem(s))
    ensures ToSong(ToMediaItem(s)) == s.(mediaId := s.songUrl)
    ensures ToSong(ToMediaItem(s)) == s <==> s.mediaId == s.songUrl
  {
  }

  /** Item to song and back is the identity on the items the app builds. */
  lemma ItemRoundTrip(m: MediaItem)
    requires BuiltFromSong(m)
    ensures ToMediaItem(ToSong(m)) == m
  {
  }

  /** The build-generated resource ids (`R.raw.*`, `R.drawable.*`) the built-in playlist refers to. */
  datatype ResourceIds = ResourceIds(
    rawBgm: int, drawableBgm: int,
    rawMorning: int, drawableMorningImg: int,
    rawAm: int, drawableAm: int,
    rawKaeruNoPiano: int, drawableKaeruNoPiano: int)

  const RESOURCE_PREFIX: string := "android.resource://com.example.musicplayer/"

  function ResourceUrl(id: int): (url: string)
    ensures |url| > |RESOURCE_PREFIX| && url[..|RESOURCE_PREFIX|] == RESOURCE_PREFIX
    ensures url[|RESOURCE_PREFIX|..] == Format.IntToString(id)
  {
    RESOURCE_PREFIX + Format.IntToString(id)
  }

  /** Entry `k` of `getDefaultPlayList()`: its media id is "song-" followed by the digit k + 1. */
  function DefaultEntry(res: ResourceIds, k: nat): (song: SongData)
    requires k < 4
    ensures |song.mediaId| == 6 && song.mediaId[..5] == "song-" && song.mediaId[5] == "1234"[k]
    ensures song.mediaId[0] == 's'
    ensures |song.songUrl| > |RESOURCE_PREFIX| && song.songUrl[..|RESOURCE_PREFIX|] == RESOURCE_PREFIX
  {
    if k == 0 then
      SongData("song-1", "Song1", "Singer1", ResourceUrl(res.rawBgm), ResourceUrl(res.drawableBgm))
    else if k == 1 then
      SongData("song-2", "Song2", "Singer2", ResourceUrl(res.rawMorning), ResourceUrl(res.drawableMorningImg))
    else if k == 2 then
      SongData("song-3", "Singer3", "Singer3", ResourceUrl(res.rawAm), ResourceUrl(res.drawableAm))
    else
      SongData("song-4", "Song4", "Singer4", ResourceUrl(res.rawKaeruNoPiano), ResourceUrl(res.drawableKaeruNoPiano))
  }

  /** `getDefaultPlayList()`: the four fixed songs, "song-1" to "song-4". */
  function DefaultPlayList(res: ResourceIds): (list: seq<SongData>)
    ensures |list| == 4
    ensures forall i :: 0 <= i < 4 ==> list[i] == DefaultEntry(res, i)
  {
    seq(4, k requires 0 <= k < 4 => DefaultEntry(res, k))
  }

  /** Every built-in entry points at a packaged resource, so its URL differs from its media id. */
  lemma DefaultEntryUrl(res: ResourceIds, k: nat)
    requires k < 4
    ensures DefaultEntry(res, k).mediaId != DefaultEntry(res, k).songUrl
  {
    var song := DefaultEntry(res, k);
    assert RESOURCE_PREFIX[0] == 'a';
    assert song.songUrl[0] == song.songUrl[..|RESOURCE_PREFIX|][0];
  }

  /** The built-in entries are pairwise different, already by their media ids. */
  lemma DefaultPlayListDistinct(res: ResourceIds)
    ensures forall i, j :: 0 <= i < j < 4 ==>
      DefaultPlayList(res)[i].mediaId != DefaultPlayList(res)[j].mediaId
    ensures forall i, j :: 0 <= i < j < 4 ==> DefaultPlayList(res)[i] != DefaultPlayList(res)[j]
  {
    var list := DefaultPlayList(res);
    forall i, j | 0 <= i < j < 4
      ensures list[i].mediaId != list[j].mediaId
    {
      assert list[i] == DefaultEntry(res, i) && list[j] == DefaultEntry(res, j);
      assert list[i].mediaId[5] == "1234"[i];
      assert list[j].mediaId[5] == "1234"[j];
    }
  }

  /**
   * No built-in entry survives the round trip through the player unchanged:
   * its media id is "song-k" but the song the player reports carries the URL there.
   */
  lemma DefaultEntriesNotReproduced(res: ResourceIds, i: nat)
    requires i < 4
    ensures ToSong(ToMediaItem(DefaultPlayList(res)[i])) != DefaultPlayList(res)[i]
  {
    SongRoundTrip(DefaultPlayList(res)[i]);
    DefaultEntryUrl(res, i);
  }
}
