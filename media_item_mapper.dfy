/**
 * The conversion between songs and the player's media items
 * (MediaItemMapper.kt): the song id travels as the item's decimal media id
 * and comes back through Long parsing, with fixed fallbacks for missing
 * metadata.
 */
module MediaItems {
  import opened Wrappers
  import opened Decimal
  import opened Songs

  /** The fields of a media item that the mapping writes or reads. */
  datatype MediaItem = MediaItem(
    mediaId: string,
    uri: Option<Uri>,
    title: Option<string>,
    artist: Option<string>,
    albumTitle: Option<string>,
    artworkUri: Option<Uri>)

  function ToMediaItem(song: Song): MediaItem {
    MediaItem(ToDecimal(song.id), Some(song.contentUri), Some(song.title), Some(song.artist), Some(song.album), song.albumArtUri)
  }

  function ToMediaItems(songs: seq<Song>): (items: seq<MediaItem>)
    ensures |items| == |songs|
    ensures forall i :: 0 <= i < |songs| ==> items[i] == ToMediaItem(songs[i])
  {
    seq(|songs|, i requires 0 <= i < |songs| => ToMediaItem(songs[i]))
  }

  /**
   * A song for an item whose media id is a Long, with the given duration;
   * missing metadata becomes "Unknown", "Unknown Artist", "Unknown Album"
   * and the empty URI.
   */
  function ToSongWithDuration(item: MediaItem, duration: int): (r: Option<Song>)
    ensures r.Some? <==> ParseLong(item.mediaId).Some?
    ensures r.Some? ==> r.value.id == ParseLong(item.mediaId).value && r.value.duration == duration
  {
    match ParseLong(item.mediaId)
    case None => None
    case Some(id) =>
      Some(Song(
        id,
        item.title.GetOr("Unknown"),
        item.artist.GetOr("Unknown Artist"),
        item.albumTitle.GetOr("Unknown Album"),
        duration,
        item.uri.GetOr(EmptyUri),
        item.artworkUri))
  }

  /** A song with a Long id survives the trip through a media item, except for its duration. */
  lemma MediaItemRoundTrip(song: Song, duration: int)
    requires InLongRange(song.id)
    ensures ToSongWithDuration(ToMediaItem(song), duration) == Some(song.(duration := duration))
  {
    LongTextRoundTrip(song.id);
  }

  /** Items whose media id is not a Long have no song. */
  lemma NonNumericIdHasNoSong(item: MediaItem, duration: int)
    requires item.mediaId == [] || (item.mediaId[0] != '-' && item.mediaId[0] != '+' && !IsDigit(item.mediaId[0]))
    ensures ToSongWithDuration(item, duration) == None
  {
    if item.mediaId != [] && item.mediaId[0] >= '0' {
      assert !AllDigits(item.mediaId) by {
        assert !IsDigit(item.mediaId[0]);
      }
    }
  }
}
