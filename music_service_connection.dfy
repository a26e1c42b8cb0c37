/**
 * The app's handle on the playback service (MusicServiceConnection.kt):
 * connecting and disconnecting, the commands forwarded to the player when
 * one is connected, and the playback state, current song and queue it
 * republishes from the player.
 *
 * The player itself is foreign. It is modelled as a `Controller` record
 * holding the properties the connection reads and assigns, the item list,
 * and the log of calls the connection makes on it.
 */
module ServiceConnection {
  import opened Wrappers
  import opened Decimal
  import opened Songs
  import opened Playback
  import opened MediaItems

  // Player constants.
  const RepeatModeOff: int := 0
  const RepeatModeOne: int := 1
  const RepeatModeAll: int := 2
  const StateBuffering: int := 2

  /** A call made on the player whose effect the player decides. */
  datatype PlayerCall =
    | SetMediaItemCall(item: MediaItem)
    | SetMediaItemsCall(items: seq<MediaItem>, startIndex: int, startPositionMs: int)
    | PrepareCall
    | PlayCall
    | PauseCall
    | SeekToCall(positionMs: int)
    | SeekToNextMediaItemCall
    | SeekToPreviousMediaItemCall

  /** The connected player as the connection sees it. */
  datatype Controller = Controller(
    isPlaying: bool,
    shuffleModeEnabled: bool,
    repeatMode: int,
    currentPosition: int,
    duration: int,
    playbackState: int,
    hasNextMediaItem: bool,
    hasPreviousMediaItem: bool,
    mediaItems: seq<MediaItem>,
    currentMediaItem: Option<MediaItem>,
    calls: seq<PlayerCall>)

  /** Player events the connection listens for. */
  datatype PlayerEvent =
    | MediaItemTransition
    | PlaybackStateChanged
    | IsPlayingChanged(playing: bool)
    | ShuffleModeEnabledChanged
    | RepeatModeChanged
    | MediaMetadataChanged

  // ---------------------------------------------------------------- decision rules

  function RepeatToPlayer(mode: RepeatMode): int {
    match mode
    case Off => RepeatModeOff
    case All => RepeatModeAll
    case One => RepeatModeOne
  }

  /** The player's repeat constant as a mode; anything unknown reads as OFF. */
  function RepeatFromPlayer(value: int): RepeatMode {
    if value == RepeatModeOff then Off
    else if value == RepeatModeAll then All
    else if value == RepeatModeOne then One
    else Off
  }

  /** Setting a mode and reading it back gives the mode; each mode has its own constant. */
  lemma RepeatModeRoundTrip(mode: RepeatMode, other: RepeatMode)
    ensures RepeatFromPlayer(RepeatToPlayer(mode)) == mode
    ensures RepeatToPlayer(mode) == RepeatToPlayer(other) ==> mode == other
    ensures RepeatToPlayer(mode) in {RepeatModeOff, RepeatModeOne, RepeatModeAll}
  {
  }

  /** The cycling order OFF -> ALL -> ONE -> OFF; any other value restarts at OFF. */
  function NextRepeatMode(value: int): int {
    if value == RepeatModeOff then RepeatModeAll
    else if value == RepeatModeAll then RepeatModeOne
    else RepeatModeOff
  }

  /**
   * Cycling visits the three modes in turn and comes back after three steps;
   * from an unknown value it lands on OFF and then follows the cycle.
   */
  lemma RepeatCycle(mode: RepeatMode, value: int)
    ensures RepeatFromPlayer(NextRepeatMode(RepeatToPlayer(mode))) == match mode case Off => All case All => One case One => Off
    ensures NextRepeatMode(NextRepeatMode(NextRepeatMode(RepeatToPlayer(mode)))) == RepeatToPlayer(mode)
    ensures value !in {RepeatModeOff, RepeatModeOne, RepeatModeAll} ==> NextRepeatMode(value) == RepeatModeOff
  {
  }

  /** More than three seconds in restarts the track; otherwise go back a track if there is one. */
  function SkipPreviousCall(positionMs: int, hasPrevious: bool): (c: PlayerCall)
    ensures c == SeekToPreviousMediaItemCall <==> positionMs <= 3000 && hasPrevious
    ensures c != SeekToPreviousMediaItemCall ==> c == SeekToCall(0)
  {
    if positionMs > 3000 then SeekToCall(0)
    else if hasPrevious then SeekToPreviousMediaItemCall
    else SeekToCall(0)
  }

  /** `duration.coerceAtLeast(0)`: the player reports an unknown duration as a negative value. */
  function KnownDuration(c: Controller): (d: int)
    ensures 0 <= d && (d == c.duration || (c.duration < 0 && d == 0))
  {
    if c.duration < 0 then 0 else c.duration
  }

  /** The snapshot `updatePlaybackState` publishes. */
  function PlaybackStateOf(c: Controller, song: Option<Song>): (s: PlaybackState)
    ensures s.duration == KnownDuration(c) && s.repeatMode == RepeatFromPlayer(c.repeatMode)
    ensures s.isBuffering <==> c.playbackState == StateBuffering
    ensures s.currentSong == song
  {
    PlaybackState(
      c.isPlaying,
      song,
      c.currentPosition,
      KnownDuration(c),
      RepeatFromPlayer(c.repeatMode),
      c.shuffleModeEnabled,
      c.playbackState == StateBuffering)
  }

  /** After `setRepeatMode(m)` the next published state shows `m`. */
  lemma SetRepeatModeIsPublished(c: Controller, song: Option<Song>, mode: RepeatMode)
    ensures PlaybackStateOf(c.(repeatMode := RepeatToPlayer(mode)), song).repeatMode == mode
  {
    RepeatModeRoundTrip(mode, mode);
  }

  /** The song `updateCurrentSong` publishes: the current item with the known duration. */
  function CurrentSongOf(c: Controller): Option<Song> {
    match c.currentMediaItem
    case None => None
    case Some(item) => ToSongWithDuration(item, KnownDuration(c))
  }

  /** The queue `updateQueue` publishes: the items whose media id is a Long, in order, with duration 0. */
  function QueueOf(items: seq<MediaItem>): seq<Song> {
    if items == [] then []
    else QueueOf(items[..|items| - 1]) + ToSeq(ToSongWithDuration(items[|items| - 1], 0))
  }

  /** Every queued song has a Long id and duration 0, and no item yields more than one song. */
  lemma {:induction false} QueueOfShape(items: seq<MediaItem>)
    ensures |QueueOf(items)| <= |items|
    ensures forall i :: 0 <= i < |QueueOf(items)| ==> QueueOf(items)[i].duration == 0 && InLongRange(QueueOf(items)[i].id)
    ensures (forall i :: 0 <= i < |items| ==> ParseLong(items[i].mediaId).Some?) ==> |QueueOf(items)| == |items|
  {
    if items != [] {
      QueueOfShape(items[..|items| - 1]);
    }
  }

  /** When every item's media id is a Long, the queue has one song per item, in order. */
  lemma {:induction false} QueueOfParsed(items: seq<MediaItem>)
    requires forall i :: 0 <= i < |items| ==> ToSongWithDuration(items[i], 0).Some?
    ensures |QueueOf(items)| == |items|
    ensures forall i :: 0 <= i < |items| ==> QueueOf(items)[i] == ToSongWithDuration(items[i], 0).value
  {
    if items != [] {
      var n := |items|;
      var prefix := items[..n - 1];
      assert forall i :: 0 <= i < n - 1 ==> prefix[i] == items[i];
      QueueOfParsed(prefix);
      var last := ToSongWithDuration(items[n - 1], 0);
      assert ToSeq(last) == [last.value];
      var q := QueueOf(prefix);
      assert QueueOf(items) == q + [last.value];
      forall i | 0 <= i < n
        ensures QueueOf(items)[i] == ToSongWithDuration(items[i], 0).value
      {
        if i < n - 1 {
          assert QueueOf(items)[i] == q[i];
        }
      }
    }
  }

  /** The queue built from songs with Long ids is those songs, in order, with duration 0. */
  lemma QueueOfSongs(songs: seq<Song>)
    requires forall i :: 0 <= i < |songs| ==> InLongRange(songs[i].id)
    ensures |QueueOf(ToMediaItems(songs))| == |songs|
    ensures forall i :: 0 <= i < |songs| ==> QueueOf(ToMediaItems(songs))[i] == songs[i].(duration := 0)
  {
    var items := ToMediaItems(songs);
    forall i | 0 <= i < |songs|
      ensures ToSongWithDuration(items[i], 0) == Some(songs[i].(duration := 0))
    {
      MediaItemRoundTrip(songs[i], 0);
    }
    QueueOfParsed(items);
  }

  // ---------------------------------------------------------------- the connection

  class MusicServiceConnection {
    var controller: Option<Controller>
    /** A controller has been requested and not yet released. */
    var futurePending: bool
    var playbackState: PlaybackState
    var currentSong: Option<Song>
    var queue: seq<Song>
    /** The once-a-second position refresh is scheduled. */
    var positionUpdatesActive: bool

    /**
     * The published values stay consistent: the snapshot carries the
     * published song, its duration is never negative, queued songs have a
     * Long id and duration 0, and nothing refreshes without a player.
     */
    ghost predicate Valid()
      reads this
    {
      && (controller.None? ==> !positionUpdatesActive)
      && playbackState.currentSong == currentSong
      && 0 <= playbackState.duration
      && (forall i :: 0 <= i < |queue| ==> queue[i].duration == 0 && InLongRange(queue[i].id))
    }

    constructor ()
      ensures Valid()
      ensures controller == None && !futurePending && !positionUpdatesActive
      ensures playbackState == Default && currentSong == None && queue == []
    {
      controller := None;
      futurePending := false;
      playbackState := Default;
      currentSong := None;
      queue := [];
      positionUpdatesActive := false;
    }

    /** Connected exactly when a controller is held; without one there is no next or previous track. */
    function IsConnected(): (b: bool)
      reads this
      ensures b <==> controller.Some?
      ensures !b ==> !HasNextTrack() && !HasPreviousTrack()
    {
      controller.Some?
    }

    function HasNextTrack(): (b: bool)
      reads this
      ensures b <==> controller.Some? && controller.value.hasNextMediaItem
    {
      controller.Some? && controller.value.hasNextMediaItem
    }

    function HasPreviousTrack(): (b: bool)
      reads this
      ensures b <==> controller.Some? && controller.value.hasPreviousMediaItem
    {
      controller.Some? && controller.value.hasPreviousMediaItem
    }

    /** Requests a controller unless one is already connected. */
    method Connect()
      requires Valid()
      modifies this
      ensures Valid()
      ensures old(controller).Some? ==> futurePending == old(futurePending)
      ensures old(controller).None? ==> futurePending
      ensures controller == old(controller) && playbackState == old(playbackState)
      ensures currentSong == old(currentSong) && queue == old(queue)
      ensures positionUpdatesActive == old(positionUpdatesActive)
    {
      if controller.Some? {
        return;
      }
      futurePending := true;
    }

    /**
     * The requested controller is ready: it is kept, and the snapshot, the
     * current song and the queue are all refreshed from it.
     */
    method OnControllerReady(c: Controller)
      requires Valid() && futurePending
      modifies this
      ensures Valid()
      ensures controller == Some(c) && futurePending
      ensures currentSong == CurrentSongOf(c)
      ensures playbackState == PlaybackStateOf(c, old(currentSong)).(currentSong := CurrentSongOf(c), duration := KnownDuration(c))
      ensures queue == QueueOf(c.mediaItems)
      ensures positionUpdatesActive == old(positionUpdatesActive)
    {
      controller := Some(c);
      UpdatePlaybackState();
      UpdateCurrentSong();
      UpdateQueue();
    }

    /** Drops the controller and the pending request and stops the position refresh. */
    method Disconnect()
      requires Valid()
      modifies this
      ensures Valid()
      ensures controller == None && !futurePending && !positionUpdatesActive
      ensures playbackState == old(playbackState) && currentSong == old(currentSong) && queue == old(queue)
    {
      positionUpdatesActive := false;
      controller := None;
      futurePending := false;
    }

    /** A player event while connected: the player's new state arrives, then the listener's refreshes run. */
    method OnPlayerEvent(updated: Controller, event: PlayerEvent)
      requires Valid() && controller.Some?
      modifies this
      ensures Valid()
      ensures controller == Some(updated) && futurePending == old(futurePending) && queue == old(queue)
      ensures match event
        case MediaItemTransition =>
          && currentSong == CurrentSongOf(updated)
          && playbackState == PlaybackStateOf(updated, CurrentSongOf(updated))
        case MediaMetadataChanged =>
          && currentSong == CurrentSongOf(updated)
          && playbackState == old(playbackState).(currentSong := CurrentSongOf(updated), duration := KnownDuration(updated))
        case _ =>
          && currentSong == old(currentSong)
          && playbackState == PlaybackStateOf(updated, old(currentSong))
      ensures positionUpdatesActive == if event.IsPlayingChanged? then event.playing else old(positionUpdatesActive)
    {
      controller := Some(updated);
      match event {
        case MediaItemTransition =>
          UpdateCurrentSong();
          UpdatePlaybackState();
        case PlaybackStateChanged =>
          UpdatePlaybackState();
        case IsPlayingChanged(playing) =>
          UpdatePlaybackState();
          positionUpdatesActive := playing;
        case ShuffleModeEnabledChanged =>
          UpdatePlaybackState();
        case RepeatModeChanged =>
          UpdatePlaybackState();
        case MediaMetadataChanged =>
          UpdateCurrentSong();
      }
    }

    /** Replaces the player's items by the one song, prepares and starts it. */
    method Play(song: Song)
      requires Valid()
      modifies this
      ensures Valid()
      ensures old(controller).None? ==> controller == None
      ensures old(controller).Some? ==> controller == Some(old(controller).value.(
        mediaItems := [ToMediaItem(song)],
        calls := old(controller).value.calls + [SetMediaItemCall(ToMediaItem(song)), PrepareCall, PlayCall]))
      ensures playbackState == old(playbackState) && currentSong == old(currentSong) && queue == old(queue)
      ensures futurePending == old(futurePending) && positionUpdatesActive == old(positionUpdatesActive)
    {
      if controller.Some? {
        var c := controller.value;
        var item := ToMediaItem(song);
        controller := Some(c.(mediaItems := [item], calls := c.calls + [SetMediaItemCall(item), PrepareCall, PlayCall]));
      }
    }

    /** Replaces the player's items by the songs from `startIndex` at position 0, prepares, starts, and republishes the queue. */
    method PlayAll(songs: seq<Song>, startIndex: int)
      requires Valid()
      modifies this
      ensures Valid()
      ensures old(controller).None? ==> controller == None && queue == old(queue)
      ensures old(controller).Some? ==>
        && controller == Some(old(controller).value.(
             mediaItems := ToMediaItems(songs),
             calls := old(controller).value.calls + [SetMediaItemsCall(ToMediaItems(songs), startIndex, 0), PrepareCall, PlayCall]))
        && queue == QueueOf(ToMediaItems(songs))
      ensures playbackState == old(playbackState) && currentSong == old(currentSong)
      ensures futurePending == old(futurePending) && positionUpdatesActive == old(positionUpdatesActive)
    {
      if controller.Some? {
        var c := controller.value;
        var items := ToMediaItems(songs);
        controller := Some(c.(mediaItems := items, calls := c.calls + [SetMediaItemsCall(items, startIndex, 0), PrepareCall, PlayCall]));
      }
      UpdateQueue();
    }

    /** Appends the song to the player's items and republishes the queue. */
    method AddToQueue(song: Song)
      requires Valid()
      modifies this
      ensures Valid()
      ensures old(controller).None? ==> controller == None && queue == old(queue)
      ensures old(controller).Some? ==>
        && controller == Some(old(controller).value.(mediaItems := old(controller).value.mediaItems + [ToMediaItem(song)]))
        && queue == QueueOf(old(controller).value.mediaItems + [ToMediaItem(song)])
      ensures playbackState == old(playbackState) && currentSong == old(currentSong)
      ensures futurePending == old(futurePending) && positionUpdatesActive == old(positionUpdatesActive)
    {
      if controller.Some? {
        var c := controller.value;
        controller := Some(c.(mediaItems := c.mediaItems + [ToMediaItem(song)]));
      }
      UpdateQueue();
    }

    /** Appends all the songs to the player's items and republishes the queue. */
    method AddAllToQueue(songs: seq<Song>)
      requires Valid()
      modifies this
      ensures Valid()
      ensures old(controller).None? ==> controller == None && queue == old(queue)
      ensures old(controller).Some? ==>
        && controller == Some(old(controller).value.(mediaItems := old(controller).value.mediaItems + ToMediaItems(songs)))
        && queue == QueueOf(old(controller).value.mediaItems + ToMediaItems(songs))
      ensures playbackState == old(playbackState) && currentSong == old(currentSong)
      ensures futurePending == old(futurePending) && positionUpdatesActive == old(positionUpdatesActive)
    {
      if controller.Some? {
        var c := controller.value;
        controller := Some(c.(mediaItems := c.mediaItems + ToMediaItems(songs)));
      }
      UpdateQueue();
    }

    /** Sends one call to the player when connected; nothing else changes. */
    method SendCall(call: PlayerCall)
      requires Valid()
      modifies this
      ensures Valid()
      ensures old(controller).None? ==> controller == None
      ensures old(controller).Some? ==> controller == Some(old(controller).value.(calls := old(controller).value.calls + [call]))
      ensures playbackState == old(playbackState) && currentSong == old(currentSong) && queue == old(queue)
      ensures futurePending == old(futurePending) && positionUpdatesActive == old(positionUpdatesActive)
    {
      if controller.Some? {
        var c := controller.value;
        controller := Some(c.(calls := c.calls + [call]));
      }
    }

    method Pause()
      requires Valid()
      modifies this
      ensures Valid()
      ensures old(controller).None? ==> controller == None
      ensures old(controller).Some? ==> controller == Some(old(controller).value.(calls := old(controller).value.calls + [PauseCall]))
      ensures playbackState == old(playbackState) && currentSong == old(currentSong) && queue == old(queue)
      ensures futurePending == old(futurePending) && positionUpdatesActive == old(positionUpdatesActive)
    {
      SendCall(PauseCall);
    }

    method Resume()
      requires Valid()
      modifies this
      ensures Valid()
      ensures old(controller).None? ==> controller == None
      ensures old(controller).Some? ==> controller == Some(old(controller).value.(calls := old(controller).value.calls + [PlayCall]))
      ensures playbackState == old(playbackState) && currentSong == old(currentSong) && queue == old(queue)
      ensures futurePending == old(futurePending) && positionUpdatesActive == old(positionUpdatesActive)
    {
      SendCall(PlayCall);
    }

    /** Pauses a playing player and starts a paused one. */
    method TogglePlayPause()
      requires Valid()
      modifies this
      ensures Valid()
      ensures old(controller).None? ==> controller == None
      ensures old(controller).Some? ==> controller == Some(old(controller).value.(
        calls := old(controller).value.calls + [if old(controller).value.isPlaying then PauseCall else PlayCall]))
      ensures playbackState == old(playbackState) && currentSong == old(currentSong) && queue == old(queue)
      ensures futurePending == old(futurePending) && positionUpdatesActive == old(positionUpdatesActive)
    {
      if controller.Some? {
        if controller.value.isPlaying {
          SendCall(PauseCall);
        } else {
          SendCall(PlayCall);
        }
      }
    }

    /** Asks the player to seek, then republishes the snapshot. */
    method SeekTo(positionMs: int)
      requires Valid()
      modifies this
      ensures Valid()
      ensures old(controller).None? ==> controller == None && playbackState == old(playbackState)
      ensures old(controller).Some? ==>
        && controller == Some(old(controller).value.(calls := old(controller).value.calls + [SeekToCall(positionMs)]))
        && playbackState == PlaybackStateOf(controller.value, currentSong)
      ensures currentSong == old(currentSong) && queue == old(queue)
      ensures futurePending == old(futurePending) && positionUpdatesActive == old(positionUpdatesActive)
    {
      SendCall(SeekToCall(positionMs));
      UpdatePlaybackState();
    }

    /** Moves on a track only when the player has a next one. */
    method SkipNext()
      requires Valid()
      modifies this
      ensures Valid()
      ensures old(controller).None? ==> controller == None
      ensures old(controller).Some? ==> controller == Some(old(controller).value.(
        calls := old(controller).value.calls + if old(controller).value.hasNextMediaItem then [SeekToNextMediaItemCall] else []))
      ensures playbackState == old(playbackState) && currentSong == old(currentSong) && queue == old(queue)
      ensures futurePending == old(futurePending) && positionUpdatesActive == old(positionUpdatesActive)
    {
      if controller.Some? && controller.value.hasNextMediaItem {
        SendCall(SeekToNextMediaItemCall);
      } else if controller.Some? {
        assert controller.value.calls + [] == controller.value.calls;
      }
    }

    /** Restarts the track or goes back one, by `SkipPreviousCall`. */
    method SkipPrevious()
      requires Valid()
      modifies this
      ensures Valid()
      ensures old(controller).None? ==> controller == None
      ensures old(controller).Some? ==> controller == Some(old(controller).value.(
        calls := old(controller).value.calls
          + [SkipPreviousCall(old(controller).value.currentPosition, old(controller).value.hasPreviousMediaItem)]))
      ensures playbackState == old(playbackState) && currentSong == old(currentSong) && queue == old(queue)
      ensures futurePending == old(futurePending) && positionUpdatesActive == old(positionUpdatesActive)
    {
      if controller.Some? {
        var c := controller.value;
        if c.currentPosition > 3000 {
          SendCall(SeekToCall(0));
        } else if c.hasPreviousMediaItem {
          SendCall(SeekToPreviousMediaItemCall);
        } else {
          SendCall(SeekToCall(0));
        }
      }
    }

    method SetShuffleMode(enabled: bool)
      requires Valid()
      modifies this
      ensures Valid()
      ensures old(controller).None? ==> controller == None
      ensures old(controller).Some? ==> controller == Some(old(controller).value.(shuffleModeEnabled := enabled))
      ensures playbackState == old(playbackState) && currentSong == old(currentSong) && queue == old(queue)
      ensures futurePending == old(futurePending) && positionUpdatesActive == old(positionUpdatesActive)
    {
      if controller.Some? {
        controller := Some(controller.value.(shuffleModeEnabled := enabled));
      }
    }

    method ToggleShuffle()
      requires Valid()
      modifies this
      ensures Valid()
      ensures old(controller).None? ==> controller == None
      ensures old(controller).Some? ==> controller == Some(old(controller).value.(shuffleModeEnabled := !old(controller).value.shuffleModeEnabled))
      ensures playbackState == old(playbackState) && currentSong == old(currentSong) && queue == old(queue)
      ensures futurePending == old(futurePending) && positionUpdatesActive == old(positionUpdatesActive)
    {
      if controller.Some? {
        var c := controller.value;
        controller := Some(c.(shuffleModeEnabled := !c.shuffleModeEnabled));
      }
    }

    method SetRepeatMode(mode: RepeatMode)
      requires Valid()
      modifies this
      ensures Valid()
      ensures old(controller).None? ==> controller == None
      ensures old(controller).Some? ==> controller == Some(old(controller).value.(repeatMode := RepeatToPlayer(mode)))
      ensures playbackState == old(playbackState) && currentSong == old(currentSong) && queue == old(queue)
      ensures futurePending == old(futurePending) && positionUpdatesActive == old(positionUpdatesActive)
    {
      if controller.Some? {
        controller := Some(controller.value.(repeatMode := RepeatToPlayer(mode)));
      }
    }

    method CycleRepeatMode()
      requires Valid()
      modifies this
      ensures Valid()
      ensures old(controller).None? ==> controller == None
      ensures old(controller).Some? ==> controller == Some(old(controller).value.(repeatMode := NextRepeatMode(old(controller).value.repeatMode)))
      ensures playbackState == old(playbackState) && currentSong == old(currentSong) && queue == old(queue)
      ensures futurePending == old(futurePending) && positionUpdatesActive == old(positionUpdatesActive)
    {
      if controller.Some? {
        var c := controller.value;
        controller := Some(c.(repeatMode := NextRepeatMode(c.repeatMode)));
      }
    }

    /** Empties the player's items and republishes the (now empty) queue. */
    method ClearQueue()
      requires Valid()
      modifies this
      ensures Valid()
      ensures old(controller).None? ==> controller == None && queue == old(queue)
      ensures old(controller).Some? ==> controller == Some(old(controller).value.(mediaItems := [])) && queue == []
      ensures playbackState == old(playbackState) && currentSong == old(currentSong)
      ensures futurePending == old(futurePending) && positionUpdatesActive == old(positionUpdatesActive)
    {
      if controller.Some? {
        controller := Some(controller.value.(mediaItems := []));
      }
      UpdateQueue();
    }

    /** Removes the item at `index` when there is one, and republishes the queue. */
    method RemoveFromQueue(index: int)
      requires Valid()
      modifies this
      ensures Valid()
      ensures old(controller).None? ==> controller == None && queue == old(queue)
      ensures old(controller).Some? ==>
        var items := old(controller).value.mediaItems;
        var after := if 0 <= index < |items| then items[..index] + items[index + 1..] else items;
        controller == Some(old(controller).value.(mediaItems := after)) && queue == QueueOf(after)
      ensures playbackState == old(playbackState) && currentSong == old(currentSong)
      ensures futurePending == old(futurePending) && positionUpdatesActive == old(positionUpdatesActive)
    {
      if controller.Some? {
        var c := controller.value;
        if 0 <= index < |c.mediaItems| {
          controller := Some(c.(mediaItems := c.mediaItems[..index] + c.mediaItems[index + 1..]));
        }
      }
      UpdateQueue();
    }

    /** Moves the item at `from` to position `to` (at most the last) when both are valid, and republishes the queue. */
    method MoveQueueItem(from: int, to: int)
      requires Valid()
      modifies this
      ensures Valid()
      ensures old(controller).None? ==> controller == None && queue == old(queue)
      ensures old(controller).Some? ==>
        var items := old(controller).value.mediaItems;
        var after := if 0 <= from < |items| && 0 <= to then Moved(items, from, to) else items;
        controller == Some(old(controller).value.(mediaItems := after)) && queue == QueueOf(after)
      ensures playbackState == old(playbackState) && currentSong == old(currentSong)
      ensures futurePending == old(futurePending) && positionUpdatesActive == old(positionUpdatesActive)
    {
      if controller.Some? {
        var c := controller.value;
        if 0 <= from < |c.mediaItems| && 0 <= to {
          controller := Some(c.(mediaItems := Moved(c.mediaItems, from, to)));
        }
      }
      UpdateQueue();
    }

    /** Republishes the snapshot from the player, keeping the published song. */
    method UpdatePlaybackState()
      requires Valid()
      modifies this
      ensures Valid()
      ensures controller.Some? ==> playbackState == PlaybackStateOf(controller.value, currentSong)
      ensures controller.None? ==> playbackState == old(playbackState)
      ensures controller == old(controller) && currentSong == old(currentSong) && queue == old(queue)
      ensures futurePending == old(futurePending) && positionUpdatesActive == old(positionUpdatesActive)
    {
      if controller.Some? {
        playbackState := PlaybackStateOf(controller.value, currentSong);
      }
    }

    /** Republishes the current song and puts it and the known duration into the snapshot. */
    method UpdateCurrentSong()
      requires Valid()
      modifies this
      ensures Valid()
      ensures controller.Some? ==>
        && currentSong == CurrentSongOf(controller.value)
        && playbackState == old(playbackState).(currentSong := currentSong, duration := KnownDuration(controller.value))
      ensures controller.None? ==> currentSong == old(currentSong) && playbackState == old(playbackState)
      ensures controller == old(controller) && queue == old(queue)
      ensures futurePending == old(futurePending) && positionUpdatesActive == old(positionUpdatesActive)
    {
      if controller.Some? {
        var c := controller.value;
        var duration := KnownDuration(c);
        currentSong := CurrentSongOf(c);
        playbackState := playbackState.(currentSong := currentSong, duration := duration);
      }
    }

    /** Rebuilds the queue from the player's items, one item at a time. */
    method UpdateQueue()
      requires Valid()
      modifies this
      ensures Valid()
      ensures controller.Some? ==> queue == QueueOf(controller.value.mediaItems)
      ensures controller.None? ==> queue == old(queue)
      ensures controller == old(controller) && playbackState == old(playbackState) && currentSong == old(currentSong)
      ensures futurePending == old(futurePending) && positionUpdatesActive == old(positionUpdatesActive)
    {
      if controller.Some? {
        var items := controller.value.mediaItems;
        var songs: seq<Song> := [];
        for i := 0 to |items|
          invariant songs == QueueOf(items[..i])
        {
          assert items[..i + 1][..i] == items[..i];
          match ToSongWithDuration(items[i], 0) {
            case Some(song) => songs := songs + [song];
            case None =>
          }
        }
        assert items[..|items|] == items;
        QueueOfShape(items);
        queue := songs;
      }
    }
  }

  /** `moveMediaItem(from, to)`: the item leaves `from` and is inserted at `to`, capped at the last position. */
  function Moved(items: seq<MediaItem>, from: nat, to: nat): (r: seq<MediaItem>)
    requires from < |items|
    ensures |r| == |items| && multiset(r) == multiset(items)
    ensures r[if to < |items| then to else |items| - 1] == items[from]
    ensures var at := if to < |items| then to else |items| - 1;
      r[..at] + r[at + 1..] == items[..from] + items[from + 1..]
  {
    var rest := items[..from] + items[from + 1..];
    var at := if to < |items| then to else |items| - 1;
    assert items == items[..from] + [items[from]] + items[from + 1..];
    assert rest == rest[..at] + rest[at..];
    assert multiset(rest[..at] + [items[from]] + rest[at..]) == multiset(rest) + multiset{items[from]};
    rest[..at] + [items[from]] + rest[at..]
  }
}
