/** The main view model (ui/viewmodels/MainViewModel.kt): the song list it posts from the
    browsed children, and the rule that turns a tap on a song into at most one transport
    command. The playback-state predicates `isPrepared`, `isPlaying` and `isPlayEnabled`
    are defined outside this model and appear as plain booleans. */
module ViewModel {
  import opened Wrappers
  import opened Entities
  import opened Resources
  import opened MusicSource

  /** The parts of the session's playback state the rule consults. */
  datatype PlaybackState = PlaybackState(isPrepared: bool, isPlaying: bool, isPlayEnabled: bool)

  /** A transport-control call: `playFromMediaId(id, null)`, `pause()` or `play()`. */
  datatype TransportCommand = PlayFromMediaId(mediaId: string) | Pause | Play

  /** The command `playOrToggleSong(mediaItem, toggle)` issues, if any, given the current
      playback state and current song (each null when the session has not published one). */
  function TransportCommandFor(mediaItem: Song, toggle: bool, playbackState: Option<PlaybackState>,
                               curPlayingSong: Option<Metadata>): (r: Option<TransportCommand>)
    // a different song, or a player that is not prepared: play the requested song by its id
    ensures r == Some(PlayFromMediaId(mediaItem.mediaID)) <==>
      !(playbackState.Some? && playbackState.value.isPrepared) ||
      !(curPlayingSong.Some? && curPlayingSong.value.mediaId == mediaItem.mediaID)
    // the prepared current song: pause it only when toggling, resume it when it may play
    ensures r == Some(Pause) <==>
      playbackState.Some? && playbackState.value.isPrepared && playbackState.value.isPlaying && toggle &&
      curPlayingSong.Some? && curPlayingSong.value.mediaId == mediaItem.mediaID
    ensures r == Some(Play) <==>
      playbackState.Some? && playbackState.value.isPrepared && !playbackState.value.isPlaying &&
      playbackState.value.isPlayEnabled &&
      curPlayingSong.Some? && curPlayingSong.value.mediaId == mediaItem.mediaID
    ensures r == None <==>
      playbackState.Some? && playbackState.value.isPrepared &&
      curPlayingSong.Some? && curPlayingSong.value.mediaId == mediaItem.mediaID &&
      (if playbackState.value.isPlaying then !toggle else !playbackState.value.isPlayEnabled)
  {
    var isPrepared := playbackState.Some? && playbackState.value.isPrepared;
    if isPrepared && curPlayingSong.Some? && mediaItem.mediaID == curPlayingSong.value.mediaId then
      var state := playbackState.value;
      if state.isPlaying then (if toggle then Some(Pause) else None)
      else if state.isPlayEnabled then Some(Play)
      else None
    else
      Some(PlayFromMediaId(mediaItem.mediaID))
  }

  /** With the default `toggle = false`, tapping a song never pauses it. */
  lemma DefaultTapNeverPauses(mediaItem: Song, playbackState: Option<PlaybackState>, curPlayingSong: Option<Metadata>)
    ensures TransportCommandFor(mediaItem, false, playbackState, curPlayingSong) != Some(Pause)
  {
  }

  /** The song the children callback builds, AS WRITTEN: the arguments are passed by position
      in the order (media id, title, subtitle, media URI, icon URI), while `Song`'s parameters
      are (artist, mediaID, title, songURL, img). */
  function ChildToSongAsWritten(item: MediaItem): (s: Song)
    ensures s.artist == item.description.mediaId && s.mediaID == item.description.title
    ensures s.title == item.description.subtitle
    ensures s.songURL == item.description.mediaUri && s.img == item.description.iconUri
  {
    Song(item.description.mediaId, item.description.title, item.description.subtitle,
         item.description.mediaUri, item.description.iconUri)
  }

  /** The song the children callback evidently means to build: each `Song` field from the item
      part that the music source filled from that same field. */
  function ChildToSong(item: MediaItem): (s: Song)
    ensures s.mediaID == item.description.mediaId && s.title == item.description.title
    ensures s.artist == item.description.subtitle
    ensures s.songURL == item.description.mediaUri && s.img == item.description.iconUri
  {
    Song(item.description.subtitle, item.description.mediaId, item.description.title,
         item.description.mediaUri, item.description.iconUri)
  }

  /** The `items` list posted on `onChildrenLoaded`: one song per child, in the same order. */
  function ChildrenToSongs(children: seq<MediaItem>): (r: seq<Song>)
    ensures |r| == |children|
    ensures forall i :: 0 <= i < |r| ==> r[i] == ChildToSong(children[i])
  {
    if children == [] then [] else [ChildToSong(children[0])] + ChildrenToSongs(children[1..])
  }

  /** The catalog survives its trip from the music source to the view model: the songs the
      view model lists are exactly the songs the source fetched, in the same order. */
  lemma CatalogRoundTrip(songs: seq<Song>)
    ensures ChildrenToSongs(AsMediaItems(SongsToMetadata(songs))) == songs
  {
    var r := ChildrenToSongs(AsMediaItems(SongsToMetadata(songs)));
    forall i | 0 <= i < |songs| ensures r[i] == songs[i] {
      ItemsDescribeFetchedSongs(songs, i);
    }
  }

  /** As written, the round trip fails on any song whose fields differ: the listed song carries
      the title as its media id, the artist as its title and the media id as its artist. */
  lemma AsWrittenScramblesSongs()
    ensures var s := Song("Artist", "id-1", "Title", "https://host/a.mp3", "https://host/a.png");
      ChildToSongAsWritten(ToMediaItem(ToMetadata(s))) == Song("id-1", "Title", "Artist", s.songURL, s.img) &&
      ChildToSongAsWritten(ToMediaItem(ToMetadata(s))) != s
  {
  }

  /** The effect on a tap: with the song list as written, tapping the prepared, playing
      current song with `toggle` restarts playback by its title instead of pausing it, while
      the corrected list pauses it. */
  lemma AsWrittenToggleDoesNotPause(s: Song)
    requires s.title != s.mediaID
    ensures var playing := Some(PlaybackState(true, true, true));
      TransportCommandFor(ChildToSongAsWritten(ToMediaItem(ToMetadata(s))), true, playing, Some(ToMetadata(s)))
        == Some(PlayFromMediaId(s.title)) &&
      TransportCommandFor(ChildToSong(ToMediaItem(ToMetadata(s))), true, playing, Some(ToMetadata(s)))
        == Some(Pause)
  {
  }

  class MainViewModel {
    /** Every value posted to `mediaItems`, in order; the last is the current one. */
    var mediaItems: seq<Resource<seq<Song>>>
    /** Every transport command issued, in order. */
    var issued: seq<TransportCommand>

    /** `init`: a loading resource without data is posted before subscribing to the root. */
    constructor ()
      ensures mediaItems == [Loading(None)] && issued == []
    {
      mediaItems := [Loading(None)];
      issued := [];
    }

    /** The subscription's `onChildrenLoaded`: the children become songs and are posted as success. */
    method OnChildrenLoaded(parentId: string, children: seq<MediaItem>)
      modifies this`mediaItems
      ensures mediaItems == old(mediaItems) + [Success(Some(ChildrenToSongs(children)))]
    {
      var items := ChildrenToSongs(children);
      mediaItems := mediaItems + [Success(Some(items))];
    }

    /** `playOrToggleSong(mediaItem, toggle)`: issues the one command the rule chooses, or none. */
    method PlayOrToggleSong(mediaItem: Song, toggle: bool, playbackState: Option<PlaybackState>,
                            curPlayingSong: Option<Metadata>)
      modifies this`issued
      ensures var r := TransportCommandFor(mediaItem, toggle, playbackState, curPlayingSong);
        issued == old(issued) + (if r.Some? then [r.value] else [])
    {
      var isPrepared := playbackState.Some? && playbackState.value.isPrepared;
      if isPrepared && curPlayingSong.Some? && mediaItem.mediaID == curPlayingSong.value.mediaId {
        var state := playbackState.value;
        if state.isPlaying {
          if toggle {
            issued := issued + [Pause];
          }
        } else if state.isPlayEnabled {
          issued := issued + [Play];
        }
      } else {
        issued := issued + [PlayFromMediaId(mediaItem.mediaID)];
      }
    }
  }
}
