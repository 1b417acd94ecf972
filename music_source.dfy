/** The music source (exoplayer/FirebaseMusicSource.kt): the catalog as media metadata, the
    browsable media items built from it, and the readiness gate as an object whose `state`
    setter and `whenReady` change it in place. */
module MusicSource {
  import opened Entities
  import opened ReadinessGate

  /** The `MediaMetadataCompat` the fetch builds for one song: one field per key it puts. */
  datatype Metadata = Metadata(
    artist: string,             // METADATA_KEY_ARTIST
    mediaId: string,            // METADATA_KEY_MEDIA_ID
    title: string,              // METADATA_KEY_TITLE
    displayTitle: string,       // METADATA_KEY_DISPLAY_TITLE
    displayIconUri: string,     // METADATA_KEY_DISPLAY_ICON_URI
    mediaUri: string,           // METADATA_KEY_MEDIA_URI
    artUri: string,             // METADATA_KEY_ART_URI
    displaySubtitle: string,    // METADATA_KEY_DISPLAY_SUBTITLE
    displayDescription: string  // METADATA_KEY_DISPLAY_DESCRIPTION
  )

  /** The description of a browsable media item; URIs are kept as their strings. */
  datatype ItemDescription = ItemDescription(mediaUri: string, title: string, subtitle: string, mediaId: string, iconUri: string)

  /** `MediaBrowserCompat.MediaItem(description, flags)`. */
  datatype MediaItem = MediaItem(description: ItemDescription, flags: int)

  /** `MediaBrowserCompat.MediaItem.FLAG_PLAYABLE` of the Android support library. */
  const FLAG_PLAYABLE: int := 2

  /** The metadata built for one song: each key holds the song field the fetch puts there. */
  function ToMetadata(s: Song): (m: Metadata)
    ensures m.artist == m.displaySubtitle == m.displayDescription == s.artist
    ensures m.mediaId == s.mediaID
    ensures m.title == m.displayTitle == s.title
    ensures m.mediaUri == s.songURL
    ensures m.displayIconUri == m.artUri == s.img
  {
    Metadata(s.artist, s.mediaID, s.title, s.title, s.img, s.songURL, s.img, s.artist, s.artist)
  }

  /** The `songs` list `fetchMediaData` stores: one record per fetched song, in the same order. */
  function SongsToMetadata(songs: seq<Song>): (r: seq<Metadata>)
    ensures |r| == |songs|
    ensures forall i :: 0 <= i < |r| ==>
      r[i].artist == songs[i].artist && r[i].mediaId == songs[i].mediaID &&
      r[i].title == songs[i].title && r[i].mediaUri == songs[i].songURL
  {
    if songs == [] then [] else [ToMetadata(songs[0])] + SongsToMetadata(songs[1..])
  }

  /** The browsable item built for one record. `song.description` of the Android library is
      read as the display keys and the media id. */
  function ToMediaItem(m: Metadata): (item: MediaItem)
    ensures item.flags == FLAG_PLAYABLE
    ensures item.description.mediaUri == m.mediaUri && item.description.mediaId == m.mediaId
    ensures item.description.title == m.displayTitle && item.description.subtitle == m.displaySubtitle
    ensures item.description.iconUri == m.displayIconUri
  {
    MediaItem(ItemDescription(m.mediaUri, m.displayTitle, m.displaySubtitle, m.mediaId, m.displayIconUri), FLAG_PLAYABLE)
  }

  /** `asMediaItems()`: one playable item per record, in the same order. */
  function AsMediaItems(songs: seq<Metadata>): (r: seq<MediaItem>)
    ensures |r| == |songs|
    ensures forall i :: 0 <= i < |r| ==> r[i].flags == FLAG_PLAYABLE
    ensures forall i :: 0 <= i < |r| ==>
      r[i].description.mediaId == songs[i].mediaId && r[i].description.mediaUri == songs[i].mediaUri &&
      r[i].description.title == songs[i].displayTitle && r[i].description.subtitle == songs[i].displaySubtitle &&
      r[i].description.iconUri == songs[i].displayIconUri
  {
    if songs == [] then [] else [ToMediaItem(songs[0])] + AsMediaItems(songs[1..])
  }

  /** The stream URIs `asMediaSource` concatenates into the player's playlist, in order. */
  function MediaUris(songs: seq<Metadata>): (r: seq<string>)
    ensures |r| == |songs|
    ensures forall i :: 0 <= i < |r| ==> r[i] == songs[i].mediaUri
  {
    if songs == [] then [] else [songs[0].mediaUri] + MediaUris(songs[1..])
  }

  /** What a browsing client sees of a fetched catalog: the i-th item is the i-th song, with
      its media id, stream URL, title (as title), artist (as subtitle) and artwork (as icon). */
  lemma {:induction false} ItemsDescribeFetchedSongs(songs: seq<Song>, i: nat)
    requires i < |songs|
    ensures |AsMediaItems(SongsToMetadata(songs))| == |songs|
    ensures AsMediaItems(SongsToMetadata(songs))[i]
      == MediaItem(ItemDescription(songs[i].songURL, songs[i].title, songs[i].artist, songs[i].mediaID, songs[i].img), FLAG_PLAYABLE)
  {
    if i == 0 {
      assert SongsToMetadata(songs)[0] == ToMetadata(songs[0]);
    } else {
      ItemsDescribeFetchedSongs(songs[1..], i - 1);
      assert SongsToMetadata(songs)[1..] == SongsToMetadata(songs[1..]);
      assert AsMediaItems(SongsToMetadata(songs))[1..] == AsMediaItems(SongsToMetadata(songs)[1..]);
    }
  }

  /** The music source object. The ghost field `invoked` records every call of a listener
      (whose body belongs to the caller); the other fields are the source's own. */
  class FirebaseMusicSource {
    var songs: seq<Metadata>
    var state: State
    var onReadyListeners: seq<ListenerId>
    ghost var invoked: seq<Invocation>

    /** The gate part of the object, as a value. */
    ghost function AsGate(): Gate
      reads this
    {
      Gate(state, onReadyListeners, invoked)
    }

    /** A new source: no songs, Created, no listener. */
    constructor ()
      ensures AsGate() == Fresh() && songs == []
    {
      songs := [];
      state := Created;
      onReadyListeners := [];
      invoked := [];
    }

    /** The custom `state` setter: for Initialized or Error the value is stored first, then
        every listener is called in order with `state == STATE_INITIALIZED`. */
    method SetState(v: State)
      modifies this
      ensures AsGate() == ReadinessGate.SetState(old(AsGate()), v)
      ensures songs == old(songs)
    {
      if v == Initialized || v == Error {
        state := v;
        for i := 0 to |onReadyListeners|
          invariant state == v && onReadyListeners == old(onReadyListeners) && songs == old(songs)
          invariant invoked == old(invoked) + Notify(onReadyListeners[..i], state == Initialized)
        {
          NotifyAppend(onReadyListeners[..i], [onReadyListeners[i]], state == Initialized);
          assert onReadyListeners[..i] + [onReadyListeners[i]] == onReadyListeners[..i + 1];
          invoked := invoked + [Invocation(onReadyListeners[i], state == Initialized)];
        }
        assert onReadyListeners[..|onReadyListeners|] == onReadyListeners;
      } else {
        state := v;
      }
    }

    /** `whenReady(action)`: queue the action before resolution, call it at once after. */
    method WhenReady(action: ListenerId) returns (ready: bool)
      modifies this
      ensures (AsGate(), ready) == ReadinessGate.WhenReady(old(AsGate()), action)
      ensures songs == old(songs)
    {
      if state == Created || state == Initializing {
        onReadyListeners := onReadyListeners + [action];
        ready := false;
      } else {
        invoked := invoked + [Invocation(action, state == Initialized)];
        ready := true;
      }
    }

    /** `fetchMediaData()`, given what the document store returned (empty on failure):
        Initializing, the catalog replaced by its metadata, then Initialized. */
    method FetchMediaData(allSongs: seq<Song>)
      modifies this
      ensures AsGate() == Fetch(old(AsGate()))
      ensures songs == SongsToMetadata(allSongs)
    {
      SetState(Initializing);
      songs := SongsToMetadata(allSongs);
      SetState(Initialized);
    }
  }
}
