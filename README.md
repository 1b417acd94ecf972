# MusicPlayer readiness gate, in Dafny

This project models the core of an Android music player. The player fetches a song catalog
from a remote document store, turns it into media metadata and browsable media items, and
lets the media-browser service and the UI wait for the catalog through a **readiness gate**.

What is modelled:

- **The readiness gate** (`FirebaseMusicSource`). The gate has four states: Created,
  Initializing, Initialized and Error. It also keeps a list of waiting listeners.
  - `whenReady` queues a listener while the gate is unresolved. Once the gate is resolved,
    `whenReady` calls the listener at once with the outcome.
  - Assigning a terminal state calls every queued listener, in order (listeners are taken to
    return normally; see Left out).
  - Module `ReadinessGate` gives the gate as values: step functions, and lemmas over any run of
    operations.
  - Class `MusicSource.FirebaseMusicSource` holds the source's fields and updates them in place.
    Its methods are proved against the step functions.
  - A listener is identified by a number. Every listener call is recorded in the ghost field `invoked`.
- **The catalog mappings.** Each song becomes a metadata record, and each record becomes a
  playable media item, keeping order. The view model turns the items back into songs.
- **The media-browser service** (`MusicService`). `onLoadChildren` answers a client now,
  detaches the request, or ignores it. `preparePlayer` chooses the window to start at. The calls
  the service makes on the player, the session and the result are recorded in order as commands.
- **The view model** (`MainViewModel`). It posts the song list as a loading and then a success
  resource. `playOrToggleSong` picks at most one transport command.
- **`Event`**, a one-shot wrapper: its content is consumed once and can be peeked at forever.
  **`Resource`** and its three factories over `Status`.

Two behaviours of the code are worth stating up front:

- A second terminal assignment calls every listener again, including listeners already
  notified. `ReadinessGate.ResolvingTwiceNotifiesTwice` states this.
- Nothing sets Error. A failed fetch yields an empty catalog, and `fetchMediaData` then sets
  Initialized. `ReadinessGate.FetchNeverFails` states this.

## Model

| member | source | states |
|---|---|---|
| `Resources.Success` | app/src/main/java/com/example/musicplayer/other/Resource.kt:7 | `success(d)` is status SUCCESS, data `d` unchanged, no message |
| `Resources.Error` | app/src/main/java/com/example/musicplayer/other/Resource.kt:9 | `error(m, d)` is status ERROR, data `d` unchanged, message `m` |
| `Resources.Loading` | app/src/main/java/com/example/musicplayer/other/Resource.kt:11 | `loading(d)` is status LOADING, data `d` unchanged, no message |
| `Resources.FactoriesAreDistinguishable` | app/src/main/java/com/example/musicplayer/other/Resource.kt:4-11 | no two factories build the same resource; every factory passes its data through, so equal results mean equal data |
| `Resources.EveryFactoryShapeIsReachable` | app/src/main/java/com/example/musicplayer/other/Resource.kt:4-11 | each resource of a factory's shape is what that factory builds from the resource's own data and message |
| `Resources.StatusHasThreeValues` | app/src/main/java/com/example/musicplayer/other/Resource.kt:15-19 | `Status` is SUCCESS, ERROR or LOADING, and these are three distinct values |
| `Events.ConsumeStep` | app/src/main/java/com/example/musicplayer/other/Event.kt:8-15 | one `getContentIfNotHandled` returns the data iff the event was not handled, null iff it was, and always leaves it handled (for non-null data; see Left out) |
| `Events.ConsumedAtMostOnce` | app/src/main/java/com/example/musicplayer/other/Event.kt:5-15 | over any number of calls, only the first call on an unhandled event returns the data; every other call returns null |
| `Events.Event.constructor` | app/src/main/java/com/example/musicplayer/other/Event.kt:4-6 | a new event wraps its data and is not handled |
| `Events.Event.GetContentIfNotHandled` | app/src/main/java/com/example/musicplayer/other/Event.kt:8-15 | the object takes exactly the step `ConsumeStep` gives; a handled event stays handled and returns null |
| `Events.Event.PeekContent` | app/src/main/java/com/example/musicplayer/other/Event.kt:17 | returns the wrapped data and changes nothing |
| `ReadinessGate.Notify` | app/src/main/java/com/example/musicplayer/exoplayer/FirebaseMusicSource.kt:81-84 | notifying a list calls each listener once, in list order, with the same outcome |
| `ReadinessGate.Fresh` | app/src/main/java/com/example/musicplayer/exoplayer/FirebaseMusicSource.kt:73-75 | a new gate is Created, with no listener and no call made |
| `ReadinessGate.SetState` | app/src/main/java/com/example/musicplayer/exoplayer/FirebaseMusicSource.kt:75-89 | the new value is stored and the list is kept. A terminal value appends one call per listener, in order, with outcome `v == Initialized`. A non-terminal value calls nobody |
| `ReadinessGate.WhenReady` | app/src/main/java/com/example/musicplayer/exoplayer/FirebaseMusicSource.kt:91-99 | returns true iff the gate is resolved. If unresolved, the id is appended and nothing is called. If resolved, the list is unchanged and the listener is called once with the outcome |
| `ReadinessGate.Fetch` | app/src/main/java/com/example/musicplayer/exoplayer/FirebaseMusicSource.kt:27-45 | the fetch leaves the gate Initialized, keeps the list, and calls every listener with true |
| `ReadinessGate.NothingIsForgotten` | app/src/main/java/com/example/musicplayer/exoplayer/FirebaseMusicSource.kt:73-99 | in any run, the old list and the old call record stay prefixes of the new ones: listeners are never removed |
| `ReadinessGate.PendingOpsOnlyQueue` | app/src/main/java/com/example/musicplayer/exoplayer/FirebaseMusicSource.kt:91-94 | before resolution, registrations and non-terminal assignments call nobody and leave the gate unresolved. Registered ids join the list in order |
| `ReadinessGate.ResolvedRegistrationsRunAtOnce` | app/src/main/java/com/example/musicplayer/exoplayer/FirebaseMusicSource.kt:95-98 | after resolution, registrations never queue. Each listener is called at once, in order, with the resolved outcome |
| `ReadinessGate.EveryListenerCalledOnceWithOutcome` | app/src/main/java/com/example/musicplayer/exoplayer/FirebaseMusicSource.kt:75-99 | take a new gate, registrations, one resolution `v`, then more registrations. Every registered listener is called exactly once, in registration order, with `v == Initialized`. Only the early ones stay queued |
| `ReadinessGate.ResolvingTwiceNotifiesTwice` | app/src/main/java/com/example/musicplayer/exoplayer/FirebaseMusicSource.kt:77-85 | a second terminal assignment calls every listener again, including those already notified |
| `ReadinessGate.NonTerminalAssignmentIsSilent` | app/src/main/java/com/example/musicplayer/exoplayer/FirebaseMusicSource.kt:86-88 | assigning Created or Initializing stores the value and changes nothing else, whatever the prior state |
| `ReadinessGate.ThreeWaitersScenario` | app/src/main/java/com/example/musicplayer/exoplayer/FirebaseMusicSource.kt:77-94 | three listeners registered on a new gate all receive true, in order, when it becomes Initialized |
| `ReadinessGate.ErrorThenWaiterScenario` | app/src/main/java/com/example/musicplayer/exoplayer/FirebaseMusicSource.kt:77-98 | after Error with no listener, `whenReady` returns true, calls the listener once with false, and queues nothing |
| `ReadinessGate.FetchNeverFails` | app/src/main/java/com/example/musicplayer/exoplayer/FirebaseMusicSource.kt:27-45 | the fetch never leaves the gate in Error, and every call it makes carries true |
| `MusicSource.ToMetadata` | app/src/main/java/com/example/musicplayer/exoplayer/FirebaseMusicSource.kt:31-43 | each metadata key holds the song field the fetch puts under it |
| `MusicSource.SongsToMetadata` | app/src/main/java/com/example/musicplayer/exoplayer/FirebaseMusicSource.kt:31-43 | same length and order as the fetched songs. Artist, media id, title and media URI come from `artist`, `mediaID`, `title` and `songURL` |
| `MusicSource.ToMediaItem` | app/src/main/java/com/example/musicplayer/exoplayer/FirebaseMusicSource.kt:60-69 | the item is flagged playable and describes the record's media URI, media id, display title, display subtitle and display icon (for a non-empty media id; see Left out) |
| `MusicSource.AsMediaItems` | app/src/main/java/com/example/musicplayer/exoplayer/FirebaseMusicSource.kt:60-69 | one playable item per record, in the same order, each describing its record (for non-empty media ids; see Left out) |
| `MusicSource.MediaUris` | app/src/main/java/com/example/musicplayer/exoplayer/FirebaseMusicSource.kt:49-57 | the player's playlist is the records' media URIs, in order |
| `MusicSource.ItemsDescribeFetchedSongs` | app/src/main/java/com/example/musicplayer/exoplayer/FirebaseMusicSource.kt:31-69 | the i-th browsable item is the i-th fetched song: its URL, title, artist as subtitle, media id and artwork, flagged playable (for the model's reading of `description`; see Left out) |
| `MusicSource.FirebaseMusicSource.constructor` | app/src/main/java/com/example/musicplayer/exoplayer/FirebaseMusicSource.kt:24-75 | a new source has no songs, is Created, and has no listener |
| `MusicSource.FirebaseMusicSource.SetState` | app/src/main/java/com/example/musicplayer/exoplayer/FirebaseMusicSource.kt:75-89 | the setter's loop over the listeners takes the object exactly to `ReadinessGate.SetState` of its old gate; songs unchanged |
| `MusicSource.FirebaseMusicSource.WhenReady` | app/src/main/java/com/example/musicplayer/exoplayer/FirebaseMusicSource.kt:91-99 | the object and the result are exactly `ReadinessGate.WhenReady` of the old gate; songs unchanged |
| `MusicSource.FirebaseMusicSource.FetchMediaData` | app/src/main/java/com/example/musicplayer/exoplayer/FirebaseMusicSource.kt:27-45 | the gate takes the `Fetch` step, and `songs` becomes the metadata of the fetched songs, even when none were fetched |
| `Service.ReadyCallbackCommands` | app/src/main/java/com/example/musicplayer/exoplayer/MusicService.kt:168-181 | on a true outcome the callback sends the media items. On a false outcome it sends a NETWORK_ERROR event, then a null result. It never prepares the player |
| `Service.LoadChildrenCommands` | app/src/main/java/com/example/musicplayer/exoplayer/MusicService.kt:162-188 | a non-root parent gets nothing. Unresolved: detach. Initialized: the items. Error: the network-error event and a null result |
| `Service.IndexOf` | app/src/main/java/com/example/musicplayer/exoplayer/MusicService.kt:128 | `indexOf` is the first position holding the item. It is -1 exactly when the item is null or absent |
| `Service.StartIndex` | app/src/main/java/com/example/musicplayer/exoplayer/MusicService.kt:128 | the start window is 0 with no current song, otherwise `indexOf` of the item, which may be -1 |
| `Service.PickedSongStartsAtItsIndex` | app/src/main/java/com/example/musicplayer/exoplayer/MusicService.kt:96-132 | a current song taken from the catalog starts at its first position. One not in the catalog starts at -1 |
| `Service.DeferredRequestIsAnswered` | app/src/main/java/com/example/musicplayer/exoplayer/MusicService.kt:168-185 | a request made before resolution is deferred (whenReady returns false). The resolution then calls its callback with the outcome |
| `Service.MusicService.constructor` | app/src/main/java/com/example/musicplayer/exoplayer/MusicService.kt:55-59 | no current song, player not initialized, nothing sent |
| `Service.MusicService.PreparePlayer` | app/src/main/java/com/example/musicplayer/exoplayer/MusicService.kt:122-132 | sends, in order: prepare on the source's playlist, seek to `StartIndex` at position 0, and playWhenReady set to `playNow`; after a seek to -1, which the player rejects by throwing, playWhenReady is not sent |
| `Service.MusicService.OnPrepareSong` | app/src/main/java/com/example/musicplayer/exoplayer/MusicService.kt:96-103 | the item becomes current before preparing, so the seek is to `indexOf` of the item (0 only for a null item), then play now, unless the item is not in the catalog and the seek to -1 throws first |
| `Service.MusicService.OnLoadChildren` | app/src/main/java/com/example/musicplayer/exoplayer/MusicService.kt:162-188 | the gate takes `whenReady` for the root only. The commands sent are `LoadChildrenCommands` of the gate's prior state. `isPlayerInitialized` and the current song never change. The prepare branch is proved unreachable (for catalogs with non-empty media ids; see Left out) |
| `ViewModel.TransportCommandFor` | app/src/main/java/com/example/musicplayer/ui/viewmodels/MainViewModel.kt:65-79 | play-from-id iff not prepared, or not the current song. Pause iff the prepared current song is playing and `toggle` holds. Play iff it is not playing but play is enabled. Nothing otherwise |
| `ViewModel.DefaultTapNeverPauses` | app/src/main/java/com/example/musicplayer/ui/viewmodels/MainViewModel.kt:65-70 | with the default `toggle = false` the rule never pauses |
| `ViewModel.ChildToSongAsWritten` | app/src/main/java/com/example/musicplayer/ui/viewmodels/MainViewModel.kt:36-44 | as written, the song's artist is the item's media id, its media id the title, and its title the subtitle |
| `ViewModel.ChildToSong` | app/src/main/java/com/example/musicplayer/ui/viewmodels/MainViewModel.kt:36-44 | corrected: each song field comes from the item part the source filled from that field |
| `ViewModel.ChildrenToSongs` | app/src/main/java/com/example/musicplayer/ui/viewmodels/MainViewModel.kt:36-45 | one song per child, in the same order (corrected mapping) |
| `ViewModel.CatalogRoundTrip` | app/src/main/java/com/example/musicplayer/ui/viewmodels/MainViewModel.kt:36-44 | the songs the view model lists are exactly the songs the source fetched, in order (for the model's reading of `description`; see Left out) |
| `ViewModel.AsWrittenScramblesSongs` | app/src/main/java/com/example/musicplayer/ui/viewmodels/MainViewModel.kt:37-43 | a concrete song that the mapping as written does not give back |
| `ViewModel.AsWrittenToggleDoesNotPause` | app/src/main/java/com/example/musicplayer/ui/viewmodels/MainViewModel.kt:36-77 | with the list as written, a toggle on the playing current song plays by its title and does not pause. The corrected list pauses |
| `ViewModel.MainViewModel.constructor` | app/src/main/java/com/example/musicplayer/ui/viewmodels/MainViewModel.kt:28-29 | the first value posted is loading with no data |
| `ViewModel.MainViewModel.OnChildrenLoaded` | app/src/main/java/com/example/musicplayer/ui/viewmodels/MainViewModel.kt:31-46 | loaded children are posted, after what came before, as success of their songs in order |
| `ViewModel.MainViewModel.PlayOrToggleSong` | app/src/main/java/com/example/musicplayer/ui/viewmodels/MainViewModel.kt:65-79 | issues exactly the one command `TransportCommandFor` chooses, or none |

## Left out

- The document-store fetch (`MusicDatabase.getAllSongs`) is network I/O. `FetchMediaData`
  receives its result as a parameter, which is empty on failure.
- Threads: the `synchronized` block, `withContext(Dispatchers.IO)` and the service's coroutine
  scope. The gate is modelled one operation at a time.
- A listener's body belongs to its caller. Its calls are recorded in the ghost field `invoked`. A listener that
  re-enters the gate while it is being notified is not modelled.
- `Service.MusicService.OnLoadChildren`: the commands a deferred callback sends when the gate
  resolves later are not appended to the service's record. `Service.ReadyCallbackCommands`
  states what the callback sends, and `Service.DeferredRequestIsAnswered` states that it is called.
- ExoPlayer, the media session and the result object appear only as the commands sent to them.
  `asMediaSource` appears only as the playlist of media URIs handed to `prepare`.
- `Service.IndexOf`: Java's `indexOf` on `MediaMetadataCompat` compares references. The model
  compares values, which differs only when two catalog entries have identical metadata.
- `song.description` (library code) is read as the display title, display subtitle, display
  icon URI and media id. The library's fallbacks for empty display strings are not modelled.
- `MusicSource.ItemsDescribeFetchedSongs`, `ViewModel.CatalogRoundTrip`: these hold for the
  model's reading of `song.description`. In the library, a song whose `title` is "" gets its
  artist as the item title and a null subtitle, and a song whose `img` is "" gets a null icon
  URI, which the view model turns into the string "null". A song whose `mediaID` is "" never
  becomes an item at all (next line). So the real round trip keeps only songs whose `mediaID`,
  `title` and `img` are all non-empty; songs with any of these fields empty are not covered.
- `MusicSource.ToMediaItem`, `MusicSource.AsMediaItems`, `Service.MusicService.OnLoadChildren`:
  the library's `MediaItem` constructor throws `IllegalArgumentException` when the description's
  media id is empty, and `Song`'s `mediaID` defaults to "". With such a song in the catalog,
  `asMediaItems()` throws. On a resolved gate the exception leaves `onLoadChildren` and nothing is
  sent. On a deferred request it leaves the `state` setter's listener loop. The model always
  builds the item, so it covers only catalogs whose media ids are all non-empty.
- `ReadinessGate.SetState`, `MusicSource.FirebaseMusicSource.SetState`, `ReadinessGate.WhenReady`:
  every listener is taken to return normally. In the source, a listener that throws ends the
  setter's loop: the new state is already stored, the later listeners are never called, and the
  exception leaves the setter. A throwing action likewise leaves `whenReady` after the gate has
  already resolved. The shown code's own listener, `onLoadChildren`'s, throws in the case above.
- `Events.ConsumeStep`, `Events.ConsumedAtMostOnce`, `Events.Event.GetContentIfNotHandled`: `T` is
  taken as a non-null type, so `Some(data)` and null stay apart. For an event that wraps null
  (a nullable `T`), the first, unhandled call also returns null, so "null iff handled" holds
  only for non-null data.
- URIs are kept as their strings (`toUri()` and `toString()` are taken as inverses).
- Not modelled: `onCreate`, `onDestroy`, `onTaskRemoved`, `onGetRoot`, the notification
  manager, the queue navigator, the adapters and fragments, and dependency injection. These are
  platform and library wiring.
- Also not modelled: `skipToNextSong`, `skipToPrevSong` and `seekTo` of the view model, which
  only forward one call to the transport controls, and `onCleared`, which unsubscribes the
  service connection from the root.
- `Service.MusicService.PreparePlayer`, `Service.MusicService.OnPrepareSong`: when the start
  index is -1, ExoPlayer's `seekTo` throws `IllegalSeekPositionException`. The model records the
  seek and then sends nothing more, but the exception itself, which leaves `preparePlayer` and
  the preparer callback, is not modelled. A seek past the end of a non-empty playlist, which
  throws too, cannot happen when `songs` is the source's catalog, as at every call: the index
  is then below the playlist's length.
- `isPrepared`, `isPlaying` and `isPlayEnabled` are not part of this model and are plain booleans.
- `MEDIA_ROOT_ID` and `NETWORK_ERROR` come from a constants file that is not part of this model.
  The root id is a constructor parameter, and the network error is a tag.
- `ViewModel.TransportCommandFor`: the source reads `playbackState.value` twice. The model reads
  it once, so a change between the two reads is not modelled.
- `ViewModel.MainViewModel.OnChildrenLoaded` uses the corrected mapping (see Findings).

## Findings

| source | as written | input that shows it | evidently intended | confidence | as-written member | corrected member |
|---|---|---|---|---|---|---|
| app/src/main/java/com/example/musicplayer/ui/viewmodels/MainViewModel.kt:37-43 | `Song(mediaId, title, subtitle, mediaUri, iconUri)` passes arguments by position, but `Song`'s parameters are `(artist, mediaID, title, songURL, img)`. The listed song carries the title as its media id, the artist as its title, and the media id as its artist | `Song("Artist", "id-1", "Title", url, img)` comes back as `Song("id-1", "Title", "Artist", url, img)`. Toggling that song while it plays calls `playFromMediaId("Title")` instead of `pause()` | each field comes from the item part the source filled from that field, so the catalog survives the round trip | high; not executed | `ViewModel.ChildToSongAsWritten`, `ViewModel.AsWrittenScramblesSongs`, `ViewModel.AsWrittenToggleDoesNotPause` | `ViewModel.ChildToSong`, `ViewModel.ChildrenToSongs`, `ViewModel.CatalogRoundTrip` |
