/** The stream-state store (`stream.service.ts`): the game, title, start time
    and viewer count of the current stream, persisted to a JSON file except
    for the viewer count. A file write is reported as `saved`. */
module Stream {
  import opened Wrappers

  datatype StreamState = StreamState(game: string, title: string, startedAt: Option<string>, viewerCount: int)

  const Default := StreamState("Just Chatting", "", None, 0)

  datatype StreamStep = StreamStep(state: StreamState, saved: bool)

  /** A parsed state file: any field may be missing. */
  datatype SavedStream = SavedStream(
    game: Option<string>, title: Option<string>, startedAt: Option<string>, viewerCount: Option<int>)

  datatype StreamFile = NoFile | Unreadable | Contents(saved: SavedStream)

  /** `loadState`: each field of the file, else its default (not its current
      value); a missing or unreadable file leaves the state as it is. */
  function LoadState(state: StreamState, file: StreamFile): (r: StreamState)
    ensures !file.Contents? ==> r == state
    ensures file.Contents? ==>
      && r.game == file.saved.game.GetOr(Default.game)
      && r.title == file.saved.title.GetOr(Default.title)
      && r.startedAt == file.saved.startedAt
      && r.viewerCount == file.saved.viewerCount.GetOr(Default.viewerCount)
  {
    match file
    case Contents(f) =>
      StreamState(f.game.GetOr(Default.game), f.title.GetOr(Default.title),
                  if f.startedAt.Some? then f.startedAt else Default.startedAt,
                  f.viewerCount.GetOr(Default.viewerCount))
    case _ => state
  }

  /** The file `saveState` writes. */
  function ToFile(s: StreamState): SavedStream {
    SavedStream(Some(s.game), Some(s.title), s.startedAt, Some(s.viewerCount))
  }

  /** Reading back a saved state restores it, whatever was loaded before. */
  lemma LoadSavedRoundTrip(s: StreamState, before: StreamState)
    ensures LoadState(before, Contents(ToFile(s))) == s
  {
  }

  datatype StreamInfo = StreamInfo(game: Option<string>, title: Option<string>, startedAt: Option<string>)

  /** `setStreamInfo`: the provided fields replace the stored ones; then save. */
  function SetStreamInfo(state: StreamState, info: StreamInfo): (r: StreamStep)
    ensures r.saved
    ensures r.state.game == info.game.GetOr(state.game)
    ensures r.state.title == info.title.GetOr(state.title)
    ensures r.state.startedAt == (if info.startedAt.Some? then info.startedAt else state.startedAt)
    ensures r.state.viewerCount == state.viewerCount
  {
    StreamStep(StreamState(info.game.GetOr(state.game), info.title.GetOr(state.title),
                           if info.startedAt.Some? then info.startedAt else state.startedAt,
                           state.viewerCount), true)
  }

  /** `setViewerCount`: not written to the file. */
  function SetViewerCount(state: StreamState, count: int): (r: StreamStep)
    ensures !r.saved
    ensures r.state == state.(viewerCount := count)
  {
    StreamStep(state.(viewerCount := count), false)
  }

  /** `clearStreamState`: back to the defaults, saved. */
  function ClearStreamState(state: StreamState): (r: StreamStep)
    ensures r == StreamStep(Default, true)
  {
    StreamStep(Default, true)
  }

  datatype StreamInfoPayload = StreamInfoPayload(game: string, title: string, startedAt: string)

  /** `getStreamInfoPayload`: nothing while no start time is set. */
  function StreamInfoOf(state: StreamState): (r: Option<StreamInfoPayload>)
    ensures r.None? <==> state.startedAt.None? || state.startedAt.value == ""
    ensures r.Some? ==> r.value == StreamInfoPayload(state.game, state.title, state.startedAt.value)
  {
    if state.startedAt.None? || state.startedAt.value == "" then None
    else Some(StreamInfoPayload(state.game, state.title, state.startedAt.value))
  }

  /** `getStreamViewersPayload`: the current count. */
  function StreamViewersOf(state: StreamState): (count: int)
    ensures count == state.viewerCount
  {
    state.viewerCount
  }

  /** Starting a stream makes the info visible; clearing hides it again; a
      viewer-count update never changes it. */
  lemma InfoLifecycle(state: StreamState, info: StreamInfo, count: int)
    requires info.startedAt.Some? && info.startedAt.value != ""
    ensures var started := SetStreamInfo(state, info).state;
      && StreamInfoOf(started).Some?
      && StreamInfoOf(started).value.startedAt == info.startedAt.value
      && StreamInfoOf(SetViewerCount(started, count).state) == StreamInfoOf(started)
      && StreamInfoOf(ClearStreamState(started).state).None?
      && StreamViewersOf(ClearStreamState(started).state) == 0
  {
  }
}
