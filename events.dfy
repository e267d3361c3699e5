/** The events the controller receives from providers and publishes to subscribers. */
module Events {
  import opened States
  import opened Playlist

  datatype Event =
    | MediaMute(mute: bool)
    | MediaVolume(volume: int)
    | PlayerStateChanged(newstate: State)
    | MediaBuffer(bufferPercent: int)
    | MediaTime(position: real, duration: real)
    | FullscreenChanged(fullscreen: bool)
    | PlayerError(message: string)
    | PlaylistLoaded(playlist: seq<Item>)
    | PlaylistItem(index: int)
    // any other event type a provider may send, passed on untouched
    | OtherEvent(name: string)

  /** The type tag an event is dispatched under. */
  datatype EventType =
    | MediaMuteType
    | MediaVolumeType
    | PlayerStateType
    | MediaBufferType
    | MediaTimeType
    | FullscreenType
    | ErrorType
    | PlaylistLoadedType
    | PlaylistItemType
    | OtherType(name: string)

  function TypeOf(e: Event): EventType {
    match e
    case MediaMute(_) => MediaMuteType
    case MediaVolume(_) => MediaVolumeType
    case PlayerStateChanged(_) => PlayerStateType
    case MediaBuffer(_) => MediaBufferType
    case MediaTime(_, _) => MediaTimeType
    case FullscreenChanged(_) => FullscreenType
    case PlayerError(_) => ErrorType
    case PlaylistLoaded(_) => PlaylistLoadedType
    case PlaylistItem(_) => PlaylistItemType
    case OtherEvent(name) => OtherType(name)
  }

  /**
   * The event the controller re-publishes for an inbound provider event: the same type,
   * a state change carrying a public state, everything else field for field.
   */
  function Translate(e: Event): (r: Event)
    ensures TypeOf(r) == TypeOf(e)
    ensures r.PlayerStateChanged? ==> IsPublic(r.newstate)
    ensures e.PlayerStateChanged? && IsPublic(e.newstate) ==> r == e
    ensures e.PlayerStateChanged? && !IsPublic(e.newstate) ==> r == PlayerStateChanged(Buffering)
    ensures !e.PlayerStateChanged? ==> r == e
  {
    match e
    case PlayerStateChanged(s) => PlayerStateChanged(Collapse(s))
    case _ => e
  }
}
