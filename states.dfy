/** Playback states (events/states in the player): the public ones and the two provider-level ones. */
module States {

  datatype State =
    | Idle
    | Buffering
    | Playing
    | Paused
    | Complete
    | Error
    // only providers report these two; the player never exposes them
    | Loading
    | Stalled

  /** A state every subscriber of the player may observe. */
  predicate IsPublic(s: State) {
    s != Loading && s != Stalled
  }

  /** The controller's view of a provider state: LOADING and STALLED read as BUFFERING. */
  function Collapse(s: State): (r: State)
    ensures IsPublic(r)
    ensures IsPublic(s) ==> r == s
    ensures !IsPublic(s) ==> r == Buffering
  {
    if s == Loading || s == Stalled then Buffering else s
  }
}
