/** The error values that reach the player's `onError` callback, and the
    classification `stream(url:using:)` applies to whatever asset construction throws. */
module Errors {
  import opened Wrappers

  /** A platform error (a Swift `Error` / `NSError`) the player only passes along. */
  datatype Cause = Cause(domain: string, code: int)

  /** Reasons attached to an asset failure. Only `failedToReady` is raised by the
      player itself; the remaining reasons belong to code outside this model. */
  datatype AssetReason =
    | FailedToReady(itemError: Option<Cause>)
    | OtherAssetReason(code: int)

  /** The player's own error type. `OtherPlayerError` stands for the cases raised by
      collaborators (asset preparation, FairPlay) whose definitions are not modelled. */
  datatype PlayerError =
    | Asset(reason: AssetReason)
    | GeneralError(error: Cause)
    | OtherPlayerError(code: int)

  /** What `MediaAsset(mediaLocator:fairplayRequester:)` may throw: either a
      `PlayerError`, or any other Swift error. */
  datatype Thrown =
    | ThrownPlayerError(playerError: PlayerError)
    | ThrownOther(cause: Cause)

  /** The `catch` block of `stream`: a `PlayerError` is reported as it is, any other
      error is wrapped as `generalError`. */
  function Classify(t: Thrown): (e: PlayerError)
    ensures t.ThrownPlayerError? ==> e == t.playerError
    ensures t.ThrownOther? ==> e == GeneralError(t.cause)
  {
    match t
    case ThrownPlayerError(pe) => pe
    case ThrownOther(c) => GeneralError(c)
  }
}
