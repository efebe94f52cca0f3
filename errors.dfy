/** The plugin's closed error taxonomy and its stable integer codes. */
module Errors {
  import opened Wrappers

  datatype GameCenterError =
    | UnknownError
    | NotAuthenticated
    | NotAvailable
    | FailedToAuthenticate
    | FailedToLoadPicture
    | MissingIdentifier

  /** The code a host sees in the first argument of a fail event. */
  function RawValue(e: GameCenterError): (code: int)
    ensures 1 <= code <= 6
  {
    match e
    case UnknownError => 1
    case NotAuthenticated => 2
    case NotAvailable => 3
    case FailedToAuthenticate => 4
    case FailedToLoadPicture => 5
    case MissingIdentifier => 6
  }

  /** Swift's synthesised `init?(rawValue:)`: the case with that code, if any. */
  function FromRawValue(code: int): (e: Option<GameCenterError>)
    ensures e.Some? <==> 1 <= code <= 6
    ensures e.Some? ==> RawValue(e.value) == code
  {
    if code == 1 then Some(UnknownError)
    else if code == 2 then Some(NotAuthenticated)
    else if code == 3 then Some(NotAvailable)
    else if code == 4 then Some(FailedToAuthenticate)
    else if code == 5 then Some(FailedToLoadPicture)
    else if code == 6 then Some(MissingIdentifier)
    else None
  }

  /** Every case survives the trip through its code. */
  lemma RawValueRoundTrip(e: GameCenterError)
    ensures FromRawValue(RawValue(e)) == Some(e)
  {
  }

  /** Distinct cases have distinct codes, so a code identifies its case. */
  lemma RawValueInjective(a: GameCenterError, b: GameCenterError)
    ensures RawValue(a) == RawValue(b) <==> a == b
  {
    RawValueRoundTrip(a);
    RawValueRoundTrip(b);
  }

  /** The three codes the leaderboard bridge emits itself. */
  lemma BridgeCodes()
    ensures RawValue(UnknownError) == 1
    ensures RawValue(NotAuthenticated) == 2
    ensures RawValue(NotAvailable) == 3
  {
  }
}
