/**
  The leaderboard signals of the GameCenter object. Emitting a signal is
  modelled as appending one of these values to the object's event log.
 */
module Signals {
  import opened Wrappers
  import opened LeaderboardEntry

  datatype Event =
    | LeaderboardSuccess
    | LeaderboardDismissed
    | LeaderboardFail(code: int, message: string)
    | LeaderboardScoreSuccess(leaderboardIDs: string)
    | LeaderboardScoreFail(code: int, message: string, leaderboardIDs: string)
    | LeaderboardEntriesLoadSuccess(entries: seq<EntryRecord>, totalPlayerCount: int, leaderboardID: string)
    | LeaderboardEntriesLoadFail(code: int, message: string, leaderboardID: string)
    | LeaderboardPlayerScoreLoadSuccess(entry: EntryRecord, leaderboardID: string)
    | LeaderboardPlayerScoreLoadFail(code: int, message: string, leaderboardID: string)
  {
    /** A fail signal: its first argument is an error code, its second a message. */
    predicate IsFailure()
    {
      LeaderboardFail? || LeaderboardScoreFail? || LeaderboardEntriesLoadFail? || LeaderboardPlayerScoreLoadFail?
    }

    /** The request-identifying last argument of a score or leaderboard-data signal. */
    function Correlation(): Option<string>
    {
      match this
      case LeaderboardScoreSuccess(ids) => Some(ids)
      case LeaderboardScoreFail(_, _, ids) => Some(ids)
      case LeaderboardEntriesLoadSuccess(_, _, id) => Some(id)
      case LeaderboardEntriesLoadFail(_, _, id) => Some(id)
      case LeaderboardPlayerScoreLoadSuccess(_, id) => Some(id)
      case LeaderboardPlayerScoreLoadFail(_, _, id) => Some(id)
      case _ => None
    }
  }
}
