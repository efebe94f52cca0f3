/**
  The GameKit values the bridge receives or issues. The SDK itself is not
  modelled: what a completion handler receives becomes a plain input value,
  and every request the bridge makes is recorded as a PlatformCall.
 */
module Platform {
  import opened Wrappers

  /** A GKPlayer handle; its contents stay opaque to the bridge. */
  datatype PlatformPlayer = PlatformPlayer(handle: nat)

  /** GKLocalPlayer.local: the local player and whether it is signed in. */
  datatype LocalPlayer = LocalPlayer(player: PlatformPlayer, isAuthenticated: bool)

  /** An NSError as a completion handler sees it: its code and localizedDescription. */
  datatype PlatformError = PlatformError(code: int, description: string)

  /** A GKLeaderboard.Entry; `date` is the time the score was earned. */
  datatype PlatformEntry = PlatformEntry(player: PlatformPlayer, score: int, rank: int, context: int, date: int)

  /** A resolved GKLeaderboard handle. */
  datatype Leaderboard = Leaderboard(handle: nat)

  /** GKLeaderboard.PlayerScope. */
  datatype PlayerScope = Global | FriendsOnly

  /** GKLeaderboard.TimeScope. */
  datatype TimeScope = Today | Week | AllTime

  /** NSRange as passed to loadEntries: a 1-based first rank and a count. */
  datatype NSRange = NSRange(location: int, length: int)

  /** What GKLeaderboard.loadLeaderboards(IDs:) hands to its completion handler. */
  datatype LoadLeaderboardsResult = LoadLeaderboardsResult(leaderboards: Option<seq<Leaderboard>>, error: Option<PlatformError>)

  /** What GKLeaderboard.loadEntries(for:timeScope:range:) hands to its completion handler. */
  datatype LoadEntriesResult = LoadEntriesResult(
    localPlayerEntry: Option<PlatformEntry>,
    entries: Option<seq<PlatformEntry>>,
    totalPlayerCount: int,
    error: Option<PlatformError>)

  /** A request the bridge hands to GameKit or to the presentation layer. */
  datatype PlatformCall =
    | SubmitScoreCall(score: int, context: int, player: PlatformPlayer, leaderboardIDs: seq<string>)
    | LoadLeaderboardsCall(ids: seq<string>)
    | LoadEntriesCall(leaderboard: Leaderboard, playerScope: PlayerScope, timeScope: TimeScope, range: NSRange)
    | PresentLeaderboardsCall
    | PresentLeaderboardCall(leaderboardID: string, playerScope: PlayerScope, timeScope: TimeScope)
}
