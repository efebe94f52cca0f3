/**
  The GameCenter object the host talks to. It keeps the log of signals it
  has emitted and of the platform calls it has issued; each leaderboard
  request appends to both exactly what its Response in Leaderboards says.
  Completion handlers run as straight-line continuations of the request,
  fed with the results the platform would hand them.
 */
module GameCenterPlugin {
  import opened Wrappers
  import opened Platform
  import opened Errors
  import opened Scopes
  import opened LeaderboardIds
  import opened LeaderboardEntry
  import opened Signals
  import opened Leaderboards

  /** Holder of the static slot `GameCenter.shared`. */
  class GameCenterStatics {
    var shared: GameCenter?

    constructor ()
      ensures shared == null
    {
      shared := null;
    }
  }

  class GameCenter {
    /** Every signal emitted so far, oldest first. */
    var events: seq<Event>
    /** Every platform call issued so far, oldest first. */
    var calls: seq<PlatformCall>
    /** The signed-in local player; only authentication, which is not modelled here, sets it. */
    var player: Option<PlatformPlayer>

    /** The logs have grown by exactly what the response says, starting from the given logs. */
    predicate Answered(oldCalls: seq<PlatformCall>, oldEvents: seq<Event>, r: Response)
      reads this
    {
      calls == oldCalls + r.calls && events == oldEvents + r.events
    }

    /** `init()`: a fresh bridge with empty logs, registered as the shared instance. */
    constructor (statics: GameCenterStatics)
      modifies statics
      ensures statics.shared == this
      ensures events == [] && calls == [] && player == None
    {
      events, calls, player := [], [], None;
      new;
      statics.shared := this;
    }

    /** `init(nativeHandle:)`: the same, for an object created by the host. */
    constructor WithNativeHandle(nativeHandle: nat, statics: GameCenterStatics)
      modifies statics
      ensures statics.shared == this
      ensures events == [] && calls == [] && player == None
    {
      events, calls, player := [], [], None;
      new;
      statics.shared := this;
    }

    /** Emits one signal. */
    method Emit(e: Event)
      modifies this
      ensures events == old(events) + [e]
      ensures calls == old(calls) && player == old(player)
    {
      events := events + [e];
    }

    /** Issues one platform call. */
    method Issue(c: PlatformCall)
      modifies this
      ensures calls == old(calls) + [c]
      ensures events == old(events) && player == old(player)
    {
      calls := calls + [c];
    }

    // ---------------------------------------------------------------- requests

    /** Submits a score to a batch of leaderboards; `submitError` is what the completion handler receives. */
    method SubmitScoreInternal(
      score: int, context: int, player: PlatformPlayer, leaderboardIDs: seq<string>,
      local: LocalPlayer, submitError: Option<PlatformError>)
      modifies this
      ensures Answered(old(calls), old(events),
                       SubmitScoreResponse(local.isAuthenticated, score, context, player, leaderboardIDs, submitError))
      ensures |events| == |old(events)| + 1
      ensures this.player == old(this.player)
    {
      if !local.isAuthenticated {
        Emit(LeaderboardScoreFail(RawValue(NotAuthenticated), NotAuthenticatedMessage, Joined(leaderboardIDs)));
        return;
      }
      Issue(SubmitScoreCall(score, context, player, leaderboardIDs));
      if submitError.Some? {
        Emit(LeaderboardScoreFail(submitError.value.code, SubmitErrorMessage, Joined(leaderboardIDs)));
        return;
      }
      Emit(LeaderboardScoreSuccess(Joined(leaderboardIDs)));
    }

    /** Presents all leaderboards and maps the closing status; without UIKit it does nothing. */
    method ShowLeaderboardsInternal(canImportUIKit: bool, states: UIStates, status: int)
      modifies this
      ensures Answered(old(calls), old(events), ShowLeaderboardsResponse(canImportUIKit, states, status))
      ensures this.player == old(this.player)
    {
      if canImportUIKit {
        Issue(PresentLeaderboardsCall);
        Emit(StatusEvent(states, status));
      }
    }

    /** Presents one leaderboard and maps the closing status; without UIKit it reports "not available". */
    method ShowLeaderboardInternal(leaderboardID: string, canImportUIKit: bool, states: UIStates, status: int)
      modifies this
      ensures Answered(old(calls), old(events), ShowLeaderboardResponse(leaderboardID, canImportUIKit, states, status))
      ensures |events| == |old(events)| + 1
      ensures this.player == old(this.player)
    {
      if canImportUIKit {
        Issue(PresentLeaderboardCall(leaderboardID, Global, AllTime));
        Emit(StatusEvent(states, status));
      } else {
        Emit(LeaderboardFail(RawValue(NotAvailable), NotAvailableMessage));
      }
    }

    /**
      Loads a window of leaderboard entries. `lookup` is what the
      leaderboard lookup hands back, `page` what paging the entries hands back.
     */
    method LoadLeaderboardEntriesInternal(
      leaderboardID: string, playerScope: string, timeScope: string, rankMin: int, rankMax: int,
      local: LocalPlayer, lookup: LoadLeaderboardsResult, page: LoadEntriesResult)
      modifies this
      ensures Answered(old(calls), old(events),
                       EntriesResponse(local.isAuthenticated, leaderboardID, playerScope, timeScope, rankMin, rankMax, lookup, page))
      ensures |events| == |old(events)| + 1
      ensures this.player == old(this.player)
    {
      if !local.isAuthenticated {
        Emit(LeaderboardEntriesLoadFail(RawValue(NotAuthenticated), NotAuthenticatedMessage, leaderboardID));
        return;
      }
      var gkPlayerScope := TranslatePlayerScope(playerScope);
      var gkTimeScope := TranslateTimeScope(timeScope);

      Issue(LoadLeaderboardsCall([leaderboardID]));
      var resolved := Resolved(lookup);
      if resolved.None? {
        var failure := ResolutionFailure(lookup);
        Emit(LeaderboardEntriesLoadFail(failure.code, failure.message, leaderboardID));
        return;
      }
      var leaderboard := resolved.value;

      var range := RankRange(rankMin, rankMax);
      Issue(LoadEntriesCall(leaderboard, gkPlayerScope, gkTimeScope, range));
      if page.error.Some? {
        Emit(LeaderboardEntriesLoadFail(page.error.value.code, EntriesErrorMessage, leaderboardID));
        return;
      }
      var leaderboardEntries := CollectEntries(page.entries);
      Emit(LeaderboardEntriesLoadSuccess(leaderboardEntries, page.totalPlayerCount, leaderboardID));
    }

    /** Loads the local player's entry of a leaderboard, with the same two phases. */
    method LoadPlayerScoreInternal(
      leaderboardID: string, timeScope: string,
      local: LocalPlayer, lookup: LoadLeaderboardsResult, page: LoadEntriesResult)
      modifies this
      ensures Answered(old(calls), old(events), PlayerScoreResponse(local.isAuthenticated, leaderboardID, timeScope, lookup, page))
      ensures |events| == |old(events)| + 1
      ensures this.player == old(this.player)
    {
      if !local.isAuthenticated {
        Emit(LeaderboardPlayerScoreLoadFail(RawValue(NotAuthenticated), NotAuthenticatedMessage, leaderboardID));
        return;
      }
      var gkTimeScope := TranslateTimeScope(timeScope);

      Issue(LoadLeaderboardsCall([leaderboardID]));
      var resolved := Resolved(lookup);
      if resolved.None? {
        var failure := ResolutionFailure(lookup);
        Emit(LeaderboardPlayerScoreLoadFail(failure.code, failure.message, leaderboardID));
        return;
      }
      var leaderboard := resolved.value;

      Issue(LoadEntriesCall(leaderboard, Global, gkTimeScope, NSRange(1, 1)));
      if page.error.Some? {
        Emit(LeaderboardPlayerScoreLoadFail(page.error.value.code, PlayerScoreErrorMessage, leaderboardID));
        return;
      }
      if page.localPlayerEntry.None? {
        Emit(LeaderboardPlayerScoreLoadFail(RawValue(UnknownError), NoScoreMessage, leaderboardID));
        return;
      }
      var playerEntry := new GameCenterLeaderboardEntry.FromEntry(page.localPlayerEntry.value);
      Emit(LeaderboardPlayerScoreLoadSuccess(playerEntry.Snapshot(), leaderboardID));
    }

    // ---------------------------------------------------------------- host-callable forwarders

    /** `submitScore`: submits on behalf of the local player, arguments passed on unchanged. */
    method SubmitScore(
      score: int, leaderboardIDs: seq<string>, context: int,
      local: LocalPlayer, submitError: Option<PlatformError>)
      modifies this
      ensures Answered(old(calls), old(events),
                       SubmitScoreResponse(local.isAuthenticated, score, context, local.player, leaderboardIDs, submitError))
      ensures |events| == |old(events)| + 1
      ensures this.player == old(this.player)
    {
      SubmitScoreInternal(score, context, local.player, leaderboardIDs, local, submitError);
    }

    /** `showLeaderboards`. */
    method ShowLeaderboards(canImportUIKit: bool, states: UIStates, status: int)
      modifies this
      ensures Answered(old(calls), old(events), ShowLeaderboardsResponse(canImportUIKit, states, status))
      ensures this.player == old(this.player)
    {
      ShowLeaderboardsInternal(canImportUIKit, states, status);
    }

    /** `showLeaderboard(leaderboardID:)`. */
    method ShowLeaderboard(leaderboardID: string, canImportUIKit: bool, states: UIStates, status: int)
      modifies this
      ensures Answered(old(calls), old(events), ShowLeaderboardResponse(leaderboardID, canImportUIKit, states, status))
      ensures |events| == |old(events)| + 1
      ensures this.player == old(this.player)
    {
      ShowLeaderboardInternal(leaderboardID, canImportUIKit, states, status);
    }

    /** `loadLeaderboardEntries`: all five arguments passed on unchanged and in place. */
    method LoadLeaderboardEntries(
      leaderboardID: string, playerScope: string, timeScope: string, rankMin: int, rankMax: int,
      local: LocalPlayer, lookup: LoadLeaderboardsResult, page: LoadEntriesResult)
      modifies this
      ensures Answered(old(calls), old(events),
                       EntriesResponse(local.isAuthenticated, leaderboardID, playerScope, timeScope, rankMin, rankMax, lookup, page))
      ensures |events| == |old(events)| + 1
      ensures this.player == old(this.player)
    {
      LoadLeaderboardEntriesInternal(leaderboardID, playerScope, timeScope, rankMin, rankMax, local, lookup, page);
    }

    /** `loadPlayerScore`: both arguments passed on unchanged. */
    method LoadPlayerScore(
      leaderboardID: string, timeScope: string,
      local: LocalPlayer, lookup: LoadLeaderboardsResult, page: LoadEntriesResult)
      modifies this
      ensures Answered(old(calls), old(events), PlayerScoreResponse(local.isAuthenticated, leaderboardID, timeScope, lookup, page))
      ensures |events| == |old(events)| + 1
      ensures this.player == old(this.player)
    {
      LoadPlayerScoreInternal(leaderboardID, timeScope, local, lookup, page);
    }
  }
}
