/**
  What each leaderboard request of the bridge does, as a function of its
  arguments and of the results the platform hands to its completion
  handlers: the platform calls issued, in order, and the signals emitted.
  The GameCenter class is proved to behave exactly as these functions say;
  the lemmas here state what the bridge promises about them.
 */
module Leaderboards {
  import opened Wrappers
  import opened Platform
  import opened Errors
  import opened Scopes
  import opened LeaderboardIds
  import opened LeaderboardEntry
  import opened Signals

  /** The raw values of GameCenterUIState.success and GameCenterUIState.dismissed. */
  datatype UIStates = UIStates(success: int, dismissed: int)

  /** The effect of one request: the calls it issues and the signals it emits, in order. */
  datatype Response = Response(calls: seq<PlatformCall>, events: seq<Event>)

  /** An error code with its message. */
  datatype Failure = Failure(code: int, message: string)

  const NotAuthenticatedMessage := "Player is not authenticated"
  const SubmitErrorMessage := "Error while submitting score"
  const UnknownStatusMessage := "Unknown error"
  const NotAvailableMessage := "Leaderboard not available"
  const LeaderboardNotFoundMessage := "Failed to load leaderboard"
  const EntriesErrorMessage := "Error loading leaderboard entries"
  const PlayerScoreErrorMessage := "Error loading player score"
  const NoScoreMessage := "No score found for player"

  // ---------------------------------------------------------------- submit score

  /** Submitting one score to a batch of leaderboards. */
  function SubmitScoreResponse(
    authenticated: bool, score: int, context: int, player: PlatformPlayer,
    leaderboardIDs: seq<string>, submitError: Option<PlatformError>): (r: Response)
    ensures |r.events| == 1
    ensures r.events[0].LeaderboardScoreSuccess? || r.events[0].LeaderboardScoreFail?
    ensures r.events[0].Correlation() == Some(Joined(leaderboardIDs))
    ensures |r.calls| <= 1
  {
    var joined := Joined(leaderboardIDs);
    if !authenticated then
      Response([], [LeaderboardScoreFail(RawValue(NotAuthenticated), NotAuthenticatedMessage, joined)])
    else
      var call := SubmitScoreCall(score, context, player, leaderboardIDs);
      if submitError.Some? then
        Response([call], [LeaderboardScoreFail(submitError.value.code, SubmitErrorMessage, joined)])
      else
        Response([call], [LeaderboardScoreSuccess(joined)])
  }

  /** Unauthenticated: one fail with code 2 and no platform call. */
  lemma SubmitScoreUnauthenticated(
    score: int, context: int, player: PlatformPlayer, leaderboardIDs: seq<string>, submitError: Option<PlatformError>)
    ensures var r := SubmitScoreResponse(false, score, context, player, leaderboardIDs, submitError);
      r.calls == [] && r.events == [LeaderboardScoreFail(2, "Player is not authenticated", Joined(leaderboardIDs))]
  {
  }

  /**
    Authenticated: the score, context, player and IDs go to the platform
    unchanged; its error code comes back in a fail, its silence as a success.
   */
  lemma SubmitScoreOutcome(
    score: int, context: int, player: PlatformPlayer, leaderboardIDs: seq<string>, submitError: Option<PlatformError>)
    ensures var r := SubmitScoreResponse(true, score, context, player, leaderboardIDs, submitError);
      && r.calls == [SubmitScoreCall(score, context, player, leaderboardIDs)]
      && (submitError.Some? ==>
            r.events == [LeaderboardScoreFail(submitError.value.code, "Error while submitting score", Joined(leaderboardIDs))])
      && (submitError.None? ==> r.events == [LeaderboardScoreSuccess(Joined(leaderboardIDs))])
  {
  }

  /** The batch succeeds exactly when the player is signed in and the platform reports no error. */
  lemma SubmitScoreSucceedsIff(
    authenticated: bool, score: int, context: int, player: PlatformPlayer,
    leaderboardIDs: seq<string>, submitError: Option<PlatformError>)
    ensures SubmitScoreResponse(authenticated, score, context, player, leaderboardIDs, submitError).events[0].LeaderboardScoreSuccess?
        <==> authenticated && submitError.None?
  {
  }

  /** The IDs a score event carries are the submitted ones, all of them, in the submitted order. */
  lemma SubmitScoreKeepsOrder(
    authenticated: bool, score: int, context: int, player: PlatformPlayer,
    leaderboardIDs: seq<string>, submitError: Option<PlatformError>)
    requires |leaderboardIDs| > 0 && CommaFree(leaderboardIDs)
    ensures var e := SubmitScoreResponse(authenticated, score, context, player, leaderboardIDs, submitError).events[0];
      Split(e.leaderboardIDs) == leaderboardIDs
  {
    SplitJoined(leaderboardIDs);
  }

  // ---------------------------------------------------------------- leaderboard UI

  /** The signal for the status the leaderboard view controller reports when it closes. */
  function StatusEvent(states: UIStates, status: int): (e: Event)
    ensures e == LeaderboardSuccess <==> status == states.success
    ensures e == LeaderboardDismissed <==> status != states.success && status == states.dismissed
    ensures e.LeaderboardFail? <==> status != states.success && status != states.dismissed
    ensures e.LeaderboardFail? ==> e.code == RawValue(UnknownError) && e.message == UnknownStatusMessage
  {
    if status == states.success then LeaderboardSuccess
    else if status == states.dismissed then LeaderboardDismissed
    else LeaderboardFail(RawValue(UnknownError), UnknownStatusMessage)
  }

  /** Dismissal is its own signal, never a failure, and an unknown status never reports "not available". */
  lemma StatusEventKinds(states: UIStates, status: int)
    ensures StatusEvent(states, status).IsFailure() <==> status != states.success && status != states.dismissed
    ensures StatusEvent(states, status) != LeaderboardFail(3, "Leaderboard not available")
  {
  }

  /** Showing all leaderboards; without UIKit nothing is presented and nothing is emitted. */
  function ShowLeaderboardsResponse(canImportUIKit: bool, states: UIStates, status: int): (r: Response)
    ensures |r.events| <= 1 && |r.calls| <= 1
    ensures forall e :: e in r.events ==> !e.LeaderboardFail? || e.code == 1
  {
    if canImportUIKit then Response([PresentLeaderboardsCall], [StatusEvent(states, status)])
    else Response([], [])
  }

  /** With UIKit the view is presented and its status mapped; without it the request is silent. */
  lemma ShowLeaderboardsOutcome(canImportUIKit: bool, states: UIStates, status: int)
    ensures canImportUIKit ==>
      ShowLeaderboardsResponse(canImportUIKit, states, status) == Response([PresentLeaderboardsCall], [StatusEvent(states, status)])
    ensures !canImportUIKit ==> ShowLeaderboardsResponse(canImportUIKit, states, status) == Response([], [])
  {
  }

  /** Showing one leaderboard, at global scope over all time. */
  function ShowLeaderboardResponse(leaderboardID: string, canImportUIKit: bool, states: UIStates, status: int): (r: Response)
    ensures |r.events| == 1 && |r.calls| <= 1
    ensures r.events[0].LeaderboardSuccess? || r.events[0].LeaderboardDismissed? || r.events[0].LeaderboardFail?
  {
    if canImportUIKit then
      Response([PresentLeaderboardCall(leaderboardID, Global, AllTime)], [StatusEvent(states, status)])
    else
      Response([], [LeaderboardFail(RawValue(NotAvailable), NotAvailableMessage)])
  }

  /** With UIKit the named leaderboard is presented; without it one fail with code 3 is emitted. */
  lemma ShowLeaderboardOutcome(leaderboardID: string, canImportUIKit: bool, states: UIStates, status: int)
    ensures canImportUIKit ==>
      ShowLeaderboardResponse(leaderboardID, canImportUIKit, states, status)
        == Response([PresentLeaderboardCall(leaderboardID, Global, AllTime)], [StatusEvent(states, status)])
    ensures !canImportUIKit ==>
      ShowLeaderboardResponse(leaderboardID, canImportUIKit, states, status)
        == Response([], [LeaderboardFail(3, "Leaderboard not available")])
  {
  }

  // ---------------------------------------------------------------- handle resolution

  /** The first leaderboard of an error-free lookup, if there is one. */
  function Resolved(lookup: LoadLeaderboardsResult): (resolved: Option<Leaderboard>)
    ensures resolved.Some? <==> lookup.error.None? && lookup.leaderboards.Some? && lookup.leaderboards.value != []
    ensures resolved.Some? ==> resolved.value == lookup.leaderboards.value[0]
  {
    if lookup.error.None? && lookup.leaderboards.Some? && |lookup.leaderboards.value| > 0
    then Some(lookup.leaderboards.value[0])
    else None
  }

  /** The code and message reported when the lookup yields no leaderboard. */
  function ResolutionFailure(lookup: LoadLeaderboardsResult): (f: Failure)
    ensures lookup.error.Some? ==> f == Failure(lookup.error.value.code, lookup.error.value.description)
    ensures lookup.error.None? ==> f == Failure(1, "Failed to load leaderboard")
  {
    match lookup.error
    case Some(error) => Failure(error.code, error.description)
    case None => Failure(RawValue(UnknownError), LeaderboardNotFoundMessage)
  }

  /** The entries of a page; a missing list reads as an empty one. */
  function PageEntries(page: LoadEntriesResult): (entries: seq<PlatformEntry>)
    ensures page.entries.Some? ==> entries == page.entries.value
    ensures page.entries.None? ==> entries == []
  {
    if page.entries.Some? then page.entries.value else []
  }

  // ---------------------------------------------------------------- load leaderboard entries

  /** Loading a window of entries: authenticate, resolve the handle, then page its entries. */
  function EntriesResponse(
    authenticated: bool, leaderboardID: string, playerScope: string, timeScope: string,
    rankMin: int, rankMax: int, lookup: LoadLeaderboardsResult, page: LoadEntriesResult): (r: Response)
    ensures |r.events| == 1
    ensures r.events[0].LeaderboardEntriesLoadSuccess? || r.events[0].LeaderboardEntriesLoadFail?
    ensures r.events[0].Correlation() == Some(leaderboardID)
    ensures |r.calls| <= 2
    ensures |r.calls| > 0 ==> r.calls[0] == LoadLeaderboardsCall([leaderboardID])
    ensures r.events[0].LeaderboardEntriesLoadSuccess? ==> |r.calls| == 2
  {
    if !authenticated then
      Response([], [LeaderboardEntriesLoadFail(RawValue(NotAuthenticated), NotAuthenticatedMessage, leaderboardID)])
    else
      var lookupCall := LoadLeaderboardsCall([leaderboardID]);
      match Resolved(lookup)
      case None =>
        var f := ResolutionFailure(lookup);
        Response([lookupCall], [LeaderboardEntriesLoadFail(f.code, f.message, leaderboardID)])
      case Some(leaderboard) =>
        var pageCall := LoadEntriesCall(
          leaderboard, TranslatePlayerScope(playerScope), TranslateTimeScope(timeScope), RankRange(rankMin, rankMax));
        if page.error.Some? then
          Response([lookupCall, pageCall], [LeaderboardEntriesLoadFail(page.error.value.code, EntriesErrorMessage, leaderboardID)])
        else
          Response([lookupCall, pageCall],
                   [LeaderboardEntriesLoadSuccess(MarshalAll(PageEntries(page)), page.totalPlayerCount, leaderboardID)])
  }

  /** Unauthenticated: one fail with code 2 and no platform call. */
  lemma EntriesUnauthenticated(
    leaderboardID: string, playerScope: string, timeScope: string,
    rankMin: int, rankMax: int, lookup: LoadLeaderboardsResult, page: LoadEntriesResult)
    ensures var r := EntriesResponse(false, leaderboardID, playerScope, timeScope, rankMin, rankMax, lookup, page);
      r.calls == [] && r.events == [LeaderboardEntriesLoadFail(2, "Player is not authenticated", leaderboardID)]
  {
  }

  /**
    A failed lookup (an error, or no leaderboard at all) ends the request
    with one fail and the entries are never paged. The fail carries the
    platform's code and description when there is an error, and otherwise
    code 1 and "Failed to load leaderboard".
   */
  lemma EntriesResolutionFailure(
    leaderboardID: string, playerScope: string, timeScope: string,
    rankMin: int, rankMax: int, lookup: LoadLeaderboardsResult, page: LoadEntriesResult)
    requires lookup.error.Some? || lookup.leaderboards.None? || lookup.leaderboards == Some([])
    ensures var r := EntriesResponse(true, leaderboardID, playerScope, timeScope, rankMin, rankMax, lookup, page);
      && r.calls == [LoadLeaderboardsCall([leaderboardID])]
      && r.events == [LeaderboardEntriesLoadFail(
           if lookup.error.Some? then lookup.error.value.code else 1,
           if lookup.error.Some? then lookup.error.value.description else "Failed to load leaderboard",
           leaderboardID)]
  {
  }

  /** The entries are paged from the first resolved leaderboard with the translated scopes and window. */
  lemma EntriesQuery(
    leaderboardID: string, playerScope: string, timeScope: string,
    rankMin: int, rankMax: int, lookup: LoadLeaderboardsResult, page: LoadEntriesResult)
    requires lookup.error.None? && lookup.leaderboards.Some? && |lookup.leaderboards.value| > 0
    ensures EntriesResponse(true, leaderboardID, playerScope, timeScope, rankMin, rankMax, lookup, page).calls
      == [LoadLeaderboardsCall([leaderboardID]),
          LoadEntriesCall(lookup.leaderboards.value[0], TranslatePlayerScope(playerScope),
                          TranslateTimeScope(timeScope), NSRange(rankMin, rankMax - rankMin + 1))]
  {
  }

  /** A paging error becomes one fail carrying the platform's code. */
  lemma EntriesPagingFailure(
    leaderboardID: string, playerScope: string, timeScope: string,
    rankMin: int, rankMax: int, lookup: LoadLeaderboardsResult, page: LoadEntriesResult)
    requires Resolved(lookup).Some? && page.error.Some?
    ensures EntriesResponse(true, leaderboardID, playerScope, timeScope, rankMin, rankMax, lookup, page).events
      == [LeaderboardEntriesLoadFail(page.error.value.code, "Error loading leaderboard entries", leaderboardID)]
  {
  }

  /**
    The request succeeds exactly when every phase does, and then it reports
    one record per paged entry, in the platform's order, and the platform's
    total player count.
   */
  lemma EntriesSuccess(
    authenticated: bool, leaderboardID: string, playerScope: string, timeScope: string,
    rankMin: int, rankMax: int, lookup: LoadLeaderboardsResult, page: LoadEntriesResult)
    ensures var e := EntriesResponse(authenticated, leaderboardID, playerScope, timeScope, rankMin, rankMax, lookup, page).events[0];
      && (e.LeaderboardEntriesLoadSuccess? <==> authenticated && Resolved(lookup).Some? && page.error.None?)
      && (e.LeaderboardEntriesLoadSuccess? ==>
            && |e.entries| == |PageEntries(page)|
            && (forall i :: 0 <= i < |e.entries| ==> e.entries[i] == Marshal(PageEntries(page)[i]))
            && e.totalPlayerCount == page.totalPlayerCount)
  {
  }

  /** A missing or empty page is still a success, with an empty collection. */
  lemma EntriesEmptyPageSucceeds(
    leaderboardID: string, playerScope: string, timeScope: string,
    rankMin: int, rankMax: int, lookup: LoadLeaderboardsResult, page: LoadEntriesResult)
    requires Resolved(lookup).Some? && page.error.None?
    requires page.entries == None || page.entries == Some([])
    ensures EntriesResponse(true, leaderboardID, playerScope, timeScope, rankMin, rankMax, lookup, page).events
      == [LeaderboardEntriesLoadSuccess([], page.totalPlayerCount, leaderboardID)]
  {
  }

  /**
    A failure reveals its phase: the number of platform calls made tells
    which phase failed, and each phase reports its own code or message.
   */
  lemma EntriesFailurePhases(
    authenticated: bool, leaderboardID: string, playerScope: string, timeScope: string,
    rankMin: int, rankMax: int, lookup: LoadLeaderboardsResult, page: LoadEntriesResult)
    ensures var r := EntriesResponse(authenticated, leaderboardID, playerScope, timeScope, rankMin, rankMax, lookup, page);
      var e := r.events[0];
      e.LeaderboardEntriesLoadFail? ==>
        && (|r.calls| == 0 <==> !authenticated)
        && (|r.calls| == 0 ==> e.code == 2 && e.message == "Player is not authenticated")
        && (|r.calls| == 1 ==> Failure(e.code, e.message) == ResolutionFailure(lookup))
        && (|r.calls| == 2 ==> e.message == "Error loading leaderboard entries" && page.error.Some?)
  {
  }

  // ---------------------------------------------------------------- load player score

  /** Loading the local player's entry: authenticate, resolve the handle, then page a single entry. */
  function PlayerScoreResponse(
    authenticated: bool, leaderboardID: string, timeScope: string,
    lookup: LoadLeaderboardsResult, page: LoadEntriesResult): (r: Response)
    ensures |r.events| == 1
    ensures r.events[0].LeaderboardPlayerScoreLoadSuccess? || r.events[0].LeaderboardPlayerScoreLoadFail?
    ensures r.events[0].Correlation() == Some(leaderboardID)
    ensures |r.calls| <= 2
    ensures |r.calls| > 0 ==> r.calls[0] == LoadLeaderboardsCall([leaderboardID])
    ensures r.events[0].LeaderboardPlayerScoreLoadSuccess? ==> |r.calls| == 2 && page.localPlayerEntry.Some?
  {
    if !authenticated then
      Response([], [LeaderboardPlayerScoreLoadFail(RawValue(NotAuthenticated), NotAuthenticatedMessage, leaderboardID)])
    else
      var lookupCall := LoadLeaderboardsCall([leaderboardID]);
      match Resolved(lookup)
      case None =>
        var f := ResolutionFailure(lookup);
        Response([lookupCall], [LeaderboardPlayerScoreLoadFail(f.code, f.message, leaderboardID)])
      case Some(leaderboard) =>
        var pageCall := LoadEntriesCall(leaderboard, Global, TranslateTimeScope(timeScope), NSRange(1, 1));
        if page.error.Some? then
          Response([lookupCall, pageCall],
                   [LeaderboardPlayerScoreLoadFail(page.error.value.code, PlayerScoreErrorMessage, leaderboardID)])
        else if page.localPlayerEntry.None? then
          Response([lookupCall, pageCall],
                   [LeaderboardPlayerScoreLoadFail(RawValue(UnknownError), NoScoreMessage, leaderboardID)])
        else
          Response([lookupCall, pageCall],
                   [LeaderboardPlayerScoreLoadSuccess(Marshal(page.localPlayerEntry.value), leaderboardID)])
  }

  /** Unauthenticated: one fail with code 2 and no platform call. */
  lemma PlayerScoreUnauthenticated(
    leaderboardID: string, timeScope: string, lookup: LoadLeaderboardsResult, page: LoadEntriesResult)
    ensures var r := PlayerScoreResponse(false, leaderboardID, timeScope, lookup, page);
      r.calls == [] && r.events == [LeaderboardPlayerScoreLoadFail(2, "Player is not authenticated", leaderboardID)]
  {
  }

  /** A failed lookup ends the request with one fail, coded as for entries; no entry is requested. */
  lemma PlayerScoreResolutionFailure(
    leaderboardID: string, timeScope: string, lookup: LoadLeaderboardsResult, page: LoadEntriesResult)
    requires lookup.error.Some? || lookup.leaderboards.None? || lookup.leaderboards == Some([])
    ensures var r := PlayerScoreResponse(true, leaderboardID, timeScope, lookup, page);
      && r.calls == [LoadLeaderboardsCall([leaderboardID])]
      && r.events == [LeaderboardPlayerScoreLoadFail(
           if lookup.error.Some? then lookup.error.value.code else 1,
           if lookup.error.Some? then lookup.error.value.description else "Failed to load leaderboard",
           leaderboardID)]
  {
  }

  /** The local player's entry is requested at global scope with the one-rank window (1, 1). */
  lemma PlayerScoreQuery(
    leaderboardID: string, timeScope: string, lookup: LoadLeaderboardsResult, page: LoadEntriesResult)
    requires Resolved(lookup).Some?
    ensures PlayerScoreResponse(true, leaderboardID, timeScope, lookup, page).calls
      == [LoadLeaderboardsCall([leaderboardID]),
          LoadEntriesCall(lookup.leaderboards.value[0], Global, TranslateTimeScope(timeScope), NSRange(1, 1))]
  {
  }

  /**
    After a successful lookup: a paging error is one fail with the platform's
    code; a page without a local-player entry is one fail with code 1, never a
    success; otherwise the success carries that entry, marshaled.
   */
  lemma PlayerScoreOutcome(
    leaderboardID: string, timeScope: string, lookup: LoadLeaderboardsResult, page: LoadEntriesResult)
    requires Resolved(lookup).Some?
    ensures var events := PlayerScoreResponse(true, leaderboardID, timeScope, lookup, page).events;
      && (page.error.Some? ==>
            events == [LeaderboardPlayerScoreLoadFail(page.error.value.code, "Error loading player score", leaderboardID)])
      && (page.error.None? && page.localPlayerEntry.None? ==>
            events == [LeaderboardPlayerScoreLoadFail(1, "No score found for player", leaderboardID)])
      && (page.error.None? && page.localPlayerEntry.Some? ==>
            events == [LeaderboardPlayerScoreLoadSuccess(Marshal(page.localPlayerEntry.value), leaderboardID)])
  {
  }

  /** The request succeeds exactly when every phase succeeds and the page holds the local player's entry. */
  lemma PlayerScoreSucceedsIff(
    authenticated: bool, leaderboardID: string, timeScope: string, lookup: LoadLeaderboardsResult, page: LoadEntriesResult)
    ensures PlayerScoreResponse(authenticated, leaderboardID, timeScope, lookup, page).events[0].LeaderboardPlayerScoreLoadSuccess?
      <==> authenticated && Resolved(lookup).Some? && page.error.None? && page.localPlayerEntry.Some?
  {
  }

  /** Both loaders translate the same time-scope string to the same GameKit scope. */
  lemma LoadersShareTimeScope(
    leaderboardID: string, playerScope: string, timeScope: string, rankMin: int, rankMax: int,
    lookup: LoadLeaderboardsResult, entriesPage: LoadEntriesResult, scorePage: LoadEntriesResult)
    requires Resolved(lookup).Some?
    ensures var a := EntriesResponse(true, leaderboardID, playerScope, timeScope, rankMin, rankMax, lookup, entriesPage).calls;
      var b := PlayerScoreResponse(true, leaderboardID, timeScope, lookup, scorePage).calls;
      |a| == 2 && |b| == 2 && a[1].timeScope == b[1].timeScope == TranslateTimeScope(timeScope)
  {
  }

  // ---------------------------------------------------------------- marshaling loop

  /**
    Builds the entry collection of a successful page: one record object per
    platform entry, appended in order; a missing list gives an empty collection.
   */
  method CollectEntries(entries: Option<seq<PlatformEntry>>) returns (collection: seq<EntryRecord>)
    ensures collection == MarshalAll(if entries.Some? then entries.value else [])
  {
    collection := [];
    if entries.Some? {
      var list := entries.value;
      var i := 0;
      while i < |list|
        invariant 0 <= i <= |list|
        invariant |collection| == i
        invariant forall k :: 0 <= k < i ==> collection[k] == Marshal(list[k])
      {
        var record := new GameCenterLeaderboardEntry.FromEntry(list[i]);
        collection := collection + [record.Snapshot()];
        i := i + 1;
      }
    }
  }
}
