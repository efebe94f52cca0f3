# GameCenter leaderboard bridge — a Dafny model

This project models the leaderboard half of the GameCenter plugin for Godot. The plugin takes
fire-and-forget requests from the host (submit a score, show the leaderboard UI, load a window
of leaderboard entries, load the local player's score) and turns GameKit's nested,
callback-based calls into signals that the host receives.

The model works as follows:

- **Platform results are inputs.** What a GameKit completion handler would receive is passed
  to the request as a plain value: `LocalPlayer` (with `isAuthenticated`), `LoadLeaderboardsResult`,
  `LoadEntriesResult` and `Option<PlatformError>`. A handler runs as a straight-line continuation
  of its request. The result given for a call that is never issued is ignored.
- **Emission is a state change.** The `GameCenter` class keeps `events: seq<Event>`, and each
  `emit` appends one `Event`. The constructors of `Event` are the leaderboard signals of
  `GameCenter.swift` with their argument lists. Every fail signal of the leaderboard data
  requests takes (code, message, identifier). Every success signal of those requests carries
  the identifier last.
- **Platform calls are logged.** `calls: seq<PlatformCall>` records every request the bridge
  hands to GameKit or to the presentation layer, with its arguments. "No platform call" means
  the log did not grow. "The paging call is never issued" means no `LoadEntriesCall` was
  appended.
- **Each request is specified by a function.** Module `Leaderboards` gives a `Response` for each
  request: the calls it issues and the events it emits. The class's methods are proved to
  append exactly that `Response` to the two logs. The lemmas beside each function state what
  the bridge promises.
- **Entry records.** `GameCenterLeaderboardEntry` is a class with the plugin's four exported
  fields and its two initialisers. The convenience initialiser starts from the defaults and
  then copies the fields one by one. The marshaling loop creates one record object per
  platform entry. The event log stores each record's `Snapshot()`, its field values at
  emission.
- **The singleton.** The static slot `GameCenter.shared` is the field of a `GameCenterStatics`
  object. Both constructors take that object and set the slot to the new instance.

Points worth knowing about the source:

- Not every request ends in a signal. With UIKit unavailable, `showLeaderboardsInternal` emits
  nothing (`GameCenter+Leaderboards.swift:40-55`), unlike `showLeaderboardInternal`, which
  reports "not available". `ShowLeaderboardsResponse` and
  `ShowLeaderboardsOutcome` state this silent path. Only `|events| <= 1` is proved for it.
- The doc comment of `submitScore` names the achievement-report signals
  (`GameCenter.swift:234-236`). The code emits `leaderboardScoreSuccess` and
  `leaderboardScoreFail`, and that is what the model does.
- The rank window is not validated. `RankRange` forwards an inverted window as a range of
  length zero or below (`RankRangeInverted`).

## Model

| member | source | states |
|---|---|---|
| Errors.RawValue | GameCenter/Swift/Sources/GameCenter/GameCenter.swift:27-34 | every error case has a code between 1 and 6 |
| Errors.FromRawValue | GameCenter/Swift/Sources/GameCenter/GameCenter.swift:27 | the raw-value initialiser gives a case exactly for codes 1 to 6, and that case has the given code |
| Errors.RawValueRoundTrip | GameCenter/Swift/Sources/GameCenter/GameCenter.swift:27-34 | each case is recovered from its code |
| Errors.RawValueInjective | GameCenter/Swift/Sources/GameCenter/GameCenter.swift:27-34 | two cases share a code only if they are the same case, so the six codes are distinct |
| Errors.BridgeCodes | GameCenter/Swift/Sources/GameCenter/GameCenter.swift:28-30 | unknownError = 1, notAuthenticated = 2, notAvailable = 3 |
| Scopes.TranslatePlayerScope | GameCenter/Swift/Sources/GameCenter/GameCenter+Leaderboards.swift:98 | friendsOnly exactly for the string "friendsOnly", global for every other string |
| Scopes.TranslateTimeScope | GameCenter/Swift/Sources/GameCenter/GameCenter+Leaderboards.swift:99-107 | today exactly for "today", week exactly for "week", allTime for every other string |
| Scopes.PlayerScopeNameRoundTrip | GameCenter/Swift/Sources/GameCenter/GameCenter.swift:278 | each documented player-scope name ("global", "friendsOnly") selects the scope it names |
| Scopes.TimeScopeNameRoundTrip | GameCenter/Swift/Sources/GameCenter/GameCenter.swift:279 | each documented time-scope name ("allTime", "week", "today") selects the scope it names |
| Scopes.ScopeFallbacks | GameCenter/Swift/Sources/GameCenter/GameCenter+Leaderboards.swift:98-107 | "", "FriendsOnly", "Today" and "WEEK" fall back to global or allTime; the match is case-sensitive |
| Scopes.RankRange | GameCenter/Swift/Sources/GameCenter/GameCenter+Leaderboards.swift:121 | location = rankMin, length = rankMax − rankMin + 1, and a rank is inside the range exactly when rankMin <= rank <= rankMax |
| Scopes.RankRangeSingle | GameCenter/Swift/Sources/GameCenter/GameCenter+Leaderboards.swift:121 | rankMin = rankMax gives length 1 |
| Scopes.RankRangeInverted | GameCenter/Swift/Sources/GameCenter/GameCenter+Leaderboards.swift:121 | an inverted window is not rejected: it becomes a range of non-positive length that covers no rank |
| LeaderboardIds.Joined | GameCenter/Swift/Sources/GameCenter/GameCenter+Leaderboards.swift:21 | the IDs joined with commas: an empty list gives "", the first ID leads, and a comma follows it when more IDs follow |
| LeaderboardIds.SplitJoined | GameCenter/Swift/Sources/GameCenter/GameCenter+Leaderboards.swift:21 | joining with commas keeps every ID in input order: splitting the joined string gives the list back when the list is non-empty and no ID contains a comma |
| LeaderboardIds.JoinedExample | GameCenter/Swift/Sources/GameCenter/GameCenter+Leaderboards.swift:33 | ["a","b","c"] is joined as "a,b,c" |
| LeaderboardIds.JoinedAmbiguous | GameCenter/Swift/Sources/GameCenter/GameCenter+Leaderboards.swift:36 | the joined string cannot tell an ID holding a comma from two IDs, nor [] from [""] |
| LeaderboardEntry.Marshal | GameCenter/Swift/Sources/GameCenter/GameCenterLeaderboardEntry.swift:37-45 | the record of a platform entry: player set, built from entry.player; score, rank and context copied unchanged |
| LeaderboardEntry.MarshalForgetsOnlyDate | GameCenter/Swift/Sources/GameCenter/GameCenterLeaderboardEntry.swift:37-45 | two platform entries give the same record exactly when they agree on everything but the date |
| LeaderboardEntry.MarshalSetsPlayer | GameCenter/Swift/Sources/GameCenter/GameCenterLeaderboardEntry.swift:39 | a marshaled record always has a player, so it never equals the default record |
| LeaderboardEntry.MarshalAll | GameCenter/Swift/Sources/GameCenter/GameCenter+Leaderboards.swift:137-142 | one record per platform entry, the i-th record marshaled from the i-th entry |
| LeaderboardEntry.GameCenterLeaderboardEntry.constructor | GameCenter/Swift/Sources/GameCenter/GameCenterLeaderboardEntry.swift:16-25 | a fresh record has player nil and score, rank and context 0 |
| LeaderboardEntry.GameCenterLeaderboardEntry.FromEntry | GameCenter/Swift/Sources/GameCenter/GameCenterLeaderboardEntry.swift:37-45 | the player is set, built from entry.player; score, rank and context are copied unchanged; nothing else is exported |
| Leaderboards.SubmitScoreResponse | GameCenter/Swift/Sources/GameCenter/GameCenter+Leaderboards.swift:13-38 | exactly one score signal, carrying the comma-joined IDs; at most one platform call |
| Leaderboards.SubmitScoreUnauthenticated | GameCenter/Swift/Sources/GameCenter/GameCenter+Leaderboards.swift:17-23 | unauthenticated: one leaderboardScoreFail(2, "Player is not authenticated", joined IDs) and no platform call |
| Leaderboards.SubmitScoreOutcome | GameCenter/Swift/Sources/GameCenter/GameCenter+Leaderboards.swift:25-37 | authenticated: score, context, player and IDs go to the platform unchanged; an error gives a fail with the platform's code, otherwise a success |
| Leaderboards.SubmitScoreSucceedsIff | GameCenter/Swift/Sources/GameCenter/GameCenter+Leaderboards.swift:28-36 | success exactly when authenticated and the platform reports no error |
| Leaderboards.SubmitScoreKeepsOrder | GameCenter/Swift/Sources/GameCenter/GameCenter+Leaderboards.swift:30-36 | the IDs in the score signal, split at commas, are the submitted IDs in the submitted order |
| Leaderboards.StatusEvent | GameCenter/Swift/Sources/GameCenter/GameCenter+Leaderboards.swift:45-52 | success status gives leaderboardSuccess, dismissed gives leaderboardDismissed, any other status gives leaderboardFail(1, "Unknown error") |
| Leaderboards.StatusEventKinds | GameCenter/Swift/Sources/GameCenter/GameCenter+Leaderboards.swift:66-73 | a status event is a failure exactly for an unknown status; dismissal is not a failure, and "not available" never comes from a status |
| Leaderboards.ShowLeaderboardsResponse | GameCenter/Swift/Sources/GameCenter/GameCenter+Leaderboards.swift:40-55 | at most one signal and one presentation; any fail signal has code 1 |
| Leaderboards.ShowLeaderboardsOutcome | GameCenter/Swift/Sources/GameCenter/GameCenter+Leaderboards.swift:40-55 | with UIKit: present and emit the status event; without UIKit: no call and no signal |
| Leaderboards.ShowLeaderboardResponse | GameCenter/Swift/Sources/GameCenter/GameCenter+Leaderboards.swift:57-80 | exactly one leaderboard UI signal |
| Leaderboards.ShowLeaderboardOutcome | GameCenter/Swift/Sources/GameCenter/GameCenter+Leaderboards.swift:57-80 | with UIKit: the named leaderboard is presented at global scope over all time and its status mapped; without UIKit: leaderboardFail(3, "Leaderboard not available") |
| Leaderboards.Resolved | GameCenter/Swift/Sources/GameCenter/GameCenter+Leaderboards.swift:111 | a leaderboard is resolved exactly when the lookup reports no error and returns a non-empty list, and it is the first of that list |
| Leaderboards.ResolutionFailure | GameCenter/Swift/Sources/GameCenter/GameCenter+Leaderboards.swift:112-117 | the code is the platform's if it reported an error, else 1; the message is the platform's description, else "Failed to load leaderboard" |
| Leaderboards.PageEntries | GameCenter/Swift/Sources/GameCenter/GameCenter+Leaderboards.swift:138 | the paged entry list, and an empty list when the platform returns none |
| Leaderboards.EntriesResponse | GameCenter/Swift/Sources/GameCenter/GameCenter+Leaderboards.swift:82-147 | exactly one entries signal, carrying the leaderboard ID; the first call is always the lookup of that ID; success only after both calls |
| Leaderboards.EntriesUnauthenticated | GameCenter/Swift/Sources/GameCenter/GameCenter+Leaderboards.swift:89-95 | unauthenticated: one fail with code 2 and no platform call |
| Leaderboards.EntriesResolutionFailure | GameCenter/Swift/Sources/GameCenter/GameCenter+Leaderboards.swift:110-118 | an error or a nil or empty leaderboard list: one fail, and the entries are never paged; the code is the platform's if it reported an error, else 1, and the message is the platform's description, else "Failed to load leaderboard" |
| Leaderboards.EntriesQuery | GameCenter/Swift/Sources/GameCenter/GameCenter+Leaderboards.swift:97-125 | the first resolved leaderboard is paged with the translated player and time scopes and the range (rankMin, rankMax − rankMin + 1) |
| Leaderboards.EntriesPagingFailure | GameCenter/Swift/Sources/GameCenter/GameCenter+Leaderboards.swift:126-134 | a paging error: one fail with the platform's code and "Error loading leaderboard entries" |
| Leaderboards.EntriesSuccess | GameCenter/Swift/Sources/GameCenter/GameCenter+Leaderboards.swift:136-144 | success exactly when every phase succeeds; it carries one record per paged entry in the same order and the total player count |
| Leaderboards.EntriesEmptyPageSucceeds | GameCenter/Swift/Sources/GameCenter/GameCenter+Leaderboards.swift:137-144 | a nil or empty entry list is still a success, with an empty collection |
| Leaderboards.EntriesFailurePhases | GameCenter/Swift/Sources/GameCenter/GameCenter+Leaderboards.swift:89-134 | for a fail, the calls made tell which phase failed: none means authentication (code 2), one means resolution, two means paging |
| Leaderboards.PlayerScoreResponse | GameCenter/Swift/Sources/GameCenter/GameCenter+Leaderboards.swift:149-212 | exactly one player-score signal, carrying the leaderboard ID; a success needs both calls and a local-player entry |
| Leaderboards.PlayerScoreUnauthenticated | GameCenter/Swift/Sources/GameCenter/GameCenter+Leaderboards.swift:153-159 | unauthenticated: one fail with code 2 and no platform call |
| Leaderboards.PlayerScoreResolutionFailure | GameCenter/Swift/Sources/GameCenter/GameCenter+Leaderboards.swift:173-181 | a failed lookup: one fail with the same code and message rule as for entries, and no entry is requested |
| Leaderboards.PlayerScoreQuery | GameCenter/Swift/Sources/GameCenter/GameCenter+Leaderboards.swift:183-188 | the entry is requested at global scope, with the translated time scope and the window (1, 1) |
| Leaderboards.PlayerScoreOutcome | GameCenter/Swift/Sources/GameCenter/GameCenter+Leaderboards.swift:189-209 | a paging error is a fail with the platform's code; no local-player entry is a fail (1, "No score found for player"); otherwise a success with that entry marshaled |
| Leaderboards.PlayerScoreSucceedsIff | GameCenter/Swift/Sources/GameCenter/GameCenter+Leaderboards.swift:189-209 | success exactly when every phase succeeds and the page holds a local-player entry |
| Leaderboards.LoadersShareTimeScope | GameCenter/Swift/Sources/GameCenter/GameCenter+Leaderboards.swift:162-170 | both loaders page with the same translated time scope for the same string |
| Leaderboards.CollectEntries | GameCenter/Swift/Sources/GameCenter/GameCenter+Leaderboards.swift:137-142 | the loop builds one record per platform entry, in order; a nil list gives an empty collection |
| GameCenterPlugin.GameCenterStatics.constructor | GameCenter/Swift/Sources/GameCenter/GameCenter.swift:110 | the shared slot starts empty |
| GameCenterPlugin.GameCenter.constructor | GameCenter/Swift/Sources/GameCenter/GameCenter.swift:113-116 | the new instance becomes GameCenter.shared; its logs are empty and it has no player |
| GameCenterPlugin.GameCenter.WithNativeHandle | GameCenter/Swift/Sources/GameCenter/GameCenter.swift:118-121 | the same for the host-created instance |
| GameCenterPlugin.GameCenter.SubmitScoreInternal | GameCenter/Swift/Sources/GameCenter/GameCenter+Leaderboards.swift:13-38 | appends exactly SubmitScoreResponse's calls and its one event to the logs |
| GameCenterPlugin.GameCenter.ShowLeaderboardsInternal | GameCenter/Swift/Sources/GameCenter/GameCenter+Leaderboards.swift:40-55 | appends exactly ShowLeaderboardsResponse to the logs |
| GameCenterPlugin.GameCenter.ShowLeaderboardInternal | GameCenter/Swift/Sources/GameCenter/GameCenter+Leaderboards.swift:57-80 | appends exactly ShowLeaderboardResponse and its one event to the logs |
| GameCenterPlugin.GameCenter.LoadLeaderboardEntriesInternal | GameCenter/Swift/Sources/GameCenter/GameCenter+Leaderboards.swift:82-147 | appends exactly EntriesResponse's calls and its one event to the logs |
| GameCenterPlugin.GameCenter.LoadPlayerScoreInternal | GameCenter/Swift/Sources/GameCenter/GameCenter+Leaderboards.swift:149-212 | appends exactly PlayerScoreResponse's calls and its one event to the logs |
| GameCenterPlugin.GameCenter.SubmitScore | GameCenter/Swift/Sources/GameCenter/GameCenter.swift:238-245 | behaves as SubmitScoreInternal with score, context and IDs unchanged and the local player as player |
| GameCenterPlugin.GameCenter.ShowLeaderboards | GameCenter/Swift/Sources/GameCenter/GameCenter.swift:254-256 | behaves as ShowLeaderboardsInternal |
| GameCenterPlugin.GameCenter.ShowLeaderboard | GameCenter/Swift/Sources/GameCenter/GameCenter.swift:268-270 | behaves as ShowLeaderboardInternal with the same leaderboard ID |
| GameCenterPlugin.GameCenter.LoadLeaderboardEntries | GameCenter/Swift/Sources/GameCenter/GameCenter.swift:287-301 | behaves as LoadLeaderboardEntriesInternal with all five arguments unchanged and in place |
| GameCenterPlugin.GameCenter.LoadPlayerScore | GameCenter/Swift/Sources/GameCenter/GameCenter.swift:315-323 | behaves as LoadPlayerScoreInternal with leaderboardID and timeScope unchanged |

## Left out

- GameKit itself is not modelled. `GKLeaderboard.loadLeaderboards`, `loadEntries`,
  `submitScore` and `GKLocalPlayer.local` appear only as input values, and every issued call is
  assumed to complete once.
- A completion handler that never fires is not modelled. Such a request ends with no event,
  and the model does not cover that case.
- Callback scheduling and threads are not modelled. Handlers run in sequence, straight after
  their call.
- The Godot runtime is reduced to the event log. `@Signal`, `emit` and `ObjectCollection` are
  not modelled, and a collection appears as a sequence of record snapshots. The
  `@Godot`/`@Export`/`@Callable` macros and `#initSwiftExtension` have no behaviour here.
- UI presentation is reduced to a logged `PresentLeaderboards*` call. `GKGameCenterViewController`,
  `showUIController` and the `viewController` field are not modelled.
- `GameCenterUIState` is not part of this model. Its success and dismissed raw values are
  parameters (`UIStates`).
- `#if canImport(UIKit)` is a build-time condition. It becomes the parameter `canImportUIKit`.
- `GameCenterPlayer` and `GameCenterPlayerLocal` are not part of this model. A player is an
  opaque value built from the platform player.
- Authentication, `isAuthenticated` and the achievement requests are not modelled
  (`GameCenter.swift:132-224`). The bodies they forward to are outside this model, and so are
  their signals.
- RankRange: does not model Swift's overflow trap. When rankMax − rankMin + 1 leaves the 64-bit
  `Int` range, the real code crashes; the model uses unbounded integers.
- ShowLeaderboardsResponse: promises at most one event, not exactly one, because without UIKit
  the source emits nothing.
- The package manifests of AppleSignIn and ICloud are not modelled. They are build
  configuration with no behaviour.
