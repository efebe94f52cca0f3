/**
  Translation of the host's string and integer query parameters into
  GameKit's scope enums and rank range. Every translation is total: an
  unrecognised string silently falls back to a default.
 */
module Scopes {
  import opened Platform

  /** `"friendsOnly"` selects friends; every other string selects the global scope. */
  function TranslatePlayerScope(playerScope: string): (scope: PlayerScope)
    ensures scope == FriendsOnly <==> playerScope == "friendsOnly"
    ensures scope == Global <==> playerScope != "friendsOnly"
  {
    if playerScope == "friendsOnly" then FriendsOnly else Global
  }

  /** `"today"` and `"week"` select those scopes, compared case-sensitively; anything else is all time. */
  function TranslateTimeScope(timeScope: string): (scope: TimeScope)
    ensures scope == Today <==> timeScope == "today"
    ensures scope == Week <==> timeScope == "week"
    ensures scope == AllTime <==> timeScope != "today" && timeScope != "week"
  {
    match timeScope
    case "today" => Today
    case "week" => Week
    case _ => AllTime
  }

  /** The names the host API documents for each player scope. */
  function PlayerScopeName(scope: PlayerScope): string
  {
    match scope
    case Global => "global"
    case FriendsOnly => "friendsOnly"
  }

  /** The names the host API documents for each time scope. */
  function TimeScopeName(scope: TimeScope): string
  {
    match scope
    case AllTime => "allTime"
    case Week => "week"
    case Today => "today"
  }

  /** Every documented player-scope name selects the scope it names. */
  lemma PlayerScopeNameRoundTrip(scope: PlayerScope)
    ensures TranslatePlayerScope(PlayerScopeName(scope)) == scope
  {
  }

  /** Every documented time-scope name selects the scope it names. */
  lemma TimeScopeNameRoundTrip(scope: TimeScope)
    ensures TranslateTimeScope(TimeScopeName(scope)) == scope
  {
  }

  /** Unrecognised or differently-cased strings are defaults, not errors. */
  lemma ScopeFallbacks()
    ensures TranslatePlayerScope("") == Global
    ensures TranslatePlayerScope("FriendsOnly") == Global
    ensures TranslatePlayerScope("global") == Global
    ensures TranslateTimeScope("") == AllTime
    ensures TranslateTimeScope("Today") == AllTime
    ensures TranslateTimeScope("WEEK") == AllTime
  {
  }

  /** Whether a 1-based rank lies inside a range. */
  predicate InRange(range: NSRange, rank: int)
  {
    range.location <= rank < range.location + range.length
  }

  /**
    The inclusive rank window [rankMin, rankMax] as an NSRange. Nothing is
    validated: a window with rankMax < rankMin gives a length below one.
    The first rank of the range is rankMin and its last is rankMax, so the
    window can be read back from the range.
   */
  function RankRange(rankMin: int, rankMax: int): (range: NSRange)
    ensures range.location == rankMin
    ensures range.length == rankMax - rankMin + 1
    ensures forall rank :: InRange(range, rank) <==> rankMin <= rank <= rankMax
  {
    NSRange(rankMin, rankMax - rankMin + 1)
  }

  /** A one-rank window asks for exactly one entry. */
  lemma RankRangeSingle(rank: int)
    ensures RankRange(rank, rank) == NSRange(rank, 1)
  {
  }

  /** An inverted window is forwarded as it is: it covers no rank and its length is not positive. */
  lemma RankRangeInverted(rankMin: int, rankMax: int)
    requires rankMax < rankMin
    ensures RankRange(rankMin, rankMax).length <= 0
    ensures forall rank :: !InRange(RankRange(rankMin, rankMax), rank)
  {
  }
}
