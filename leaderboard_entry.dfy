/**
  GameCenterLeaderboardEntry: the record a host receives for one
  leaderboard row. It exports exactly the player, score, rank and context
  of a GKLeaderboard.Entry; the entry's date is deliberately not exported.
 */
module LeaderboardEntry {
  import opened Wrappers
  import opened Platform

  /** A GameCenterPlayer built from a platform player; its own fields are not modelled. */
  datatype GameCenterPlayer = GameCenterPlayer(source: PlatformPlayer)

  /** The exported fields of a GameCenterLeaderboardEntry, as a value. */
  datatype EntryRecord = EntryRecord(player: Option<GameCenterPlayer>, score: int, rank: int, context: int)

  /** The field values of a record that nothing has been copied into. */
  const DefaultRecord := EntryRecord(None, 0, 0, 0)

  /** The record that marshaling a platform entry produces: the player set, the numbers copied. */
  function Marshal(entry: PlatformEntry): (record: EntryRecord)
    ensures record.player.Some? && record.player.value.source == entry.player
    ensures record.score == entry.score && record.rank == entry.rank && record.context == entry.context
  {
    EntryRecord(Some(GameCenterPlayer(entry.player)), entry.score, entry.rank, entry.context)
  }

  /**
    Marshaling loses the date and nothing else: two platform entries give
    the same record exactly when they agree on player, score, rank and context.
    The direction from equal records to equal players rests on GameCenterPlayer
    being modelled as a wrapper that keeps the whole platform player; the
    direction from agreeing entries to equal records is the promise that the
    date is not exported.
   */
  lemma MarshalForgetsOnlyDate(a: PlatformEntry, b: PlatformEntry)
    ensures Marshal(a) == Marshal(b) <==> a.(date := b.date) == b
  {
  }

  /** A marshaled record always has its player set, so it is never the default record. */
  lemma MarshalSetsPlayer(entry: PlatformEntry)
    ensures Marshal(entry).player.Some?
    ensures Marshal(entry) != DefaultRecord
  {
  }

  /** Marshals every platform entry, one record per entry, in the same order. */
  function MarshalAll(entries: seq<PlatformEntry>): (records: seq<EntryRecord>)
    ensures |records| == |entries|
    ensures forall i :: 0 <= i < |entries| ==> records[i] == Marshal(entries[i])
  {
    if entries == [] then [] else [Marshal(entries[0])] + MarshalAll(entries[1..])
  }

  /** The record object the plugin registers with the host. */
  class GameCenterLeaderboardEntry {
    var player: Option<GameCenterPlayer>
    var score: int
    var rank: int
    var context: int

    /** The current field values. */
    function Snapshot(): EntryRecord
      reads this
    {
      EntryRecord(player, score, rank, context)
    }

    /** The designated initialiser: no player, every number 0. */
    constructor ()
      ensures player == None && score == 0 && rank == 0 && context == 0
      ensures Snapshot() == DefaultRecord
    {
      player, score, rank, context := None, 0, 0, 0;
    }

    /** The convenience initialiser: start from the defaults, then copy the entry's fields one by one. */
    constructor FromEntry(entry: PlatformEntry)
      ensures player == Some(GameCenterPlayer(entry.player))
      ensures score == entry.score && rank == entry.rank && context == entry.context
      ensures Snapshot() == Marshal(entry)
    {
      player, score, rank, context := None, 0, 0, 0;
      new;
      player := Some(GameCenterPlayer(entry.player));
      score := entry.score;
      rank := entry.rank;
      context := entry.context;
    }
  }
}
