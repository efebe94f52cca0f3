/**
  The comma-joined list of leaderboard IDs that score events carry so that
  a host can match an event to the batch it submitted.
 */
module LeaderboardIds {

  /**
    Swift's `joined(separator: ",")` on an array of strings: the first ID
    leads, followed by a comma when more IDs follow; SplitJoined shows that
    the whole list comes back in order.
   */
  function Joined(ids: seq<string>): (joined: string)
    ensures |ids| == 0 ==> joined == ""
    ensures |ids| > 0 ==> ids[0] <= joined
    ensures |ids| > 1 ==> |ids[0]| < |joined| && joined[|ids[0]|] == ','
  {
    if |ids| == 0 then ""
    else if |ids| == 1 then ids[0]
    else ids[0] + "," + Joined(ids[1..])
  }

  /** Cuts a string at every comma; the partner of Joined. */
  function Split(s: string): (parts: seq<string>)
    ensures |parts| >= 1
  {
    if |s| == 0 then [""]
    else
      var rest := Split(s[1..]);
      if s[0] == ',' then [""] + rest
      else [[s[0]] + rest[0]] + rest[1..]
  }

  /** No ID contains the separator. */
  predicate CommaFree(ids: seq<string>)
  {
    forall i :: 0 <= i < |ids| ==> ',' !in ids[i]
  }

  /** A string without a comma is a single part. */
  lemma {:induction false} SplitCommaFree(a: string)
    requires ',' !in a
    ensures Split(a) == [a]
  {
    if |a| > 0 {
      assert ',' !in a[1..];
      SplitCommaFree(a[1..]);
      assert [a[0]] + a[1..] == a;
    }
  }

  /** A comma-free head followed by a comma is split off as the first part. */
  lemma {:induction false} SplitAfterComma(a: string, b: string)
    requires ',' !in a
    ensures Split(a + "," + b) == [a] + Split(b)
  {
    var s := a + "," + b;
    if |a| == 0 {
      assert s == "," + b;
      assert s[1..] == b;
    } else {
      assert s[0] == a[0];
      assert s[1..] == a[1..] + "," + b;
      assert ',' !in a[1..];
      SplitAfterComma(a[1..], b);
      assert [a[0]] + a[1..] == a;
    }
  }

  /**
    Joining keeps every ID and the input order: splitting the joined string
    at its commas gives the list back, as long as no ID contains a comma.
   */
  lemma {:induction false} SplitJoined(ids: seq<string>)
    requires |ids| > 0 && CommaFree(ids)
    ensures Split(Joined(ids)) == ids
  {
    if |ids| == 1 {
      SplitCommaFree(ids[0]);
    } else {
      assert CommaFree(ids[1..]) by {
        forall i | 0 <= i < |ids| - 1 ensures ',' !in ids[1..][i] {
          assert ids[1..][i] == ids[i + 1];
        }
      }
      SplitJoined(ids[1..]);
      SplitAfterComma(ids[0], Joined(ids[1..]));
      assert [ids[0]] + ids[1..] == ids;
    }
  }

  /** Three IDs are joined in the order given. */
  lemma JoinedExample()
    ensures Joined(["a", "b", "c"]) == "a,b,c"
  {
  }

  /** An ID holding a comma cannot be told apart from two IDs; an empty list reads like one empty ID. */
  lemma JoinedAmbiguous()
    ensures Joined(["a,b"]) == Joined(["a", "b"])
    ensures Joined([]) == Joined([""])
  {
  }
}
