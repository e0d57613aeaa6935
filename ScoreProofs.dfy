/**
 * Properties of the final scoreboard of `onSessionEnd`: it lists every
 * member exactly once, highest points first, and members with equal
 * points keep their iteration order (the sort is stable).
 */
module ScoreProofs {
  import opened Common
  import opened Sessions
  import opened GameRules

  /** Every pair of positions in `order` is in scoreboard order. */
  predicate Ranked(cs: seq<User>, order: seq<nat>)
  {
    forall j, k :: 0 <= j < k < |order| ==> RankedBefore(cs, order[j], order[k])
  }

  /**
   * Inserting a member that comes after every listed one in iteration
   * order keeps the list ranked.
   */
  lemma {:induction false} InsertRankedKeepsRank(cs: seq<User>, x: nat, order: seq<nat>)
    requires x < |cs| && forall j :: 0 <= j < |order| ==> order[j] < x
    requires Ranked(cs, order)
    ensures Ranked(cs, InsertRanked(cs, x, order))
    decreases |order|
  {
    if order != [] && cs[order[0]].points >= cs[x].points {
      var rest := InsertRanked(cs, x, order[1..]);
      InsertRankedKeepsRank(cs, x, order[1..]);
      forall k | 0 <= k < |rest|
        ensures RankedBefore(cs, order[0], rest[k])
      {
        assert rest[k] in multiset(rest);
        if rest[k] != x {
          assert rest[k] in order[1..];
        }
      }
    }
  }

  /** The scoreboard order is ranked: points never rise, ties keep iteration order. */
  lemma {:induction false} ScoreOrderRanked(cs: seq<User>, n: nat)
    requires n <= |cs|
    ensures Ranked(cs, ScoreOrder(cs, n))
    decreases n
  {
    if n > 0 {
      ScoreOrderRanked(cs, n - 1);
      InsertRankedKeepsRank(cs, n - 1, ScoreOrder(cs, n - 1));
    }
  }

  /** The scoreboard order lists each of the first `n` members exactly once. */
  lemma {:induction false} ScoreOrderListsEachOnce(cs: seq<User>, n: nat)
    requires n <= |cs|
    ensures forall i :: 0 <= i < n ==> multiset(ScoreOrder(cs, n))[i] == 1
    decreases n
  {
    if n > 0 {
      ScoreOrderListsEachOnce(cs, n - 1);
      var prev := ScoreOrder(cs, n - 1);
      assert n - 1 !in prev;
    }
  }

  /** Line `k` of the scoreboard shows the member in position `k` of the scoreboard order. */
  lemma ScoreboardLine(cs: seq<User>, k: nat)
    requires k < |cs|
    ensures var m := ScoreOrder(cs, |cs|)[k];
      Scoreboard(cs)[k] == ScoreLine(cs[m].clientId, cs[m].points)
  {
  }

  lemma ScoreboardDescends(cs: seq<User>)
    ensures forall j, k :: 0 <= j < k < |cs| ==> Scoreboard(cs)[j].points >= Scoreboard(cs)[k].points
  {
    ScoreOrderRanked(cs, |cs|);
    forall j, k | 0 <= j < k < |cs|
      ensures Scoreboard(cs)[j].points >= Scoreboard(cs)[k].points
    {
      ScoreboardLine(cs, j);
      ScoreboardLine(cs, k);
    }
  }

  lemma ScoreboardShowsEveryone(cs: seq<User>)
    ensures forall i :: 0 <= i < |cs| ==>
      exists k :: 0 <= k < |cs| && Scoreboard(cs)[k] == ScoreLine(cs[i].clientId, cs[i].points)
  {
    var order := ScoreOrder(cs, |cs|);
    ScoreOrderListsEachOnce(cs, |cs|);
    forall i | 0 <= i < |cs|
      ensures exists k :: 0 <= k < |cs| && Scoreboard(cs)[k] == ScoreLine(cs[i].clientId, cs[i].points)
    {
      assert i in multiset(order);
      var k :| 0 <= k < |order| && order[k] == i;
      ScoreboardLine(cs, k);
    }
  }

  /**
   * The final scoreboard shows every member once, with its id and points,
   * in non-increasing order of points.
   */
  lemma ScoreboardIsRankedPermutation(cs: seq<User>)
    ensures |Scoreboard(cs)| == |cs|
    ensures forall j, k :: 0 <= j < k < |cs| ==> Scoreboard(cs)[j].points >= Scoreboard(cs)[k].points
    ensures forall i :: 0 <= i < |cs| ==>
      exists k :: 0 <= k < |cs| && Scoreboard(cs)[k] == ScoreLine(cs[i].clientId, cs[i].points)
  {
    ScoreboardDescends(cs);
    ScoreboardShowsEveryone(cs);
  }

  /** Members with equal points appear in iteration order. */
  lemma ScoreboardIsStable(cs: seq<User>, j: nat, k: nat)
    requires j < k < |cs|
    ensures var order := ScoreOrder(cs, |cs|);
      cs[order[j]].points == cs[order[k]].points ==> order[j] < order[k]
  {
    ScoreOrderRanked(cs, |cs|);
  }
}
