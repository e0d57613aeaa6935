/**
 * What a round's battles do, proved about the functions of `GameRules`:
 * every decisive comparison gives one point to one side and queues the
 * other side for elimination, points are conserved against the queue,
 * the queue is applied exactly once per member, and members outside the
 * battle list are left alone.
 */
module BattleProofs {
  import opened Common
  import opened Sessions
  import opened GameRules

  // ---------------------------------------------------------------------
  // Reference definitions: the comparisons judged on the picks of the round
  // ---------------------------------------------------------------------

  /** The losers of the first `k` comparisons, in comparison order. */
  function Losers(cs: seq<User>, act: seq<nat>, k: nat): seq<nat>
    requires BattleReady(cs, act) && k <= |act|
  {
    if k == 0 then []
    else
      var l := LoserOf(cs, act, k - 1);
      if l.Some? then Losers(cs, act, k - 1) + [l.value] else Losers(cs, act, k - 1)
  }

  /** How many of the first `k` comparisons member `x` won. */
  function Wins(cs: seq<User>, act: seq<nat>, k: nat, x: nat): nat
    requires BattleReady(cs, act) && k <= |act|
  {
    if k == 0 then 0
    else Wins(cs, act, k - 1, x) + (if WinnerOf(cs, act, k - 1) == Some(x) then 1 else 0)
  }

  /** How many of the first `k` comparisons were decisive. */
  function Decisive(cs: seq<User>, act: seq<nat>, k: nat): nat
    requires BattleReady(cs, act) && k <= |act|
  {
    if k == 0 then 0
    else Decisive(cs, act, k - 1) + (if Verdict(cs, act, k - 1) != 0 then 1 else 0)
  }

  /** The points held by all members together. */
  function TotalPoints(cs: seq<User>): int
  {
    if |cs| == 0 then 0 else TotalPoints(cs[..|cs| - 1]) + cs[|cs| - 1].points
  }

  // ---------------------------------------------------------------------
  // One comparison
  // ---------------------------------------------------------------------

  /**
   * A comparison is decisive exactly when it has a winner, exactly when it
   * has a loser; winner and loser are then its two members, and distinct.
   */
  lemma DecisiveHasTwoSides(cs: seq<User>, act: seq<nat>, j: nat)
    requires BattleReady(cs, act) && j < |act|
    ensures WinnerOf(cs, act, j).Some? <==> Verdict(cs, act, j) != 0
    ensures LoserOf(cs, act, j).Some? <==> Verdict(cs, act, j) != 0
    ensures WinnerOf(cs, act, j).Some? ==>
      WinnerOf(cs, act, j).value != LoserOf(cs, act, j).value
      && {WinnerOf(cs, act, j).value, LoserOf(cs, act, j).value} == {act[j], DefenderOf(act, j)}
  {
    var a, d := act[j], DefenderOf(act, j);
    if a == d {
      assert Verdict(cs, act, j) == 0;
    }
  }

  // ---------------------------------------------------------------------
  // The comparison loop
  // ---------------------------------------------------------------------

  /** After `k` comparisons the queue holds the losers, in comparison order. */
  lemma {:induction false} QueueIsLosers(cs: seq<User>, act: seq<nat>, k: nat)
    requires BattleReady(cs, act) && k <= |act|
    ensures PlayRounds(cs, act, k).1 == Losers(cs, act, k)
    decreases k
  {
    if k > 0 {
      QueueIsLosers(cs, act, k - 1);
    }
  }

  /** After `k` comparisons every member holds its starting points plus its wins. */
  lemma {:induction false} PointsAreWins(cs: seq<User>, act: seq<nat>, k: nat)
    requires BattleReady(cs, act) && k <= |act|
    ensures forall x :: 0 <= x < |cs| ==> PlayRounds(cs, act, k).0[x].points == cs[x].points + Wins(cs, act, k, x)
    decreases k
  {
    if k > 0 {
      PointsAreWins(cs, act, k - 1);
      DecisiveHasTwoSides(cs, act, k - 1);
    }
  }

  /** Adding one point to one member adds one point to the total. */
  lemma {:induction false} TotalPointsBump(cs: seq<User>, i: nat)
    requires i < |cs|
    ensures TotalPoints(cs[i := cs[i].(points := cs[i].points + 1)]) == TotalPoints(cs) + 1
    decreases |cs|
  {
    var cs' := cs[i := cs[i].(points := cs[i].points + 1)];
    assert cs'[..|cs'| - 1] == if i == |cs| - 1 then cs[..|cs| - 1] else cs[..|cs| - 1][i := cs[i].(points := cs[i].points + 1)];
    if i < |cs| - 1 {
      TotalPointsBump(cs[..|cs| - 1], i);
    }
  }

  /** One comparison adds as many points to the total as it queues losers. */
  lemma AwardConservesPoints(cur: seq<User>, queue: seq<nat>, attacker: nat, defender: nat, verdict: int)
    requires attacker < |cur| && defender < |cur|
    ensures TotalPoints(Award(cur, queue, attacker, defender, verdict).0) - TotalPoints(cur)
         == |Award(cur, queue, attacker, defender, verdict).1| - |queue|
  {
    if verdict == 1 {
      TotalPointsBump(cur, attacker);
    } else if verdict == -1 {
      TotalPointsBump(cur, defender);
    }
  }

  /**
   * Points are conserved against eliminations: the comparisons hand out
   * exactly as many points as they queue losers.
   */
  lemma {:induction false} PointsMatchQueue(cs: seq<User>, act: seq<nat>, k: nat)
    requires BattleReady(cs, act) && k <= |act|
    ensures TotalPoints(PlayRounds(cs, act, k).0) == TotalPoints(cs) + |PlayRounds(cs, act, k).1|
    decreases k
  {
    if k > 0 {
      PointsMatchQueue(cs, act, k - 1);
      var prev := PlayRounds(cs, act, k - 1);
      AwardConservesPoints(prev.0, prev.1, act[k - 1], DefenderOf(act, k - 1), Verdict(cs, act, k - 1));
    }
  }

  /** One loser is queued per decisive comparison. */
  lemma {:induction false} QueueCountsDecisive(cs: seq<User>, act: seq<nat>, k: nat)
    requires BattleReady(cs, act) && k <= |act|
    ensures |PlayRounds(cs, act, k).1| == Decisive(cs, act, k)
    decreases k
  {
    if k > 0 {
      QueueCountsDecisive(cs, act, k - 1);
    }
  }

  /** Only the members on the battle list ever win or lose. */
  lemma {:induction false} OnlyListedTakePart(cs: seq<User>, act: seq<nat>, k: nat, x: nat)
    requires BattleReady(cs, act) && k <= |act|
    requires x !in act
    ensures Wins(cs, act, k, x) == 0 && x !in Losers(cs, act, k)
    decreases k
  {
    if k > 0 {
      OnlyListedTakePart(cs, act, k - 1, x);
      DecisiveHasTwoSides(cs, act, k - 1);
    }
  }

  // ---------------------------------------------------------------------
  // The elimination loop
  // ---------------------------------------------------------------------

  /**
   * Applying the queue eliminates exactly the queued members and changes
   * nothing else; a member is announced exactly when it was queued and not
   * yet eliminated, and never twice.
   */
  lemma {:induction false} EliminateQueuedMeaning(cs: seq<User>, queue: seq<nat>)
    requires forall j :: 0 <= j < |queue| ==> queue[j] < |cs|
    ensures forall i :: 0 <= i < |cs| ==>
      EliminateQueued(cs, queue).0[i] == cs[i].(eliminated := cs[i].eliminated || i in queue)
    ensures forall j :: 0 <= j < |EliminateQueued(cs, queue).1| ==> EliminateQueued(cs, queue).1[j] < |cs|
    ensures forall i :: 0 <= i < |cs| ==> (i in EliminateQueued(cs, queue).1 <==> i in queue && !cs[i].eliminated)
    ensures Distinct(EliminateQueued(cs, queue).1)
    decreases |queue|
  {
    if |queue| > 0 {
      var front := queue[..|queue| - 1];
      var x := queue[|queue| - 1];
      EliminateQueuedMeaning(cs, front);
      assert queue == front + [x];
      assert forall i :: i in queue <==> i in front || i == x;
    }
  }

  // ---------------------------------------------------------------------
  // The battle list
  // ---------------------------------------------------------------------

  /** The battle list holds exactly the eligible members, each once, in iteration order. */
  lemma {:induction false} EligibleIndicesExact(cs: seq<User>)
    ensures forall i :: 0 <= i < |cs| ==> (IsEligible(cs[i]) <==> i in EligibleIndices(cs))
    ensures forall j, k :: 0 <= j < k < |EligibleIndices(cs)| ==> EligibleIndices(cs)[j] < EligibleIndices(cs)[k]
    decreases |cs|
  {
    if |cs| > 0 {
      var front := cs[..|cs| - 1];
      EligibleIndicesExact(front);
      assert forall i :: 0 <= i < |front| ==> front[i] == cs[i];
      var act := EligibleIndices(front);
      assert forall j :: 0 <= j < |act| ==> act[j] < |front|;
    }
  }

  /** Comparison `j` is followed by `j + 1`, and the last one wraps round to 0. */
  lemma NextInCycle(n: nat, j: nat)
    requires j < n
    ensures (j + 1) % n == if j + 1 == n then 0 else j + 1
  {
  }

  /**
   * In the cycle of comparisons over a list of distinct members, each member
   * of the list attacks in exactly one comparison and defends in exactly one.
   */
  lemma PairingCounts(act: seq<nat>, x: nat)
    requires Distinct(act) && x in act
    ensures exists j :: 0 <= j < |act| && act[j] == x
    ensures forall j, k :: 0 <= j < |act| && 0 <= k < |act| && act[j] == x && act[k] == x ==> j == k
    ensures exists j :: 0 <= j < |act| && DefenderOf(act, j) == x
    ensures forall j, k :: 0 <= j < |act| && 0 <= k < |act| && DefenderOf(act, j) == x && DefenderOf(act, k) == x
              ==> j == k
  {
    var n := |act|;
    var i :| 0 <= i < n && act[i] == x;
    var w := if i == 0 then n - 1 else i - 1;
    NextInCycle(n, w);
    assert DefenderOf(act, w) == x;
    forall j, k | 0 <= j < n && 0 <= k < n && DefenderOf(act, j) == x && DefenderOf(act, k) == x
      ensures j == k
    {
      NextInCycle(n, j);
      NextInCycle(n, k);
      assert (j + 1) % n == (k + 1) % n;
    }
  }

  /**
   * Over the battle list, every eligible member is the attacker of exactly
   * one comparison and the defender of exactly one.
   */
  lemma EveryEligiblePairedOnce(cs: seq<User>, i: nat)
    requires i < |cs| && IsEligible(cs[i])
    ensures var act := EligibleIndices(cs);
      && (exists j :: 0 <= j < |act| && act[j] == i)
      && (forall j, k :: 0 <= j < |act| && 0 <= k < |act| && act[j] == i && act[k] == i ==> j == k)
      && (exists j :: 0 <= j < |act| && DefenderOf(act, j) == i)
      && (forall j, k :: 0 <= j < |act| && 0 <= k < |act| && DefenderOf(act, j) == i && DefenderOf(act, k) == i
            ==> j == k)
  {
    EligibleListed(cs, i);
    PairingCounts(EligibleIndices(cs), i);
  }

  /** An eligible member is on the battle list, whose entries are distinct. */
  lemma EligibleListed(cs: seq<User>, i: nat)
    requires i < |cs| && IsEligible(cs[i])
    ensures Distinct(EligibleIndices(cs)) && i in EligibleIndices(cs)
  {
    EligibleIndicesExact(cs);
  }

  // ---------------------------------------------------------------------
  // processBattles as a whole
  // ---------------------------------------------------------------------

  /**
   * With fewer than two eligible members nobody changes. Otherwise every
   * member ends with its starting points plus its wins, is eliminated
   * exactly when it already was or lost a comparison, and is otherwise
   * unchanged; the announcements name every loser once.
   */
  lemma BattlesOutcome(cs: seq<User>)
    ensures var act := EligibleIndices(cs);
      |act| < 2 ==> Battles(cs) == (cs, [])
    ensures var act := EligibleIndices(cs); var res := Battles(cs);
      |act| >= 2 ==>
        && (forall i :: 0 <= i < |cs| ==>
              res.0[i] == cs[i].(points := cs[i].points + Wins(cs, act, |act|, i),
                                 eliminated := cs[i].eliminated || i in Losers(cs, act, |act|)))
        && (forall i :: 0 <= i < |cs| ==> (i in res.1 <==> i in Losers(cs, act, |act|)))
        && Distinct(res.1)
  {
    var act := EligibleIndices(cs);
    if |act| >= 2 {
      var played := PlayRounds(cs, act, |act|);
      PlayRoundsKeepsPicks(cs, act, |act|);
      QueueIsLosers(cs, act, |act|);
      PointsAreWins(cs, act, |act|);
      EliminateQueuedMeaning(played.0, played.1);
      forall i | 0 <= i < |cs| && i in Losers(cs, act, |act|)
        ensures !cs[i].eliminated
      {
        EligibleIndicesExact(cs);
        if !IsEligible(cs[i]) {
          OnlyListedTakePart(cs, act, |act|, i);
        }
      }
    }
  }

  /** What the battles leave for one member on a battle list of two or more. */
  lemma BattleOfMember(cs: seq<User>, i: nat)
    requires i < |cs| && |EligibleIndices(cs)| >= 2
    ensures var act := EligibleIndices(cs);
      Battles(cs).0[i] == cs[i].(points := cs[i].points + Wins(cs, act, |act|, i),
                                 eliminated := cs[i].eliminated || i in Losers(cs, act, |act|))
  {
    BattlesOutcome(cs);
  }

  /** Away members, spectators, the eliminated and those without a pick come out of the battles unchanged. */
  lemma BattlesSpareTheIneligible(cs: seq<User>, i: nat)
    requires i < |cs| && !IsEligible(cs[i])
    ensures Battles(cs).0[i] == cs[i]
  {
    var act := EligibleIndices(cs);
    BattlesOutcome(cs);
    if |act| >= 2 {
      EligibleIndicesExact(cs);
      OnlyListedTakePart(cs, act, |act|, i);
    }
  }

  /** Battles change only points and elimination, and never revive anybody. */
  lemma BattlesOnlyScoreAndEliminate(cs: seq<User>)
    ensures forall i :: 0 <= i < |cs| ==>
      Battles(cs).0[i] == cs[i].(points := Battles(cs).0[i].points, eliminated := Battles(cs).0[i].eliminated)
    ensures forall i :: 0 <= i < |cs| && cs[i].eliminated ==> Battles(cs).0[i].eliminated
  {
    BattlesOutcome(cs);
  }
}
