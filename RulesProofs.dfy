/**
 * Properties of the beats table, of pick normalisation and of the battle
 * pairing, and two rounds worked through member by member.
 */
module RulesProofs {
  import opened Common
  import opened JavaText
  import opened Sessions
  import opened GameRules
  import opened BattleProofs

  // ---------------------------------------------------------------------
  // compareChoices
  // ---------------------------------------------------------------------

  /** Between two known symbols the comparison is antisymmetric. */
  lemma CompareChoicesAntisymmetric(a: string, b: string)
    requires IsSymbol(a) && IsSymbol(b)
    ensures CompareChoices(a, b) == -CompareChoices(b, a)
  {
    assert forall x, y :: (x, y) in BeatsTable ==> (y, x) !in BeatsTable;
  }

  // ---------------------------------------------------------------------
  // Worked rounds
  // ---------------------------------------------------------------------

  /** A ready member, in the game, not away, holding `pick` and no points. */
  function Picker(id: int, pick: string): User
  {
    User(id, "", true, false, false, Some(pick), None, true, 0)
  }

  /** The members of the three-way round after their picks were remembered. */
  function CycleAfterPicks(): seq<User>
  {
    [Picker(1, "r").(lastChoice := Some("r")), Picker(2, "p").(lastChoice := Some("p")),
     Picker(3, "s").(lastChoice := Some("s"))]
  }

  lemma CycleBattleList()
    ensures EligibleIndices(CycleAfterPicks()) == [0, 1, 2]
  {
    var cs := CycleAfterPicks();
    assert EligibleIndices(cs[..2]) == [0, 1] by {
      assert EligibleIndices(cs[..2][..1]) == [0] by {
        assert EligibleIndices(cs[..2][..1][..0]) == [];
      }
    }
  }

  /** In the cycle every member loses to the next one round the table... */
  lemma CycleLosers()
    ensures var cs := CycleAfterPicks();
      BattleReady(cs, [0, 1, 2]) && Losers(cs, [0, 1, 2], 3) == [0, 1, 2]
  {
    var cs, act := CycleAfterPicks(), [0, 1, 2];
    assert LoserOf(cs, act, 0) == Some(0);
    assert LoserOf(cs, act, 1) == Some(1);
    assert LoserOf(cs, act, 2) == Some(2);
    assert Losers(cs, act, 1) == [0];
    assert Losers(cs, act, 2) == [0, 1];
  }

  /** ... and beats the previous one. */
  lemma CycleWins(i: nat)
    requires i < 3
    ensures var cs := CycleAfterPicks();
      BattleReady(cs, [0, 1, 2]) && Wins(cs, [0, 1, 2], 3, i) == 1
  {
    var cs, act := CycleAfterPicks(), [0, 1, 2];
    assert WinnerOf(cs, act, 0) == Some(1);
    assert WinnerOf(cs, act, 1) == Some(2);
    assert WinnerOf(cs, act, 2) == Some(0);
    assert Wins(cs, act, 1, i) == (if i == 1 then 1 else 0);
    assert Wins(cs, act, 2, i) == (if i == 0 then 0 else 1);
  }

  lemma CycleBattles(i: nat)
    requires i < 3
    ensures Battles(CycleAfterPicks()).0[i].eliminated
    ensures Battles(CycleAfterPicks()).0[i].points == 1
  {
    CycleBattleList();
    CycleLosers();
    CycleWins(i);
    BattleOfMember(CycleAfterPicks(), i);
  }

  /**
   * Rock, paper and scissors picked in that order: every comparison is
   * decisive, so every member wins once and is queued once, and nobody
   * survives the round.
   */
  lemma ThreeWayCycle()
    ensures var out := ResolveRound([Picker(1, "r"), Picker(2, "p"), Picker(3, "s")]);
      && (forall i :: 0 <= i < 3 ==> out[i].eliminated && out[i].points == 1)
      && GameEndOf(out) == Tie
  {
    var cs := [Picker(1, "r"), Picker(2, "p"), Picker(3, "s")];
    assert MapUsers(MapUsers(cs, RememberChoice), EliminateIfMissed) == CycleAfterPicks();
    CycleBattles(0);
    CycleBattles(1);
    CycleBattles(2);
    var out := ResolveRound(cs);
    assert CountIf(out, IsSurvivor) == 0 by {
      assert CountIf(out[..2], IsSurvivor) == 0 by {
        assert CountIf(out[..2][..1], IsSurvivor) == 0 by {
          assert CountIf(out[..2][..1][..0], IsSurvivor) == 0;
        }
      }
    }
  }

  /** Two members, rock against scissors, after their picks were remembered. */
  function DuelAfterPicks(): seq<User>
  {
    [Picker(1, "r").(lastChoice := Some("r")), Picker(2, "s").(lastChoice := Some("s"))]
  }

  lemma DuelBattleList()
    ensures EligibleIndices(DuelAfterPicks()) == [0, 1]
  {
    var cs := DuelAfterPicks();
    assert EligibleIndices(cs[..1]) == [0] by {
      assert EligibleIndices(cs[..1][..0]) == [];
    }
  }

  /** Both comparisons of the duel go to the rock player. */
  lemma DuelComparisons()
    ensures var cs := DuelAfterPicks();
      && BattleReady(cs, [0, 1])
      && Losers(cs, [0, 1], 2) == [1, 1]
      && Wins(cs, [0, 1], 2, 0) == 2 && Wins(cs, [0, 1], 2, 1) == 0
  {
    var cs, act := DuelAfterPicks(), [0, 1];
    assert LoserOf(cs, act, 0) == Some(1) && WinnerOf(cs, act, 0) == Some(0);
    assert LoserOf(cs, act, 1) == Some(1) && WinnerOf(cs, act, 1) == Some(0);
    assert Losers(cs, act, 1) == [1];
    assert Wins(cs, act, 1, 0) == 1 && Wins(cs, act, 1, 1) == 0;
  }

  /** A member queued twice is announced once. */
  lemma QueuedTwiceAnnouncedOnce(cs: seq<User>, x: nat)
    requires x < |cs| && !cs[x].eliminated
    ensures EliminateQueued(cs, [x, x]).1 == [x]
    ensures EliminateQueued(cs, [x, x]).0[x].eliminated
  {
    EliminateQueuedNext(cs, [x, x], 0);
    EliminateQueuedNext(cs, [x, x], 1);
    assert [x, x][..0] == [] && [x, x][..2] == [x, x];
  }

  /**
   * With two members each one attacks the other, so the loser is queued
   * twice; it is still eliminated and announced only once.
   */
  lemma DuelQueuesLoserTwice()
    ensures var cs := DuelAfterPicks();
      && EligibleIndices(cs) == [0, 1]
      && PlayRounds(cs, [0, 1], 2).1 == [1, 1]
      && Battles(cs).1 == [1]
  {
    var cs, act := DuelAfterPicks(), [0, 1];
    DuelBattleList();
    DuelComparisons();
    QueueIsLosers(cs, act, 2);
    var played := PlayRounds(cs, act, 2);
    PlayRoundsKeepsPicks(cs, act, 2);
    QueuedTwiceAnnouncedOnce(played.0, 1);
  }

  lemma DuelBattles()
    ensures Battles(DuelAfterPicks()).0 == [DuelAfterPicks()[0].(points := 2), DuelAfterPicks()[1].(eliminated := true)]
  {
    var d := DuelAfterPicks();
    DuelBattleList();
    DuelComparisons();
    BattleOfMember(d, 0);
    BattleOfMember(d, 1);
  }

  /** Rock against scissors: the rock player wins both comparisons and the game. */
  lemma DuelWinner()
    ensures var out := ResolveRound([Picker(1, "r"), Picker(2, "s")]);
      && out[0].points == 2 && !out[0].eliminated
      && out[1].points == 0 && out[1].eliminated
      && GameEndOf(out) == Winner(1)
  {
    var cs := [Picker(1, "r"), Picker(2, "s")];
    assert MapUsers(MapUsers(cs, RememberChoice), EliminateIfMissed) == DuelAfterPicks();
    var d := DuelAfterPicks();
    DuelBattles();
    var out := ResolveRound(cs);
    assert CountIf(out, IsSurvivor) == 1 by {
      assert CountIf(out[..1], IsSurvivor) == 1 by {
        assert CountIf(out[..1][..0], IsSurvivor) == 0;
      }
    }
    assert FirstWhere(out, IsSurvivor) == Some(0);
  }
}
