/**
 * Properties of the round and session lifecycle: how a round is resolved
 * member by member, when the game is over and who wins, and what session
 * start, session end and the ready check reset.
 */
module RoundProofs {
  import opened Common
  import opened Sessions
  import opened GameRules
  import opened BattleProofs

  // ---------------------------------------------------------------------
  // Counting members
  // ---------------------------------------------------------------------

  /** No member is counted exactly when none satisfies the filter. */
  lemma {:induction false} CountIfZeroIffNone(cs: seq<User>, p: User -> bool)
    ensures CountIf(cs, p) == 0 <==> forall i :: 0 <= i < |cs| ==> !p(cs[i])
    decreases |cs|
  {
    if |cs| > 0 {
      CountIfZeroIffNone(cs[..|cs| - 1], p);
      assert forall i :: 0 <= i < |cs| - 1 ==> cs[..|cs| - 1][i] == cs[i];
    }
  }

  /** Every member is counted exactly when all satisfy the filter. */
  lemma {:induction false} CountIfAllIffEvery(cs: seq<User>, p: User -> bool)
    ensures CountIf(cs, p) == |cs| <==> forall i :: 0 <= i < |cs| ==> p(cs[i])
    decreases |cs|
  {
    if |cs| > 0 {
      CountIfAllIffEvery(cs[..|cs| - 1], p);
      assert forall i :: 0 <= i < |cs| - 1 ==> cs[..|cs| - 1][i] == cs[i];
    }
  }

  /** Two distinct members that satisfy the filter count at least twice. */
  lemma {:induction false} CountIfTwo(cs: seq<User>, p: User -> bool, i: nat, j: nat)
    requires i < j < |cs| && p(cs[i]) && p(cs[j])
    ensures CountIf(cs, p) >= 2
    decreases |cs|
  {
    var front := cs[..|cs| - 1];
    if j < |cs| - 1 {
      assert front[i] == cs[i] && front[j] == cs[j];
      CountIfTwo(front, p, i, j);
    } else {
      assert front[i] == cs[i];
      CountIfZeroIffNone(front, p);
    }
  }

  // ---------------------------------------------------------------------
  // Game over
  // ---------------------------------------------------------------------

  /**
   * A game won has exactly one survivor, and the winner is that survivor;
   * the "Unknown" winner of the announcement never occurs.
   */
  lemma WinnerIsSoleSurvivor(cs: seq<User>)
    ensures GameEndOf(cs) != WinnerUnknown
    ensures GameEndOf(cs).Winner? <==> CountIf(cs, IsSurvivor) == 1
    ensures GameEndOf(cs).Winner? ==>
      exists i :: 0 <= i < |cs| && IsSurvivor(cs[i]) && cs[i].clientId == GameEndOf(cs).clientId
        && forall j :: 0 <= j < |cs| && j != i ==> !IsSurvivor(cs[j])
  {
    CountIfZeroIffNone(cs, IsSurvivor);
    if CountIf(cs, IsSurvivor) == 1 {
      var i := FirstWhere(cs, IsSurvivor).value;
      forall j | 0 <= j < |cs| && j != i
        ensures !IsSurvivor(cs[j])
      {
        if IsSurvivor(cs[j]) {
          if j < i {
            assert false;
          } else {
            CountIfTwo(cs, IsSurvivor, i, j);
          }
        }
      }
    }
  }

  /** A tie is called exactly when the room has members and none of them survived. */
  lemma TieMeansNobodySurvived(cs: seq<User>)
    ensures GameEndOf(cs) == Tie <==> |cs| > 0 && forall i :: 0 <= i < |cs| ==> !IsSurvivor(cs[i])
  {
    CountIfZeroIffNone(cs, IsSurvivor);
  }

  /** The game goes on exactly while two or more members survive, or the room is empty. */
  lemma NextRoundIffSeveralSurvive(cs: seq<User>)
    ensures GameEndOf(cs) == NextRound <==> CountIf(cs, IsSurvivor) >= 2 || |cs| == 0
  {
    CountIfZeroIffNone(cs, IsSurvivor);
    WinnerIsSoleSurvivor(cs);
  }

  // ---------------------------------------------------------------------
  // Round resolution
  // ---------------------------------------------------------------------

  /**
   * What `onRoundEnd` does to one member before the game-over check: a pick
   * becomes the cooldown memory (no pick keeps the old one), a member in
   * the game that neither picked nor is away is eliminated, and battles
   * only add points and eliminate. Nobody is ever revived, and ready, away,
   * pick and identity are untouched.
   */
  lemma ResolveRoundMember(cs: seq<User>, i: nat)
    requires i < |cs|
    ensures var r := ResolveRound(cs)[i];
      r == cs[i].(lastChoice := r.lastChoice, eliminated := r.eliminated, points := r.points)
    ensures ResolveRound(cs)[i].lastChoice == if cs[i].choice.Some? then cs[i].choice else cs[i].lastChoice
    ensures cs[i].eliminated ==> ResolveRound(cs)[i].eliminated
    ensures MissedPick(cs[i]) ==> ResolveRound(cs)[i].eliminated
    ensures ResolveRound(cs)[i].points >= cs[i].points
    ensures !IsEligible(cs[i]) ==> ResolveRound(cs)[i].points == cs[i].points
  {
    var prepared := MapUsers(MapUsers(cs, RememberChoice), EliminateIfMissed);
    assert prepared[i] == EliminateIfMissed(RememberChoice(cs[i]));
    BattlesOnlyScoreAndEliminate(prepared);
    var act := EligibleIndices(prepared);
    if |act| >= 2 {
      BattleOfMember(prepared, i);
    }
    if !IsEligible(prepared[i]) {
      BattlesSpareTheIneligible(prepared, i);
    }
  }

  /**
   * An away member who is still in the game is neither eliminated for not
   * picking nor drawn into a battle, so it survives the round with its
   * points; it is counted as a survivor at the game-over check.
   */
  lemma AwayMemberSurvivesRound(cs: seq<User>, i: nat)
    requires i < |cs| && cs[i].away && IsSurvivor(cs[i])
    ensures IsSurvivor(ResolveRound(cs)[i])
    ensures ResolveRound(cs)[i].points == cs[i].points
  {
    var prepared := MapUsers(MapUsers(cs, RememberChoice), EliminateIfMissed);
    assert prepared[i] == RememberChoice(cs[i]);
    BattlesSpareTheIneligible(prepared, i);
  }

  // ---------------------------------------------------------------------
  // Round end and the early-end check
  // ---------------------------------------------------------------------

  /**
   * `onRoundEnd` ends the session exactly when the game is over, and then
   * every member leaves with no pick, no turn, not ready and no points.
   */
  lemma RoundEndEndsSessionWhenOver(st: RoomState)
    requires st.phase == InProgress
    ensures var out := RoundEndState(st);
      out.phase == Ready <==> GameEndOf(ResolveRound(st.clients)) != NextRound
    ensures var out := RoundEndState(st);
      GameEndOf(ResolveRound(st.clients)) != NextRound ==>
        && !out.roundTimerArmed
        && |out.clients| == |st.clients|
        && forall i :: 0 <= i < |out.clients| ==>
             && out.clients[i].choice.None? && !out.clients[i].tookTurn
             && !out.clients[i].ready && out.clients[i].points == 0
  {
  }

  /**
   * Otherwise the next round starts: the counter goes up by one, the round
   * timer is armed again, and every pick and turn flag is cleared while the
   * members keep the rest of their resolved records.
   */
  lemma RoundEndStartsNextRound(st: RoomState)
    requires GameEndOf(ResolveRound(st.clients)) == NextRound
    ensures var out := RoundEndState(st);
      && out.phase == st.phase && out.round == st.round + 1 && out.roundTimerArmed
      && |out.clients| == |st.clients|
      && forall i :: 0 <= i < |out.clients| ==>
           out.clients[i] == ResolveRound(st.clients)[i].(choice := None, tookTurn := false)
  {
  }

  /** A filter that holds wherever another holds counts at least as many members. */
  lemma {:induction false} CountIfMonotone(cs: seq<User>, p: User -> bool, q: User -> bool)
    requires forall i :: 0 <= i < |cs| ==> p(cs[i]) ==> q(cs[i])
    ensures CountIf(cs, p) <= CountIf(cs, q)
    decreases |cs|
  {
    if |cs| > 0 {
      assert forall i :: 0 <= i < |cs| - 1 ==> cs[..|cs| - 1][i] == cs[i];
      CountIfMonotone(cs[..|cs| - 1], p, q);
    }
  }

  /**
   * The round ends early once every member expected to pick has picked,
   * provided there is one; with nobody expected to pick it never does.
   */
  lemma AllPickedFiresWhenAllPicked(st: RoomState)
    ensures (exists i :: 0 <= i < |st.clients| && IsActive(st.clients[i]))
            && (forall i :: 0 <= i < |st.clients| && IsActive(st.clients[i]) ==> st.clients[i].choice.Some?)
            ==> AllPickedState(st) == RoundEndState(st)
    ensures (forall i :: 0 <= i < |st.clients| ==> !IsActive(st.clients[i])) ==> AllPickedState(st) == st
  {
    CountIfZeroIffNone(st.clients, IsActive);
    if forall i :: 0 <= i < |st.clients| && IsActive(st.clients[i]) ==> st.clients[i].choice.Some? {
      CountIfMonotone(st.clients, IsActive, HasPicked);
    }
  }

  /**
   * The early-end check compares two counts rather than members: the pick
   * of an away member makes up for a member still expected to pick, and
   * the round ends before that member has picked.
   */
  lemma AwayPickEndsRoundEarly()
    ensures var waiting := User(1, "", true, false, false, None, None, false, 0);
      var away := User(2, "", true, true, false, Some("r"), None, true, 0);
      var st := RoomState(InProgress, 1, true, false, false, false, false, 1, [waiting, away]);
      IsActive(waiting) && waiting.choice.None? && AllPickedState(st) == RoundEndState(st)
  {
    var waiting := User(1, "", true, false, false, None, None, false, 0);
    var away := User(2, "", true, true, false, Some("r"), None, true, 0);
    var cs := [waiting, away];
    assert cs[..1] == [waiting];
    assert CountIf(cs, IsActive) == 1;
    assert CountIf(cs, HasPicked) == 1;
  }

  // ---------------------------------------------------------------------
  // Sessions
  // ---------------------------------------------------------------------

  /**
   * `onSessionStart` followed by its first `onRoundStart`: in progress at
   * round 1 with the round timer armed, every elimination, cooldown memory,
   * pick and turn flag cleared; ready, away and points are kept.
   */
  lemma SessionStartResets(st: RoomState)
    ensures var out := SessionStartState(st);
      && out.phase == InProgress && out.round == 1 && out.roundTimerArmed
      && |out.clients| == |st.clients|
      && forall i :: 0 <= i < |out.clients| ==>
           out.clients[i] == st.clients[i].(eliminated := false, lastChoice := None, choice := None, tookTurn := false)
  {
  }

  /**
   * `onSessionEnd`: back to the ready phase with every ready flag, pick,
   * turn flag and score reset; eliminations, cooldown memories and away
   * flags are kept until the next session starts.
   */
  lemma SessionEndResets(st: RoomState)
    ensures var out := SessionEndState(st);
      && out.phase == Ready && out.round == st.round && out.roundTimerArmed == st.roundTimerArmed
      && |out.clients| == |st.clients|
      && forall i :: 0 <= i < |out.clients| ==>
           out.clients[i] == st.clients[i].(ready := false, choice := None, tookTurn := false, points := 0)
  {
  }

  // ---------------------------------------------------------------------
  // The ready check
  // ---------------------------------------------------------------------

  /**
   * `handleReady` starts the session exactly when the sender ended up
   * ready, every member is ready and the room holds at least the minimum;
   * the ready timer is then cancelled. Otherwise only the sender's ready
   * flag changes.
   */
  lemma ReadyCheckStartsWhenAllReady(st: RoomState, s: nat, readyAfterBase: bool)
    requires s < |st.clients|
    ensures var cs := st.clients[s := st.clients[s].(ready := readyAfterBase)];
      var starts := readyAfterBase && (forall i :: 0 <= i < |cs| ==> cs[i].ready) && |cs| >= MinimumRequiredToStart;
      && (starts ==> ReadyCheckState(st, s, readyAfterBase) == SessionStartState(st.(clients := cs, readyTimerArmed := false)))
      && (!starts ==> ReadyCheckState(st, s, readyAfterBase) == st.(clients := cs))
  {
    var cs := st.clients[s := st.clients[s].(ready := readyAfterBase)];
    CountIfAllIffEvery(cs, IsReadyMember);
  }
}
