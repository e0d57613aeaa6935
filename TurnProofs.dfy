/**
 * Properties of `handleTurnAction`: what an accepted pick looks like, that
 * every rejection leaves the room as it was, and the quirks of its checks
 * (spock cannot be stored, the RPS-5 gate looks at the raw token, the
 * cooldown is checked twice, the spectator check is never reached).
 */
module TurnProofs {
  import opened Common
  import opened JavaText
  import opened Sessions
  import opened GameRules

  /** The sender may pick: a ready member, in the game, without a pick, while a round runs. */
  predicate MayPick(st: RoomState, s: nat)
  {
    && s < |st.clients| && st.phase == InProgress
    && st.clients[s].ready && !st.clients[s].eliminated && st.clients[s].choice.None?
  }

  /** For a member who may pick, the outcome rests on the normalised token alone. */
  lemma TokenDecides(st: RoomState, s: nat, token: string)
    requires MayPick(st, s)
    ensures TurnResultOf(st, s, token) == TokenResult(st, st.clients[s].lastChoice, ToLower(Trim(token)))
  {
  }

  /**
   * An accepted pick is the first letter of the trimmed, lower-cased token,
   * one of "r", "p", "s" and "l"; only a member who may pick gets one, and
   * with the cooldown on it differs from the previous round's pick, both
   * as typed and as normalised.
   */
  lemma AcceptedPick(st: RoomState, s: nat, token: string)
    requires TurnResultOf(st, s, token).Picked?
    ensures var c := TurnResultOf(st, s, token).choice;
      var raw := ToLower(Trim(token));
      && MayPick(st, s)
      && IsPick(c) && |raw| > 0 && c == [raw[0]]
      && (st.enableCooldown ==> st.clients[s].lastChoice != Some(c) && st.clients[s].lastChoice != Some(raw))
      && ((raw == "l" || raw == "sp") ==> Rps5Allowed(st))
  {
  }

  /** Every rejected token leaves the whole room, sender included, exactly as it was. */
  lemma RejectionChangesNothing(st: RoomState, s: nat, token: string)
    requires !TurnResultOf(st, s, token).Picked?
    ensures TurnActionState(st, s, token) == st
  {
  }

  /**
   * Unless the pick completes the round, the sender now holds the pick and
   * has taken its turn, and nothing else in the room changes.
   */
  lemma AcceptedPickIsStored(st: RoomState, s: nat, token: string)
    requires TurnResultOf(st, s, token).Picked?
    ensures var c := TurnResultOf(st, s, token).choice;
      var st1 := TurnActionState(st, s, token);
      var picked := st.(clients := st.clients[s := st.clients[s].(choice := Some(c), tookTurn := true)]);
      && (AllPickedState(picked) == picked ==>
            && st1.clients[s] == st.clients[s].(choice := Some(c), tookTurn := true)
            && |st1.clients| == |st.clients|
            && (forall j :: 0 <= j < |st.clients| && j != s ==> st1.clients[j] == st.clients[j])
            && st1.(clients := st.clients) == st)
  {
    var c := TurnResultOf(st, s, token).choice;
    var picked := st.(clients := st.clients[s := st.clients[s].(choice := Some(c), tookTurn := true)]);
    assert TurnActionState(st, s, token) == AllPickedState(picked);
  }

  /** A stored pick is never overwritten: a second pick in the same round is refused. */
  lemma PickNeverOverwritten(st: RoomState, s: nat, token: string)
    requires s < |st.clients| && st.phase == InProgress && st.clients[s].ready && !st.clients[s].eliminated
    requires st.clients[s].choice.Some?
    ensures TurnResultOf(st, s, token) == AlreadyPicked(st.clients[s].choice.value)
    ensures TurnActionState(st, s, token) == st
  {
  }

  /**
   * The spectator notice is never sent: a spectator is a member who is not
   * ready, and the ready check has already refused it.
   */
  lemma SpectatorCheckUnreachable(st: RoomState, s: nat, token: string)
    ensures TurnResultOf(st, s, token) != SpectatorCannotPlay
    ensures s < |st.clients| && st.phase == InProgress && st.clients[s].IsSpectator()
            ==> TurnResultOf(st, s, token) == NotReady
  {
  }

  /** No token is ever stored as spock. */
  lemma SpockNeverStored(st: RoomState, s: nat, token: string)
    ensures TurnResultOf(st, s, token) != Picked("sp")
  {
  }

  /**
   * "sp", "spock" and every other token starting with "sp" is stored as
   * scissors. Only the exact token "sp" meets the RPS-5 gate: "spock" is
   * stored as scissors even with RPS-5 off.
   */
  lemma SpockIsStoredAsScissors(st: RoomState, s: nat, token: string)
    requires MayPick(st, s) && !st.enableCooldown
    requires StartsWith(ToLower(Trim(token)), "sp")
    requires ToLower(Trim(token)) == "sp" ==> Rps5Allowed(st)
    ensures TurnResultOf(st, s, token) == Picked("s")
  {
    TokenDecides(st, s, token);
    var c := ToLower(Trim(token));
    assert c[0] == c[..2][0] == 's';
    assert Normalise(c) == Some("s");
  }

  /**
   * The RPS-5 gate tests the raw token against exactly "l" and "sp": with
   * RPS-5 off "l" is refused, yet "lizard" passes and is stored as "l".
   */
  lemma LizardPassesTheGate(st: RoomState, s: nat)
    requires MayPick(st, s) && !st.enableRps5 && !st.enableCooldown
    ensures TurnResultOf(st, s, "l") == Rps5Disabled(false)
    ensures TurnResultOf(st, s, "lizard") == Picked("l")
  {
    TokenDecides(st, s, "l");
    TokenDecides(st, s, "lizard");
    TokenL();
    TokenLizard();
  }

  /**
   * In final-three mode lizard and spock wait until at most three members
   * remain in play: a token reading "l" once trimmed and lower-cased is
   * refused with the final-three notice before that, and accepted after.
   */
  lemma FinalThreeHoldsBackRps5(st: RoomState, s: nat, token: string)
    requires MayPick(st, s) && st.enableRps5 && st.enableRps5Final3
    requires ToLower(Trim(token)) == "l"
    ensures CountIf(st.clients, IsActive) > 3 ==> TurnResultOf(st, s, token) == Rps5Disabled(true)
    ensures CountIf(st.clients, IsActive) <= 3 && !st.enableCooldown ==> TurnResultOf(st, s, token) == Picked("l")
  {
    TokenDecides(st, s, token);
    if CountIf(st.clients, IsActive) <= 3 && !st.enableCooldown {
      NormaliseL();
    }
  }

  /**
   * The cooldown is checked twice: on the token as typed, and again once it
   * is normalised, with different notices; either way the pick is refused,
   * while a different symbol is accepted.
   */
  lemma CooldownOnTypedToken(st: RoomState, s: nat)
    requires MayPick(st, s) && st.enableCooldown && st.clients[s].lastChoice == Some("r")
    ensures TurnResultOf(st, s, "r") == CooldownRepeat("r")
  {
    TokenDecides(st, s, "r");
    TokenR();
  }

  lemma CooldownOnNormalisedToken(st: RoomState, s: nat)
    requires MayPick(st, s) && st.enableCooldown && st.clients[s].lastChoice == Some("r")
    ensures TurnResultOf(st, s, "rock") == CooldownActive
  {
    TokenDecides(st, s, "rock");
    TokenRock();
  }

  lemma CooldownAllowsOtherSymbol(st: RoomState, s: nat)
    requires MayPick(st, s) && st.enableCooldown && st.clients[s].lastChoice == Some("r")
    ensures TurnResultOf(st, s, "paper") == Picked("p")
  {
    TokenDecides(st, s, "paper");
    TokenPaper();
  }

  // The tokens used below are already trimmed and lower case.

  lemma NormaliseL()
    ensures Normalise("l") == Some("l")
  {
  }

  lemma TokenL()
    ensures ToLower(Trim("l")) == "l"
  {
  }

  lemma TokenLizard()
    ensures ToLower(Trim("lizard")) == "lizard"
  {
  }

  lemma TokenR()
    ensures ToLower(Trim("r")) == "r"
  {
  }

  lemma TokenRock()
    ensures ToLower(Trim("rock")) == "rock"
  {
  }

  lemma TokenPaper()
    ensures ToLower(Trim("paper")) == "paper"
  {
  }
}
