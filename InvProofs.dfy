/**
 * The room invariant `Inv` holds from construction on: every handler that
 * can run in a state satisfying it leaves a state satisfying it.
 */
module InvProofs {
  import opened Common
  import opened Sessions
  import opened GameRules
  import opened RoundProofs

  /** Session start needs nothing: it resets everything the invariant is about. */
  lemma SessionStartEstablishesInv(st: RoomState)
    ensures Inv(SessionStartState(st))
  {
    SessionStartResets(st);
  }

  /** Round resolution stores only picks as cooldown memories. */
  lemma ResolveRoundKeepsPicksWellFormed(cs: seq<User>)
    requires forall i :: 0 <= i < |cs| ==> PicksWellFormed(cs[i])
    ensures forall i :: 0 <= i < |ResolveRound(cs)| ==> PicksWellFormed(ResolveRound(cs)[i])
  {
    forall i | 0 <= i < |cs|
      ensures PicksWellFormed(ResolveRound(cs)[i])
    {
      ResolveRoundMember(cs, i);
    }
  }

  lemma RoundEndKeepsInv(st: RoomState)
    requires Inv(st) && st.phase == InProgress
    ensures Inv(RoundEndState(st))
  {
    ResolveRoundKeepsPicksWellFormed(st.clients);
    var cs := ResolveRound(st.clients);
    if GameEndOf(cs) != NextRound {
      SessionEndResets(st.(roundTimerArmed := false, clients := cs));
    } else {
      RoundEndStartsNextRound(st);
    }
  }

  /** An armed round timer only exists while a session runs, so its expiry keeps the invariant. */
  lemma RoundTimerExpiryKeepsInv(st: RoomState)
    requires Inv(st)
    ensures Inv(RoundTimerExpiredState(st))
  {
    if st.roundTimerArmed {
      RoundEndKeepsInv(st);
    }
  }

  /**
   * Between sessions nobody holds a pick, so the early-end check cannot
   * fire; during one it keeps the invariant as round end does.
   */
  lemma AllPickedKeepsInv(st: RoomState)
    requires Inv(st)
    ensures st.phase == Ready ==> AllPickedState(st) == st
    ensures Inv(AllPickedState(st))
  {
    if st.phase == Ready {
      CountIfZeroIffNone(st.clients, HasPicked);
    } else {
      RoundEndKeepsInv(st);
    }
  }

  lemma TurnActionKeepsInv(st: RoomState, s: nat, token: string)
    requires Inv(st)
    ensures Inv(TurnActionState(st, s, token))
  {
    var r := TurnResultOf(st, s, token);
    if r.Picked? {
      var picked := st.(clients := st.clients[s := st.clients[s].(choice := Some(r.choice), tookTurn := true)]);
      assert Inv(picked);
      AllPickedKeepsInv(picked);
    }
  }

  lemma ReadyCheckKeepsInv(st: RoomState, s: nat, readyAfterBase: bool)
    requires Inv(st) && s < |st.clients|
    ensures Inv(ReadyCheckState(st, s, readyAfterBase))
  {
    var cs := st.clients[s := st.clients[s].(ready := readyAfterBase)];
    SessionStartEstablishesInv(st.(clients := cs, readyTimerArmed := false));
  }

  /** The away status is not mentioned by the invariant. */
  lemma AwayKeepsInv(st: RoomState, s: nat, isAway: bool)
    requires Inv(st) && s < |st.clients|
    ensures Inv(st.(clients := st.clients[s := st.clients[s].(away := isAway)]))
  {
    var cs := st.clients[s := st.clients[s].(away := isAway)];
    assert forall i :: 0 <= i < |cs| ==>
      (cs[i].choice == st.clients[i].choice && cs[i].lastChoice == st.clients[i].lastChoice);
  }

  /** Settings touch only the flags and the sender's away status. */
  lemma SettingsEffectKeepsInv(st: RoomState, s: nat, result: SettingsResult)
    requires Inv(st) && s < |st.clients|
    ensures Inv(SettingsEffect(st, s, result))
  {
    if result.AwaySet? {
      AwayKeepsInv(st, s, result.isAway);
    }
  }

  lemma SettingsKeepInv(st: RoomState, s: nat, command: string)
    requires Inv(st) && s < |st.clients|
    ensures Inv(SettingsState(st, s, command))
  {
    SettingsEffectKeepsInv(st, s, SettingsResultOf(st, s, command));
  }

  /** Removing a member, and the follow-up of `onClientRemoved`, keep the invariant. */
  lemma ClientRemovalKeepsInv(st: RoomState, s: nat)
    requires Inv(st) && s < |st.clients|
    ensures Inv(ClientRemovedState(st.(clients := st.clients[..s] + st.clients[s + 1..])))
  {
    var st1 := st.(clients := st.clients[..s] + st.clients[s + 1..]);
    assert forall i :: 0 <= i < |st1.clients| ==> st1.clients[i] == st.clients[if i < s then i else i + 1];
    assert Inv(st1);
    if |st1.clients| > 0 && st1.phase == InProgress {
      AllPickedKeepsInv(st1);
    }
  }

  /** A newcomer keeps the invariant when it holds no pick between sessions. */
  lemma AddClientKeepsInv(st: RoomState, u: User)
    requires Inv(st) && PicksWellFormed(u) && (st.phase == Ready ==> u.choice.None?)
    ensures Inv(st.(clients := st.clients + [u]))
  {
  }
}
