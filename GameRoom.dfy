/**
 * The game room: its phase, round counter, feature flags, timer handles and
 * members, updated in place by the handlers. Every handler is proved to
 * leave the state that the matching function of `GameRules` describes.
 */
module Game {
  import opened Common
  import opened JavaText
  import opened Sessions
  import opened GameRules

  class GameRoom {
    const name: string
    var phase: Phase
    var round: int
    var roundTimerArmed: bool
    var readyTimerArmed: bool
    var enableRps5: bool
    var enableRps5Final3: bool
    var enableCooldown: bool
    var hostId: int
    /** The members in the iteration order of the room's member map. */
    var clients: seq<User>

    /** The abstract state the handlers are specified on. */
    function State(): RoomState
      reads this
    {
      RoomState(phase, round, roundTimerArmed, readyTimerArmed,
                enableRps5, enableRps5Final3, enableCooldown, hostId, clients)
    }

    constructor (name: string, hostId: int)
      ensures this.name == name
      ensures State() == RoomState(Ready, 0, false, false, false, false, false, hostId, [])
      ensures Inv(State())
    {
      this.name := name;
      phase := Ready;
      round := 0;
      roundTimerArmed := false;
      readyTimerArmed := false;
      enableRps5 := false;
      enableRps5Final3 := false;
      enableCooldown := false;
      this.hostId := hostId;
      clients := [];
    }

    /** A client enters the room; `onClientAdded` itself only syncs state to it. */
    method AddClient(u: User)
      requires forall i :: 0 <= i < |clients| ==> clients[i].clientId != u.clientId
      modifies this
      ensures State() == old(State()).(clients := old(clients) + [u])
    {
      clients := clients + [u];
    }

    /**
     * The settings part of `onClientAdded`: the records sent to the newcomer,
     * one per flag, which replayed through `handleSettings` reproduce the
     * room's flags. The phase, ready and points syncs belong to the base room.
     */
    method OnClientAdded() returns (sync: seq<Payload>)
      ensures sync == SettingsSync(State())
    {
      sync := [SettingsPayload("rps5", if enableRps5 then "on" else "off")];
      sync := sync + [SettingsPayload("rps5_final3", if enableRps5Final3 then "on" else "off")];
      sync := sync + [SettingsPayload("cooldown", if enableCooldown then "on" else "off")];
    }

    /** `clientsInRoom.values().forEach(action)`. */
    method ForEachClient(action: User -> User)
      modifies this`clients
      ensures clients == MapUsers(old(clients), action)
      ensures State() == old(State()).(clients := clients)
    {
      var i := 0;
      while i < |clients|
        invariant 0 <= i <= |clients| == |old(clients)|
        invariant forall j :: 0 <= j < i ==> clients[j] == action(old(clients)[j])
        invariant forall j :: i <= j < |clients| ==> clients[j] == old(clients)[j]
      {
        clients := clients[i := action(clients[i])];
        i := i + 1;
      }
    }

    method StartRoundTimer()
      modifies this
      ensures State() == old(State()).(roundTimerArmed := true)
    {
      roundTimerArmed := true;
    }

    /** Cancels the round timer, if any; idempotent. */
    method ResetRoundTimer()
      modifies this
      ensures State() == old(State()).(roundTimerArmed := false)
    {
      if roundTimerArmed {
        roundTimerArmed := false;
      }
    }

    /** Cancels the ready timer of the base room, if any. */
    method ResetReadyTimer()
      modifies this
      ensures State() == old(State()).(readyTimerArmed := false)
    {
      readyTimerArmed := false;
    }

    method OnSessionStart()
      modifies this
      ensures State() == SessionStartState(old(State()))
    {
      phase := InProgress;
      round := 0;
      ForEachClient(ResetElimination);
      OnRoundStart();
    }

    method OnRoundStart()
      modifies this
      ensures State() == RoundStartState(old(State()))
    {
      ResetRoundTimer();
      ForEachClient(ClearTurn);
      round := round + 1;
      StartRoundTimer();
    }

    /**
     * `onRoundEnd`, returning how the round ended (the game-over notice the
     * source broadcasts).
     */
    method OnRoundEnd() returns (ending: GameEnd)
      modifies this
      ensures ending == GameEndOf(ResolveRound(old(clients)))
      ensures State() == RoundEndState(old(State()))
    {
      ResetRoundTimer();
      ForEachClient(RememberChoice);
      ForEachClient(EliminateIfMissed);
      var _ := ProcessBattles();
      ending := GameEndOf(clients);
      if ending != NextRound {
        var _ := OnSessionEnd();
      } else {
        OnRoundStart();
      }
    }

    /**
     * One comparison of `processBattles`: the attacker's pick against the
     * defender's; the winner gains a point and the loser joins the queue.
     */
    method Battle(attacker: nat, defender: nat, queue: seq<nat>) returns (queue': seq<nat>)
      requires attacker < |clients| && defender < |clients|
      requires clients[attacker].choice.Some? && clients[defender].choice.Some?
      modifies this`clients
      ensures (clients, queue') == BattleStep(old(clients), queue, attacker, defender)
      ensures State() == old(State()).(clients := clients)
    {
      queue' := queue;
      var result := CompareChoices(clients[attacker].choice.value, clients[defender].choice.value);
      if result == 1 {
        clients := clients[attacker := clients[attacker].(points := clients[attacker].points + 1)];
        queue' := queue + [defender];
      } else if result == -1 {
        clients := clients[defender := clients[defender].(points := clients[defender].points + 1)];
        queue' := queue + [attacker];
      }
    }

    /**
     * `processBattles`: every eligible member attacks the next one round the
     * cycle; the losers are queued and eliminated afterwards. Returns the
     * members announced as newly eliminated, in announcement order.
     */
    method ProcessBattles() returns (announced: seq<nat>)
      modifies this
      ensures (clients, announced) == Battles(old(clients))
      ensures State() == old(State()).(clients := clients)
    {
      var active := EligibleIndices(clients);
      if |active| < 2 {
        return [];
      }
      var eliminatedThisRound := PlayAll(active);
      announced := EliminateAll(eliminatedThisRound);
    }

    /** The comparison loop of `processBattles`, returning the elimination queue. */
    method PlayAll(active: seq<nat>) returns (eliminatedThisRound: seq<nat>)
      requires BattleReady(clients, active) && |active| >= 2
      modifies this
      ensures (clients, eliminatedThisRound) == PlayRounds(old(clients), active, |active|)
      ensures State() == old(State()).(clients := clients)
    {
      var n := |active|;
      eliminatedThisRound := [];
      var i := 0;
      while i < n
        invariant 0 <= i <= n
        invariant (clients, eliminatedThisRound) == PlayRounds(old(clients), active, i)
        modifies this`clients
      {
        PlayRoundsNext(old(clients), active, i);
        eliminatedThisRound := Battle(active[i], active[(i + 1) % n], eliminatedThisRound);
        i := i + 1;
      }
    }

    /** The elimination loop of `processBattles`, returning the announced members. */
    method EliminateAll(queue: seq<nat>) returns (announced: seq<nat>)
      requires forall j :: 0 <= j < |queue| ==> queue[j] < |clients|
      modifies this
      ensures (clients, announced) == EliminateQueued(old(clients), queue)
      ensures State() == old(State()).(clients := clients)
    {
      announced := [];
      var k := 0;
      while k < |queue|
        invariant 0 <= k <= |queue|
        invariant (clients, announced) == EliminateQueued(old(clients), queue[..k])
        modifies this`clients
      {
        EliminateQueuedNext(old(clients), queue, k);
        announced := Eliminate(queue[k], announced);
        k := k + 1;
      }
      assert queue[..k] == queue;
    }

    /** One step of the elimination loop: a member not yet out is eliminated and announced. */
    method Eliminate(c: nat, announced: seq<nat>) returns (announced': seq<nat>)
      requires c < |clients|
      modifies this`clients
      ensures (clients, announced') == EliminateStep(old(clients), announced, c)
      ensures State() == old(State()).(clients := clients)
    {
      announced' := announced;
      if !clients[c].eliminated {
        clients := clients[c := clients[c].(eliminated := true)];
        announced' := announced + [c];
      }
    }

    /** `onSessionEnd`, returning the scoreboard it broadcasts. */
    method OnSessionEnd() returns (board: seq<ScoreLine>)
      modifies this
      ensures board == Scoreboard(old(clients))
      ensures State() == SessionEndState(old(State()))
    {
      ForEachClient(ClearReady);
      ForEachClient(ClearTurn);
      phase := Ready;
      board := Scoreboard(clients);
      ScoreboardIgnoresFlags(old(clients));
      ForEachClient(ClearPoints);
    }

    /** The round timer's completion callback. */
    method RoundTimerExpired()
      modifies this
      ensures State() == RoundTimerExpiredState(old(State()))
    {
      if roundTimerArmed {
        var _ := OnRoundEnd();
      }
    }

    method CheckAllPicked()
      modifies this
      ensures State() == AllPickedState(old(State()))
    {
      var activeCount := CountIf(clients, IsActive);
      var pickedCount := CountIf(clients, HasPicked);
      if pickedCount >= activeCount && activeCount > 0 {
        var _ := OnRoundEnd();
      }
    }

    /** `onClientRemoved`, run once the member has left the member map. */
    method OnClientRemoved()
      modifies this
      ensures State() == ClientRemovedState(old(State()))
    {
      if |clients| == 0 {
        ResetReadyTimer();
        ResetRoundTimer();
        var _ := OnSessionEnd();
      } else if phase == InProgress {
        CheckAllPicked();
      }
    }

    /** The member at position `s` leaves the room. */
    method RemoveClient(s: nat)
      requires s < |clients|
      modifies this
      ensures State() == ClientRemovedState(old(State()).(clients := old(clients)[..s] + old(clients)[s + 1..]))
    {
      clients := clients[..s] + clients[s + 1..];
      OnClientRemoved();
    }

    /**
     * `handleReady` for the member at position `s`, whose ready flag the
     * base handler left at `readyAfterBase`.
     */
    method HandleReady(s: nat, readyAfterBase: bool)
      requires s < |clients|
      modifies this
      ensures State() == ReadyCheckState(old(State()), s, readyAfterBase)
    {
      clients := clients[s := clients[s].(ready := readyAfterBase)];
      if clients[s].IsSpectator() {
        clients := clients[s := clients[s].(ready := false)];
        return;
      }
      var numReady := CountIf(clients, IsReadyMember);
      var numPlayers := |clients|;
      if numReady == numPlayers && numReady >= MinimumRequiredToStart {
        ResetReadyTimer();
        OnSessionStart();
      }
    }

    /** `handleTurnAction` for the member at position `s` (out of range: not a member). */
    method HandleTurnAction(s: nat, token: string) returns (result: TurnResult)
      modifies this
      ensures result == TurnResultOf(old(State()), s, token)
      ensures State() == TurnActionState(old(State()), s, token)
      ensures !result.Picked? ==> State() == old(State())
    {
      ghost var before := State();
      result := CheckTurn(s, token);
      if result.Picked? {
        var c := result.choice;
        ghost var picked := before.(clients := before.clients[s := before.clients[s].(choice := Some(c), tookTurn := true)]);
        assert TurnActionState(before, s, token) == AllPickedState(picked);
        clients := clients[s := clients[s].(choice := Some(c))];
        clients := clients[s := clients[s].(tookTurn := true)];
        assert State() == picked;
        CheckAllPicked();
      }
    }

    /**
     * The checks of `handleTurnAction`, in the order the handler makes them;
     * the first one that fails decides the notice and nothing is stored.
     */
    method CheckTurn(s: nat, token: string) returns (result: TurnResult)
      ensures result == TurnResultOf(State(), s, token)
      ensures result.Picked? ==> s < |clients| && IsPick(result.choice)
    {
      if s >= |clients| {
        return NotInRoom;
      }
      if phase != InProgress {
        return WrongPhase;
      }
      var u := clients[s];
      if !u.ready {
        return NotReady;
      }
      if u.eliminated {
        return AlreadyEliminated;
      }
      if u.choice.Some? {
        return AlreadyPicked(u.choice.value);
      }
      if u.IsSpectator() {
        return SpectatorCannotPlay;
      }
      result := CheckToken(u.lastChoice, ToLower(Trim(token)));
    }

    /**
     * The checks of `handleTurnAction` on the trimmed, lower-cased token `c`
     * of a member whose previous pick was `last`.
     */
    method CheckToken(last: Option<string>, c: string) returns (result: TurnResult)
      ensures result == TokenResult(State(), last, c)
      ensures result.Picked? ==> IsPick(result.choice)
    {
      var c := c;
      var isRps5Allowed := enableRps5;
      if isRps5Allowed && enableRps5Final3 {
        var activeCount := CountIf(clients, IsActive);
        if activeCount > 3 {
          isRps5Allowed := false;
        }
      }
      if !isRps5Allowed && (c == "l" || c == "sp") {
        return Rps5Disabled(enableRps5 && enableRps5Final3);
      }
      if enableCooldown && last == Some(c) {
        return CooldownRepeat(c);
      }
      var normalised := Normalise(c);
      if normalised.None? {
        return InvalidChoice;
      }
      c := normalised.value;
      if enableCooldown && last == Some(c) {
        return CooldownActive;
      }
      result := Picked(c);
    }

    /** `handleSettings` for the member at position `s`. */
    method HandleSettings(s: nat, command: string) returns (result: SettingsResult)
      requires s < |clients|
      modifies this
      ensures result == SettingsResultOf(old(State()), s, command)
      ensures State() == SettingsState(old(State()), s, command)
    {
      if clients[s].clientId != hostId && !StartsWith(command, "away") && !StartsWith(command, "spectator") {
        return NotHost;
      }
      var parts := Split(command);
      if |parts| == 0 {
        return NoParts;
      }
      result := ApplySetting(s, parts);
    }

    /** The switch of `handleSettings` on the first word of the command. */
    method ApplySetting(s: nat, parts: seq<string>) returns (result: SettingsResult)
      requires s < |clients| && |parts| >= 1
      modifies this
      ensures result == SettingResult(old(State()), s, parts)
      ensures State() == SettingsEffect(old(State()), s, result)
    {
      var key := ToLower(parts[0]);
      if key == "rps5" {
        if |parts| > 1 {
          enableRps5 := IsOn(parts[1]);
          return FlagSet(key, enableRps5);
        }
        return MissingValue(key);
      } else if key == "rps5_final3" {
        if |parts| > 1 {
          enableRps5Final3 := IsOn(parts[1]);
          return FlagSet(key, enableRps5Final3);
        }
        return MissingValue(key);
      } else if key == "cooldown" {
        if |parts| > 1 {
          enableCooldown := IsOn(parts[1]);
          return FlagSet(key, enableCooldown);
        }
        return MissingValue(key);
      } else if key == "away" {
        var isAway := !clients[s].away;
        if |parts| > 1 {
          isAway := IsOn(parts[1]);
        }
        clients := clients[s := clients[s].(away := isAway)];
        return AwaySet(isAway);
      }
      return UnknownKey(key);
    }
  }
}
