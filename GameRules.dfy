/**
 * The rules of the elimination game as functions of the room's state: the
 * beats table, the normalisation of a pick, the battle resolution, and one
 * function per handler of the game room giving the state that handler
 * leaves behind. The `GameRoom` class in module `Game` is proved to follow
 * these functions, and the lemmas of the proof modules (`BattleProofs`,
 * `RoundProofs`, `TurnProofs`, `SettingsProofs`, `ScoreProofs`, `RulesProofs`,
 * `InvProofs`) are proved about them.
 */
module GameRules {
  import opened Common
  import opened JavaText
  import opened Sessions

  /** The smallest room that a ready check may start (a base-room constant). */
  const MinimumRequiredToStart: nat := 2

  // ---------------------------------------------------------------------
  // Symbols
  // ---------------------------------------------------------------------

  /** The five symbols the beats table knows. */
  predicate IsSymbol(c: string)
  {
    c == "r" || c == "p" || c == "s" || c == "l" || c == "sp"
  }

  /** The four symbols a pick can actually be stored as. */
  predicate IsPick(c: string)
  {
    c == "r" || c == "p" || c == "s" || c == "l"
  }

  /**
   * The extended rock-paper-scissors beats table: rock crushes scissors and
   * lizard, paper covers rock and disproves spock, scissors cut paper and
   * decapitate lizard, lizard poisons spock and eats paper, spock smashes
   * scissors and vaporises rock.
   */
  const BeatsTable: set<(string, string)> :=
    {("r", "s"), ("r", "l"), ("p", "r"), ("p", "sp"), ("s", "p"),
     ("s", "l"), ("l", "sp"), ("l", "p"), ("sp", "s"), ("sp", "r")}

  /**
   * `compareChoices`: 1 when the first symbol wins, -1 when the second
   * wins, 0 on a tie. A known first symbol loses to anything it does not
   * beat, an unknown one included; an unknown first symbol always ties.
   */
  function CompareChoices(p1: string, p2: string): (r: int)
    ensures r == 1 || r == 0 || r == -1
    ensures p1 == p2 ==> r == 0
    ensures IsSymbol(p1) && IsSymbol(p2) ==> (r == 1 <==> (p1, p2) in BeatsTable)
    ensures IsSymbol(p1) && IsSymbol(p2) ==> (r == -1 <==> (p2, p1) in BeatsTable)
    ensures IsSymbol(p1) && IsSymbol(p2) ==> (r == 0 <==> p1 == p2)
    ensures IsSymbol(p1) && !IsSymbol(p2) ==> r == -1
    ensures !IsSymbol(p1) ==> r == 0
  {
    if p1 == p2 then 0
    else if p1 == "r" then (if p2 == "s" || p2 == "l" then 1 else -1)
    else if p1 == "p" then (if p2 == "r" || p2 == "sp" then 1 else -1)
    else if p1 == "s" then (if p2 == "p" || p2 == "l" then 1 else -1)
    else if p1 == "l" then (if p2 == "sp" || p2 == "p" then 1 else -1)
    else if p1 == "sp" then (if p2 == "s" || p2 == "r" then 1 else -1)
    else 0
  }

  /**
   * The prefix mapping of a trimmed, lower-cased token. The prefix "s" is
   * checked before "sp", so the spock branch is never taken and every
   * accepted token becomes its own first letter.
   */
  function Normalise(c: string): (r: Option<string>)
    ensures r.Some? <==> |c| > 0 && (c[0] == 'r' || c[0] == 'p' || c[0] == 's' || c[0] == 'l')
    ensures r.Some? ==> r.value == [c[0]] && IsPick(r.value)
    ensures r != Some("sp")
  {
    if StartsWith(c, "r") then Some("r")
    else if StartsWith(c, "p") then Some("p")
    else if StartsWith(c, "s") then Some("s")
    else if StartsWith(c, "l") then Some("l")
    else if StartsWith(c, "sp") then Some("sp")
    else None
  }

  // ---------------------------------------------------------------------
  // Room state and the member filters the handlers use
  // ---------------------------------------------------------------------

  /**
   * The state of one game room: the fields of the room itself and its
   * members in iteration order. `roundTimerArmed` and `readyTimerArmed`
   * stand for the timer handles being non-null.
   */
  datatype RoomState = RoomState(
    phase: Phase,
    round: int,
    roundTimerArmed: bool,
    readyTimerArmed: bool,
    enableRps5: bool,
    enableRps5Final3: bool,
    enableCooldown: bool,
    hostId: int,
    clients: seq<User>)

  /** Counted at round end: still in the game. */
  predicate IsSurvivor(u: User)
  {
    !u.eliminated && !u.IsSpectator()
  }

  /** Expected to pick: still in the game and not away. */
  predicate IsActive(u: User)
  {
    !u.eliminated && !u.away && !u.IsSpectator()
  }

  /** Counted as having picked by the early round-end check. */
  predicate HasPicked(u: User)
  {
    !u.eliminated && u.choice.Some?
  }

  /** Takes part in this round's battles. */
  predicate IsEligible(u: User)
  {
    !u.eliminated && u.choice.Some? && !u.away && !u.IsSpectator()
  }

  /** Eliminated at round end for not picking. */
  predicate MissedPick(u: User)
  {
    !u.eliminated && u.choice.None? && !u.away && !u.IsSpectator()
  }

  predicate IsReadyMember(u: User)
  {
    u.ready
  }

  /** The number of members that satisfy `p` (a stream filter and count). */
  function CountIf(cs: seq<User>, p: User -> bool): (n: nat)
    ensures n <= |cs|
    decreases |cs|
  {
    if |cs| == 0 then 0 else CountIf(cs[..|cs| - 1], p) + (if p(cs[|cs| - 1]) then 1 else 0)
  }

  /** The members after `forEach` applied `f` to each of them. */
  function MapUsers(cs: seq<User>, f: User -> User): (r: seq<User>)
    ensures |r| == |cs|
    ensures forall i :: 0 <= i < |cs| ==> r[i] == f(cs[i])
  {
    seq(|cs|, i requires 0 <= i < |cs| => f(cs[i]))
  }

  function ClearTurn(u: User): User
  {
    u.(choice := None, tookTurn := false)
  }

  function ResetElimination(u: User): User
  {
    u.(eliminated := false, lastChoice := None)
  }

  function RememberChoice(u: User): User
  {
    if u.choice.Some? then u.(lastChoice := u.choice) else u
  }

  function EliminateIfMissed(u: User): User
  {
    if MissedPick(u) then u.(eliminated := true) else u
  }

  function ClearReady(u: User): User
  {
    u.(ready := false)
  }

  function ClearPoints(u: User): User
  {
    u.(points := 0)
  }

  // ---------------------------------------------------------------------
  // Battles
  // ---------------------------------------------------------------------

  /** The positions of the battle-eligible members, in iteration order. */
  function EligibleIndices(cs: seq<User>): (act: seq<nat>)
    ensures forall j :: 0 <= j < |act| ==> act[j] < |cs| && IsEligible(cs[act[j]])
    decreases |cs|
  {
    if |cs| == 0 then []
    else
      var front := cs[..|cs| - 1];
      var act := EligibleIndices(front);
      assert forall i :: 0 <= i < |front| ==> front[i] == cs[i];
      act + (if IsEligible(cs[|cs| - 1]) then [|cs| - 1] else [])
  }

  /** The battle list points at members that hold a pick. */
  predicate BattleReady(cs: seq<User>, act: seq<nat>)
  {
    forall j :: 0 <= j < |act| ==> act[j] < |cs| && cs[act[j]].choice.Some?
  }

  predicate Distinct(xs: seq<nat>)
  {
    forall j, k :: 0 <= j < k < |xs| ==> xs[j] != xs[k]
  }

  /** The defender of comparison `j`: the next member of the cycle. */
  function DefenderOf(act: seq<nat>, j: nat): nat
    requires j < |act|
  {
    act[(j + 1) % |act|]
  }

  /** The outcome of comparison `j` of the round. */
  function Verdict(cs: seq<User>, act: seq<nat>, j: nat): int
    requires BattleReady(cs, act) && j < |act|
  {
    CompareChoices(cs[act[j]].choice.value, cs[DefenderOf(act, j)].choice.value)
  }

  /** Who gains the point of comparison `j`, if it is decisive. */
  function WinnerOf(cs: seq<User>, act: seq<nat>, j: nat): Option<nat>
    requires BattleReady(cs, act) && j < |act|
  {
    var v := Verdict(cs, act, j);
    if v == 1 then Some(act[j]) else if v == -1 then Some(DefenderOf(act, j)) else None
  }

  /** Who is queued for elimination by comparison `j`, if it is decisive. */
  function LoserOf(cs: seq<User>, act: seq<nat>, j: nat): Option<nat>
    requires BattleReady(cs, act) && j < |act|
  {
    var v := Verdict(cs, act, j);
    if v == 1 then Some(DefenderOf(act, j)) else if v == -1 then Some(act[j]) else None
  }

  /**
   * Applies the verdict of one comparison between `attacker` and `defender`:
   * the winner gains a point and the loser joins the elimination queue; a
   * draw changes nothing.
   */
  function Award(cur: seq<User>, queue: seq<nat>, attacker: nat, defender: nat, verdict: int): (res: (seq<User>, seq<nat>))
    requires attacker < |cur| && defender < |cur|
  {
    if verdict == 1 then
      (cur[attacker := cur[attacker].(points := cur[attacker].points + 1)], queue + [defender])
    else if verdict == -1 then
      (cur[defender := cur[defender].(points := cur[defender].points + 1)], queue + [attacker])
    else
      (cur, queue)
  }

  /** One comparison of the battle loop, judged on the picks the members hold now. */
  function BattleStep(cur: seq<User>, queue: seq<nat>, attacker: nat, defender: nat): (res: (seq<User>, seq<nat>))
    requires attacker < |cur| && defender < |cur|
    requires cur[attacker].choice.Some? && cur[defender].choice.Some?
  {
    Award(cur, queue, attacker, defender, CompareChoices(cur[attacker].choice.value, cur[defender].choice.value))
  }

  /**
   * The first `k` comparisons of the battle loop: the members with the
   * points gained so far, and the elimination queue. Every comparison is
   * judged on the picks held when the round ended.
   */
  function PlayRounds(cs: seq<User>, act: seq<nat>, k: nat): (res: (seq<User>, seq<nat>))
    requires BattleReady(cs, act) && k <= |act|
    ensures |res.0| == |cs|
    ensures forall j :: 0 <= j < |res.1| ==> res.1[j] < |cs|
    decreases k
  {
    if k == 0 then (cs, [])
    else
      var prev := PlayRounds(cs, act, k - 1);
      Award(prev.0, prev.1, act[k - 1], DefenderOf(act, k - 1), Verdict(cs, act, k - 1))
  }

  /** A comparison changes nothing but points. */
  lemma AwardKeepsAllButPoints(cur: seq<User>, queue: seq<nat>, attacker: nat, defender: nat, verdict: int)
    requires attacker < |cur| && defender < |cur|
    ensures |Award(cur, queue, attacker, defender, verdict).0| == |cur|
    ensures forall i :: 0 <= i < |cur| ==>
      Award(cur, queue, attacker, defender, verdict).0[i] == cur[i].(points := Award(cur, queue, attacker, defender, verdict).0[i].points)
  {
  }

  /** While the battle loop runs only points change, so every pick is kept. */
  lemma {:induction false} PlayRoundsKeepsPicks(cs: seq<User>, act: seq<nat>, k: nat)
    requires BattleReady(cs, act) && k <= |act|
    ensures forall i :: 0 <= i < |cs| ==> PlayRounds(cs, act, k).0[i] == cs[i].(points := PlayRounds(cs, act, k).0[i].points)
    decreases k
  {
    if k > 0 {
      PlayRoundsKeepsPicks(cs, act, k - 1);
      var prev := PlayRounds(cs, act, k - 1);
      AwardKeepsAllButPoints(prev.0, prev.1, act[k - 1], DefenderOf(act, k - 1), Verdict(cs, act, k - 1));
    }
  }

  /**
   * The battle loop one comparison further, judged on the picks the members
   * hold at that point, exactly as the loop does.
   */
  lemma PlayRoundsNext(cs: seq<User>, act: seq<nat>, k: nat)
    requires BattleReady(cs, act) && k < |act|
    ensures PlayRounds(cs, act, k).0[act[k]].choice.Some?
    ensures PlayRounds(cs, act, k).0[act[(k + 1) % |act|]].choice.Some?
    ensures PlayRounds(cs, act, k + 1) ==
      BattleStep(PlayRounds(cs, act, k).0, PlayRounds(cs, act, k).1, act[k], act[(k + 1) % |act|])
  {
    PlayRoundsKeepsPicks(cs, act, k);
  }

  /** Eliminates queued member `x` unless it already is; a fresh elimination is announced. */
  function EliminateStep(cur: seq<User>, announced: seq<nat>, x: nat): (res: (seq<User>, seq<nat>))
    requires x < |cur|
  {
    if !cur[x].eliminated then (cur[x := cur[x].(eliminated := true)], announced + [x])
    else (cur, announced)
  }

  /**
   * Applying the queued eliminations in queue order: the members afterwards,
   * and the members announced as newly eliminated.
   */
  function EliminateQueued(cs: seq<User>, queue: seq<nat>): (res: (seq<User>, seq<nat>))
    requires forall j :: 0 <= j < |queue| ==> queue[j] < |cs|
    ensures |res.0| == |cs|
    decreases |queue|
  {
    if |queue| == 0 then (cs, [])
    else
      var prev := EliminateQueued(cs, queue[..|queue| - 1]);
      EliminateStep(prev.0, prev.1, queue[|queue| - 1])
  }

  /** The elimination loop one queued member further. */
  lemma EliminateQueuedNext(cs: seq<User>, queue: seq<nat>, k: nat)
    requires forall j :: 0 <= j < |queue| ==> queue[j] < |cs|
    requires k < |queue|
    ensures EliminateQueued(cs, queue[..k + 1]) ==
      EliminateStep(EliminateQueued(cs, queue[..k]).0, EliminateQueued(cs, queue[..k]).1, queue[k])
  {
    assert queue[..k + 1][..k] == queue[..k];
  }

  /**
   * `processBattles`: with fewer than two eligible members nothing happens;
   * otherwise every eligible member attacks the next one round the cycle,
   * then the queued eliminations are applied.
   */
  function Battles(cs: seq<User>): (res: (seq<User>, seq<nat>))
    ensures |res.0| == |cs|
  {
    var act := EligibleIndices(cs);
    if |act| < 2 then (cs, [])
    else
      var played := PlayRounds(cs, act, |act|);
      EliminateQueued(played.0, played.1)
  }

  // ---------------------------------------------------------------------
  // Round and session lifecycle
  // ---------------------------------------------------------------------

  /** `onRoundStart`: choices cleared, the round counted, a fresh timer armed. */
  function RoundStartState(st: RoomState): RoomState
  {
    st.(clients := MapUsers(st.clients, ClearTurn), round := st.round + 1, roundTimerArmed := true)
  }

  /** `onSessionStart`: in progress from round 0, eliminations and cooldowns forgotten. */
  function SessionStartState(st: RoomState): RoomState
  {
    RoundStartState(st.(phase := InProgress, round := 0, clients := MapUsers(st.clients, ResetElimination)))
  }

  /** `onSessionEnd`: back to the ready phase with every flag and score reset. */
  function SessionEndState(st: RoomState): RoomState
  {
    var cs := MapUsers(MapUsers(st.clients, ClearReady), ClearTurn);
    st.(phase := Ready, clients := MapUsers(cs, ClearPoints))
  }

  /** The members after the resolution steps of `onRoundEnd`, before the game-over check. */
  function ResolveRound(cs: seq<User>): (r: seq<User>)
    ensures |r| == |cs|
  {
    Battles(MapUsers(MapUsers(cs, RememberChoice), EliminateIfMissed)).0
  }

  /** The first member satisfying `p`, as `findFirst` gives it. */
  function FirstWhere(cs: seq<User>, p: User -> bool): (r: Option<nat>)
    ensures r.Some? ==> r.value < |cs| && p(cs[r.value]) && forall j :: 0 <= j < r.value ==> !p(cs[j])
    ensures r.None? ==> forall j :: 0 <= j < |cs| ==> !p(cs[j])
    decreases |cs|
  {
    if |cs| == 0 then None
    else if p(cs[0]) then Some(0)
    else match FirstWhere(cs[1..], p)
      case None => None
      case Some(j) => Some(j + 1)
  }

  /** How a round ends: the game goes on, or is over with a winner or a tie. */
  datatype GameEnd = NextRound | Winner(clientId: int) | WinnerUnknown | Tie

  function GameEndOf(cs: seq<User>): GameEnd
  {
    var survivors := CountIf(cs, IsSurvivor);
    if survivors == 1 then
      match FirstWhere(cs, IsSurvivor)
      case Some(i) => Winner(cs[i].clientId)
      case None => WinnerUnknown
    else if survivors == 0 && |cs| > 0 then Tie
    else NextRound
  }

  /** `onRoundEnd`. */
  function RoundEndState(st: RoomState): RoomState
  {
    var cs := ResolveRound(st.clients);
    var st1 := st.(roundTimerArmed := false, clients := cs);
    if GameEndOf(cs) != NextRound then SessionEndState(st1) else RoundStartState(st1)
  }

  /** The round timer fires: a cancelled timer never does. */
  function RoundTimerExpiredState(st: RoomState): RoomState
  {
    if st.roundTimerArmed then RoundEndState(st) else st
  }

  /** `checkAllPicked`: the round ends early once every active member has picked. */
  function AllPickedState(st: RoomState): RoomState
  {
    var active := CountIf(st.clients, IsActive);
    if CountIf(st.clients, HasPicked) >= active && active > 0 then RoundEndState(st) else st
  }

  /**
   * Member `a` may stand before member `b` on the scoreboard: more points,
   * or as many and earlier in iteration order (the sort is stable).
   */
  predicate RankedBefore(cs: seq<User>, a: nat, b: nat)
  {
    a < |cs| && b < |cs| && (cs[a].points > cs[b].points || (cs[a].points == cs[b].points && a < b))
  }

  /** Inserts member `x` after every member with at least its points. */
  function InsertRanked(cs: seq<User>, x: nat, order: seq<nat>): (r: seq<nat>)
    requires x < |cs| && forall j :: 0 <= j < |order| ==> order[j] < |cs|
    ensures |r| == |order| + 1
    ensures multiset(r) == multiset(order) + multiset{x}
    ensures forall j :: 0 <= j < |r| ==> r[j] < |cs|
    decreases |order|
  {
    if order == [] then [x]
    else if cs[order[0]].points < cs[x].points then [x] + order
    else
      var rest := InsertRanked(cs, x, order[1..]);
      assert order == [order[0]] + order[1..];
      [order[0]] + rest
  }

  /** The scoreboard order of the first `n` members: a stable sort by points, highest first. */
  function ScoreOrder(cs: seq<User>, n: nat): (r: seq<nat>)
    requires n <= |cs|
    ensures |r| == n
    ensures forall j :: 0 <= j < |r| ==> r[j] < n
    decreases n
  {
    if n == 0 then []
    else
      var prev := ScoreOrder(cs, n - 1);
      var r := InsertRanked(cs, n - 1, prev);
      assert forall j :: 0 <= j < |r| ==> r[j] in multiset(prev) + multiset{(n - 1) as nat};
      r
  }

  /** The scoreboard order looks at nothing but the points. */
  lemma {:induction false} ScoreOrderReadsOnlyPoints(a: seq<User>, b: seq<User>, n: nat)
    requires |a| == |b| && n <= |a|
    requires forall i :: 0 <= i < |a| ==> a[i].points == b[i].points
    ensures ScoreOrder(a, n) == ScoreOrder(b, n)
    decreases n
  {
    if n > 0 {
      ScoreOrderReadsOnlyPoints(a, b, n - 1);
      InsertRankedReadsOnlyPoints(a, b, n - 1, ScoreOrder(a, n - 1));
    }
  }

  /** The scoreboard shows ids and points only, so clearing the ready and turn flags leaves it as it was. */
  lemma ScoreboardIgnoresFlags(cs: seq<User>)
    ensures Scoreboard(MapUsers(MapUsers(cs, ClearReady), ClearTurn)) == Scoreboard(cs)
  {
    var cleared := MapUsers(MapUsers(cs, ClearReady), ClearTurn);
    assert forall i :: 0 <= i < |cs| ==> cleared[i].points == cs[i].points && cleared[i].clientId == cs[i].clientId;
    ScoreOrderReadsOnlyPoints(cleared, cs, |cs|);
  }

  lemma {:induction false} InsertRankedReadsOnlyPoints(a: seq<User>, b: seq<User>, x: nat, order: seq<nat>)
    requires |a| == |b| && x < |a| && forall j :: 0 <= j < |order| ==> order[j] < |a|
    requires forall i :: 0 <= i < |a| ==> a[i].points == b[i].points
    ensures InsertRanked(a, x, order) == InsertRanked(b, x, order)
    decreases |order|
  {
    if order != [] {
      InsertRankedReadsOnlyPoints(a, b, x, order[1..]);
    }
  }

  datatype ScoreLine = ScoreLine(clientId: int, points: int)

  /** The final scoreboard `onSessionEnd` broadcasts. */
  function Scoreboard(cs: seq<User>): (board: seq<ScoreLine>)
    ensures |board| == |cs|
  {
    var order := ScoreOrder(cs, |cs|);
    seq(|order|, k requires 0 <= k < |order| => ScoreLine(cs[order[k]].clientId, cs[order[k]].points))
  }

  // ---------------------------------------------------------------------
  // Handlers
  // ---------------------------------------------------------------------

  /** What `handleTurnAction` does with a pick, in the order it checks. */
  datatype TurnResult =
    | NotInRoom                          // not a member: logged only
    | WrongPhase                         // notice: picks only while in progress
    | NotReady                           // not opted in: logged only
    | AlreadyEliminated
    | AlreadyPicked(previous: string)    // the stored pick is never overwritten
    | SpectatorCannotPlay
    | Rps5Disabled(waitForFinal3: bool)
    | CooldownRepeat(token: string)      // cooldown checked on the raw token
    | InvalidChoice
    | CooldownActive                     // cooldown checked on the normalised token
    | Picked(choice: string)

  /** Lizard and spock are allowed: enabled, and not held back by final-three mode. */
  predicate Rps5Allowed(st: RoomState)
  {
    st.enableRps5 && !(st.enableRps5Final3 && CountIf(st.clients, IsActive) > 3)
  }

  function TurnResultOf(st: RoomState, s: nat, token: string): TurnResult
  {
    if s >= |st.clients| then NotInRoom
    else if st.phase != InProgress then WrongPhase
    else
      var u := st.clients[s];
      if !u.ready then NotReady
      else if u.eliminated then AlreadyEliminated
      else if u.choice.Some? then AlreadyPicked(u.choice.value)
      else if u.IsSpectator() then SpectatorCannotPlay
      else TokenResult(st, u.lastChoice, ToLower(Trim(token)))
  }

  /**
   * The checks on the trimmed, lower-cased token `c` of a member whose
   * previous pick was `last`: the RPS-5 gate, the cooldown on the token as
   * typed, the normalisation, and the cooldown on the normalised pick.
   */
  function TokenResult(st: RoomState, last: Option<string>, c: string): TurnResult
  {
    if !Rps5Allowed(st) && (c == "l" || c == "sp") then Rps5Disabled(st.enableRps5 && st.enableRps5Final3)
    else if st.enableCooldown && last == Some(c) then CooldownRepeat(c)
    else match Normalise(c)
      case None => InvalidChoice
      case Some(n) => if st.enableCooldown && last == Some(n) then CooldownActive else Picked(n)
  }

  /** The state `handleTurnAction` leaves: only an accepted pick changes anything. */
  function TurnActionState(st: RoomState, s: nat, token: string): RoomState
  {
    match TurnResultOf(st, s, token)
    case Picked(c) =>
      AllPickedState(st.(clients := st.clients[s := st.clients[s].(choice := Some(c), tookTurn := true)]))
    case _ => st
  }

  /**
   * `handleReady`, after the base handler left the sender's ready flag at
   * `readyAfterBase`: a spectator is kept unready; otherwise the session
   * starts once everybody is ready and there are enough members. The base
   * handler is reduced to the flag it leaves: one that throws, so that this
   * part is skipped, or one that arms the ready timer, is not modelled.
   */
  function ReadyCheckState(st: RoomState, s: nat, readyAfterBase: bool): RoomState
    requires s < |st.clients|
  {
    var cs := st.clients[s := st.clients[s].(ready := readyAfterBase)];
    var st1 := st.(clients := cs);
    if !readyAfterBase then st1
    else
      var numReady := CountIf(cs, IsReadyMember);
      if numReady == |cs| && numReady >= MinimumRequiredToStart then SessionStartState(st1.(readyTimerArmed := false))
      else st1
  }

  /** `onClientRemoved`, run once the member is gone. */
  function ClientRemovedState(st: RoomState): RoomState
  {
    if |st.clients| == 0 then SessionEndState(st.(readyTimerArmed := false, roundTimerArmed := false))
    else if st.phase == InProgress then AllPickedState(st)
    else st
  }

  /** What `handleSettings` does with a command. */
  datatype SettingsResult =
    | NotHost                            // notice: only the host changes settings
    | NoParts                            // the command splits into nothing: `parts[0]` throws
    | MissingValue(key: string)          // a flag key with no value: nothing happens
    | FlagSet(key: string, on: bool)
    | AwaySet(isAway: bool)
    | UnknownKey(key: string)            // notice: unknown setting

  /** A settings value switches a flag on when it is "on" or "true", in any case. */
  predicate IsOn(value: string)
  {
    EqualsIgnoreCase("on", value) || EqualsIgnoreCase("true", value)
  }

  /** The switch on the lower-cased first word of a settings command. */
  function SettingResult(st: RoomState, s: nat, parts: seq<string>): SettingsResult
    requires s < |st.clients| && |parts| >= 1
  {
    var key := ToLower(parts[0]);
    if key == "rps5" || key == "rps5_final3" || key == "cooldown" then
      if |parts| > 1 then FlagSet(key, IsOn(parts[1])) else MissingValue(key)
    else if key == "away" then
      AwaySet(if |parts| > 1 then IsOn(parts[1]) else !st.clients[s].away)
    else UnknownKey(key)
  }

  function SettingsResultOf(st: RoomState, s: nat, command: string): SettingsResult
    requires s < |st.clients|
  {
    if st.clients[s].clientId != st.hostId && !StartsWith(command, "away") && !StartsWith(command, "spectator") then
      NotHost
    else
      var parts := Split(command);
      if |parts| == 0 then NoParts else SettingResult(st, s, parts)
  }

  /** What a settings outcome changes: a flag, or the sender's away status. */
  function SettingsEffect(st: RoomState, s: nat, result: SettingsResult): RoomState
    requires s < |st.clients|
  {
    match result
    case FlagSet(key, on) =>
      if key == "rps5" then st.(enableRps5 := on)
      else if key == "rps5_final3" then st.(enableRps5Final3 := on)
      else st.(enableCooldown := on)
    case AwaySet(isAway) => st.(clients := st.clients[s := st.clients[s].(away := isAway)])
    case _ => st
  }

  /** How a flag is written on the wire. */
  function OnOff(flag: bool): string
  {
    if flag then "on" else "off"
  }

  /** `createSettingsPayload`: a settings record whose text is the key, a space and the value. */
  function SettingsPayload(key: string, value: string): (p: Payload)
    ensures p.Plain? && p.payloadType == Settings && p.clientId == DefaultClientId && p.message.Some?
  {
    Plain(Settings, DefaultClientId, Some(key + " " + value))
  }

  /** The three settings records `onClientAdded` sends a newcomer, one per flag. */
  function SettingsSync(st: RoomState): (ps: seq<Payload>)
    ensures |ps| == 3
    ensures forall i :: 0 <= i < 3 ==> ps[i].payloadType == Settings && ps[i].message.Some?
  {
    [SettingsPayload("rps5", OnOff(st.enableRps5)),
     SettingsPayload("rps5_final3", OnOff(st.enableRps5Final3)),
     SettingsPayload("cooldown", OnOff(st.enableCooldown))]
  }

  /** The state `handleSettings` leaves. */
  function SettingsState(st: RoomState, s: nat, command: string): RoomState
    requires s < |st.clients|
  {
    SettingsEffect(st, s, SettingsResultOf(st, s, command))
  }

  // ---------------------------------------------------------------------
  // The room invariant
  // ---------------------------------------------------------------------

  /** Stored picks and cooldown memories are always one of the four reachable symbols. */
  predicate PicksWellFormed(u: User)
  {
    (u.choice.Some? ==> IsPick(u.choice.value)) && (u.lastChoice.Some? ==> IsPick(u.lastChoice.value))
  }

  /**
   * A round timer is armed exactly while a session is in progress, rounds
   * are counted from 1 within a session, nobody holds a pick between
   * sessions, and every stored pick is a reachable symbol.
   */
  predicate Inv(st: RoomState)
  {
    && st.round >= 0
    && (st.roundTimerArmed <==> st.phase == InProgress)
    && (st.phase == InProgress ==> st.round >= 1)
    && (forall i :: 0 <= i < |st.clients| ==> PicksWellFormed(st.clients[i]))
    && (st.phase == Ready ==> forall i :: 0 <= i < |st.clients| ==> st.clients[i].choice.None?)
  }
}
