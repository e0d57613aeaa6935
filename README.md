# Elimination rock-paper-scissors game room, modelled in Dafny

The server runs a multiplayer rock-paper-scissors game with lizard and spock
as options. Players opt in with a ready check. Once everyone in the room is
ready (and there are at least two members), a session starts, and it is
played in timed rounds.

In a round:

- Every member still in the game picks a symbol.
- When the round ends, a member who did not pick is eliminated, unless that
  member is away or a spectator.
- The members who picked battle round-robin: member `i` attacks member
  `i + 1` (mod n). The winner of each battle gains a point and the loser is
  queued for elimination. The queue is applied after all the battles.
- If exactly one member survives, that member wins. If nobody survives, the
  game is a tie. Otherwise the next round starts.

The host can switch three flags:

- RPS-5, which allows lizard and spock;
- final-three mode, which holds RPS-5 back until at most three members
  remain in play;
- a cooldown, which forbids picking the same symbol twice in a row.

Any member can mark themselves away.

The model covers two parts of the code:

- the game room (`Project/Server/GameRoom.java`): its handlers and round
  logic;
- the per-client session (`Project/Server/ServerThread.java`): the player
  record's accessors, the payload builders of its send methods, and the
  routing of received payloads.

## Structure

| file | module | what it holds |
|---|---|---|
| `Common.dfy` | `Common` | payload tags, payload records, phases and protocol constants |
| `JavaText.dfy` | `JavaText` | `trim`, `toLowerCase`, `startsWith`, `equalsIgnoreCase` and `split(" ")` over `seq<char>` |
| `ServerThread.dfy` | `Sessions` | the player record `User`, the `ServerThread` class with its setters, the payload builders, and `processPayload` |
| `GameRules.dfy` | `GameRules` | the beats table, normalisation, battles, and one specification function per room handler, giving the state the handler leaves |
| `GameRoom.dfy` | `Game` | the `GameRoom` class; each method is proved to leave exactly the state its specification function gives |
| `BattleProofs.dfy`, `RoundProofs.dfy`, `TurnProofs.dfy`, `SettingsProofs.dfy`, `ScoreProofs.dfy`, `RulesProofs.dfy`, `InvProofs.dfy` | same names | the properties, proved about the specification functions |

The room's members are `clients: seq<User>`. The order of the sequence is
the iteration order of the room's member map, and a member is identified
by its position in the sequence. Each handler is a method of `GameRoom`
with a postcondition of the form `State() == XState(old(State()))`. The
lemmas are then proved about `XState`, so each one also holds for the
method.

When rock, paper and scissors meet in one round, every comparison of the
cycle is decisive: each member wins once and loses once, so all three are
eliminated with one point each and the game is a tie
(`RulesProofs.ThreeWayCycle`).

## Model

| member | source | states |
|---|---|---|
| `GameRules.CompareChoices` | Project/Server/GameRoom.java:212-226 | Returns 1, 0 or -1. On the five symbols it returns 1 exactly when the first beats the second in the ten-pair beats table, -1 exactly when the second beats the first, and 0 exactly on equal symbols. A known symbol loses to an unknown one, and an unknown first symbol always ties. |
| `RulesProofs.CompareChoicesAntisymmetric` | Project/Server/GameRoom.java:212-226 | Swapping the two symbols negates the verdict. |
| `GameRules.Normalise` | Project/Server/GameRoom.java:401-414 | A token is accepted exactly when it starts with r, p, s or l. It then becomes its first letter, and it is never "sp": the spock branch cannot be reached. |
| `GameRules.CountIf` | Project/Server/GameRoom.java:303-308 | The number of members matching a filter is at most the number of members. |
| `GameRules.MapUsers` | Project/Server/GameRoom.java:88-91 | Applying an action to every member keeps the length and transforms each member in place. |
| `GameRules.EligibleIndices` | Project/Server/GameRoom.java:161-163 | Every index on the battle list is a member who is still in the game, has picked, is not away and is not a spectator. |
| `BattleProofs.EligibleIndicesExact` | Project/Server/GameRoom.java:161-163 | The battle list holds exactly the eligible members, each once, in iteration order. |
| `BattleProofs.PairingCounts` | Project/Server/GameRoom.java:174-196 | In the cycle of comparisons over a list of distinct members, each listed member attacks in exactly one comparison and defends in exactly one. |
| `BattleProofs.EveryEligiblePairedOnce` | Project/Server/GameRoom.java:161-196 | Every eligible member is the attacker of exactly one comparison of the round and the defender of exactly one. |
| `GameRules.PlayRounds` | Project/Server/GameRoom.java:174-196 | The comparison loop keeps the number of members, and it queues only members of the room. |
| `GameRules.AwardKeepsAllButPoints` | Project/Server/GameRoom.java:181-191 | One comparison changes only points. |
| `GameRules.PlayRoundsKeepsPicks` | Project/Server/GameRoom.java:174-196 | The loop changes nothing but points. In particular, every pick stays as it was. |
| `GameRules.PlayRoundsNext` | Project/Server/GameRoom.java:175-178 | Comparison `k` sets attacker `act[k]` against defender `act[(k+1) % n]`, using the picks of the round. |
| `BattleProofs.DecisiveHasTwoSides` | Project/Server/GameRoom.java:181-191 | A comparison has a winner exactly when it has a loser, exactly when its verdict is nonzero. The winner and the loser are then its two distinct members. |
| `BattleProofs.QueueIsLosers` | Project/Server/GameRoom.java:174-196 | After `k` comparisons, the elimination queue is the losers of those comparisons, in order. |
| `BattleProofs.PointsAreWins` | Project/Server/GameRoom.java:174-196 | After `k` comparisons, each member has its starting points plus the number of comparisons it won. |
| `BattleProofs.AwardConservesPoints` | Project/Server/GameRoom.java:181-191 | One comparison adds as many points in total as it queues losers. |
| `BattleProofs.PointsMatchQueue` | Project/Server/GameRoom.java:174-196 | Total points after the loop equal the total before plus the length of the queue. |
| `BattleProofs.QueueCountsDecisive` | Project/Server/GameRoom.java:174-196 | One loser is queued per decisive comparison. |
| `BattleProofs.OnlyListedTakePart` | Project/Server/GameRoom.java:161-196 | A member not on the battle list never wins and is never queued. |
| `GameRules.EliminateQueuedNext` | Project/Server/GameRoom.java:202-207 | The elimination loop handles the queue one entry at a time, in order. |
| `BattleProofs.EliminateQueuedMeaning` | Project/Server/GameRoom.java:202-207 | Applying the queue eliminates exactly the queued members and changes nothing else. A member is announced exactly when it was queued and not yet eliminated, and no member is announced twice. |
| `RulesProofs.QueuedTwiceAnnouncedOnce` | Project/Server/GameRoom.java:202-207 | A member queued twice is eliminated and announced once. |
| `GameRules.Battles` | Project/Server/GameRoom.java:160-208 | `processBattles` keeps the number of members. |
| `BattleProofs.BattlesOutcome` | Project/Server/GameRoom.java:160-208 | With fewer than two eligible members nothing happens. Otherwise each member ends with its points plus its wins, and is eliminated exactly if it already was or it lost. The announcements are exactly the losers, each once. |
| `BattleProofs.BattleOfMember` | Project/Server/GameRoom.java:160-208 | The same outcome, for one member. |
| `BattleProofs.BattlesSpareTheIneligible` | Project/Server/GameRoom.java:161-163 | Away members, spectators, eliminated members and members without a pick come out of the battles unchanged. |
| `BattleProofs.BattlesOnlyScoreAndEliminate` | Project/Server/GameRoom.java:160-208 | Battles change only points and elimination, and they never revive a member. |
| `RulesProofs.ThreeWayCycle` | Project/Server/GameRoom.java:116-158 | Rock, paper and scissors in one round: each member wins once and loses once, all three are eliminated, and the game is a tie. |
| `RulesProofs.DuelComparisons` | Project/Server/GameRoom.java:174-196 | Rock against scissors with two members compares twice: the rock player wins both comparisons, and the scissors player loses both. |
| `RulesProofs.DuelQueuesLoserTwice` | Project/Server/GameRoom.java:174-207 | In that duel the loser is queued twice but announced once. |
| `RulesProofs.DuelBattles` | Project/Server/GameRoom.java:160-208 | In that duel the winner gains two points and the loser is eliminated. |
| `RulesProofs.DuelWinner` | Project/Server/GameRoom.java:116-158 | The rock player wins the game with two points. |
| `GameRules.ResolveRound` | Project/Server/GameRoom.java:119-139 | The end-of-round resolution keeps the number of members. |
| `RoundProofs.ResolveRoundMember` | Project/Server/GameRoom.java:119-139 | For each member, resolution changes only the cooldown memory, elimination and points. A pick becomes the cooldown memory; with no pick the old memory is kept. A member who missed a pick while not away is eliminated. Nobody is revived, and points never fall. |
| `RoundProofs.AwayMemberSurvivesRound` | Project/Server/GameRoom.java:126-133 | An away member who is still in the game survives the round with its points. |
| `GameRules.FirstWhere` | Project/Server/GameRoom.java:146-149 | `findFirst`: the first member matching the filter, or none when no member matches. |
| `RoundProofs.WinnerIsSoleSurvivor` | Project/Server/GameRoom.java:142-150 | A win is announced exactly when one member survives, and the winner is that member. The "Unknown" winner never occurs. |
| `RoundProofs.TieMeansNobodySurvived` | Project/Server/GameRoom.java:151-153 | A tie is declared exactly when the room has members and none of them survived. |
| `RoundProofs.NextRoundIffSeveralSurvive` | Project/Server/GameRoom.java:142-155 | The game continues exactly when two or more members survive or the room is empty. |
| `RoundProofs.CountIfZeroIffNone` | Project/Server/GameRoom.java:142-144 | A count is zero exactly when no member matches the filter. |
| `RoundProofs.CountIfAllIffEvery` | Project/Server/GameRoom.java:323-329 | A count equals the room size exactly when every member matches the filter. |
| `RoundProofs.CountIfTwo` | Project/Server/GameRoom.java:142-144 | Two distinct matching members make the count at least two. |
| `RoundProofs.CountIfMonotone` | Project/Server/GameRoom.java:303-308 | A filter implied by another filter counts at least as many members. |
| `RoundProofs.RoundEndEndsSessionWhenOver` | Project/Server/GameRoom.java:116-158 | A running round ends the session exactly when the game is over. Every member then has no pick, no turn, no ready flag and no points, and the round timer is off. |
| `RoundProofs.RoundEndStartsNextRound` | Project/Server/GameRoom.java:154-156 | Otherwise the round counter goes up by one, the timer is re-armed, and picks and turn flags are cleared. |
| `RoundProofs.AllPickedFiresWhenAllPicked` | Project/Server/GameRoom.java:302-314 | The round ends early once every member expected to pick has picked, provided there is such a member. With nobody expected to pick, nothing happens. |
| `RoundProofs.AwayPickEndsRoundEarly` | Project/Server/GameRoom.java:302-314 | The early-end check compares counts: one away member's pick ends the round while an active member has not picked. |
| `RoundProofs.SessionStartResets` | Project/Server/GameRoom.java:83-112 | A new session is in progress at round 1 with the timer armed. Eliminations, cooldown memories, picks and turn flags are cleared; ready, away and points are kept. |
| `RoundProofs.SessionEndResets` | Project/Server/GameRoom.java:230-250 | The room returns to the ready phase. Ready flags, picks, turn flags and points are cleared; eliminations, memories and away flags are kept. |
| `ScoreProofs.ScoreboardIsRankedPermutation` | Project/Server/GameRoom.java:236-245 | The final scoreboard shows every member once, with id and points, in non-increasing order of points. |
| `ScoreProofs.ScoreboardIsStable` | Project/Server/GameRoom.java:236-238 | Members with equal points keep their iteration order. |
| `ScoreProofs.InsertRankedKeepsRank` | Project/Server/GameRoom.java:236-238 | Inserting a later member keeps the order ranked. |
| `ScoreProofs.ScoreOrderRanked` | Project/Server/GameRoom.java:236-238 | The sorted order is ranked: points never rise, and equal points keep iteration order. |
| `ScoreProofs.ScoreOrderListsEachOnce` | Project/Server/GameRoom.java:236-238 | The sorted order lists every member exactly once. |
| `ScoreProofs.ScoreboardLine` | Project/Server/GameRoom.java:240-242 | Scoreboard line `k` shows the member in sorted position `k`. |
| `ScoreProofs.ScoreboardDescends` | Project/Server/GameRoom.java:236-242 | Scoreboard points never rise. |
| `ScoreProofs.ScoreboardShowsEveryone` | Project/Server/GameRoom.java:236-242 | Every member appears on the scoreboard. |
| `GameRules.InsertRanked` | Project/Server/GameRoom.java:236-238 | One insertion step of the stable sort adds exactly the new member. |
| `GameRules.ScoreOrder` | Project/Server/GameRoom.java:236-238 | The sorted order has one entry per member. |
| `GameRules.ScoreOrderReadsOnlyPoints` | Project/Server/GameRoom.java:236-238 | The sort compares points only. |
| `GameRules.InsertRankedReadsOnlyPoints` | Project/Server/GameRoom.java:236-238 | One insertion step compares points only. |
| `GameRules.ScoreboardIgnoresFlags` | Project/Server/GameRoom.java:232-245 | Clearing ready flags and turns before sorting does not change the scoreboard. |
| `GameRules.Scoreboard` | Project/Server/GameRoom.java:240-245 | The scoreboard has one line per member. |
| `TurnProofs.TokenDecides` | Project/Server/GameRoom.java:368-426 | For a member who may pick, the outcome depends only on the trimmed, lower-cased token. |
| `TurnProofs.AcceptedPick` | Project/Server/GameRoom.java:344-426 | Only a ready member who is still in the game and has no pick, while a round runs, gets a pick. The pick is the first letter of the normalised token and one of r, p, s, l. With the cooldown on, it differs from the last pick, both as typed and as normalised. Lizard and spock are accepted only when RPS-5 is allowed. |
| `TurnProofs.RejectionChangesNothing` | Project/Server/GameRoom.java:344-438 | Every rejected token leaves the whole room unchanged. |
| `TurnProofs.AcceptedPickIsStored` | Project/Server/GameRoom.java:424-429 | Unless the pick completes the round, the sender holds the pick and has taken a turn, and nothing else changes. |
| `TurnProofs.PickNeverOverwritten` | Project/Server/GameRoom.java:357-361 | A second pick in the same round is refused, and the first pick is kept. |
| `TurnProofs.SpectatorCheckUnreachable` | Project/Server/GameRoom.java:350-366 | The spectator notice never occurs: a spectator is refused earlier as not ready. |
| `TurnProofs.SpockNeverStored` | Project/Server/GameRoom.java:401-414 | No pick is ever stored as "sp". |
| `TurnProofs.SpockIsStoredAsScissors` | Project/Server/GameRoom.java:401-414 | Any token starting with "sp" is stored as scissors when the cooldown is off. The RPS-5 gate tests only the exact token "sp", so "spock" is stored as scissors even with RPS-5 off. |
| `TurnProofs.LizardPassesTheGate` | Project/Server/GameRoom.java:383-390 | With RPS-5 off, "l" is refused, but "lizard" passes the gate and is stored as "l". |
| `TurnProofs.FinalThreeHoldsBackRps5` | Project/Server/GameRoom.java:370-390 | In final-three mode, a token reading "l" is refused with the wait notice while more than three members are in play, and is accepted once at most three remain. |
| `TurnProofs.CooldownOnTypedToken` | Project/Server/GameRoom.java:392-397 | With the cooldown on and last pick "r", the token "r" is refused by the first cooldown test. |
| `TurnProofs.CooldownOnNormalisedToken` | Project/Server/GameRoom.java:416-421 | The same member typing "rock" is refused by the second cooldown test. |
| `TurnProofs.CooldownAllowsOtherSymbol` | Project/Server/GameRoom.java:392-424 | That member may pick paper. |
| `SettingsProofs.NonHostIsRefused` | Project/Server/GameRoom.java:452-456 | A member other than the host is refused, and nothing changes, unless the raw command starts with "away" or "spectator". |
| `SettingsProofs.FlagCommandSetsFlag` | Project/Server/GameRoom.java:461-482 | A flag key with a value sets exactly that flag. The flag is on exactly when the value is "on" or "true", in any case. |
| `SettingsProofs.OnlyFlagsAndAwayChange` | Project/Server/GameRoom.java:452-500 | The host notice, an empty split, a flag key without a value and an unknown key change nothing. A flag command changes only the flags. |
| `SettingsProofs.BareAwayToggles` | Project/Server/GameRoom.java:483-490 | A bare "away" toggles the sender's away flag and nothing else. |
| `SettingsProofs.AwayOnSetsAway` | Project/Server/GameRoom.java:483-490 | "away on" sets the sender away, whoever sends it. |
| `SettingsProofs.GateIsCaseSensitive` | Project/Server/GameRoom.java:453 | "AWAY" from a member other than the host is refused, although the key switch lower-cases. |
| `SettingsProofs.SpectatorIsUnknownKey` | Project/Server/GameRoom.java:453-498 | "spectator" passes the host gate but is reported as an unknown setting, and nothing changes. |
| `SettingsProofs.OnOffReadsBack` | Project/Server/GameRoom.java:441-446 | "on" and "off" read back as the flag they encode. |
| `SettingsProofs.SettingsSyncReplays` | Project/Server/GameRoom.java:34-46 | The three settings records a newcomer receives, replayed as host commands, set each flag to the value it was taken from. |
| `SettingsProofs.ReplayFlag` | Project/Server/GameRoom.java:441-482 | Replaying one settings record sets exactly its flag. |
| `SettingsProofs.ReplayFlagResult` | Project/Server/GameRoom.java:458-482 | A replayed settings record is recognised as a flag command with the flag's value. |
| `GameRules.SettingsPayload` | Project/Server/GameRoom.java:441-446 | A settings record carries the settings tag, the default sender id and a text. |
| `GameRules.SettingsSync` | Project/Server/GameRoom.java:43-45 | A newcomer receives three settings records. |
| `JavaText.SplitEmptyIffBlank` | Project/Server/GameRoom.java:458-459 | `split(" ")` yields no parts exactly on a non-empty string of spaces; `parts[0]` then throws. |
| `JavaText.JoinPieces` | Project/Server/GameRoom.java:458 | Joining the pieces with spaces gives the string back. |
| `JavaText.SplitTwoWords` | Project/Server/GameRoom.java:444 | A settings text "key value" splits back into key and value. |
| `InvProofs.SessionStartEstablishesInv` | Project/Server/GameRoom.java:83-112 | Starting a session establishes the room invariant. The invariant: the round timer is armed exactly while in progress, rounds count from 1, stored picks are r, p, s or l, and nobody holds a pick between sessions. |
| `InvProofs.RoundEndKeepsInv` | Project/Server/GameRoom.java:116-158 | Ending a running round keeps the invariant. |
| `InvProofs.ResolveRoundKeepsPicksWellFormed` | Project/Server/GameRoom.java:119-139 | Resolution stores only picks as cooldown memories. |
| `InvProofs.RoundTimerExpiryKeepsInv` | Project/Server/GameRoom.java:66-71 | The round timer's expiry keeps the invariant. |
| `InvProofs.AllPickedKeepsInv` | Project/Server/GameRoom.java:302-314 | The early-end check keeps the invariant, and it never fires between sessions. |
| `InvProofs.TurnActionKeepsInv` | Project/Server/GameRoom.java:344-438 | Handling a pick keeps the invariant. |
| `InvProofs.ReadyCheckKeepsInv` | Project/Server/GameRoom.java:319-339 | The ready check keeps the invariant. |
| `InvProofs.SettingsKeepInv` | Project/Server/GameRoom.java:452-500 | Settings commands keep the invariant. |
| `InvProofs.SettingsEffectKeepsInv` | Project/Server/GameRoom.java:461-497 | Each settings outcome keeps the invariant. |
| `InvProofs.AwayKeepsInv` | Project/Server/GameRoom.java:483-490 | Changing a member's away flag keeps the invariant. |
| `InvProofs.ClientRemovalKeepsInv` | Project/Server/GameRoom.java:49-63 | A member leaving, followed by `onClientRemoved`, keeps the invariant. |
| `InvProofs.AddClientKeepsInv` | Project/Server/GameRoom.java:34-46 | A newcomer with well-formed picks, and no pick between sessions, keeps the invariant. |
| `RoundProofs.ReadyCheckStartsWhenAllReady` | Project/Server/GameRoom.java:319-339 | The session starts exactly when the sender ended up ready, everyone is ready and the room has at least two members. Otherwise only the sender's ready flag changes. |
| `Game.GameRoom.constructor` | Project/Server/GameRoom.java:20-31 | A new room is ready, at round 0, with no timers, all flags off and no members. It satisfies the invariant. |
| `Game.GameRoom.AddClient` | Project/Server/GameRoom.java:34-46 | The member is appended and nothing else changes. |
| `Game.GameRoom.OnClientAdded` | Project/Server/GameRoom.java:42-45 | Returns the three settings records the newcomer is sent. |
| `Game.GameRoom.ForEachClient` | Project/Server/GameRoom.java:88-91 | Applies the action to every member in iteration order and changes nothing else. |
| `Game.GameRoom.StartRoundTimer` | Project/Server/GameRoom.java:66-71 | Only the round timer becomes armed. |
| `Game.GameRoom.ResetRoundTimer` | Project/Server/GameRoom.java:73-79 | Only the round timer is disarmed. |
| `Game.GameRoom.ResetReadyTimer` | Project/Server/GameRoom.java:336 | Only the ready timer is disarmed. |
| `Game.GameRoom.OnSessionStart` | Project/Server/GameRoom.java:83-94 | Leaves `SessionStartState`; see `RoundProofs.SessionStartResets`. |
| `Game.GameRoom.OnRoundStart` | Project/Server/GameRoom.java:98-112 | Clears picks and turns, increments the round and re-arms the timer. |
| `Game.GameRoom.OnRoundEnd` | Project/Server/GameRoom.java:116-158 | Leaves `RoundEndState` and returns the announced game end; see the `RoundProofs` lemmas. |
| `Game.GameRoom.Battle` | Project/Server/GameRoom.java:175-191 | One comparison of the loop, as `BattleStep`. |
| `Game.GameRoom.PlayAll` | Project/Server/GameRoom.java:174-196 | The comparison loop leaves `PlayRounds` over the whole list; see `BattleProofs`. |
| `Game.GameRoom.EliminateAll` | Project/Server/GameRoom.java:202-207 | The elimination loop leaves `EliminateQueued`; see `BattleProofs.EliminateQueuedMeaning`. |
| `Game.GameRoom.Eliminate` | Project/Server/GameRoom.java:203-206 | A member who is not yet out is eliminated and announced. |
| `Game.GameRoom.ProcessBattles` | Project/Server/GameRoom.java:160-208 | Leaves `Battles`; see `BattleProofs.BattlesOutcome`. |
| `Game.GameRoom.OnSessionEnd` | Project/Server/GameRoom.java:230-250 | Leaves `SessionEndState` and returns the scoreboard of the members as they stood. |
| `Game.GameRoom.RoundTimerExpired` | Project/Server/GameRoom.java:67 | An armed round timer ends the round; otherwise nothing happens. |
| `Game.GameRoom.CheckAllPicked` | Project/Server/GameRoom.java:302-314 | Leaves `AllPickedState`. |
| `Game.GameRoom.OnClientRemoved` | Project/Server/GameRoom.java:49-63 | An empty room ends the session with both timers off. During a session, a non-empty room runs the early-end check. |
| `Game.GameRoom.RemoveClient` | Project/Server/GameRoom.java:49-63 | Drops the member and then runs `OnClientRemoved`. |
| `Game.GameRoom.HandleReady` | Project/Server/GameRoom.java:319-339 | Leaves `ReadyCheckState`; see `RoundProofs.ReadyCheckStartsWhenAllReady`. |
| `Game.GameRoom.HandleTurnAction` | Project/Server/GameRoom.java:344-438 | Returns the outcome and leaves `TurnActionState`. A rejection changes nothing. |
| `Game.GameRoom.CheckTurn` | Project/Server/GameRoom.java:346-366 | The membership, phase, ready, elimination, earlier-pick and spectator checks, in order. Any pick it returns is r, p, s or l. |
| `Game.GameRoom.CheckToken` | Project/Server/GameRoom.java:368-422 | The RPS-5 gate, the two cooldown tests and the normalisation. Any pick it returns is r, p, s or l. |
| `Game.GameRoom.HandleSettings` | Project/Server/GameRoom.java:452-500 | Returns the outcome and leaves `SettingsState`. |
| `Game.GameRoom.ApplySetting` | Project/Server/GameRoom.java:460-499 | The switch on the lower-cased first word. |
| `Sessions.ServerThread.constructor` | Project/Server/ServerThread.java:48-58 | A new session holds a fresh record: not ready, not away, not eliminated, no picks, 0 points (the base record's Java field defaults). The client id is a parameter here; the Java constructor takes none. |
| `Sessions.ServerThread.IsSpectator` | Project/Server/ServerThread.java:421-424 | A member is a spectator exactly when it is not ready. |
| `Sessions.ServerThread.SetReady` | Project/Server/ServerThread.java:364-366 | Changes only the ready flag. |
| `Sessions.ServerThread.SetTookTurn` | Project/Server/ServerThread.java:372-374 | Changes only the turn flag. |
| `Sessions.ServerThread.SetPoints` | Project/Server/ServerThread.java:380-382 | Changes only the points. |
| `Sessions.ServerThread.ChangePoints` | Project/Server/ServerThread.java:384-386 | Adds the delta to the points and changes nothing else. |
| `Sessions.ServerThread.SetChoice` | Project/Server/ServerThread.java:392-394 | Changes only the pick. |
| `Sessions.ServerThread.SetEliminated` | Project/Server/ServerThread.java:400-403 | Sets the elimination flag to the argument; the repeated store changes nothing else. |
| `Sessions.ServerThread.SetLastChoice` | Project/Server/ServerThread.java:409-411 | Changes only the cooldown memory. |
| `Sessions.ServerThread.SetAway` | Project/Server/ServerThread.java:417-419 | Changes only the away flag. |
| `Sessions.ServerThread.SetClientName` | Project/Server/ServerThread.java:294-295 | Changes only the name. |
| `Sessions.ClientInfoAway` | Project/Server/ServerThread.java:231-256 | With the sync flag the tag is the silent `SyncClient`. Otherwise join, leave and host map to their own tags. Id, name, room and away flag are copied. |
| `Sessions.ClientInfoSync` | Project/Server/ServerThread.java:187-228 | The same without the away store: with the sync flag the tag is the silent `SyncClient`; otherwise join, leave and host map to their own tags. Id, name and room are copied, and the away flag stays false. |
| `Sessions.ClientInfo` | Project/Server/ServerThread.java:173-175 | Never silent. Each action gets its own tag. |
| `Sessions.TurnStatus` | Project/Server/ServerThread.java:103-111 | `SyncTurn` when quiet, `Turn` otherwise. Carries the id and the turn flag. |
| `Sessions.TurnStatusLoud` | Project/Server/ServerThread.java:99-101 | Always `Turn`. |
| `Sessions.ReadyStatus` | Project/Server/ServerThread.java:138-146 | Silent exactly when quiet. Carries the id and the ready flag. |
| `Sessions.ReadyStatusLoud` | Project/Server/ServerThread.java:126-128 | Never silent. |
| `Sessions.ResetReadyPayload` | Project/Server/ServerThread.java:120-124 | A `ResetReady` record with default id and flag. |
| `Sessions.ResetTurnPayload` | Project/Server/ServerThread.java:93-97 | A `ResetTurn` record with default id and flag. |
| `Sessions.MessagePayload` | Project/Server/ServerThread.java:280-286 | A `Message` record with the sender id and the text. |
| `Sessions.GameEvent` | Project/Server/ServerThread.java:75-77 | A message from the reserved game-event channel. |
| `Sessions.ProcessPayload` | Project/Server/ServerThread.java:290-357 | The handshake stores the trimmed name, and leaving a room means joining the lobby. `Away` becomes the settings command "away". In a game room a ready request goes to the ready handler, a turn request to the pick handler with its text, and a settings request to the settings handler with its text. A ready, turn, settings or away request reaches a game handler exactly when the sender is in a game room; otherwise it earns a notice from the default id. |

## Left out

- Sending and broadcasting are left out. The model returns only what a
  handler decides: the outcome of a pick or a setting, the scoreboard, and
  the records for a newcomer. Per-member fan-out is not modelled, and
  neither are the notice, log and game-event texts, the battle log or the
  points sync.
- Timers are not modelled as threads. A timer is a flag saying whether it is
  armed, and its expiry is the method `RoundTimerExpired`. The tick
  callbacks and the 30-second duration are not modelled, and neither is any
  concurrency between handlers.
- The base room classes are not part of this model. The following are
  modelled as stated assumptions:
  - the ready handler of the base room is the parameter `readyAfterBase`,
    the sender's ready flag after it; a base handler that throws (so the
    game-room part is skipped) or arms the ready timer is not modelled;
  - `resetReadyStatus` clears every ready flag;
  - the minimum to start is 2;
  - `changePhase` only sets the phase;
  - a member added between sessions holds no pick. `addClient` does not
    clear a pick carried over from another room, and
    `InvProofs.AddClientKeepsInv` relies on this assumption;
  - `checkPlayerInRoom` throws exactly when the sender is not a member, which
    the model reads as an index outside `clients` (`NotInRoom`);
  - `checkCurrentPhase` throws unless the phase is in progress
    (`WrongPhase`);
  - `checkIsReady` throws exactly when the sender is not ready (`NotReady`).
    `TurnProofs.SpectatorCheckUnreachable` rests on this assumption: a
    spectator is a member who is not ready, so it is refused there first;
  - the phase, ready and points syncs of `onClientAdded` are not modelled.
- Member identity is a position in `clients`. Looking up a member by client
  id and host reassignment belong to the base room; `AddClient` only
  requires that ids are distinct.
- `Payload.java` is not part of this model. A record's unset id is assumed
  to be `DefaultClientId` (-1), and the unset tag of a ready record is
  assumed to be READY (`ReadyTag`), which `ReadyStatus` uses when not quiet.
- `Constants.java` is not part of this model. Its values are assumed: the
  game-event channel is -2 (`GameEventChannel`), the default client id is
  -1, and the lobby is named "lobby" (`Lobby`).
- Text operations are exact for the operations used, except
  `toLowerCase`, which maps only ASCII letters.
- Overflow is not modelled. Points and rounds are unbounded integers; Java
  `int` overflow would need more than 2^31 rounds or wins.
- Nulls: a null token or command makes the handlers throw, and the
  exception is caught and logged or answered with a notice. The model takes
  the token and the command as strings.
- `HandleSettings` reports an empty split as `NoParts`. In the code,
  `parts[0]` throws there, and `processPayload` catches the exception and
  sends the not-in-a-game-room notice.
- `onTurnStart` and `onTurnEnd` are empty in the code and are not modelled.
- Only the game-room branch of the routing is modelled. The room handlers
  that `processPayload` reaches (messages, room creation, join, list,
  disconnect) belong to the base room and are routes only.
