/**
 * Shared vocabulary of the client/server protocol: the message tags, the
 * room actions, the game phases and the payload records that the server
 * builds. These are plain data; the behaviour lives in `Sessions` and
 * `GameRules`.
 */
module Common {

  datatype Option<+T> = None | Some(value: T)

  /** The two coarse states of a game room. */
  datatype Phase = Ready | InProgress

  /** The tags of wire messages, in the order the protocol declares them. */
  datatype PayloadType =
    | ClientConnect | ClientId | SyncClient | Disconnect
    | RoomCreate | RoomJoin | RoomLeave | Reverse | Message | RoomList
    | ReadyTag | SyncReady | ResetReady | PhaseTag
    | Turn | SyncTurn | ResetTurn | Time | Points | Host
    | Settings | Away | SyncAway

  /** What happened to a member of a room, as announced to the other members. */
  datatype RoomAction = Join | Leave | HostChange

  /**
   * A wire message. `Plain` is the base record (tag, sender id, text);
   * `Connection` adds the client name and the away flag; `ReadyState` adds
   * the boolean that ready and turn status messages carry. A field the
   * builder never sets keeps the record's default: `DefaultClientId` for the
   * id, `None` for text, `false` for booleans.
   */
  datatype Payload =
    | Plain(payloadType: PayloadType, clientId: int, message: Option<string>)
    | Connection(payloadType: PayloadType, clientId: int, message: Option<string>,
                 clientName: Option<string>, isAway: bool)
    | ReadyState(payloadType: PayloadType, clientId: int, message: Option<string>, ready: bool)

  /** Sender id of server-originated notices addressed to one client. */
  const DefaultClientId: int := -1
  /** Sender id reserved for game events broadcast by a room. */
  const GameEventChannel: int := -2
  /** The name of the room every client returns to when it leaves a room. */
  const Lobby: string := "lobby"

  /** The "silent" tags: the receiving client updates its view without a notice. */
  predicate IsQuiet(t: PayloadType)
  {
    t == SyncClient || t == SyncReady || t == SyncTurn || t == SyncAway
  }
}
