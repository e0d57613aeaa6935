/**
 * The server-side session of one connected client: the player record it
 * wraps and its accessors, the builders of the payloads it sends, and the
 * routing of the payloads it receives.
 */
module Sessions {
  import opened Common
  import opened JavaText

  /**
   * The per-player record. `choice` and `lastChoice` are `None` where the
   * source holds `null`; `points` is an unbounded integer.
   */
  datatype User = User(
    clientId: int,
    clientName: string,
    ready: bool,
    away: bool,
    eliminated: bool,
    choice: Option<string>,
    lastChoice: Option<string>,
    tookTurn: bool,
    points: int)
  {
    /** A member who has not opted in is a spectator; there is no separate flag. */
    predicate IsSpectator()
    {
      !ready
    }
  }

  /**
   * The record of a client that has just connected: flags false, no picks,
   * 0 points. The empty name stands for a name not yet set, before the
   * client's connect record arrives.
   */
  function FreshUser(clientId: int): User
  {
    User(clientId, "", false, false, false, None, None, false, 0)
  }

  /** One client connection and the player record it owns. */
  class ServerThread {
    var user: User

    /**
     * A new session. The Java constructor takes no client id: the id lives
     * in the base record and is set outside this class, which this model
     * does not cover, so here it is a parameter.
     */
    constructor (clientId: int)
      ensures user == FreshUser(clientId)
    {
      user := FreshUser(clientId);
    }

    method IsSpectator() returns (spectator: bool)
      ensures spectator <==> !user.ready
    {
      spectator := user.IsSpectator();
    }

    method SetReady(isReady: bool)
      modifies this
      ensures user == old(user).(ready := isReady)
    {
      user := user.(ready := isReady);
    }

    method SetTookTurn(tookTurn: bool)
      modifies this
      ensures user == old(user).(tookTurn := tookTurn)
    {
      user := user.(tookTurn := tookTurn);
    }

    method SetPoints(points: int)
      modifies this
      ensures user == old(user).(points := points)
    {
      user := user.(points := points);
    }

    method ChangePoints(delta: int)
      modifies this
      ensures user.points == old(user.points) + delta
      ensures user == old(user).(points := user.points)
    {
      user := user.(points := user.points + delta);
    }

    method SetChoice(choice: Option<string>)
      modifies this
      ensures user == old(user).(choice := choice)
    {
      user := user.(choice := choice);
    }

    /** The source stores the flag twice; the second store changes nothing. */
    method SetEliminated(isEliminated: bool)
      modifies this
      ensures user.eliminated == isEliminated
      ensures user == old(user).(eliminated := isEliminated)
    {
      user := user.(eliminated := isEliminated);
      user := user.(eliminated := isEliminated);
    }

    method SetLastChoice(lastChoice: Option<string>)
      modifies this
      ensures user == old(user).(lastChoice := lastChoice)
    {
      user := user.(lastChoice := lastChoice);
    }

    method SetAway(isAway: bool)
      modifies this
      ensures user == old(user).(away := isAway)
    {
      user := user.(away := isAway);
    }

    method SetClientName(name: string)
      modifies this
      ensures user == old(user).(clientName := name)
    {
      user := user.(clientName := name);
    }
  }

  // ---------------------------------------------------------------------
  // Payload builders: what each send method puts on the wire.
  // ---------------------------------------------------------------------

  /**
   * `sendClientInfo` with all six arguments: the action picks the tag unless
   * the sync flag forces the silent `SyncClient`; the ids, names and the away
   * flag are copied.
   */
  function ClientInfoAway(clientId: int, clientName: Option<string>, roomName: Option<string>,
                          action: RoomAction, isSync: bool, isAway: bool): (p: Payload)
    ensures p.Connection?
    ensures IsQuiet(p.payloadType) <==> isSync
    ensures isSync ==> p.payloadType == SyncClient
    ensures !isSync ==> (action == Join <==> p.payloadType == RoomJoin)
    ensures !isSync ==> (action == Leave <==> p.payloadType == RoomLeave)
    ensures !isSync ==> (action == HostChange <==> p.payloadType == Host)
    ensures p.clientId == clientId && p.clientName == clientName && p.message == roomName
    ensures p.isAway == isAway
  {
    var tag := match action
      case Join => RoomJoin
      case Leave => RoomLeave
      case HostChange => Host;
    Connection(if isSync then SyncClient else tag, clientId, roomName, clientName, isAway)
  }

  /**
   * `sendClientInfo` with five arguments. Its code is a copy of the
   * six-argument one without the away store, so the away flag keeps the
   * record's default.
   */
  function ClientInfoSync(clientId: int, clientName: Option<string>, roomName: Option<string>,
                          action: RoomAction, isSync: bool): (p: Payload)
    ensures p.Connection? && !p.isAway
    ensures IsQuiet(p.payloadType) <==> isSync
    ensures isSync ==> p.payloadType == SyncClient
    ensures !isSync ==> (action == Join <==> p.payloadType == RoomJoin)
    ensures !isSync ==> (action == Leave <==> p.payloadType == RoomLeave)
    ensures !isSync ==> (action == HostChange <==> p.payloadType == Host)
    ensures p.clientId == clientId && p.clientName == clientName && p.message == roomName
  {
    ClientInfoAway(clientId, clientName, roomName, action, isSync, false)
  }

  /** `sendClientInfo` with four arguments: never silent. */
  function ClientInfo(clientId: int, clientName: Option<string>, roomName: Option<string>,
                      action: RoomAction): (p: Payload)
    ensures p.Connection? && !IsQuiet(p.payloadType) && !p.isAway
    ensures action == Join ==> p.payloadType == RoomJoin
    ensures action == Leave ==> p.payloadType == RoomLeave
    ensures action == HostChange ==> p.payloadType == Host
    ensures p.clientId == clientId && p.clientName == clientName && p.message == roomName
  {
    ClientInfoSync(clientId, clientName, roomName, action, false)
  }

  /** `sendTurnStatus` with the quiet flag: `SyncTurn` when quiet, `Turn` otherwise. */
  function TurnStatus(clientId: int, didTakeTurn: bool, quiet: bool): (p: Payload)
    ensures p.ReadyState?
    ensures p.payloadType == (if quiet then SyncTurn else Turn)
    ensures p.clientId == clientId && p.ready == didTakeTurn
  {
    ReadyState(if quiet then SyncTurn else Turn, clientId, None, didTakeTurn)
  }

  /** `sendTurnStatus` without the quiet flag announces the turn. */
  function TurnStatusLoud(clientId: int, didTakeTurn: bool): (p: Payload)
    ensures p.ReadyState? && p.payloadType == Turn && p.clientId == clientId && p.ready == didTakeTurn
  {
    TurnStatus(clientId, didTakeTurn, false)
  }

  /**
   * `sendReadyStatus` with the quiet flag: `SyncReady` when quiet; otherwise
   * the ready record keeps its own default tag, `ReadyTag`.
   */
  function ReadyStatus(clientId: int, isReady: bool, quiet: bool): (p: Payload)
    ensures p.ReadyState?
    ensures IsQuiet(p.payloadType) <==> quiet
    ensures quiet ==> p.payloadType == SyncReady
    ensures p.clientId == clientId && p.ready == isReady
  {
    ReadyState(if quiet then SyncReady else ReadyTag, clientId, None, isReady)
  }

  /** `sendReadyStatus` without the quiet flag. */
  function ReadyStatusLoud(clientId: int, isReady: bool): (p: Payload)
    ensures p.ReadyState? && !IsQuiet(p.payloadType) && p.clientId == clientId && p.ready == isReady
  {
    ReadyStatus(clientId, isReady, false)
  }

  /** `sendResetReady`: a bare ready record tagged `ResetReady`. */
  function ResetReadyPayload(): (p: Payload)
    ensures p.ReadyState? && p.payloadType == ResetReady
    ensures p.clientId == DefaultClientId && !p.ready
  {
    ReadyState(ResetReady, DefaultClientId, None, false)
  }

  /** `sendResetTurnStatus`: a bare ready record tagged `ResetTurn`. */
  function ResetTurnPayload(): (p: Payload)
    ensures p.ReadyState? && p.payloadType == ResetTurn
    ensures p.clientId == DefaultClientId && !p.ready
  {
    ReadyState(ResetTurn, DefaultClientId, None, false)
  }

  /** `sendMessage`: a `Message` record carrying the sender id and the text. */
  function MessagePayload(clientId: int, message: string): (p: Payload)
    ensures p.Plain? && p.payloadType == Message
    ensures p.clientId == clientId && p.message == Some(message)
  {
    Plain(Message, clientId, Some(message))
  }

  /** `sendGameEvent`: a message from the reserved game-event channel. */
  function GameEvent(message: string): (p: Payload)
    ensures p.payloadType == Message && p.clientId == GameEventChannel
    ensures p.message == Some(message)
  {
    MessagePayload(GameEventChannel, message)
  }

  // ---------------------------------------------------------------------
  // Routing of received payloads.
  // ---------------------------------------------------------------------

  /** Where `processPayload` sends a received payload. */
  datatype Route =
    | SetName(name: string)                                  // stored on the session itself
    | RoomHandler(request: PayloadType, argument: Option<string>)  // a handler of the current room
    | ReadyCheck                                             // the game room's ready handler
    | TurnAction(text: Option<string>)                       // the game room's pick handler
    | SettingsCommand(command: Option<string>)               // the game room's settings handler
    | Reply(notice: Payload)                                 // only a notice back to the sender
    | Unhandled                                              // an unknown tag: a warning is logged
    | Fault                                                  // the handshake record cannot be read

  /** The tags that only a game room can handle. */
  predicate IsGameRequest(t: PayloadType)
  {
    t == ReadyTag || t == Turn || t == Settings || t == Away
  }

  function NotAGameRoomNotice(t: PayloadType): string
  {
    match t
    case ReadyTag => "You must be in a GameRoom to do the ready check"
    case Turn => "You must be in a GameRoom to do a turn"
    case Settings => "You must be in a GameRoom to change settings"
    case _ => "You must be in a GameRoom to use the Away feature"
  }

  /**
   * `processPayload`: the handshake stores the trimmed name, leaving a room
   * is a join of the lobby, `Away` is the settings command "away", and the
   * game requests outside a game room only earn a notice.
   */
  function ProcessPayload(incoming: Payload, inGameRoom: bool): (r: Route)
    ensures (incoming.payloadType == ClientConnect && incoming.Connection? && incoming.clientName.Some?)
              ==> r == SetName(Trim(incoming.clientName.value))
    ensures incoming.payloadType == RoomLeave ==> r == RoomHandler(RoomJoin, Some(Lobby))
    ensures incoming.payloadType == Away && inGameRoom ==> r == SettingsCommand(Some("away"))
    ensures incoming.payloadType == ReadyTag && inGameRoom ==> r == ReadyCheck
    ensures incoming.payloadType == Turn && inGameRoom ==> r == TurnAction(incoming.message)
    ensures incoming.payloadType == Settings && inGameRoom ==> r == SettingsCommand(incoming.message)
    ensures (IsGameRequest(incoming.payloadType) && !inGameRoom)
              ==> r.Reply? && r.notice.payloadType == Message && r.notice.clientId == DefaultClientId
    ensures (r.ReadyCheck? || r.TurnAction? || r.SettingsCommand?)
              <==> (IsGameRequest(incoming.payloadType) && inGameRoom)
  {
    var t := incoming.payloadType;
    match t
    case ClientConnect =>
      if incoming.Connection? && incoming.clientName.Some? then SetName(Trim(incoming.clientName.value))
      else Fault
    case Disconnect => RoomHandler(Disconnect, None)
    case Message => RoomHandler(Message, incoming.message)
    case Reverse => RoomHandler(Reverse, incoming.message)
    case RoomCreate => RoomHandler(RoomCreate, incoming.message)
    case RoomJoin => RoomHandler(RoomJoin, incoming.message)
    case RoomLeave => RoomHandler(RoomJoin, Some(Lobby))
    case RoomList => RoomHandler(RoomList, incoming.message)
    case ReadyTag => if inGameRoom then ReadyCheck else Reply(MessagePayload(DefaultClientId, NotAGameRoomNotice(t)))
    case Turn => if inGameRoom then TurnAction(incoming.message) else Reply(MessagePayload(DefaultClientId, NotAGameRoomNotice(t)))
    case Settings => if inGameRoom then SettingsCommand(incoming.message) else Reply(MessagePayload(DefaultClientId, NotAGameRoomNotice(t)))
    case Away => if inGameRoom then SettingsCommand(Some("away")) else Reply(MessagePayload(DefaultClientId, NotAGameRoomNotice(t)))
    case _ => Unhandled
  }
}
