/** A client that has yet to join a room (src/player/joining.rs): what its first words lead to. */
module Joining {
  import opened Common
  import opened RoomCodes
  import opened TextProtocol
  import opened Players

  datatype LobbyCommand =
    | CreateRoom
    | JoinRoom(code: RoomCode)
    | CloseConnection(reason: CloseCode)
    | DropClient

  /** What the wait for the first message ends with. */
  datatype Outcome = NothingInTime | Heard(m: ClientMessage)

  function CommandFor(outcome: Outcome): LobbyCommand {
    match outcome
    case NothingInTime => CloseConnection(DidNotJoinRoom)
    case Heard(TextMessage(text)) =>
      (match ParseRequest(text)
       case Ok(Host) => CreateRoom
       case Ok(Join(code)) => JoinRoom(code)
       case Ok(_) => CloseConnection(NotInRoom)
       case Err(e) => CloseConnection(CloseCodeFor(e)))
    case Heard(Binary) => CloseConnection(Unsupported)
    case Heard(Ping) => CloseConnection(Protocol)
    case Heard(Pong) => CloseConnection(Protocol)
    case Heard(Failed(Some(code))) => CloseConnection(code)
    case Heard(_) => DropClient
  }

  lemma HostTexts(text: Text)
    ensures ParseRequest(text) == Ok(Host) <==> text == Frame(CMD_J, [], [])
  {
    if ParseRequest(text) == Ok(Host) {
      var command, argument, payload := FrameOf(text);
    }
    ParseJoinFrame([]);
  }

  lemma JoinTexts(text: Text, code: RoomCode)
    ensures ParseRequest(text) == Ok(Join(code)) <==> RoomCodes.Valid(code) && text == Frame(CMD_J, ToText(code), [])
  {
    if ParseRequest(text) == Ok(Join(code)) {
      var command, argument, payload := FrameOf(text);
      assert argument == code.bytes;
    }
    if RoomCodes.Valid(code) {
      ParseJoinFrame(ToText(code));
    }
  }

  /** A room is created for exactly one text, and a room is joined for exactly one text per valid code. */
  lemma OnlyJoinTextsJoin(outcome: Outcome, code: RoomCode)
    ensures CommandFor(outcome) == CreateRoom <==> outcome == Heard(TextMessage(Frame(CMD_J, [], [])))
    ensures CommandFor(outcome) == JoinRoom(code)
       <==> RoomCodes.Valid(code) && outcome == Heard(TextMessage(Frame(CMD_J, ToText(code), [])))
  {
    HostTexts(Frame(CMD_J, [], []));
    JoinTexts(Frame(CMD_J, ToText(code), []), code);
    if outcome.Heard? && outcome.m.TextMessage? {
      HostTexts(outcome.m.text);
      JoinTexts(outcome.m.text, code);
    }
  }
}
