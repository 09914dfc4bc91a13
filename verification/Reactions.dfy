/**
 What ends a client's time in the server, and with which close code: by its own words, before it has a room and
 in it, by what its room notifies it of, and by a write that fails or an answer that stays away.
 */
module Reactions {
  import opened Common
  import opened RoomCodes
  import opened TextProtocol
  import opened Players
  import opened Joining

  // ----- texts -----

  lemma SealTexts(text: Text)
    ensures ParseRequest(text) == Ok(Seal) <==> text == Ascii("S: \n")
  {
    assert Ascii("S: \n") == Frame(CMD_S, [], []);
    ParseFrame(CMD_S, [], []);
    if ParseRequest(text) == Ok(Seal) {
      var command, argument, payload := FrameOf(text);
    }
  }

  /** The texts that ask for a room: to open one, or to join one by its code. */
  predicate AsksForRoom(text: Text) {
    || text == Ascii("J: \n")
    || (|text| == 8 && text == Ascii("J: ") + text[3..7] + Ascii("\n") && RoomCodes.Valid(RoomCode(text[3..7])))
  }

  lemma RoomTexts(text: Text)
    ensures AsksForRoom(text) <==>
              ParseRequest(text).Ok? && (ParseRequest(text).value.Host? || ParseRequest(text).value.Join?)
  {
    assert Ascii("J: \n") == Frame(CMD_J, [], []) && Ascii("J: ") == CMD_J + [SPACE] && Ascii("\n") == [NEWLINE];
    HostTexts(text);
    if |text| == 8 {
      JoinTexts(text, RoomCode(text[3..7]));
      assert Ascii("J: ") + text[3..7] + Ascii("\n") == Frame(CMD_J, text[3..7], []);
    }
    if ParseRequest(text).Ok? && ParseRequest(text).value.Join? {
      var code := ParseRequest(text).value.code;
      JoinTexts(text, code);
      assert text == Frame(CMD_J, code.bytes, []) && text[3..7] == code.bytes;
    }
  }

  predicate AsksForRelay(text: Text) { ParseRequest(text).Ok? && ParseRequest(text).value.Relay? }

  /** The text cannot be parsed, for one of these reasons. */
  predicate Rejected(text: Text, e: ParseError) { ParseRequest(text) == Err(e) }

  predicate IllFormed(text: Text) {
    || Rejected(text, NoNewline) || Rejected(text, NoSpace)
    || Rejected(text, UnexpectedPayload) || Rejected(text, ExpectedPayload)
  }

  lemma EveryText(text: Text)
    ensures AsksForRoom(text) || text == Ascii("S: \n") || AsksForRelay(text)
            || IllFormed(text) || Rejected(text, InvalidCommandWord) || Rejected(text, InvalidArgument)
  {
    RoomTexts(text);
    SealTexts(text);
  }

  // ----- words of a member -----

  /** Only texts make a task ask its room for anything, and only one text asks for the seal. */
  lemma OnlyTextsAsk(m: ClientMessage)
    ensures React(m) == Ask(SealRoom) <==> m == TextMessage(Ascii("S: \n"))
    ensures React(m).Ask? <==> m.TextMessage? && (m.text == Ascii("S: \n") || AsksForRelay(m.text))
    ensures React(m) != Ask(DropConnection)
  {
    if m.TextMessage? {
      SealTexts(m.text);
    }
  }

  /** After this there is nobody left to send a close code to. */
  predicate Hopeless(m: ClientMessage) {
    m == Close || m == RawFrame || m == EndOfStream || m == Failed(None)
  }

  /** What the close code is for, if a client's words are answered with one. */
  predicate Deserves(m: ClientMessage, pongs: nat, code: CloseCode) {
    || m == Failed(Some(code))
    || match code
       case Unsupported => m == Binary
       case Protocol => m == Ping || (m == Pong && pongs == 0)
       case AlreadyInRoom => m.TextMessage? && AsksForRoom(m.text)
       case InvalidFormat => m.TextMessage? && IllFormed(m.text)
       case InvalidCommand => m.TextMessage? && Rejected(m.text, InvalidCommandWord)
       case InvalidDestination => m.TextMessage? && Rejected(m.text, InvalidArgument)
       case _ => false
  }

  lemma WordsClose(m: ClientMessage, code: CloseCode)
    ensures React(m) == CloseWith(code) <==> Deserves(m, 1, code)
    ensures React(m) == CountPong <==> m == Pong
    ensures React(m) == Vanish <==> Hopeless(m)
  {
    if m.TextMessage? {
      RoomTexts(m.text);
      SealTexts(m.text);
    }
  }

  lemma ReactionDecides(p: Player, reaction: Reaction, code: CloseCode)
    requires p.phase.Running? && p.inbox != [] && reaction != Ask(DropConnection)
    ensures var q := AfterRead(Consumed(p), reaction);
            && (q.phase.Running? <==> reaction.CountPong? && p.pongs > 0)
            && (q.phase == Asking(SealRoom) <==> reaction == Ask(SealRoom))
            && (q.phase.Asking? && q.phase.cmd.SendTo? <==> reaction.Ask? && reaction.cmd.SendTo?)
            && (q.phase == Asking(DropConnection) <==> reaction.Vanish?)
            && (q.phase == Closing(code) <==>
                  reaction == CloseWith(code) || (reaction.CountPong? && p.pongs == 0 && code == Protocol))
            && q.pongs == p.pongs - (if q.phase.Running? then 1 else 0) && q.wire == p.wire && q.cursor == p.cursor
  {
  }

  /** What becomes of a task that reads its client's next words: it asks, it goes on, it closes, or it drops. */
  lemma WordsDecide(capacity: nat, p: Player, code: CloseCode)
    requires p.phase.Running? && p.inbox != []
    ensures var m, q := p.inbox[0], AfterAct(capacity, p, ReadClient);
            && (q.phase.Running? <==> m == Pong && p.pongs > 0)
            && (q.phase == Asking(SealRoom) <==> m == TextMessage(Ascii("S: \n")))
            && (q.phase.Asking? && q.phase.cmd.SendTo? <==> m.TextMessage? && AsksForRelay(m.text))
            && (q.phase == Asking(DropConnection) <==> Hopeless(m))
            && (q.phase == Closing(code) <==> Deserves(m, p.pongs, code))
            && q.pongs == p.pongs - (if q.phase.Running? then 1 else 0) && q.wire == p.wire && q.cursor == p.cursor
  {
    OnlyTextsAsk(p.inbox[0]);
    WordsClose(p.inbox[0], code);
    ReactionDecides(p, React(p.inbox[0]), code);
  }

  // ----- first words -----

  /** The same for a client that has no room yet; silence counts as well. */
  predicate DeservesAtFirst(outcome: Outcome, code: CloseCode) {
    || outcome == Heard(Failed(Some(code)))
    || match code
       case DidNotJoinRoom => outcome == NothingInTime
       case Unsupported => outcome == Heard(Binary)
       case Protocol => outcome == Heard(Ping) || outcome == Heard(Pong)
       case NotInRoom =>
         outcome.Heard? && outcome.m.TextMessage? && (outcome.m.text == Ascii("S: \n") || AsksForRelay(outcome.m.text))
       case InvalidFormat => outcome.Heard? && outcome.m.TextMessage? && IllFormed(outcome.m.text)
       case InvalidCommand => outcome.Heard? && outcome.m.TextMessage? && Rejected(outcome.m.text, InvalidCommandWord)
       case InvalidDestination => outcome.Heard? && outcome.m.TextMessage? && Rejected(outcome.m.text, InvalidArgument)
       case _ => false
  }

  /** Which first words cost a client its connection, and how it is closed. */
  lemma FirstWordsDecide(outcome: Outcome, code: CloseCode)
    ensures CommandFor(outcome) == CloseConnection(code) <==> DeservesAtFirst(outcome, code)
    ensures CommandFor(outcome) == DropClient <==>
              outcome.Heard? && Hopeless(outcome.m)
    ensures CommandFor(outcome).CreateRoom? || CommandFor(outcome).JoinRoom? <==>
              outcome.Heard? && outcome.m.TextMessage? && AsksForRoom(outcome.m.text)
  {
    if outcome.Heard? && outcome.m.TextMessage? {
      RoomTexts(outcome.m.text);
      SealTexts(outcome.m.text);
    }
  }

  // ----- notifications, and clients that cannot be reached -----

  /** A terminal notification ends the task with a code of its own; another is shown, if the client can be reached. */
  lemma NoticesDecide(capacity: nat, p: Player, ok: bool, code: CloseCode)
    requires p.phase.Running? && p.cursor < |p.log| <= p.cursor + capacity
    ensures var n, q := p.log[p.cursor], AfterAct(capacity, p, TakeNotice(ok));
            && (q.phase == Closing(code) <==>
                  || n == Failure(code)
                  || (n == HostLeft && code == HostDisconnected) || (n == RoomSealed && code == RoomIsSealed))
            && (q.phase.Running? <==> ok && !n.HostLeft? && !n.RoomSealed? && !n.Failure?)
            && (q.phase == Asking(DropConnection) <==> !ok && !n.HostLeft? && !n.RoomSealed? && !n.Failure?)
            && (!q.phase.Running? ==> q.wire == p.wire)
  {
  }

  /** A client that cannot be written to, or does not answer in time, is dropped. */
  lemma UnreachableIsDropped(capacity: nat, p: Player)
    ensures AfterAct(capacity, p, Greet(false)) == p.(phase := Asking(DropConnection))
    ensures AfterAct(capacity, p, Act.SendPing(false)) == p.(phase := Asking(DropConnection))
    ensures AfterAct(capacity, p, TimeOut) == p.(phase := Asking(DropConnection))
  {
  }

  // ----- readiness -----

  /** Nothing holds a task up but a full queue: what it can do next in each phase, whatever else it has to do. */
  lemma TaskIsReady(p: Player, requestsOpen: bool, closesOpen: bool, shutdown: bool, act: Act)
    requires Faithful(p)
    ensures p.phase.Greeting? ==> (CanAct(p, act, requestsOpen, closesOpen, shutdown) <==> act.Greet?)
    ensures p.phase.Running? ==>
              (CanAct(p, act, requestsOpen, closesOpen, shutdown) <==>
                 || (act.ReadClient? && p.inbox != []) || (act.TakeNotice? && p.cursor != |p.log|)
                 || act.SendPing? || act.TimeOut? || act.Reconfigure? || (act.Abandon? && shutdown && !p.deaf))
    ensures p.phase.Asking? ==> (CanAct(p, act, requestsOpen, closesOpen, shutdown) <==> act.Submit? && requestsOpen)
    ensures p.phase.Closing? ==> (CanAct(p, act, requestsOpen, closesOpen, shutdown) <==> act.Submit? && closesOpen)
    ensures p.phase.Leaving? ==> (CanAct(p, act, requestsOpen, closesOpen, shutdown) <==> act.Return?)
    ensures p.phase.Done? ==> !CanAct(p, act, requestsOpen, closesOpen, shutdown)
  {
  }
}
