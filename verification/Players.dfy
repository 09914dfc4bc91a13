/**
 One player task (src/player/in_room.rs): it greets the client, then relays between the client,
 the room's request and close queues, and the room's notifications, until it ends with at most
 one terminal request. Each branch of its select is one act; which branch is taken, and whether
 writing to the client works, is the environment's choice.
 */
module Players {
  import opened Common
  import opened RoomCodes
  import opened TextProtocol
  import opened NotificationRing

  datatype Notification =
    | PlayerJoined(id: u32)
    | PlayerLeft(id: u32)
    | Relayed(kind: MessageKind, sender: u32, payload: Text)
    | HostLeft
    | RoomSealed
    | Failure(code: CloseCode)

  datatype Command =
    | SealRoom
    | SendTo(kind: MessageKind, to: u32, payload: Text)
    | DropConnection

  /** What can come out of the client's stream. A failure may or may not have a close code. */
  datatype ClientMessage =
    | TextMessage(text: Text) | Binary | Ping | Pong | Close | RawFrame
    | Failed(code: Option<CloseCode>)
    | EndOfStream

  datatype Reaction = Ask(cmd: Command) | CloseWith(code: CloseCode) | Vanish | CountPong

  function ReactToRequest(parsed: Result<PlayerRequest, ParseError>): Reaction {
    match parsed
    case Ok(Seal) => Ask(SealRoom)
    case Ok(Relay(kind, to, payload)) => Ask(SendTo(kind, to, payload))
    case Ok(_) => CloseWith(AlreadyInRoom)
    case Err(e) => CloseWith(CloseCodeFor(e))
  }

  function React(m: ClientMessage): Reaction {
    match m
    case TextMessage(text) => ReactToRequest(ParseRequest(text))
    case Binary => CloseWith(Unsupported)
    case Ping => CloseWith(Protocol)
    case Pong => CountPong
    case Close => Vanish
    case RawFrame => Vanish
    case Failed(Some(code)) => CloseWith(code)
    case Failed(None) => Vanish
    case EndOfStream => Vanish
  }

  /** Asking and Closing: waiting for a place in the request or the close queue. */
  datatype Phase =
    | Greeting
    | Running
    | Asking(cmd: Command)
    | Closing(code: CloseCode)
    | Leaving  // the terminal request is queued
    | Done     // the task has returned and its receiver is gone

  datatype Player = Player(
    id: u32,
    stream: Stream,
    code: RoomCode,
    others: seq<u32>,            // other_ids, the members when the player joined
    log: seq<Notification>,      // everything the room addressed to the player, in order
    cursor: nat,                 // how much of the log the task has read
    phase: Phase,
    wire: seq<ServerMessage>,    // what was written to the client, pings aside
    inbox: seq<ClientMessage>,   // what the client has yet to say
    pongs: nat,                  // num_expected_pongs
    msgSent: map<u32, nat>,      // the room's count of messages to each other player
    since: nat,                  // history: how many messages the room had accepted when the player joined
    heard: seq<ClientMessage>,   // history: what the task has read from the client
    deaf: bool)                  // joined after the shutdown signal, which its receiver therefore never yields

  predicate Ended(p: Player) { p.phase.Leaving? || p.phase.Done? }

  /** The task will do nothing more than queue its terminal request and return. */
  predicate Finishing(p: Player) {
    Ended(p) || p.phase.Closing? || p.phase == Asking(DropConnection)
  }

  // ----- what the client is shown -----

  function Newcomers(ids: seq<u32>): seq<ServerMessage> {
    seq(|ids|, i requires 0 <= i < |ids| => Newcomer(ids[i]))
  }

  function Script(id: u32, others: seq<u32>, code: RoomCode): seq<ServerMessage> {
    [Welcome(id)] + Newcomers(others) + [RoomIs(code)]
  }

  function Greetings(p: Player): seq<ServerMessage> {
    Script(p.id, p.others, p.code)
  }

  predicate IsTerminal(n: Notification) { n.HostLeft? || n.RoomSealed? || n.Failure? }

  function CodeFor(n: Notification): CloseCode
    requires IsTerminal(n)
  {
    match n case HostLeft => HostDisconnected case RoomSealed => RoomIsSealed case Failure(code) => code
  }

  function Note(n: Notification): seq<ServerMessage> {
    match n
    case PlayerJoined(id) => [Newcomer(id)]
    case PlayerLeft(id) => [Departed(id)]
    case Relayed(kind, sender, payload) => [From(kind, sender, payload)]
    case _ => []
  }

  function Notes(log: seq<Notification>): seq<ServerMessage> {
    if log == [] then [] else Notes(log[..|log| - 1]) + Note(log[|log| - 1])
  }

  // ----- acts -----

  datatype Act =
    | Greet(ok: bool)
    | ReadClient
    | TakeNotice(ok: bool)
    | SendPing(ok: bool)
    | TimeOut
    | Reconfigure
    | Submit
    | Return
    | Abandon

  predicate CanAct(p: Player, act: Act, requestsOpen: bool, closesOpen: bool, shutdown: bool) {
    match act
    case Greet(_) => p.phase.Greeting? && |p.wire| < |Greetings(p)|
    case ReadClient => p.phase.Running? && p.inbox != []
    case TakeNotice(_) => p.phase.Running? && p.cursor < |p.log|
    case SendPing(_) => p.phase.Running?
    case TimeOut => p.phase.Running?
    case Reconfigure => p.phase.Running?
    case Submit => (p.phase.Asking? && requestsOpen) || (p.phase.Closing? && closesOpen)
    case Return => p.phase.Leaving?
    case Abandon => p.phase.Running? && shutdown && !p.deaf
  }

  function AfterGreet(p: Player, ok: bool): Player {
    if !ok || |p.wire| >= |Greetings(p)| then p.(phase := Asking(DropConnection))
    else
      p.(wire := p.wire + [Greetings(p)[|p.wire|]],
         phase := if |p.wire| + 1 == |Greetings(p)| then Running else Greeting)
  }

  /** The next message of the client moves from what it has yet to say to what was heard. */
  function Consumed(p: Player): Player
    requires p.inbox != []
  {
    p.(inbox := p.inbox[1..], heard := p.heard + [p.inbox[0]])
  }

  function AfterRead(p: Player, reaction: Reaction): Player {
    match reaction
    case Ask(cmd) => p.(phase := Asking(cmd))
    case CloseWith(code) => p.(phase := Closing(code))
    case Vanish => p.(phase := Asking(DropConnection))
    case CountPong => if p.pongs > 0 then p.(pongs := p.pongs - 1) else p.(phase := Closing(Protocol))
  }

  function AfterNotice(capacity: nat, p: Player, ok: bool): Player
    requires p.cursor < |p.log|
  {
    match RecvFromLog(capacity, p.log, p.cursor)
    case Lagged(_) => p.(phase := Closing(InternalError))
    case Nothing => p
    case Got(n) =>
      if IsTerminal(n) then p.(cursor := p.cursor + 1, phase := Closing(CodeFor(n)))
      else if ok then p.(cursor := p.cursor + 1, wire := p.wire + Note(n))
      else p.(cursor := p.cursor + 1, phase := Asking(DropConnection))
  }

  function AfterAct(capacity: nat, p: Player, act: Act): Player {
    match act
    case Greet(ok) => AfterGreet(p, ok)
    case ReadClient => if p.inbox == [] then p else AfterRead(Consumed(p), React(p.inbox[0]))
    case TakeNotice(ok) => if p.cursor >= |p.log| then p else AfterNotice(capacity, p, ok)
    case SendPing(ok) => if ok then p.(pongs := p.pongs + 1) else p.(phase := Asking(DropConnection))
    case TimeOut => p.(phase := Asking(DropConnection))
    case Reconfigure => p
    case Submit => p.(phase := if p.phase.Asking? && p.phase.cmd != DropConnection then Running else Leaving)
    case Return => p.(phase := Done)
    case Abandon => p.(phase := Done)
  }

  // ----- no silent gaps -----

  /** What a client has been shown when its task has read n notifications. */
  function Display(p: Player, n: nat): seq<ServerMessage>
    requires n <= |p.log|
  {
    Greetings(p) + Notes(p.log[..n])
  }

  /**
   The client has been shown a gap-free, in-order beginning of greetings and log; while the task
   still serves the client, exactly the part of the log it has read.
   */
  predicate Faithful(p: Player) {
    && p.cursor <= |p.log|
    && p.wire <= Display(p, p.cursor)
    && (p.phase.Greeting? ==> p.cursor == 0 && |p.wire| < |Greetings(p)|)
    && (p.phase.Running? || (p.phase.Asking? && p.phase.cmd != DropConnection) ==>
          && p.wire == Display(p, p.cursor)
          && forall i :: 0 <= i < p.cursor ==> !IsTerminal(p.log[i]))
  }

  function Pushed(p: Player, n: Notification): Player {
    p.(log := p.log + [n])
  }

  lemma GreetKeepsFaithful(p: Player, ok: bool)
    requires Faithful(p) && p.phase.Greeting?
    ensures Faithful(AfterGreet(p, ok))
  {
  }

  lemma DisplayNext(p: Player)
    requires p.cursor < |p.log|
    ensures Display(p, p.cursor + 1) == Display(p, p.cursor) + Note(p.log[p.cursor])
  {
    assert p.log[..p.cursor + 1][..p.cursor] == p.log[..p.cursor];
  }

  lemma NoticeKeepsFaithful(capacity: nat, p: Player, ok: bool)
    requires Faithful(p) && p.phase.Running? && p.cursor < |p.log|
    ensures Faithful(AfterNotice(capacity, p, ok))
  {
    var n := p.log[p.cursor];
    DisplayNext(p);
    if |p.log| - p.cursor <= capacity && ok && !IsTerminal(n) {
      assert forall i :: 0 <= i < p.cursor + 1 ==> !IsTerminal(p.log[i]);
      assert p.wire + Note(n) == Display(p, p.cursor + 1);
    }
  }

  lemma ActKeepsFaithful(capacity: nat, p: Player, act: Act, requestsOpen: bool, closesOpen: bool, shutdown: bool)
    requires Faithful(p) && CanAct(p, act, requestsOpen, closesOpen, shutdown)
    ensures Faithful(AfterAct(capacity, p, act))
  {
    match act {
      case TakeNotice(ok) => NoticeKeepsFaithful(capacity, p, ok);
      case Greet(ok) => GreetKeepsFaithful(p, ok);
      case _ =>
    }
  }

  /** What happens to a player: its task acts, or the room addresses it. */
  datatype Event = Did(act: Act, requestsOpen: bool, closesOpen: bool, shutdown: bool) | Told(n: Notification)

  predicate CanHappen(p: Player, e: Event) {
    e.Did? ==> CanAct(p, e.act, e.requestsOpen, e.closesOpen, e.shutdown)
  }

  function AfterEvent(capacity: nat, p: Player, e: Event): Player {
    match e case Did(act, _, _, _) => AfterAct(capacity, p, act) case Told(n) => Pushed(p, n)
  }

  ghost predicate Life(capacity: nat, p: Player, events: seq<Event>)
    decreases |events|
  {
    events == [] || (CanHappen(p, events[0]) && Life(capacity, AfterEvent(capacity, p, events[0]), events[1..]))
  }

  function Outcome(capacity: nat, p: Player, events: seq<Event>): Player
    decreases |events|
  {
    if events == [] then p else Outcome(capacity, AfterEvent(capacity, p, events[0]), events[1..])
  }

  function Submits(events: seq<Event>): nat {
    if events == [] then 0 else (if events[0].Did? && events[0].act.Submit? then 1 else 0) + Submits(events[1..])
  }

  /** A task that is to end shows its client nothing more, and submits its one terminal request at most. */
  lemma {:induction false} FinishedForGood(capacity: nat, p: Player, events: seq<Event>)
    requires Finishing(p) && Life(capacity, p, events)
    ensures Finishing(Outcome(capacity, p, events)) && Outcome(capacity, p, events).wire == p.wire
    ensures Submits(events) <= if Ended(p) then 0 else 1
    decreases |events|
  {
    if events == [] {
    } else {
      FinishedForGood(capacity, AfterEvent(capacity, p, events[0]), events[1..]);
    }
  }

  /** The terminal requests of a life: drops and closes, not messages and seals. */
  function Terminals(capacity: nat, p: Player, events: seq<Event>): nat
    decreases |events|
  {
    if events == [] then 0
    else
      (if events[0].Did? && events[0].act.Submit? && Finishing(p) then 1 else 0)
      + Terminals(capacity, AfterEvent(capacity, p, events[0]), events[1..])
  }

  /** Over its whole life a task submits at most one of them. */
  lemma {:induction false} OneTerminalAtMost(capacity: nat, p: Player, events: seq<Event>)
    requires Life(capacity, p, events)
    ensures Terminals(capacity, p, events) <= if Ended(p) then 0 else 1
    decreases |events|
  {
    if events == [] {
    } else {
      OneTerminalAtMost(capacity, AfterEvent(capacity, p, events[0]), events[1..]);
    }
  }

  /**
   A reader the ring has overtaken shows its client nothing more, whatever happens after it notices:
   over any further life it only closes and returns.
   */
  lemma {:induction false} OvertakenNeverResumes(capacity: nat, p: Player, ok: bool, events: seq<Event>)
    requires p.phase.Running? && p.cursor < |p.log| && |p.log| - p.cursor > capacity
    requires Life(capacity, AfterAct(capacity, p, TakeNotice(ok)), events)
    ensures AfterAct(capacity, p, TakeNotice(ok)).phase == Closing(InternalError)
    ensures Outcome(capacity, AfterAct(capacity, p, TakeNotice(ok)), events).wire == p.wire
  {
    FinishedForGood(capacity, AfterAct(capacity, p, TakeNotice(ok)), events);
  }
}
