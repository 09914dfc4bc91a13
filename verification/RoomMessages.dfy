/**
 What becomes of a message, from the text a client wrote to the text another is shown, in every state of
 every run: nothing is made up, doubled or put out of order, and nothing is lost on the way.
 */
module RoomMessages {
  import opened Common
  import RoomCodes
  import opened TextProtocol
  import opened Players
  import opened Rooms
  import opened RoomDelivery
  import opened RoomRuns
  import RoomLimits
  import opened Sequences

  // ----- what has been read so far -----

  lemma {:induction false} RelaysOfPrefix(me: u32, wire: seq<ServerMessage>, longer: seq<ServerMessage>)
    requires wire <= longer
    ensures ClientRelays(me, wire) <= ClientRelays(me, longer)
    decreases |longer|
  {
    if wire == longer {
    } else {
      RelaysOfPrefix(me, wire, longer[..|longer| - 1]);
    }
  }

  lemma {:induction false} RelaysOfLogPrefix(me: u32, log: seq<Notification>, n: nat)
    requires n <= |log|
    ensures Relays(me, log[..n]) <= Relays(me, log)
    decreases |log|
  {
    if n == |log| {
      assert log[..n] == log;
    } else {
      assert log[..|log| - 1][..n] == log[..n];
      RelaysOfLogPrefix(me, log[..|log| - 1], n);
    }
  }

  lemma ReadSoFar(p: Player, accepted: seq<Accepted>)
    requires Faithful(p) && ReceivedAll(p, accepted)
    ensures ClientRelays(p.id, p.wire) <= Addressed(p.id, accepted[p.since..])
    ensures CaughtUp(p) ==> ClientRelays(p.id, p.wire) == Addressed(p.id, accepted[p.since..])
  {
    RelaysOfPrefix(p.id, p.wire, Display(p, p.cursor));
    ClientFollowsLog(p, p.log[..p.cursor]);
    RelaysOfLogPrefix(p.id, p.log, p.cursor);
    assert p.cursor == |p.log| ==> p.log[..p.cursor] == p.log;
  }

  lemma MemberIsConserved(r: Room, id: u32)
    requires Sound(r) && id in r.tasks
    ensures r.tasks[id].id == id && Faithful(r.tasks[id])
    ensures Conserved(Exact(r.mode), r.tasks[id], r.accepted, r.requests)
  {
  }

  /**
   At any time, also while the room closes or drains, what a client has read is a beginning of the accepted
   messages addressed to it since it joined, each with its kind, sender and payload, in the order they were
   accepted; once it has been shown everything, it is all of them.
   */
  lemma ClientGetsMessages(r: Room, id: u32)
    requires Sound(r) && id in r.tasks
    ensures r.tasks[id].since <= |r.accepted|
    ensures ClientRelays(id, r.tasks[id].wire) <= Addressed(id, r.accepted[r.tasks[id].since..])
    ensures CaughtUp(r.tasks[id]) ==>
              ClientRelays(id, r.tasks[id].wire) == Addressed(id, r.accepted[r.tasks[id].since..])
  {
    MemberIsConserved(r, id);
    ReadSoFar(r.tasks[id], r.accepted);
  }

  // ----- the messages of one player to another -----

  /** The messages of p to q, in a receiver's list and in a sender's list. */
  function FromSender(p: u32, messages: seq<Accepted>): seq<Command> {
    if messages == [] then []
    else
      var last := messages[|messages| - 1];
      FromSender(p, messages[..|messages| - 1])
      + if last.sender == p then [SendTo(last.kind, last.to, last.payload)] else []
  }

  function ToReceiver(q: u32, cmds: seq<Command>): seq<Command> {
    if cmds == [] then []
    else
      var last := cmds[|cmds| - 1];
      ToReceiver(q, cmds[..|cmds| - 1]) + if last.SendTo? && last.to == q then [last] else []
  }

  lemma LastOfPair(p: u32, q: u32, messages: seq<Accepted>, a: Accepted, cmds: seq<Command>, cmd: Command)
    ensures FromSender(p, messages + [a])
         == FromSender(p, messages) + if a.sender == p then [SendTo(a.kind, a.to, a.payload)] else []
    ensures ToReceiver(q, cmds + [cmd]) == ToReceiver(q, cmds) + if cmd.SendTo? && cmd.to == q then [cmd] else []
  {
  }

  lemma {:induction false} SamePair(p: u32, q: u32, accepted: seq<Accepted>)
    ensures FromSender(p, Addressed(q, accepted)) == ToReceiver(q, Sent(p, accepted))
  {
    if accepted == [] {
    } else {
      var init, a := accepted[..|accepted| - 1], accepted[|accepted| - 1];
      SamePair(p, q, init);
      LastOfPair(p, q, Addressed(q, init), a, Sent(p, init), SendTo(a.kind, a.to, a.payload));
      assert Addressed(q, accepted) == if a.to == q then Addressed(q, init) + [a] else Addressed(q, init);
      assert Sent(p, accepted)
          == if a.sender == p then Sent(p, init) + [SendTo(a.kind, a.to, a.payload)] else Sent(p, init);
    }
  }

  lemma {:induction false} SplitAccepted(id: u32, a: seq<Accepted>, b: seq<Accepted>)
    ensures Addressed(id, a + b) == Addressed(id, a) + Addressed(id, b)
    ensures Sent(id, a + b) == Sent(id, a) + Sent(id, b)
  {
    if b == [] {
      assert a + b == a;
    } else {
      var init, last := b[..|b| - 1], b[|b| - 1];
      assert (a + b)[..|a + b| - 1] == a + init;
      SplitAccepted(id, a, init);
    }
  }

  lemma SinceJoining(id: u32, accepted: seq<Accepted>, i: nat, m: nat)
    requires i <= m <= |accepted|
    ensures Addressed(id, accepted[i..]) == Addressed(id, accepted[i..m]) + Addressed(id, accepted[m..])
    ensures Sent(id, accepted[i..]) == Sent(id, accepted[i..m]) + Sent(id, accepted[m..])
  {
    assert accepted[i..] == accepted[i..m] + accepted[m..];
    SplitAccepted(id, accepted[i..m], accepted[m..]);
  }

  lemma {:induction false} FromSenderPrefix(p: u32, a: seq<Accepted>, b: seq<Accepted>)
    requires a <= b
    ensures FromSender(p, a) <= FromSender(p, b)
    decreases |b|
  {
    if a == b {
    } else {
      FromSenderPrefix(p, a, b[..|b| - 1]);
    }
  }

  lemma {:induction false} ToReceiverJoins(q: u32, a: seq<Command>, b: seq<Command>)
    ensures ToReceiver(q, a + b) == ToReceiver(q, a) + ToReceiver(q, b)
  {
    if b == [] {
      assert a + b == a;
    } else {
      assert (a + b)[..|a + b| - 1] == a + b[..|b| - 1];
      ToReceiverJoins(q, a, b[..|b| - 1]);
    }
  }

  lemma {:induction false} ToReceiverWithin(q: u32, a: seq<Command>, b: seq<Command>)
    requires Within(a, b)
    ensures Within(ToReceiver(q, a), ToReceiver(q, b))
    decreases |b|
  {
    if a == [] {
    } else {
      var init, x := b[..|b| - 1], b[|b| - 1];
      var counted := if x.SendTo? && x.to == q then [x] else [];
      assert ToReceiver(q, b) == ToReceiver(q, init) + counted && ToReceiver(q, init) + [] == ToReceiver(q, init);
      if Within(a, init) {
        ToReceiverWithin(q, a, init);
        WithinGrows(ToReceiver(q, a), ToReceiver(q, init), x);
      } else {
        var earlier := ToReceiver(q, a[..|a| - 1]);
        assert ToReceiver(q, a) == earlier + counted && earlier + [] == earlier;
        ToReceiverWithin(q, a[..|a| - 1], init);
        WithinGrows(ToReceiver(q, a[..|a| - 1]), ToReceiver(q, init), x);
      }
    }
  }

  // ----- since both were members -----

  function Skip<T>(s: seq<T>, n: nat): seq<T> {
    if n <= |s| then s[n..] else []
  }

  /** How many messages the room had accepted when the later of the two joined. */
  function Together(p: Player, q: Player): nat {
    if p.since >= q.since then p.since else q.since
  }

  /** What q has read, and what p has asked for, less what belongs to the time before. */
  function ReadTogether(p: Player, q: Player, accepted: seq<Accepted>): seq<Accepted>
    requires Together(p, q) <= |accepted|
  {
    Skip(ClientRelays(q.id, q.wire), |Addressed(q.id, accepted[q.since..Together(p, q)])|)
  }

  function AskedTogether(p: Player, q: Player, accepted: seq<Accepted>): seq<Command>
    requires Together(p, q) <= |accepted|
  {
    Skip(AskedBy(p.heard), |Sent(p.id, accepted[p.since..Together(p, q)])|)
  }

  lemma ReadSplits(p: Player, q: Player, accepted: seq<Accepted>)
    requires Faithful(q) && ReceivedAll(q, accepted) && p.since <= |accepted|
    ensures ReadTogether(p, q, accepted) <= Addressed(q.id, accepted[Together(p, q)..])
    ensures CaughtUp(q) ==> ReadTogether(p, q, accepted) == Addressed(q.id, accepted[Together(p, q)..])
  {
    ReadSoFar(q, accepted);
    SinceJoining(q.id, accepted, q.since, Together(p, q));
  }

  lemma SkipFirst(a: seq<Command>, b: seq<Command>, c: seq<Command>, d: seq<Command>)
    ensures Skip((a + b) + c + d, |a|) == b + c + d && (a + b) + c + d == a + (b + c + d)
  {
  }

  lemma AskedSplits(p: Player, q: Player, accepted: seq<Accepted>, requests: seq<Request>)
    requires p.since <= |accepted| && q.since <= |accepted| && SentAll(true, p, accepted, requests) && Unspoiled(p)
    ensures AskedTogether(p, q, accepted)
         == Sent(p.id, accepted[Together(p, q)..]) + Waiting(p.id, requests) + Pending(p.phase)
    ensures AskedBy(p.heard) == Sent(p.id, accepted[p.since..Together(p, q)]) + AskedTogether(p, q, accepted)
  {
    SinceJoining(p.id, accepted, p.since, Together(p, q));
    SkipFirst(Sent(p.id, accepted[p.since..Together(p, q)]), Sent(p.id, accepted[Together(p, q)..]),
              Waiting(p.id, requests), Pending(p.phase));
  }

  lemma MiddleIsWithin<T>(a: seq<T>, b: seq<T>, c: seq<T>, all: seq<T>)
    requires Within(a + b + c, all)
    ensures Within(b, all)
  {
    SuffixIsWithin(a, b);
    PrefixIsWithin(a + b, a + b + c);
    WithinChain(b, a + b, a + b + c);
    WithinChain(b, a + b + c, all);
  }

  /** What was accepted of p since then is among what p asked for. */
  lemma AcceptedWasAsked(exact: bool, p: Player, q: Player, accepted: seq<Accepted>, requests: seq<Request>)
    requires p.since <= |accepted| && q.since <= |accepted| && SentAll(exact, p, accepted, requests)
    ensures Within(Sent(p.id, accepted[Together(p, q)..]), AskedBy(p.heard))
  {
    SinceJoining(p.id, accepted, p.since, Together(p, q));
    var before, since := Sent(p.id, accepted[p.since..Together(p, q)]), Sent(p.id, accepted[Together(p, q)..]);
    var rest := Waiting(p.id, requests) + Pending(p.phase);
    WithinItself(AskedBy(p.heard));
    assert Out(p, accepted, requests) == before + since + rest;
    MiddleIsWithin(before, since, rest, AskedBy(p.heard));
  }

  /** What q has read of p is a beginning of what was accepted of p for q. */
  lemma ReadWasAccepted(p: Player, q: Player, accepted: seq<Accepted>)
    requires Faithful(q) && ReceivedAll(q, accepted) && p.since <= |accepted|
    ensures var read, sent := FromSender(p.id, ReadTogether(p, q, accepted)), Sent(p.id, accepted[Together(p, q)..]);
            read <= ToReceiver(q.id, sent) && (CaughtUp(q) ==> read == ToReceiver(q.id, sent))
  {
    var m := Together(p, q);
    ReadSplits(p, q, accepted);
    FromSenderPrefix(p.id, ReadTogether(p, q, accepted), Addressed(q.id, accepted[m..]));
    SamePair(p.id, q.id, accepted[m..]);
  }

  /** The messages of p that q has read are among those p asked to be sent to q. */
  lemma ReadWasAsked(exact: bool, p: Player, q: Player, accepted: seq<Accepted>, requests: seq<Request>)
    requires Conserved(exact, p, accepted, requests) && ReceivedAll(q, accepted) && Faithful(q)
    ensures Within(FromSender(p.id, ReadTogether(p, q, accepted)), ToReceiver(q.id, AskedBy(p.heard)))
  {
    var sent := Sent(p.id, accepted[Together(p, q)..]);
    var read := FromSender(p.id, ReadTogether(p, q, accepted));
    ReadWasAccepted(p, q, accepted);
    AcceptedWasAsked(exact, p, q, accepted, requests);
    ToReceiverWithin(q.id, sent, AskedBy(p.heard));
    PrefixIsWithin(read, ToReceiver(q.id, sent));
    WithinChain(read, ToReceiver(q.id, sent), ToReceiver(q.id, AskedBy(p.heard)));
  }

  lemma Regroup(a: seq<Command>, b: seq<Command>, c: seq<Command>)
    ensures a + b + c == a + (b + c)
  {
  }

  lemma AskedIsSentAndMore(p: Player, q: Player, accepted: seq<Accepted>, requests: seq<Request>)
    requires p.since <= |accepted| && q.since <= |accepted| && SentAll(true, p, accepted, requests) && Unspoiled(p)
    ensures AskedTogether(p, q, accepted)
         == Sent(p.id, accepted[Together(p, q)..]) + (Waiting(p.id, requests) + Pending(p.phase))
  {
    AskedSplits(p, q, accepted, requests);
    Regroup(Sent(p.id, accepted[Together(p, q)..]), Waiting(p.id, requests), Pending(p.phase));
  }

  /** What p asked to be sent to q begins with what was accepted of it; the rest is on its way. */
  lemma AskedBegins(p: Player, q: Player, accepted: seq<Accepted>, requests: seq<Request>) returns (rest: seq<Command>)
    requires p.since <= |accepted| && q.since <= |accepted| && SentAll(true, p, accepted, requests) && Unspoiled(p)
    ensures ToReceiver(q.id, AskedTogether(p, q, accepted))
         == ToReceiver(q.id, Sent(p.id, accepted[Together(p, q)..])) + rest
    ensures Waiting(p.id, requests) == [] && Pending(p.phase) == [] ==> rest == []
  {
    var sent, more := Sent(p.id, accepted[Together(p, q)..]), Waiting(p.id, requests) + Pending(p.phase);
    AskedIsSentAndMore(p, q, accepted, requests);
    ToReceiverJoins(q.id, sent, more);
    rest := ToReceiver(q.id, more);
  }

  /** And unless p was told to close they are a beginning of those, or all of them. */
  lemma ReadInOrder(p: Player, q: Player, accepted: seq<Accepted>, requests: seq<Request>)
    requires Conserved(true, p, accepted, requests) && ReceivedAll(q, accepted) && Faithful(q) && Unspoiled(p)
    ensures FromSender(p.id, ReadTogether(p, q, accepted)) <= ToReceiver(q.id, AskedTogether(p, q, accepted))
    ensures CaughtUp(q) && Waiting(p.id, requests) == [] && Pending(p.phase) == [] ==>
              FromSender(p.id, ReadTogether(p, q, accepted)) == ToReceiver(q.id, AskedTogether(p, q, accepted))
  {
    var sent := ToReceiver(q.id, Sent(p.id, accepted[Together(p, q)..]));
    ReadWasAccepted(p, q, accepted);
    var rest := AskedBegins(p, q, accepted, requests);
    assert FromSender(p.id, ReadTogether(p, q, accepted)) <= sent <= sent + rest;
  }

  /** q has been shown everything, and no message of p is on its way. */
  predicate Quiet(r: Room, p: u32, q: u32)
    requires p in r.tasks && q in r.tasks
  {
    CaughtUp(r.tasks[q]) && Waiting(p, r.requests) == [] && Pending(r.tasks[p].phase) == []
  }

  lemma MemberReceives(r: Room, id: u32)
    requires Sound(r) && id in r.tasks
    ensures r.tasks[id].id == id && Faithful(r.tasks[id]) && ReceivedAll(r.tasks[id], r.accepted)
  {
    MemberIsConserved(r, id);
  }

  /** What q has read since both were members is a beginning of what was accepted for q since then, or all of it. */
  lemma ReadIsAccepted(r: Room, p: u32, q: u32)
    requires Sound(r) && p in r.tasks && q in r.tasks
    ensures Together(r.tasks[p], r.tasks[q]) <= |r.accepted|
    ensures ReadTogether(r.tasks[p], r.tasks[q], r.accepted)
         <= Addressed(q, r.accepted[Together(r.tasks[p], r.tasks[q])..])
    ensures CaughtUp(r.tasks[q]) ==>
              ReadTogether(r.tasks[p], r.tasks[q], r.accepted)
              == Addressed(q, r.accepted[Together(r.tasks[p], r.tasks[q])..])
  {
    MemberReceives(r, p);
    MemberReceives(r, q);
    ReadSplits(r.tasks[p], r.tasks[q], r.accepted);
  }

  /** What p has asked for since both were members is accepted, queued, or about to be. */
  lemma AskedIsOut(r: Room, p: u32, q: u32)
    requires Sound(r) && p in r.tasks && q in r.tasks && Exact(r.mode) && Unspoiled(r.tasks[p])
    ensures Together(r.tasks[p], r.tasks[q]) <= |r.accepted|
    ensures AskedTogether(r.tasks[p], r.tasks[q], r.accepted)
         == Sent(p, r.accepted[Together(r.tasks[p], r.tasks[q])..]) + Waiting(p, r.requests) + Pending(r.tasks[p].phase)
  {
    MemberIsConserved(r, p);
    MemberIsConserved(r, q);
    AskedSplits(r.tasks[p], r.tasks[q], r.accepted, r.requests);
  }

  lemma PairEndToEnd(exact: bool, p: Player, q: Player, accepted: seq<Accepted>, requests: seq<Request>)
    requires Conserved(exact, p, accepted, requests) && ReceivedAll(q, accepted) && Faithful(q)
    ensures var read := FromSender(p.id, ReadTogether(p, q, accepted));
            && Within(read, ToReceiver(q.id, AskedBy(p.heard)))
            && (exact && Unspoiled(p) ==> read <= ToReceiver(q.id, AskedTogether(p, q, accepted)))
  {
    ReadWasAsked(exact, p, q, accepted, requests);
    if exact && Unspoiled(p) {
      ReadInOrder(p, q, accepted, requests);
    }
  }

  /**
   End to end, at any time p and q are both members: what q has read of p since both were is, in order, among
   what p asked to be sent to q. As long as the room handles what it takes, and p was not told to close, it is a
   beginning of what p asked for since both were members, one for one.
   */
  lemma EndToEnd(r: Room, p: u32, q: u32)
    requires Sound(r) && p in r.tasks && q in r.tasks && p != q
    ensures Together(r.tasks[p], r.tasks[q]) <= |r.accepted|
    ensures var read := FromSender(p, ReadTogether(r.tasks[p], r.tasks[q], r.accepted));
            && Within(read, ToReceiver(q, AskedBy(r.tasks[p].heard)))
            && (Exact(r.mode) && Unspoiled(r.tasks[p]) ==>
                  read <= ToReceiver(q, AskedTogether(r.tasks[p], r.tasks[q], r.accepted)))
  {
    MemberIsConserved(r, p);
    MemberIsConserved(r, q);
    PairEndToEnd(Exact(r.mode), r.tasks[p], r.tasks[q], r.accepted, r.requests);
  }

  /** Once q has been shown everything, and no message of p is on its way, q has read all p asked for. */
  lemma AllIsRead(r: Room, p: u32, q: u32)
    requires Sound(r) && Exact(r.mode) && p in r.tasks && q in r.tasks && p != q
    requires Unspoiled(r.tasks[p]) && Quiet(r, p, q)
    ensures Together(r.tasks[p], r.tasks[q]) <= |r.accepted|
    ensures FromSender(p, ReadTogether(r.tasks[p], r.tasks[q], r.accepted))
         == ToReceiver(q, AskedTogether(r.tasks[p], r.tasks[q], r.accepted))
  {
    MemberIsConserved(r, p);
    MemberIsConserved(r, q);
    ReadInOrder(r.tasks[p], r.tasks[q], r.accepted, r.requests);
  }

  // ----- from text to text -----

  function Texts(wire: seq<ServerMessage>): seq<Text> {
    seq(|wire|, i requires 0 <= i < |wire| => Render(wire[i]))
  }

  /** How a client reads the texts it is sent. */
  function ReadAll(texts: seq<Text>): seq<ServerMessage> {
    if texts == [] then []
    else
      ReadAll(texts[..|texts| - 1])
      + match Read(texts[|texts| - 1]) case Some(m) => [m] case None => []
  }

  lemma ReadOneMore(wire: seq<ServerMessage>, m: ServerMessage)
    requires ReadAll(Texts(wire)) == wire && (m.RoomIs? ==> RoomCodes.Valid(m.code))
    ensures ReadAll(Texts(wire + [m])) == wire + [m]
  {
    var texts, text := Texts(wire), Render(m);
    assert Texts(wire + [m]) == texts + [text];
    assert (texts + [text])[..|texts|] == texts;
    ReadRendered(m);
  }

  lemma {:induction false} ReadBack(wire: seq<ServerMessage>)
    requires forall i :: 0 <= i < |wire| && wire[i].RoomIs? ==> RoomCodes.Valid(wire[i].code)
    ensures ReadAll(Texts(wire)) == wire
  {
    if wire == [] {
    } else {
      var init, m := wire[..|wire| - 1], wire[|wire| - 1];
      assert wire == init + [m];
      ReadBack(init);
      ReadOneMore(init, m);
    }
  }

  lemma {:induction false} NotesNameNoRoom(log: seq<Notification>)
    ensures forall i :: 0 <= i < |Notes(log)| ==> !Notes(log)[i].RoomIs?
  {
    if log == [] {
    } else {
      NotesNameNoRoom(log[..|log| - 1]);
    }
  }

  /** The texts a client was sent say what was written to it. */
  lemma ClientReadsWire(p: Player)
    requires Faithful(p) && RoomCodes.Valid(p.code)
    ensures ReadAll(Texts(p.wire)) == p.wire
  {
    NotesNameNoRoom(p.log[..p.cursor]);
    var all := Display(p, p.cursor);
    assert forall i :: 0 <= i < |p.wire| ==> p.wire[i] == all[i];
    ReadBack(p.wire);
  }

  /** What a client has said and has yet to say. */
  function Speech(p: Player): seq<ClientMessage> { p.heard + p.inbox }

  lemma ActKeepsSpeech(capacity: nat, p: Player, act: Act)
    ensures Speech(AfterAct(capacity, p, act)) == Speech(p) && p.heard <= AfterAct(capacity, p, act).heard
  {
    if act.ReadClient? && p.inbox != [] {
      assert [p.inbox[0]] + p.inbox[1..] == p.inbox;
    }
  }

  /** What was heard of a member is what it began to say when it joined: no step loses or makes up any of it. */
  lemma StepKeepsSpeech(capacity: nat, r: Room, step: Step, id: u32)
    requires Can(r, step) && id in r.tasks && id in After(capacity, r, step).tasks
    ensures Speech(After(capacity, r, step).tasks[id]) == Speech(r.tasks[id])
    ensures r.tasks[id].heard <= After(capacity, r, step).tasks[id].heard
    ensures step.Join? ==>
              && Speech(After(capacity, r, step).tasks[step.id]) == step.inbox
              && After(capacity, r, step).tasks[step.id].heard == []
  {
    match step {
      case PlayerActs(player, act) => ActKeepsSpeech(capacity, r.tasks[player], act);
      case Join(newId, stream, inbox, others) => RoomLimits.ConnectGrows(r, newId, stream, inbox, others);
      case _ => RoomLimits.StepGrows(capacity, r, step);
    }
  }

  /** A client asks for a message to be sent with exactly the texts that parse as one. */
  lemma AskingTexts(m: ClientMessage, kind: MessageKind, to: u32, payload: Text)
    ensures AskedIn(React(m)) == [SendTo(kind, to, payload)]
       <==> m.TextMessage? && ParseRequest(m.text) == Ok(Relay(kind, to, payload))
  {
  }

  lemma {:induction false} OfSender(p: u32, messages: seq<Accepted>, c: Command) returns (a: Accepted)
    requires c in FromSender(p, messages)
    ensures a in messages && a.sender == p && c == SendTo(a.kind, a.to, a.payload)
    decreases |messages|
  {
    var init, last := messages[..|messages| - 1], messages[|messages| - 1];
    if c in FromSender(p, init) {
      a := OfSender(p, init, c);
    } else {
      a := last;
    }
  }

  lemma {:induction false} RelayWasWritten(me: u32, wire: seq<ServerMessage>, a: Accepted)
    requires a in ClientRelays(me, wire)
    ensures From(a.kind, a.sender, a.payload) in wire && a.to == me
    decreases |wire|
  {
    var init := wire[..|wire| - 1];
    if a in ClientRelays(me, init) {
      RelayWasWritten(me, init, a);
    }
  }

  lemma {:induction false} ForReceiver(q: u32, cmds: seq<Command>, c: Command)
    requires c in ToReceiver(q, cmds)
    ensures c in cmds
    decreases |cmds|
  {
    if c in ToReceiver(q, cmds[..|cmds| - 1]) {
      ForReceiver(q, cmds[..|cmds| - 1], c);
    }
  }

  lemma {:induction false} WasHeard(heard: seq<ClientMessage>, c: Command) returns (text: Text)
    requires c in AskedBy(heard)
    ensures TextMessage(text) in heard && c.SendTo? && ParseRequest(text) == Ok(Relay(c.kind, c.to, c.payload))
    decreases |heard|
  {
    var init, last := heard[..|heard| - 1], heard[|heard| - 1];
    if c in AskedBy(init) {
      text := WasHeard(init, c);
    } else {
      AskingTexts(last, c.kind, c.to, c.payload);
      text := last.text;
    }
  }

  /** A message q has read of p: a text of p asked for it, and the text q was sent is that request, with p's address. */
  ghost predicate Traced(p: Player, q: Player, c: Command) {
    && c.SendTo?
    && Render(From(c.kind, p.id, c.payload)) in Texts(q.wire)
    && ParseRequest(Render(From(c.kind, p.id, c.payload))) == Ok(Relay(c.kind, p.id, c.payload))
    && exists text :: TextMessage(text) in p.heard && ParseRequest(text) == Ok(Relay(c.kind, q.id, c.payload))
  }

  lemma ReadIsTraced(p: Player, q: Player, accepted: seq<Accepted>, c: Command)
    requires Together(p, q) <= |accepted| && c in FromSender(p.id, ReadTogether(p, q, accepted))
    requires Within(FromSender(p.id, ReadTogether(p, q, accepted)), ToReceiver(q.id, AskedBy(p.heard)))
    ensures Traced(p, q, c)
  {
    var a := OfSender(p.id, ReadTogether(p, q, accepted), c);
    RelayWasWritten(q.id, q.wire, a);
    var m := From(a.kind, a.sender, a.payload);
    var i :| 0 <= i < |q.wire| && q.wire[i] == m;
    assert Texts(q.wire)[i] == Render(m);
    EntryIsWithin(FromSender(p.id, ReadTogether(p, q, accepted)), ToReceiver(q.id, AskedBy(p.heard)), c);
    ForReceiver(q.id, AskedBy(p.heard), c);
    var text := WasHeard(p.heard, c);
    RelaySwapsAddress(text, Relay(c.kind, c.to, c.payload), p.id);
  }

  /**
   From text to text: with what q makes of the texts it was sent, and what the texts heard from p parse to,
   EndToEnd holds; and each message of p so read came in a text that parses as a request heard from p, with
   p's address in place of q's.
   */
  lemma TextToText(r: Room, p: u32, q: u32)
    requires Sound(r) && p in r.tasks && q in r.tasks && p != q && RoomCodes.Valid(r.tasks[q].code)
    ensures Together(r.tasks[p], r.tasks[q]) <= |r.accepted|
    ensures var relays := ClientRelays(q, ReadAll(Texts(r.tasks[q].wire)));
            var read := Skip(relays, |Addressed(q, r.accepted[r.tasks[q].since..Together(r.tasks[p], r.tasks[q])])|);
            && Within(FromSender(p, read), ToReceiver(q, AskedBy(r.tasks[p].heard)))
            && (Exact(r.mode) && Unspoiled(r.tasks[p]) ==>
                  FromSender(p, read) <= ToReceiver(q, AskedTogether(r.tasks[p], r.tasks[q], r.accepted)))
            && forall c :: c in FromSender(p, read) ==> Traced(r.tasks[p], r.tasks[q], c)
  {
    MemberIsConserved(r, p);
    MemberIsConserved(r, q);
    ClientReadsWire(r.tasks[q]);
    EndToEnd(r, p, q);
    forall c | c in FromSender(p, ReadTogether(r.tasks[p], r.tasks[q], r.accepted))
      ensures Traced(r.tasks[p], r.tasks[q], c)
    {
      ReadIsTraced(r.tasks[p], r.tasks[q], r.accepted, c);
    }
  }
}
