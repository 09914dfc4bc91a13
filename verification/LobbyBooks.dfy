/** The lobby's bookkeeping over all runs, and its signals. */
module LobbyBooks {
  import opened Common
  import opened RoomCodes
  import opened Joining
  import opened Lobbies

  // ----- clients -----

  ghost predicate Books(l: Lobby) { Accounted(l) && Complete(l) }

  /** The first request is settled: its client gets a fate, and a closing task if the fate says so. */
  ghost predicate Settled(l: Lobby, next: Lobby, fate: Fate)
    requires l.requests != []
  {
    var req := l.requests[0];
    && next.requests == l.requests[1..] && next.joinQueue == l.joinQueue - {req.handle} && next.joiners == l.joiners
    && next.seen == l.seen && next.fates == l.fates[req.stream := fate]
    && next.closeTasks == l.closeTasks + if fate.ClosedWith? then [CloseTask(req.stream, fate.code)] else []
  }

  /** What is written down for a client: its fate, and a closing task if it is closed. */
  predicate Recorded(l: Lobby, next: Lobby, stream: Stream, fate: Fate) {
    && next.requests == l.requests && next.joinQueue == l.joinQueue && next.joiners == l.joiners && next.seen == l.seen
    && next.fates == l.fates[stream := fate]
    && next.closeTasks == l.closeTasks + if fate.ClosedWith? then [CloseTask(stream, fate.code)] else []
  }

  lemma SentOrClosed(l: Lobby, key: u32, stream: Stream) returns (fate: Fate)
    requires key in l.rooms
    ensures Recorded(l, SendNewcomer(l, key, stream), stream, fate)
  {
    fate := SendNewcomer(l, key, stream).fates[stream];
  }

  lemma RequestSettles(l: Lobby, newCode: RoomCode) returns (fate: Fate)
    requires l.requests != []
    ensures Settled(l, After(l, TakeRequest(newCode)), fate)
  {
    var req, rest := l.requests[0], l.(requests := l.requests[1..], joinQueue := l.joinQueue - {l.requests[0].handle});
    match req.cmd {
      case CreateRoom => fate := if |l.rooms| < l.maxRooms then InRoom(ToU32(newCode)) else ClosedWith(TooManyRooms);
      case JoinRoom(code) =>
        if ToU32(code) in l.rooms {
          fate := SentOrClosed(rest, ToU32(code), req.stream);
        } else {
          fate := ClosedWith(RoomDoesNotExist);
        }
      case CloseConnection(reason) => fate := ClosedWith(reason);
      case DropClient => fate := Dropped;
    }
  }

  lemma SettledKeepsAccounted(l: Lobby, next: Lobby, fate: Fate)
    requires Accounted(l) && l.requests != [] && Settled(l, next, fate)
    ensures Accounted(next)
  {
  }

  lemma SettledKeepsComplete(l: Lobby, next: Lobby, fate: Fate)
    requires Books(l) && l.requests != [] && Settled(l, next, fate)
    ensures Complete(next)
  {
  }

  predicate Admitted(l: Lobby, next: Lobby, client: Stream, handle: u32) {
    next == l.(seen := l.seen + {client}, joinQueue := l.joinQueue + {handle}, joiners := l.joiners[handle := client])
  }

  lemma AdmitKeepsAccounted(l: Lobby, next: Lobby, client: Stream, handle: u32)
    requires Books(l) && client !in l.seen && handle !in l.joinQueue && Admitted(l, next, client, handle)
    ensures Accounted(next)
  {
  }

  lemma AdmitKeepsComplete(l: Lobby, next: Lobby, client: Stream, handle: u32)
    requires Books(l) && client !in l.seen && handle !in l.joinQueue && Admitted(l, next, client, handle)
    ensures Complete(next)
  {
    assert next.joiners[handle] == client;
    assert forall h :: Requested(l, h) == Requested(next, h);
    forall s | s in l.seen ensures s in next.fates || Waits(next, s) || Asks(next, s) {
      if h :| h in l.joiners && l.joiners[h] == s {
        assert next.joiners[h] == s;
      } else {
        assert Asks(l, s) == Asks(next, s);
      }
    }
  }

  lemma TurnAwayKeepsBooks(l: Lobby, next: Lobby, client: Stream)
    requires Books(l) && client !in l.seen
    requires next == Spawn(l.(seen := l.seen + {client}), client, JoinQueueFull)
    ensures Books(next)
  {
  }

  lemma ConnectKeepsBooks(l: Lobby, client: Stream, handle: u32)
    requires Books(l) && client !in l.seen && (|l.joinQueue| < l.queueCapacity ==> handle !in l.joinQueue)
    ensures Books(AfterConnect(l, client, handle))
  {
    if |l.joinQueue| < l.queueCapacity {
      AdmitKeepsAccounted(l, AfterConnect(l, client, handle), client, handle);
      AdmitKeepsComplete(l, AfterConnect(l, client, handle), client, handle);
    } else {
      TurnAwayKeepsBooks(l, AfterConnect(l, client, handle), client);
    }
  }

  lemma DecideKeepsAccounted(l: Lobby, joiner: u32, outcome: Outcome)
    requires Accounted(l) && joiner in l.joiners
    ensures Accounted(After(l, Decide(joiner, outcome)))
  {
  }

  lemma DecideKeepsComplete(l: Lobby, joiner: u32, outcome: Outcome)
    requires Complete(l) && joiner in l.joiners
    ensures Complete(After(l, Decide(joiner, outcome)))
  {
    var next := After(l, Decide(joiner, outcome));
    assert next.requests[|l.requests|] == LobbyRequest(joiner, CommandFor(outcome), l.joiners[joiner]);
    forall h | h in next.joinQueue ensures h in next.joiners || Requested(next, h) {
      if i :| 0 <= i < |l.requests| && l.requests[i].handle == h {
        assert next.requests[i].handle == h;
      }
    }
    forall s | s in next.seen ensures s in next.fates || Waits(next, s) || Asks(next, s) {
      if i :| 0 <= i < |l.requests| && l.requests[i].stream == s {
        assert next.requests[i].stream == s;
      } else if h :| h in l.joiners && l.joiners[h] == s && h != joiner {
        assert next.joiners[h] == s;
      }
    }
  }

  lemma RequestKeepsBooks(l: Lobby, newCode: RoomCode)
    requires Books(l) && l.requests != []
    ensures Books(After(l, TakeRequest(newCode)))
  {
    var fate := RequestSettles(l, newCode);
    SettledKeepsAccounted(l, After(l, TakeRequest(newCode)), fate);
    SettledKeepsComplete(l, After(l, TakeRequest(newCode)), fate);
  }

  lemma SameBooks(l: Lobby, next: Lobby)
    requires Books(l) && next.joinQueue == l.joinQueue && next.joiners == l.joiners && next.requests == l.requests
    requires next.seen == l.seen && next.fates == l.fates && next.closeTasks == l.closeTasks
    ensures Books(next)
  {
  }

  lemma StepKeepsBooks(table: seq<byte>, l: Lobby, step: Step)
    requires Books(l) && Can(table, l, step)
    ensures Books(After(l, step))
  {
    match step {
      case Connect(client, handle) => ConnectKeepsBooks(l, client, handle);
      case Decide(joiner, outcome) =>
        DecideKeepsAccounted(l, joiner, outcome);
        DecideKeepsComplete(l, joiner, outcome);
      case TakeRequest(newCode) => RequestKeepsBooks(l, newCode);
      case _ => SameBooks(l, After(l, step));
    }
  }

  // ----- signals -----

  /** The signals queued for one code, in order. */
  function Queued(key: u32, signals: seq<Signal>): seq<Control> {
    if signals == [] then []
    else Queued(key, signals[..|signals| - 1])
         + if signals[|signals| - 1].code == key then [signals[|signals| - 1].control] else []
  }

  function Seen(entry: RoomEntry): seq<Control> {
    if entry.isSealed then [SealSignal] else []
  }

  /** What a room has emitted is what the lobby has seen of it, then what is queued for its code. */
  predicate InStep(key: u32, entry: RoomEntry, signals: seq<Signal>) {
    && entry.emitted == Seen(entry) + Queued(key, signals)
    && entry.emitted <= ALL_SIGNALS
  }

  /** The invariant; codes without a room have nothing queued unless their room was aborted. */
  ghost predicate Signalled(l: Lobby) {
    && !Blocked(l)
    && (forall k :: k in l.rooms ==> InStep(k, l.rooms[k], l.signals))
    && (forall k :: k !in l.rooms && k !in l.aborted ==> Queued(k, l.signals) == [])
  }

  /** A room is only opened under a code nothing is queued for. */
  predicate Tidy(l: Lobby, step: Step) {
    step.TakeRequest? && l.requests != [] && l.requests[0].cmd.CreateRoom? && |l.rooms| < l.maxRooms ==>
      Queued(ToU32(step.newCode), l.signals) == []
  }

  lemma QueuedGrows(key: u32, signals: seq<Signal>, s: Signal)
    ensures Queued(key, signals + [s]) == Queued(key, signals) + if s.code == key then [s.control] else []
  {
  }

  lemma {:induction false} QueuedTaken(key: u32, signals: seq<Signal>)
    requires signals != []
    ensures Queued(key, signals)
         == (if signals[0].code == key then [signals[0].control] else []) + Queued(key, signals[1..])
  {
    if |signals| == 1 {
      assert signals == [] + [signals[0]];
    } else {
      var init, last := signals[..|signals| - 1], signals[|signals| - 1];
      assert init + [last] == signals && init[1..] + [last] == signals[1..];
      QueuedTaken(key, init);
      QueuedGrows(key, init, last);
      QueuedGrows(key, init[1..], last);
    }
  }

  /** A room in step whose next signal is about to be handled: the signal suits it. */
  lemma NextSignal(entry: RoomEntry, control: Control, rest: seq<Control>)
    requires entry.emitted == Seen(entry) + ([control] + rest) && entry.emitted <= ALL_SIGNALS
    ensures control == SealSignal ==> !entry.isSealed && entry.emitted == [SealSignal] + rest
    ensures control == CloseSignal ==> entry.isSealed && rest == [] && entry.emitted == ALL_SIGNALS
  {
    var e := entry.emitted;
    assert e[|Seen(entry)|] == control == ALL_SIGNALS[|Seen(entry)|];
    assert |e| <= 2;
    if entry.isSealed {
      assert rest == [];
      assert e == [SealSignal, control];
    }
  }

  /** Handling a signal keeps its own room in step, or takes it off the map with nothing left queued. */
  lemma TakenInStep(key: u32, entry: RoomEntry, signals: seq<Signal>)
    requires signals != [] && InStep(key, entry, signals)
    ensures signals[0].code != key ==> InStep(key, entry, signals[1..])
    ensures signals[0] == Signal(key, SealSignal) ==> InStep(key, entry.(isSealed := true), signals[1..])
    ensures signals[0] == Signal(key, CloseSignal) ==> Queued(key, signals[1..]) == []
  {
    QueuedTaken(key, signals);
    if signals[0].code == key {
      NextSignal(entry, signals[0].control, Queued(key, signals[1..]));
    }
  }

  lemma TakenAtRest(l: Lobby, k: u32)
    requires Signalled(l) && l.signals != [] && k !in After(l, TakeSignal).rooms && k !in l.aborted
    ensures Queued(k, l.signals[1..]) == []
  {
    QueuedTaken(k, l.signals);
    if k in l.rooms {
      TakenInStep(k, l.rooms[k], l.signals);
    }
  }

  /** The room a close takes off the map has emitted all it ever will, so the lobby does not wait for it. */
  lemma TakenUnblocked(l: Lobby)
    requires Signalled(l) && l.signals != []
    ensures !Blocked(After(l, TakeSignal))
  {
    var s := l.signals[0];
    QueuedTaken(s.code, l.signals);
    if s.code in l.rooms {
      NextSignal(l.rooms[s.code], s.control, Queued(s.code, l.signals[1..]));
    }
  }

  lemma TakenKeepsSignalled(l: Lobby)
    requires Signalled(l) && l.signals != []
    ensures Signalled(After(l, TakeSignal))
  {
    var next := After(l, TakeSignal);
    TakenUnblocked(l);
    forall k | k in next.rooms ensures InStep(k, next.rooms[k], next.signals) {
      TakenInStep(k, l.rooms[k], l.signals);
    }
    forall k | k !in next.rooms && k !in next.aborted ensures Queued(k, next.signals) == [] {
      TakenAtRest(l, k);
    }
  }

  lemma EmitInStep(key: u32, entry: RoomEntry, signals: seq<Signal>, control: Control)
    requires InStep(key, entry, signals) && MayEmit(entry.emitted, control)
    ensures InStep(key, entry.(emitted := entry.emitted + [control]), signals + [Signal(key, control)])
  {
  }

  lemma EmitKeepsSignalled(l: Lobby, room: u32, control: Control)
    requires Signalled(l) && room in l.rooms && MayEmit(l.rooms[room].emitted, control)
    ensures Signalled(After(l, RoomEmits(room, control)))
  {
    EmitInStep(room, l.rooms[room], l.signals, control);
    forall k | k != room ensures Queued(k, l.signals + [Signal(room, control)]) == Queued(k, l.signals) {
      QueuedGrows(k, l.signals, Signal(room, control));
    }
  }

  lemma SameSignals(l: Lobby, next: Lobby)
    requires Signalled(l) && next.signals == l.signals && next.awaited == l.awaited && next.aborted == l.aborted
    requires next.rooms.Keys == l.rooms.Keys
    requires forall k :: k in l.rooms ==>
               next.rooms[k].isSealed == l.rooms[k].isSealed && next.rooms[k].emitted == l.rooms[k].emitted
    ensures Signalled(next)
  {
  }

  /** Requests other than creations leave every room's seal and emissions alone. */
  lemma RequestKeepsRooms(l: Lobby, req: LobbyRequest, newCode: RoomCode)
    requires !(req.cmd.CreateRoom? && |l.rooms| < l.maxRooms)
    ensures var next := AfterRequest(l, req, newCode);
            && next.signals == l.signals && next.awaited == l.awaited && next.aborted == l.aborted
            && next.rooms.Keys == l.rooms.Keys
            && forall k :: k in l.rooms ==>
                 next.rooms[k].isSealed == l.rooms[k].isSealed && next.rooms[k].emitted == l.rooms[k].emitted
  {
  }

  lemma OpenKeepsSignalled(l: Lobby, key: u32, host: Stream)
    requires Signalled(l) && Queued(key, l.signals) == []
    ensures Signalled(Open(l, key, host))
  {
  }

  lemma RequestKeepsSignalled(l: Lobby, newCode: RoomCode)
    requires Signalled(l) && l.requests != [] && Tidy(l, TakeRequest(newCode))
    ensures Signalled(After(l, TakeRequest(newCode)))
  {
    var req, rest := l.requests[0], l.(requests := l.requests[1..]);
    SameSignals(l, rest);
    if req.cmd.CreateRoom? && |l.rooms| < l.maxRooms {
      SameSignals(rest, rest.(joinQueue := rest.joinQueue - {req.handle}));
      OpenKeepsSignalled(rest.(joinQueue := rest.joinQueue - {req.handle}), ToU32(newCode), req.stream);
    } else {
      RequestKeepsRooms(rest, req, newCode);
      SameSignals(rest, AfterRequest(rest, req, newCode));
    }
  }

  lemma StepKeepsSignalled(table: seq<byte>, l: Lobby, step: Step)
    requires Signalled(l) && Can(table, l, step) && Tidy(l, step)
    ensures Signalled(After(l, step))
  {
    match step {
      case TakeSignal => TakenKeepsSignalled(l);
      case RoomEmits(room, control) => EmitKeepsSignalled(l, room, control);
      case TakeRequest(newCode) => RequestKeepsSignalled(l, newCode);
      case _ =>
    }
  }

  /** Without aborts a code that is not in use has nothing queued, so every creation is tidy. */
  lemma NoAbortsNoStaleSignals(table: seq<byte>, l: Lobby, step: Step)
    requires Signalled(l) && Can(table, l, step) && l.aborted == {}
    ensures Tidy(l, step)
  {
  }

  /** And if something is queued for the new room's code, the room is out of step at once. */
  lemma OnlyTidyCreationsAreSound(l: Lobby, newCode: RoomCode)
    requires Signalled(l) && l.requests != [] && l.requests[0].cmd.CreateRoom? && |l.rooms| < l.maxRooms
    requires ToU32(newCode) !in l.rooms
    ensures Signalled(After(l, TakeRequest(newCode))) <==> Tidy(l, TakeRequest(newCode))
  {
    var next := After(l, TakeRequest(newCode));
    if Tidy(l, TakeRequest(newCode)) {
      RequestKeepsSignalled(l, newCode);
    } else {
      assert !InStep(ToU32(newCode), next.rooms[ToU32(newCode)], next.signals);
    }
  }

  /**
   Every signal the lobby handles is its own room's: a seal finds a room that is not sealed yet, a close
   finds a sealed room that has emitted all it ever will, so awaiting its task cannot block the lobby.
   */
  lemma SignalsFindTheirRoom(l: Lobby)
    requires Signalled(l) && l.signals != []
    ensures var s := l.signals[0];
            && (s.code !in l.aborted ==> s.code in l.rooms)
            && (s.code in l.rooms && s.control == SealSignal ==> !l.rooms[s.code].isSealed)
            && (s.code in l.rooms && s.control == CloseSignal ==>
                  l.rooms[s.code].isSealed && l.rooms[s.code].emitted == ALL_SIGNALS)
  {
    var s := l.signals[0];
    QueuedTaken(s.code, l.signals);
    if s.code in l.rooms {
      NextSignal(l.rooms[s.code], s.control, Queued(s.code, l.signals[1..]));
    }
  }

  /** Once the lobby has sealed a room it sends it nobody, for as long as the room is on the map. */
  lemma SealedRoomsGetNobody(table: seq<byte>, l: Lobby, step: Step, k: u32)
    requires Can(table, l, step) && k in l.rooms && l.rooms[k].isSealed && k in After(l, step).rooms
    ensures After(l, step).rooms[k].isSealed
    ensures After(l, step).rooms[k].newcomers == l.rooms[k].newcomers
            || (step == RoomTakes(k) && After(l, step).rooms[k].newcomers == l.rooms[k].newcomers[1..])
  {
  }
}
