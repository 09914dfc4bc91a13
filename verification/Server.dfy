/**
 The lobby together with its rooms. Each room is a whole room of module Rooms; what it takes from its newcomer
 channel and what it emits are steps of the lobby's state machine at the same time. So what was proved of either
 holds of the server, and some things hold only of both together.
 */
module Server {
  import opened Common
  import opened RoomCodes
  import opened Players
  import Rooms
  import Lobbies
  import RoomLimits
  import RoomRuns
  import opened RoomOnce
  import LobbyBooks
  import LobbyRuns
  import LobbyStale
  import opened LobbyCustody

  datatype Server = Server(
    lobby: Lobbies.Lobby,
    rooms: seq<Rooms.Room>,      // every room ever opened, in that order
    index: map<u32, nat>,        // which of them is on the lobby's map under a code
    parting: nat,                // which of them the lobby last took off its map to await it
    takenBy: map<Stream, nat>,   // history: which room has taken in a client
    lost: set<Stream>)           // history: who was in the channel of a room that is gone

  /** What the environment adds to the opening of a room. */
  datatype Setting = Setting(inbox: seq<ClientMessage>, limits: Rooms.Limits, now: nat, signalled: bool)

  datatype Step =
    | OfLobby(step: Lobbies.Step, setting: Setting)
    | OfRoom(place: Place, act: Rooms.Step)

  function Emission(act: Rooms.Step): Option<Control> {
    match act
    case EmitSeal => Some(SealSignal)
    case EmitClose => Some(CloseSignal)
    case _ => None
  }

  /** What a step of a room is to the lobby. */
  function Share(place: Place, act: Rooms.Step): Option<Lobbies.Step> {
    if Brought(act).Some? then Some(if place.Under? then Lobbies.RoomTakes(place.key) else Lobbies.AwaitedTakes)
    else if Emission(act).Some? then
      Some(if place.Under? then Lobbies.RoomEmits(place.key, Emission(act).value)
           else Lobbies.AwaitedEmits(Emission(act).value))
    else None
  }

  function SerialOf(v: Server, place: Place): nat {
    match place
    case Under(key) => if key in v.index then v.index[key] else 0
    case OffMap => v.parting
  }

  predicate There(v: Server, place: Place) {
    match place
    case Under(key) => key in v.index
    case OffMap => v.lobby.awaited.Some?
  }

  function EmittedAt(l: Lobbies.Lobby, place: Place): seq<Control> {
    match place
    case Under(key) => if key in l.rooms then l.rooms[key].emitted else []
    case OffMap => if l.awaited.Some? then l.awaited.value.entry.emitted else []
  }

  /** What the room finds in its channel and in the queue of signals. */
  predicate Finds(l: Lobbies.Lobby, place: Place, act: Rooms.Step) {
    && (Brought(act).Some? ==> Channel(l, place) != [] && Channel(l, place)[0] == Brought(act).value)
    && (Emission(act).Some? ==> |l.signals| < Lobbies.CONTROL_BUFFER)
  }

  /** A room's step has to find its newcomer in the channel, or a place for its signal in the queue; and no more. */
  ghost predicate Can(table: seq<byte>, v: Server, step: Step) {
    match step
    case OfLobby(s, setting) =>
      (Lobbies.OfLobby(s) || s.Decide?) && Lobbies.Can(table, v.lobby, s) && Rooms.ValidLimits(setting.limits)
    case OfRoom(place, act) =>
      && There(v, place) && SerialOf(v, place) < |v.rooms| && Rooms.Can(v.rooms[SerialOf(v, place)], act)
      && Finds(v.lobby, place, act)
  }

  function Opened(code: RoomCode, host: Stream, setting: Setting): Rooms.Room {
    if setting.signalled then Rooms.StartSignalled(code, host, setting.inbox, setting.limits, setting.now)
    else Rooms.Start(code, host, setting.inbox, setting.limits, setting.now)
  }

  function AfterLobby(v: Server, s: Lobbies.Step, setting: Setting): Server {
    var l, next := v.lobby, v.(lobby := Lobbies.After(v.lobby, s), lost := v.lost + LostBy(v.lobby, s));
    if LobbyStale.Opens(l, s) then
      next.(rooms := v.rooms + [Opened(s.newCode, l.requests[0].stream, setting)],
            index := v.index[LobbyStale.KeyOf(s) := |v.rooms|],
            takenBy := v.takenBy[l.requests[0].stream := |v.rooms|])
    else if TakesOff(l, s) then
      next.(index := v.index - {l.signals[0].code}, parting := SerialOf(v, Under(l.signals[0].code)))
    else if s.Configure? then next.(index := v.index - s.aborts)
    else next
  }

  function AfterRoom(capacity: nat, v: Server, place: Place, act: Rooms.Step): Server
    requires SerialOf(v, place) < |v.rooms| && Rooms.Can(v.rooms[SerialOf(v, place)], act)
  {
    var n := SerialOf(v, place);
    v.(lobby := if Share(place, act).Some? then Lobbies.After(v.lobby, Share(place, act).value) else v.lobby,
       rooms := v.rooms[n := Rooms.After(capacity, v.rooms[n], act)],
       takenBy := if Brought(act).Some? then v.takenBy[Brought(act).value := n] else v.takenBy)
  }

  function After(table: seq<byte>, capacity: nat, v: Server, step: Step): Server
    requires Can(table, v, step)
  {
    match step
    case OfLobby(s, setting) => AfterLobby(v, s, setting)
    case OfRoom(place, act) => AfterRoom(capacity, v, place, act)
  }

  function Start(maxRooms: nat, queueCapacity: nat): Server {
    Server(Lobbies.Start(maxRooms, queueCapacity), [], map[], 0, map[], {})
  }

  // ----- what ties the two together -----

  /** Whatever is on the map, and what the lobby awaits, is one of the rooms, each another one. */
  ghost predicate Indexed(v: Server) {
    && v.index.Keys == v.lobby.rooms.Keys
    && (forall p :: There(v, p) ==> SerialOf(v, p) < |v.rooms|)
    && (forall p, q :: There(v, p) && There(v, q) && SerialOf(v, p) == SerialOf(v, q) ==> p == q)
  }

  predicate Agrees(l: Lobbies.Lobby, place: Place, r: Rooms.Room) {
    r.control == EmittedAt(l, place) && (place.Under? ==> ToU32(r.code) == place.key)
  }

  /** The lobby knows of each just what it has emitted, and has it under the room's own code. */
  ghost predicate Agreeing(v: Server) {
    forall p :: There(v, p) && SerialOf(v, p) < |v.rooms| ==> Agrees(v.lobby, p, v.rooms[SerialOf(v, p)])
  }

  ghost predicate SoundRoom(r: Rooms.Room) { RoomRuns.Sound(r) && OnceEach(r) }

  ghost predicate RoomsAreSound(rooms: seq<Rooms.Room>) {
    forall n :: 0 <= n < |rooms| ==> SoundRoom(rooms[n])
  }

  /** A room has no client it did not take in. */
  ghost predicate OwnsOnly(r: Rooms.Room, takenBy: map<Stream, nat>, n: nat) {
    forall s: Stream :: !IsNew(r, s) ==> s in takenBy && takenBy[s] == n
  }


  ghost predicate Owned(rooms: seq<Rooms.Room>, takenBy: map<Stream, nat>) {
    forall n :: 0 <= n < |rooms| ==> OwnsOnly(rooms[n], takenBy, n)
  }

  ghost predicate Tied(table: seq<byte>, v: Server) {
    && Indexed(v) && Agreeing(v) && RoomsAreSound(v.rooms) && Owned(v.rooms, v.takenBy)
    && SoundlyKept(table, v.lobby, v.takenBy.Keys, v.lost)
  }

  // ----- a step of a room -----

  predicate OnTheLobbysSide(l: Lobbies.Lobby, place: Place) {
    match place case Under(key) => key in l.rooms case OffMap => l.awaited.Some?
  }

  /** What the lobby's state machine lets rooms do is all they ever do: only the two channels hold a room up. */
  lemma ShareIsPossible(table: seq<byte>, l: Lobbies.Lobby, place: Place, r: Rooms.Room, act: Rooms.Step)
    requires RoomLimits.Ordered(r) && Rooms.Can(r, act) && OnTheLobbysSide(l, place) && r.control == EmittedAt(l, place)
    requires Finds(l, place, act)
    ensures Share(place, act).Some? ==> Lobbies.Can(table, l, Share(place, act).value)
  {
    LobbyRuns.OrderedEmissions(r);
  }

  lemma EmissionIsShared(l: Lobbies.Lobby, place: Place, act: Rooms.Step, p: Place)
    requires OnTheLobbysSide(l, place) && Share(place, act).Some?
    ensures var next := Lobbies.After(l, Share(place, act).value);
            && next.rooms.Keys == l.rooms.Keys && next.awaited.Some? == l.awaited.Some?
            && EmittedAt(next, p)
               == EmittedAt(l, p) + if p == place && Emission(act).Some? then [Emission(act).value] else []
  {
  }

  lemma ControlGrows(capacity: nat, r: Rooms.Room, act: Rooms.Step)
    requires Rooms.Can(r, act)
    ensures Rooms.After(capacity, r, act).control
         == r.control + if Emission(act).Some? then [Emission(act).value] else []
  {
    if Emission(act).None? {
      LobbyRuns.OtherStepsEmitNothing(capacity, r, act);
    }
  }

  lemma RoomStepAgrees(table: seq<byte>, capacity: nat, v: Server, place: Place, act: Rooms.Step, next: Server)
    requires Indexed(v) && Agreeing(v) && Can(table, v, OfRoom(place, act))
    requires next == AfterRoom(capacity, v, place, act)
    ensures Indexed(next) && Agreeing(next)
  {
    ControlGrows(capacity, v.rooms[SerialOf(v, place)], act);
    RoomLimits.StepKeepsCode(capacity, v.rooms[SerialOf(v, place)], act);
    if Share(place, act).Some? {
      EmissionIsShared(v.lobby, place, act, place);
    }
    assert forall p :: There(next, p) == There(v, p) && SerialOf(next, p) == SerialOf(v, p);
    forall p | There(next, p) ensures Agrees(next.lobby, p, next.rooms[SerialOf(next, p)]) {
      if Share(place, act).Some? {
        EmissionIsShared(v.lobby, place, act, p);
      }
    }
  }

  /** The stream a room takes from its channel is none that any room has had before. */
  lemma NewcomerIsNew(l: Lobbies.Lobby, place: Place, act: Rooms.Step, taken: set<Stream>, lost: set<Stream>)
    requires Apart(l, taken, lost) && Finds(l, place, act)
    ensures Brought(act).Some? ==> Brought(act).value !in taken
  {
    if Brought(act).Some? {
      assert WaitsAt(l, place, 0, Brought(act).value);
    }
  }

  lemma StillOwns(r: Rooms.Room, takenBy: map<Stream, nat>, k: nat, newcomer: Stream, n: nat)
    requires OwnsOnly(r, takenBy, k) && newcomer !in takenBy
    ensures OwnsOnly(r, takenBy[newcomer := n], k)
  {
  }

  lemma OwnsOneMore(r: Rooms.Room, next: Rooms.Room, takenBy: map<Stream, nat>, n: nat, newcomer: Stream)
    requires OwnsOnly(r, takenBy, n) && newcomer !in takenBy
    requires forall s: Stream :: !IsNew(next, s) ==> !IsNew(r, s) || s == newcomer
    ensures OwnsOnly(next, takenBy[newcomer := n], n)
  {
  }

  lemma OneRoomOwns(rooms: seq<Rooms.Room>, takenBy: map<Stream, nat>, n: nat, r: Rooms.Room, brought: Option<Stream>)
    requires Owned(rooms, takenBy) && n < |rooms| && (brought.Some? ==> brought.value !in takenBy)
    requires forall s: Stream :: !IsNew(r, s) ==> !IsNew(rooms[n], s) || brought == Some(s)
    ensures Owned(rooms[n := r], if brought.Some? then takenBy[brought.value := n] else takenBy)
  {
    var taken := if brought.Some? then takenBy[brought.value := n] else takenBy;
    var next := rooms[n := r];
    forall k | 0 <= k < |next| ensures OwnsOnly(next[k], taken, k) {
      assert OwnsOnly(rooms[k], takenBy, k);
      if brought.Some? {
        if k == n {
          OwnsOneMore(rooms[n], r, takenBy, n, brought.value);
        } else {
          StillOwns(rooms[k], takenBy, k, brought.value, n);
        }
      }
    }
  }

  lemma RoomStepOwns(capacity: nat, rooms: seq<Rooms.Room>, takenBy: map<Stream, nat>, n: nat, act: Rooms.Step)
    requires Owned(rooms, takenBy) && n < |rooms| && Rooms.Can(rooms[n], act)
    requires Brought(act).Some? ==> Brought(act).value !in takenBy
    ensures Owned(rooms[n := Rooms.After(capacity, rooms[n], act)],
                  if Brought(act).Some? then takenBy[Brought(act).value := n] else takenBy)
  {
    var r := Rooms.After(capacity, rooms[n], act);
    forall s: Stream | !IsNew(r, s) ensures !IsNew(rooms[n], s) || Brought(act) == Some(s) {
      NobodyElseComes(capacity, rooms[n], act, r, s);
    }
    OneRoomOwns(rooms, takenBy, n, r, Brought(act));
  }

  lemma RoomStepSound(capacity: nat, r: Rooms.Room, act: Rooms.Step)
    requires SoundRoom(r) && Rooms.Can(r, act) && BringsNew(r, act)
    ensures SoundRoom(Rooms.After(capacity, r, act))
  {
    RoomRuns.StepKeepsSound(capacity, r, act);
    StepKeepsOnce(capacity, r, act);
  }

  predicate OfRooms(s: Lobbies.Step) {
    s.RoomTakes? || s.RoomEmits? || s.AwaitedTakes? || s.AwaitedEmits?
  }

  lemma ShareKeepsCustody(table: seq<byte>, l: Lobbies.Lobby, share: Lobbies.Step,
                          taken: set<Stream>, more: set<Stream>, lost: set<Stream>)
    requires SoundlyKept(table, l, taken, lost) && Lobbies.Can(table, l, share) && OfRooms(share)
    requires more == taken + TakenBy(l, share)
    ensures SoundlyKept(table, Lobbies.After(l, share), more, lost)
  {
    StepKeepsSoundlyKept(table, l, share, taken, lost);
    assert LostBy(l, share) == {} && lost + {} == lost;
  }

  /** With a step of a room just the client it brings is taken in. */
  lemma ShareTakes(l: Lobbies.Lobby, place: Place, act: Rooms.Step, takenBy: map<Stream, nat>, n: nat)
    requires Finds(l, place, act) && Share(place, act).Some?
    ensures OfRooms(Share(place, act).value)
    ensures (if Brought(act).Some? then takenBy[Brought(act).value := n] else takenBy).Keys
         == takenBy.Keys + TakenBy(l, Share(place, act).value)
  {
  }

  lemma RoomStepCustody(table: seq<byte>, l: Lobbies.Lobby, place: Place, act: Rooms.Step,
                        takenBy: map<Stream, nat>, next: map<Stream, nat>, n: nat, lost: set<Stream>)
    requires SoundlyKept(table, l, takenBy.Keys, lost) && Finds(l, place, act) && Share(place, act).Some?
    requires Lobbies.Can(table, l, Share(place, act).value)
    requires next == if Brought(act).Some? then takenBy[Brought(act).value := n] else takenBy
    ensures SoundlyKept(table, Lobbies.After(l, Share(place, act).value), next.Keys, lost)
  {
    ShareTakes(l, place, act, takenBy, n);
    ShareKeepsCustody(table, l, Share(place, act).value, takenBy.Keys, next.Keys, lost);
  }

  lemma AllButOneSound(rooms: seq<Rooms.Room>, n: nat, r: Rooms.Room)
    requires RoomsAreSound(rooms) && n < |rooms| && SoundRoom(r)
    ensures RoomsAreSound(rooms[n := r])
  {
  }

  lemma BroughtIsNew(rooms: seq<Rooms.Room>, takenBy: map<Stream, nat>, n: nat, act: Rooms.Step)
    requires Owned(rooms, takenBy) && n < |rooms| && (Brought(act).Some? ==> Brought(act).value !in takenBy)
    ensures BringsNew(rooms[n], act)
  {
  }

  lemma RoomStepRooms(capacity: nat, rooms: seq<Rooms.Room>, n: nat, act: Rooms.Step)
    requires RoomsAreSound(rooms) && n < |rooms| && Rooms.Can(rooms[n], act) && BringsNew(rooms[n], act)
    ensures RoomsAreSound(rooms[n := Rooms.After(capacity, rooms[n], act)])
  {
    RoomStepSound(capacity, rooms[n], act);
    AllButOneSound(rooms, n, Rooms.After(capacity, rooms[n], act));
  }

  /** The same in the server, where the room is one of many. */
  lemma ShareCanBeTaken(table: seq<byte>, v: Server, place: Place, act: Rooms.Step)
    requires RoomsAreSound(v.rooms) && Indexed(v) && Agreeing(v) && Can(table, v, OfRoom(place, act))
    ensures Share(place, act).Some? ==> Lobbies.Can(table, v.lobby, Share(place, act).value)
  {
    assert SoundRoom(v.rooms[SerialOf(v, place)]);
    ShareIsPossible(table, v.lobby, place, v.rooms[SerialOf(v, place)], act);
  }

  lemma RoomStepOnBooks(table: seq<byte>, capacity: nat, v: Server, place: Place, act: Rooms.Step, next: Server)
    requires SoundlyKept(table, v.lobby, v.takenBy.Keys, v.lost)
    requires Share(place, act).Some? ==> Lobbies.Can(table, v.lobby, Share(place, act).value)
    requires Can(table, v, OfRoom(place, act)) && next == AfterRoom(capacity, v, place, act)
    ensures SoundlyKept(table, next.lobby, next.takenBy.Keys, next.lost)
    ensures Brought(act).Some? ==> Brought(act).value !in v.takenBy
  {
    NewcomerIsNew(v.lobby, place, act, v.takenBy.Keys, v.lost);
    if Share(place, act).Some? {
      RoomStepCustody(table, v.lobby, place, act, v.takenBy, next.takenBy, SerialOf(v, place), v.lost);
    }
  }

  lemma RoomStepKeepsTied(table: seq<byte>, capacity: nat, v: Server, place: Place, act: Rooms.Step, next: Server)
    requires Tied(table, v) && Can(table, v, OfRoom(place, act)) && next == AfterRoom(capacity, v, place, act)
    ensures Tied(table, next)
  {
    var n := SerialOf(v, place);
    RoomStepAgrees(table, capacity, v, place, act, next);
    ShareCanBeTaken(table, v, place, act);
    RoomStepOnBooks(table, capacity, v, place, act, next);
    BroughtIsNew(v.rooms, v.takenBy, n, act);
    RoomStepRooms(capacity, v.rooms, n, act);
    RoomStepOwns(capacity, v.rooms, v.takenBy, n, act);
  }

  // ----- a step of the lobby -----

  lemma OpenedIsSound(code: RoomCode, host: Stream, setting: Setting)
    requires Rooms.ValidLimits(setting.limits)
    ensures var r := Opened(code, host, setting);
            SoundRoom(r) && r.control == [] && r.code == code && forall s: Stream :: !IsNew(r, s) ==> s == host
  {
    if setting.signalled {
      RoomRuns.SignalledStartIsSound(code, host, setting.inbox, setting.limits, setting.now);
    } else {
      RoomRuns.StartIsSound(code, host, setting.inbox, setting.limits, setting.now);
    }
    HostIsAlone(code, host, setting.inbox, setting.limits, setting.now);
  }

  lemma OneMoreSound(rooms: seq<Rooms.Room>, r: Rooms.Room)
    requires RoomsAreSound(rooms) && SoundRoom(r)
    ensures RoomsAreSound(rooms + [r])
  {
  }

  lemma OneMoreOwns(rooms: seq<Rooms.Room>, takenBy: map<Stream, nat>, r: Rooms.Room, host: Stream)
    requires Owned(rooms, takenBy) && host !in takenBy && forall s: Stream :: !IsNew(r, s) ==> s == host
    ensures Owned(rooms + [r], takenBy[host := |rooms|])
  {
  }

  lemma OneMoreIndexed(v: Server, k: u32, next: Server)
    requires Indexed(v) && k !in v.lobby.rooms && next.lobby.rooms.Keys == v.lobby.rooms.Keys + {k}
    requires next.lobby.awaited == v.lobby.awaited && next.parting == v.parting
    requires |next.rooms| == |v.rooms| + 1 && next.index == v.index[k := |v.rooms|]
    ensures Indexed(next) && SerialOf(next, Under(k)) == |v.rooms|
    ensures forall p :: There(next, p) && p != Under(k) ==> There(v, p) && SerialOf(next, p) == SerialOf(v, p)
  {
    assert forall p :: There(next, p) && p != Under(k) ==> There(v, p) && SerialOf(next, p) == SerialOf(v, p);
    assert next.index.Keys == v.index.Keys + {k};
  }

  lemma OneMoreAgrees(v: Server, k: u32, r: Rooms.Room, next: Server)
    requires Indexed(v) && Agreeing(v) && k !in v.lobby.rooms && r.control == [] && ToU32(r.code) == k
    requires next.lobby.rooms == v.lobby.rooms[k := Lobbies.RoomEntry(false, [], [])]
    requires next.lobby.awaited == v.lobby.awaited && next.parting == v.parting
    requires next.rooms == v.rooms + [r] && next.index == v.index[k := |v.rooms|]
    ensures Indexed(next) && Agreeing(next)
  {
    OneMoreIndexed(v, k, next);
  }

  lemma HostIsNew(table: seq<byte>, l: Lobbies.Lobby, s: Lobbies.Step, taken: set<Stream>, lost: set<Stream>)
    requires SoundlyKept(table, l, taken, lost) && Lobbies.Can(table, l, s) && LobbyStale.Opens(l, s)
    ensures TakenBy(l, s) == {l.requests[0].stream} && l.requests[0].stream !in taken
  {
    TakenAreNew(table, l, s, taken, lost);
  }

  lemma LobbyStepCustody(table: seq<byte>, v: Server, s: Lobbies.Step, setting: Setting, next: Server)
    requires SoundlyKept(table, v.lobby, v.takenBy.Keys, v.lost) && Lobbies.Can(table, v.lobby, s)
    requires next == AfterLobby(v, s, setting) && next.takenBy.Keys == v.takenBy.Keys + TakenBy(v.lobby, s)
    ensures SoundlyKept(table, next.lobby, next.takenBy.Keys, next.lost)
  {
    StepKeepsSoundlyKept(table, v.lobby, s, v.takenBy.Keys, v.lost);
  }

  lemma OpeningAgrees(table: seq<byte>, v: Server, s: Lobbies.Step, setting: Setting, next: Server)
    requires Indexed(v) && Agreeing(v) && Lobbies.Can(table, v.lobby, s) && LobbyStale.Opens(v.lobby, s)
    requires Rooms.ValidLimits(setting.limits) && next == AfterLobby(v, s, setting)
    ensures Indexed(next) && Agreeing(next)
  {
    LobbyStale.OpenedIsNew(table, v.lobby, s);
    OpenedIsSound(s.newCode, v.lobby.requests[0].stream, setting);
    OneMoreAgrees(v, LobbyStale.KeyOf(s), Opened(s.newCode, v.lobby.requests[0].stream, setting), next);
  }

  lemma OpeningRooms(rooms: seq<Rooms.Room>, takenBy: map<Stream, nat>, code: RoomCode, host: Stream, setting: Setting)
    requires RoomsAreSound(rooms) && Owned(rooms, takenBy) && host !in takenBy && Rooms.ValidLimits(setting.limits)
    ensures RoomsAreSound(rooms + [Opened(code, host, setting)])
    ensures Owned(rooms + [Opened(code, host, setting)], takenBy[host := |rooms|])
  {
    OpenedIsSound(code, host, setting);
    OneMoreSound(rooms, Opened(code, host, setting));
    OneMoreOwns(rooms, takenBy, Opened(code, host, setting), host);
  }

  lemma OpeningOnBooks(table: seq<byte>, v: Server, s: Lobbies.Step, setting: Setting, next: Server)
    requires SoundlyKept(table, v.lobby, v.takenBy.Keys, v.lost) && Lobbies.Can(table, v.lobby, s)
    requires LobbyStale.Opens(v.lobby, s) && next == AfterLobby(v, s, setting)
    ensures SoundlyKept(table, next.lobby, next.takenBy.Keys, next.lost) && v.lobby.requests[0].stream !in v.takenBy
  {
    HostIsNew(table, v.lobby, s, v.takenBy.Keys, v.lost);
    assert next.takenBy.Keys == v.takenBy.Keys + {v.lobby.requests[0].stream};
    LobbyStepCustody(table, v, s, setting, next);
  }

  lemma OpeningKeepsTied(table: seq<byte>, v: Server, s: Lobbies.Step, setting: Setting, next: Server)
    requires Tied(table, v) && Can(table, v, OfLobby(s, setting)) && LobbyStale.Opens(v.lobby, s)
    requires next == AfterLobby(v, s, setting)
    ensures Tied(table, next)
  {
    OpeningAgrees(table, v, s, setting, next);
    OpeningOnBooks(table, v, s, setting, next);
    OpeningRooms(v.rooms, v.takenBy, s.newCode, v.lobby.requests[0].stream, setting);
  }

  lemma TakeOffAgrees(v: Server, setting: Setting, next: Server)
    requires Indexed(v) && Agreeing(v) && TakesOff(v.lobby, Lobbies.TakeSignal)
    requires next == AfterLobby(v, Lobbies.TakeSignal, setting)
    ensures Indexed(next) && Agreeing(next) && next.rooms == v.rooms && next.takenBy == v.takenBy
  {
    var k := v.lobby.signals[0].code;
    assert forall p :: There(next, p) <==> (There(v, p) && p != Under(k)) || p == OffMap;
    assert forall p :: There(next, p) ==> SerialOf(next, p) == SerialOf(v, if p == OffMap then Under(k) else p);
  }

  lemma AbortsAgree(v: Server, s: Lobbies.Step, setting: Setting, next: Server)
    requires Indexed(v) && Agreeing(v) && s.Configure? && next == AfterLobby(v, s, setting)
    ensures Indexed(next) && Agreeing(next) && next.rooms == v.rooms && next.takenBy == v.takenBy
  {
    assert forall p :: There(next, p) ==> There(v, p) && SerialOf(next, p) == SerialOf(v, p);
  }

  /** The other steps neither open nor remove a room, and no room emits. */
  lemma SameEntries(l: Lobbies.Lobby, s: Lobbies.Step)
    requires (Lobbies.OfLobby(s) || s.Decide?) && !LobbyStale.Opens(l, s) && !TakesOff(l, s) && !s.Configure?
    ensures var next := Lobbies.After(l, s);
            && next.rooms.Keys == l.rooms.Keys && next.awaited == l.awaited
            && forall k :: k in l.rooms ==> next.rooms[k].emitted == l.rooms[k].emitted
  {
    if s.TakeRequest? && l.requests != [] {
      LobbyBooks.RequestKeepsRooms(l.(requests := l.requests[1..]), l.requests[0], s.newCode);
    }
  }

  lemma OtherStepsAgree(table: seq<byte>, v: Server, s: Lobbies.Step, setting: Setting, next: Server)
    requires Indexed(v) && Agreeing(v) && Can(table, v, OfLobby(s, setting)) && !LobbyStale.Opens(v.lobby, s)
    requires !TakesOff(v.lobby, s) && !s.Configure? && next == AfterLobby(v, s, setting)
    ensures Indexed(next) && Agreeing(next) && next.rooms == v.rooms && next.takenBy == v.takenBy
  {
    SameEntries(v.lobby, s);
    assert forall p :: There(next, p) == There(v, p) && SerialOf(next, p) == SerialOf(v, p);
  }

  lemma NobodyTaken(l: Lobbies.Lobby, s: Lobbies.Step, taken: set<Stream>)
    requires (Lobbies.OfLobby(s) || s.Decide?) && !LobbyStale.Opens(l, s)
    ensures taken + TakenBy(l, s) == taken
  {
  }

  lemma LobbyStepAgrees(table: seq<byte>, v: Server, s: Lobbies.Step, setting: Setting, next: Server)
    requires Indexed(v) && Agreeing(v) && Can(table, v, OfLobby(s, setting)) && !LobbyStale.Opens(v.lobby, s)
    requires next == AfterLobby(v, s, setting)
    ensures Indexed(next) && Agreeing(next) && next.rooms == v.rooms && next.takenBy == v.takenBy
  {
    if TakesOff(v.lobby, s) {
      TakeOffAgrees(v, setting, next);
    } else if s.Configure? {
      AbortsAgree(v, s, setting, next);
    } else {
      OtherStepsAgree(table, v, s, setting, next);
    }
  }

  lemma LobbyStepKeepsTied(table: seq<byte>, v: Server, s: Lobbies.Step, setting: Setting, next: Server)
    requires Tied(table, v) && Can(table, v, OfLobby(s, setting)) && next == AfterLobby(v, s, setting)
    ensures Tied(table, next)
  {
    if LobbyStale.Opens(v.lobby, s) {
      OpeningKeepsTied(table, v, s, setting, next);
    } else {
      LobbyStepAgrees(table, v, s, setting, next);
      NobodyTaken(v.lobby, s, v.takenBy.Keys);
      LobbyStepCustody(table, v, s, setting, next);
    }
  }

  // ----- over runs -----

  ghost predicate IsRun(table: seq<byte>, capacity: nat, v: Server, steps: seq<Step>)
    decreases |steps|
  {
    steps == [] || (Can(table, v, steps[0]) && IsRun(table, capacity, After(table, capacity, v, steps[0]), steps[1..]))
  }

  ghost function Final(table: seq<byte>, capacity: nat, v: Server, steps: seq<Step>): Server
    requires IsRun(table, capacity, v, steps)
    decreases |steps|
  {
    if steps == [] then v else Final(table, capacity, After(table, capacity, v, steps[0]), steps[1..])
  }

  lemma StepKeepsTied(table: seq<byte>, capacity: nat, v: Server, step: Step)
    requires Tied(table, v) && Can(table, v, step)
    ensures Tied(table, After(table, capacity, v, step))
  {
    match step {
      case OfLobby(s, setting) => LobbyStepKeepsTied(table, v, s, setting, AfterLobby(v, s, setting));
      case OfRoom(place, act) => RoomStepKeepsTied(table, capacity, v, place, act, AfterRoom(capacity, v, place, act));
    }
  }

  lemma StartIsTied(table: seq<byte>, maxRooms: nat, queueCapacity: nat)
    requires maxRooms <= 400_000 && queueCapacity <= 10_000
    ensures Tied(table, Start(maxRooms, queueCapacity))
  {
    LobbyRuns.StartIsSound(table, maxRooms, queueCapacity);
  }

  lemma {:induction false} RunsAreTied(table: seq<byte>, capacity: nat, v: Server, steps: seq<Step>)
    requires Tied(table, v) && IsRun(table, capacity, v, steps)
    ensures Tied(table, Final(table, capacity, v, steps))
    decreases |steps|
  {
    if steps == [] {
    } else {
      StepKeepsTied(table, capacity, v, steps[0]);
      RunsAreTied(table, capacity, After(table, capacity, v, steps[0]), steps[1..]);
    }
  }

  /** The lobby is held up exactly as long as the room it awaits has not finished. */
  lemma BlockedIsUnfinished(table: seq<byte>, v: Server)
    requires Tied(table, v) && v.lobby.awaited.Some?
    ensures v.parting < |v.rooms| && (Lobbies.Blocked(v.lobby) <==> !v.rooms[v.parting].mode.Finished?)
  {
    assert There(v, OffMap);
    assert SoundRoom(v.rooms[v.parting]);
    assert v.rooms[v.parting].control == v.lobby.awaited.value.entry.emitted;
  }

  /** What a step of the server is to the lobby: one step of its own, or none. */
  lemma LobbyPart(table: seq<byte>, capacity: nat, v: Server, step: Step) returns (s: Option<Lobbies.Step>)
    requires RoomsAreSound(v.rooms) && Indexed(v) && Agreeing(v) && Can(table, v, step)
    ensures match s
            case None => After(table, capacity, v, step).lobby == v.lobby
            case Some(t) =>
              Lobbies.Can(table, v.lobby, t) && After(table, capacity, v, step).lobby == Lobbies.After(v.lobby, t)
  {
    match step {
      case OfLobby(t, _) => s := Some(t);
      case OfRoom(place, act) =>
        ShareCanBeTaken(table, v, place, act);
        s := Share(place, act);
    }
  }

  /** The lobby's part of a run of the server is a run of the lobby. */
  lemma {:induction false} LobbyRunsAlong(table: seq<byte>, capacity: nat, v: Server, steps: seq<Step>)
    returns (part: seq<Lobbies.Step>)
    requires Tied(table, v) && IsRun(table, capacity, v, steps)
    ensures Lobbies.IsRun(table, v.lobby, part)
    ensures Lobbies.Final(v.lobby, part) == Final(table, capacity, v, steps).lobby
    decreases |steps|
  {
    if steps == [] {
      part := [];
    } else {
      StepKeepsTied(table, capacity, v, steps[0]);
      var s := LobbyPart(table, capacity, v, steps[0]);
      part := LobbyRunsAlong(table, capacity, After(table, capacity, v, steps[0]), steps[1..]);
      if s.Some? {
        LobbyRuns.RunStep(table, v.lobby, s.value, part);
        part := [s.value] + part;
      }
    }
  }

  /** And each room's part is a run of that room. */
  lemma {:induction false} RoomRunsAlong(table: seq<byte>, capacity: nat, v: Server, steps: seq<Step>, n: nat)
    returns (part: seq<Rooms.Step>)
    requires IsRun(table, capacity, v, steps) && n < |v.rooms|
    ensures n < |Final(table, capacity, v, steps).rooms| && Rooms.IsRun(capacity, v.rooms[n], part)
    ensures Rooms.Final(capacity, v.rooms[n], part) == Final(table, capacity, v, steps).rooms[n]
    decreases |steps|
  {
    if steps == [] {
      part := [];
    } else {
      part := RoomRunsAlong(table, capacity, After(table, capacity, v, steps[0]), steps[1..], n);
      if steps[0].OfRoom? && SerialOf(v, steps[0].place) == n {
        Rooms.RunStep(capacity, v.rooms[n], steps[0].act, part);
        part := [steps[0].act] + part;
      }
    }
  }

  /** Nobody is given two closing tasks, be it by the lobby, by a room, by the lobby and a room, or by two rooms. */
  ghost predicate ClosedOnce(v: Server) {
    && LobbyRuns.ClosedOnce(v.lobby)
    && (forall n, i, j :: 0 <= n < |v.rooms| && 0 <= i < j < |v.rooms[n].closeTasks| ==>
          v.rooms[n].closeTasks[i].stream != v.rooms[n].closeTasks[j].stream)
    && (forall n, c, d :: 0 <= n < |v.rooms| && c in v.rooms[n].closeTasks && d in v.lobby.closeTasks ==>
          c.stream != d.stream)
    && (forall m, n, c, d :: 0 <= m < n < |v.rooms| && c in v.rooms[m].closeTasks && d in v.rooms[n].closeTasks ==>
          c.stream != d.stream)
  }

  lemma RoomClosings(rooms: seq<Rooms.Room>, takenBy: map<Stream, nat>, n: nat)
    requires Owned(rooms, takenBy) && n < |rooms| && OnceEach(rooms[n])
    ensures forall i, j :: 0 <= i < j < |rooms[n].closeTasks| ==>
              rooms[n].closeTasks[i].stream != rooms[n].closeTasks[j].stream
    ensures forall c :: c in rooms[n].closeTasks ==> c.stream in takenBy && takenBy[c.stream] == n
  {
    ClosedOnceEach(rooms[n]);
    forall c | c in rooms[n].closeTasks ensures !IsNew(rooms[n], c.stream) {
      ClosedIsOwed(rooms[n], c);
    }
  }

  lemma LobbyClosings(l: Lobbies.Lobby, taken: set<Stream>, lost: set<Stream>, d: CloseTask)
    requires Lobbies.Complete(l) && Apart(l, taken, lost) && d in l.closeTasks
    ensures d.stream !in taken
  {
    var i :| 0 <= i < |l.closeTasks| && l.closeTasks[i] == d;
  }

  lemma {:induction false} TiedClosesOnce(table: seq<byte>, v: Server)
    requires Tied(table, v)
    ensures ClosedOnce(v)
  {
    forall n | 0 <= n < |v.rooms|
      ensures forall i, j :: 0 <= i < j < |v.rooms[n].closeTasks| ==>
                v.rooms[n].closeTasks[i].stream != v.rooms[n].closeTasks[j].stream
      ensures forall c :: c in v.rooms[n].closeTasks ==> c.stream in v.takenBy && v.takenBy[c.stream] == n
    {
      assert SoundRoom(v.rooms[n]);
      RoomClosings(v.rooms, v.takenBy, n);
    }
    forall d | d in v.lobby.closeTasks ensures d.stream !in v.takenBy {
      LobbyClosings(v.lobby, v.takenBy.Keys, v.lost, d);
    }
  }

  /**
   Over every run of the server nobody is closed twice, by whomever; and whoever was given to a room was taken in by
   exactly one room's task, as a member or to be turned away, or waits in its channel, or was lost with it.
   */
  lemma {:induction false} ServerRunsAreFair(table: seq<byte>, capacity: nat, maxRooms: nat, queueCapacity: nat,
                                             steps: seq<Step>)
    requires maxRooms <= 400_000 && queueCapacity <= 10_000
    requires IsRun(table, capacity, Start(maxRooms, queueCapacity), steps)
    ensures var last := Final(table, capacity, Start(maxRooms, queueCapacity), steps);
            && ClosedOnce(last) && Kept(last.lobby, last.takenBy.Keys, last.lost)
            && Owned(last.rooms, last.takenBy) && RoomsAreSound(last.rooms)
  {
    StartIsTied(table, maxRooms, queueCapacity);
    RunsAreTied(table, capacity, Start(maxRooms, queueCapacity), steps);
    TiedClosesOnce(table, Final(table, capacity, Start(maxRooms, queueCapacity), steps));
  }
}
