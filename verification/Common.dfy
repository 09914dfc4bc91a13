/** Types shared by every part of the model. */
module Common {

  datatype Option<+T> = None | Some(value: T)

  datatype Result<+T, +E> = Ok(value: T) | Err(error: E)

  /** Rust's `u8` and `u32`. */
  type byte = x: int | 0 <= x < 256
  type u32 = x: int | 0 <= x < 0x1_0000_0000

  /** A Rust `str` or `String`, as its UTF-8 bytes. */
  type Text = seq<byte>

  /** The identity of one client connection; what travels over it is not modelled here. */
  type Stream = nat

  /** The WebSocket close codes the server can hand to a closing task. */
  datatype CloseCode =
    | Protocol | Unsupported | Invalid | Policy | Size | InternalError | Again
    | DidNotJoinRoom | HostDisconnected | OnlyHostCanSeal | TooManyRooms | AlreadyInRoom
    | RoomDoesNotExist | RoomIsSealed | InvalidFormat | NotInRoom | InvalidDestination
    | InvalidCommand | TooManyPlayers | JoinQueueFull

  /** The control signals a room can send to the lobby (src/message.rs). */
  datatype Control = SealSignal | CloseSignal

  /** A spawned `send_close` task: which connection is closed, and with what code. */
  datatype CloseTask = CloseTask(stream: Stream, code: CloseCode)

  /** The rejection loop for handle ids and player ids, over a given sequence of draws: the first not in use. */
  method ChooseUnused(draws: seq<u32>, used: set<u32>) returns (choice: Option<u32>)
    ensures choice.Some? ==> choice.value in draws && choice.value !in used
    ensures choice.None? ==> forall i :: 0 <= i < |draws| ==> draws[i] in used
  {
    for i := 0 to |draws|
      invariant forall j :: 0 <= j < i ==> draws[j] in used
    {
      if draws[i] !in used {
        return Some(draws[i]);
      }
    }
    return None;
  }

  /** As long as fewer ids are taken than there are, some id is left, close to the lowest one allowed. */
  lemma {:induction false} LeftFrom(taken: set<u32>, low: u32) returns (id: u32)
    requires low + |taken| < 0x1_0000_0000
    ensures low <= id <= low + |taken| && id !in taken
  {
    if low !in taken {
      id := low;
    } else {
      id := LeftFrom(taken - {low}, low + 1);
    }
  }
}
