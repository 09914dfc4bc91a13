# The room, player and lobby protocol of the lobby server, verified

The server lets clients meet. A client connects, waits in the lobby's join queue, and asks to host a
room or to join one by its four-letter code. In a room it is told who else is there, and it can send
offers, answers and candidates to the other members until the host seals the room or leaves. Lobby, rooms
and players are tasks that talk over bounded queues; this project models those tasks and proves what
holds over every run of them.

Two kinds of modules stand side by side. The state machines (`Rooms`, `Players`, `Lobbies`, `Keepalive`,
and `Server`, which puts the lobby and whole rooms together) say what one step does; every branch of a
`select!`, every turn of the closing and draining loops, and every act of a player task is a step, and
steps of different tasks interleave in any order. The task
modules (`RoomTask`, `PlayerTask`, `LobbyTask`, `Keepalive.Heartbeat`, and the methods of `RoomCodes`) are
the same code in its own form, classes and loops that update their fields, and every method is proved to
be the step it stands for. The invariants and the theorems are about the state machines.

| module | what it is about |
|---|---|
| `RoomCodes` | codes, their conversions, the profanity search, and why a fresh code is always left |
| `TextProtocol` | the text protocol: parsing, printing, and the address swap of the relay |
| `Sequences`, `MapSums` | sequences with entries left out, and sums over maps, for the proofs below |
| `NotificationRing` | the broadcast ring, and why it can be replaced by the log of everything sent |
| `Players`, `PlayerTask` | one player task, and that its client is shown no gaps |
| `Reactions` | what a client's words, its room's notifications and its silence lead to, and with which close code |
| `Rooms` | one room with its player tasks |
| `RoomLoops`, `RoomServing`, `RoomTask` | the room task: its loops over the player map, what its methods promise, and the task itself |
| `RoomViews`, `RoomQuota`, `RoomDelivery`, `RoomSafety`, `RoomLimits`, `RoomFrames` | the invariants of a room, one subject each |
| `RoomRuns`, `RoomMessages` | all of them over every run, and what they mean for the clients and their messages |
| `RoomNotices`, `RoomSeals` | who is told what and for which reason, which messages are passed on, and who seals a room |
| `RoomClosing`, `RoomDrains`, `RoomLingers`, `RoomEndings` | the closing protocol, the drains after it, and how a room ends |
| `RoomIds`, `RoomOnce` | which ids are safe for a newcomer, and that nobody is dropped or closed twice |
| `Keepalive` | pings, pongs and the timeout |
| `Joining`, `Lobbies`, `LobbyBooks`, `LobbyRuns`, `LobbyChannels`, `LobbyCustody`, `LobbyOutcomes`, `LobbyTask` | waiting clients and the lobby, and what becomes of each request |
| `LobbyStale`, `LobbyDeadlock` | what stale signals lead to, and how the lobby can stop for ever |
| `Server`, `ServerJoins` | the lobby and all its rooms together, and how a client becomes a member of the room it names |
| `Config` | what a validated configuration guarantees to all of the above |

## What turned out to be false

Seven things one would expect of the code do not hold. In each case the model keeps the code as it is, a
lemma gives a run that shows the failure, and another says exactly when it cannot happen.

* *A closing room always closes.* Not when the server is shut down meanwhile: a player that takes the
  shutdown branch sends no terminal request, and `on_close` waits for one for ever
  (`RoomEndings.ShutdownHangsClose`). A closing room can still close if and only if every awaited task that
  has ended has its terminal request queued (`RoomClosing.ClosesExactly`), and it can come to hang if and
  only if that fails or some awaited task still serves its client and can hear the signal
  (`RoomClosing.MayHangExactly`). Without a shutdown it never hangs (`RoomClosing.ClosingNeverStuck`).
* *A room that is shut down drains its queues.* The close queue is drained to its end before the request
  queue is read, but a player blocked on a full request queue keeps the close queue open
  (`RoomEndings.ShutdownHangsDrain`). The drain can still end if and only if its tasks need no more places in
  the request queue than it has left (`RoomDrains.CanDrainExactly`); "can" includes that clients fall silent
  and are timed out. It can come to hang if and only if the clients can still cause more requests than that
  (`RoomDrains.DrainMayHangExactly`).
* *A shutdown ends every connection.* A newcomer's receiver for the shutdown signal is a new subscription
  (`src/room.rs:193`), which yields only what is sent later. A client that joins after the signal was sent and
  before its room takes notice is served on, and the drain lasts until that client leaves, breaks a rule or
  fails to answer a ping (`RoomEndings.LateNewcomerLingers`). A drain can come to depend on a client in this
  way if and only if some task does not hear the signal, has read and been told nothing that ends it, and
  finds places in the request queue for all its client has asked for (`RoomLingers.MayLingerExactly`).
  `RoomDrains.DrainIdleExactly` says when a drain already waits so.
* *An id that is not in the player map can be given out.* `notify_all` removes a player whose task is gone
  while its terminal request is still queued; with the id given out again, the request hits the newcomer
  and the room awaits a live task (`RoomIds.ReusedIdIsFatal`). A message left in the queue is credited to the
  newcomer, and whoever still knows a player of that id is told that it joins, once more
  (`RoomIds.KnownIdMisleads`). `RoomIds.IdIsSafeExactly` says which ids keep all invariants: exactly those
  `Rooms.Fresh` lets a room give out, and until a shutdown there always is one (`RoomIds.JoinIsPossible`). A
  queued seal of the former player breaks no invariant, but gets the newcomer told to close.
* *The room a close signal names has finished.* Not after the room limit was lowered: the signals of an
  aborted room can stay queued while its code is given to a new room, and the lobby then takes the live room
  off its map and waits for it (`LobbyRuns.StaleCloseMeetsLiveRoom`). After a room was opened that can happen
  if and only if a close was queued for its code (`LobbyStale.StaleCloseExactly`), and a room can be sealed
  before it seals itself if and only if a seal was the next signal for its code
  (`LobbyStale.StaleSealExactly`). Without aborts neither ever happens (`LobbyRuns.RunsWithoutAbortsAreTidy`).
* *The lobby always handles the next event.* It does not while it waits for such a live room, and there is no
  other case (`LobbyStale.WaitBeginsExactly`). If the other rooms fill the queue of signals meanwhile, the room
  it waits for cannot emit its own, and the lobby has stopped for ever (`LobbyDeadlock.LobbyDeadlocks`). It
  waits for ever if and only if the queue has no place for what that room has yet to emit
  (`LobbyDeadlock.WaitsForEverExactly`); and a stale close can lead there if and only if the signals queued
  behind it and those all rooms have yet to emit, two for each new room, are more than the queue has places
  (`LobbyDeadlock.StaleCloseStopsExactly`).
* *A response limit longer than the ping interval is enough.* `src/config.rs:215-217` says so. A client
  that answers within the response limit less the ping interval always survives; with one tick more it
  can be timed out, under every valid config and without any config change (`Keepalive.PromptnessIsExact`).
  The server is also stricter than sections 5.5.2
  and 5.5.3 of RFC 6455, which allow one pong for several pings and pongs nobody asked for.

## Model

| member | source | states |
|---|---|---|
| RoomCodes.ValidBytes | src/room_code.rs:48-58 | four bytes are a valid code exactly when each is a letter from A to Z |
| RoomCodes.BigEndianRoundTrip | src/room_code.rs:144-163 | the two integer conversions undo each other, in both directions |
| RoomCodes.KeyRoundTrip | src/room_code.rs:144-163 | an integer key decodes to a code if and only if it is the key of that valid code |
| RoomCodes.TryFromText | src/room_code.rs:165-187 | the conversion that fills an array accepts exactly the texts of four letters and tells length errors from character errors |
| RoomCodes.CompareToProfanity | src/room_code.rs:105-116 | comparing byte by byte decides the numeric order of the big-endian integers |
| RoomCodes.LinesAreTable | src/room_code.rs:70-90 | a file with a four-letter word on each line, in alphabetical order, is such a table, and lists exactly its words |
| RoomCodes.IsProfanity | src/room_code.rs:70-90 | the binary search stays in bounds, ends, and finds a code exactly when some record of the sorted table equals it, also if the last record is cut short |
| RoomCodes.FreshCodeExists | src/lobby.rs:195-203 | if rooms and listed words are together fewer than the 456,976 codes, some valid code is neither in use nor listed |
| RoomCodes.ChooseCode | src/lobby.rs:195-203 | the rejection loop yields the first draw that is valid, unused and not listed, and goes on only while there was none |
| TextProtocol.SplitParts | src/player/mod.rs:247-248 | splitting fails exactly without the separator, and otherwise cuts at its first occurrence |
| TextProtocol.SplitJoined | src/player/mod.rs:247-248 | joining two texts at a separator the first lacks is undone by splitting |
| TextProtocol.ParsePrintU32 | src/player/mod.rs:279 | every 32-bit id is read back from its decimal text, which holds no separator |
| TextProtocol.ParsePrinted | src/player/mod.rs:246-319 | parsing undoes printing for every request with a written form, whatever newlines and spaces the payload holds |
| TextProtocol.AcceptedIsWritable | src/player/mod.rs:246-319 | whatever is accepted has a valid code, or a non-empty payload |
| TextProtocol.ReprintIsStable | src/player/mod.rs:246-319 | printing an accepted request and parsing it again gives the same request |
| TextProtocol.RelayTexts | src/player/mod.rs:278-310 | exactly which texts are accepted as a message of a kind, to an id, with a payload |
| TextProtocol.SameRequestTwoTexts | src/player/mod.rs:279-288 | a sign and leading zeros are accepted, so reprinting need not give the same text |
| TextProtocol.ReadRendered | src/player/in_room.rs:345-369 | every message of the server is read back as itself, so no two look alike on the wire |
| TextProtocol.RelaySwapsAddress | src/player/in_room.rs:355-369 | what the receiver is shown parses as the sender's request with the sender's id in place of the receiver's |
| TextProtocol.RequestsInWords | src/player/mod.rs:246-319 | the texts of all requests, letter for letter |
| TextProtocol.ReportsInWords | src/player/in_room.rs:179-197 | the texts of all messages of the server, letter for letter |
| TextProtocol.NumbersInWords | src/player/mod.rs:279 | ids are written without leading zeros, and a number that does not fit 32 bits is not read |
| TextProtocol.RejectedUnframed | src/player/mod.rs:247-318 | a text is rejected for want of a newline, or of a space, exactly if it has none, or none before its first newline |
| TextProtocol.RejectedFrames | src/player/mod.rs:249-313 | for every command word, argument and payload, which of the other four errors the text is rejected with, if any |
| TextProtocol.RejectionCodes | src/player/mod.rs:323-332 | which errors are answered with which of the three close codes |
| NotificationRing.SendHolds | src/room.rs:978-985 | a send keeps the slot invariant: the ring holds exactly the last entries of the log, each in its own slot |
| NotificationRing.RecvMatchesLog | src/player/in_room.rs:341-406 | a reader of the ring gets the next entry, nothing, or how many it missed, just as the log says |
| NotificationRing.RingRefinesLog | src/room.rs:663-665 | for every capacity and every history of sends, ring and log answer every reader the same |
| Players.ActKeepsFaithful | src/player/in_room.rs:341-407 | whatever the task does, its client has been shown a gap-free beginning of greeting and log, and all that was read while it is served |
| Players.OvertakenNeverResumes | src/player/in_room.rs:398-405 | a reader overtaken by the ring closes with an error and shows its client nothing more in any further life |
| Players.FinishedForGood | src/player/in_room.rs:98-137 | a task that has decided to end shows its client nothing more, and submits at most the one terminal request it owes |
| Players.OneTerminalAtMost | src/player/in_room.rs:98-137 | over its whole life a task submits at most one drop or close |
| Reactions.OnlyTextsAsk | src/player/in_room.rs:234-269 | only text messages make a task ask its room for anything, one single text asks for a seal, and only accepted relays ask for a message to be passed on |
| Reactions.WordsDecide | src/player/in_room.rs:230-339 | for every message of a client whether its task asks, goes on, drops it, or closes it, and for every close code exactly which messages earn it |
| Reactions.NoticesDecide | src/player/in_room.rs:341-407 | exactly the three terminal notifications close the client, each with its own code; any other is shown, or ends in a drop if the client cannot be written to |
| Reactions.UnreachableIsDropped | src/player/in_room.rs:410-420 | a failed greeting or ping and a timeout end in a drop, with nothing shown |
| Reactions.TaskIsReady | src/player/in_room.rs:228-455 | in every phase, exactly what the task is ready for; nothing holds it up but a full queue |
| PlayerTask.PlayerTask.constructor | src/player/in_room.rs:193-224 | a task starts with an empty log, no expected pongs and both timers set |
| PlayerTask.PlayerTask.Greet | src/player/in_room.rs:179-197 | the greeting tells id, others and code in that order, and ends at the first write that fails |
| PlayerTask.GreetingIsItsActs | src/player/in_room.rs:179-197 | both outcomes of the greeting are a sequence of single writes of the state machine |
| PlayerTask.PlayerTask.OnClientMessage | src/player/in_room.rs:230-339 | the client branch is the step ReadClient, and moves the timers exactly on an expected pong |
| PlayerTask.PlayerTask.OnNotification | src/player/in_room.rs:341-407 | the notification branch is the step TakeNotice |
| PlayerTask.PlayerTask.OnPingTick | src/player/in_room.rs:410-414 | a ping is counted exactly when writing it worked |
| PlayerTask.PlayerTask.OnTimeout | src/player/in_room.rs:416-420 | the timeout branch is the step TimeOut |
| PlayerTask.PlayerTask.OnConfig | src/player/in_room.rs:422-445 | a config change restarts both timers and forgets no expected pong |
| PlayerTask.PlayerTask.OnSubmitted | src/player/in_room.rs:98-159 | after its request is queued the task goes on, or it was its terminal one |
| PlayerTask.PlayerTask.OnShutdown | src/player/in_room.rs:449-451 | on the shutdown signal the task ends without a terminal request |
| PlayerTask.PlayerTask.Select | src/player/in_room.rs:229-452 | each branch is taken exactly when the state machine lets it and, for the two intervals, when it is due; it is the step it stands for, and moves the clock as Keepalive says |
| PlayerTask.PlayerTask.Serve | src/player/in_room.rs:228-455 | the loop, whatever its select is woken by, is a life of the player |
| PlayerTask.BranchesAreSessionSteps | src/player/in_room.rs:410-445 | the branches of the task are the steps of its session with the client, so with a prompt client the timeout branch is never due |
| PlayerTask.BeatKeepsPace | src/player/in_room.rs:410-445 | against a client that keeps its promise, a branch that is taken is not the timeout, and leaves the task's clock where the healthy session has it |
| PlayerTask.PlayerTask.ServePrompt | src/player/in_room.rs:228-455 | over the whole loop, with time passing between, a prompt client is never timed out |
| Keepalive.Heartbeat.constructor | src/player/in_room.rs:214-224 | a new task is to ping at once and to time out a response limit later |
| Keepalive.Heartbeat.OnPingTick | src/player/in_room.rs:410-414 | one more pong is expected, and the next ping is one interval later |
| Keepalive.Heartbeat.OnPong | src/player/in_room.rs:283-297 | a pong is accepted exactly when one is expected, and puts the timeout off to a full response limit from now |
| Keepalive.Heartbeat.OnConfig | src/player/in_room.rs:438-444 | both intervals begin anew with the new durations |
| Keepalive.StepKeepsHealthy | src/player/in_room.rs:283-297 | with a prompt client, expected pongs equal pings sent less pongs accepted, and some answer comes before the timeout |
| Keepalive.PromptClientsSurvive | src/player/in_room.rs:410-445 | a prompt client is never timed out nor closed for an unexpected pong, over every run and every sequence of valid configs |
| Keepalive.TimeGoesOn | src/player/in_room.rs:410-420 | the claim is not empty: time passes, or a ping is due, or an answer is |
| Keepalive.DoomedTimesOut | src/player/in_room.rs:410-420 | once no answer is promised before the timeout, some run without a config change times the client out |
| Keepalive.LateClientMayDie | src/player/in_room.rs:416-420 | under every valid config a client one tick later than prompt has a run, without a config change, in which it is timed out |
| Keepalive.PromptnessIsExact | src/config.rs:243-245 | under every valid config a client survives every run if and only if it is never late, whether or not the config changes on the way |
| Keepalive.PingsAtOnce | src/player/in_room.rs:211-224 | a new session pings at once, and so does one whose config has just changed, before any time passes |
| Keepalive.PingsAreOnTime | src/player/in_room.rs:410-414 | until the config changes the k-th ping, from zero, is sent exactly k intervals later, however late the client answers |
| Keepalive.TimeoutIsExact | src/player/in_room.rs:416-420 | on every run the timeout strikes exactly one response limit after the last expected pong or config change |
| Keepalive.SessionKeepsTime | src/player/in_room.rs:211-224 | both, for a new session |
| Keepalive.ChangedKeepsTime | src/player/in_room.rs:422-445 | both, after a config change, with the new durations |
| Config.ValidateIsExact | src/config.rs:231-248 | validation accepts exactly the configs that meet all ten ranges and three orderings |
| Config.ValidIsEnough | src/config.rs:231-248 | a validated config gives rooms, keepalive and lobby what their proofs need |
| Config.FirstFailureIsReported | src/config.rs:231-250 | the error names the first range that fails, or else the first ordering |
| Config.RoomLastsItsMinutes | src/room.rs:111-148 | a room has its time up as many minutes after it opened as the config says, and the config's limits |
| Common.ChooseUnused | src/room.rs:179-182 | a rejection loop for ids yields a draw not in use, and goes on only if all are in use |
| Common.LeftFrom | src/room.rs:179-182 | as long as fewer ids are taken than there are, one is left |
| RoomLoops.TellAll | src/room.rs:902-926 | the loop appends to every live player's log and removes exactly the dead |
| RoomLoops.ForgetAll | src/room.rs:722-725 | the loop clears every counter for one player and no other |
| RoomLoops.KickSome | src/room.rs:386-403 | exactly as many as asked for are told to close, none of them the host |
| RoomLoops.KicksExist | src/room.rs:386-392 | as many members as must be kicked can be found without the host |
| RoomLoops.CallAll | src/room.rs:778-819 | exactly the live members, less a skipped host, are told to close and awaited |
| RoomTask.RoomTask.constructor | src/room.rs:111-160 | a room task begins with its host taken in and its deadline set |
| RoomTask.RoomTask.NotifyAll | src/room.rs:902-926 | notify_all is the function NotifyAll of the state machine |
| RoomTask.RoomTask.OnConnect | src/room.rs:650-690 | the others hear of the newcomer first, and the newcomer is given exactly the ids left in the map |
| RoomTask.RoomTask.OnDisconnect | src/room.rs:698-743 | the player is forgotten with all counts of messages to it, its close is spawned, and the rest hear that it left |
| RoomTask.RoomTask.TrySendMessage | src/room.rs:525-592 | the message is counted and passed on, or its sender is told to close, in exactly the cases of the state machine |
| RoomTask.RoomTask.KickExcess | src/room.rs:386-403 | exactly as many members as are too many are told to close |
| RoomTask.RoomTask.OnConfig | src/room.rs:344-404 | the room expires exactly when it is as old as the new limit; otherwise its deadline moves to the creation time plus the limit |
| RoomTask.RoomTask.CallToClose | src/room.rs:770-819 | the first half of on_close is the function BeginClose of the state machine |
| RoomTask.RoomTask.NextTurn | src/room.rs:828-878 | while on_close waits, some task or queue can move, or the closing hangs for ever and the server was shut down |
| RoomTask.RoomTask.TakeRequestTurn | src/room.rs:832-855 | while closing, a drop releases its player and other requests are ignored |
| RoomTask.RoomTask.TakeCloseTurn | src/room.rs:857-877 | while closing, every close is kept for later and releases its player |
| RoomTask.RoomTask.AwaitAll | src/room.rs:828-879 | against any scheduler, with the shutdown signal at any time, the loop ends with nobody left or hangs for good, as a run of no more steps than there was work |
| RoomTask.RoomTask.SpawnCloseTasks | src/room.rs:881-895 | every close received is given a closing task, the host's last |
| RoomTask.RoomTask.OnClose | src/room.rs:759-896 | on_close as a whole is a run of the state machine after which no task is left, or which hangs for good |
| RoomTask.RoomTask.RunTaskTurn | src/player/in_room.rs:98-159 | a task's turn is one act of the state machine; a submitted request or close enters its queue |
| RoomTask.RoomTask.ServeNewcomer | src/room.rs:171-209 | a full room turns the stream away with the right code, any other gives it an unused id |
| RoomTask.RoomTask.TrySeal | src/room.rs:601-645 | only the host seals, which closes the room; anybody else is told to close |
| RoomTask.RoomTask.Drop | src/room.rs:265-286 | without its host a room closes, without anybody else it goes on |
| RoomTask.RoomTask.Dismiss | src/room.rs:300-336 | a close of the host closes the room and is carried out last, any other is a disconnect |
| RoomTask.RoomTask.ServeRequest | src/room.rs:211-293 | the request branch takes the step TakeRequest, and goes through on_close and leaves the loop exactly when the host sealed or left |
| RoomTask.RoomTask.ServeClose | src/room.rs:295-342 | the close branch takes the step TakeClose, and goes through on_close and leaves the loop exactly for the host |
| RoomTask.RoomTask.ServeTimeUp | src/room.rs:406-419 | at the time limit everybody is told and the room goes through on_close |
| RoomTask.RoomTask.ServeConfig | src/room.rs:344-404 | the config branch takes the step Configure, and closes the room exactly when the new limit is already reached |
| RoomTask.RoomTask.WakeForArrival | src/room.rs:171-209 | a newcomer is turned away, or joins under a safe id; where the draws hold none the model ends |
| RoomTask.RoomTask.MainLoop | src/room.rs:169-428 | whatever the main loop is woken by, it is a run of the state machine, and ends serving, past on_close, on a shutdown, or hanging for good |
| RoomTask.RoomTask.DrainCloses | src/room.rs:446-454 | the drain of the close queue ends when its last sender is gone, after no more steps than there was work, or hangs for good, or waits for a client that came after the signal |
| RoomTask.RoomTask.DrainRequests | src/room.rs:456-461 | the drain of the request queue takes one receive for each entry |
| RoomTask.RoomTask.TurnAway | src/room.rs:476-498 | the sweep closes exactly the streams that came too late |
| RoomTask.RoomTask.Depart | src/room.rs:430-518 | after the main loop both drains end and a seal and then a close are emitted, within a step for each entry and late stream and a few more after on_close; after a shutdown the drain can hang if it was crowded, or wait for a client that came after the signal |
| RoomTask.RoomTask.Run | src/room.rs:111-519 | the task from its first step to its last is a run of the state machine |
| RoomViews.StepKeepsViews | src/room.rs:650-743 | every step keeps each member's picture: all other members, never itself, beyond that only zombies, and messages only from players in view |
| RoomViews.ConnectKeepsViews | src/room.rs:650-690 | joining keeps the pictures, also when it makes the room notice dead players |
| RoomViews.DisconnectKeepsViews | src/room.rs:698-743 | leaving keeps the pictures |
| RoomQuota.StepKeepsLedger | src/room.rs:525-592 | every step keeps each counter equal to the messages in the receiver's log since the pair is together, within the largest quota so far |
| RoomQuota.PassKeepsBalance | src/room.rs:539-545 | an accepted message moves exactly one counter by one |
| RoomQuota.QuotaHolds | src/room.rs:989-1008 | for two members, counter and log agree and stay within the largest quota in force so far |
| RoomDelivery.StepKeepsDelivery | src/room.rs:525-592 | every step in every mode conserves messages: asked is accepted, then queued, then pending; for a player told to close, and where the room throws requests away, the latter are among the former in order; a log holds what was accepted for it, in order |
| RoomDelivery.AcceptKeepsDelivery | src/room.rs:576-591 | accepting moves one message from the queue to the sender's record and the receiver's log |
| RoomDelivery.SenderConserves | src/room.rs:539-545 | for its sender an accepted message moves from the queue to the record |
| RoomDelivery.RefusedConserves | src/room.rs:546-566 | a refused message is out no more, and its sender is told to close |
| RoomDelivery.ThrownAway | src/room.rs:832-855 | a request the closing or draining room throws away is out no more, and what is left is still in order |
| RoomDelivery.SubmitConserves | src/player/in_room.rs:141-159 | queueing a request moves one message from the task to the queue |
| RoomSafety.StepKeepsEndings | src/room.rs:697-743 | every step keeps: a queued terminal request of a member is that of an ended task, and without a shutdown whoever ended has one queued |
| RoomSafety.AwaitedTasksHaveEnded | src/room.rs:705-717 | whenever the room lets go of a player, its task has already sent its terminal request or returned |
| RoomLimits.StepKeepsPunctual | src/room.rs:352-381 | the deadline is always creation time plus current limit, and the main loop never runs past it |
| RoomLimits.StepKeepsRoomy | src/room.rs:175-203 | members not already doomed never exceed the limit now in force |
| RoomLimits.KicksExactly | src/room.rs:386-403 | a config change always finds as many members to kick as are too many, the host apart |
| RoomLimits.StepKeepsOrdered | src/room.rs:430-518 | the lobby is sent exactly a seal and then a close, and after on_close nobody is left in the room |
| RoomLimits.StepKeepsShown | src/player/in_room.rs:228-453 | every step of room or task keeps what all clients have been shown gap-free |
| RoomLimits.StepKeepsLabelled | src/room.rs:669-690 | after every step each task has its own id and the code of its room |
| RoomFrames.StartOwesNothing | src/room.rs:149-165 | a room starts with nothing to close |
| RoomFrames.StepConservesFrames | src/room.rs:881-895 | close frames owed after a step are those owed before, and asked for by it, less those the drain lost |
| RoomFrames.RunsConserveFrames | src/room.rs:169-518 | the same over every run |
| RoomFrames.FinishedRoomsHaveClosed | src/room.rs:449-498 | at the end the closing tasks are exactly the closes asked for, each as often as asked, less those still queued for the drain |
| RoomOnce.StartIsOnce | src/room.rs:149-160 | a new room meets both invariants of RoomOnce |
| RoomOnce.RunsHaveSingleTerminals | src/room.rs:143-147 | over every run no player ever has more than one drop or close queued |
| RoomOnce.NobodyIsClosedTwice | src/room.rs:881-895 | over every run in which no stream comes back while the room has it, no stream gets two closing tasks |
| RoomOnce.NobodyElseComes | src/room.rs:171-209 | after a step a room has no client, as a member or to be closed, that it did not have or take from its channel |
| RoomRuns.StartIsSound | src/room.rs:149-160 | a new room with its host meets every invariant |
| RoomRuns.SignalledStartIsSound | src/room.rs:149-160 | so does one whose host subscribed to the shutdown signal after it was sent |
| RoomRuns.StepKeepsSound | src/room.rs:169-518 | every step keeps all invariants together |
| RoomRuns.RunsAreSound | src/room.rs:169-518 | every run of every room keeps them |
| RoomRuns.RunsKeepCode | src/room.rs:672 | no run changes the code of a room |
| RoomRuns.ClientIsToldItsRoom | src/player/in_room.rs:179-197 | over every run, each client is told its own id, first, and its room's code, after the ids of the others, and neither ever again |
| RoomRuns.ClientFollowsLog | src/player/in_room.rs:179-197 | what a client makes of the texts it was sent is what the log says |
| RoomRuns.ClientKnowsRoom | src/room.rs:650-743 | a client shown everything knows all other members, not itself, and otherwise only players with a terminal request queued; without those its picture is exact |
| RoomRuns.SenderIsInView | src/room.rs:525-592 | at the point where a message reaches a client its sender is in the client's view |
| RoomRuns.ClientsAreNotFlooded | src/room.rs:538-554 | no member ever receives more from another than the largest quota in force so far |
| RoomMessages.ClientGetsMessages | src/room.rs:576-591 | at any time, in every mode, a client has read a beginning of the messages accepted for it since it joined, in that order, each with kind, sender and payload, and all of them once shown everything |
| RoomMessages.EndToEnd | src/room.rs:525-592 | at any time, in every mode, what one member has read of another since both were members is in order among what the other asked to be sent to it; until requests are thrown away or the sender is told to close, it is a beginning of that, one for one |
| RoomMessages.ReadIsAccepted | src/room.rs:576-591 | what was read since both were members is a beginning of what was accepted since, or all of it |
| RoomMessages.AskedIsOut | src/room.rs:525-592 | what was asked for since both were members is accepted, queued, or about to be queued |
| RoomMessages.AllIsRead | src/room.rs:525-592 | once nothing is on its way, all that was asked for has been read |
| RoomMessages.StepKeepsSpeech | src/player/in_room.rs:230-233 | what was heard of a member is what it said, from the start and in order: no step loses or makes up any of it |
| RoomMessages.AskingTexts | src/player/in_room.rs:233-255 | a message is asked for by exactly the texts that parse as one |
| RoomMessages.ClientReadsWire | src/player/in_room.rs:345-369 | the texts a client was sent read back as what was written to it |
| RoomMessages.TextToText | src/player/in_room.rs:233-255 | EndToEnd from the texts heard of one client to the texts sent to the other; and each message so read came in a text that parses as a request heard of the sender, with the sender's address |
| RoomNotices.MessagesArePassedOn | src/room.rs:526-592 | a message from one member to another is passed on, counted and nothing else, if and only if the receiver has had fewer than the quota of them; else only its sender is told, and with which code |
| RoomNotices.StepTellsExactly | src/room.rs:169-425 | for every step of the main loop and every member, exactly what the member is told, with the one reason for each notification and close code |
| RoomNotices.EveryNoticeHasItsReason | src/room.rs:169-425 | over every run, whatever a member was told there was a reason for at the step that told it |
| RoomNotices.NobodyIsToldAfterwards | src/room.rs:828-879 | after the main loop nobody is told anything |
| RoomNotices.NewcomersDecide | src/room.rs:171-209 | a newcomer is turned away if and only if the room is full, and otherwise joins as a member that is about to be greeted |
| RoomNotices.LoopIsReady | src/room.rs:169-425 | the main loop is ready for a request or close exactly when one is queued, for the time limit exactly when it is reached, for the signal once raised, and for all valid limits |
| RoomNotices.StepKeepsExactly | src/room.rs:169-425 | a step of the main loop lets go of exactly the member that leaves, and of those it finds to have returned |
| RoomNotices.StepEndsLoopExactly | src/room.rs:169-425 | the main loop ends by on_close exactly if the host seals, drops or is closed, or the time is up, and without it exactly on the shutdown signal |
| RoomNotices.ClosesAreCarriedOut | src/room.rs:881-895 | when on_close is over each close it received has its task, in the order received, and the host's comes last |
| RoomNotices.ConfigTakesEffect | src/room.rs:341-419 | after a config change its limits are in force, and the deadline is that of the new limit |
| RoomSeals.SealsAreAskedFor | src/player/in_room.rs:236-238 | over every run, whoever asks for a seal has read the one text that asks for it |
| RoomSeals.SealedByItsHost | src/room.rs:599-640 | over every run, if anybody is told that the room is sealed, the host has sent that text |
| RoomClosing.StepKeepsSummoned | src/room.rs:778-803 | everyone on_close waits for is ending, or has a notification ahead that will end it |
| RoomClosing.SignalledStartIsReachable | src/room.rs:149-160 | a new room whose host does not hear the shutdown signal has all that the closing proofs rest on |
| RoomClosing.RunsAreReachable | src/room.rs:169-518 | every run keeps all that the closing proofs rest on |
| RoomClosing.StuckExactly | src/room.rs:828-879 | on_close has nothing to do if and only if both queues are empty and all tasks it waits for are gone |
| RoomClosing.ClosingNeverStuck | src/room.rs:828-879 | without a shutdown on_close always has a step that gets it further, whatever is full, blocked or overtaken |
| RoomClosing.StepWorks | src/room.rs:828-879 | every step of the closing leaves less to do, or is idle and leaves the same |
| RoomClosing.ClosingEnds | src/room.rs:759-896 | once a run has taken more working steps than there was work, on_close is over and no task is left |
| RoomClosing.ClosesExactly | src/room.rs:828-879 | a closing room can still close if and only if every awaited task that has ended has its terminal request queued |
| RoomClosing.MayHangExactly | src/room.rs:828-879 | it can come to hang if and only if that fails, or some awaited task still serves its client and joined before the shutdown signal |
| RoomDrains.DrainStuckExactly | src/room.rs:449-454 | the drain of the close queue has nothing to do if and only if no close is queued, somebody is left, and all who are wait for a full request queue |
| RoomDrains.CanDrainExactly | src/room.rs:446-461 | a room past its main loop can get through the drain if and only if its tasks need no more places in the request queue than it has left: one for each that must ask or drop, none for one that heard the signal or will close |
| RoomDrains.DrainMayHangExactly | src/room.rs:446-461 | it can come to hang there if and only if its clients can still cause more requests than the request queue has places left |
| RoomDrains.DrainIdleExactly | src/room.rs:449-454 | the drain goes on by itself unless no close is queued, somebody is left, and all who are wait for a full request queue or serve a quiet client that came after the signal |
| RoomLingers.MayLingerExactly | src/room.rs:187-195 | some run leads a drain to where a task is left that only its client can end, if and only if some task does not hear the signal, serves its client, has read and been told nothing that ends it, and has places in the request queue for all it is asked |
| RoomDrains.DrainEnds | src/room.rs:449-454 | a run with more draining steps than there was work is past the drain, and one that is not crowded goes on by itself unless all who are left serve quiet clients that came after the signal |
| RoomEndings.ClosedNeverStuck | src/room.rs:430-518 | a closed room that is not finished can always take its next step |
| RoomEndings.ClosedRoomFinishes | src/room.rs:449-516 | it is finished after exactly one step for each queued entry and four besides, and has then emitted a seal and a close |
| RoomEndings.ShutdownHangsClose | src/player/in_room.rs:449-451 | a run in which a shutdown leaves on_close waiting, with nothing left to do and no way to close |
| RoomEndings.ShutdownHangsDrain | src/room.rs:449-461 | a run in which a shutdown leaves that drain waiting, with nothing left to do and no way to end |
| RoomEndings.LateNewcomerLingers | src/room.rs:187-195 | a run in which a client that joined after the signal keeps the drain of a shut-down room waiting |
| RoomIds.IdIsSafeExactly | src/room.rs:176-182 | an id that passes the room's check keeps every invariant if and only if no drop, close or message of that id is queued and no departure of it is still to be announced |
| RoomIds.KnownIdMisleads | src/room.rs:661 | whoever still knows a player of the id is told that it joins, once more |
| RoomIds.QueuesTellUntilShutdown | src/room.rs:912-921 | until a shutdown an id is safe exactly if no drop, close or message of it is queued |
| RoomIds.StaleDropHitsNewcomer | src/room.rs:705-717 | otherwise a queued drop makes the room await the newcomer's task, which has only begun |
| RoomIds.ReusedIdIsFatal | src/room.rs:912-921 | a run from a fresh room to such a situation |
| RoomIds.JoinIsPossible | src/room.rs:176-182 | until a shutdown, a room with a place always has a safe id for a newcomer |
| Joining.OnlyJoinTextsJoin | src/player/joining.rs:84-153 | exactly one text creates a room, and for each valid code exactly one text joins it |
| Reactions.FirstWordsDecide | src/player/joining.rs:84-153 | for every close code exactly which first words, or silence, earn it; which are dropped; and which ask for a room |
| Lobbies.StepKeepsHoused | src/lobby.rs:374-398 | at every step at most as many rooms as allowed, all under valid codes that are not listed |
| Lobbies.CodeIsAvailable | src/lobby.rs:188-203 | whenever the lobby may open a room, a code is free for it |
| Lobbies.ConnectIsPossible | src/lobby.rs:141-146 | unless the lobby awaits a room, a connection can be handled: if it needs a handle, one is left |
| LobbyOutcomes.ConnectDecides | src/lobby.rs:114-167 | a connection is admitted if and only if the join queue has a place, and else closed as JoinQueueFull |
| LobbyOutcomes.DecisionIsQueued | src/player/joining.rs:155-170 | a joining task that has decided queues its one request |
| LobbyOutcomes.JoinDecides | src/lobby.rs:234-285 | a client that names a room is handed to it if and only if the room is on the map, not sealed or closed, and its channel has a place; otherwise the close code says which of these fails |
| LobbyOutcomes.CreateDecides | src/lobby.rs:181-233 | a client is given a room of its own if and only if there may be one more |
| LobbyOutcomes.FatesAreDeserved | src/lobby.rs:170-306 | every request has exactly one fate by the state it meets, and gets it |
| LobbyOutcomes.ConfigureDecides | src/lobby.rs:357-400 | a config change takes effect at once and leaves as many rooms as allowed |
| LobbyOutcomes.LobbyIsReady | src/lobby.rs:111-406 | unless it awaits a room, the lobby is ready for every queued signal and every new config |
| LobbyBooks.StepKeepsBooks | src/lobby.rs:114-306 | every step keeps the books: handles match waiting tasks or queued requests, and every client is in exactly one place |
| LobbyBooks.RequestKeepsBooks | src/lobby.rs:170-299 | handling a request gives its client exactly one fate, with a closing task if the fate is a close |
| LobbyBooks.StepKeepsSignalled | src/lobby.rs:317-354 | with tidy creations, what a room has emitted is what the lobby has seen of it and then what is queued for its code |
| LobbyBooks.SignalsFindTheirRoom | src/lobby.rs:321-349 | a seal finds its own room not yet sealed, a close finds it sealed and with nothing more to emit |
| LobbyBooks.OnlyTidyCreationsAreSound | src/lobby.rs:195-224 | a room that is opened is in step with its signals from the start only if nothing is queued for its code |
| LobbyBooks.NoAbortsNoStaleSignals | src/lobby.rs:197-203 | without aborts every creation is tidy |
| LobbyBooks.SealedRoomsGetNobody | src/lobby.rs:237-276 | once the lobby has sealed a room it sends nobody there |
| LobbyStale.SignalledHasNoEarlyClose | src/lobby.rs:331-349 | where signals are in step with the rooms, every close queued is its room's own |
| LobbyStale.SignalledHasNoEarlySeal | src/lobby.rs:321-330 | and so is every seal that comes next |
| LobbyStale.WaitBeginsExactly | src/lobby.rs:331-342 | a step makes the lobby wait for a room if and only if it handles a close for a room on the map that is alive |
| LobbyStale.StaleCloseExactly | src/lobby.rs:331-349 | after a room was opened, some run in which no further room is opened over a queued close takes a live room off the map if and only if a close was queued for its code |
| LobbyStale.StaleSealExactly | src/lobby.rs:321-330 | after a room was opened, some run in which no further room is opened in front of a queued seal seals a room that has emitted nothing if and only if a seal was the next signal queued for its code |
| LobbyDeadlock.RunsAreFit | src/lobby.rs:52 | over every run the queue of signals is within its size and every room has emitted a seal, a seal and a close, or nothing |
| LobbyDeadlock.FullForGood | src/lobby.rs:52 | while the lobby waits for a room, a full queue of signals stays full, and the wait goes on |
| LobbyDeadlock.WaitsForEverExactly | src/lobby.rs:331-342 | every run leaves the lobby waiting if and only if the signals queued and those the awaited room has yet to emit are more than the queue has places |
| LobbyDeadlock.MayWaitExactly | src/lobby.rs:331-342 | during a wait some run leads to waiting for ever if and only if the signals queued, and those that the awaited room and all others have yet to emit, are more than the queue has places |
| LobbyDeadlock.StaleCloseStopsExactly | src/lobby.rs:331-342 | the same, told just before a close is handled that names a live room |
| LobbyDeadlock.LobbyDeadlocks | src/lobby.rs:331-342 | a run from the start after which, whatever happens, the lobby goes on waiting for a live room |
| LobbyChannels.HandedOverInOrder | src/lobby.rs:237-266 | over every run, what was sent to a room is what it has taken and then what it has yet to take, in order |
| LobbyChannels.SealedForGood | src/lobby.rs:237-276 | over every run, a room the lobby has sealed is sent nobody |
| LobbyCustody.StepKeepsKept | src/lobby.rs:170-400 | every step keeps that each client given to a room is either taken in by the room's task, or waits in one channel, or was lost with its room; and it takes in nobody who was before |
| LobbyCustody.RunsKeep | src/lobby.rs:111-406 | so it is over every run, and the clients taken in are as many as the takings |
| LobbyRuns.RoomsEmitInOrder | src/room.rs:430-516 | a room emits only what the lobby's state machine lets it, and after its close it takes nobody in |
| LobbyRuns.StepFates | src/lobby.rs:114-306 | a step settles only clients without a fate, and closes at most one |
| LobbyRuns.RunsAreSoundLobbies | src/lobby.rs:111-406 | every run keeps room map and books, keeps every fate once given, and closes nobody twice |
| LobbyRuns.HandleIsFound | src/lobby.rs:175-178 | the branch for a missing handle is never taken, and no task asks twice |
| LobbyRuns.RequestCanBeTaken | src/lobby.rs:181-233 | unless the lobby awaits a room, a queued request can be handled |
| LobbyRuns.TidyRunsAreSignalled | src/lobby.rs:317-354 | signals meet their own rooms over every run with tidy creations |
| LobbyRuns.RunsWithoutAbortsAreTidy | src/lobby.rs:317-354 | and every run without aborts is one |
| LobbyRuns.QueuedSignals | src/lobby.rs:317-354 | what is queued for a code is nothing, a seal, a close, or a seal and then a close, in step with the room's entry |
| LobbyRuns.StaleCloseMeetsLiveRoom | src/lobby.rs:390-393 | a run in which an aborted room's close takes a new room off the map that has emitted nothing, and the lobby waits for it |
| LobbyTask.RemoveSome | src/lobby.rs:376-397 | exactly as many rooms are removed as asked for, the others stay as they are |
| LobbyTask.LobbyTask.constructor | src/lobby.rs:71-106 | the lobby starts empty |
| LobbyTask.LobbyTask.OnConnection | src/lobby.rs:114-167 | a connection is turned away exactly when the queue is full, and else waits under a handle not in use |
| LobbyTask.LobbyTask.SendNewClient | src/lobby.rs:499-504 | a stream that is not taken comes back with the code its client is closed with |
| LobbyTask.LobbyTask.OnCreate | src/lobby.rs:188-224 | a room is opened under a usable code |
| LobbyTask.LobbyTask.OnJoin | src/lobby.rs:234-285 | the four outcomes of a join |
| LobbyTask.LobbyTask.OnRequest | src/lobby.rs:170-306 | the request branch is the step TakeRequest |
| LobbyTask.LobbyTask.OnControl | src/lobby.rs:317-354 | the control branch is the step TakeSignal: a close takes its room off the map and leaves the lobby awaiting it |
| LobbyTask.LobbyTask.OnConfig | src/lobby.rs:357-400 | a config change leaves at most as many rooms as allowed, and aborts exactly the excess |
| LobbyTask.LobbyTask.MainLoop | src/lobby.rs:111-406 | whatever the main loop is woken by, it is a run of the state machine, as long as the draws suffice |
| Server.ShareIsPossible | src/room.rs:430-516 | whatever a room takes from its channel or emits, the lobby's state machine allows; only an empty channel and a full queue hold a room up |
| Server.StepKeepsTied | src/lobby.rs:111-406 | every step of lobby or room keeps all rooms sound, each with clients of its own, and the lobby's entries in agreement with what the rooms have emitted |
| Server.LobbyRunsAlong | src/lobby.rs:111-406 | the lobby's part of every run of the server is a run of the lobby |
| Server.RoomRunsAlong | src/room.rs:169-518 | each room's part of every run of the server is a run of the room |
| Server.BlockedIsUnfinished | src/lobby.rs:331-342 | the lobby is held up exactly as long as the room it awaits has not finished |
| Server.ServerRunsAreFair | src/lobby.rs:111-406 | over every run of the server nobody is closed twice, by the lobby or any rooms, and whoever is given to a room is taken in by one room once, waits in one channel, or is lost with its room |
| ServerJoins.JoinersGetIn | src/lobby.rs:234-245 | a client that connects and names a room that can take it in becomes a member of just that room, with that room's code |
| ServerJoins.TwoMeet | src/lobby.rs:111-306 | a run from the start of the server in which one client opens a room and another joins it by its code |

## Left out

* TCP, TLS and the WebSocket handshake: a connection is a token, and what comes out of it is a sequence of
  messages chosen by the environment. A write to a client works or fails as the environment chooses; that it
  may never complete, and hold its task for ever, is not modelled.
* `send_close` and its wait for an echo: only the spawned closing task, its stream and its code are modelled.
* The numbers of the close codes, and the table from library errors to close codes: codes are an enumeration,
  and a failed read may carry any of them or none.
* Logging, the display of values in logs, the command line, reading and writing the configuration file. A
  config change is a step with any validated limits, at any time.
* Randomness: random ids, handles and codes are given as sequences of draws; that the rejection loops can end
  rests on an acceptable value existing, which is proved for all three.
* Tokio: a bounded channel is a sequence with a capacity, `select!` is a free choice, an awaited handle is
  that of a task that has ended. The broadcast channel rounds its capacity of 50 up, so the capacity is a
  parameter; each branch body of a `select!` is one step, except that the loops of `on_close` and the drains
  are taken apart.
* Time is discrete and processing takes none: deadlines fall on ticks, and a room whose deadline has come does
  not let time pass first.
* The profanity list itself: the table is a parameter, any non-empty sequence of five-byte records in ascending
  order, of at most 160 records where a fresh code must exist.
* Streams that reach a room after its last look at the newcomer channel, and closes still queued after
  `on_close`: the code drops both without a close frame, and so does the model.
* The lobby's own shutdown: it ends the main loop, and the model ends there. A shutdown of rooms is modelled. A
  room that the lobby opens after the signal never hears it, like a late newcomer: that is a room without a
  shutdown, and ends as such.
* Module Server composes the state machines, not the classes `LobbyTask` and `RoomTask`. A config change and a
  shutdown reach the lobby and each room by themselves, in any order. A room may stop sweeping with somebody
  in its channel, which the code does only to those who come after its last look.
* An abort takes effect at once. In the code `abort()` (`src/lobby.rs:393`) only asks for it, and a room that is
  being polled meanwhile can still emit a signal, or take a newcomer.
* Player tasks inside `Rooms` and `RoomTask` are values that take the acts of module Players, and `PlayerTask` is
  one task by itself: aliasing between a room's entry and the running task is not captured.
* RoomIds.IdIsSafeExactly: counts a zombie nobody knows as unsafe, because the account of who is still to be
  announced breaks; after a shutdown, giving out its id would mislead nobody.
* RoomTask.RoomTask.WakeForArrival: returns with nothing done where the id drawn is not safe, and the code goes on.
* RoomTask.RoomTask.MainLoop: ends where an id is drawn that is not safe, because the invariants end there; what
  the code does then is shown in module RoomIds.
* LobbyTask.LobbyTask.MainLoop: says nothing of the state in which the draws given ran out.
* RoomViews.StepKeepsViews: the pictures are compared with the membership while the main loop runs; once the
  room closes, departures are no longer announced.
* A log also records what was sent to a task already gone, which nobody reads.
