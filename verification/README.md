# go-herald hub, modelled in Dafny

This project models the core of `herald`, a Go WebSocket hub. The hub keeps an ordered list of connected clients. It routes messages between them through a single control loop (`Herald.run`). Each client runs a read goroutine and a write goroutine.

- `Herald.run` becomes a pure step function. It takes the state (client list, `shuttingDown` flag, whether the loop has returned) and the one event the select delivered, and returns the new state plus an output record. The output holds hook calls, `Send` hand-offs, `c.Send(m)` deliveries, closed connections and the closed `writeChan`.
- The runtime's choice among ready channels is an input. The only precondition is that the event's select case was actually built in that iteration.
- The per-client read loop is a function over the frames the transport delivers. The write loop is a method over the messages queued before `writeChan` is closed. Client shutdown is a schedule of the six close and receive steps of `readLoop`, `writeLoop`, the loop and `Wait`. It depends on how the writer leaves: after `writeChan` is closed, or early on an encoding failure.
- `NewMessage` is a constructor over an encoder that may fail.

Files:
- `wrappers.dfy`: `Option` and `Result`.
- `message.dfy`: the `Message` record and `NewMessage`.
- `client.dfy`: the frame filter, the writer, `Close`, and the shutdown signals of `readLoop`, `writeLoop` and `Wait`.
- `herald.dfy`: the select-case layout, `New`, the receiver, one loop iteration, and `AddClient`'s client construction.
- `herald_runs.dfy`: runs over event sequences, and the scenarios of the repository's tests.

Foreign collaborators are parameters:
- JSON `Marshal` is a function returning `Result` (in `NewMessage`) or `Option` (in the writer).
- The connection is an opaque id.
- `ReadMessage` results are abstract frames. A text frame carries what `json.Unmarshal` makes of its payload: a message, or nothing when decoding fails.
- The outcome of each `WriteMessage` is discarded by the writer, so it is not an input.

Behaviour of the code worth noting:
- With `ReceiverFunc` nil, the receiver installed by `New` calls `Send` from the loop's own goroutine (herald.go:129-133). That send can never complete, so the loop blocks on the first client message. A caller-supplied receiver or hook that calls back into the hub blocks it in the same way; the model takes those to return. `Herald.Step` models the receiver with that send handed off to another goroutine, which is the rebroadcast to all clients, sender included, that config.go:7-8 promises. `Herald.StepAsWritten` is the iteration as written.
- `AddClient` leaves `writeClosedChan` and `closedChan` nil (herald.go:144-149). `Herald.AddClient` builds the client with all four channels made; `Herald.NewClientAsWritten` is the record as written.
- A second `Herald.Close` is not a no-op. The close case is built only while not shutting down (herald.go:57-59), so that call's send on `closeChan` is never offered.
- Clients added while draining are accepted, and their connections are not closed (herald.go:87-96).
- `herald.go` calls `ClientAddedFunc`/`ClientRemovedFunc` with two arguments, the list and the client (herald.go:79, herald.go:90). `config.go` declares them with one (config.go:11-14). The hooks are recorded with the two arguments `herald.go` passes.

## Model

| member | source | states |
|---|---|---|
| Messages.NewMessage | message.go:15-25 | exactly one of message and error is returned; on success the message has the given type and exactly the encoder's bytes; on failure there is no message and the encoder's error is returned |
| Messages.NewMessageSuccess | message.go:16-24 | a nil error implies the encoder succeeded and a message with the requested type and the encoded data was returned |
| Messages.NewMessageDependsOnlyOnEncoding | message.go:19-23 | nothing of the value is kept but its encoding: two values with the same encoding yield the same result |
| Clients.ReadLoop | client.go:25-38 | the loop stops at a read error exactly when one is delivered, at the first one, and it forwards at most one message per frame |
| Clients.ReadLoopForwardsDecoded | client.go:25-37 | the forwarded messages are exactly the decodable text frames before the first read error, in delivery order |
| Clients.DroppedFrameIsInvisible | client.go:30-36 | removing a non-text or undecodable frame from anywhere in the input leaves the forwarded messages unchanged |
| Clients.NonTextSkipped | client.go:30-32 | a non-text frame is skipped and reading continues past it |
| Clients.UndecodableSkipped | client.go:33-36 | a text frame that fails to decode is skipped and reading continues past it |
| Clients.ReadErrorEndsLoop | client.go:26-29 | the first read error ends the loop at its index; nothing after it is forwarded |
| Clients.ReadLoopAppend | client.go:25-37 | before any error, the messages of later frames follow those of earlier frames (order preserved), and the loop stops where the later frames alone would stop it, shifted by the earlier frames' count |
| Clients.WellFormedFrameForwarded | client.go:33-37 | a decodable text frame after any error-free prefix is forwarded, after the prefix's messages |
| Clients.WriteLoop | client.go:41-50 | queued messages are written in FIFO order as their encodings; the loop stops only when the queue is exhausted or an encoding fails, and reports which |
| Clients.Close | client.go:52-56 | closing a client closes its connection and changes no other part of the client |
| Clients.CloseIdempotent | client.go:54-56 | closing twice is the same as closing once |
| Clients.DeferOrder | client.go:20-24 | deferred calls run in reverse order of registration |
| Clients.ReadLoopExitOrder | client.go:20-24 | on exit readLoop closes readChan, then waits for writeClosedChan, then closes closedChan |
| Clients.TryClose | client.go:20 | closing succeeds exactly on a made, open channel and leaves it closed; closing a nil or closed channel panics |
| Clients.RunFrom | client.go:19-61 | the steps of a schedule run in order until one closes a nil or closed channel (a panic) or receives from a channel that is not closed (blocks forever); the run finishes exactly when every step ran |
| Clients.NilStops | client.go:19-61 | no step at or after a step on a nil channel is ever completed |
| Clients.Execute | client.go:19-61 | the steps done are a prefix of the schedule; the run finishes exactly when all of them are done, and otherwise stops at the first step not done |
| Clients.Schedule | client.go:19-61 | each shutdown has the six steps, each exactly once, ending with readLoop's wait on writeClosedChan, its close of closedChan and `Wait`'s return |
| Clients.ScheduleFollowsDefers | client.go:20-24 | every schedule holds readLoop's three deferred calls, run in reverse order of registration |
| Clients.ScheduleOrder | client.go:19-61 | every schedule holds all these steps, and: readChan is closed before the loop closes writeChan; writeClosedChan is closed before readLoop's wait on it; closedChan is closed before `Wait` returns; a writer that drains its queue closes writeClosedChan only after writeChan was closed |
| Clients.ClosesThenWaitRuns | client.go:19-61 | closing readChan, writeChan and writeClosedChan in any order, then readLoop's wait, its close of closedChan and `Wait`, completes exactly on four open channels, never blocks, and panics only on a channel that was not open |
| Clients.ShutDown | client.go:19-61 | a client's shutdown, for either way the writer leaves, does a prefix of its schedule, and finishes exactly when all six steps happen |
| Clients.ShutDownEnds | client.go:19-61 | a shutdown finishes exactly when all four channels were made; it never blocks on a channel that a step before it closes; when it panics, the closed channel was nil |
| Clients.WaitOnlyAfterWriter | client.go:58-61 | `Wait` returns only after the writer closed writeClosedChan and readLoop saw it, and only when all four channels were made |
| Herald.ClientCases | herald.go:33-39 | one receive case per client, at the client's list index |
| Herald.Layout | herald.go:41-59 | clients at 0..n-1, addClientIdx = n, messageIdx = n+1, closeIdx = n+2 when not shutting down and -1 otherwise |
| Herald.Route | herald.go:63-115 | the switch sends every index below the client count to that client; otherwise the add, message and close indices are tried in that order, and no branch is taken when none matches |
| Herald.RouteMatchesLayout | herald.go:63-106 | every chosen index is handled by the branch of its own channel; `chosen < len(clients)` holds exactly for client channels |
| Herald.OfferedIffBuilt | herald.go:57-62 | an event can be chosen exactly when its channel is among the built cases, and the switch then routes it to its branch |
| Herald.New | herald.go:119-135 | the loop starts with no clients and not shutting down; the rebroadcasting receiver is installed exactly when none is given |
| Herald.ReceiveAsWritten | herald.go:129-133 | a caller-supplied receiver is called with the message |
| Herald.DefaultReceiverDeadlocks | herald.go:129-133 | the default receiver's send on the unbuffered message channel, made from the loop itself, can never complete |
| Herald.Receive | herald.go:66-69 | a client message goes to the receiver; the default hands it to `Send` and calls no hook; nothing is delivered or closed |
| Herald.HandedOffSendCompletes | herald.go:156-159 | a send on the message channel from a goroutine other than the loop can complete |
| Herald.DefaultRebroadcastReachesAll | config.go:7-8 | with the default receiver a client's message is delivered to every client, the sender included |
| Herald.SendToAll | herald.go:99-103 | a broadcast targets exactly the clients in the list, in list order |
| Herald.RemoveAt | herald.go:76 | removal at an index keeps the elements before it and shifts those after it down by one |
| Herald.Step | herald.go:61-115 | `shuttingDown` only goes from false to true, on a close with clients; the loop stops exactly on a close with no clients, or on the last removal while shutting down; only add and removal change the list; a broadcast reaches the listed clients; a close closes every listed connection |
| Herald.StepAsWritten | herald.go:61-115 | with caller-supplied functions that return, an iteration as written blocks forever exactly on a client message with the default receiver; in every other case it does what `Step` does |
| Herald.AddAppends | herald.go:87-96 | an added client is appended and the others keep their order; the hook sees the list before the append |
| Herald.GoneRemoves | herald.go:70-80 | a departure removes exactly that element, keeps the rest in order, and closes its writeChan; the hook sees the new list, which no longer contains the client |
| Herald.NewClientAsWritten | herald.go:144-149 | the client record as built: readChan and writeChan made, writeClosedChan and closedChan nil |
| Herald.AsWrittenClientPanics | herald.go:144-149 | however the writer leaves, the shutdown of the record as built panics in writeLoop's close of writeClosedChan, and `Wait` never returns |
| Herald.NewClient | herald.go:144-149 | with all four channels made, the client's shutdown runs to completion however the writer leaves |
| Herald.AddClient | herald.go:139-154 | a failed upgrade is returned and no client reaches the loop; otherwise a new client with the queue capacity of 10 is offered as an add event |
| HeraldRuns.Run | herald.go:27-116 | the loop handles the delivered events one per iteration, giving one output for each; no event is handled after the loop returned |
| HeraldRuns.ShuttingDownStaysSet | herald.go:105-114 | once shutting down, every later state is shutting down and the close case is never offered again |
| HeraldRuns.StoppedOnlyWhenEmpty | herald.go:81-114 | the loop only ever stops with an empty client list |
| HeraldRuns.StepConservesClients | herald.go:70-96 | one iteration removes what it takes out of the list and adds what it appends |
| HeraldRuns.RunConservesClients | herald.go:63-115 | over any run, the removed clients together with the final list equal the initial list together with the added clients (as multisets) |
| HeraldRuns.EachClientRemovedOnce | herald.go:70-96 | when every added client is fresh, the list never holds duplicates, no client is removed twice, and a removed client is not in the list |
| HeraldRuns.DrainStops | herald.go:81-83 | while shutting down, with the clients leaving in list order, the loop stops exactly after as many departures as there are clients, removing them in that order |
| HeraldRuns.DrainStopsAnyOrder | herald.go:81-83 | while shutting down, with the clients leaving in any order, no more departures can come than there are clients, and the loop has stopped exactly when all of them came |
| HeraldRuns.DrainingStillAccepts | herald.go:87-96 | a client added while shutting down is listed and its connection is not closed, so the loop keeps running |
| HeraldRuns.ConnectScenario | herald_test.go:146-158 | after one add the list is that client; after it leaves, the removal hook reports it and the loop keeps running |
| HeraldRuns.ReceiveScenario | herald_test.go:160-170 | a client's message reaches the supplied receiver without changing the list |
| HeraldRuns.BroadcastScenario | herald_test.go:195-200 | a broadcast reaches both clients, in the order they joined |
| HeraldRuns.CloseScenario | herald_test.go:207-221 | closing with one client closes its connection and keeps the loop running until the client leaves, then it stops |
| HeraldRuns.CloseEmptyScenario | herald.go:112-113 | closing a hub with no clients stops the loop at once |

## Findings

| source | as written | input that shows it | evidently intended | confidence | as-written member | corrected member |
|---|---|---|---|---|---|---|
| herald.go:129-133 | the default receiver calls `h.Send`, an unbuffered send on `messageChan`, on the loop's own goroutine, the only receiver of that channel | any client message when `ReceiverFunc` is nil | rebroadcast the message to all clients (config.go:7-8) without blocking the loop | high; not executed | Herald.StepAsWritten, shown by Herald.DefaultReceiverDeadlocks | Herald.Receive, with Herald.HandedOffSendCompletes and Herald.DefaultRebroadcastReachesAll |
| herald.go:144-149 | `writeClosedChan` and `closedChan` are never made, so both stay nil | any client whose connection ends: `writeLoop` closes a nil channel and panics; `readLoop` would block on a nil receive; `Wait` never returns | make all four channels, so shutdown completes and `Wait` returns after the writer | high; not executed | Herald.NewClientAsWritten, shown by Herald.AsWrittenClientPanics | Herald.NewClient, with Clients.ShutDownEnds; used by Herald.AddClient |

## Left out

- The WebSocket upgrade, `ReadMessage`, `WriteMessage` and connection objects are foreign library I/O. Connections are opaque ids, frames are abstract values, and an upgrade is a `Result`.
- JSON encoding and decoding are foreign calls. Encoding is a function parameter. The decoding result of each text frame is part of the frame, so the frame filter does not depend on how decoding works. No JSON round-trip is claimed.
- Goroutines, channel blocking, `reflect.Select` and `sync.RWMutex` are concurrency. The select's choice is an input. The mutex only guards list swaps, which a sequential model cannot observe. The one rendezvous rule that is modelled is the one the deadlock finding needs.
- `c.Send` is called at herald.go:102 but is not defined in client.go. A broadcast records `(client, message)` deliveries. What a client does with a delivery (queueing, a full queue, slow-consumer eviction) is not modelled.
- Directed `Send`, `Clients()` and `MessageHandler` appear only in herald_test.go. They have no definition to check against.
- `Herald.Close` is not modelled as an operation. Its request is the `CloseReq` event, and its return is the `stopped` flag (the deferred close of `closedChan`). A second call, or a call after the loop returned, is a send that is never offered, so that caller blocks forever.
- The hooks receive `h.clients`, which shares its backing array with the live list. The in-place removal at herald.go:76 can therefore alter a slice a hook kept earlier. The model passes the hooks immutable copies.
- `New` writes the default receiver into the caller's `Config` value. The model returns a new configuration.
- The test harness in herald_test.go needs real connections and wall-clock timeouts. Its scenarios appear only as event-sequence lemmas.
- Clients.WriteLoop: the queue is the finite sequence of messages enqueued before `writeChan` is closed. The capacity of 10 and the blocking of a full queue are not modelled.
- Clients.ReadLoop: forwarding a message blocks until the loop receives it. This is abstracted, so the forwarded sequence is what the loop eventually receives from that client.
- Herald.Step: a client message with the default receiver is handled with its `Send` handed off, the correction of the first finding. `Herald.StepAsWritten` is the iteration as written, and it blocks forever there.
- Herald.AddClient: the client it offers has all four channels made, the correction of the second finding. The record `herald.go` builds is `Herald.NewClientAsWritten`.
- Clients.ShutDown: the schedule is fixed by how the writer leaves, and it is not every interleaving the channels allow. When the writer leaves early on an encoding failure, nothing orders the loop's close of writeChan after readChan's close against readLoop's wait, its close of closedChan and `Wait`'s return. The model puts the loop's close before them.
- Herald.StepAsWritten: `ReceiverFunc`, `ClientAddedFunc` and `ClientRemovedFunc` run on the loop's goroutine (herald.go:69, herald.go:79, herald.go:90). The model takes them to return without calling `Send`, `AddClient` or `Close`. One that does blocks the loop on an unbuffered send, as the default receiver does.
- Herald.New: `New(nil)` dereferences the nil `*Config` (herald.go:129) and panics. `Options` always describes a configuration, so that panic is not modelled.
