# WebSocket connection hub of the campaign backend

This project models the realtime part of the backend: the `/ws` handler and
its `broadcast_message` helper in `src/ws.rs`. The handler upgrades a request
to a WebSocket and mints a fresh connection id. It inserts that id into the
process-wide connection table and spawns a task that reads the socket's
aggregated message stream. A Text message is broadcast to every other
registered connection. A Ping is answered with a Pong that carries the same
payload. A protocol error ends the loop, and so does the end of the stream.
Every other message kind is ignored. When the loop ends, the id is removed
from the table. The broadcast visits every entry of the table, sends to each
one except the sender, and ignores failed sends.

Files:

- `frames.dfy` (module `Frames`): inbound `Event`s (Text, Binary, Ping, Pong,
  Close, ProtocolError) and outbound `Frame`s (a text or a pong).
- `ws_spec.dfy` (module `WsSpec`): the hub as a value `HubState` and each
  operation as a function. `Pong` answers a ping on the connection's own
  session. `RunLoop` is the `while let` loop. `Run` is the spawned task: the
  loop, then the removal of the id. `Serve` is the whole handler. Lemmas state
  what the loop and the handler promise.
  - The table is its key set `conns`. Each entry's value is a clone of that
    connection's session, so the keys determine it.
  - A session is its outbox, the frames sent on it in order, so a send is an
    append.
  - `outboxes` keeps every session ever opened, including ones that have left
    the table.
- `ws.dfy` (module `Ws`): the class `Hub`. It holds the table and the outboxes
  as fields that its methods update in place. `Broadcast` loops over the key
  set in an arbitrary order, because the table is a `HashMap`. `Run` is the
  `while let` loop. The `ensures` of Connect, Disconnect, Broadcast, Run and
  Serve tie the new state to the function of the same name in `WsSpec`.
  `Send` states its new state directly, in terms of the old one. The
  constructor states the empty initial state.

The id type is a type parameter `Id`. `src/lib.rs:49` declares the table's
keys as `String`, but `src/ws.rs:27` inserts a `Uuid`, so the source does not
settle the type. Three things the real program gets from I/O are parameters
of the model:

- whether the upgrade succeeded;
- the minted id, which must never have been used before (a fresh
  `Uuid::new_v4`);
- which sends fail. Broadcast takes a set of failing recipients. Run takes one
  such set per event.

`src/ws.rs` has no presence set, no typed message envelope, no Disconnect
message, no heartbeat timer and no login correlator. Text is broadcast raw and
never decoded, and a Close message does not end the loop.

## Model

| member | source | states |
|---|---|---|
| `Ws.Hub.constructor` | src/main.rs:48 | the table starts empty and no session exists |
| `WsSpec.Connect` | src/ws.rs:21-28 | the fresh id is in the table with a new empty session; the table gains exactly that id; every existing outbox is unchanged; validity is kept |
| `Ws.Hub.Connect` | src/ws.rs:21-28 | in place: the table gains exactly the fresh id; its new session is empty; nothing else changes |
| `WsSpec.Disconnect` | src/ws.rs:48-51 | the id is absent afterwards; every other entry and every outbox is unchanged; removing an absent id changes nothing |
| `Ws.Hub.Disconnect` | src/ws.rs:48-51 | in place: the table loses exactly that id; outboxes are untouched |
| `Ws.Hub.Send` | src/ws.rs:63 | a send appends the frame to that one session unless the transport fails, and then nothing changes; the result says which; the table is untouched |
| `WsSpec.Broadcast` | src/ws.rs:57-66 | the table is unchanged; the sender's outbox is unchanged; each registered non-failing recipient other than the sender gets the message appended exactly once, verbatim; failing and unregistered sessions are unchanged; the sender need not be registered |
| `Ws.Hub.Broadcast` | src/ws.rs:57-66 | the loop over the key set, in any order, ends with the state the `WsSpec.Broadcast` function gives; a failed send neither stops the loop nor removes the recipient |
| `WsSpec.Apply` | src/ws.rs:32-45 | one event adds to each outbox exactly the per-session frames of `FrameFor`: a Text goes to every other registered non-failing session, a Ping's pong goes to the connection's own session only; Binary, Pong and Close change nothing; no event changes the table |
| `WsSpec.Handled` | src/ws.rs:31-42 | the number of events the loop handles is the position of the first error, or the length of the stream when there is none |
| `WsSpec.RunLoopKeepsRegistry` | src/ws.rs:31-46 | handling events never changes the table or the set of sessions |
| `WsSpec.RunLoopOutbox` | src/ws.rs:31-46 | after the loop, each session's outbox is its old outbox followed by exactly what `Received` says the handled events sent it |
| `WsSpec.RunLoopStopsAtError` | src/ws.rs:42 | the events after the first error have no effect; the loop's result is that of the events before it |
| `WsSpec.IgnoredEventSkipped` | src/ws.rs:44 | a Binary, Pong or Close event leaves the state as it was, and the loop continues with the next event |
| `WsSpec.SenderGetsOnlyPongs` | src/ws.rs:61 | the connection's own session never receives a text from its own loop, only pongs |
| `WsSpec.SenderGetsEveryPong` | src/ws.rs:38-40 | if its sends never fail, the connection's own session gets one pong per handled Ping, with the same payload and in order |
| `WsSpec.PeerGetsEveryText` | src/ws.rs:33-35 | another registered session whose sends never fail gets each handled Text message once, verbatim, in order |
| `WsSpec.OutsiderGetsNothing` | src/ws.rs:59-64 | a session that is not in the table, and is not the connection's own, receives nothing |
| `WsSpec.Run` | src/ws.rs:30-52 | when the task ends, the connection's id is absent and every other entry of the table is as it was; no session is created or destroyed |
| `Ws.Hub.Run` | src/ws.rs:30-52 | the `while let` loop ends with the state `WsSpec.Run` gives: it dispatches each event in order and stops at the first error or at the end of the stream, then removes the id |
| `WsSpec.ServeRestoresRegistry` | src/ws.rs:15-52 | after the whole handler, the table is what it was before, whether or not the upgrade succeeded |
| `WsSpec.ServeOwnOutbox` | src/ws.rs:21-52 | after the whole handler, the new session holds exactly the frames its own loop sent it, starting from empty |
| `WsSpec.ServePeerOutbox` | src/ws.rs:21-52 | after the whole handler, each older session holds its old frames followed by exactly what the new connection's loop sent it |
| `Ws.Hub.Serve` | src/ws.rs:10-55 | a failed upgrade refuses the request and changes nothing; otherwise the fresh id is registered and its task runs to the end, so the table is what it was before |

## Left out

- Concurrency: the model is sequential. `Run` runs to completion as one step,
  so other connections cannot interleave with it. The mutex, the `Arc`, the
  spawned task and `await` are not modelled. The handler returns its response
  before the task finishes, which the model does not capture either.
- The lock in `broadcast_message` is held across each awaited send. This is a
  concurrency concern and is not modelled.
- Minting the id: `Uuid::new_v4` is random, so the id is a parameter. It is
  required to be fresh. The model does not cover a colliding id, where the
  `HashMap` insert would overwrite the older entry.
- Transport outcomes are parameters: whether the upgrade succeeds and which
  sends fail. The model does not say why a send fails, and it does not model
  a session being closed.
- Stream framing: continuation frames are aggregated below this layer, with a
  1 MiB limit. The model's events are already-aggregated messages.
- A Close message carries an optional reason. The model leaves the reason out
  because the loop ignores it.
- Logging with `println!` is not modelled.
- `WsSpec.PeerGetsEveryText`, `WsSpec.SenderGetsEveryPong`: these are stated
  only for sessions whose sends never fail. `WsSpec.RunLoopOutbox` covers the
  general case.
- The HTTP handlers in `src/api`, the database calls, the OAuth exchange,
  configuration loading and server bootstrap are not part of this model. They
  delegate to libraries, the network, files or the database. The structs in
  `src/lib.rs` carry no behaviour.
