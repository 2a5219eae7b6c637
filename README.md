# BsEvent in Dafny

A model of the Warudo BsEvent node (`warudo/bsevent.cs`). The node connects to
a Beat Saber event WebSocket and turns each JSON event it receives into a flow
output of the Warudo graph. The model covers five parts:

- **Frame assembler** (`ReceiveAllTextAsync`). Up to 1000 receives fill a
  buffer. Reading stops at a final fragment, which gives the UTF-8 decoding of
  the buffer, or at a close frame, which gives `(true, "")`. After 1000
  receives with neither, the call gives `(false, null)`.
- **Envelope decoder** (`ParseSilently`, `ParseReceived`). JSON that does
  not parse is skipped. The `event` and `time` lookups both run before the
  null check, and either may throw; the exception leaves `ParseReceived`. A
  message `(event, time, null)` goes to the tail of `MsgQueue` exactly when
  the JSON parses, both lookups succeed and `event` is not null.
- **Receive loop and running flag** (`RunAsyncImpl`, `RunAsync`). The loop
  connects unless the socket is already open. It then assembles and enqueues
  until a close, a socket exception, or an exception from a lookup in
  `ParseReceived`, which ends the loop with the socket still open. `IsRunning`
  is raised on entry and cleared in `finally` on every exit path.
- **AutoStarter.** A two-field watchdog decides on each tick whether to call
  `Start`. It uses a 15-second debounce and a 15-second grace period. The
  debounce is recorded only after `Start` returns, so a `Start` that throws
  (an address `new Uri` rejects) is retried on every later tick.
- **Node control and dispatch** (`Start`, `Stop`, `ForceReset`, `OnUpdate`,
  `IsActive`, the `exits` table). Each tick dequeues at most one message and
  fires the flow its event name maps to.

Modules, one per file:

| module | file | role |
|---|---|---|
| `Wrappers` | `wrappers.dfy` | `Option` and `Result` |
| `Frames` | `frames.dfy` | the assembler, as the function `Assemble`, and its characterisation |
| `Envelopes` | `envelopes.dfy` | `Envelope`, `Message`, and `Decode`/`Enqueued` |
| `Sessions` | `sessions.dfy` | the receive loop as the function `Session` over what the socket delivers |
| `Broker` | `broker.dfy` | the class `BsEventBroker`; its methods are proved against `Assemble`, `Enqueued` and `Session` |
| `Watchdog` | `watchdog.dfy` | the function `Step`, the class `AutoStarter`, and lemmas over runs of ticks |
| `Routing` | `routing.dfy` | the `Exits` table, `Route`, `Dispatch`, `ResolveUri` |
| `Node` | `node.dfy` | the class `BsEventNode` with `Start`, `Stop`, `ForceReset`, `OnUpdate` |
| `Pipeline` | `pipeline.dfy` | one worked run from received frames to fired flows |

The external world comes in as parameters:

- The socket is a `Link`: the fault `ConnectAsync` throws, if any; the
  `Receipt`s that `ReceiveAsync` delivers in order, each a fragment or a thrown
  fault; and the fault thrown once those run out.
- `Encoding.UTF8.GetString` and the JSON library are the two functions of a
  `Codec`. The JSON function gives, for each text, either a parse failure or
  the outcome of each of the two lookups.
- Whether `new Uri` accepts an address is the node's `uriParses` function.
- `DateTime.Now` is an integer count of ticks, at 10,000,000 per second.
- `InvokeFlow` appends the output's name to the node's `fired` sequence.
- Toasts are recorded in a ghost sequence on the broker.

`RunAsync` is split at its first `await`:

- `Begin` raises `IsRunning` and shows the "started" toast.
- `Complete` runs `RunAsyncImpl`, the catch clauses and the `finally` block.
- `Run` runs the two in sequence.

`Start` runs only `Begin`, as the C# code does before its first `await`
yields. The rest of the loop, and the `ForceReset` continuation after it, are
left to whoever drives the model (`Complete`, then `ForceReset`).

## Model

| member | source | states |
|---|---|---|
| Frames.Assemble | warudo/bsevent.cs:118-140 | one call reads at most its budget of receipts (1000 in `ReceiveAll`), never more than are delivered, and consumes at least one when it succeeds |
| Frames.AssembleCharacterized | warudo/bsevent.cs:117-137 | if the k-th receipt is the first to stop the loop and lies within the cap, exactly k+1 receipts are consumed; a thrown fault is rethrown and a close gives `(true, "")` without writing its payload; a final fragment gives the decoding of all data payloads up to and including it, in order |
| Frames.AssembleCapsOut | warudo/bsevent.cs:118-140 | when none of the first 1000 receipts is final, a close or a fault, the call gives `(false, null)` after exactly 1000 receives |
| Frames.AssembleRunsDry | warudo/bsevent.cs:118-120 | when the delivered receipts run out before a stop and before the cap, the next receive's fault is thrown |
| Frames.WrittenAppends | warudo/bsevent.cs:126-129 | skipping the write of an empty fragment is the same as appending its empty payload |
| Envelopes.Decode | warudo/bsevent.cs:143-172 | unparsable JSON is skipped; a lookup that throws escapes, even when `event` is missing, because both lookups run before the null check; a message exists exactly when the parse and both lookups succeed and `event` is not null, and it carries that event and time and a null status |
| Envelopes.Enqueued | warudo/bsevent.cs:158-174 | at most one message is enqueued per text, exactly when it decodes, and it is the decoded message |
| Broker.ErrorToasts | warudo/bsevent.cs:60-81 | an error toast is shown exactly for a WebSocketException or another exception, at most one, and never a started or stopped toast |
| Sessions.Session | warudo/bsevent.cs:100-112 | the loop never reads more receipts than are delivered; the socket is left open only when an exception from `ParseReceived` ended the loop, and never after a normal end |
| Sessions.CloseEndsSession | warudo/bsevent.cs:103-107 | a close ends the loop normally after one receive, with nothing enqueued for it |
| Sessions.CappedMessageSkipped | warudo/bsevent.cs:108-140 | a message over 1000 fragments enqueues nothing; the loop continues from receipt 1001 with no resynchronisation |
| Sessions.FaultEndsSession | warudo/bsevent.cs:60-72 | an exception raised by a receive within the cap ends the loop with that exception after exactly the receipts read, enqueues nothing for the message in progress, and leaves the socket aborted rather than open |
| Sessions.MessageHandled | warudo/bsevent.cs:100-174 | a complete message of any number of fragments within the cap is read in full; if a lookup throws, the loop ends there with another error, the socket open and nothing enqueued; otherwise its decoded message, if any, is enqueued ahead of everything received after it and the loop goes on: receive order is queue order |
| Sessions.SingleFragmentText | warudo/bsevent.cs:126-136 | a message in one final fragment is decoded from exactly its payload |
| Sessions.QueuedHaveNoStatus | warudo/bsevent.cs:172 | every message the loop enqueues has a null status |
| Broker.BsEventBroker.constructor | warudo/bsevent.cs:40-46 | a new broker has an idle socket, an empty queue and the flag down |
| Broker.BsEventBroker.ReceiveAllText | warudo/bsevent.cs:115-141 | the `for` loop returns what `ReceiveAll` gives on the pending receipts, drops exactly the receipts it consumed, and leaves the socket closed after a close and aborted after a fault |
| Broker.BsEventBroker.ParseReceived | warudo/bsevent.cs:158-174 | the queue becomes the old queue followed by `Enqueued(text)`, so existing entries are never altered; an exception leaves the method exactly when a lookup throws |
| Broker.BsEventBroker.ReceiveLoop | warudo/bsevent.cs:100-112 | the `while` loop ends with the exit reason of `Session`, appends exactly `Session`'s messages to the queue and consumes what it read; the socket ends closed after a close, open after an exception from `ParseReceived`, and aborted after a socket fault |
| Broker.BsEventBroker.RunImpl | warudo/bsevent.cs:93-113 | an open socket returns at once and nothing changes; connecting a socket that was already used fails with another error; a failed connect ends with its fault; both leave the socket aborted and enqueue nothing; otherwise the result, queue and socket state are the receive loop's |
| Broker.BsEventBroker.Begin | warudo/bsevent.cs:50-55 | the flag is raised and the started toast shown |
| Broker.BsEventBroker.Complete | warudo/bsevent.cs:56-90 | on every path the flag ends down and the toasts are the error toast, if any, then exactly one stopped toast; the exit reason, queue, receipts and socket state are `RunImpl`'s in each of its four cases |
| Broker.BsEventBroker.Run | warudo/bsevent.cs:48-91 | a full `RunAsync` shows started, the error toast if any, then stopped, and the flag ends down; in each of the four cases (already open, already used, failed connect, connected) the exit reason, queue, receipts and socket state are as for `Complete` |
| Broker.BsEventBroker.Dispose | warudo/bsevent.cs:176-179 | the socket is disposed |
| Watchdog.Step | warudo/bsevent.cs:196-217 | `start` is called exactly when not alive, at least 15 s after the last invocation and more than 15 s after the last alive sample; `lastAlive` follows alive samples; `lastInvoked` becomes the time of a start only when that start returns |
| Watchdog.StartsAreSpaced | warudo/bsevent.cs:190-215 | over any run of ticks, the first start that returns is at least 15 s after construction or the last invocation, successive starts that return are at least 15 s apart, and `lastInvoked` is the last of them |
| Watchdog.LastStartRemembered | warudo/bsevent.cs:211-215 | after any run of ticks `lastInvoked` holds the time of the last start that returned, or its old value if none did |
| Watchdog.StartsAfterGrace | warudo/bsevent.cs:201-215 | while the broker stays down, every call of `start`, one that throws included, is more than 15 s after the broker was last seen alive, and that time is kept |
| Watchdog.NoStartWhileAlive | warudo/bsevent.cs:201-204 | while alive `start` is never called, `lastInvoked` is kept and `lastAlive` is the latest sample time |
| Watchdog.CallsWithoutFailuresReturn | warudo/bsevent.cs:207-215 | when no call of `start` throws, every call is a start that returns, so the debounce of `StartsAreSpaced` covers every call |
| Watchdog.FailedStartRetried | warudo/bsevent.cs:207-215 | a start that throws leaves both fields unchanged, so any later tick with the broker still down calls `start` again, however soon it comes |
| Watchdog.AutoStarter.constructor | warudo/bsevent.cs:190-194 | both fields start at the construction time |
| Watchdog.AutoStarter.OnUpdate | warudo/bsevent.cs:196-217 | the fields and the decision to start are exactly `Step`'s, including a start that throws before `lastInvoked` is assigned |
| Routing.Route | warudo/bsevent.cs:360-363 | a flow is fired exactly when the name is a key of the table, and it is that key's output |
| Routing.Dispatch | warudo/bsevent.cs:355-369 | an empty queue fires nothing; otherwise exactly the head is removed, the rest keep their order, and the head's route is fired |
| Routing.DrainFiresInOrder | warudo/bsevent.cs:340-369 | after k ticks the first k messages are gone, one per tick, and the flows fired are their routes in queue order |
| Routing.ExitsLookups | warudo/bsevent.cs:300-321 | `noteCut`, `pause`, `resume` and the literal `other` map to their outputs; `Other`, which is not a key, fires nothing |
| Routing.ResolveUri | warudo/bsevent.cs:274 | the URI is `ws://127.0.0.1:6557/socket` exactly when `ws_address` is null or whitespace, and is never blank |
| Node.CancellationTokenSource.Cancel | warudo/bsevent.cs:289 | the source is cancelled |
| Node.BsEventNode.constructor | warudo/bsevent.cs:298-323 | no broker or source is held, the table is `Exits`, and the AutoStarter starts at the construction time |
| Node.BsEventNode.ForceReset | warudo/bsevent.cs:325-331 | the held source and broker are disposed and both fields become null; with nothing held nothing else changes, so a second call changes nothing |
| Node.BsEventNode.Start | warudo/bsevent.cs:267-283 | a stale pair is disposed first; the call throws exactly when the resolved URI does not parse, and then neither field is assigned, so both are null; otherwise a fresh broker on the resolved URI and a fresh, uncancelled source are installed, and the broker's flag is up |
| Node.BsEventNode.Stop | warudo/bsevent.cs:287-290 | the held source, if any, is cancelled, and nothing else changes |
| Node.BsEventNode.OnUpdate | warudo/bsevent.cs:340-370 | the watchdog is consulted only when `autoStart` is set, fed `IsActive` and whether `Start` would throw; a start disposes the old pair and leaves the old broker's queue as it was; a start that throws leaves both fields null and dispatches nothing; a start that returns installs, as `Start` does, a fresh broker on the resolved URI with the node's codec, the given link, an idle socket, an empty queue, the flag up and the started toast, and a fresh, uncancelled source; otherwise a null broker dequeues and fires nothing, and a held broker's queue and the fired flows change exactly as `Dispatch` says |
| Pipeline.PauseThenResume | warudo/bsevent.cs:100-369 | frames `pause`, `resume`, close: the loop enqueues both in order, ends normally after three receives, and two ticks fire Pause, then Resume |

## Left out

- Socket I/O (`ConnectAsync`, `ReceiveAsync`, `CloseAsync`) is the `Link` input; the model does not capture how a real socket reaches its states.
- After a socket exception the socket state is taken as `Aborted`; the model does not capture the finer states the real socket reports.
- `CloseAsync` after a close frame is taken to succeed, leaving the socket `Closed`; its own failures are not modelled.
- Operations on a disposed socket are not modelled.
- Async/await, `Task.ContinueWith` and the thread safety of `ConcurrentQueue` are not modelled. Calls run one after another, and the background continuation is not scheduled.
- Cancellation is one exit reason carried by a receipt or the connect fault. `Stop` sets the source's flag; its effect on the loop is a `Cancelled` fault in the `Link`.
- `Node.BsEventNode.Start` models only the part of `RunAsync` before its first `await` (`Begin`); `Complete` and the `ForceReset` continuation run when the driver calls them.
- Newtonsoft `JObject.Parse` and the `Value<T>` conversions are the `parse` function: which texts fail to parse, and which lookups throw (a non-string `event`, a `time` that is null or not a number), is its choice and not modelled. What the source does with each outcome is modelled. `Status` holds the envelope type, but the source always sets it to null.
- `Encoding.UTF8.GetString` is the `utf8` function. Both the `TryGetBuffer` branch and the `ToArray` branch decode the same bytes.
- The 16384-byte `recvBuffer` and the `MemoryStream` capacity are not modelled: a fragment's payload is already the bytes it wrote.
- Which strings `new Uri` accepts is the `uriParses` function. The `ClientWebSocket` that the broker's constructor creates before `new Uri` throws is not modelled, so neither is its leak on each failed `Start`.
- An exception that leaves `Node.BsEventNode.OnUpdate` is its `thrown` result. What the host does with it is not modelled.
- Logging (`Debug.Log*`) is not modelled. Toasts are kept as a ghost sequence of kinds, without their texts.
- Warudo framework glue is not modelled: the `[FlowOutput]`, `[Trigger]`, `[DataInput]` and `DisabledIf` attributes, `IsNotActive` (which only feeds `DisabledIf`), `base.OnUpdate`, `OnDestroy`, and `InvokeFlow` beyond recording the output's name.
- The `TryDequeue` failure branch (warudo/bsevent.cs:365-368) cannot be reached when calls run one after another.
- `obs/data.js` is a static list of audio URLs with no logic.
- Node.BsEventNode.IsActive: a predicate with no contract of its own; it is the `alive` input of `OnUpdate`'s contract.
- Sessions.Session: its own contract only bounds the receipts read and relates the exit reason to the socket state; what it computes is stated by the lemmas about it (a close, a socket exception, a complete message, a capped message) and by `ReceiveLoop`.
