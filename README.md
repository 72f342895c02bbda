# Mock serial-port binding, modelled in Dafny

This project models `lib/bindings-mock.js` of node-serialport. That file is the in-memory
binding the test suite runs against in place of a real serial driver. Its parts are:

- **A port registry.** It maps a path to a simulated device. The device record holds the
  inbound buffer `data`, `lastWrite`, the `echo` flag, `readyData`, `info`, and `openOpt`,
  the options of the session that opened it. `reset`, `createPort` and `list` manage it.
- **`MockBindings` objects.** Each has the fields `isOpen`, `flowing` and `port`, and the
  operations `open`, `close`, `update`, `set`, `write`, `flush`, `drain`, `_read`,
  `emitData` and `disconnect`.
- **`processNextTick`.** Everything deferred goes through this one FIFO tick queue.
- **The `push` capability.** Its boolean answer drives flow control.

Files:

- `wrappers.dfy`: `Option` and `Result`.
- `errors.dfy` (module `Errors`): the errors the binding reports. These are `MissingPortError`,
  `ClosedPortError`, the plain `Error`s with fixed messages, and the `TypeError`s the engine
  raises when code dereferences `undefined`. Each is a kind and a message.
- `values.dfy` (module `Values`): the small part of the JavaScript value model the binding
  inspects. This is `typeof`, truthiness, property reads, and strict-mode property writes. It
  lets the argument checks be modelled exactly: `typeof opt !== 'object'`, `!opt.baudRate`,
  `Buffer.isBuffer`, `port.openOpt && port.openOpt.lock`.
- `flow.dfy` (module `Flow`): the data path on values. `Arrive` is what `emitData` does to
  the pending bytes. `Deliver` is what the deferred delivery closure does, including a `push`
  that throws. `Play` runs any sequence of arrivals, `_read`s and deliveries on a binding that is open or
  closed throughout; a closed one drops arrivals and ignores `_read`. Conservation of
  bytes is proved for every such sequence in which `push` returns and feeds nothing back; the
  other lemmas are about the sequences they name (arrivals alone, a pause then `_read`, a
  throwing push).
- `mock.dfy` (module `Mock`): the imperative model.
  - A `World` class holds the module-level `ports` registry (with its key order), the tick
    queue and a log of what the outside observes. The log records callback calls, chunks
    handed to `push`, and disconnect notifications.
  - `Port` and `Binding` are classes whose fields the methods update in place.
  - The `Task` datatype has one constructor per deferred closure: callback with result,
    open's first tick, open's second tick, close's tick, a write's echo, and a delivery.
  - `World.Step(reply)` runs the oldest task. `reply` is what `push` answers when that task
    calls it, so `push` is an oracle supplied one answer per tick.
  - An exception escaping a task is returned as `fault`. An exception thrown synchronously
    by an operation is returned as `thrown`.
- `scenarios.dfy` (module `Scenarios`): the mock's contract tests of `test/bindings.js`,
  written as client code. Each method drives a `World` tick by tick and states the test's
  assertions as its postcondition. The methods are verified from the `Mock` contracts.

## Model

| member | source | states |
|---|---|---|
| `Errors.MissingPort` | lib/bindings-mock.js:7-12 | a MissingPortError whose message begins with the missing path, or with "unknown method:" when the name is empty |
| `Errors.ClosedPort` | lib/bindings-mock.js:15-20 | a ClosedPortError whose message begins with the method that found the binding closed, or with "unknown method:" |
| `Mock.CapabilityError` | lib/bindings-mock.js:25-31 | construction fails exactly when `opt.disconnect` or `opt.push` is not a function; `disconnect` is checked first, and every failure is a TypeError |
| `Mock.Binding.Create` | lib/bindings-mock.js:25-36 | a binding is made exactly when both capabilities are functions, and it starts with `isOpen` and `flowing` false and no port |
| `Mock.Binding.constructor` | lib/bindings-mock.js:32-35 | a new binding is closed, not flowing, and holds no port |
| `Mock.World.constructor` | lib/bindings-mock.js:23 | the registry, the tick queue and the log start empty |
| `Mock.World.Reset` | lib/bindings-mock.js:38-40 | the registry becomes empty |
| `Mock.Port.constructor` | lib/bindings-mock.js:47-61 | a new device record has an empty buffer, no lastWrite and no openOpt, and carries the given echo flag, readyData and comName |
| `Mock.World.CreatePort` | lib/bindings-mock.js:43-62 | registers a fresh device under the path and replaces any earlier one without moving its key; readyData defaults to "READY"; no other entry changes |
| `Mock.World.Lookup` | lib/bindings-mock.js:101 | in a valid registry, `ports[path]` finds a device exactly when the path is among the listed keys, and the device found has that path as its comName |
| `Mock.World.Listing` | lib/bindings-mock.js:64-67 | one info per registered path, in registration order, each with comName equal to its path; an empty registry lists nothing |
| `Mock.World.List` | lib/bindings-mock.js:64-69 | the listing is taken at call time and handed to the callback on a later tick |
| `Mock.LockHeld` | lib/bindings-mock.js:106 | the open is refused exactly when the recorded options are an object whose `lock` is truthy |
| `Mock.Binding.Open` | lib/bindings-mock.js:100-119 | `this.port` is set to the registry entry before any check. A missing or locked device calls the callback synchronously with MissingPortError(path) or the lock error, leaves openOpt as it was and queues nothing. Otherwise the caller's options replace openOpt at once and open's first tick is queued |
| `Mock.World.RunComplete` | lib/bindings-mock.js:68 | a callback's tick takes its task off the queue and logs the callback called with its stored result, and changes nothing else |
| `Mock.World.RunActivate` | lib/bindings-mock.js:110-112 | open's first tick sets `isOpen` and queues open's second tick behind everything already queued |
| `Mock.World.RunAnnounce` | lib/bindings-mock.js:112-117 | open's second tick passes readyData through the binding's emitData on an echo device, then calls the callback with null unless emitData threw. On a non-echo device it only calls the callback: the binding and every device record stay as they were |
| `Mock.Binding.Close` | lib/bindings-mock.js:121-125 | with no port reference, "port is already closed" is queued for the callback; otherwise close's tick is queued |
| `Mock.World.RunRelease` | lib/bindings-mock.js:126-136 | close's tick deletes the device's openOpt, empties its buffer, clears `this.port`, `isOpen` and `flowing`, keeps lastWrite and the registry entry, and then queues cb(null) |
| `Mock.ValidateUpdate` | lib/bindings-mock.js:140-146 | update's argument passes exactly when it is an object with a truthy baudRate; a non-object gives a TypeError and a falsy baudRate gives "Missing baudRate" |
| `Mock.Rebaud` | lib/bindings-mock.js:151 | writing the baud rate into the recorded options changes only the `baudRate` key; absent options give a TypeError |
| `Mock.Binding.Update` | lib/bindings-mock.js:139-153 | validation throws first and changes nothing. A closed binding then queues ClosedPortError("update"). An open one sets only openOpt.baudRate and queues cb(null), or throws when `this.port` or its openOpt is missing. The buffer and lastWrite never change |
| `Mock.ValidateSet` | lib/bindings-mock.js:156-158 | set's argument passes exactly when its typeof is "object", which includes null and Buffers |
| `Mock.Binding.Set` | lib/bindings-mock.js:155-164 | a non-object throws a TypeError and queues nothing; otherwise the callback gets ClosedPortError("set") or null on a later tick |
| `Mock.Binding.Write` | lib/bindings-mock.js:166-181 | validation throws first. A closed binding queues ClosedPortError("write"). An open one stores the bytes as lastWrite and queues cb(null), then, on an echo device, the echo of the bytes behind it. The buffer and openOpt never change |
| `Mock.World.RunEcho` | lib/bindings-mock.js:178-179 | a write's echo tick runs the binding's emitData with the written bytes |
| `Mock.Binding.EmitData` | lib/bindings-mock.js:72-92 | a closed binding changes nothing. An open one appends the bytes behind the pending ones, throwing when it holds no port. It queues a delivery exactly when it is flowing and did not throw. `isOpen`, `flowing` and the port reference stay |
| `Mock.Binding.DeliverPending` | lib/bindings-mock.js:85-91 | the delivery throws when the binding holds no port. Otherwise it acts as `Flow.Deliver` says: it pushes the whole non-empty buffer, takes push's answer as `flowing`, empties the buffer, and checks neither `flowing` nor `isOpen`; when push throws, its exception escapes and `flowing` and the buffer stay |
| `Mock.World.RunDelivery` | lib/bindings-mock.js:85-91 | a delivery tick runs the binding's deferred delivery |
| `Mock.Binding.Read` | lib/bindings-mock.js:183-189 | on a closed binding it throws ClosedPortError("_read") and changes nothing; otherwise `flowing` becomes true and a delivery is queued |
| `Mock.Binding.Flush` | lib/bindings-mock.js:191-196 | the callback gets ClosedPortError("flush") when closed, or null, on a later tick |
| `Mock.Binding.Drain` | lib/bindings-mock.js:198-203 | the callback gets ClosedPortError("drain") when closed, or null, on a later tick |
| `Mock.Binding.Disconnect` | lib/bindings-mock.js:95-98 | the disconnect capability is told once, with the "disconnected" error, and nothing else changes |
| `Mock.World.Step` | lib/bindings-mock.js:110-136 | running the oldest task has the effect of the closure it stands for on the objects that closure touches, changes no other object, and never changes the registry |
| `Flow.Arrive` | lib/bindings-mock.js:77-80 | arriving bytes go after the pending ones, `flowing` is untouched, and no data leaves the buffer unchanged |
| `Flow.Deliver` | lib/bindings-mock.js:85-91 | push gets the entire buffer only when it is non-empty. When push returns, `flowing` becomes its answer and the buffer ends empty; when it throws, the exception escapes and the line is unchanged. Another delivery is queued only by bytes fed back from inside push while flowing |
| `Flow.Conservation` | lib/bindings-mock.js:72-92 | over any sequence of arrivals, `_read`s and deliveries in which push returns and feeds nothing back, the pushed chunks followed by what is still pending equal the initial buffer followed by every arrival the binding accepted, in arrival order (all of them when open, none when closed): nothing is lost or duplicated |
| `Flow.PausedStaysQuiet` | lib/bindings-mock.js:82-84 | while not flowing, arrivals queue no delivery at all, so nothing is pushed and flowing stays off |
| `Flow.FlowingQueuesEach` | lib/bindings-mock.js:72-91 | while flowing, every arrival to an open binding queues one delivery of its own, an arrival to a closed one queues none, and flowing stays on |
| `Flow.ClosedIgnoresSignals` | lib/bindings-mock.js:74-76 | on a closed binding, arrivals and `_read`s change neither the buffer nor `flowing`, push nothing and queue no delivery |
| `Flow.PausedAccumulates` | lib/bindings-mock.js:72-84 | while not flowing, arrivals alone leave the buffer as the old buffer followed by the arrivals it accepted, in order, and push nothing |
| `Flow.ResumeDeliversBacklog` | lib/bindings-mock.js:183-189 | after a pause, `_read` and the delivery push the whole backlog as one chunk; when push returns, the buffer is left empty and flowing is its answer |
| `Flow.StaleRunPushesWhilePaused` | lib/bindings-mock.js:85-91 | a delivery queued before a pause still pushes, and its answer can turn flowing back on without `_read` |
| `Flow.ThrowingPushRepeats` | lib/bindings-mock.js:88-89 | when push throws, the next delivery pushes the same bytes again, so they are pushed twice although they arrived once |
| `Flow.FedBytesAreDropped` | lib/bindings-mock.js:88-89 | bytes that push feeds back to emitData are lost, because the buffer is emptied after push returns |
| `Scenarios.OpenSettled` | lib/bindings-mock.js:106-118 | on an unlocked echo device, the open callback runs after `isOpen` has become true and readyData has joined the buffer, with nothing pushed yet |
| `Scenarios.CloseSettled` | lib/bindings-mock.js:121-137 | after close's callback the binding is closed and not flowing, and the device's buffer and openOpt are gone |
| `Scenarios.RunCallbacks` | lib/bindings-mock.js:68 | a queue of callbacks is called in queue order |
| `Scenarios.ConstructorChecks` | test/bindings.js:96-122 | both capabilities make a closed binding; a missing disconnect or push is a TypeError |
| `Scenarios.IsOpenAcrossOpenAndClose` | test/bindings.js:139-151 | `isOpen` is false before open, true in open's callback and false in close's callback, and both callbacks get null |
| `Scenarios.OpensBadPort` | test/bindings.js:154-161 | a bad path gives a MissingPortError whose message names the path; it is given synchronously and the binding stays closed |
| `Scenarios.LocksByDefault` | test/bindings.js:197-213 | a second binding's open on a locked device fails at once, the second binding stays closed, and the first session's options are kept |
| `Scenarios.RefusedBindingReleasesLock` | lib/bindings-mock.js:100-137 | a refused binding still holds the device, so its close succeeds and wipes the first session's options and buffer while that session stays open; a third open then succeeds |
| `Scenarios.CanUnlock` | test/bindings.js:218-240 | with lock false on both sides, both bindings open the same device and both close cleanly |
| `Scenarios.ClosesWhenAlreadyClosed` | test/bindings.js:245-250 | close on a binding that never opened reports an error on a later tick |
| `Scenarios.ClosedOperationsReport` | lib/bindings-mock.js:139-203 | on a closed binding, update, write, drain, flush and set each report a ClosedPortError naming the method, in call order, on later ticks; `_read` throws one |
| `Scenarios.ValidationThrows` | lib/bindings-mock.js:139-173 | on an open binding too, update({}), set(function) and write(null) throw, and nothing is queued |
| `Scenarios.UpdatesBaudRate` | test/bindings.js:312-314 | update replaces only the recorded baud rate, and its callback gets null |
| `Scenarios.PushesDataAlreadyAvailable` | test/bindings.js:506-531 | READY and the echoed byte reach push together as one chunk |
| `Scenarios.StopsWhenPushReturnsFalse` | test/bindings.js:533-556 | after push answers false to READY, the echoed byte is never pushed, and close empties the buffer |
| `Scenarios.KeepsPushing` | test/bindings.js:558-588 | push gets READY and then the echoed byte, as two chunks |
| `Scenarios.EmitsAfterBeingStopped` | test/bindings.js:590-623 | push gets READY, [1], [1], and then, after the deferred `_read`, the [1] that waited in the buffer |
| `Scenarios.DeliveryAfterClose` | lib/bindings-mock.js:85-91 | a delivery queued behind a close runs after `this.port` was cleared and throws reading `data` of undefined |
| `Scenarios.ListsPorts` | lib/bindings-mock.js:43-69 | list gives the registered comNames in registration order on a later tick; registering a path again keeps its place |
| `Scenarios.ListsNothingAfterReset` | lib/bindings-mock.js:38-69 | after reset, list gives an empty listing and no error |

## Left out

- Time and the Node event loop are not modelled. `processNextTick` is the `World`'s FIFO
  queue, and `Step` runs one task per call. The order of tasks is the only notion of time.
- `push` and `disconnect` are not stored as functions. `push` is modelled by the `reply`
  given to `Step`. That reply is push's answer (truthiness as a `bool`, so `undefined` is
  false) plus any bytes push hands back to `emitData` before returning.
- Other re-entrant calls from inside `push` are modelled as client calls made right after
  that `Step`. This covers `write` and `close`, which only queue work. The result is the same
  only when push makes them after any bytes it hands back to `emitData`: the model always
  orders such calls after the fed bytes. Take a push on an open, flowing binding that calls
  `close(cb)` and then `emitData` with one byte. In the source, close's tick is queued before
  the new delivery, clears `this.port`, and that delivery then throws reading `data`. In the
  model, the delivery is queued first and finds an empty buffer, and close's tick runs after
  it. A `_read`, `open` or `update` made from inside `push` is not modelled.
- Mock.Binding.Open: the source keeps the caller's options object itself as `openOpt`, so
  every port opened with the same object shares it, and later changes the caller makes to
  it (to `lock`, say) change the lock check. The model stores a copy of the options as a
  value when the open is accepted.
- Mock.Binding.Update: the source writes the new baud rate into that shared options object,
  so the caller's object and every other port recorded with it change too. The model
  changes only the `openOpt` copy of this binding's port.
- Mock.Binding.DeliverPending: push hands bytes back to `emitData` at most once per call.
  In the source, each such `emitData` while open and flowing queues a delivery of its own,
  so a push that calls it twice queues two; the model queues at most one. A push that throws
  is modelled as throwing before it hands any bytes back; a push that feeds bytes back and
  then throws is not modelled.
- Mock.Binding.Disconnect: records one notification in the log. The consumer's handler code
  is not run.
- The `debug` logging, `inherits`, `Error.captureStackTrace`, the error prototype chain and
  stack traces are left out. Errors are a kind and a message.
- Mock.World.CreatePort: the device-info vendor strings are not modelled; `info` holds only
  `comName`. `opt.echo` is modelled as a `bool` (its truthiness). `opt.readyData` is an
  optional byte sequence; a non-Buffer readyData is not modelled.
- The registry is a map plus its key order. Keys inherited from `Object.prototype` (such as
  `constructor`) are not modelled. Nor is the rule that `Object.keys` lists integer-like keys
  first in numeric order.
- Numbers are integers; fractions and NaN are not modelled.
- The message text of the engine's own `TypeError`s differs between Node versions. The model
  uses one fixed wording for them.
- Buffers are values. The copy `write` stores as `lastWrite`, and the buffer object handed to
  `push`, have no aliasing to model, because the binding replaces `port.data` and never
  mutates it in place.
- Quirks of the code that this model keeps:
  - The buffer is emptied after `push` returns, not before, so bytes fed back during `push`
    are lost (`Flow.FedBytesAreDropped`).
  - When `push` throws, neither `flowing` nor the buffer is reset, so the next delivery
    pushes the same bytes again (`Flow.ThrowingPushRepeats`).
  - A `true` answer from `push` does not schedule another delivery. Only a later `emitData`
    while flowing does.
  - A second open is refused only when the recorded options hold the lock.
  - The deferred delivery re-checks neither `flowing` nor `isOpen`. When `close` has cleared
    `this.port` it throws (`Scenarios.DeliveryAfterClose`).
  - Argument errors are `TypeError`s and the plain "Missing baudRate" error, not a separate
    invalid-argument kind.
  - A disconnect only notifies; it does not close the binding.
