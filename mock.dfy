/**
 * The in-memory serial-port binding: a registry of simulated ports, the binding objects that
 * open, configure, write to and read from them, and the single tick queue (processNextTick)
 * every deferred piece of work goes through. A World holds the module-level state (the
 * registry and the queue) and a log of what the outside observes; Step runs the oldest task.
 */
module Mock {
  import opened Wrappers
  import opened Errors
  import opened Values
  import opened Flow

  /** Identifies the callback a caller passes to an operation. */
  type Callback = nat

  /** The readyData a port gets when createPort is not given one: the bytes of "READY". */
  const DefaultReadyData: Bytes := [0x52, 0x45, 0x41, 0x44, 0x59]

  /** A port's device information; only comName is modelled. */
  datatype PortInfo = PortInfo(comName: string)

  /** What a callback is called with: an error or null, or (for list) null and the port infos. */
  datatype Completion = Done(err: Option<Error>) | Listed(infos: seq<PortInfo>)

  /** The deferred closures the binding hands to processNextTick. */
  datatype Task =
    | Complete(cb: Callback, result: Completion)       // processNextTick(cb, ...)
    | Activate(b: Binding, port: Port, cb: Callback)   // open, first tick: isOpen = true
    | Announce(b: Binding, port: Port, cb: Callback)   // open, second tick: readyData, then cb(null)
    | Release(b: Binding, port: Port, cb: Callback)    // close's tick
    | Echo(b: Binding, data: Bytes)                    // emitData(data) after a write on an echo port
    | Delivery(b: Binding)                             // emitData's delivery to push

  /** What the outside world sees happen, in order. */
  datatype Event =
    | Called(cb: Callback, result: Completion)
    | Pushed(to: Binding, chunk: Bytes)
    | Notified(target: Binding, err: Error)

  /** A simulated device, shared by every binding that opens its path. */
  class Port {
    var data: Bytes
    var lastWrite: Option<Bytes>
    var openOpt: Option<Value>     // None once deleted (or never set)
    const echo: bool
    const readyData: Bytes
    const info: PortInfo

    constructor (path: string, echo: bool, readyData: Bytes)
      ensures data == [] && lastWrite == None && openOpt == None
      ensures this.echo == echo && this.readyData == readyData && info == PortInfo(path)
    {
      data := [];
      lastWrite := None;
      openOpt := None;
      this.echo := echo;
      this.readyData := readyData;
      info := PortInfo(path);
    }
  }

  /** `port.openOpt && port.openOpt.lock`: the recorded options are a plain object whose lock is truthy. */
  function LockHeld(openOpt: Option<Value>): (r: bool)
    ensures r <==> openOpt.Some? && openOpt.value.Object? && "lock" in openOpt.value.props
                   && Truthy(openOpt.value.props["lock"])
  {
    match openOpt
    case None => false
    case Some(o) => Truthy(o) && (match Get(o, "lock") case Success(lock) => Truthy(lock) case Failure(_) => false)
  }

  /** The constructor's checks: disconnect first, then push, must be functions. */
  function CapabilityError(opt: Value): (r: Option<Error>)
    ensures r.None? <==> Get(opt, "disconnect") == Success(Function) && Get(opt, "push") == Success(Function)
    ensures r.Some? ==> r.value.kind == TypeError
    ensures Get(opt, "disconnect").Success? && Get(opt, "disconnect") != Success(Function) ==>
              r == Some(Error(TypeError, "options.disconnect is not a function"))
  {
    match Get(opt, "disconnect")
    case Failure(e) => Some(e)
    case Success(d) =>
      if !d.Function? then Some(Error(TypeError, "options.disconnect is not a function"))
      else if Get(opt, "push") != Success(Function) then Some(Error(TypeError, "options.push is not a function"))
      else None
  }

  /** update's argument checks, made before it looks at the binding: the baud rate, or what is thrown. */
  function ValidateUpdate(opt: Value): (r: Result<Value, Error>)
    ensures r.Success? <==> opt.Object? && "baudRate" in opt.props && Truthy(opt.props["baudRate"])
    ensures r.Success? ==> r.value == opt.props["baudRate"]
    ensures TypeOf(opt) != "object" ==> r == Failure(Error(TypeError, "options is not an object"))
    ensures opt.Object? && r.Failure? ==> r == Failure(MissingBaudRate)
  {
    if TypeOf(opt) != "object" then Failure(Error(TypeError, "options is not an object"))
    else match Get(opt, "baudRate")
      case Failure(e) => Failure(e)
      case Success(baud) => if Truthy(baud) then Success(baud) else Failure(MissingBaudRate)
  }

  /** set's argument check: anything whose typeof is "object" passes, null included. */
  function ValidateSet(opt: Value): (r: Option<Error>)
    ensures r.None? <==> opt.Null? || opt.Object? || opt.Buffer?
    ensures r.Some? ==> r.value.kind == TypeError
  {
    if TypeOf(opt) != "object" then Some(Error(TypeError, "options is not an object")) else None
  }

  /** write's argument check: only a Buffer passes, and its bytes are what gets written. */
  function ValidateWrite(buffer: Value): (r: Result<Bytes, Error>)
    ensures r.Success? <==> buffer.Buffer?
    ensures r.Success? ==> r.value == buffer.bytes
    ensures r.Failure? ==> r.error.kind == TypeError
  {
    if buffer.Buffer? then Success(buffer.bytes) else Failure(Error(TypeError, "buffer is not a Buffer"))
  }

  /** `this.port.openOpt.baudRate = baud` once this.port is known to be set. */
  function Rebaud(openOpt: Option<Value>, baud: Value): (r: Result<Value, Error>)
    ensures openOpt.None? ==> r.Failure? && r.error.kind == TypeError
    ensures openOpt.Some? ==> r == Put(openOpt.value, "baudRate", baud)
    ensures r.Success? && openOpt.value.Object? ==>
              r.value.Object? && r.value.props.Keys == openOpt.value.props.Keys + {"baudRate"}
              && r.value.props["baudRate"] == baud
              && forall k :: k in openOpt.value.props && k != "baudRate" ==> r.value.props[k] == openOpt.value.props[k]
  {
    match openOpt
    case None => Failure(CannotSet("baudRate", "undefined"))
    case Some(o) => Put(o, "baudRate", baud)
  }

  /** The port infos of the given registered paths, in the order given. */
  function InfosOf(ports: map<string, Port>, paths: seq<string>): (r: seq<PortInfo>)
    requires forall p :: p in paths ==> p in ports
    ensures |r| == |paths|
    ensures forall i :: 0 <= i < |paths| ==> r[i] == ports[paths[i]].info
  {
    if paths == [] then [] else [ports[paths[0]].info] + InfosOf(ports, paths[1..])
  }

  /** A possibly absent port, as a frame. */
  ghost function Frame(p: Port?): set<object> {
    if p == null then {} else {p}
  }

  /** The port object a binding currently refers to, as a frame. */
  ghost function PortOf(b: Binding): set<object>
    reads b
  {
    Frame(b.port)
  }

  /** The objects a task may change when it runs (besides the World). */
  ghost function Touches(t: Task): set<object>
    reads if t.Complete? then {} else {t.b}
  {
    match t
    case Complete(_, _) => {}
    case Activate(b, _, _) => {b}
    case Announce(b, port, _) => if port.echo then PortOf(b) else {}
    case Release(b, port, _) => {b, port}
    case Echo(b, _) => PortOf(b)
    case Delivery(b) => {b} + PortOf(b)
  }

  /**
   * emitData(data) on binding b, with `rest` the queue before it: on a closed binding nothing
   * happens; on an open one the data (if any) is appended to the port's buffer, which throws
   * when the binding has no port; and a delivery is queued exactly when the binding is flowing.
   */
  twostate predicate Emitted(w: World, b: Binding, data: Option<Bytes>, rest: seq<Task>, new thrown: Option<Error>)
    reads w, b, b.port
  {
    && b.isOpen == old(b.isOpen) && b.flowing == old(b.flowing) && b.port == old(b.port)
    && (thrown.Some? <==> b.isOpen && data.Some? && b.port == null)
    && (thrown.Some? ==> thrown.value == CannotRead("data", "undefined"))
    && (b.port != null ==>
          && b.port.data == (if b.isOpen then Arrive(Line(old(b.port.data), b.flowing), data).pending
                             else old(b.port.data))
          && b.port.lastWrite == old(b.port.lastWrite) && b.port.openOpt == old(b.port.openOpt))
    && w.queue == rest + (if b.isOpen && b.flowing && thrown.None? then [Delivery(b)] else [])
  }

  /**
   * The delivery task on binding b, with `rest` the queue after it was taken off: it throws when
   * b has no port; otherwise it does what Flow.Deliver says, logging the chunk handed to push and
   * letting an exception thrown by push escape.
   */
  twostate predicate DeliveryRan(w: World, b: Binding, reply: Reply, rest: seq<Task>, new fault: Option<Error>)
    reads w, b, b.port
  {
    && b.isOpen == old(b.isOpen) && b.port == old(b.port)
    && (b.port == null ==>
          fault == Some(CannotRead("data", "undefined")) && b.flowing == old(b.flowing)
          && w.queue == rest && w.log == old(w.log))
    && (b.port != null ==>
          var d := Deliver(Line(old(b.port.data), old(b.flowing)), b.isOpen, reply);
          && fault == d.fault
          && b.port.data == d.line.pending && b.flowing == d.line.flowing
          && b.port.lastWrite == old(b.port.lastWrite) && b.port.openOpt == old(b.port.openOpt)
          && w.log == old(w.log) + (if d.chunk.Some? then [Pushed(b, d.chunk.value)] else [])
          && w.queue == rest + (if d.again then [Delivery(b)] else []))
  }

  /** The module-level state: the port registry, the tick queue, and the log of what was observed. */
  class World {
    var ports: map<string, Port>
    var paths: seq<string>          // the registry's keys in insertion order (Object.keys)
    var queue: seq<Task>
    var log: seq<Event>

    ghost predicate Valid()
      reads this`ports, this`paths
    {
      && (forall i, j :: 0 <= i < j < |paths| ==> paths[i] != paths[j])
      && (forall p :: p in ports <==> p in paths)
      && (forall p :: p in ports ==> ports[p].info.comName == p)
    }

    constructor ()
      ensures Valid() && ports == map[] && paths == [] && queue == [] && log == []
    {
      ports := map[];
      paths := [];
      queue := [];
      log := [];
    }

    /**
     * The registered port at `path`, or null. In a valid registry a path finds a port exactly
     * when it is listed, and the port found describes that path.
     */
    function Lookup(path: string): (r: Port?)
      reads this`ports, this`paths
      ensures r != null <==> path in ports
      ensures r != null ==> r == ports[path]
      ensures Valid() ==> (r != null <==> path in paths)
      ensures Valid() && r != null ==> r.info.comName == path
    {
      if path in ports then ports[path] else null
    }

    /** MockBindings.reset: a new, empty registry. Bindings keep the port objects they hold. */
    method Reset()
      modifies this`ports, this`paths
      ensures Valid() && ports == map[] && paths == []
    {
      ports := map[];
      paths := [];
    }

    /** MockBindings.createPort: a fresh port under `path`, replacing any earlier one in place of its key. */
    method CreatePort(path: string, echo: bool, readyData: Option<Bytes>)
      requires Valid()
      modifies this`ports, this`paths
      ensures Valid()
      ensures path in ports && fresh(ports[path])
      ensures ports == old(ports)[path := ports[path]]
      ensures paths == if path in old(ports) then old(paths) else old(paths) + [path]
      ensures ports[path].data == [] && ports[path].lastWrite == None && ports[path].openOpt == None
      ensures ports[path].echo == echo && ports[path].readyData == readyData.GetOr(DefaultReadyData)
      ensures ports[path].info == PortInfo(path)
    {
      var port := new Port(path, echo, readyData.GetOr(DefaultReadyData));
      if path !in ports {
        paths := paths + [path];
      }
      ports := ports[path := port];
    }

    /** The infos of every registered port, in registration order. */
    function Listing(): (r: seq<PortInfo>)
      requires Valid()
      reads this`ports, this`paths
      ensures |r| == |paths| == |ports|
      ensures forall i :: 0 <= i < |r| ==> r[i] == ports[paths[i]].info && r[i].comName == paths[i]
      ensures ports == map[] ==> r == []
    {
      DistinctCardinality(paths, ports);
      InfosOf(ports, paths)
    }

    /** MockBindings.list: the listing is taken now and handed to cb on a later tick. */
    method List(cb: Callback)
      requires Valid()
      modifies this`queue
      ensures queue == old(queue) + [Complete(cb, Listed(Listing()))]
    {
      queue := queue + [Complete(cb, Listed(Listing()))];
    }

    /**
     * Runs the oldest task. `reply` is what push answers if the task is a delivery that calls it;
     * `fault` is an exception the task throws (it escapes to the event loop).
     */
    method Step(reply: Reply) returns (fault: Option<Error>)
      requires queue != []
      modifies this, Touches(queue[0])
      ensures ports == old(ports) && paths == old(paths)
      ensures match old(queue[0])
        case Complete(cb, c) =>
          fault == None && queue == old(queue[1..]) && log == old(log) + [Called(cb, c)]
        case Activate(b, port, cb) =>
          && fault == None && b.isOpen && b.flowing == old(b.flowing) && b.port == old(b.port)
          && queue == old(queue[1..]) + [Announce(b, port, cb)] && log == old(log)
        case Announce(b, port, cb) =>
          && (if port.echo then Emitted(this, b, Some(port.readyData), old(queue[1..]), fault)
              else fault == None && queue == old(queue[1..]))
          && log == old(log) + (if fault == None then [Called(cb, Done(None))] else [])
        case Release(b, port, cb) =>
          && fault == None && port.openOpt == None && port.data == [] && port.lastWrite == old(port.lastWrite)
          && b.port == null && !b.isOpen && !b.flowing
          && queue == old(queue[1..]) + [Complete(cb, Done(None))] && log == old(log)
        case Echo(b, data) =>
          Emitted(this, b, Some(data), old(queue[1..]), fault) && log == old(log)
        case Delivery(b) =>
          DeliveryRan(this, b, reply, old(queue[1..]), fault)
    {
      match queue[0]
      case Complete(cb, c) =>
        fault := None;
        RunComplete(cb, c);
      case Activate(b, port, cb) =>
        fault := None;
        RunActivate(b, port, cb);
      case Announce(b, port, cb) =>
        fault := RunAnnounce(b, port, cb);
      case Release(b, port, cb) =>
        fault := None;
        RunRelease(b, port, cb);
      case Echo(b, data) =>
        fault := RunEcho(b, data);
      case Delivery(b) =>
        fault := RunDelivery(b, reply);
    }

    /** A callback's tick: it is called with its result. */
    method RunComplete(cb: Callback, c: Completion)
      requires queue != [] && queue[0] == Complete(cb, c)
      modifies this`queue, this`log
      ensures queue == old(queue[1..]) && log == old(log) + [Called(cb, c)]
    {
      queue := queue[1..];
      log := log + [Called(cb, c)];
    }

    /** open's first tick: the binding is open, and the second tick is queued. */
    method RunActivate(b: Binding, port: Port, cb: Callback)
      requires queue != [] && queue[0] == Activate(b, port, cb)
      modifies this`queue, b`isOpen
      ensures b.isOpen && queue == old(queue[1..]) + [Announce(b, port, cb)]
    {
      queue := queue[1..];
      b.isOpen := true;
      queue := queue + [Announce(b, port, cb)];
    }

    /** open's second tick: an echo port's readyData goes through the binding's emitData, then cb(null). */
    method RunAnnounce(b: Binding, port: Port, cb: Callback) returns (fault: Option<Error>)
      requires queue != [] && queue[0] == Announce(b, port, cb)
      modifies this`queue, this`log, if port.echo then PortOf(b) else {}
      ensures if port.echo then Emitted(this, b, Some(port.readyData), old(queue[1..]), fault)
              else fault == None && queue == old(queue[1..])
      ensures log == old(log) + (if fault == None then [Called(cb, Done(None))] else [])
    {
      queue := queue[1..];
      fault := None;
      if port.echo {
        fault := b.EmitData(this, Some(port.readyData));
      }
      if fault == None {
        log := log + [Called(cb, Done(None))];
      }
    }

    /** A write's echo tick: emitData with the written bytes. */
    method RunEcho(b: Binding, data: Bytes) returns (fault: Option<Error>)
      requires queue != [] && queue[0] == Echo(b, data)
      modifies this`queue, PortOf(b)
      ensures Emitted(this, b, Some(data), old(queue[1..]), fault)
    {
      queue := queue[1..];
      fault := b.EmitData(this, Some(data));
    }

    /** A delivery tick. */
    method RunDelivery(b: Binding, reply: Reply) returns (fault: Option<Error>)
      requires queue != [] && queue[0] == Delivery(b)
      modifies this`queue, this`log, b`flowing, PortOf(b)
      ensures DeliveryRan(this, b, reply, old(queue[1..]), fault)
    {
      queue := queue[1..];
      fault := b.DeliverPending(this, reply);
    }

    /** close's tick: the port's options and buffer are dropped, the binding lets go of it, then cb(null) is queued. */
    method RunRelease(b: Binding, port: Port, cb: Callback)
      requires queue != [] && queue[0] == Release(b, port, cb)
      modifies this`queue, b, port
      ensures port.openOpt == None && port.data == [] && port.lastWrite == old(port.lastWrite)
      ensures b.port == null && !b.isOpen && !b.flowing
      ensures queue == old(queue[1..]) + [Complete(cb, Done(None))]
    {
      queue := queue[1..];
      port.openOpt := None;
      port.data := [];
      b.port := null;
      b.isOpen := false;
      b.flowing := false;
      queue := queue + [Complete(cb, Done(None))];
    }
  }

  /** Distinct keys listed once each: as many paths as ports. */
  lemma DistinctCardinality(paths: seq<string>, ports: map<string, Port>)
    requires forall i, j :: 0 <= i < j < |paths| ==> paths[i] != paths[j]
    requires forall p :: p in ports <==> p in paths
    ensures |paths| == |ports|
  {
    DistinctElements(paths);
    assert ports.Keys == Elements(paths);
  }

  /** The strings a sequence holds. */
  function Elements(paths: seq<string>): (r: set<string>)
    ensures forall p :: p in r <==> p in paths
  {
    if paths == [] then {} else {paths[0]} + Elements(paths[1..])
  }

  /** A sequence without repeats holds as many strings as it is long. */
  lemma {:induction false} DistinctElements(paths: seq<string>)
    requires forall i, j :: 0 <= i < j < |paths| ==> paths[i] != paths[j]
    ensures |Elements(paths)| == |paths|
  {
    if paths != [] {
      var rest := paths[1..];
      forall i, j | 0 <= i < j < |rest| ensures rest[i] != rest[j] {
        assert rest[i] == paths[i + 1] && rest[j] == paths[j + 1];
      }
      DistinctElements(rest);
      forall k | 0 <= k < |rest| ensures rest[k] != paths[0] {
        assert rest[k] == paths[k + 1];
      }
      assert paths[0] !in Elements(rest);
      assert Elements(paths) == {paths[0]} + Elements(rest);
    }
  }

  /** One MockBindings instance. push and disconnect are not stored: push's answers come in through Step. */
  class Binding {
    var isOpen: bool
    var flowing: bool
    var port: Port?

    constructor ()
      ensures !isOpen && !flowing && port == null
    {
      isOpen := false;
      flowing := false;
      port := null;
    }

    /** `new MockBindings(opt)`: a TypeError unless opt.disconnect and opt.push are functions. */
    static method Create(opt: Value) returns (b: Binding?, thrown: Option<Error>)
      ensures thrown == CapabilityError(opt)
      ensures b != null <==> thrown.None?
      ensures b != null ==> fresh(b) && !b.isOpen && !b.flowing && b.port == null
    {
      thrown := CapabilityError(opt);
      if thrown.Some? {
        b := null;
      } else {
        b := new Binding();
      }
    }

    /** disconnect: the consumer's onDisconnect is told, once; nothing else changes. */
    method Disconnect(w: World)
      modifies w`log
      ensures w.log == old(w.log) + [Notified(this, Disconnected)]
    {
      w.log := w.log + [Notified(this, Disconnected)];
    }

    /**
     * open: `port` is set to the registry's entry (null when missing) before anything is checked.
     * A missing port or one whose recorded options hold the lock fails at once (cb is called
     * synchronously and the options stay). Otherwise the caller's options are recorded
     * immediately and the rest happens on the next two ticks.
     */
    method Open(w: World, path: string, opt: Value, cb: Callback)
      modifies this`port, w`queue, w`log, Frame(w.Lookup(path))
      ensures port == w.Lookup(path)
      ensures isOpen == old(isOpen) && flowing == old(flowing)
      ensures port != null ==> port.data == old(w.Lookup(path).data) && port.lastWrite == old(w.Lookup(path).lastWrite)
      ensures port == null ==>
                w.queue == old(w.queue) && w.log == old(w.log) + [Called(cb, Done(Some(MissingPort(path))))]
      ensures port != null && LockHeld(old(w.Lookup(path).openOpt)) ==>
                && port.openOpt == old(w.Lookup(path).openOpt)
                && w.queue == old(w.queue) && w.log == old(w.log) + [Called(cb, Done(Some(Locked)))]
      ensures port != null && !LockHeld(old(w.Lookup(path).openOpt)) ==>
                && port.openOpt == Some(opt)
                && w.queue == old(w.queue) + [Activate(this, port, cb)] && w.log == old(w.log)
    {
      var p := w.Lookup(path);
      port := p;
      if p == null {
        w.log := w.log + [Called(cb, Done(Some(MissingPort(path))))];
        return;
      }
      if LockHeld(p.openOpt) {
        w.log := w.log + [Called(cb, Done(Some(Locked)))];
        return;
      }
      p.openOpt := Some(opt);
      w.queue := w.queue + [Activate(this, p, cb)];
    }

    /** close: an error on the next tick when there is no port reference; otherwise the reset is queued. */
    method Close(w: World, cb: Callback)
      modifies w`queue
      ensures w.queue == old(w.queue) + [if port == null then Complete(cb, Done(Some(AlreadyClosed)))
                                         else Release(this, port, cb)]
    {
      if port == null {
        w.queue := w.queue + [Complete(cb, Done(Some(AlreadyClosed)))];
      } else {
        w.queue := w.queue + [Release(this, port, cb)];
      }
    }

    /**
     * update: the argument is validated (and may throw) first; a closed binding then reports a
     * ClosedPortError on the next tick. An open one writes the baud rate into the port's recorded
     * options, which throws when there is no port or no options to write into.
     */
    method Update(w: World, opt: Value, cb: Callback) returns (thrown: Option<Error>)
      modifies w`queue, Frame(port)
      ensures port != null ==> port.data == old(port.data) && port.lastWrite == old(port.lastWrite)
      ensures ValidateUpdate(opt).Failure? ==>
                thrown == Some(ValidateUpdate(opt).error) && w.queue == old(w.queue)
                && (port != null ==> port.openOpt == old(port.openOpt))
      ensures ValidateUpdate(opt).Success? && !isOpen ==>
                && thrown == None && w.queue == old(w.queue) + [Complete(cb, Done(Some(ClosedPort("update"))))]
                && (port != null ==> port.openOpt == old(port.openOpt))
      ensures ValidateUpdate(opt).Success? && isOpen && port == null ==>
                thrown == Some(CannotRead("openOpt", "undefined")) && w.queue == old(w.queue)
      ensures ValidateUpdate(opt).Success? && isOpen && port != null ==>
                var r := Rebaud(old(port.openOpt), ValidateUpdate(opt).value);
                && (r.Failure? ==> thrown == Some(r.error) && port.openOpt == old(port.openOpt) && w.queue == old(w.queue))
                && (r.Success? ==> thrown == None && port.openOpt == Some(r.value)
                                   && w.queue == old(w.queue) + [Complete(cb, Done(None))])
    {
      var v := ValidateUpdate(opt);
      if v.Failure? {
        return Some(v.error);
      }
      if !isOpen {
        w.queue := w.queue + [Complete(cb, Done(Some(ClosedPort("update"))))];
        return None;
      }
      if port == null {
        return Some(CannotRead("openOpt", "undefined"));
      }
      var r := Rebaud(port.openOpt, v.value);
      if r.Failure? {
        return Some(r.error);
      }
      port.openOpt := Some(r.value);
      w.queue := w.queue + [Complete(cb, Done(None))];
      thrown := None;
    }

    /** set: the argument is validated first; then the callback gets a ClosedPortError or null on the next tick. */
    method Set(w: World, opt: Value, cb: Callback) returns (thrown: Option<Error>)
      modifies w`queue
      ensures thrown == ValidateSet(opt)
      ensures w.queue == old(w.queue) + (if thrown.Some? then []
                                         else [Complete(cb, Done(if isOpen then None else Some(ClosedPort("set"))))])
    {
      thrown := ValidateSet(opt);
      if thrown.Some? {
        return;
      }
      if !isOpen {
        w.queue := w.queue + [Complete(cb, Done(Some(ClosedPort("set"))))];
      } else {
        w.queue := w.queue + [Complete(cb, Done(None))];
      }
    }

    /**
     * write: the argument must be a Buffer; a closed binding reports a ClosedPortError on the next
     * tick. An open one records a copy as the port's lastWrite, queues cb(null) and, on an echo
     * port, queues the echo of the bytes after it.
     */
    method Write(w: World, buffer: Value, cb: Callback) returns (thrown: Option<Error>)
      modifies w`queue, Frame(port)
      ensures port != null ==> port.data == old(port.data) && port.openOpt == old(port.openOpt)
      ensures ValidateWrite(buffer).Failure? ==>
                thrown == Some(ValidateWrite(buffer).error) && w.queue == old(w.queue)
                && (port != null ==> port.lastWrite == old(port.lastWrite))
      ensures ValidateWrite(buffer).Success? && !isOpen ==>
                && thrown == None && w.queue == old(w.queue) + [Complete(cb, Done(Some(ClosedPort("write"))))]
                && (port != null ==> port.lastWrite == old(port.lastWrite))
      ensures ValidateWrite(buffer).Success? && isOpen && port == null ==>
                thrown == Some(CannotSet("lastWrite", "undefined")) && w.queue == old(w.queue)
      ensures ValidateWrite(buffer).Success? && isOpen && port != null ==>
                && thrown == None && port.lastWrite == Some(buffer.bytes)
                && w.queue == old(w.queue) + [Complete(cb, Done(None))]
                                           + (if port.echo then [Echo(this, buffer.bytes)] else [])
    {
      var v := ValidateWrite(buffer);
      if v.Failure? {
        return Some(v.error);
      }
      if !isOpen {
        w.queue := w.queue + [Complete(cb, Done(Some(ClosedPort("write"))))];
        return None;
      }
      if port == null {
        return Some(CannotSet("lastWrite", "undefined"));
      }
      port.lastWrite := Some(v.value);
      w.queue := w.queue + [Complete(cb, Done(None))];
      if port.echo {
        w.queue := w.queue + [Echo(this, v.value)];
      }
      thrown := None;
    }

    /** emitData(data): the control function the simulated device uses to deliver inbound bytes. */
    method EmitData(w: World, data: Option<Bytes>) returns (thrown: Option<Error>)
      modifies w`queue, Frame(port)
      ensures Emitted(w, this, data, old(w.queue), thrown)
    {
      thrown := None;
      if !isOpen {
        return;
      }
      if data.Some? {
        if port == null {
          return Some(CannotRead("data", "undefined"));
        }
        port.data := port.data + data.value;
      }
      if !flowing {
        return;
      }
      w.queue := w.queue + [Delivery(this)];
    }

    /** The delivery closure emitData queues: push the whole buffer if there is one, take push's answer as flowing, then empty the buffer. */
    method DeliverPending(w: World, reply: Reply) returns (fault: Option<Error>)
      modifies this`flowing, w`queue, w`log, Frame(port)
      ensures DeliveryRan(w, this, reply, old(w.queue), fault)
    {
      if port == null {
        return Some(CannotRead("data", "undefined"));
      }
      fault := None;
      var p := port;
      if |p.data| > 0 {
        w.log := w.log + [Pushed(this, p.data)];
        match reply
        case Throw(e) =>
          // push threw: flowing is not assigned and the buffer is kept
          fault := Some(e);
        case Reply(more, fed) =>
          // the consumer's push runs here and may hand bytes back to emitData before returning
          if fed.Some? {
            var ignored := EmitData(w, fed);
          }
          flowing := more;
          p.data := [];
      }
    }

    /** _read: throws a ClosedPortError on a closed binding; otherwise flowing becomes true and emitData() runs. */
    method Read(w: World) returns (thrown: Option<Error>)
      modifies this`flowing, w`queue, Frame(port)
      ensures port != null ==> port.data == old(port.data) && port.lastWrite == old(port.lastWrite)
                               && port.openOpt == old(port.openOpt)
      ensures !old(isOpen) ==> thrown == Some(ClosedPort("_read")) && flowing == old(flowing) && w.queue == old(w.queue)
      ensures old(isOpen) ==> thrown == None && flowing && w.queue == old(w.queue) + [Delivery(this)]
    {
      if !isOpen {
        return Some(ClosedPort("_read"));
      }
      flowing := true;
      thrown := EmitData(w, None);
    }

    /** flush: a ClosedPortError or null, on the next tick. */
    method Flush(w: World, cb: Callback)
      modifies w`queue
      ensures w.queue == old(w.queue) + [Complete(cb, Done(if isOpen then None else Some(ClosedPort("flush"))))]
    {
      if !isOpen {
        w.queue := w.queue + [Complete(cb, Done(Some(ClosedPort("flush"))))];
      } else {
        w.queue := w.queue + [Complete(cb, Done(None))];
      }
    }

    /** drain: a ClosedPortError or null, on the next tick. */
    method Drain(w: World, cb: Callback)
      modifies w`queue
      ensures w.queue == old(w.queue) + [Complete(cb, Done(if isOpen then None else Some(ClosedPort("drain"))))]
    {
      if !isOpen {
        w.queue := w.queue + [Complete(cb, Done(Some(ClosedPort("drain"))))];
      } else {
        w.queue := w.queue + [Complete(cb, Done(None))];
      }
    }
  }
}
