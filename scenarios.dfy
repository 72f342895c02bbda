/**
 * The contract tests of test/bindings.js, run against the mock as client code: each method
 * drives a World tick by tick, acting where the test's callbacks act, and its postcondition
 * is what the test asserts. They verify from the contracts of Mock alone.
 */
module Scenarios {
  import opened Wrappers
  import opened Errors
  import opened Values
  import opened Flow
  import opened Mock

  function TestPort(): string { "/dev/exists" }

  /** The constructor options of every test: both capabilities are functions. */
  function Capabilities(): Value { Object(map["disconnect" := Function, "push" := Function]) }

  /** defaultPortOpenOptions, with `lock` as given. */
  function OpenOptions(lock: bool): Value {
    Object(map["baudRate" := Number(9600), "dataBits" := Number(8), "hupcl" := Boolean(true),
               "lock" := Boolean(lock), "parity" := Text("none"), "rtscts" := Boolean(false),
               "stopBits" := Number(1), "xany" := Boolean(false), "xoff" := Boolean(false),
               "xon" := Boolean(false)])
  }

  /** The answer passed to Step for tasks that do not call push. */
  function Idle(): Reply { Reply(true, None) }

  /** The chunks pushed to b, in order. */
  function PushesTo(log: seq<Event>, b: Binding): seq<Bytes> {
    if log == [] then []
    else
      var e := log[|log| - 1];
      PushesTo(log[..|log| - 1], b) + (if e.Pushed? && e.to == b then [e.chunk] else [])
  }

  /** One more event: a push to b adds its chunk, anything else adds nothing. */
  lemma PushesToSnoc(log: seq<Event>, e: Event, b: Binding)
    ensures PushesTo(log + [e], b) == PushesTo(log, b) + (if e.Pushed? && e.to == b then [e.chunk] else [])
  {
    assert (log + [e])[..|log|] == log;
  }

  /** A fresh world with the echo test port registered, and a binding built with both capabilities. */
  method Setup() returns (w: World, b: Binding)
    ensures fresh(w) && fresh(b)
    ensures w.Valid() && w.paths == [TestPort()] && TestPort() in w.ports && fresh(w.ports[TestPort()])
    ensures w.queue == [] && w.log == []
    ensures w.ports[TestPort()].echo && w.ports[TestPort()].readyData == DefaultReadyData
    ensures w.ports[TestPort()].data == [] && w.ports[TestPort()].openOpt == None
    ensures !b.isOpen && !b.flowing && b.port == null
  {
    w := new World();
    w.CreatePort(TestPort(), true, Some(DefaultReadyData));
    var made, thrown := Binding.Create(Capabilities());
    assert Get(Capabilities(), "disconnect") == Success(Function);
    b := made;
  }

  /** The oldest task is a callback with its result: run it. */
  method CallSettled(w: World)
    requires w.queue != [] && w.queue[0].Complete?
    modifies w
    ensures w.ports == old(w.ports) && w.paths == old(w.paths) && w.queue == old(w.queue[1..])
    ensures w.log == old(w.log) + [Called(old(w.queue[0].cb), old(w.queue[0].result))]
  {
    var f := w.Step(Idle());
  }

  /** The events of calling the callbacks of a queue that holds nothing else, in queue order. */
  function Calls(q: seq<Task>): (r: seq<Event>)
    requires forall i :: 0 <= i < |q| ==> q[i].Complete?
    ensures |r| == |q|
    ensures forall i :: 0 <= i < |q| ==> r[i] == Called(q[i].cb, q[i].result)
  {
    if q == [] then [] else Calls(q[..|q| - 1]) + [Called(q[|q| - 1].cb, q[|q| - 1].result)]
  }

  /** Runs ticks until the queue, which holds only callbacks, is empty: each is called in turn. */
  method RunCallbacks(w: World)
    requires forall i :: 0 <= i < |w.queue| ==> w.queue[i].Complete?
    modifies w
    ensures w.ports == old(w.ports) && w.paths == old(w.paths) && w.queue == []
    ensures w.log == old(w.log) + Calls(old(w.queue))
  {
    ghost var q := w.queue;
    ghost var i := 0;
    while w.queue != []
      invariant 0 <= i <= |q| && w.queue == q[i..]
      invariant w.ports == old(w.ports) && w.paths == old(w.paths)
      invariant w.log == old(w.log) + Calls(q[..i])
      decreases |w.queue|
    {
      CallSettled(w);
      assert q[..i + 1][..i] == q[..i];
      i := i + 1;
    }
    assert q[..i] == q;
  }

  /** Five callbacks, called in order. */
  lemma CallsOfFive(q: seq<Task>)
    requires |q| == 5 && forall i :: 0 <= i < 5 ==> q[i].Complete?
    ensures Calls(q) == [Called(q[0].cb, q[0].result), Called(q[1].cb, q[1].result), Called(q[2].cb, q[2].result),
                         Called(q[3].cb, q[3].result), Called(q[4].cb, q[4].result)]
  {
  }

  /** open's first tick runs: the binding is open, and open's second tick waits behind the queue. */
  method ActivateStep(w: World, b: Binding, port: Port, cb: Callback)
    requires w.queue != [] && w.queue[0] == Activate(b, port, cb)
    modifies w, b
    ensures w.ports == old(w.ports) && w.paths == old(w.paths) && w.log == old(w.log)
    ensures w.queue == old(w.queue[1..]) + [Announce(b, port, cb)]
    ensures b.isOpen && b.flowing == old(b.flowing) && b.port == old(b.port)
  {
    var f := w.Step(Idle());
  }

  /** open's second tick on an echo port: readyData joins the buffer, then open's callback gets null. */
  method AnnounceStep(w: World, b: Binding, port: Port, cb: Callback)
    requires w.queue != [] && w.queue[0] == Announce(b, port, cb)
    requires b.isOpen && b.port == port && port.echo
    modifies w, port
    ensures w.ports == old(w.ports) && w.paths == old(w.paths)
    ensures w.log == old(w.log) + [Called(cb, Done(None))]
    ensures PushesTo(w.log, b) == PushesTo(old(w.log), b)
    ensures w.queue == old(w.queue[1..]) + (if b.flowing then [Delivery(b)] else [])
    ensures port.data == old(port.data) + port.readyData
    ensures port.lastWrite == old(port.lastWrite) && port.openOpt == old(port.openOpt)
  {
    var f := w.Step(Idle());
    PushesToSnoc(old(w.log), Called(cb, Done(None)), b);
  }

  /** close's tick: the port is reset, the binding lets go of it, and close's callback waits behind the queue. */
  method ReleaseStep(w: World, b: Binding, port: Port, cb: Callback)
    requires w.queue != [] && w.queue[0] == Release(b, port, cb)
    modifies w, b, port
    ensures w.ports == old(w.ports) && w.paths == old(w.paths) && w.log == old(w.log)
    ensures w.queue == old(w.queue[1..]) + [Complete(cb, Done(None))]
    ensures !b.isOpen && !b.flowing && b.port == null
    ensures port.data == [] && port.openOpt == None && port.lastWrite == old(port.lastWrite)
  {
    var f := w.Step(Idle());
  }

  /** A write's echo tick on an open binding: the bytes join the buffer, and a delivery is queued if flowing. */
  method EchoStep(w: World, b: Binding, data: Bytes)
    requires w.queue != [] && w.queue[0] == Echo(b, data)
    requires b.isOpen && b.port != null
    modifies w, b.port
    ensures w.ports == old(w.ports) && w.paths == old(w.paths) && w.log == old(w.log)
    ensures w.queue == old(w.queue[1..]) + (if b.flowing then [Delivery(b)] else [])
    ensures b.port.data == old(b.port.data) + data
    ensures b.port.lastWrite == old(b.port.lastWrite) && b.port.openOpt == old(b.port.openOpt)
  {
    var f := w.Step(Idle());
  }

  /** A callback's tick that adds no push to the log. */
  method CallbackStep(w: World, b: Binding, cb: Callback)
    requires w.queue != [] && w.queue[0] == Complete(cb, Done(None))
    modifies w
    ensures w.ports == old(w.ports) && w.paths == old(w.paths) && w.queue == old(w.queue[1..])
    ensures w.log == old(w.log) + [Called(cb, Done(None))]
    ensures PushesTo(w.log, b) == PushesTo(old(w.log), b)
  {
    CallSettled(w);
    PushesToSnoc(old(w.log), Called(cb, Done(None)), b);
  }

  /** open on an echo port nobody holds locked, run until its callback has been called. */
  method OpenSettled(w: World, b: Binding, path: string, opt: Value, cb: Callback)
    requires w.queue == [] && path in w.ports && w.ports[path].echo
    requires !LockHeld(w.ports[path].openOpt) && !b.isOpen && !b.flowing
    modifies w, b, w.ports[path]
    ensures w.ports == old(w.ports) && w.paths == old(w.paths) && w.queue == []
    ensures w.log == old(w.log) + [Called(cb, Done(None))]
    ensures PushesTo(w.log, b) == PushesTo(old(w.log), b)
    ensures b.isOpen && !b.flowing && b.port == w.ports[path]
    ensures b.port.data == old(w.ports[path].data) + b.port.readyData
    ensures b.port.openOpt == Some(opt) && b.port.lastWrite == old(w.ports[path].lastWrite)
  {
    var port := w.ports[path];
    assert w.Lookup(path) == port;
    b.Open(w, path, opt, cb);
    ActivateStep(w, b, port, cb);
    AnnounceStep(w, b, port, cb);
  }

  /** close on a binding holding a port, run until its callback has been called. */
  method CloseSettled(w: World, b: Binding, cb: Callback)
    requires w.queue == [] && b.port != null
    modifies w, b, b.port
    ensures w.ports == old(w.ports) && w.paths == old(w.paths) && w.queue == []
    ensures w.log == old(w.log) + [Called(cb, Done(None))]
    ensures PushesTo(w.log, b) == PushesTo(old(w.log), b)
    ensures !b.isOpen && !b.flowing && b.port == null
    ensures old(b.port).data == [] && old(b.port).openOpt == None && old(b.port).lastWrite == old(b.port.lastWrite)
  {
    var port := b.port;
    b.Close(w, cb);
    ReleaseStep(w, b, port, cb);
    CallbackStep(w, b, cb);
  }

  /** The write callback of "pushes data that's already available": _read, then the echo arrives. */
  method WriteThenRead(w: World, b: Binding, data: Bytes, cb: Callback)
    requires w.queue == [] && b.isOpen && !b.flowing && b.port != null && b.port.echo
    modifies w, b, b.port
    ensures w.ports == old(w.ports) && w.paths == old(w.paths)
    ensures w.queue == [Delivery(b), Delivery(b)]
    ensures w.log == old(w.log) + [Called(cb, Done(None))]
    ensures PushesTo(w.log, b) == PushesTo(old(w.log), b)
    ensures b.isOpen && b.flowing && b.port == old(b.port)
    ensures b.port.data == old(b.port.data) + data && b.port.lastWrite == Some(data)
    ensures b.port.openOpt == old(b.port.openOpt)
  {
    var thrown := b.Write(w, Buffer(data), cb);
    CallbackStep(w, b, cb);
    thrown := b.Read(w);
    EchoStep(w, b, data);
  }

  /** _read called from open's callback: flowing is on and a delivery of the buffer is queued. */
  method ReadSettled(w: World, b: Binding)
    requires w.queue == [] && b.isOpen && b.port != null
    modifies w, b, b.port
    ensures w.ports == old(w.ports) && w.paths == old(w.paths) && w.log == old(w.log)
    ensures w.queue == [Delivery(b)]
    ensures b.isOpen && b.flowing && b.port == old(b.port)
    ensures b.port.data == old(b.port.data) && b.port.lastWrite == old(b.port.lastWrite)
    ensures b.port.openOpt == old(b.port.openOpt)
  {
    var thrown := b.Read(w);
  }

  /** The delivery runs on a non-empty buffer and push returns `more`, feeding nothing back. */
  method PushSettled(w: World, b: Binding, more: bool)
    requires w.queue != [] && w.queue[0] == Delivery(b) && b.isOpen && b.port != null && b.port.data != []
    modifies w, b, b.port
    ensures w.ports == old(w.ports) && w.paths == old(w.paths) && w.queue == old(w.queue[1..])
    ensures w.log == old(w.log) + [Pushed(b, old(b.port.data))]
    ensures PushesTo(w.log, b) == PushesTo(old(w.log), b) + [old(b.port.data)]
    ensures b.isOpen && b.flowing == more && b.port == old(b.port)
    ensures b.port.data == [] && b.port.lastWrite == old(b.port.lastWrite)
    ensures b.port.openOpt == old(b.port.openOpt)
  {
    var f := w.Step(Reply(more, None));
    PushesToSnoc(old(w.log), Pushed(b, old(b.port.data)), b);
  }

  /** write on an open echo port, run until its callback has been called and the echo has arrived. */
  method EchoSettled(w: World, b: Binding, data: Bytes, cb: Callback)
    requires w.queue == [] && b.isOpen && b.port != null && b.port.echo
    modifies w, b.port
    ensures w.ports == old(w.ports) && w.paths == old(w.paths)
    ensures w.queue == if b.flowing then [Delivery(b)] else []
    ensures w.log == old(w.log) + [Called(cb, Done(None))]
    ensures PushesTo(w.log, b) == PushesTo(old(w.log), b)
    ensures b.port.data == old(b.port.data) + data && b.port.lastWrite == Some(data)
    ensures b.port.openOpt == old(b.port.openOpt)
  {
    var thrown := b.Write(w, Buffer(data), cb);
    CallbackStep(w, b, cb);
    EchoStep(w, b, data);
  }

  /** A fresh world whose echo test port `b` has opened with defaultPortOpenOptions (lock as given); open's callback 1 has run. */
  method OpenedSession(lock: bool) returns (w: World, b: Binding, port: Port)
    ensures fresh(w) && fresh(b) && fresh(port)
    ensures w.Valid() && w.paths == [TestPort()] && w.ports == map[TestPort() := port]
    ensures w.queue == [] && w.log == [Called(1, Done(None))] && PushesTo(w.log, b) == []
    ensures b.isOpen && !b.flowing && b.port == port
    ensures port.echo && port.readyData == DefaultReadyData && port.data == DefaultReadyData
    ensures port.openOpt == Some(OpenOptions(lock))
  {
    w, b := Setup();
    port := w.ports[TestPort()];
    OpenSettled(w, b, TestPort(), OpenOptions(lock), 1);
    assert PushesTo([], b) == [];
  }

  /** A delivery that finds the buffer empty: nothing is pushed and nothing changes. */
  method EmptyDelivery(w: World, b: Binding)
    requires w.queue != [] && w.queue[0] == Delivery(b) && b.port != null && b.port.data == []
    modifies w, b, b.port
    ensures w.ports == old(w.ports) && w.paths == old(w.paths) && w.queue == old(w.queue[1..])
    ensures w.log == old(w.log)
    ensures b.isOpen == old(b.isOpen) && b.flowing == old(b.flowing) && b.port == old(b.port)
    ensures b.port.data == [] && b.port.lastWrite == old(b.port.lastWrite) && b.port.openOpt == old(b.port.openOpt)
  {
    var f := w.Step(Idle());
  }

  /** The log of "pushes data that's already available" holds one push, of READY and the echo. */
  lemma OnePush(b: Binding, chunk: Bytes)
    ensures PushesTo([Called(1, Done(None)), Called(2, Done(None)), Pushed(b, chunk), Called(3, Done(None))], b) == [chunk]
  {
    var e1, e2, e3, e4 := Called(1, Done(None)), Called(2, Done(None)), Pushed(b, chunk), Called(3, Done(None));
    PushesToSnoc([], e1, b);
    PushesToSnoc([e1], e2, b);
    assert [e1] + [e2] == [e1, e2];
    PushesToSnoc([e1, e2], e3, b);
    assert [e1, e2] + [e3] == [e1, e2, e3];
    PushesToSnoc([e1, e2, e3], e4, b);
    assert [e1, e2, e3] + [e4] == [e1, e2, e3, e4];
  }

  /** "pushes data that's already available": READY and the echo of the write reach push as one chunk. */
  method PushesDataAlreadyAvailable() returns (received: Bytes, pushes: nat)
    ensures received == DefaultReadyData + [0x01]
    ensures pushes == 1
  {
    var w, b, port := OpenedSession(true);
    WriteThenRead(w, b, [0x01], 2);
    assert port.data == DefaultReadyData + [0x01];
    assert w.log == [Called(1, Done(None)), Called(2, Done(None))];
    PushSettled(w, b, false);              // push has all six bytes: it closes and returns false
    assert w.queue == [Delivery(b)];
    EmptyDelivery(w, b);                   // the second delivery finds nothing to push
    CloseSettled(w, b, 3);
    assert w.log == [Called(1, Done(None)), Called(2, Done(None)), Pushed(b, DefaultReadyData + [0x01]), Called(3, Done(None))];
    var chunks := PushesTo(w.log, b);
    OnePush(b, DefaultReadyData + [0x01]);
    ConcatSnoc([], DefaultReadyData + [0x01]);
    received := Concat(chunks);
    pushes := |chunks|;
  }

  /**
   * "stops pushing when push returns false": push gets READY, writes [1] and answers false; the
   * echo then waits in the buffer, is never pushed, and close empties the buffer.
   */
  method StopsWhenPushReturnsFalse() returns (received: Bytes, pushes: nat, leftOver: Bytes)
    ensures received == DefaultReadyData && pushes == 1
    ensures leftOver == []
  {
    var w, b, port := OpenedSession(true);
    assert port.data == DefaultReadyData && PushesTo(w.log, b) == [];
    ReadSettled(w, b);
    PushSettled(w, b, false);            // push writes [1] from inside, then returns false
    assert PushesTo(w.log, b) == [DefaultReadyData];
    EchoSettled(w, b, [0x01], 2);
    assert w.queue == [] && port.data == [0x01];
    CloseSettled(w, b, 3);
    var chunks := PushesTo(w.log, b);
    assert chunks == [DefaultReadyData];
    ConcatSnoc([], DefaultReadyData);
    received := Concat(chunks);
    pushes := |chunks|;
    leftOver := port.data;
  }

  /**
   * "keeps pushing until push returns false": push answers true to READY (writing [1] from
   * inside), so the echo is delivered on its own, and push answers false to it.
   */
  method KeepsPushing() returns (received: Bytes, pushes: nat)
    ensures received == DefaultReadyData + [0x01] && pushes == 2
  {
    var w, b, port := OpenedSession(true);
    assert port.data == DefaultReadyData && PushesTo(w.log, b) == [];
    ReadSettled(w, b);
    PushSettled(w, b, true);             // READY: push writes [1], returns true
    EchoSettled(w, b, [0x01], 2);
    assert w.queue == [Delivery(b)] && port.data == [0x01];
    PushSettled(w, b, false);            // [1]: push writes [1] again, returns false
    assert PushesTo(w.log, b) == [DefaultReadyData, [0x01]];
    EchoSettled(w, b, [0x01], 3);
    CloseSettled(w, b, 4);
    var chunks := PushesTo(w.log, b);
    ConcatSnoc([], DefaultReadyData);
    ConcatSnoc([DefaultReadyData], [0x01]);
    assert [DefaultReadyData] + [[0x01]] == chunks;
    received := Concat(chunks);
    pushes := |chunks|;
  }

  /** While flowing, push writes [1] from inside: its echo arrives and is pushed on its own, and push answers `more`. */
  method EchoPushed(w: World, b: Binding, cb: Callback, more: bool)
    requires w.queue == [] && b.isOpen && b.flowing && b.port != null && b.port.echo && b.port.data == []
    modifies w, b, b.port
    ensures w.ports == old(w.ports) && w.paths == old(w.paths) && w.queue == []
    ensures PushesTo(w.log, b) == PushesTo(old(w.log), b) + [[0x01]]
    ensures b.isOpen && b.flowing == more && b.port == old(b.port)
    ensures b.port.data == [] && b.port.echo && b.port.openOpt == old(b.port.openOpt)
  {
    EchoSettled(w, b, [0x01], cb);
    assert b.port.data == [0x01];
    PushSettled(w, b, more);
  }

  /** The first three calls of "emits data after being stopped": READY and [1] answered true, then [1] answered false. */
  method StoppedAfterThree() returns (w: World, b: Binding, port: Port)
    ensures fresh(w) && fresh(b) && fresh(port) && w.ports == map[TestPort() := port]
    ensures w.queue == [] && PushesTo(w.log, b) == [DefaultReadyData, [0x01], [0x01]]
    ensures b.isOpen && !b.flowing && b.port == port
    ensures port.echo && port.data == []
  {
    w, b, port := OpenedSession(true);
    ReadSettled(w, b);
    PushSettled(w, b, true);             // call 1
    EchoPushed(w, b, 2, true);           // call 2
    EchoPushed(w, b, 3, false);          // call 3
  }

  /**
   * "emits data after being stopped": push answers true twice (writing [1] each time), then
   * false; the third echo waits in the buffer until the callback's deferred _read resumes the
   * flow and it is pushed as the fourth chunk.
   */
  method EmitsAfterBeingStopped() returns (chunks: seq<Bytes>)
    ensures chunks == [DefaultReadyData, [0x01], [0x01], [0x01]]
  {
    var w, b, port := StoppedAfterThree();
    EchoSettled(w, b, [0x01], 4);        // the callback defers _read behind the echo
    assert w.queue == [] && port.data == [0x01];
    ReadSettled(w, b);
    PushSettled(w, b, false);            // call 4: push closes the binding
    CloseSettled(w, b, 5);
    chunks := PushesTo(w.log, b);
  }

  /** "is true after open and false after close": isOpen at each point, and what both callbacks got. */
  method IsOpenAcrossOpenAndClose() returns (before: bool, afterOpen: bool, afterClose: bool, calls: seq<Event>)
    ensures !before && afterOpen && !afterClose
    ensures calls == [Called(1, Done(None)), Called(2, Done(None))]
  {
    var w, b := Setup();
    before := b.isOpen;
    OpenSettled(w, b, TestPort(), OpenOptions(true), 1);
    afterOpen := b.isOpen;
    CloseSettled(w, b, 2);
    afterClose := b.isOpen;
    calls := w.log;
  }

  /** "errors when providing a bad port": a MissingPortError naming the path, given at once, and still closed. */
  method OpensBadPort() returns (err: Option<Error>, calledAt: nat, isOpen: bool)
    ensures err.Some? && err.value.kind == MissingPortError && "COMBAD" <= err.value.message
    ensures calledAt == 0
    ensures !isOpen
  {
    var w, b := Setup();
    b.Open(w, "COMBAD", OpenOptions(true), 1);
    assert w.log == [Called(1, Done(Some(MissingPort("COMBAD"))))];
    err := w.log[0].result.err;
    calledAt := |w.queue|;               // nothing was queued: the callback ran synchronously
    isOpen := b.isOpen;
  }

  /** defaultPortOpenOptions hold the lock; with lock: false they do not. */
  lemma LockOfOpenOptions()
    ensures LockHeld(Some(OpenOptions(true)))
    ensures !LockHeld(Some(OpenOptions(false)))
  {
    assert OpenOptions(true).props["lock"] == Boolean(true);
    assert OpenOptions(false).props["lock"] == Boolean(false);
  }

  /** A fresh binding opens the test port while another session holds it with lock: true. */
  method RefusedOpen(w: World, b2: Binding, port: Port, cb: Callback)
    requires w.ports == map[TestPort() := port] && w.queue == []
    requires LockHeld(port.openOpt) && !b2.isOpen && b2.port == null
    modifies w, b2, port
    ensures w.ports == old(w.ports) && w.paths == old(w.paths) && w.queue == []
    ensures w.log == old(w.log) + [Called(cb, Done(Some(Locked)))]
    ensures !b2.isOpen && b2.flowing == old(b2.flowing) && b2.port == port
    ensures port.openOpt == old(port.openOpt) && port.data == old(port.data) && port.lastWrite == old(port.lastWrite)
  {
    assert w.Lookup(TestPort()) == port;
    b2.Open(w, TestPort(), OpenOptions(true), cb);
  }

  /**
   * "locks the port by default": a second binding's open on a port opened with lock: true fails
   * at once and stays closed, and the first session's options are kept.
   */
  method LocksByDefault() returns (err: Option<Error>, secondOpen: bool, firstOpen: bool, kept: Option<Value>)
    ensures err == Some(Locked)
    ensures !secondOpen && firstOpen
    ensures kept == Some(OpenOptions(true))
  {
    var w, b, port := OpenedSession(true);
    var b2 := new Binding();
    LockOfOpenOptions();
    RefusedOpen(w, b2, port, 2);
    assert w.log == [Called(1, Done(None)), Called(2, Done(Some(Locked)))];
    err := w.log[1].result.err;
    secondOpen := b2.isOpen;
    firstOpen := b.isOpen;
    kept := w.ports[TestPort()].openOpt;
  }

  /**
   * The refused binding still holds the port, so its close succeeds and resets the port under
   * the first session, which stays open: the lock is gone and a third binding's open succeeds.
   */
  method RefusedBindingReleasesLock() returns (closeErr: Option<Error>, firstOpen: bool, opt: Option<Value>, buffered: Bytes, thirdOpen: bool)
    ensures closeErr == None && firstOpen
    ensures opt == None && buffered == []
    ensures thirdOpen
  {
    var w, b, port := OpenedSession(true);
    var b2 := new Binding();
    LockOfOpenOptions();
    RefusedOpen(w, b2, port, 2);
    CloseSettled(w, b2, 3);
    closeErr := w.log[|w.log| - 1].result.err;
    firstOpen := b.isOpen;
    opt := port.openOpt;
    buffered := port.data;
    var b3 := new Binding();
    OpenSettled(w, b3, TestPort(), OpenOptions(true), 4);
    thirdOpen := b3.isOpen;
  }

  /** "can unlock the port": with lock: false a second binding opens the same port, and both close cleanly. */
  method CanUnlock() returns (bothOpen: bool, calls: seq<Event>)
    ensures bothOpen
    ensures calls == [Called(1, Done(None)), Called(2, Done(None)), Called(3, Done(None)), Called(4, Done(None))]
  {
    var w, b, port := OpenedSession(false);
    var b2 := new Binding();
    assert !LockHeld(w.ports[TestPort()].openOpt);
    OpenSettled(w, b2, TestPort(), OpenOptions(false), 2);
    bothOpen := b.isOpen && b2.isOpen;
    CloseSettled(w, b, 3);
    CloseSettled(w, b2, 4);
    calls := w.log;
  }

  /** "errors when already closed": close on a binding that never opened reports an error on the next tick. */
  method ClosesWhenAlreadyClosed() returns (sync: seq<Event>, calls: seq<Event>)
    ensures sync == []
    ensures calls == [Called(1, Done(Some(AlreadyClosed)))]
  {
    var w, b := Setup();
    b.Close(w, 1);
    sync := w.log;
    var f := w.Step(Idle());
    calls := w.log;
  }

  /** defaultSetFlags. */
  function SetFlags(): Value {
    Object(map["brk" := Boolean(false), "cts" := Boolean(false), "dtr" := Boolean(true),
                               "dts" := Boolean(false), "rts" := Boolean(true)])
  }

  /** update, write, drain, flush, set and _read, in that order, on a binding that never opened. */
  method CallClosed(w: World, b: Binding) returns (readThrown: Option<Error>)
    requires w.queue == [] && w.log == [] && !b.isOpen && b.port == null
    modifies w, b
    ensures w.ports == old(w.ports) && w.paths == old(w.paths) && w.log == []
    ensures readThrown == Some(ClosedPort("_read"))
    ensures w.queue == [Complete(1, Done(Some(ClosedPort("update")))), Complete(2, Done(Some(ClosedPort("write")))),
                        Complete(3, Done(Some(ClosedPort("drain")))), Complete(4, Done(Some(ClosedPort("flush")))),
                        Complete(5, Done(Some(ClosedPort("set"))))]
  {
    var t := b.Update(w, Object(map["baudRate" := Number(9600)]), 1);
    t := b.Write(w, Buffer([]), 2);
    b.Drain(w, 3);
    b.Flush(w, 4);
    t := b.Set(w, SetFlags(), 5);
    readThrown := b.Read(w);
  }

  /**
   * The "errors when not open" tests: on a binding that never opened, update, write, drain,
   * flush and set each give their callback a ClosedPortError naming the method on a later
   * tick, in call order; _read throws one instead; nothing else is touched.
   */
  method ClosedOperationsReport() returns (readThrown: Option<Error>, sync: seq<Event>, calls: seq<Event>)
    ensures readThrown == Some(ClosedPort("_read"))
    ensures sync == []
    ensures calls == [Called(1, Done(Some(ClosedPort("update")))), Called(2, Done(Some(ClosedPort("write")))),
                      Called(3, Done(Some(ClosedPort("drain")))), Called(4, Done(Some(ClosedPort("flush")))),
                      Called(5, Done(Some(ClosedPort("set"))))]
  {
    var w, b := Setup();
    readThrown := CallClosed(w, b);
    sync := w.log;
    ghost var q := w.queue;
    RunCallbacks(w);
    calls := w.log;
    CallsOfFive(q);
  }

  /**
   * Argument checks throw before anything else, on an open binding too: update({}) for the
   * missing baud rate, set and write given a function or null. Nothing is queued.
   */
  method ValidationThrows() returns (noBaud: Option<Error>, setFn: Option<Error>, writeNull: Option<Error>, queued: nat)
    ensures noBaud == Some(MissingBaudRate)
    ensures setFn.Some? && setFn.value.kind == TypeError
    ensures writeNull.Some? && writeNull.value.kind == TypeError
    ensures queued == 0
  {
    var w, b, port := OpenedSession(true);
    noBaud := b.Update(w, Object(map[]), 2);
    setFn := b.Set(w, Function, 3);
    writeNull := b.Write(w, Null, 4);
    queued := |w.queue|;
  }

  /** "updates baudRate": only the recorded baud rate changes, and the callback gets null. */
  method UpdatesBaudRate() returns (opt: Option<Value>, calls: seq<Event>)
    ensures opt == Some(Object(OpenOptions(true).props["baudRate" := Number(57600)]))
    ensures calls == [Called(1, Done(None)), Called(2, Done(None))]
  {
    var w, b, port := OpenedSession(true);
    var thrown := b.Update(w, Object(map["baudRate" := Number(57600)]), 2);
    var f := w.Step(Idle());
    opt := b.port.openOpt;
    calls := w.log;
  }

  /**
   * A delivery queued by _read behind a close runs after the close has cleared the binding's
   * port reference, and throws reading `data` of undefined.
   */
  method DeliveryAfterClose() returns (fault: Option<Error>)
    ensures fault == Some(CannotRead("data", "undefined"))
  {
    var w, b, port := OpenedSession(true);
    b.Close(w, 2);
    var t := b.Read(w);                  // still open until close's tick runs
    assert w.queue == [Release(b, w.ports[TestPort()], 2), Delivery(b)];
    var f := w.Step(Idle());
    assert w.queue == [Delivery(b), Complete(2, Done(None))] && b.port == null;
    fault := w.Step(Idle());
  }

  /** createPort a, b, then a again: the second record for a replaces the first but keeps its place. */
  method RegisterTwice(a: string, b: string) returns (w: World)
    requires a != b
    ensures fresh(w) && w.Valid() && w.paths == [a, b] && w.queue == [] && w.log == []
  {
    w := new World();
    w.CreatePort(a, true, None);
    assert w.paths == [a];
    w.CreatePort(b, false, None);
    assert w.paths == [a] + [b] == [a, b];
    assert a in w.ports;
    w.CreatePort(a, false, Some([0x01]));
  }

  /** list gives the registered comNames in registration order, on a later tick. */
  method ListsPorts(a: string, b: string) returns (sync: seq<Event>, listed: seq<Event>)
    requires a != b
    ensures sync == []
    ensures listed == [Called(1, Listed([PortInfo(a), PortInfo(b)]))]
  {
    var w := RegisterTwice(a, b);
    var infos := w.Listing();
    assert infos == [PortInfo(a), PortInfo(b)];
    w.List(1);
    sync := w.log;
    CallSettled(w);
    listed := w.log;
  }

  /** After reset, list gives an empty listing. */
  method ListsNothingAfterReset() returns (listed: seq<Event>)
    ensures listed == [Called(1, Listed([]))]
  {
    var w := new World();
    w.CreatePort("/dev/a", true, None);
    w.Reset();
    var infos := w.Listing();
    assert infos == [];
    w.List(1);
    assert w.queue == [Complete(1, Listed(infos))];
    CallSettled(w);
    listed := w.log;
  }

  /** The constructor tests: both capabilities make a closed binding; a missing one is a TypeError. */
  method ConstructorChecks() returns (made: bool, noDisconnect: Option<Error>, noPush: Option<Error>)
    ensures made
    ensures noDisconnect.Some? && noDisconnect.value.kind == TypeError
    ensures noPush == Some(Error(TypeError, "options.push is not a function"))
  {
    var b, thrown := Binding.Create(Capabilities());
    assert Get(Capabilities(), "push") == Success(Function);
    made := b != null && !b.isOpen && !b.flowing;
    var b1, t1 := Binding.Create(Object(map["push" := Function]));
    noDisconnect := t1;
    var b2, t2 := Binding.Create(Object(map["disconnect" := Function]));
    noPush := t2;
  }
}
