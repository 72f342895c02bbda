/**
 * The flow-control data path of one binding against its port, on values: the port's pending
 * bytes, the binding's `flowing` flag, what emitData does to them when bytes arrive, and what
 * the deferred delivery does when it runs. The mock's World.Step and Binding.EmitData are
 * specified through these functions. `Play` runs any sequence of arrivals, `_read`s and
 * deliveries on a binding that is open or closed throughout. Conservation is proved for every
 * such sequence in which push returns and feeds nothing back; the other lemmas are about the
 * sequences they name.
 */
module Flow {
  import opened Wrappers
  import opened Errors
  import opened Values

  /**
   * What the consumer's `push` does with one chunk: either it returns `more`, having handed
   * `fed` back to the binding's emitData synchronously if it did so, or it throws `error`.
   */
  datatype Reply =
    | Reply(more: bool, fed: Option<Bytes>)
    | Throw(error: Error)

  /** The port's pending bytes and the binding's `flowing` flag. */
  datatype Line = Line(pending: Bytes, flowing: bool)

  /** emitData on an open binding with a port: arriving bytes go after the pending ones; `flowing` is untouched. */
  function Arrive(l: Line, data: Option<Bytes>): (r: Line)
    ensures r.flowing == l.flowing
    ensures l.pending <= r.pending
    ensures data.Some? ==> r.pending[|l.pending|..] == data.value
    ensures data.None? ==> r == l
  {
    if data.Some? then Line(l.pending + data.value, l.flowing) else l
  }

  /**
   * One run of the delivery task: the new line, the chunk handed to push (if any), whether it
   * scheduled another run, and the exception escaping it (push's own, if push threw).
   */
  datatype Delivered = Delivered(line: Line, chunk: Option<Bytes>, again: bool, fault: Option<Error>)

  /**
   * The delivery task with the port reference set, for a binding whose isOpen is `open`. It does
   * not look at `flowing`: a non-empty buffer is pushed whole, `flowing` becomes push's answer,
   * and only then is the buffer emptied, so bytes fed back during push are dropped. When push
   * throws, neither assignment happens and the exception escapes the delivery.
   */
  function Deliver(l: Line, open: bool, r: Reply): (d: Delivered)
    ensures d.chunk == (if l.pending == [] then None else Some(l.pending))
    ensures d.fault.Some? <==> l.pending != [] && r.Throw?
    ensures d.fault.Some? ==> d.fault == Some(r.error) && d.line == l
    ensures d.fault.None? ==> d.line.pending == []
    ensures d.fault.None? ==> d.line.flowing == (if l.pending == [] then l.flowing else r.more)
    ensures d.again <==> l.pending != [] && open && l.flowing && r.Reply? && r.fed.Some?
  {
    if l.pending == [] then Delivered(l, None, false, None)
    else match r
      case Throw(e) =>
        // `this.flowing = this.push(...)` throws before assigning; the buffer is kept
        Delivered(l, Some(l.pending), false, Some(e))
      case Reply(more, fed) =>
        // push runs with the whole buffer; a re-entrant emitData appends behind it and may schedule again
        var during := if open then Arrive(l, fed) else l;
        var again := open && fed.Some? && during.flowing;
        // `this.flowing = this.push(...)`, then `this.port.data = new Buffer(0)`
        Delivered(Line([], more), Some(l.pending), again, None)
  }

  /** The chunks of a delivery, as a list of zero or one push. */
  function Chunks(d: Delivered): seq<Bytes> {
    if d.chunk.Some? then [d.chunk.value] else []
  }

  /** The bytes of a sequence of chunks, in order. */
  function Concat(chunks: seq<Bytes>): Bytes {
    if chunks == [] then [] else Concat(chunks[..|chunks| - 1]) + chunks[|chunks| - 1]
  }

  /** What happens to one binding's line: bytes arrive, `_read` resumes, or a delivery task runs. */
  datatype Signal = Arrival(data: Option<Bytes>) | Resume | Run(reply: Reply)

  /** The bytes one signal brings to a binding whose isOpen is `open`: a closed one drops them. */
  function Brings(open: bool, sig: Signal): Bytes {
    if open && sig.Arrival? && sig.data.Some? then sig.data.value else []
  }

  /** The bytes that arrive in a sequence of signals and are kept, in order. */
  function Arrived(open: bool, s: seq<Signal>): Bytes {
    if s == [] then [] else Arrived(open, s[..|s| - 1]) + Brings(open, s[|s| - 1])
  }

  /** A signal whose push, if it calls one, returns and feeds no bytes back from inside. */
  predicate PlainSignal(sig: Signal) {
    match sig
    case Run(r) => r.Reply? && r.fed.None?
    case _ => true
  }

  /** push always returns, and never feeds bytes back from inside. */
  predicate PlainPushes(s: seq<Signal>) {
    forall i :: 0 <= i < |s| ==> PlainSignal(s[i])
  }

  datatype Trace = Trace(line: Line, pushed: seq<Bytes>)

  /**
   * One signal's effect on the line and on the chunks pushed so far, for a binding whose isOpen
   * is `open`: on a closed binding emitData returns at once and `_read` throws before it sets
   * `flowing`, so neither changes anything.
   */
  function Apply(t: Trace, open: bool, sig: Signal): Trace {
    match sig
    case Arrival(data) => if open then Trace(Arrive(t.line, data), t.pushed) else t
    case Resume => if open then Trace(t.line.(flowing := true), t.pushed) else t
    case Run(r) => var d := Deliver(t.line, open, r); Trace(d.line, t.pushed + Chunks(d))
  }

  /** The line after a sequence of signals, and every chunk pushed on the way. */
  function Play(l: Line, open: bool, s: seq<Signal>): Trace {
    if s == [] then Trace(l, []) else Apply(Play(l, open, s[..|s| - 1]), open, s[|s| - 1])
  }

  /** A non-empty sequence of signals plays its prefix, then applies its last signal. */
  lemma PlayLast(l: Line, open: bool, s: seq<Signal>)
    requires s != []
    ensures Play(l, open, s) == Apply(Play(l, open, s[..|s| - 1]), open, s[|s| - 1])
    ensures Arrived(open, s) == Arrived(open, s[..|s| - 1]) + Brings(open, s[|s| - 1])
  {
  }

  /** Playing one more signal applies it to the trace played so far. */
  lemma PlaySnoc(l: Line, open: bool, s: seq<Signal>, sig: Signal)
    ensures Play(l, open, s + [sig]) == Apply(Play(l, open, s), open, sig)
    ensures Arrived(open, s + [sig]) == Arrived(open, s) + Brings(open, sig)
  {
    assert (s + [sig])[..|s|] == s;
  }

  lemma {:induction false} ConcatSnoc(chunks: seq<Bytes>, c: Bytes)
    ensures Concat(chunks + [c]) == Concat(chunks) + c
  {
    assert (chunks + [c])[..|chunks|] == chunks;
  }

  /** Every byte a trace accounts for: the chunks pushed, in order, followed by what is still pending. */
  function Total(t: Trace): Bytes {
    Concat(t.pushed) + t.line.pending
  }

  /** One signal whose push returns and feeds nothing back adds exactly the bytes it brings to the total. */
  lemma ApplyConserves(t: Trace, open: bool, sig: Signal)
    requires PlainSignal(sig)
    ensures Total(Apply(t, open, sig)) == Total(t) + Brings(open, sig)
  {
    match sig
    case Arrival(data) =>
      if open && data.Some? {
        assert Apply(t, open, sig).line.pending == t.line.pending + data.value;
      }
    case Resume =>
    case Run(r) =>
      var d := Deliver(t.line, open, r);
      if d.chunk.Some? {
        ConcatSnoc(t.pushed, d.chunk.value);
      } else {
        assert t.pushed + Chunks(d) == t.pushed;
      }
  }

  /**
   * Nothing is lost and nothing is duplicated: as long as push returns and the consumer feeds
   * nothing back from inside it, the pushed chunks followed by what is still pending are exactly
   * the bytes that were pending at the start followed by every arrival, in arrival order.
   */
  lemma {:induction false} Conservation(l: Line, open: bool, s: seq<Signal>)
    requires PlainPushes(s)
    ensures Total(Play(l, open, s)) == l.pending + Arrived(open, s)
  {
    if s != [] {
      var init, last := s[..|s| - 1], s[|s| - 1];
      PlainPushesPrefix(s);
      Conservation(l, open, init);
      PlayLast(l, open, s);
      var t := Play(l, open, init);
      ApplyConserves(t, open, last);
      Regroup(Total(t), Total(Play(l, open, s)), l.pending, Arrived(open, init), Brings(open, last));
    }
  }

  /** Adding bytes behind a total that is `start + before` gives `start + (before + more)`. */
  lemma Regroup(total: Bytes, next: Bytes, start: Bytes, before: Bytes, more: Bytes)
    requires total == start + before && next == total + more
    ensures next == start + (before + more)
  {
  }

  lemma PlainPushesPrefix(s: seq<Signal>)
    requires s != [] && PlainPushes(s)
    ensures PlainPushes(s[..|s| - 1]) && PlainSignal(s[|s| - 1])
  {
    var init := s[..|s| - 1];
    forall i | 0 <= i < |init| ensures PlainSignal(init[i]) {
      assert init[i] == s[i];
    }
  }

  /** Only arrivals in `s`. */
  predicate OnlyArrivals(s: seq<Signal>) {
    forall i :: 0 <= i < |s| ==> s[i].Arrival?
  }

  lemma OnlyArrivalsPrefix(s: seq<Signal>)
    requires s != [] && OnlyArrivals(s)
    ensures OnlyArrivals(s[..|s| - 1]) && s[|s| - 1].Arrival?
  {
    var init := s[..|s| - 1];
    forall i | 0 <= i < |init| ensures init[i].Arrival? {
      assert init[i] == s[i];
    }
  }

  /**
   * How many delivery runs one signal queues, given the line it meets: emitData queues one
   * exactly when the binding is open and flowing, `_read` queues one when the binding is open,
   * and a run queues another only through bytes fed back from inside push.
   */
  function Queues(l: Line, open: bool, sig: Signal): nat {
    match sig
    case Arrival(_) => if open && l.flowing then 1 else 0
    case Resume => if open then 1 else 0
    case Run(r) => if Deliver(l, open, r).again then 1 else 0
  }

  /** The delivery runs a sequence of signals queues, in total. */
  function Scheduled(l: Line, open: bool, s: seq<Signal>): nat {
    if s == [] then 0
    else Scheduled(l, open, s[..|s| - 1]) + Queues(Play(l, open, s[..|s| - 1]).line, open, s[|s| - 1])
  }

  /** While not flowing, arrivals only accumulate: in order, nothing pushed, still paused. */
  lemma PausedAccumulates(l: Line, open: bool, s: seq<Signal>)
    requires !l.flowing
    requires OnlyArrivals(s)
    ensures Play(l, open, s).line == Line(l.pending + Arrived(open, s), false)
    ensures Play(l, open, s).pushed == []
  {
    PausedStaysQuiet(l, open, s);
    assert PlainPushes(s) by {
      forall i | 0 <= i < |s| ensures PlainSignal(s[i]) {
        assert s[i].Arrival?;
      }
    }
    Conservation(l, open, s);
  }

  /** While not flowing, arrivals queue no delivery, so nothing is pushed and the flow stays off. */
  lemma {:induction false} PausedStaysQuiet(l: Line, open: bool, s: seq<Signal>)
    requires !l.flowing
    requires OnlyArrivals(s)
    ensures Scheduled(l, open, s) == 0
    ensures !Play(l, open, s).line.flowing && Play(l, open, s).pushed == []
  {
    if s != [] {
      OnlyArrivalsPrefix(s);
      PausedStaysQuiet(l, open, s[..|s| - 1]);
    }
  }

  /** While flowing, every arrival to an open binding queues a delivery of its own, and the flow stays on. */
  lemma {:induction false} FlowingQueuesEach(l: Line, open: bool, s: seq<Signal>)
    requires l.flowing
    requires OnlyArrivals(s)
    ensures Scheduled(l, open, s) == if open then |s| else 0
    ensures Play(l, open, s).line.flowing
  {
    if s != [] {
      OnlyArrivalsPrefix(s);
      FlowingQueuesEach(l, open, s[..|s| - 1]);
    }
  }

  /** No delivery runs in `s`. */
  predicate NoRuns(s: seq<Signal>) {
    forall i :: 0 <= i < |s| ==> !s[i].Run?
  }

  /** On a closed binding, arrivals and `_read`s change nothing and queue nothing. */
  lemma {:induction false} ClosedIgnoresSignals(l: Line, s: seq<Signal>)
    requires NoRuns(s)
    ensures Play(l, false, s) == Trace(l, [])
    ensures Scheduled(l, false, s) == 0
  {
    if s != [] {
      var init := s[..|s| - 1];
      assert NoRuns(init) by {
        forall i | 0 <= i < |init| ensures !init[i].Run? {
          assert init[i] == s[i];
        }
      }
      assert !s[|s| - 1].Run?;
      ClosedIgnoresSignals(l, init);
    }
  }

  /**
   * Resuming after a pause delivers the backlog undivided: the bytes that were pending and those
   * that arrived while paused go to push as one chunk, and, when push returns, the buffer is left
   * empty and `flowing` is push's answer.
   */
  lemma ResumeDeliversBacklog(l: Line, open: bool, s: seq<Signal>, r: Reply)
    requires !l.flowing
    requires OnlyArrivals(s)
    requires l.pending + Arrived(open, s) != []
    ensures Play(l, open, s + [Resume, Run(r)]).pushed == [l.pending + Arrived(open, s)]
    ensures r.Reply? ==> Play(l, open, s + [Resume, Run(r)]).line == Line([], r.more)
  {
    PausedAccumulates(l, open, s);
    var backlog := l.pending + Arrived(open, s);
    var s1 := s + [Resume];
    assert s1[..|s1| - 1] == s;
    assert Play(l, open, s1) == Trace(Line(backlog, open), []);
    var s2 := s1 + [Run(r)];
    assert s2[..|s2| - 1] == s1;
    var d := Deliver(Line(backlog, open), open, r);
    assert Chunks(d) == [backlog];
    assert Play(l, open, s2) == Trace(d.line, [] + Chunks(d));
    assert s + [Resume, Run(r)] == s2;
  }

  /**
   * The delivery task does not re-check `flowing`: a run left in the queue from before a pause
   * still pushes whatever is pending, and its answer can turn `flowing` back on without `_read`.
   */
  lemma StaleRunPushesWhilePaused(pending: Bytes, open: bool, r: Reply)
    requires pending != []
    ensures Deliver(Line(pending, false), open, r).chunk == Some(pending)
    ensures r.Reply? ==> Deliver(Line(pending, false), open, r).line.flowing == r.more
  {
  }

  /** Bytes the consumer feeds back from inside push are lost: they reach neither the chunk nor the buffer. */
  lemma FedBytesAreDropped(l: Line, r: Reply)
    requires l.pending != [] && r.Reply? && r.fed.Some? && r.fed.value != []
    ensures Concat(Chunks(Deliver(l, true, r))) + Deliver(l, true, r).line.pending == l.pending
    ensures Concat(Chunks(Deliver(l, true, r))) + Deliver(l, true, r).line.pending != Arrive(l, r.fed).pending
  {
    var d := Deliver(l, true, r);
    assert Chunks(d) == [l.pending];
    assert [l.pending][..0] == [];
    assert |Arrive(l, r.fed).pending| > |l.pending|;
  }

  /** A single run whose push throws pushes the buffer and leaves the line as it was. */
  lemma ThrowOnce(l: Line, open: bool, e: Error)
    requires l.pending != []
    ensures Play(l, open, [Run(Throw(e))]) == Trace(l, [l.pending])
    ensures Arrived(open, [Run(Throw(e))]) == []
  {
    PlaySnoc(l, open, [], Run(Throw(e)));
    assert [] + [Run(Throw(e))] == [Run(Throw(e))];
    var d := Deliver(l, open, Throw(e));
    assert d.line == l && Chunks(d) == [l.pending];
    assert [] + [l.pending] == [l.pending];
  }

  /**
   * A push that throws leaves `flowing` and the buffer as they were, so the next delivery hands
   * push the same bytes again: they are pushed twice although they arrived once.
   */
  lemma ThrowingPushRepeats(l: Line, open: bool, e: Error, r: Reply)
    requires l.pending != []
    ensures Play(l, open, [Run(Throw(e)), Run(r)]).pushed == [l.pending, l.pending]
    ensures Total(Play(l, open, [Run(Throw(e)), Run(r)])) != l.pending + Arrived(open, [Run(Throw(e)), Run(r)])
  {
    var s1 := [Run(Throw(e))];
    ThrowOnce(l, open, e);
    PlaySnoc(l, open, s1, Run(r));
    assert s1 + [Run(r)] == [Run(Throw(e)), Run(r)];
    assert Chunks(Deliver(l, open, r)) == [l.pending];
    var t := Apply(Trace(l, [l.pending]), open, Run(r));
    assert t.pushed == [l.pending] + [l.pending] == [l.pending, l.pending];
    ConcatSnoc([], l.pending);
    ConcatSnoc([l.pending], l.pending);
    assert [] + [l.pending] == [l.pending];
    assert |Total(t)| >= |l.pending + l.pending| > |l.pending + Arrived(open, s1 + [Run(r)])|;
  }
}
