/**
 * The operating system as the event loop sees it: nondeterministic, but with typed results. Each
 * method says all that the proofs may rely on; its body is one behaviour among those allowed.
 */
module Kernels {
  import opened ConnectionModel

  datatype RecvResult = Received(bytes: string) | EndOfFile | RecvInterrupted | RecvWouldBlock | RecvError
  datatype SendResult = Accepted(count: nat) | SendInterrupted | SendWouldBlock | SendError
  datatype AcceptResult = Connected(fd: int) | AcceptInterrupted | AcceptDrained | AcceptTransient | AcceptFatal
  datatype WaitResult = Ready(event: ReadyEvent) | TimedOut | WaitInterrupted | WaitFailed

  /** One wait: the timeout it was given and what it returned. */
  datatype Wait = Wait(timeout: nat, result: WaitResult)

  /**
   * How often a kind of call was made, how many bytes the last one was for, how many
   * results were final (no further call belongs to the same round), how many of those were failures,
   * and what the last call returned.
   */
  datatype Tally<R> = Tally(calls: nat, asked: nat, finals: nat, failures: nat, last: R)

  function Noted<R>(t: Tally<R>, asked: nat, final: bool, failure: bool, r: R): Tally<R> {
    Tally(t.calls + 1, asked, t.finals + (if final then 1 else 0), t.failures + (if failure then 1 else 0), r)
  }

  /** A round of calls: at most its last result was final, and `failed` says whether that was a failure. */
  ghost predicate Round<R>(before: Tally<R>, after: Tally<R>, final: bool, failed: bool) {
    && after.calls >= before.calls && (final ==> after.calls > before.calls)
    && after.finals == before.finals + (if final then 1 else 0)
    && after.failures == before.failures + (if failed then 1 else 0)
  }

  predicate RecvFinal(r: RecvResult) {
    r == EndOfFile || r == RecvWouldBlock || r == RecvError
  }

  predicate SendFailure(r: SendResult) {
    r == SendError || r == Accepted(0)
  }

  predicate SendFinal(r: SendResult) {
    r == SendWouldBlock || SendFailure(r)
  }

  predicate AcceptFinal(r: AcceptResult) {
    r == AcceptDrained || r == AcceptFatal
  }

  datatype Reports = Reports(recvs: Tally<RecvResult>, sends: Tally<SendResult>, updates: Tally<bool>)

  /** The call accepted something. */
  predicate Moves(r: SendResult) {
    r.Accepted? && r.count > 0
  }

  function Delivered(t: Traffic, r: RecvResult): Traffic {
    match r
    case Received(bytes) => t.(delivered := t.delivered + bytes)
    case EndOfFile => t.(ended := true)
    case _ => t
  }

  function Taken(t: Traffic, bytes: string, r: SendResult): Traffic {
    if r.Accepted? && r.count <= |bytes| then t.(accepted := t.accepted + bytes[..r.count]) else t
  }

  class Kernel {
    /** The monotonic clock, in milliseconds. */
    var clock: int
    /** Descriptors this process holds open. */
    var open: set<int>
    /** The epoll registrations. */
    var registered: map<int, Interest>
    /** Descriptors whose calls return at once. */
    ghost var nonblocking: set<int>
    /** Every byte that was moved, by descriptor: since it was last connected. */
    ghost var traffic: map<int, Traffic>
    ghost var recvs: Tally<RecvResult>
    ghost var sends: Tally<SendResult>
    ghost var accepts: Tally<AcceptResult>
    ghost var waits: seq<Wait>
    /** Interest updates. */
    ghost var updates: Tally<bool>
    /** What is done to make a descriptor a client's: making it non-blocking, and registering it. */
    ghost var setups: Tally<bool>

    constructor (listener: int)
      ensures open == {listener} && registered == map[] && traffic == map[]
    {
      clock, open, registered := 0, {listener}, map[];
      traffic, nonblocking := map[], {};
      recvs, sends := Tally(0, 0, 0, 0, RecvWouldBlock), Tally(0, 0, 0, 0, SendWouldBlock);
      accepts, waits := Tally(0, 0, 0, 0, AcceptDrained), [];
      updates, setups := Tally(0, 0, 0, 0, false), Tally(0, 0, 0, 0, false);
    }

    method Now() returns (t: int)
      modifies `clock
      ensures t == clock >= old(clock)
    {
      t := *;
      if t < clock {
        t := clock;
      }
      clock := t;
    }

    method Recv(fd: int, requested: nat) returns (r: RecvResult)
      requires fd in open && fd in traffic && requested > 0
      modifies `recvs, `traffic
      ensures recvs == Noted(old(recvs), requested, RecvFinal(r), r == RecvError, r)
      ensures r.Received? ==> 0 < |r.bytes| <= requested
      ensures traffic == old(traffic)[fd := Delivered(old(traffic[fd]), r)]
    {
      r := *;
      if r.Received? && !(0 < |r.bytes| <= requested) {
        r := RecvWouldBlock;
      }
      recvs, traffic := Noted(recvs, requested, RecvFinal(r), r == RecvError, r), traffic[fd := Delivered(traffic[fd], r)];
    }

    method Send(fd: int, bytes: string) returns (r: SendResult)
      requires fd in open && fd in traffic && bytes != ""
      modifies `sends, `traffic
      ensures sends == Noted(old(sends), |bytes|, SendFinal(r), SendFailure(r), r)
      ensures r.Accepted? ==> r.count <= |bytes|
      ensures traffic == old(traffic)[fd := Taken(old(traffic[fd]), bytes, r)]
    {
      r := *;
      if r.Accepted? && r.count > |bytes| {
        r := SendWouldBlock;
      }
      sends, traffic := Noted(sends, |bytes|, SendFinal(r), SendFailure(r), r), traffic[fd := Taken(traffic[fd], bytes, r)];
    }

    /** A connected descriptor is one that was not open; nothing has been moved on its connection. */
    method Accept(listener: int) returns (r: AcceptResult)
      requires listener in open
      modifies `accepts, `open, `traffic, `nonblocking
      ensures accepts == Noted(old(accepts), 0, AcceptFinal(r), r == AcceptFatal, r)
      ensures r.Connected? ==> r.fd !in old(open) && open == old(open) + {r.fd}
      ensures traffic == if r.Connected? then old(traffic)[r.fd := NO_TRAFFIC] else old(traffic)
      ensures nonblocking == if r.Connected? then old(nonblocking) - {r.fd} else old(nonblocking)
      ensures !r.Connected? ==> open == old(open)
    {
      r := *;
      if r.Connected? && r.fd in open {
        r := AcceptDrained;
      }
      accepts := Noted(accepts, 0, AcceptFinal(r), r == AcceptFatal, r);
      if r.Connected? {
        open, traffic, nonblocking := open + {r.fd}, traffic[r.fd := NO_TRAFFIC], nonblocking - {r.fd};
      }
    }

    method SetNonblocking(fd: int) returns (ok: bool)
      requires fd in open
      modifies `nonblocking, `setups
      ensures setups == Noted(old(setups), 0, !ok, !ok, ok)
      ensures nonblocking == if ok then old(nonblocking) + {fd} else old(nonblocking)
    {
      ok := *;
      setups := Noted(setups, 0, !ok, !ok, ok);
      if ok {
        nonblocking := nonblocking + {fd};
      }
    }

    /** Closing a descriptor also ends its registration. */
    method Close(fd: int)
      modifies `open, `registered
      ensures open == old(open) - {fd} && registered == old(registered) - {fd}
    {
      open, registered := open - {fd}, registered - {fd};
    }

    method Add(fd: int, interest: Interest) returns (ok: bool)
      requires fd in open
      modifies `registered, `setups
      ensures setups == Noted(old(setups), 0, !ok, !ok, ok)
      ensures registered == if ok then old(registered)[fd := interest] else old(registered)
    {
      ok := *;
      setups := Noted(setups, 0, !ok, !ok, ok);
      if ok {
        registered := registered[fd := interest];
      }
    }

    method Modify(fd: int, interest: Interest) returns (ok: bool)
      requires fd in open
      modifies `registered, `updates
      ensures updates == Noted(old(updates), 0, !ok, !ok, ok)
      ensures ok ==> fd in old(registered)
      ensures registered == if ok then old(registered)[fd := interest] else old(registered)
    {
      ok := *;
      ok := ok && fd in registered;
      updates := Noted(updates, 0, !ok, !ok, ok);
      if ok {
        registered := registered[fd := interest];
      }
    }

    method Remove(fd: int) returns (ok: bool)
      requires fd in open
      modifies `registered
      ensures registered == if ok then old(registered) - {fd} else old(registered)
    {
      ok := *;
      if ok {
        registered := registered - {fd};
      }
    }

    /** An event names a registered descriptor. */
    method WaitOne(timeout: nat) returns (r: WaitResult)
      modifies `clock, `waits
      ensures clock >= old(clock) && waits == old(waits) + [Wait(timeout, r)]
      ensures r.Ready? ==> r.event.fd in registered
    {
      var t := Now();
      r := *;
      if r.Ready? && r.event.fd !in registered {
        r := TimedOut;
      }
      waits := waits + [Wait(timeout, r)];
    }

    /** What the calls of a visit have reported. */
    ghost function Reported(): Reports
      reads `recvs, `sends, `updates
    {
      Reports(recvs, sends, updates)
    }
  }
}
