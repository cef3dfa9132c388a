/** The event loop of apps/server.cpp: sweeps, waits, visits, accepts and retirements over one shared store. */
module Servers {
  import opened Wrappers
  import opened Sequences
  import opened Limits
  import opened Store
  import opened Serial
  import opened ConnectionModel
  import opened ServerModel
  import opened Kernels
  import opened Connections
  import Service

  /** The ways the loop of `main` returns. Two of them are invariant failures. */
  datatype Exit = WaitError | UnknownClient | ListenerFailure | AcceptFailure | DuplicateOwner

  /** What a sweep looks at: the client, its last progress, and whether there is a command to run. */
  datatype Sight = Sight(id: nat, progress: int, runnable: bool)

  /**
   * What a turn of the loop did before it acted on an event: what the wait said, when each client was
   * checked, the actions of the sweep, and the state in which the loop waited.
   */
  datatype Turned = Turned(waited: WaitResult, checks: map<int, int>, acts: seq<Action>, at: ServerState)

  /** A visit that no event asked for. */
  const NO_EVENT := ReadyEvent(-1, false, false, false, false)

  class Server {
    const kernel: Kernel
    const store: KeyValueStore
    const listener: int
    var clients: map<int, Connection>

    // The run so far and the state it leads to, for the specification only.
    ghost var run: seq<Action>
    ghost var state: ServerState

    /** The object at `fd` is the value `v`. */
    static ghost predicate Mirrors(fd: int, c: Connection, v: Conn)
      reads c
    {
      c.Valid() && c.socket == fd && c.View() == v
    }

    static ghost predicate AllMirrored(clients: map<int, Connection>, values: map<int, Conn>)
      reads clients.Values
    {
      values.Keys == clients.Keys && forall fd :: fd in clients ==> Mirrors(fd, clients[fd], values[fd])
    }

    /** Nothing but the client at `fd` has changed, and its new value is known. */
    static lemma MirroredServed(
      before: map<int, Connection>, after: map<int, Connection>, values: map<int, Conn>, values': map<int, Conn>, fd: int)
      requires values.Keys == before.Keys && fd in before
      requires forall g :: g in before && g != fd ==> Mirrors(g, before[g], values[g])
      requires after == before || after == before - {fd}
      requires OthersKept(values, values', fd) && (fd in values' <==> fd in after)
      requires fd in after ==> Mirrors(fd, after[fd], values'[fd])
      ensures AllMirrored(after, values')
    {
      forall g | g in after && g != fd
        ensures Mirrors(g, after[g], values'[g])
      {
        assert Mirrors(g, before[g], values[g]);
      }
    }

    static lemma MirroredMore(clients: map<int, Connection>, values: map<int, Conn>, fd: int, c: Connection, v: Conn)
      requires AllMirrored(clients, values) && Mirrors(fd, c, v)
      ensures AllMirrored(clients[fd := c], values[fd := v])
    {
    }

    lemma Distinct(fd: int)
      requires AllMirrored(clients, state.clients) && fd in clients
      ensures forall g :: g in clients && g != fd ==> clients[g] != clients[fd]
    {
      assert Mirrors(fd, clients[fd], state.clients[fd]);
      forall g | g in clients && g != fd
        ensures clients[g] != clients[fd]
      {
        assert Mirrors(g, clients[g], state.clients[g]);
      }
    }

    /** The bytes the clients account for are the bytes that the kernel moved on their descriptors. */
    static ghost predicate Tracks(traffic: map<int, Traffic>, clients: map<int, Conn>) {
      forall fd :: fd in clients ==> fd in traffic && traffic[fd] == Carried(clients[fd])
    }

    static lemma TracksServed(traffic: map<int, Traffic>, before: map<int, Conn>, after: map<int, Conn>, fd: int, c: Conn)
      requires Tracks(traffic, before) && OthersKept(before, after, fd)
      requires fd in after ==> after[fd] == c
      ensures Tracks(traffic[fd := Carried(c)], after)
    {
    }

    static lemma TracksMore(traffic: map<int, Traffic>, clients: map<int, Conn>, fd: int, c: Conn)
      requires Tracks(traffic, clients) && fd in traffic && traffic[fd] == Carried(c)
      ensures Tracks(traffic, clients[fd := c])
    {
    }

    static lemma TracksFewer(traffic: map<int, Traffic>, clients: map<int, Conn>, fd: int)
      requires Tracks(traffic, clients)
      ensures Tracks(traffic, clients - {fd})
    {
    }

    /** The heap is the state `state`. */
    ghost predicate Agrees()
      reads this, kernel`open, kernel`registered, kernel`traffic, kernel`nonblocking, store, clients.Values
    {
      && AllMirrored(clients, state.clients)
      && state.data == store.data && state.registered == kernel.registered
      && Tracks(kernel.traffic, state.clients)
      && clients.Keys <= kernel.nonblocking && clients.Keys <= kernel.open && listener in kernel.open && listener !in clients
    }

    /** ... and some run of the model reaches that state. */
    ghost predicate Valid()
      reads this, kernel`open, kernel`registered, kernel`traffic, kernel`nonblocking, store, clients.Values
    {
      Agrees() && Leads(listener, run, state)
    }

    lemma Reached()
      requires Valid()
      ensures Inv(listener, state)
    {
      EveryRunKeepsInv(listener, run);
    }

    /** Registrations are exactly the listener and the clients, and there are never too many. */
    lemma Bookkeeping()
      requires Valid()
      ensures listener !in clients && kernel.registered.Keys == clients.Keys + {listener}
      ensures |clients| <= MAX_CLIENTS
    {
      Reached();
      assert |clients.Keys| == |clients| && |state.clients.Keys| == |state.clients|;
    }

    lemma OnlyKnownRegistered()
      requires Valid()
      ensures forall fd :: fd in kernel.registered ==> fd in clients || fd == listener
    {
      Bookkeeping();
    }

    /** `main` after its set-up: the listener is registered for reading, the store is empty. */
    constructor (kernel: Kernel, listener: int)
      requires listener in kernel.open && kernel.registered == map[listener := Interest(true, false)]
      ensures Valid() && clients == map[] && run == []
      ensures this.kernel == kernel && this.listener == listener && fresh(store)
    {
      this.kernel, this.listener := kernel, listener;
      store := new KeyValueStore();
      clients, run, state := map[], [], Initial(listener);
    }

    /** Remove the registration, then close and forget the connection. A failed removal is completed by closing. */
    method RetireClient(fd: int)
      requires fd in clients && fd in kernel.open
      modifies this`clients, kernel`open, kernel`registered
      ensures clients == old(clients) - {fd}
      ensures kernel.open == old(kernel.open) - {fd} && kernel.registered == old(kernel.registered) - {fd}
    {
      var removed := kernel.Remove(fd);
      clients := clients - {fd};
      kernel.Close(fd);
    }

    /** A visit to the connection at `fd`, which is `v`: the model has yet to take the step. */
    method RunVisit(fd: int, event: ReadyEvent, ghost v: Conn) returns (reason: Option<Reason>, ghost io: Io, ghost o: Outcome)
      requires fd in clients && Mirrors(fd, clients[fd], v) && fd in kernel.open
      requires fd in kernel.traffic && kernel.traffic[fd] == Carried(v)
      modifies kernel, store, clients[fd]
      ensures kernel.clock >= old(kernel.clock) && kernel.open == old(kernel.open)
      ensures kernel.waits == old(kernel.waits) && kernel.accepts == old(kernel.accepts)
      ensures kernel.nonblocking == old(kernel.nonblocking)
      ensures io.event == event && ValidIo(v, old(store.data), io) && o == Visit(v, old(store.data), io)
      ensures o.reason == reason && Mirrors(fd, clients[fd], o.conn) && store.data == o.data
      ensures Service.Reported(v, old(store.data), io, reason, old(kernel.Reported()), kernel.Reported())
      ensures kernel.traffic == old(kernel.traffic)[fd := Carried(o.conn)]
      ensures kernel.registered ==
        if reason == None then old(kernel.registered)[fd := Wanted(o.conn)] else old(kernel.registered)
      ensures Dated(io, old(clients[fd].lastProgress), clients[fd].lastProgress, old(kernel.clock), kernel.clock)
    {
      reason, io := Service.ServiceClient(kernel, clients[fd], event, store);
      o := Outcome(clients[fd].View(), store.data, reason);
    }

    /** A visit without the retirement it may ask for: the model has already taken the step. */
    method PerformVisit(fd: int, event: ReadyEvent) returns (reason: Option<Reason>, ghost io: Io, ghost o: Outcome)
      requires fd in clients && fd in state.clients && Mirrors(fd, clients[fd], state.clients[fd])
      requires fd in kernel.open && Leads(listener, run, state)
      requires state.data == store.data && state.registered == kernel.registered
      requires fd in kernel.traffic && kernel.traffic[fd] == Carried(state.clients[fd])
      modifies this`run, this`state, kernel, store, clients[fd]
      ensures kernel.clock >= old(kernel.clock) && kernel.open == old(kernel.open)
      ensures kernel.waits == old(kernel.waits) && kernel.accepts == old(kernel.accepts)
      ensures kernel.nonblocking == old(kernel.nonblocking)
      ensures io.event == event && run == old(run) + [Serve(fd, io)] && Leads(listener, run, state)
      ensures VisitReported(old(state), fd, io, o, old(kernel.Reported()), kernel.Reported())
      ensures Grown(old(state), state, fd, event)
      ensures o.reason == reason && Mirrors(fd, clients[fd], o.conn) && state.data == store.data
      ensures kernel.traffic == old(kernel.traffic)[fd := Carried(o.conn)]
      ensures state.clients == if reason == None then old(state.clients)[fd := o.conn] else old(state.clients) - {fd}
      ensures state.registered == if reason == None then kernel.registered else kernel.registered - {fd}
      ensures reason != None ==> Retires(state, o)
      ensures Dated(io, old(clients[fd].lastProgress), clients[fd].lastProgress, old(kernel.clock), kernel.clock)
    {
      reason, io, o := RunVisit(fd, event, state.clients[fd]);
      state := ServeStep(listener, run, state, fd, io, o);
      run := run + [Serve(fd, io)];
    }

    /** The visit is the one recorded, and its record is what the kernel reported. */
    static ghost predicate VisitReported(s: ServerState, fd: int, io: Io, o: Outcome, before: Reports, after: Reports)
      requires fd in s.clients
    {
      && ValidIo(s.clients[fd], s.data, io) && o == Visit(s.clients[fd], s.data, io)
      && Service.Reported(s.clients[fd], s.data, io, o.reason, before, after)
    }

    /** Progress is dated by bytes moved during the visit, and by nothing else. */
    static ghost predicate Dated(io: Io, progress: int, progress': int, start: int, now: int) {
      if io.chunks == [] && io.taken == 0 then progress' == progress else start <= progress' <= now
    }

    /** The log has only grown, and with a frame of this client if it could run one. */
    static ghost predicate Grown(s: ServerState, s': ServerState, fd: int, event: ReadyEvent)
      requires fd in s.clients
    {
      && s.log <= s'.log
      && (Runnable(s.clients[fd]) && !event.error && !event.hangup ==> Advances(s.log, s'.log, s.clients[fd].id))
    }

    /** A visit and, when it asks for that, the retirement: what they do to the heap is a step of the model. */
    method ServeAndRetire(fd: int, event: ReadyEvent) returns (ghost io: Io, ghost o: Outcome)
      requires fd in clients && fd in state.clients && Mirrors(fd, clients[fd], state.clients[fd])
      requires fd in kernel.open && Leads(listener, run, state)
      requires state.data == store.data && state.registered == kernel.registered
      requires fd in kernel.traffic && kernel.traffic[fd] == Carried(state.clients[fd])
      modifies this`clients, this`run, this`state, kernel, store, clients[fd]
      ensures kernel.clock >= old(kernel.clock)
      ensures kernel.waits == old(kernel.waits) && kernel.accepts == old(kernel.accepts)
      ensures kernel.nonblocking == old(kernel.nonblocking)
      ensures io.event == event && run == old(run) + [Serve(fd, io)] && Leads(listener, run, state)
      ensures state.data == store.data && state.registered == kernel.registered
      ensures VisitReported(old(state), fd, io, o, old(kernel.Reported()), kernel.Reported())
      ensures Grown(old(state), state, fd, event)
      ensures kernel.traffic == old(kernel.traffic)[fd := Carried(o.conn)]
      ensures if o.reason == None then fd in clients else fd !in clients && Retires(state, o)
      ensures clients == old(clients) || clients == old(clients) - {fd}
      ensures fd in clients ==>
        fd in state.clients && state.clients[fd] == o.conn && Mirrors(fd, clients[fd], state.clients[fd])
      ensures OthersKept(old(state.clients), state.clients, fd) && (fd in state.clients <==> fd in clients)
      ensures kernel.open == old(kernel.open) - (if fd in clients then {} else {fd})
      ensures Dated(io, old(clients[fd].lastProgress), old(clients)[fd].lastProgress, old(kernel.clock), kernel.clock)
    {
      var reason;
      reason, io, o := PerformVisit(fd, event);
      if reason.Some? {
        RetireClient(fd);
      }
    }

    /** The same with all clients in view: the others are as they were. */
    method ServeAmongOthers(fd: int, event: ReadyEvent) returns (ghost io: Io, ghost o: Outcome)
      requires fd in clients && AllMirrored(clients, state.clients)
      requires fd in kernel.open && Leads(listener, run, state)
      requires state.data == store.data && state.registered == kernel.registered
      requires fd in kernel.traffic && kernel.traffic[fd] == Carried(state.clients[fd])
      modifies this`clients, this`run, this`state, kernel, store, clients[fd]
      ensures kernel.clock >= old(kernel.clock)
      ensures kernel.waits == old(kernel.waits) && kernel.accepts == old(kernel.accepts)
      ensures kernel.nonblocking == old(kernel.nonblocking)
      ensures io.event == event && run == old(run) + [Serve(fd, io)] && Leads(listener, run, state)
      ensures state.data == store.data && state.registered == kernel.registered
      ensures VisitReported(old(state), fd, io, o, old(kernel.Reported()), kernel.Reported())
      ensures Grown(old(state), state, fd, event)
      ensures kernel.traffic == old(kernel.traffic)[fd := Carried(o.conn)]
      ensures if o.reason == None then fd in clients else fd !in clients && Retires(state, o)
      ensures clients == old(clients) || clients == old(clients) - {fd}
      ensures fd in state.clients ==> state.clients[fd] == o.conn
      ensures OthersKept(old(state.clients), state.clients, fd)
      ensures kernel.open == old(kernel.open) - (if fd in clients then {} else {fd})
      ensures Dated(io, old(clients[fd].lastProgress), old(clients)[fd].lastProgress, old(kernel.clock), kernel.clock)
      ensures AllMirrored(clients, state.clients)
    {
      ghost var were, before := clients, state.clients;
      Distinct(fd);
      io, o := ServeAndRetire(fd, event);
      assert AllMirrored(clients, state.clients) by {
        MirroredServed(were, clients, before, state.clients, fd);
      }
    }

    /** Serve one client, and retire it when the visit asks for that. */
    method VisitClient(fd: int, event: ReadyEvent) returns (ghost io: Io, ghost o: Outcome)
      requires Valid() && fd in clients
      modifies this`clients, this`run, this`state, kernel, store, clients[fd]
      ensures kernel.clock >= old(kernel.clock)
      ensures kernel.waits == old(kernel.waits) && kernel.accepts == old(kernel.accepts)
      ensures clients == old(clients) || clients == old(clients) - {fd}
      ensures OthersKept(old(state.clients), state.clients, fd)
      ensures VisitReported(old(state), fd, io, o, old(kernel.Reported()), kernel.Reported())
      ensures Grown(old(state), state, fd, event)
      ensures kernel.traffic == old(kernel.traffic)[fd := Carried(o.conn)]
      ensures if o.reason == None then fd in clients else fd !in clients && Retires(state, o)
      ensures io.event == event && run == old(run) + [Serve(fd, io)]
      ensures Dated(io, old(clients[fd].lastProgress), old(clients)[fd].lastProgress, old(kernel.clock), kernel.clock)
      ensures Valid()
    {
      ghost var traffic, before := kernel.traffic, state.clients;
      io, o := ServeAmongOthers(fd, event);
      assert Tracks(kernel.traffic, state.clients) by {
        TracksServed(traffic, before, state.clients, fd, o.conn);
      }
    }

    /** The connection was retired as the visit left it, for the reason the visit gave. */
    static ghost predicate Retires(s: ServerState, o: Outcome) {
      o.reason.Some? && o.conn.id in s.closed && s.closed[o.conn.id] == Closing(o.conn, o.reason.value)
    }

    /** Retire a client that made no progress for too long, without serving it. */
    method ExpireClient(fd: int)
      requires Valid() && fd in clients
      modifies this`clients, this`run, this`state, kernel`open, kernel`registered
      ensures clients == old(clients) - {fd}
      ensures OthersKept(old(state.clients), state.clients, fd)
      ensures Retires(state, Outcome(old(state.clients[fd]), store.data, Some(IdleTimeout)))
      ensures run == old(run) + [Expire(fd)] && state.log == old(state.log)
      ensures Valid()
    {
      ghost var before := state.clients;
      Distinct(fd);
      state := ExpireStep(listener, run, state, fd);
      run := run + [Expire(fd)];
      ghost var were := clients;
      RetireClient(fd);
      assert AllMirrored(clients, state.clients) by {
        MirroredServed(were, clients, before, state.clients, fd);
      }
      assert Tracks(kernel.traffic, state.clients) by {
        TracksFewer(kernel.traffic, before, fd);
      }
    }

    // ---- The sweep before each wait ----

    /** What a sweep looks at. */
    static ghost function Glance(c: Connection): Sight
      reads c
      requires c.Valid()
    {
      Sight(c.id, c.lastProgress, Runnable(c.View()))
    }

    ghost function Sights(): map<int, Sight>
      reads this, kernel`open, kernel`registered, kernel`traffic, kernel`nonblocking, store, clients.Values
      requires Valid()
    {
      map fd | fd in clients :: Glance(clients[fd])
    }

    /**
     * The sweep's verdict on one client seen as `was` and checked at time `at`: an expired client is
     * retired unserved; any other is served exactly once if it had a command to run, and otherwise
     * kept unserved. So a client that is kept made progress less than the timeout before its check.
     */
    static ghost predicate Verdict(was: Sight, at: int, acts: seq<Action>, kept: bool) {
      if at - was.progress >= IDLE_TIMEOUT then !kept && |acts| == 1 && acts[0].Expire?
      else if was.runnable then |acts| == 1 && acts[0].Serve? && acts[0].io.event == NO_EVENT
      else kept && acts == []
    }

    /** Whoever is served by a sweep has at least one command executed. */
    static ghost predicate Attended(was: Sight, at: int, before: seq<Entry>, after: seq<Entry>) {
      && before <= after
      && (at - was.progress < IDLE_TIMEOUT && was.runnable ==> Advances(before, after, was.id))
    }

    static ghost predicate AllAttended(
      sights: map<int, Sight>, checks: map<int, int>, before: seq<Entry>, after: seq<Entry>)
    {
      && checks.Keys <= sights.Keys && before <= after
      && forall fd :: fd in checks ==> Attended(sights[fd], checks[fd], before, after)
    }

    static lemma AttendedStep(sights: map<int, Sight>, checks: map<int, int>, before: seq<Entry>, log: seq<Entry>,
                              fd: int, at: int, log': seq<Entry>)
      requires AllAttended(sights, checks, before, log) && fd in sights
      requires Attended(sights[fd], at, log, log')
      ensures AllAttended(sights, checks[fd := at], before, log')
    {
      PrefixTrans(before, log, log');
      var checks' := checks[fd := at];
      forall g | g in checks'
        ensures Attended(sights[g], checks'[g], before, log')
      {
        FramesGrow(before, log, sights[g].id);
        FramesGrow(log, log', sights[g].id);
      }
    }

    /** Serve a client that has a command to run; leave any other alone. */
    method ServeIfRunnable(fd: int) returns (runnable: bool, ghost acts: seq<Action>)
      requires Valid() && fd in clients
      modifies this`clients, this`run, this`state, kernel, store, clients[fd]
      ensures old(kernel.clock) <= kernel.clock
      ensures kernel.waits == old(kernel.waits) && kernel.accepts == old(kernel.accepts)
      ensures clients == old(clients) || clients == old(clients) - {fd}
      ensures OthersKept(old(state.clients), state.clients, fd)
      ensures runnable == (fd in state.clients && Runnable(state.clients[fd]))
      ensures run == old(run) + acts
      ensures AllOn(acts, fd)
      ensures old(state.log) <= state.log
      ensures var was := old(Glance(clients[fd]));
        if was.runnable
        then |acts| == 1 && acts[0].Serve? && acts[0].io.event == NO_EVENT && Advances(old(state.log), state.log, was.id)
        else acts == [] && fd in clients
      ensures Valid()
    {
      var c := clients[fd];
      acts := [];
      Right(run);
      if c.HasRunnableInput() {
        ghost var io, o := VisitClient(fd, NO_EVENT);
        acts := [Serve(fd, io)];
        AllOnOne(acts[0], fd);
        if fd !in clients {
          return false, acts;
        }
      }
      runnable := c.HasRunnableInput();
    }

    /** Read the clock and compare. */
    method IsExpired(fd: int) returns (expired: bool, ghost checked: int)
      requires Valid() && fd in clients
      modifies kernel`clock
      ensures Valid() && old(kernel.clock) <= checked == kernel.clock
      ensures Glance(clients[fd]) == old(Glance(clients[fd]))
      ensures expired == (checked - clients[fd].lastProgress >= IDLE_TIMEOUT)
    {
      var now := kernel.Now();
      expired, checked := now - clients[fd].lastProgress >= IDLE_TIMEOUT, now;
    }

    /** One entry of the sweep: expire, or serve if there is a command to run, or leave alone. */
    method CheckClient(fd: int) returns (runnable: bool, ghost checked: int, ghost acts: seq<Action>)
      requires Valid() && fd in clients
      modifies this`clients, this`run, this`state, kernel, store, clients[fd]
      ensures old(kernel.clock) <= checked <= kernel.clock
      ensures kernel.waits == old(kernel.waits) && kernel.accepts == old(kernel.accepts)
      ensures clients == old(clients) || clients == old(clients) - {fd}
      ensures OthersKept(old(state.clients), state.clients, fd)
      ensures runnable == (fd in state.clients && Runnable(state.clients[fd]))
      ensures run == old(run) + acts && AllOn(acts, fd)
      ensures Verdict(old(Glance(clients[fd])), checked, acts, fd in clients)
      ensures Attended(old(Glance(clients[fd])), checked, old(state.log), state.log)
      ensures Valid()
    {
      var expired;
      expired, checked := IsExpired(fd);
      if expired {
        ExpireClient(fd);
        return false, checked, [Expire(fd)];
      }
      runnable, acts := ServeIfRunnable(fd);
    }

    /** Clients the sweep has yet to check are as it found them. */
    ghost predicate Waiting(sights: map<int, Sight>, todo: set<int>)
      reads this`clients, clients.Values
    {
      && todo <= clients.Keys && todo <= sights.Keys
      && forall fd :: fd in todo ==> clients[fd].Valid() && Glance(clients[fd]) == sights[fd]
    }

    /** The actions of a sweep so far give each client checked its verdict, and concern nobody else. */
    static ghost predicate Fair(
      sights: map<int, Sight>, start: int, now: int, checks: map<int, int>, acts: seq<Action>, kept: set<int>)
    {
      && checks.Keys <= sights.Keys
      && (forall i :: 0 <= i < |acts| ==> acts[i].fd in checks)
      && forall fd :: fd in checks ==>
        start <= checks[fd] <= now && Verdict(sights[fd], checks[fd], ActionsOn(acts, fd), fd in kept)
    }

    static lemma FairStep(
      sights: map<int, Sight>, start: int, now: int, checks: map<int, int>, acts: seq<Action>, kept: set<int>,
      fd: int, at: int, more: seq<Action>, now': int, kept': set<int>)
      requires Fair(sights, start, now, checks, acts, kept) && fd in sights && fd !in checks
      requires start <= now <= at <= now' && (kept' == kept || kept' == kept - {fd})
      requires AllOn(more, fd) && Verdict(sights[fd], at, more, fd in kept')
      ensures Fair(sights, start, now', checks[fd := at], acts + more, kept')
    {
      var checks' := checks[fd := at];
      forall g | g in checks'
        ensures start <= checks'[g] <= now' && Verdict(sights[g], checks'[g], ActionsOn(acts + more, g), g in kept')
      {
        if g == fd {
          OnlyLater(acts, more, fd);
        } else {
          OnlyEarlier(acts, more, g);
        }
      }
      forall i | 0 <= i < |acts + more|
        ensures (acts + more)[i].fd in checks'
      {
        assert (acts + more)[i] == if i < |acts| then acts[i] else more[i - |acts|];
      }
    }

    static ghost predicate SomeRunnable(clients: map<int, Conn>, todo: set<int>) {
      exists fd :: fd in clients && fd !in todo && Runnable(clients[fd])
    }

    static lemma SomeRunnableStep(before: map<int, Conn>, after: map<int, Conn>, fd: int, todo: set<int>)
      requires OthersKept(before, after, fd) && fd in todo
      ensures SomeRunnable(after, todo - {fd})
        == (SomeRunnable(before, todo) || (fd in after && Runnable(after[fd])))
    {
      if SomeRunnable(before, todo) {
        var g :| g in before && g !in todo && Runnable(before[g]);
        assert g in after && g !in todo - {fd} && Runnable(after[g]);
      }
      if SomeRunnable(after, todo - {fd}) {
        var g :| g in after && g !in todo - {fd} && Runnable(after[g]);
        assert g != fd ==> g in before && g !in todo && Runnable(before[g]);
      }
    }

    /** Only the client at `fd` may have changed. */
    static ghost predicate OthersKept(before: map<int, Conn>, after: map<int, Conn>, fd: int) {
      && after.Keys <= before.Keys && before.Keys <= after.Keys + {fd}
      && forall g :: g in after && g != fd ==> after[g] == before[g]
    }

    lemma SomeRunnableMeaning()
      requires Valid()
      ensures SomeRunnable(state.clients, {}) == SomeoneRunnable()
    {
      assert forall fd :: fd in clients ==> Mirrors(fd, clients[fd], state.clients[fd]);
      assert forall fd :: fd in clients ==> (clients[fd].HasRunnableInput() <==> Runnable(state.clients[fd]));
    }

    lemma SweepStarts()
      requires Valid()
      ensures Waiting(Sights(), clients.Keys)
      ensures Fair(Sights(), kernel.clock, kernel.clock, map[], [], clients.Keys)
      ensures !SomeRunnable(state.clients, clients.Keys)
    {
    }

    /** One entry of the sweep, for what is still to do. */
    method CheckNext(ghost sights: map<int, Sight>, fd: int, ghost todo: set<int>)
      returns (runnable: bool, ghost at: int, ghost acts: seq<Action>)
      requires Valid() && Waiting(sights, todo) && fd in todo
      modifies this`clients, this`run, this`state, kernel, store, clients[fd]
      ensures Waiting(sights, todo - {fd})
      ensures kernel.waits == old(kernel.waits) && kernel.accepts == old(kernel.accepts)
      ensures clients == old(clients) || clients == old(clients) - {fd}
      ensures old(kernel.clock) <= at <= kernel.clock && run == old(run) + acts && AllOn(acts, fd)
      ensures Verdict(sights[fd], at, acts, fd in clients)
      ensures Attended(sights[fd], at, old(state.log), state.log)
      ensures SomeRunnable(state.clients, todo - {fd}) == (old(SomeRunnable(state.clients, todo)) || runnable)
      ensures Valid()
    {
      ghost var before := state.clients;
      ghost var were := clients;
      runnable, at, acts := CheckClient(fd);
      assert Waiting(sights, todo - {fd}) by {
        forall g | g in todo && g != fd
          ensures g in clients && clients[g].Valid() && Glance(clients[g]) == sights[g]
        {
          assert were[g].socket == g;
        }
      }
      SomeRunnableStep(before, state.clients, fd, todo);
    }

    /** The same, added to what the sweep has done since `start`. */
    method SweepStep(fd: int, ghost todo: set<int>, ghost sights: map<int, Sight>, ghost start: int,
                     ghost checks: map<int, int>, ghost begun: seq<Action>, ghost acts: seq<Action>,
                     ghost before: seq<Entry>)
      returns (runnable: bool, ghost checks': map<int, int>, ghost acts': seq<Action>)
      requires Valid() && Waiting(sights, todo) && fd in todo && fd !in checks && start <= kernel.clock
      requires Fair(sights, start, kernel.clock, checks, acts, clients.Keys) && begun + acts == run
      requires AllAttended(sights, checks, before, state.log)
      modifies this`clients, this`run, this`state, kernel, store, clients[fd]
      ensures Waiting(sights, todo - {fd})
      ensures kernel.waits == old(kernel.waits) && kernel.accepts == old(kernel.accepts)
      ensures clients == old(clients) || clients == old(clients) - {fd}
      ensures old(kernel.clock) <= kernel.clock
      ensures checks'.Keys == checks.Keys + {fd}
      ensures begun + acts' == run
      ensures Fair(sights, start, kernel.clock, checks', acts', clients.Keys)
      ensures AllAttended(sights, checks', before, state.log)
      ensures SomeRunnable(state.clients, todo - {fd}) == (old(SomeRunnable(state.clients, todo)) || runnable)
      ensures Valid()
    {
      ghost var at, more;
      ghost var now, kept, log := kernel.clock, clients.Keys, state.log;
      runnable, at, more := CheckNext(sights, fd, todo);
      FairStep(sights, start, now, checks, acts, kept, fd, at, more, kernel.clock, clients.Keys);
      AttendedStep(sights, checks, before, log, fd, at, state.log);
      checks', acts' := checks[fd := at], acts + more;
      OneMoreKey(checks, fd, at);
      Assoc(begun, acts, more);
    }

    /** Check every client once, in any order. */
    method Sweep() returns (runnableRemains: bool, ghost checks: map<int, int>, ghost acts: seq<Action>)
      requires Valid()
      modifies this`clients, this`run, this`state, kernel, store, clients.Values
      ensures Valid() && kernel.clock >= old(kernel.clock) && Among(clients, old(clients))
      ensures kernel.waits == old(kernel.waits) && kernel.accepts == old(kernel.accepts)
      ensures runnableRemains == SomeRunnable(state.clients, {})
      ensures run == old(run) + acts && checks.Keys == old(clients).Keys
      ensures Fair(old(Sights()), old(kernel.clock), kernel.clock, checks, acts, clients.Keys)
      ensures AllAttended(old(Sights()), checks, old(state.log), state.log)
    {
      ghost var all, sights, start := clients, Sights(), kernel.clock;
      var todo := clients.Keys;
      checks, acts := map[], [];
      runnableRemains := false;
      SweepStarts();
      while todo != {}
        invariant Valid() && kernel.waits == old(kernel.waits) && kernel.accepts == old(kernel.accepts) && Among(clients, all)
        invariant Waiting(sights, todo) && checks.Keys == all.Keys - todo && todo <= all.Keys
        invariant start <= kernel.clock && Fair(sights, start, kernel.clock, checks, acts, clients.Keys)
        invariant AllAttended(sights, checks, old(state.log), state.log)
        invariant old(run) + acts == run && runnableRemains == SomeRunnable(state.clients, todo)
        decreases todo
      {
        var fd := AnyOf(todo);
        OneMoreDone(all.Keys, todo, checks.Keys, fd);
        AmongShrinks(clients, all, fd);
        FewerValues(clients, all);
        var runnable;
        runnable, checks, acts := SweepStep(fd, todo, sights, start, checks, old(run), acts, old(state.log));
        todo := todo - {fd};
        runnableRemains := runnableRemains || runnable;
      }
    }

    // ---- Waiting ----

    /** No client would execute a frame, and each is registered for exactly what it waits for, which is something. */
    ghost predicate Quiescent()
      reads this, kernel`open, kernel`registered, kernel`traffic, kernel`nonblocking, store, clients.Values
      requires Valid()
    {
      forall fd :: fd in clients ==>
        && Dormant(clients[fd].View(), store.data)
        && fd in kernel.registered
        && kernel.registered[fd] == Interest(clients[fd].MayRead(), clients[fd].HasPendingOutput())
        && (clients[fd].MayRead() || clients[fd].HasPendingOutput())
    }

    ghost predicate SomeoneRunnable()
      reads this, kernel`open, kernel`registered, kernel`traffic, kernel`nonblocking, store, clients.Values
      requires Valid()
    {
      exists fd :: fd in clients && clients[fd].HasRunnableInput()
    }

    lemma NothingRunnableIsQuiescent()
      requires Valid()
      requires !SomeoneRunnable()
      ensures Quiescent()
    {
      Reached();
      assert forall fd :: fd in clients ==> Mirrors(fd, clients[fd], state.clients[fd]);
      NobodyRunnableIsIdle(listener, state);
      forall fd | fd in clients
        ensures Dormant(clients[fd].View(), store.data)
        ensures fd in kernel.registered && kernel.registered[fd] == Wanted(clients[fd].View())
        ensures Wanted(clients[fd].View()).read || Wanted(clients[fd].View()).write
      {
        assert Mirrors(fd, clients[fd], state.clients[fd]);
      }
    }

    /**
     * The loop sleeps only when nothing is runnable and every wake-up is registered for, and polls
     * without sleeping only when something is runnable.
     */
    method WaitForEvent(runnableRemains: bool) returns (waited: WaitResult)
      requires Valid() && runnableRemains == SomeRunnable(state.clients, {})
      modifies kernel`clock, kernel`waits
      ensures Valid() && kernel.clock >= old(kernel.clock)
      ensures kernel.waits == old(kernel.waits) + [Wait(if SomeRunnable(state.clients, {}) then 0 else TIMER_POLL, waited)]
      ensures SomeRunnable(state.clients, {}) || Quiescent()
      ensures waited.Ready? ==> waited.event.fd in clients || waited.event.fd == listener
    {
      OnlyKnownRegistered();
      waited := kernel.WaitOne(if runnableRemains then 0 else TIMER_POLL);
      assert Valid();
      assert runnableRemains || Quiescent() by {
        if !runnableRemains {
          SomeRunnableMeaning();
          NothingRunnableIsQuiescent();
        }
      }
    }

    // ---- Accepting ----

    /** A descriptor that is neither a client nor the listener is not registered. */
    lemma Vacant(fd: int)
      requires Valid() && fd !in clients && fd != listener
      ensures fd !in kernel.registered && fd !in state.clients
      ensures kernel.registered - {fd} == kernel.registered
    {
      Bookkeeping();
    }

    lemma SameNumber()
      requires Valid()
      ensures |state.clients| == |clients|
    {
      assert |clients.Keys| == |clients| && |state.clients.Keys| == |state.clients|;
    }

    /** Own and register a new connection; give it up again if it cannot be registered. */
    method InsertClient(fd: int, c: Connection) returns (entered: bool)
      requires fd !in clients && fd !in kernel.registered && fd in kernel.open
      modifies this`clients, kernel`open, kernel`registered, kernel`setups
      ensures !entered ==> !kernel.setups.last
      ensures clients == if entered then old(clients)[fd := c] else old(clients)
      ensures kernel.registered ==
        if entered then old(kernel.registered)[fd := Interest(true, false)] else old(kernel.registered)
      ensures kernel.open == if entered then old(kernel.open) else old(kernel.open) - {fd}
    {
      clients := clients[fd := c];
      entered := kernel.Add(fd, Interest(true, false));
      if !entered {
        clients := clients - {fd};
        assert clients == old(clients);
        kernel.Close(fd);
        assert kernel.registered == old(kernel.registered);
      }
    }

    /** The same, seen from the model: `s` is the state in which the connection has been entered. */
    method EnterClient(fd: int, c: Connection, ghost s: ServerState) returns (entered: bool)
      requires Agrees() && fd !in clients && fd !in kernel.registered && fd != listener && fd in kernel.open
      requires fd in s.clients && Mirrors(fd, c, s.clients[fd])
      requires fd in kernel.traffic && kernel.traffic[fd] == Carried(s.clients[fd]) && fd in kernel.nonblocking
      requires s.clients == state.clients[fd := s.clients[fd]] && s.data == state.data
      requires s.registered == state.registered[fd := Interest(true, false)]
      modifies this`clients, this`run, this`state, kernel`open, kernel`registered, kernel`setups
      ensures !entered ==> !kernel.setups.last
      ensures clients == if entered then old(clients)[fd := c] else old(clients)
      ensures run == if entered then old(run) + [Adopt(fd)] else old(run)
      ensures state == if entered then s else old(state)
      ensures kernel.open == if entered then old(kernel.open) else old(kernel.open) - {fd}
      ensures Agrees()
    {
      assert AllMirrored(clients[fd := c], s.clients) by {
        MirroredMore(clients, state.clients, fd, c, s.clients[fd]);
      }
      assert Tracks(kernel.traffic, state.clients[fd := s.clients[fd]]) by {
        TracksMore(kernel.traffic, state.clients, fd, s.clients[fd]);
      }
      entered := InsertClient(fd, c);
      if entered {
        run, state := run + [Adopt(fd)], s;
      }
    }

    /** Take ownership of one accepted descriptor, or close it: at most `MAX_CLIENTS` are retained. */
    method AdoptClient(fd: int) returns (adopted: bool)
      requires Valid() && fd !in clients && fd != listener && fd in kernel.open
      requires fd in kernel.traffic && kernel.traffic[fd] == NO_TRAFFIC
      modifies this`clients, this`run, this`state, kernel`clock, kernel`open, kernel`registered, kernel`nonblocking, kernel`setups
      ensures kernel.clock >= old(kernel.clock)
      ensures adopted ==>
        && fd in clients && clients == old(clients)[fd := clients[fd]] && fresh(clients[fd])
        && old(kernel.clock) <= clients[fd].lastProgress <= kernel.clock
        && |old(clients)| < MAX_CLIENTS && run == old(run) + [Adopt(fd)]
      ensures !adopted ==> clients == old(clients) && fd !in kernel.open && run == old(run)
      ensures !adopted ==> |old(clients)| >= MAX_CLIENTS || !kernel.setups.last
      ensures Valid()
    {
      if |clients| >= MAX_CLIENTS {
        RejectClient(fd);
        adopted := false;
      } else {
        adopted := ConfigureClient(fd);
      }
    }

    /** Make a descriptor non-blocking and retain it, or close it. */
    method ConfigureClient(fd: int) returns (adopted: bool)
      requires Valid() && fd !in clients && fd != listener && fd in kernel.open && |clients| < MAX_CLIENTS
      requires fd in kernel.traffic && kernel.traffic[fd] == NO_TRAFFIC
      modifies this`clients, this`run, this`state, kernel`clock, kernel`open, kernel`registered, kernel`nonblocking, kernel`setups
      ensures kernel.clock >= old(kernel.clock)
      ensures adopted ==>
        && fd in clients && clients == old(clients)[fd := clients[fd]] && fresh(clients[fd])
        && old(kernel.clock) <= clients[fd].lastProgress <= kernel.clock
        && run == old(run) + [Adopt(fd)]
      ensures !adopted ==> clients == old(clients) && fd !in kernel.open && run == old(run) && !kernel.setups.last
      ensures Valid()
    {
      var configured := Configure(fd);
      if !configured {
        RejectClient(fd);
        return false;
      }
      adopted := RetainClient(fd);
    }

    method Configure(fd: int) returns (ok: bool)
      requires Valid() && fd in kernel.open
      modifies kernel`nonblocking, kernel`setups
      ensures Valid() && (ok ==> fd in kernel.nonblocking) && kernel.setups.last == ok
    {
      ok := kernel.SetNonblocking(fd);
    }

    /** Own a configured descriptor and register it: the connection starts afresh. */
    method RetainClient(fd: int) returns (adopted: bool)
      requires Valid() && fd !in clients && fd != listener && fd in kernel.open && |clients| < MAX_CLIENTS
      requires fd in kernel.traffic && kernel.traffic[fd] == NO_TRAFFIC && fd in kernel.nonblocking
      modifies this`clients, this`run, this`state, kernel`clock, kernel`open, kernel`registered, kernel`setups
      ensures Valid() && kernel.clock >= old(kernel.clock)
      ensures adopted ==>
        && fd in clients && clients == old(clients)[fd := clients[fd]] && fresh(clients[fd])
        && old(kernel.clock) <= clients[fd].lastProgress <= kernel.clock
        && run == old(run) + [Adopt(fd)]
      ensures !adopted ==> clients == old(clients) && fd !in kernel.open && run == old(run) && !kernel.setups.last
    {
      Vacant(fd);
      var now := kernel.Now();
      var c := new Connection(state.nextId, fd, now);
      SameNumber();
      ghost var s := AdoptStep(listener, run, state, fd);
      adopted := EnterClient(fd, c, s);
    }

    method RejectClient(fd: int)
      requires Valid() && fd !in clients && fd != listener
      modifies kernel`open, kernel`registered
      ensures Valid() && kernel.open == old(kernel.open) - {fd}
    {
      Vacant(fd);
      kernel.Close(fd);
    }

    /** One accept call: nobody has had the descriptor it returns, and nothing has been moved on it. */
    method TakeConnection() returns (r: AcceptResult)
      requires Valid()
      modifies kernel`open, kernel`traffic, kernel`nonblocking, kernel`accepts
      ensures Valid() && kernel.accepts == Noted(old(kernel.accepts), 0, AcceptFinal(r), r == AcceptFatal, r)
      ensures r.Connected? ==>
        && r.fd !in clients && r.fd != listener && r.fd in kernel.open
        && r.fd in kernel.traffic && kernel.traffic[r.fd] == NO_TRAFFIC
    {
      r := kernel.Accept(listener);
    }

    /** One accept call and what becomes of its result. */
    method AcceptOne() returns (r: AcceptResult)
      requires Valid()
      modifies this`clients, this`run, this`state
      modifies kernel`clock, kernel`open, kernel`registered, kernel`traffic, kernel`nonblocking, kernel`accepts, kernel`setups
      ensures kernel.clock >= old(kernel.clock)
      ensures kernel.accepts == Noted(old(kernel.accepts), 0, AcceptFinal(r), r == AcceptFatal, r)
      ensures forall c :: c in clients.Values ==> c in old(clients.Values) || fresh(c)
      ensures Newcomers(old(clients.Values), old(kernel.clock))
      ensures r.Connected? ==> r.fd !in old(clients)
      ensures run == old(run) || (r.Connected? && run == old(run) + [Adopt(r.fd)])
      ensures r.Connected? ==> r.fd in clients || r.fd !in kernel.open
      ensures r.Connected? && r.fd !in clients ==> |old(clients)| >= MAX_CLIENTS || !kernel.setups.last
      ensures Valid()
    {
      r := TakeConnection();
      if r.Connected? {
        // The source's check for a descriptor that already has an owner: it cannot fail here.
        if r.fd in clients {
          assert false;
        }
        var adopted := AdoptClient(r.fd);
      }
    }

    /** Clients that are not among `base` made their progress, if only by being adopted, since `start`. */
    ghost predicate Newcomers(base: set<Connection>, start: int)
      reads this`clients, clients.Values, kernel`clock
    {
      forall c :: c in clients.Values && c !in base ==> start <= c.lastProgress <= kernel.clock
    }

    /** The same, as one step of a round. */
    method AcceptNext(ghost base: set<Connection>, ghost start: int, ghost begun: seq<Action>) returns (r: AcceptResult)
      requires Valid() && Newcomers(base, start) && start <= kernel.clock && OnlyAdopts(begun, run)
      modifies this`clients, this`run, this`state
      modifies kernel`clock, kernel`open, kernel`registered, kernel`traffic, kernel`nonblocking, kernel`accepts, kernel`setups
      ensures kernel.clock >= old(kernel.clock) && OnlyAdopts(begun, run)
      ensures kernel.accepts == Noted(old(kernel.accepts), 0, AcceptFinal(r), r == AcceptFatal, r)
      ensures forall c :: c in clients.Values ==> c in old(clients.Values) || fresh(c)
      ensures Newcomers(base, start)
      ensures Valid()
    {
      ghost var sofar := run;
      r := AcceptOne();
      OneMoreAdopted(begun, sofar, run);
    }

    /** At least one accept call, at most a budget of them, and a reason to stop. */
    static ghost predicate TookConnections(before: Tally<AcceptResult>, after: Tally<AcceptResult>, exit: Option<Exit>) {
      && before.calls < after.calls <= before.calls + ACCEPT_BUDGET
      && Round(before, after, AcceptFinal(after.last), after.last == AcceptFatal)
      && exit == (if after.last == AcceptFatal then Some(AcceptFailure) else None)
      && (exit == None ==> after.last == AcceptDrained || after.calls == before.calls + ACCEPT_BUDGET)
    }

    /** Accept pending connections, within a budget of calls. */
    method AcceptClients() returns (exit: Option<Exit>)
      requires Valid()
      modifies this`clients, this`run, this`state
      modifies kernel`clock, kernel`open, kernel`registered, kernel`traffic, kernel`nonblocking, kernel`accepts, kernel`setups
      ensures Valid() && kernel.clock >= old(kernel.clock)
      ensures TookConnections(old(kernel.accepts), kernel.accepts, exit)
      ensures forall c :: c in clients.Values ==> c in old(clients.Values) || fresh(c)
      ensures Newcomers(old(clients.Values), old(kernel.clock))
      ensures OnlyAdopts(old(run), run)
    {
      var attempts := 0;
      while attempts < ACCEPT_BUDGET
        invariant 0 <= attempts <= ACCEPT_BUDGET
        invariant Valid() && kernel.clock >= old(kernel.clock)
        invariant kernel.accepts.calls == old(kernel.accepts.calls) + attempts
        invariant forall c :: c in clients.Values ==> c in old(clients.Values) || fresh(c)
        invariant Newcomers(old(clients.Values), old(kernel.clock))
        invariant OnlyAdopts(old(run), run)
        invariant Round(old(kernel.accepts), kernel.accepts, false, false)
        invariant attempts > 0 ==> !AcceptFinal(kernel.accepts.last)
      {
        attempts := attempts + 1;
        var r := AcceptNext(old(clients.Values), old(kernel.clock), old(run));
        if r == AcceptDrained {
          break;
        }
        if r == AcceptFatal {
          return Some(AcceptFailure);
        }
      }
      exit := None;
    }

    // ---- The loop ----

    /** Act on one event. */
    method Dispatch(event: ReadyEvent) returns (exit: Option<Exit>)
      requires Valid() && (event.fd in clients || event.fd == listener)
      modifies this`clients, this`run, this`state, kernel, store, clients.Values
      ensures Valid() && kernel.clock >= old(kernel.clock)
      ensures forall c :: c in clients.Values ==> c in old(clients.Values) || fresh(c)
      ensures Newcomers(old(clients.Values), old(kernel.clock))
      ensures Dispatched(event, old(run), run, exit, old(kernel.accepts), kernel.accepts)
      ensures kernel.waits == old(kernel.waits)
    {
      if event.fd != listener {
        // The source's check for an unknown descriptor: it cannot fail here.
        if event.fd !in clients {
          assert false;
        }
        ghost var io, o := VisitClient(event.fd, event);
        return None;
      }
      if !event.readable || event.error || event.hangup {
        return Some(ListenerFailure);
      }
      exit := AcceptClients();
    }

    static ghost predicate OnlyAdopts(before: seq<Action>, after: seq<Action>) {
      before <= after && forall i :: |before| <= i < |after| ==> after[i].Adopt?
    }

    static lemma OneMoreAdopted(before: seq<Action>, sofar: seq<Action>, after: seq<Action>)
      requires OnlyAdopts(before, sofar)
      requires after == sofar || (|after| > 0 && after == sofar + [after[|after| - 1]] && after[|after| - 1].Adopt?)
      ensures OnlyAdopts(before, after)
    {
    }

    /** A client's event is one visit to that client; the listener's is a batch of accepts, or a failure. */
    ghost predicate Dispatched(
      event: ReadyEvent, before: seq<Action>, after: seq<Action>, exit: Option<Exit>,
      taken: Tally<AcceptResult>, taken': Tally<AcceptResult>)
    {
      if event.fd != listener then
        && exit == None && |after| == |before| + 1 && before <= after && taken' == taken
        && after[|before|].Serve? && after[|before|].fd == event.fd && after[|before|].io.event == event
      else if !event.readable || event.error || event.hangup then
        exit == Some(ListenerFailure) && after == before && taken' == taken
      else
        OnlyAdopts(before, after) && TookConnections(taken, taken', exit)
    }

    /** The first part of a turn: sweep, then wait once. */
    method Poll() returns (waited: WaitResult, ghost checks: map<int, int>, ghost acts: seq<Action>, ghost now: int)
      requires Valid()
      modifies this`clients, this`run, this`state, kernel, store, clients.Values
      ensures Valid() && Among(clients, old(clients)) && kernel.accepts == old(kernel.accepts)
      ensures run == old(run) + acts && checks.Keys == old(clients).Keys
      ensures old(kernel.clock) <= now <= kernel.clock
      ensures Fair(old(Sights()), old(kernel.clock), now, checks, acts, clients.Keys)
      ensures AllAttended(old(Sights()), checks, old(state.log), state.log)
      ensures kernel.waits == old(kernel.waits) + [Wait(if SomeRunnable(state.clients, {}) then 0 else TIMER_POLL, waited)]
      ensures SomeRunnable(state.clients, {}) || Quiescent()
      ensures waited.Ready? ==> waited.event.fd in clients || waited.event.fd == listener
    {
      var remains;
      ghost var sights, start := Sights(), kernel.clock;
      remains, checks, acts := Sweep();
      now := kernel.clock;
      assert Fair(sights, start, now, checks, acts, clients.Keys);
      waited := WaitForEvent(remains);
    }

    /** One turn of the loop: sweep, wait once, dispatch at most one event. */
    method Turn() returns (exit: Option<Exit>, ghost t: Turned, ghost now: int)
      requires Valid()
      modifies this`clients, this`run, this`state, kernel, store, clients.Values
      ensures Valid()
      ensures kernel.waits == old(kernel.waits) + [Wait(if SomeRunnable(t.at.clients, {}) then 0 else TIMER_POLL, t.waited)]
      ensures old(run) + t.acts <= run && Leads(listener, old(run) + t.acts, t.at)
      ensures t.checks.Keys == old(clients).Keys
      ensures Fair(old(Sights()), old(kernel.clock), now, t.checks, t.acts, t.at.clients.Keys)
      ensures AllAttended(old(Sights()), t.checks, old(state.log), t.at.log)
      ensures SomeRunnable(t.at.clients, {}) || Idle(t.at)
      ensures Exits(listener, [t.waited], exit, old(kernel.accepts), kernel.accepts)
      ensures match t.waited
        case Ready(event) => Dispatched(event, old(run) + t.acts, run, exit, old(kernel.accepts), kernel.accepts)
        case WaitFailed => run == old(run) + t.acts && exit == Some(WaitError)
        case WaitInterrupted | TimedOut => run == old(run) + t.acts && exit == None
      ensures forall c :: c in clients.Values ==> c in old(clients.Values) || fresh(c)
      ensures Newcomers(old(clients.Values), old(kernel.clock))
    {
      ghost var checks, acts;
      var waited;
      waited, checks, acts, now := Poll();
      t := Turned(waited, checks, acts, state);
      assert SomeRunnable(state.clients, {}) || Idle(state) by {
        Reached();
        if !SomeRunnable(state.clients, {}) {
          NobodyRunnableIsIdle(listener, state);
        }
      }
      ghost var all := old(clients);
      assert clients.Values <= all.Values by {
        FewerValues(clients, all);
      }
      match waited
      case Ready(event) => exit := Dispatch(event);
      case WaitFailed => exit := Some(WaitError);
      case WaitInterrupted | TimedOut => exit := None;
    }

    /** What a wait's result makes the loop return, if anything. */
    static function ExitFor(listener: int, w: WaitResult): Option<Exit> {
      match w
      case WaitFailed => Some(WaitError)
      case Ready(event) =>
        if event.fd == listener && (!event.readable || event.error || event.hangup) then Some(ListenerFailure) else None
      case _ => None
    }

    /**
     * The loop returned for a reason the kernel gave, and only then: no wait but the last calls for an
     * exit, the last one's is the exit taken, and an accept failed for good exactly in the other exit.
     */
    static ghost predicate Exits(
      listener: int, seen: seq<WaitResult>, exit: Option<Exit>, taken: Tally<AcceptResult>, taken': Tally<AcceptResult>)
    {
      && (forall i :: 0 <= i < |seen| - 1 ==> ExitFor(listener, seen[i]) == None)
      && taken'.calls >= taken.calls
      && (if exit == Some(AcceptFailure)
          then taken'.failures == taken.failures + 1 && taken'.calls > taken.calls && taken'.last == AcceptFatal
          else taken'.failures == taken.failures)
      && if seen == [] then exit == None
         else if ExitFor(listener, seen[|seen| - 1]) != None then exit == ExitFor(listener, seen[|seen| - 1])
         else exit == None || exit == Some(AcceptFailure)
    }

    static lemma ExitsLater(
      listener: int, seen: seq<WaitResult>, w: WaitResult, exit: Option<Exit>,
      taken: Tally<AcceptResult>, taken': Tally<AcceptResult>, taken'': Tally<AcceptResult>)
      requires Exits(listener, seen, None, taken, taken') && Exits(listener, [w], exit, taken', taken'')
      ensures Exits(listener, seen + [w], exit, taken, taken'')
    {
      forall i | 0 <= i < |seen|
        ensures ExitFor(listener, seen[i]) == None
      {
      }
    }

    /** Any number of turns: the server is always in a state that some run of the model reaches. */
    method EventLoop(turns: nat) returns (exit: Option<Exit>, ghost seen: seq<WaitResult>)
      requires Valid()
      modifies this`clients, this`run, this`state, kernel, store, clients.Values
      ensures Valid() && Inv(listener, state) && old(run) <= run
      ensures Results(kernel.waits) == Results(old(kernel.waits)) + seen
      ensures Exits(listener, seen, exit, old(kernel.accepts), kernel.accepts)
      ensures |seen| <= turns && (exit == None ==> |seen| == turns)
      ensures exit != Some(UnknownClient) && exit != Some(DuplicateOwner)
    {
      exit, seen := None, [];
      Right(Results(kernel.waits));
      var turn := 0;
      while turn < turns && exit == None
        invariant Valid() && old(run) <= run
        invariant turn <= turns && |seen| == turn
        invariant Results(kernel.waits) == Results(old(kernel.waits)) + seen
        invariant Exits(listener, seen, exit, old(kernel.accepts), kernel.accepts)
        invariant forall c :: c in clients.Values ==> c in old(clients.Values) || fresh(c)
        decreases turns - turn
      {
        ghost var t, now;
        ghost var waits, taken := kernel.waits, kernel.accepts;
        exit, t, now := Turn();
        ResultsMore(waits, kernel.waits[|waits|]);
        Assoc(Results(old(kernel.waits)), seen, [t.waited]);
        ExitsLater(listener, seen, t.waited, exit, old(kernel.accepts), taken, kernel.accepts);
        seen := seen + [t.waited];
        turn := turn + 1;
      }
      Reached();
    }

    static ghost function Results(waits: seq<Wait>): seq<WaitResult> {
      seq(|waits|, i requires 0 <= i < |waits| => waits[i].result)
    }

    static lemma ResultsMore(waits: seq<Wait>, w: Wait)
      ensures Results(waits + [w]) == Results(waits) + [w.result]
    {
    }
  }
}
