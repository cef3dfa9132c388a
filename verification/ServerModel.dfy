/**
 * The whole server as a value: the clients, the shared store, the registrations and the history,
 * with one action for each thing the event loop of apps/server.cpp can do to them. A run is any
 * sequence of enabled actions: any order of clients, any kernel results.
 */
module ServerModel {
  import opened Wrappers
  import opened Sequences
  import opened Limits
  import opened Framing
  import opened Store
  import opened Serial
  import opened ConnectionModel
  import opened VisitTheorems

  /** A retired connection as it was left, and why it was retired. */
  datatype Closing = Closing(conn: Conn, reason: Reason)

  /** Clients are numbered as they are adopted; `owners` gives the descriptor each of them was adopted on. */
  datatype ServerState = ServerState(
    log: seq<Entry>, data: Data,
    clients: map<int, Conn>, closed: map<nat, Closing>,
    nextId: nat, owners: map<nat, int>,
    registered: map<int, Interest>)

  datatype Action =
    | Adopt(fd: int)
    | Serve(fd: int, io: Io)
    | Expire(fd: int)

  function Initial(listener: int): ServerState {
    ServerState([], map[], map[], map[], 0, map[], map[listener := Interest(true, false)])
  }

  /** The log entries of the frames that turned `v` into `c`. */
  function Logged(v: Conn, c: Conn): seq<Entry> {
    if |v.executed| <= |c.executed| then Entries(v.id, c.executed[|v.executed|..]) else []
  }

  ghost predicate Enabled(s: ServerState, a: Action) {
    match a
    case Adopt(fd) => fd !in s.registered && |s.clients| < MAX_CLIENTS
    case Serve(fd, io) => fd in s.clients && ValidIo(s.clients[fd], s.data, io)
    case Expire(fd) => fd in s.clients
  }

  function Retired(s: ServerState, fd: int, c: Conn, reason: Reason): ServerState {
    s.(clients := s.clients - {fd}, closed := s.closed[c.id := Closing(c, reason)], registered := s.registered - {fd})
  }

  function Kept(s: ServerState, fd: int, c: Conn): ServerState {
    s.(clients := s.clients[fd := c], registered := s.registered[fd := Wanted(c)])
  }

  /** The state with a number drawn for the client adopted on `fd`. */
  function Numbered(s: ServerState, fd: int): ServerState {
    s.(nextId := s.nextId + 1, owners := s.owners[s.nextId := fd])
  }

  ghost function Next(s: ServerState, a: Action): ServerState
    requires Enabled(s, a)
  {
    match a
    case Adopt(fd) => Kept(Numbered(s, fd), fd, Fresh(s.nextId, fd))
    case Serve(fd, io) =>
      var v := s.clients[fd];
      var o := Visit(v, s.data, io);
      var served := s.(log := s.log + Logged(v, o.conn), data := o.data);
      if o.reason.Some? then Retired(served, fd, o.conn, o.reason.value) else Kept(served, fd, o.conn)
    case Expire(fd) => Retired(s, fd, s.clients[fd], IdleTimeout)
  }

  /** The actions that concern one descriptor. */
  function ActionsOn(actions: seq<Action>, fd: int): seq<Action> {
    if actions == [] then []
    else
      ActionsOn(actions[..|actions| - 1], fd) +
      (if actions[|actions| - 1].fd == fd then [actions[|actions| - 1]] else [])
  }

  ghost predicate AllOn(actions: seq<Action>, fd: int) {
    forall i :: 0 <= i < |actions| ==> actions[i].fd == fd
  }

  lemma AllOnOne(a: Action, fd: int)
    requires a.fd == fd
    ensures AllOn([a], fd)
  {
  }

  lemma {:induction false} ActionsOnAppend(a: seq<Action>, b: seq<Action>, fd: int)
    ensures ActionsOn(a + b, fd) == ActionsOn(a, fd) + ActionsOn(b, fd)
  {
    if b == [] {
      Right(a);
    } else {
      assert (a + b)[..|a + b| - 1] == a + b[..|b| - 1];
      ActionsOnAppend(a, b[..|b| - 1], fd);
    }
  }

  lemma {:induction false} NoneOn(actions: seq<Action>, fd: int)
    requires forall i :: 0 <= i < |actions| ==> actions[i].fd != fd
    ensures ActionsOn(actions, fd) == []
  {
    if actions != [] {
      NoneOn(actions[..|actions| - 1], fd);
    }
  }

  lemma {:induction false} AllAreOn(actions: seq<Action>, fd: int)
    requires AllOn(actions, fd)
    ensures ActionsOn(actions, fd) == actions
  {
    if actions != [] {
      AllAreOn(actions[..|actions| - 1], fd);
      Unsnoc(actions);
    }
  }

  lemma {:induction false} OnlyLater(a: seq<Action>, b: seq<Action>, fd: int)
    requires (forall i :: 0 <= i < |a| ==> a[i].fd != fd) && AllOn(b, fd)
    ensures ActionsOn(a + b, fd) == b
  {
    ActionsOnAppend(a, b, fd);
    NoneOn(a, fd);
    AllAreOn(b, fd);
  }

  lemma {:induction false} OnlyEarlier(a: seq<Action>, b: seq<Action>, fd: int)
    requires forall i :: 0 <= i < |b| ==> b[i].fd != fd
    ensures ActionsOn(a + b, fd) == ActionsOn(a, fd)
  {
    ActionsOnAppend(a, b, fd);
    NoneOn(b, fd);
  }

  ghost predicate IsRun(listener: int, actions: seq<Action>)
    decreases |actions|, 0
  {
    actions == [] ||
    var before := actions[..|actions| - 1];
    IsRun(listener, before) && Enabled(Replay(listener, before), actions[|actions| - 1])
  }

  ghost function Replay(listener: int, actions: seq<Action>): ServerState
    requires IsRun(listener, actions)
    decreases |actions|, 1
  {
    if actions == [] then Initial(listener)
    else Next(Replay(listener, actions[..|actions| - 1]), actions[|actions| - 1])
  }

  lemma RunGrows(listener: int, actions: seq<Action>, a: Action)
    requires IsRun(listener, actions) && Enabled(Replay(listener, actions), a)
    ensures IsRun(listener, actions + [a])
    ensures Replay(listener, actions + [a]) == Next(Replay(listener, actions), a)
  {
    assert (actions + [a])[..|actions|] == actions;
  }

  /** `s` is where the run of `actions` leads. */
  ghost predicate Leads(listener: int, actions: seq<Action>, s: ServerState) {
    IsRun(listener, actions) && s == Replay(listener, actions)
  }

  /** What serving does to the parts of the state that live in the heap. */
  lemma ServeStep(listener: int, actions: seq<Action>, s: ServerState, fd: int, io: Io, o: Outcome)
    returns (s': ServerState)
    requires Leads(listener, actions, s) && fd in s.clients && ValidIo(s.clients[fd], s.data, io)
    requires o == Visit(s.clients[fd], s.data, io)
    ensures Leads(listener, actions + [Serve(fd, io)], s')
    ensures s'.data == o.data
    ensures s'.clients == if o.reason.Some? then s.clients - {fd} else s.clients[fd := o.conn]
    ensures s.log <= s'.log
    ensures Runnable(s.clients[fd]) && !io.event.error && !io.event.hangup ==>
      Advances(s.log, s'.log, s.clients[fd].id)
    ensures s'.closed == if o.reason.Some? then s.closed[o.conn.id := Closing(o.conn, o.reason.value)] else s.closed
    ensures s'.registered == if o.reason.Some? then s.registered - {fd} else s.registered[fd := Wanted(o.conn)]
  {
    RunGrows(listener, actions, Serve(fd, io));
    s' := Next(s, Serve(fd, io));
    EveryRunKeepsInv(listener, actions);
    if Runnable(s.clients[fd]) && !io.event.error && !io.event.hangup {
      ServeAdvances(listener, s, fd, io, o);
    }
  }

  /** The log has more frames of the client than before. */
  ghost predicate Advances(before: seq<Entry>, after: seq<Entry>, client: nat) {
    |FramesOf(after, client)| > |FramesOf(before, client)|
  }

  lemma {:induction false} FramesGrow(before: seq<Entry>, after: seq<Entry>, client: nat)
    requires before <= after
    ensures |FramesOf(before, client)| <= |FramesOf(after, client)|
  {
    if before == after {
    } else {
      FramesGrow(before, after[..|after| - 1], client);
    }
  }

  lemma {:induction false} ServeAdvances(listener: int, s: ServerState, fd: int, io: Io, o: Outcome)
    requires Inv(listener, s) && Enabled(s, Serve(fd, io)) && o == Visit(s.clients[fd], s.data, io)
    requires Runnable(s.clients[fd]) && !io.event.error && !io.event.hangup
    ensures Advances(s.log, Next(s, Serve(fd, io)).log, s.clients[fd].id)
  {
    var v := s.clients[fd];
    assert ClientOk(s.log, s.nextId, s.owners, s.closed.Keys, fd, v);
    var frames := VisitServes(v, s.data, io, o);
    OwnLedger(s.log, v, s.data, o, frames);
    VisitRuns(v, s.data, io, o);
  }

  lemma AdoptStep(listener: int, actions: seq<Action>, s: ServerState, fd: int) returns (s': ServerState)
    requires Leads(listener, actions, s) && fd !in s.registered && |s.clients| < MAX_CLIENTS
    ensures Leads(listener, actions + [Adopt(fd)], s')
    ensures s'.data == s.data && s'.nextId == s.nextId + 1
    ensures s'.clients == s.clients[fd := Fresh(s.nextId, fd)]
    ensures s'.registered == s.registered[fd := Interest(true, false)]
  {
    RunGrows(listener, actions, Adopt(fd));
    s' := Next(s, Adopt(fd));
  }

  lemma ExpireStep(listener: int, actions: seq<Action>, s: ServerState, fd: int) returns (s': ServerState)
    requires Leads(listener, actions, s) && fd in s.clients
    ensures Leads(listener, actions + [Expire(fd)], s')
    ensures s'.data == s.data && s'.log == s.log && s'.clients == s.clients - {fd} && s'.registered == s.registered - {fd}
    ensures s'.closed == s.closed[s.clients[fd].id := Closing(s.clients[fd], IdleTimeout)]
  {
    RunGrows(listener, actions, Expire(fd));
    s' := Next(s, Expire(fd));
  }

  // ---- The invariant ----

  /** The connection's history is what the log says of it. */
  ghost predicate Ledger(log: seq<Entry>, c: Conn) {
    c.executed == FramesOf(log, c.id) && c.replies == RepliesOf(log, c.id)
  }

  ghost predicate ClientOk(
    log: seq<Entry>, nextId: nat, owners: map<nat, int>, closed: set<nat>, fd: int, c: Conn)
  {
    && c.fd == fd && c.id < nextId && c.id !in closed && c.id in owners && owners[c.id] == fd
    && Sound(c) && Rested(c) && AllReplies(c.replies) && Ledger(log, c)
  }

  ghost predicate ClosedOk(log: seq<Entry>, nextId: nat, id: nat, x: Closing) {
    && x.conn.id == id && id < nextId
    && Sound(x.conn) && AllReplies(x.conn.replies) && Ledger(log, x.conn)
    && x.reason != ResponseBufferLimit
    && (x.reason == EofAndDrained ==> AnsweredInFull(x.conn))
    && (x.reason == InputBufferLimit <==> Stuck(x.conn.input))
  }

  /** The listener is watched for reading; each client for exactly what it can make use of. */
  function Registrations(listener: int, clients: map<int, Conn>): map<int, Interest> {
    (map fd | fd in clients :: Wanted(clients[fd]))[listener := Interest(true, false)]
  }

  ghost predicate Inv(listener: int, s: ServerState) {
    && s.data == StoreAfter(s.log) && Bounded(s.data)
    && (forall i :: 0 <= i < |s.log| ==> s.log[i].client < s.nextId)
    && (forall fd {:trigger ClientOk(s.log, s.nextId, s.owners, s.closed.Keys, fd, s.clients[fd])} ::
          fd in s.clients ==> ClientOk(s.log, s.nextId, s.owners, s.closed.Keys, fd, s.clients[fd]))
    && (forall id {:trigger ClosedOk(s.log, s.nextId, id, s.closed[id])} ::
          id in s.closed ==> ClosedOk(s.log, s.nextId, id, s.closed[id]))
    && listener !in s.clients && s.registered == Registrations(listener, s.clients)
    && |s.clients| <= MAX_CLIENTS
  }

  lemma InitialInv(listener: int)
    ensures Inv(listener, Initial(listener))
  {
  }

  // ---- Registrations ----

  lemma RegistrationsKept(listener: int, clients: map<int, Conn>, fd: int, c: Conn)
    requires fd != listener
    ensures Registrations(listener, clients[fd := c]) == Registrations(listener, clients)[fd := Wanted(c)]
  {
  }

  lemma RegistrationsRetired(listener: int, clients: map<int, Conn>, fd: int)
    requires fd != listener
    ensures Registrations(listener, clients - {fd}) == Registrations(listener, clients) - {fd}
  {
  }

  lemma CountKept<T>(m: map<int, T>, fd: int, c: T)
    ensures |m[fd := c]| == if fd in m then |m| else |m| + 1
  {
    if fd in m {
      assert m[fd := c].Keys == m.Keys;
    } else {
      assert m[fd := c].Keys == m.Keys + {fd};
    }
    assert |m[fd := c].Keys| == |m[fd := c]| && |m.Keys| == |m|;
  }

  lemma CountRetired<T>(m: map<int, T>, fd: int)
    ensures |m - {fd}| <= |m|
  {
    assert (m - {fd}).Keys == m.Keys - {fd};
    assert |(m - {fd}).Keys| == |m - {fd}| && |m.Keys| == |m|;
  }

  // ---- Retiring and keeping ----

  /** Everything `Inv` says except what concerns the connection `c` at `fd`. */
  ghost predicate InvBut(listener: int, s: ServerState, fd: int, c: Conn) {
    && s.data == StoreAfter(s.log) && Bounded(s.data)
    && (forall i :: 0 <= i < |s.log| ==> s.log[i].client < s.nextId)
    && (forall g {:trigger ClientOk(s.log, s.nextId, s.owners, s.closed.Keys, g, s.clients[g])} ::
          g in s.clients && g != fd ==>
          ClientOk(s.log, s.nextId, s.owners, s.closed.Keys, g, s.clients[g]))
    && (forall id {:trigger ClosedOk(s.log, s.nextId, id, s.closed[id])} ::
          id in s.closed ==> ClosedOk(s.log, s.nextId, id, s.closed[id]))
    && listener !in s.clients && s.registered == Registrations(listener, s.clients)
    && c.id in s.owners && s.owners[c.id] == fd
    && fd != listener && |s.clients| <= MAX_CLIENTS && (fd in s.clients || |s.clients| < MAX_CLIENTS)
  }

  lemma {:induction false} RetiredClients(listener: int, s: ServerState, fd: int, c: Conn, reason: Reason)
    requires InvBut(listener, s, fd, c)
    ensures var s' := Retired(s, fd, c, reason);
      forall g {:trigger ClientOk(s'.log, s'.nextId, s'.owners, s'.closed.Keys, g, s'.clients[g])} ::
        g in s'.clients ==> ClientOk(s'.log, s'.nextId, s'.owners, s'.closed.Keys, g, s'.clients[g])
  {
    var s' := Retired(s, fd, c, reason);
    forall g | g in s'.clients
      ensures ClientOk(s'.log, s'.nextId, s'.owners, s'.closed.Keys, g, s'.clients[g])
    {
      assert ClientOk(s.log, s.nextId, s.owners, s.closed.Keys, g, s.clients[g]);
    }
  }

  lemma {:induction false} RetiredInv(listener: int, s: ServerState, fd: int, c: Conn, reason: Reason)
    requires InvBut(listener, s, fd, c)
    requires ClosedOk(s.log, s.nextId, c.id, Closing(c, reason)) && c.id !in s.closed
    ensures Inv(listener, Retired(s, fd, c, reason))
  {
    RegistrationsRetired(listener, s.clients, fd);
    CountRetired(s.clients, fd);
    RetiredClients(listener, s, fd, c, reason);
    RetiredClosed(s.log, s.nextId, s.closed, c, reason);
  }

  lemma RetiredClosed(log: seq<Entry>, nextId: nat, closed: map<nat, Closing>, c: Conn, reason: Reason)
    requires forall id {:trigger ClosedOk(log, nextId, id, closed[id])} ::
      id in closed ==> ClosedOk(log, nextId, id, closed[id])
    requires ClosedOk(log, nextId, c.id, Closing(c, reason)) && c.id !in closed
    ensures var closed' := closed[c.id := Closing(c, reason)];
      forall id {:trigger ClosedOk(log, nextId, id, closed'[id])} ::
        id in closed' ==> ClosedOk(log, nextId, id, closed'[id])
  {
    var closed' := closed[c.id := Closing(c, reason)];
    forall id | id in closed'
      ensures ClosedOk(log, nextId, id, closed'[id])
    {
      if id != c.id {
        assert ClosedOk(log, nextId, id, closed[id]);
      }
    }
  }

  lemma {:induction false} KeptInv(listener: int, s: ServerState, fd: int, c: Conn)
    requires InvBut(listener, s, fd, c)
    requires ClientOk(s.log, s.nextId, s.owners, s.closed.Keys, fd, c)
    ensures Inv(listener, Kept(s, fd, c))
  {
    RegistrationsKept(listener, s.clients, fd, c);
    CountKept(s.clients, fd, c);
  }

  // ---- Adopt ----

  lemma {:induction false} NewcomerOk(listener: int, s: ServerState, fd: int)
    requires Inv(listener, s)
    ensures ClientOk(s.log, s.nextId + 1, s.owners[s.nextId := fd], s.closed.Keys, fd, Fresh(s.nextId, fd))
  {
    FreshIsSound(s.nextId, fd);
    AbsentClient(s.log, s.nextId);
    forall id | id in s.closed
      ensures id < s.nextId
    {
      assert ClosedOk(s.log, s.nextId, id, s.closed[id]);
    }
  }

  lemma {:induction false} NewcomerInv(listener: int, s: ServerState, fd: int)
    requires Inv(listener, s) && Enabled(s, Adopt(fd))
    ensures InvBut(listener, Numbered(s, fd), fd, Fresh(s.nextId, fd))
  {
    forall g | g in s.clients && g != fd
      ensures ClientOk(s.log, s.nextId + 1, s.owners[s.nextId := fd], s.closed.Keys, g, s.clients[g])
    {
      assert ClientOk(s.log, s.nextId, s.owners, s.closed.Keys, g, s.clients[g]);
    }
    forall id | id in s.closed
      ensures ClosedOk(s.log, s.nextId + 1, id, s.closed[id])
    {
      assert ClosedOk(s.log, s.nextId, id, s.closed[id]);
    }
  }

  lemma {:induction false} AdoptKeepsInv(listener: int, s: ServerState, fd: int)
    requires Inv(listener, s) && Enabled(s, Adopt(fd))
    ensures Inv(listener, Next(s, Adopt(fd)))
  {
    NewcomerOk(listener, s, fd);
    NewcomerInv(listener, s, fd);
    KeptInv(listener, Numbered(s, fd), fd, Fresh(s.nextId, fd));
  }

  // ---- Expire ----

  lemma {:induction false} ExpireKeepsInv(listener: int, s: ServerState, fd: int)
    requires Inv(listener, s) && Enabled(s, Expire(fd))
    ensures Inv(listener, Next(s, Expire(fd)))
  {
    var c := s.clients[fd];
    assert ClientOk(s.log, s.nextId, s.owners, s.closed.Keys, fd, c);
    RetiredInv(listener, s, fd, c, IdleTimeout);
  }

  // ---- Serve ----

  /** Serving one client leaves every other client's ledger as it was. */
  lemma {:induction false} OtherLedger(log: seq<Entry>, client: nat, frames: seq<string>, c: Conn)
    requires Ledger(log, c) && c.id != client
    ensures Ledger(log + Entries(client, frames), c)
  {
    LogExtends(log, client, frames);
  }

  lemma {:induction false} OwnLedger(log: seq<Entry>, v: Conn, d: Data, o: Outcome, frames: seq<string>)
    requires Ledger(log, v) && d == StoreAfter(log) && Served(v, d, o, frames)
    ensures Logged(v, o.conn) == Entries(v.id, frames)
    ensures Ledger(log + Entries(v.id, frames), o.conn)
    ensures o.data == StoreAfter(log + Entries(v.id, frames))
  {
    LogExtends(log, v.id, frames);
    assert (v.executed + frames)[|v.executed|..] == frames;
  }

  lemma {:induction false} ServedClients(s: ServerState, fd: int, client: nat, frames: seq<string>, log': seq<Entry>)
    requires forall g {:trigger ClientOk(s.log, s.nextId, s.owners, s.closed.Keys, g, s.clients[g])} ::
      g in s.clients ==> ClientOk(s.log, s.nextId, s.owners, s.closed.Keys, g, s.clients[g])
    requires fd in s.clients && s.clients[fd].id == client && log' == s.log + Entries(client, frames)
    ensures forall g {:trigger ClientOk(log', s.nextId, s.owners, s.closed.Keys, g, s.clients[g])} ::
      g in s.clients && g != fd ==> ClientOk(log', s.nextId, s.owners, s.closed.Keys, g, s.clients[g])
  {
    assert ClientOk(s.log, s.nextId, s.owners, s.closed.Keys, fd, s.clients[fd]);
    forall g | g in s.clients && g != fd
      ensures ClientOk(log', s.nextId, s.owners, s.closed.Keys, g, s.clients[g])
    {
      assert ClientOk(s.log, s.nextId, s.owners, s.closed.Keys, g, s.clients[g]);
      OtherLedger(s.log, client, frames, s.clients[g]);
    }
  }

  lemma {:induction false} ServedClosed(s: ServerState, client: nat, frames: seq<string>, log': seq<Entry>)
    requires forall id {:trigger ClosedOk(s.log, s.nextId, id, s.closed[id])} ::
      id in s.closed ==> ClosedOk(s.log, s.nextId, id, s.closed[id])
    requires client !in s.closed && log' == s.log + Entries(client, frames)
    ensures forall id {:trigger ClosedOk(log', s.nextId, id, s.closed[id])} ::
      id in s.closed ==> ClosedOk(log', s.nextId, id, s.closed[id])
  {
    forall id | id in s.closed
      ensures ClosedOk(log', s.nextId, id, s.closed[id])
    {
      assert ClosedOk(s.log, s.nextId, id, s.closed[id]);
      OtherLedger(s.log, client, frames, s.closed[id].conn);
    }
  }

  lemma {:induction false} ServedOthers(listener: int, s: ServerState, fd: int, frames: seq<string>, d: Data)
    requires Inv(listener, s) && fd in s.clients
    requires d == StoreAfter(s.log + Entries(s.clients[fd].id, frames)) && Bounded(d)
    ensures InvBut(listener, s.(log := s.log + Entries(s.clients[fd].id, frames), data := d), fd, s.clients[fd])
  {
    var v := s.clients[fd];
    var log' := s.log + Entries(v.id, frames);
    assert ClientOk(s.log, s.nextId, s.owners, s.closed.Keys, fd, v);
    ServedClients(s, fd, v.id, frames, log');
    ServedClosed(s, v.id, frames, log');
  }

  lemma {:induction false} ServeKeepsInv(listener: int, s: ServerState, fd: int, io: Io)
    requires Inv(listener, s) && Enabled(s, Serve(fd, io))
    ensures Inv(listener, Next(s, Serve(fd, io)))
  {
    var v := s.clients[fd];
    assert ClientOk(s.log, s.nextId, s.owners, s.closed.Keys, fd, v);
    var o := Visit(v, s.data, io);
    var frames := VisitServes(v, s.data, io, o);
    VisitKeepsSound(v, s.data, io, o);
    OwnLedger(s.log, v, s.data, o, frames);
    ServedOthers(listener, s, fd, frames, o.data);
    var served := s.(log := s.log + Logged(v, o.conn), data := o.data);
    if o.reason.Some? {
      InputLimitIsExact(v, s.data, io, o);
      if o.reason == Some(EofAndDrained) {
        HalfCloseDrainsExactly(v, s.data, io, o);
      }
      RetiredInv(listener, served, fd, o.conn, o.reason.value);
    } else {
      VisitRests(v, s.data, io, o);
      KeptInv(listener, served, fd, o.conn);
    }
  }

  lemma {:induction false} NextKeepsInv(listener: int, s: ServerState, a: Action)
    requires Inv(listener, s) && Enabled(s, a)
    ensures Inv(listener, Next(s, a))
  {
    match a
    case Adopt(fd) => AdoptKeepsInv(listener, s, fd);
    case Serve(fd, io) => ServeKeepsInv(listener, s, fd, io);
    case Expire(fd) => ExpireKeepsInv(listener, s, fd);
  }

  /** A visit that reads nothing would execute nothing. */
  ghost predicate Dormant(c: Conn, d: Data) {
    forall io :: ValidIo(c, d, io) && !io.event.readable ==>
      Visit(c, d, io).conn.executed == c.executed && Visit(c, d, io).data == d
  }

  lemma {:induction false} RestedIsDormant(c: Conn, d: Data)
    requires Sound(c) && AllReplies(c.replies) && Bounded(d) && Rested(c) && !Runnable(c)
    ensures Dormant(c, d)
  {
    forall io | ValidIo(c, d, io) && !io.event.readable
      ensures Visit(c, d, io).conn.executed == c.executed && Visit(c, d, io).data == d
    {
      VisitIdles(c, d, io, Visit(c, d, io));
    }
  }

  /** No client would execute a frame, and each is registered for exactly what it waits for, which is something. */
  ghost predicate Idle(s: ServerState) {
    forall fd :: fd in s.clients ==>
      var c := s.clients[fd];
      Dormant(c, s.data) && fd in s.registered && s.registered[fd] == Wanted(c) && (Wanted(c).read || Wanted(c).write)
  }

  lemma {:induction false} NobodyRunnableIsIdle(listener: int, s: ServerState)
    requires Inv(listener, s)
    requires forall fd :: fd in s.clients ==> !Runnable(s.clients[fd])
    ensures Idle(s)
  {
    forall fd | fd in s.clients
      ensures Dormant(s.clients[fd], s.data) && (Wanted(s.clients[fd]).read || Wanted(s.clients[fd]).write)
    {
      assert ClientOk(s.log, s.nextId, s.owners, s.closed.Keys, fd, s.clients[fd]);
      RestedIsAwaited(s.clients[fd]);
      RestedIsDormant(s.clients[fd], s.data);
    }
  }

  /** The invariant holds at the end of every run. */
  lemma {:induction false} EveryRunKeepsInv(listener: int, actions: seq<Action>)
    requires IsRun(listener, actions)
    ensures Inv(listener, Replay(listener, actions))
    decreases |actions|
  {
    if actions == [] {
      InitialInv(listener);
    } else {
      var before := actions[..|actions| - 1];
      EveryRunKeepsInv(listener, before);
      NextKeepsInv(listener, Replay(listener, before), actions[|actions| - 1]);
    }
  }
}
