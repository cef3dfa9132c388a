/** What every run of the server guarantees. */
module Theorems {
  import opened Wrappers
  import opened Sequences
  import opened Limits
  import opened Framing
  import opened Commands
  import opened Store
  import opened Serial
  import opened Answers
  import opened ConnectionModel
  import opened VisitTheorems
  import opened ServerModel
  import Blocking
  import opened Servers
  import opened Kernels

  // ---- Serialisability ----

  /**
   * The log explains the connection: its frames are the first complete frames of what it received,
   * and what was sent and is still queued is the replies the log computes for them.
   */
  ghost predicate Explains(log: seq<Entry>, c: Conn) {
    && FramesOf(log, c.id) <= Frames(c.received)
    && c.sent + c.output == Concat(RepliesOf(log, c.id))
  }

  lemma {:induction false} LedgerExplains(log: seq<Entry>, c: Conn)
    requires Sound(c) && Ledger(log, c)
    ensures Explains(log, c)
  {
    TailOfSound(c);
  }

  /** One log of executed frames explains the store and every connection there is or ever was. */
  lemma {:induction false} EveryRunIsSerial(listener: int, actions: seq<Action>)
    requires IsRun(listener, actions)
    ensures var s := Replay(listener, actions);
      && s.data == StoreAfter(s.log)
      && (forall fd :: fd in s.clients ==> Explains(s.log, s.clients[fd]))
      && (forall id :: id in s.closed ==> Explains(s.log, s.closed[id].conn))
  {
    EveryRunKeepsInv(listener, actions);
    var s := Replay(listener, actions);
    forall fd | fd in s.clients
      ensures Explains(s.log, s.clients[fd])
    {
      assert ClientOk(s.log, s.nextId, s.owners, s.closed.Keys, fd, s.clients[fd]);
      LedgerExplains(s.log, s.clients[fd]);
    }
    forall id | id in s.closed
      ensures Explains(s.log, s.closed[id].conn)
    {
      assert ClosedOk(s.log, s.nextId, id, s.closed[id]);
      LedgerExplains(s.log, s.closed[id].conn);
    }
  }

  /** The log explains what the kernel moved on a client's descriptor, and what the client still holds to send. */
  ghost predicate Accounts(log: seq<Entry>, id: nat, moved: Traffic, pending: string) {
    && FramesOf(log, id) <= Frames(moved.delivered)
    && moved.accepted + pending == Concat(RepliesOf(log, id))
  }

  /**
   * So it is for the server object, whatever turns its loop has taken: one log explains the store and,
   * for each client, the bytes that the kernel delivered, the bytes it accepted and the bytes still held.
   */
  lemma {:induction false} ServerIsSerial(server: Server)
    requires server.Valid()
    ensures server.store.data == StoreAfter(server.state.log)
    ensures forall fd :: fd in server.clients ==>
      var c := server.clients[fd];
      && c.Valid() && c.socket == fd && fd in server.kernel.traffic
      && Accounts(server.state.log, c.id, server.kernel.traffic[fd], c.outputBuffer[c.outputCursor..])
  {
    EveryRunIsSerial(server.listener, server.run);
    forall fd | fd in server.clients
      ensures var c := server.clients[fd];
        && c.Valid() && c.socket == fd && fd in server.kernel.traffic
        && Accounts(server.state.log, c.id, server.kernel.traffic[fd], c.outputBuffer[c.outputCursor..])
    {
      assert Server.Mirrors(fd, server.clients[fd], server.state.clients[fd]);
    }
  }

  /** A visit that ends drained has moved, since the descriptor was accepted, all frames in and all their replies out. */
  method DrainedOnTheWire(server: Server, fd: int, event: ReadyEvent) returns (ghost o: Outcome)
    requires server.Valid() && fd in server.clients
    modifies server`clients, server`run, server`state, server.kernel, server.store, server.clients[fd]
    ensures server.Valid() && fd in server.kernel.traffic
    ensures o.reason == Some(EofAndDrained) ==>
      var log, moved := server.state.log, server.kernel.traffic[fd];
      && moved.ended
      && FramesOf(log, o.conn.id) == Frames(moved.delivered)
      && moved.accepted == Concat(RepliesOf(log, o.conn.id))
  {
    ghost var io;
    io, o := server.VisitClient(fd, event);
    if o.reason == Some(EofAndDrained) {
      DrainedClientsAreAnswered(server.listener, server.run, o.conn.id);
    }
  }

  // ---- Limits ----

  /** No connection is ever retired for its output, and stored pairs fit in the frame that brought them. */
  lemma {:induction false} OutputLimitIsUnreachable(listener: int, actions: seq<Action>)
    requires IsRun(listener, actions)
    ensures var s := Replay(listener, actions);
      && (forall id :: id in s.closed ==> s.closed[id].reason != ResponseBufferLimit)
      && (forall k :: k in s.data ==> IsToken(k) && IsToken(s.data[k]) && |s.data[k]| <= MAX_INPUT - 7)
      && (forall fd :: fd in s.clients ==> |s.clients[fd].output| <= MAX_OUTPUT)
  {
    EveryRunKeepsInv(listener, actions);
    var s := Replay(listener, actions);
    forall id | id in s.closed
      ensures s.closed[id].reason != ResponseBufferLimit
    {
      assert ClosedOk(s.log, s.nextId, id, s.closed[id]);
    }
    forall fd | fd in s.clients
      ensures |s.clients[fd].output| <= MAX_OUTPUT
    {
      assert ClientOk(s.log, s.nextId, s.owners, s.closed.Keys, fd, s.clients[fd]);
    }
  }

  /** A connection is retired for its input exactly when it holds a full buffer without a newline, so never on a legal stream. */
  lemma {:induction false} InputLimitOnlyOnOverlongFrames(listener: int, actions: seq<Action>, id: nat, future: string)
    requires IsRun(listener, actions) && id in Replay(listener, actions).closed
    ensures var x := Replay(listener, actions).closed[id];
      && (x.reason == InputBufferLimit <==> Stuck(x.conn.input))
      && (FitsLimit(x.conn.received + future) ==> x.reason != InputBufferLimit)
  {
    EveryRunKeepsInv(listener, actions);
    var s := Replay(listener, actions);
    assert ClosedOk(s.log, s.nextId, id, s.closed[id]);
    if FitsLimit(s.closed[id].conn.received + future) {
      LegalStreamIsNeverRejected(s.closed[id].conn, future);
    }
  }

  // ---- Half-close ----

  /** A connection retired as drained was answered in full, with the replies its place in the log gives. */
  lemma {:induction false} DrainedClientsAreAnswered(listener: int, actions: seq<Action>, id: nat)
    requires IsRun(listener, actions)
    requires id in Replay(listener, actions).closed
    requires Replay(listener, actions).closed[id].reason == EofAndDrained
    ensures var s := Replay(listener, actions); var c := s.closed[id].conn;
      && FramesOf(s.log, id) == Frames(c.received)
      && c.sent == Concat(RepliesOf(s.log, id))
      && c.discarded == Tail(c.received) && c.eof
  {
    EveryRunKeepsInv(listener, actions);
    var s := Replay(listener, actions);
    assert ClosedOk(s.log, s.nextId, id, s.closed[id]);
  }

  // ---- Refinement of the one-client server ----

  /** What other clients do afterwards changes nothing a client was told. */
  lemma {:induction false} OthersFollow(log: seq<Entry>, after: seq<Entry>, id: nat)
    requires forall i :: 0 <= i < |after| ==> after[i].client != id
    ensures FramesOf(log + after, id) == FramesOf(log, id) && RepliesOf(log + after, id) == RepliesOf(log, id)
  {
    if after == [] {
      Right(log);
    } else {
      var init, e := after[..|after| - 1], after[|after| - 1];
      OthersFollow(log, init, id);
      Unsnoc(after);
      Assoc(log, init, [e]);
      LogSnoc(log + init, e);
      Right(FramesOf(log, id));
      Right(RepliesOf(log, id));
    }
  }

  /** `frames` is all the log has of the client, in one stretch between `before` and `after`. */
  ghost predicate Uninterrupted(log: seq<Entry>, id: nat, before: seq<Entry>, frames: seq<string>, after: seq<Entry>) {
    && log == before + Entries(id, frames) + after
    && (forall i :: 0 <= i < |before| ==> before[i].client != id)
    && (forall i :: 0 <= i < |after| ==> after[i].client != id)
  }

  /** An uninterrupted stretch of one client's frames is answered as the naive program answers it. */
  lemma {:induction false} StretchIsNaive(
    log: seq<Entry>, id: nat, before: seq<Entry>, frames: seq<string>, after: seq<Entry>)
    requires Uninterrupted(log, id, before, frames, after)
    ensures FramesOf(log, id) == frames
    ensures RepliesOf(log, id) == ReplyRun(frames, StoreAfter(before))
    ensures after == [] ==> StoreAfter(log) == StoreRun(frames, StoreAfter(before))
  {
    AbsentClient(before, id);
    LogExtends(before, id, frames);
    OthersFollow(before + Entries(id, frames), after, id);
    assert [] + frames == frames;
    assert [] + ReplyRun(frames, StoreAfter(before)) == ReplyRun(frames, StoreAfter(before));
    if after == [] {
      Right(before + Entries(id, frames));
    }
  }

  /**
   * However its bytes were chunked, deferred and sent, a drained client whose frames were executed
   * without others in between was told exactly what `handle_client` would have told it on the same
   * bytes and the store of that moment.
   */
  lemma {:induction false} DrainedClientMatchesNaive(
    listener: int, actions: seq<Action>, id: nat, before: seq<Entry>, frames: seq<string>, after: seq<Entry>)
    requires IsRun(listener, actions)
    requires id in Replay(listener, actions).closed
    requires Replay(listener, actions).closed[id].reason == EofAndDrained
    requires Uninterrupted(Replay(listener, actions).log, id, before, frames, after)
    ensures var s := Replay(listener, actions); var c := s.closed[id].conn;
      && c.sent == Concat(ReplyRun(Frames(c.received), StoreAfter(before)))
      && (after == [] ==> s.data == StoreRun(Frames(c.received), StoreAfter(before)))
  {
    DrainedClientsAreAnswered(listener, actions, id);
    EveryRunKeepsInv(listener, actions);
    StretchIsNaive(Replay(listener, actions).log, id, before, frames, after);
  }

  /** The same, said with both programs: unless a write fails `handle_client` gets all its replies out, and they are the ones sent. */
  method NaiveServerSaysTheSame(
    ghost listener: int, ghost actions: seq<Action>, ghost id: nat,
    ghost before: seq<Entry>, ghost frames: seq<string>, ghost after: seq<Entry>,
    socket: Blocking.BlockingSocket, store: KeyValueStore) returns (ok: bool)
    requires IsRun(listener, actions)
    requires id in Replay(listener, actions).closed
    requires Replay(listener, actions).closed[id].reason == EofAndDrained
    requires Uninterrupted(Replay(listener, actions).log, id, before, frames, after)
    requires Blocking.Deliverable(socket.incoming) == Replay(listener, actions).closed[id].conn.received
    requires store.data == StoreAfter(before) && socket.sent == ""
    modifies socket, store
    ensures Blocking.Writable(old(socket.outgoing)) ==> ok
    ensures ok ==> socket.sent == Replay(listener, actions).closed[id].conn.sent
    ensures ok && after == [] ==> store.data == Replay(listener, actions).data
  {
    DrainedClientMatchesNaive(listener, actions, id, before, frames, after);
    ghost var done;
    ok, done := Blocking.HandleClient(socket, store);
    assert "" + Concat(ReplyRun(done, StoreAfter(before))) == Concat(ReplyRun(done, StoreAfter(before)));
  }

  /** When only one client ever had a frame executed, the log is its frames. */
  lemma {:induction false} OnlyClientLog(log: seq<Entry>, id: nat)
    requires forall i :: 0 <= i < |log| ==> log[i].client == id
    ensures log == Entries(id, FramesOf(log, id))
  {
    if log != [] {
      var init, e := log[..|log| - 1], log[|log| - 1];
      OnlyClientLog(init, id);
      EntriesSnoc(id, FramesOf(init, id), e.frame);
      Unsnoc(log);
    }
  }

  /** So the server with one client is the one-client server: same replies and same store, from the start. */
  lemma {:induction false} OnlyClientMatchesNaive(listener: int, actions: seq<Action>, id: nat)
    requires IsRun(listener, actions)
    requires id in Replay(listener, actions).closed
    requires Replay(listener, actions).closed[id].reason == EofAndDrained
    requires var log := Replay(listener, actions).log; forall i :: 0 <= i < |log| ==> log[i].client == id
    ensures var s := Replay(listener, actions); var c := s.closed[id].conn;
      c.sent == Concat(ReplyRun(Frames(c.received), map[])) && s.data == StoreRun(Frames(c.received), map[])
  {
    var log := Replay(listener, actions).log;
    OnlyClientLog(log, id);
    Right(log);
    assert [] + Entries(id, FramesOf(log, id)) == log;
    DrainedClientMatchesNaive(listener, actions, id, [], FramesOf(log, id), []);
  }

  // ---- Isolation ----

  /** The frame only touches `keys`, and does not count the store. */
  predicate Within(frame: string, keys: set<string>) {
    match Parse(frame)
    case None => true
    case Some(Count) => false
    case Some(c) => c.key in keys
  }

  /** The frame writes none of `keys`; it may read them and count. */
  predicate Spares(frame: string, keys: set<string>) {
    match Parse(frame)
    case Some(Set(key, _)) => key !in keys
    case Some(Erase(key)) => key !in keys
    case _ => true
  }

  /** The client keeps to `keys`, and nobody else writes them. */
  ghost predicate Isolated(log: seq<Entry>, id: nat, keys: set<string>) {
    forall i :: 0 <= i < |log| ==>
      if log[i].client == id then Within(log[i].frame, keys) else Spares(log[i].frame, keys)
  }

  ghost predicate AgreeOn(keys: set<string>, d: Data, e: Data) {
    forall k :: k in keys ==> (k in d <==> k in e) && (k in d && k in e ==> d[k] == e[k])
  }

  lemma SparedAgrees(frame: string, keys: set<string>, d: Data, e: Data)
    requires AgreeOn(keys, d, e) && Spares(frame, keys)
    ensures AgreeOn(keys, After(frame, d), e)
  {
  }

  lemma WithinAgrees(frame: string, keys: set<string>, d: Data, e: Data)
    requires AgreeOn(keys, d, e) && Within(frame, keys)
    ensures AgreeOn(keys, After(frame, d), After(frame, e))
    ensures Reply(frame, d) == Reply(frame, e)
  {
  }

  /** An isolated client cannot tell, however its frames are interleaved, that anyone else is there. */
  lemma {:induction false} IsolationIsNaive(log: seq<Entry>, id: nat, keys: set<string>)
    requires Isolated(log, id, keys)
    ensures AgreeOn(keys, StoreAfter(log), StoreRun(FramesOf(log, id), map[]))
    ensures RepliesOf(log, id) == ReplyRun(FramesOf(log, id), map[])
  {
    if log != [] {
      var init, e := log[..|log| - 1], log[|log| - 1];
      IsolationIsNaive(init, id, keys);
      var d, alone := StoreAfter(init), StoreRun(FramesOf(init, id), map[]);
      if e.client == id {
        WithinAgrees(e.frame, keys, d, alone);
        RunSnoc(FramesOf(init, id), e.frame, map[]);
      } else {
        SparedAgrees(e.frame, keys, d, alone);
        Right(FramesOf(init, id));
      }
    }
  }

  /** The client is connected, or was. */
  ghost predicate TakesPart(s: ServerState, c: Conn) {
    || (c.fd in s.clients && s.clients[c.fd] == c)
    || (c.id in s.closed && s.closed[c.id].conn == c)
  }

  lemma {:induction false} ParticipantIsSound(listener: int, actions: seq<Action>, c: Conn)
    requires IsRun(listener, actions) && TakesPart(Replay(listener, actions), c)
    ensures Sound(c) && AllReplies(c.replies) && Ledger(Replay(listener, actions).log, c)
  {
    EveryRunKeepsInv(listener, actions);
    var s := Replay(listener, actions);
    if c.fd in s.clients && s.clients[c.fd] == c {
      assert ClientOk(s.log, s.nextId, s.owners, s.closed.Keys, c.fd, c);
    } else {
      assert ClosedOk(s.log, s.nextId, c.id, s.closed[c.id]);
    }
  }

  /**
   * So at every point of a run, a client that keeps to keys nobody else writes has been sent, and is
   * still to be sent, what it would be on its own for the frames executed so far.
   */
  lemma {:induction false} IsolatedClientIsServedAlone(listener: int, actions: seq<Action>, c: Conn, keys: set<string>)
    requires IsRun(listener, actions) && TakesPart(Replay(listener, actions), c)
    requires Isolated(Replay(listener, actions).log, c.id, keys)
    ensures c.executed <= Frames(c.received) && c.sent + c.output == Concat(ReplyRun(c.executed, map[]))
  {
    ParticipantIsSound(listener, actions, c);
    TailOfSound(c);
    IsolationIsNaive(Replay(listener, actions).log, c.id, keys);
  }

  /** And once drained it has been told all it would be told on its own. */
  lemma {:induction false} IsolatedClientMatchesNaive(listener: int, actions: seq<Action>, id: nat, keys: set<string>)
    requires IsRun(listener, actions)
    requires id in Replay(listener, actions).closed
    requires Replay(listener, actions).closed[id].reason == EofAndDrained
    requires Isolated(Replay(listener, actions).log, id, keys)
    ensures var c := Replay(listener, actions).closed[id].conn;
      c.sent == Concat(ReplyRun(Frames(c.received), map[]))
  {
    DrainedClientsAreAnswered(listener, actions, id);
    IsolationIsNaive(Replay(listener, actions).log, id, keys);
  }

  // ---- What the client reads ----

  lemma {:induction false} FramesOfPrefix(a: string, b: string)
    ensures Frames(a) <= Frames(a + b)
  {
    StreamSplits(a);
    Assoc(Joined(Frames(a)), Tail(a), b);
    SplitIsUnique(Frames(a), Tail(a) + b);
  }

  /** The client's framing of what was sent so far recovers whole replies, in order, and never anything else. */
  lemma {:induction false} ClientReadsReplies(c: Conn)
    requires Sound(c) && AllReplies(c.replies)
    ensures Frames(c.sent) <= Bodies(c.replies)
    ensures c.output == "" ==> Frames(c.sent) == Bodies(c.replies) && Tail(c.sent) == ""
  {
    RepliesAreFrames(c.replies);
    FramesOfPrefix(c.sent, c.output);
    if c.output == "" {
      Right(c.sent);
    }
  }

  /** In every run, whoever is or was connected can frame only whole replies, those the log gives it, in order. */
  lemma {:induction false} EveryClientReadsReplies(listener: int, actions: seq<Action>, c: Conn)
    requires IsRun(listener, actions) && TakesPart(Replay(listener, actions), c)
    ensures var replies := RepliesOf(Replay(listener, actions).log, c.id);
      && AllReplies(replies) && Frames(c.sent) <= Bodies(replies)
      && (c.output == "" ==> Frames(c.sent) == Bodies(replies) && Tail(c.sent) == "")
  {
    ParticipantIsSound(listener, actions, c);
    ClientReadsReplies(c);
  }

  /** In every run each client is sent, or is still to be sent, what the log before each of its frames says. */
  lemma {:induction false} EveryClientIsTold(listener: int, actions: seq<Action>, c: Conn)
    requires IsRun(listener, actions) && TakesPart(Replay(listener, actions), c)
    ensures c.sent + c.output == Concat(ToldTo(Replay(listener, actions).log, c.id))
  {
    ParticipantIsSound(listener, actions, c);
    RepliesAreTold(Replay(listener, actions).log, c.id);
  }

  /** A drained client reads one message for each complete frame it sent, whatever the chunking of its reads. */
  lemma {:induction false} DrainedClientReadsAllReplies(
    listener: int, actions: seq<Action>, id: nat, incoming: seq<Blocking.Read>)
    requires IsRun(listener, actions)
    requires id in Replay(listener, actions).closed
    requires Replay(listener, actions).closed[id].reason == EofAndDrained
    requires Blocking.Deliverable(incoming) == Replay(listener, actions).closed[id].conn.sent
    ensures var c := Replay(listener, actions).closed[id].conn;
      && AllReplies(c.replies) && Frames(Blocking.Deliverable(incoming)) == Bodies(c.replies)
      && |Frames(Blocking.Deliverable(incoming))| == |Frames(c.received)|
      && Tail(Blocking.Deliverable(incoming)) == ""
  {
    EveryRunKeepsInv(listener, actions);
    var s := Replay(listener, actions);
    assert ClosedOk(s.log, s.nextId, id, s.closed[id]);
    ClientReadsReplies(s.closed[id].conn);
    SameCount(s.log, id);
  }

  lemma {:induction false} SameCount(log: seq<Entry>, id: nat)
    ensures |FramesOf(log, id)| == |RepliesOf(log, id)|
  {
    if log != [] {
      SameCount(log[..|log| - 1], id);
    }
  }

  // ---- Waking up and pausing ----

  /** Whoever cannot run a command is registered for exactly what it waits for, and waits for something. */
  lemma {:induction false} NobodyIsForgotten(listener: int, actions: seq<Action>, fd: int)
    requires IsRun(listener, actions) && fd in Replay(listener, actions).clients
    ensures var s := Replay(listener, actions); var c := s.clients[fd];
      && fd in s.registered && s.registered[fd] == Interest(CanRead(c), c.output != "")
      && (Runnable(c) || CanRead(c) || c.output != "")
  {
    EveryRunKeepsInv(listener, actions);
    var s := Replay(listener, actions);
    assert ClientOk(s.log, s.nextId, s.owners, s.closed.Keys, fd, s.clients[fd]);
    RestedIsAwaited(s.clients[fd]);
  }

  /**
   * Between visits a client is paused exactly when the high-water mark was reached and the low-water
   * mark has not been since; the two thresholds bound what is pending.
   */
  lemma {:induction false} PauseFollowsHistory(listener: int, actions: seq<Action>, fd: int)
    requires IsRun(listener, actions) && fd in Replay(listener, actions).clients
    ensures var c := Replay(listener, actions).clients[fd];
      && (c.paused <==> exists i: nat :: TrippedAt(c.pressures, i))
      && (if c.paused then |c.output| > LOW_WATER else |c.output| < HIGH_WATER)
  {
    EveryRunKeepsInv(listener, actions);
    var s := Replay(listener, actions);
    assert ClientOk(s.log, s.nextId, s.owners, s.closed.Keys, fd, s.clients[fd]);
    AutomatonMeaning(s.clients[fd].pressures);
  }

  /**
   * What a client is registered for, and whether it can run a command, said by its history alone. It is
   * read while the stream is open, output is not paused, every complete frame received has been
   * executed, and the unfinished one still fits; written while the replies are not all sent.
   */
  lemma {:induction false} InterestFollowsHistory(listener: int, actions: seq<Action>, fd: int)
    requires IsRun(listener, actions) && fd in Replay(listener, actions).clients
    ensures var s := Replay(listener, actions); var c := s.clients[fd];
      var paused := exists i: nat :: TrippedAt(c.pressures, i);
      && fd in s.registered
      && (s.registered[fd].read <==>
            !c.eof && !paused && FramesOf(s.log, c.id) == Frames(c.received) && |Tail(c.received)| < MAX_INPUT)
      && (s.registered[fd].write <==> c.sent != Concat(RepliesOf(s.log, c.id)))
      && (Runnable(c) <==> !paused && FramesOf(s.log, c.id) != Frames(c.received))
  {
    EveryRunKeepsInv(listener, actions);
    var s := Replay(listener, actions);
    var c := s.clients[fd];
    assert ClientOk(s.log, s.nextId, s.owners, s.closed.Keys, fd, c);
    AutomatonMeaning(c.pressures);
    HeldFrames(c);
    UnsentBytes(c);
  }

  lemma {:induction false} HeldFrames(c: Conn)
    requires Sound(c)
    ensures HasFrame(c.input) <==> c.executed != Frames(c.received)
    ensures !c.eof && !HasFrame(c.input) ==> Tail(c.received) == c.input
  {
    TailOfSound(c);
    if c.discarded == "" {
      Right(c.input);
    } else {
      assert c.input + c.discarded == c.discarded;
    }
    if !HasFrame(c.input) {
      Right(c.executed);
    }
  }

  lemma UnsentBytes(c: Conn)
    requires Sound(c)
    ensures c.output != "" <==> c.sent != Concat(c.replies)
  {
    if c.output == "" {
      Right(c.sent);
    } else {
      assert |c.sent + c.output| > |c.sent|;
    }
  }

  // ---- History ----

  /** `s'` remembers everything `s` records, and takes nothing back from any client. */
  ghost predicate Remembers(s: ServerState, s': ServerState) {
    && s.log <= s'.log
    && (forall id :: id in s.closed ==> id in s'.closed && s'.closed[id] == s.closed[id])
    && (forall fd :: fd in s.clients ==> Continues(s.clients[fd], fd, s'))
  }

  ghost predicate Continues(c: Conn, fd: int, s: ServerState) {
    || (fd in s.clients && Extends(c, s.clients[fd]))
    || (c.id in s.closed && Extends(c, s.closed[c.id].conn))
  }

  lemma KeptRemembers(s: ServerState, fd: int, c: Conn)
    requires fd in s.clients ==> Extends(s.clients[fd], c)
    ensures Remembers(s, Kept(s, fd, c))
  {
  }

  lemma RetiredRemembers(s: ServerState, fd: int, c: Conn, reason: Reason)
    requires fd in s.clients && Extends(s.clients[fd], c) && c.id !in s.closed
    ensures Remembers(s, Retired(s, fd, c, reason))
  {
  }

  lemma ExtendsItself(c: Conn)
    ensures Extends(c, c)
  {
  }

  lemma {:induction false} ServeRemembers(listener: int, s: ServerState, fd: int, io: Io)
    requires Inv(listener, s) && Enabled(s, Serve(fd, io))
    ensures Remembers(s, Next(s, Serve(fd, io)))
  {
    var v := s.clients[fd];
    assert ClientOk(s.log, s.nextId, s.owners, s.closed.Keys, fd, v);
    var o := Visit(v, s.data, io);
    VisitExtends(v, s.data, io, o);
    var served := s.(log := s.log + Logged(v, o.conn), data := o.data);
    if o.reason.Some? {
      RetiredRemembers(served, fd, o.conn, o.reason.value);
    } else {
      KeptRemembers(served, fd, o.conn);
    }
  }

  /** An action only appends to the log, leaves retired connections alone and takes nothing back from any client. */
  lemma {:induction false} HistoryIsKept(listener: int, s: ServerState, a: Action)
    requires Inv(listener, s) && Enabled(s, a)
    ensures Remembers(s, Next(s, a))
  {
    match a
    case Adopt(fd) =>
      KeptRemembers(Numbered(s, fd), fd, Fresh(s.nextId, fd));
    case Serve(fd, io) =>
      ServeRemembers(listener, s, fd, io);
    case Expire(fd) =>
      assert ClientOk(s.log, s.nextId, s.owners, s.closed.Keys, fd, s.clients[fd]);
      ExtendsItself(s.clients[fd]);
      RetiredRemembers(s, fd, s.clients[fd], IdleTimeout);
  }

  lemma ExtendsTrans(a: Conn, b: Conn, c: Conn)
    requires Extends(a, b) && Extends(b, c)
    ensures Extends(a, c)
  {
    PrefixTrans(a.received, b.received, c.received);
    PrefixTrans(a.sent, b.sent, c.sent);
    PrefixTrans(a.executed, b.executed, c.executed);
    PrefixTrans(a.replies, b.replies, c.replies);
  }

  lemma {:induction false} RemembersTrans(s: ServerState, s': ServerState, s'': ServerState)
    requires Remembers(s, s') && Remembers(s', s'')
    ensures Remembers(s, s'')
  {
    PrefixTrans(s.log, s'.log, s''.log);
    forall fd | fd in s.clients
      ensures Continues(s.clients[fd], fd, s'')
    {
      var c := s.clients[fd];
      assert Continues(c, fd, s');
      if fd in s'.clients && Extends(c, s'.clients[fd]) {
        var c' := s'.clients[fd];
        assert Continues(c', fd, s'');
        if fd in s''.clients && Extends(c', s''.clients[fd]) {
          ExtendsTrans(c, c', s''.clients[fd]);
        } else {
          ExtendsTrans(c, c', s''.closed[c'.id].conn);
        }
      }
    }
  }

  lemma RemembersItself(s: ServerState)
    ensures Remembers(s, s)
  {
    forall fd | fd in s.clients
      ensures Continues(s.clients[fd], fd, s)
    {
      ExtendsItself(s.clients[fd]);
    }
  }

  /** Any later point of a run remembers every earlier one. */
  lemma {:induction false} RunsRemember(listener: int, actions: seq<Action>, k: nat)
    requires IsRun(listener, actions) && k <= |actions|
    ensures IsRun(listener, actions[..k])
    ensures Remembers(Replay(listener, actions[..k]), Replay(listener, actions))
    decreases |actions|
  {
    if k == |actions| {
      TakeAll(actions);
      RemembersItself(Replay(listener, actions));
    } else {
      var before := actions[..|actions| - 1];
      RunsRemember(listener, before, k);
      assert before[..k] == actions[..k];
      EveryRunKeepsInv(listener, before);
      HistoryIsKept(listener, Replay(listener, before), actions[|actions| - 1]);
      RemembersTrans(Replay(listener, actions[..k]), Replay(listener, before), Replay(listener, actions));
    }
  }

  // ---- Draining to the end ----

  /** As long as the client `id` is there, what is done on its descriptor is a quiet visit that makes progress. */
  ghost predicate Favours(s: ServerState, a: Action, fd: int, id: nat) {
    fd in s.clients && s.clients[fd].id == id && a.fd == fd ==>
      a.Serve? && Quiet(a.io) && Progressed(s.clients[fd], s.data, a.io)
  }

  ghost predicate Favoured(listener: int, actions: seq<Action>, k: nat, fd: int, id: nat) {
    forall i, s :: k <= i < |actions| && Leads(listener, actions[..i], s) ==> Favours(s, actions[i], fd, id)
  }

  ghost predicate DrainedAs(s: ServerState, c: Conn) {
    c.id in s.closed && s.closed[c.id].reason == EofAndDrained && s.closed[c.id].conn.received == c.received
  }

  /** The half-closed client `c` is still there, with at least `done` less to do. */
  ghost predicate DrainingAs(s: ServerState, c: Conn, done: nat) {
    && c.fd in s.clients && s.clients[c.fd].id == c.id && s.clients[c.fd].eof
    && s.clients[c.fd].received == c.received && Effort(s.clients[c.fd]) + done <= Effort(c)
  }

  lemma {:induction false} DrainedStays(listener: int, s: ServerState, a: Action, c: Conn)
    requires Inv(listener, s) && Enabled(s, a) && DrainedAs(s, c)
    ensures DrainedAs(Next(s, a), c)
  {
    HistoryIsKept(listener, s, a);
  }

  lemma {:induction false} ElsewhereStays(listener: int, s: ServerState, a: Action, c: Conn, done: nat)
    requires Enabled(s, a) && DrainingAs(s, c, done) && a.fd != c.fd
    ensures DrainingAs(Next(s, a), c, done)
  {
  }

  lemma {:induction false} VisitAdvances(listener: int, s: ServerState, io: Io, c: Conn, done: nat)
    requires Inv(listener, s) && Enabled(s, Serve(c.fd, io)) && DrainingAs(s, c, done)
    requires Quiet(io) && Progressed(s.clients[c.fd], s.data, io)
    ensures var s' := Next(s, Serve(c.fd, io)); DrainedAs(s', c) || DrainingAs(s', c, done + 1)
  {
    var v := s.clients[c.fd];
    assert ClientOk(s.log, s.nextId, s.owners, s.closed.Keys, c.fd, v);
    var o := Visit(v, s.data, io);
    VisitDrains(v, s.data, io, o);
    VisitExtends(v, s.data, io, o);
  }

  lemma {:induction false} DrainingStep(listener: int, s: ServerState, a: Action, c: Conn, done: nat)
    requires Inv(listener, s) && Enabled(s, a) && Favours(s, a, c.fd, c.id)
    requires DrainedAs(s, c) || DrainingAs(s, c, done)
    ensures DrainedAs(Next(s, a), c) || DrainingAs(Next(s, a), c, if a.fd == c.fd then done + 1 else done)
  {
    if DrainedAs(s, c) {
      DrainedStays(listener, s, a, c);
    } else if a.fd == c.fd {
      VisitAdvances(listener, s, a.io, c, done);
    } else {
      ElsewhereStays(listener, s, a, c, done);
    }
  }

  lemma {:induction false} FavouredBefore(listener: int, actions: seq<Action>, k: nat, fd: int, id: nat, n: nat, s: ServerState)
    requires Favoured(listener, actions, k, fd, id) && k <= n == |actions| - 1 && Leads(listener, actions[..n], s)
    ensures Favoured(listener, actions[..n], k, fd, id) && Favours(s, actions[n], fd, id)
  {
    var before := actions[..n];
    forall i, t | k <= i < n && Leads(listener, before[..i], t)
      ensures Favours(t, before[i], fd, id)
    {
      assert before[..i] == actions[..i];
    }
  }

  lemma {:induction false} OneMoreAction(actions: seq<Action>, k: nat, fd: int, n: nat)
    requires k <= n == |actions| - 1
    ensures actions[..n][..k] == actions[..k]
    ensures |ActionsOn(actions[k..], fd)| == |ActionsOn(actions[..n][k..], fd)| + (if actions[n].fd == fd then 1 else 0)
  {
    assert actions[k..][..n - k] == actions[..n][k..];
  }

  lemma {:induction false} DrainingGoesOn(listener: int, actions: seq<Action>, k: nat, c: Conn, s: ServerState)
    requires Leads(listener, actions, s) && k <= |actions| && IsRun(listener, actions[..k])
    requires DrainingAs(Replay(listener, actions[..k]), c, 0)
    requires Favoured(listener, actions, k, c.fd, c.id)
    ensures DrainedAs(s, c) || DrainingAs(s, c, |ActionsOn(actions[k..], c.fd)|)
    decreases |actions|
  {
    if k == |actions| {
      TakeAll(actions);
      assert actions[k..] == [];
    } else {
      var n := |actions| - 1;
      var before := Replay(listener, actions[..n]);
      FavouredBefore(listener, actions, k, c.fd, c.id, n, before);
      OneMoreAction(actions, k, c.fd, n);
      DrainingGoesOn(listener, actions[..n], k, c, before);
      EveryRunKeepsInv(listener, actions[..n]);
      DrainingStep(listener, before, actions[n], c, |ActionsOn(actions[..n][k..], c.fd)|);
    }
  }

  /**
   * In every run: a half-closed client that is served often enough, by visits that meet no failure and
   * can send, ends up retired as drained and answered in full, whatever is done for others in between.
   */
  lemma {:induction false} HalfClosedClientsGetDrained(
    listener: int, actions: seq<Action>, k: nat, s0: ServerState, fd: int)
    requires IsRun(listener, actions) && k <= |actions| && Leads(listener, actions[..k], s0)
    requires fd in s0.clients && s0.clients[fd].eof
    requires Favoured(listener, actions, k, fd, s0.clients[fd].id)
    requires |ActionsOn(actions[k..], fd)| > Effort(s0.clients[fd])
    ensures var s, c := Replay(listener, actions), s0.clients[fd];
      DrainedAs(s, c) && AnsweredInFull(s.closed[c.id].conn)
  {
    EveryRunKeepsInv(listener, actions[..k]);
    EveryRunKeepsInv(listener, actions);
    var s, c := Replay(listener, actions), s0.clients[fd];
    assert ClientOk(s0.log, s0.nextId, s0.owners, s0.closed.Keys, fd, c);
    DrainingGoesOn(listener, actions, k, c, s);
    assert ClosedOk(s.log, s.nextId, c.id, s.closed[c.id]);
  }

  // ---- Draining, on the server object ----

  /** What the kernel reported during a visit was no failure: its last send took something, and the update was taken. */
  ghost predicate Obliging(before: Reports, after: Reports) {
    && (after.sends.calls > before.sends.calls ==> Moves(after.sends.last))
    && (after.updates.calls > before.updates.calls ==> after.updates.last)
  }

  /** A visit to a half-closed client in which the kernel is obliging is quiet and makes progress. */
  lemma {:induction false} ObligingIsProgress(v: Conn, d: Data, io: Io, o: Outcome, before: Reports, after: Reports)
    requires Sound(v) && AllReplies(v.replies) && Bounded(d) && Rested(v) && v.eof
    requires ValidIo(v, d, io) && o == Visit(v, d, io) && !io.event.error && !io.event.hangup
    requires Service.Reported(v, d, io, o.reason, before, after) && Obliging(before, after)
    ensures Quiet(io) && Progressed(v, d, io)
  {
    NothingArrives(v, io);
    RanStuck(v, d, io, Ran(v, d, io));
  }

  /**
   * So whatever else happens between them, each such visit to the server object takes the client one
   * step closer to being answered in full, or there. It is what `HalfClosedClientsGetDrained` asks of
   * the actions of a run.
   */
  method ObligingVisitAdvances(server: Server, fd: int, event: ReadyEvent, ghost c: Conn, ghost done: nat)
    returns (ghost io: Io)
    requires server.Valid() && fd in server.clients && c.fd == fd && DrainingAs(server.state, c, done)
    requires !event.error && !event.hangup
    modifies server`clients, server`run, server`state, server.kernel, server.store, server.clients[fd]
    ensures server.Valid() && server.run == old(server.run) + [Serve(fd, io)]
    ensures Obliging(old(server.kernel.Reported()), server.kernel.Reported()) ==>
      && Favours(old(server.state), Serve(fd, io), fd, c.id)
      && (DrainedAs(server.state, c) || DrainingAs(server.state, c, done + 1))
  {
    ghost var s, run, before := server.state, server.run, server.kernel.Reported();
    ghost var o;
    io, o := server.VisitClient(fd, event);
    if Obliging(before, server.kernel.Reported()) {
      ObligingStep(server.listener, run, s, server.state, io, o, c, done, before, server.kernel.Reported());
    }
  }

  lemma {:induction false} ObligingStep(
    listener: int, run: seq<Action>, s: ServerState, s': ServerState, io: Io, o: Outcome, c: Conn, done: nat,
    before: Reports, after: Reports)
    requires Leads(listener, run, s) && Leads(listener, run + [Serve(c.fd, io)], s')
    requires DrainingAs(s, c, done) && !io.event.error && !io.event.hangup
    requires Server.VisitReported(s, c.fd, io, o, before, after) && Obliging(before, after)
    ensures Favours(s, Serve(c.fd, io), c.fd, c.id)
    ensures DrainedAs(s', c) || DrainingAs(s', c, done + 1)
  {
    assert (run + [Serve(c.fd, io)])[..|run|] == run;
    EveryRunKeepsInv(listener, run);
    assert ClientOk(s.log, s.nextId, s.owners, s.closed.Keys, c.fd, s.clients[c.fd]);
    ObligingIsProgress(s.clients[c.fd], s.data, io, o, before, after);
    VisitAdvances(listener, s, io, c, done);
  }
}
