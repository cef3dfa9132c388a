/** Invariants of one connection, and what one visit guarantees. */
module VisitTheorems {
  import opened Wrappers
  import opened Sequences
  import opened Limits
  import opened Framing
  import opened Store
  import opened Serial
  import opened ConnectionModel
  import opened WorkTheorems

  /**
   * Nothing is lost, repeated or reordered: what was received is the executed frames, the bytes
   * still held and the discarded tail; what was sent and is still held are the replies. Buffers
   * respect their caps, and the pause flag is the automaton's.
   */
  ghost predicate Sound(v: Conn) {
    && v.received == Joined(v.executed) + (v.input + v.discarded)
    && NewlineFree(v.executed) && !HasFrame(v.discarded)
    && (v.discarded != "" ==> v.eof && v.input == "")
    && v.sent + v.output == Concat(v.replies)
    && |v.input| <= MAX_INPUT && |v.output| <= MAX_OUTPUT
    && v.paused == Automaton(v.pressures)
  }

  /** What holds of a retained connection between visits. */
  predicate Rested(v: Conn) {
    && (v.paused ==> |v.output| > LOW_WATER)
    && (!v.paused ==> |v.output| < HIGH_WATER)
    && !Stuck(v.input)
    && (v.eof && !HasFrame(v.input) ==> v.input == "" && v.output != "")
  }

  // ---- Each operation keeps `Sound` ----

  lemma FreshIsSound(id: nat, fd: int)
    ensures Sound(Fresh(id, fd)) && Rested(Fresh(id, fd))
  {
  }

  lemma PressedIsSound(v: Conn)
    requires Sound(v)
    ensures Sound(Pressed(v))
  {
    AutomatonSnoc(v.pressures, |v.output|);
  }

  lemma AdmittedIsSound(v: Conn, bytes: string)
    requires Sound(v) && |v.input| + |bytes| <= MAX_INPUT
    requires bytes != "" ==> !v.eof
    ensures Sound(Admitted(v, bytes))
  {
    if bytes == "" {
      Right(v.input);
      Right(v.received);
    } else {
      Right(v.input);
      Right(v.input + bytes);
      Assoc(Joined(v.executed), v.input, bytes);
    }
  }

  /** Executing the first frames moves their bytes from the input to the executed frames. */
  lemma {:induction false} ExecutedInput(v: Conn, w: Conn, frames: seq<string>)
    requires v.received == Joined(v.executed) + (v.input + v.discarded)
    requires v.input == Joined(frames) + w.input && w.executed == v.executed + frames
    requires w.received == v.received && w.discarded == v.discarded
    ensures w.received == Joined(w.executed) + (w.input + w.discarded)
  {
    JoinedAppend(v.executed, frames);
    Assoc(Joined(frames), w.input, v.discarded);
    Assoc(Joined(v.executed), Joined(frames), w.input + v.discarded);
  }

  lemma {:induction false} ExecutedOutput(v: Conn, w: Conn, rs: seq<string>)
    requires v.sent + v.output == Concat(v.replies)
    requires w.replies == v.replies + rs && w.output == v.output + Concat(rs) && w.sent == v.sent
    ensures w.sent + w.output == Concat(w.replies)
  {
    ConcatAppend(v.replies, rs);
    Assoc(v.sent, v.output, Concat(rs));
  }

  lemma {:induction false} FramesPrefixIsFree(s: string, k: nat)
    requires k <= |Frames(s)|
    ensures NewlineFree(Frames(s)[..k])
  {
    StreamSplits(s);
  }

  lemma {:induction false} WorkIsSound(v: Conn, d: Data, budget: nat, w: Worked)
    requires w == Work(v, d, budget) && Sound(v)
    ensures Sound(w.conn)
  {
    var k, m := WorkExecutes(v, d, budget, w);
    ExecutedIsSound(v, d, w, k, m);
  }

  lemma {:induction false} ExecutedIsSound(v: Conn, d: Data, w: Worked, k: nat, m: nat)
    requires Sound(v) && Executed(v, d, w, k, m) && Capped(w.conn) && SameStream(v, w.conn)
    ensures Sound(w.conn)
  {
    var frames := Frames(v.input)[..k];
    FramesPrefixIsFree(v.input, k);
    ExecutedInput(v, w.conn, frames);
    ExecutedOutput(v, w.conn, ReplyRun(frames[..m], d));
  }

  lemma TransmittedIsSound(v: Conn, n: nat)
    requires Sound(v) && n <= |v.output|
    ensures Sound(Transmitted(v, n))
  {
    Assoc(v.sent, v.output[..n], v.output[n..]);
    Rejoin(v.output, n);
  }

  lemma SettledIsSound(v: Conn)
    requires Sound(v)
    ensures Sound(Settled(v))
  {
    var p := Pressed(v);
    PressedIsSound(v);
    if p.eof && !HasFrame(p.input) {
      Right(p.input);
      assert "" + (p.discarded + p.input) == p.input + p.discarded;
    }
  }

  // ---- The output limit is out of reach ----

  lemma {:induction false} FramesFit(s: string)
    ensures forall i :: 0 <= i < |Frames(s)| ==> |Frames(s)[i]| < |s|
    decreases |s|
  {
    if HasFrame(s) {
      FramesFit(AfterFirst(s));
    }
  }

  lemma {:induction false} PrefixStaysBounded(input: string, d: Data, k: nat)
    requires Bounded(d) && |input| <= MAX_INPUT && k <= |Frames(input)|
    ensures Bounded(StoreRun(Frames(input)[..k], d))
    ensures AllReplies(ReplyRun(Frames(input)[..k], d))
  {
    FramesFit(input);
    RunStaysBounded(Frames(input)[..k], d);
  }

  lemma {:induction false} NothingIsOversized(v: Conn, d: Data, m: nat)
    requires Bounded(d) && |v.input| <= MAX_INPUT
    ensures !Oversized(v, d, m)
  {
    if m < |Frames(v.input)| {
      PrefixStaysBounded(v.input, d, m);
      BoundedReply(Frames(v.input)[m], StoreRun(Frames(v.input)[..m], d));
    }
  }

  /**
   * From a bounded store no reply overflows: `OutputLimit` cannot happen, and the store stays bounded.
   */
  lemma {:induction false} WorkStaysBounded(v: Conn, d: Data, budget: nat, w: Worked)
    requires w == Work(v, d, budget)
    requires Bounded(d) && |v.input| <= MAX_INPUT && AllReplies(v.replies)
    requires v.paused || |v.output| < HIGH_WATER
    ensures !w.overflow && Bounded(w.data) && AllReplies(w.conn.replies)
  {
    if w.overflow {
      var m := OverflowIsOversized(v, d, budget, w);
      NothingIsOversized(v, d, m);
    }
    var k, m := WorkExecutes(v, d, budget, w);
    PrefixStaysBounded(v.input, d, k);
    TakeAll(Frames(v.input)[..k]);
    AllRepliesAppend(v.replies, ReplyRun(Frames(v.input)[..k], d));
  }

  lemma AllRepliesAppend(a: seq<string>, b: seq<string>)
    requires AllReplies(a) && AllReplies(b)
    ensures AllReplies(a + b)
  {
  }

  // ---- Hysteresis ----

  /** The pending sizes after the first `k` replies. */
  ghost function Sizes(v: Conn, d: Data, k: nat): (sizes: seq<nat>)
    requires k <= |Frames(v.input)|
    ensures |sizes| == k
    ensures forall i :: 0 <= i < k ==> sizes[i] == QueuedSize(v, d, i + 1)
  {
    seq(k, i requires 0 <= i < k => QueuedSize(v, d, i + 1))
  }

  lemma {:induction false} SizesShift(v: Conn, d: Data, one: Worked, k: nat)
    requires HasFrame(v.input) && one == ExecuteOne(v, d) && !one.overflow
    requires k <= |Frames(one.conn.input)|
    ensures k + 1 <= |Frames(v.input)|
    ensures Sizes(v, d, k + 1) == [|one.conn.output|] + Sizes(one.conn, one.data, k)
  {
    FirstOf(v);
    forall i | 0 <= i < k + 1
      ensures Sizes(v, d, k + 1)[i] == ([|one.conn.output|] + Sizes(one.conn, one.data, k))[i]
    {
      SizeShift(v, d, one, k, i);
    }
  }

  lemma {:induction false} SizeShift(v: Conn, d: Data, one: Worked, k: nat, i: nat)
    requires HasFrame(v.input) && one == ExecuteOne(v, d) && !one.overflow
    requires i <= k <= |Frames(one.conn.input)| && k + 1 <= |Frames(v.input)|
    ensures Sizes(v, d, k + 1)[i] == ([|one.conn.output|] + Sizes(one.conn, one.data, k))[i]
  {
    QueuedShift(v, d, i);
    if i == 0 {
      QueuedNone(one.conn, one.data);
    }
  }

  /** `w` is `v` after `k` replies, as far as the automaton can tell. */
  ghost predicate FedWith(v: Conn, d: Data, w: Conn, k: nat) {
    && k <= |Frames(v.input)| && |w.executed| == |v.executed| + k
    && w.pressures == v.pressures + Sizes(v, d, k)
  }

  lemma {:induction false} FedOnce(v: Conn, d: Data, one: Worked, w: Conn, k: nat)
    requires HasFrame(v.input) && one == ExecuteOne(v, d) && !one.overflow
    requires FedWith(one.conn, one.data, w, k)
    ensures FedWith(v, d, w, k + 1)
  {
    SizesShift(v, d, one, k);
    Assoc(v.pressures, [|one.conn.output|], Sizes(one.conn, one.data, k));
  }

  lemma FedNothing(v: Conn, d: Data)
    ensures FedWith(v, d, v, 0)
  {
    Right(v.pressures);
  }

  /** The automaton is fed the pending size after each of the `k` replies, and nothing else. */
  lemma {:induction false} WorkPressures(v: Conn, d: Data, budget: nat, w: Worked) returns (k: nat)
    requires w == Work(v, d, budget) && !w.overflow
    ensures FedWith(v, d, w.conn, k)
    decreases budget, 0
  {
    if !Goes(v, budget) {
      FedNothing(v, d);
      k := 0;
    } else {
      k := WorkPressuresMore(v, d, ExecuteOne(v, d), budget - 1, w);
    }
  }

  /** The recursive step: what is left of the run after its first frame. */
  lemma {:induction false} WorkPressuresMore(v: Conn, d: Data, one: Worked, budget: nat, w: Worked) returns (k: nat)
    requires HasFrame(v.input) && one == ExecuteOne(v, d) && !one.overflow
    requires w == Work(one.conn, one.data, budget) && !w.overflow
    ensures FedWith(v, d, w.conn, k)
    decreases budget, 1
  {
    k := WorkPressures(one.conn, one.data, budget, w);
    FedOnce(v, d, one, w.conn, k);
    k := k + 1;
  }

  lemma {:induction false} StaysUnpaused(pressures: seq<nat>, more: seq<nat>)
    requires !Automaton(pressures)
    requires forall i :: 0 <= i < |more| ==> more[i] < HIGH_WATER
    ensures !Automaton(pressures + more)
    decreases |more|
  {
    if more == [] {
      Right(pressures);
    } else {
      var before := more[..|more| - 1];
      StaysUnpaused(pressures, before);
      Unsnoc(more);
      Assoc(pressures, before, [more[|more| - 1]]);
      AutomatonSnoc(pressures + before, more[|more| - 1]);
    }
  }

  /** Every frame of a run is executed with the automaton unpaused: the one of index `j` after `j` replies. */
  lemma {:induction false} ExecutedUnpaused(v: Conn, d: Data, budget: nat, k: nat, j: nat)
    requires v.paused == Automaton(v.pressures)
    requires IsStop(v, d, budget, k) && j < k
    ensures !Automaton(v.pressures + Sizes(v, d, j))
  {
    assert !Stops(v, d, budget, 0);
    forall i | 0 <= i < j
      ensures Sizes(v, d, j)[i] < HIGH_WATER
    {
      assert !Stops(v, d, budget, i + 1);
    }
    StaysUnpaused(v.pressures, Sizes(v, d, j));
  }

  // ---- One visit ----

  lemma {:induction false} ArrivedIsSound(v: Conn, io: Io)
    requires Sound(v) && ValidReceive(v, io)
    ensures Sound(Arrived(v, io))
  {
    if io.chunks != [] {
      var before, last := io.chunks[..|io.chunks| - 1], io.chunks[|io.chunks| - 1];
      Unsnoc(io.chunks);
      ConcatSnoc(before, last);
    }
    AdmittedIsSound(v, Concat(io.chunks));
  }

  /** At end of file no more bytes arrive. */
  lemma {:induction false} NothingArrives(v: Conn, io: Io)
    requires v.eof && ValidReceive(v, io)
    ensures Arrived(v, io) == v && !io.receiveFailed
  {
    assert io.chunks == [];
    Right(v.input);
    Right(v.received);
  }

  function Begun(v: Conn, io: Io): Conn {
    Pressed(Arrived(v, io))
  }

  /** The visit executed exactly `frames`, answered each, and left the store where they leave it. */
  ghost predicate Served(v: Conn, d: Data, o: Outcome, frames: seq<string>) {
    && o.conn.id == v.id && o.conn.fd == v.fd
    && o.conn.executed == v.executed + frames
    && o.conn.replies == v.replies + ReplyRun(frames, d)
    && o.data == StoreRun(frames, d)
  }

  /** What `Work` inside a visit guarantees, whatever the kernel does. */
  lemma {:induction false} RanWell(v: Conn, d: Data, io: Io, w: Worked) returns (k: nat)
    requires w == Ran(v, d, io)
    requires Sound(v) && AllReplies(v.replies) && Bounded(d) && ValidReceive(v, io)
    ensures !w.overflow && Sound(w.conn) && AllReplies(w.conn.replies) && Bounded(w.data)
    ensures Executed(Begun(v, io), d, w, k, k) && IsStop(Begun(v, io), d, COMMAND_BUDGET, k)
  {
    var b := Begun(v, io);
    ArrivedIsSound(v, io);
    PressedIsSound(Arrived(v, io));
    WorkIsSound(b, d, COMMAND_BUDGET, w);
    WorkStaysBounded(b, d, COMMAND_BUDGET, w);
    k := WorkStopsExactly(b, d, COMMAND_BUDGET, w);
  }

  lemma NobodyServed(v: Conn, d: Data, o: Outcome)
    requires o.conn.id == v.id && o.conn.fd == v.fd && o.data == d
    requires o.conn.executed == v.executed && o.conn.replies == v.replies
    ensures Served(v, d, o, [])
  {
    Right(v.executed);
    Right(v.replies);
    RunNil(d);
  }

  predicate CutShort(io: Io) {
    io.event.error || io.event.hangup || io.receiveFailed
  }

  /** After execution a visit only moves bytes out and updates flags. */
  lemma VisitAfterRun(v: Conn, d: Data, io: Io, o: Outcome, w: Worked)
    requires ValidIo(v, d, io) && o == Visit(v, d, io) && w == Ran(v, d, io)
    requires !CutShort(io)
    ensures o.data == w.data && o.conn.id == w.conn.id && o.conn.fd == w.conn.fd
    ensures o.conn.executed == w.conn.executed && o.conn.replies == w.conn.replies
    ensures o.reason == Some(ResponseBufferLimit) <==> w.overflow
  {
  }

  lemma RanServes(v: Conn, d: Data, io: Io, w: Worked, k: nat)
    requires Executed(Begun(v, io), d, w, k, k)
    requires w.conn.id == v.id && w.conn.fd == v.fd
    ensures Served(v, d, Outcome(w.conn, w.data, None), Frames(Begun(v, io).input)[..k])
  {
    TakeAll(Frames(Begun(v, io).input)[..k]);
  }

  /** A visit executes a run of frames for its connection and does nothing else to the store. */
  lemma {:induction false} VisitServes(v: Conn, d: Data, io: Io, o: Outcome) returns (frames: seq<string>)
    requires Sound(v) && AllReplies(v.replies) && Bounded(d)
    requires ValidIo(v, d, io) && o == Visit(v, d, io)
    ensures Served(v, d, o, frames)
    ensures o.reason != Some(ResponseBufferLimit)
  {
    if CutShort(io) {
      NobodyServed(v, d, o);
      frames := [];
    } else {
      var w := Ran(v, d, io);
      var k := RanWell(v, d, io, w);
      RanServes(v, d, io, w, k);
      VisitAfterRun(v, d, io, o, w);
      frames := Frames(Begun(v, io).input)[..k];
    }
  }

  lemma FinishedConn(v: Conn, d: Data, io: Io, c: Conn)
    requires ValidSend(v, io) && c == Finished(v, d, io).conn
    ensures c == Transmitted(v, io.taken) || c == Settled(Transmitted(v, io.taken))
    ensures c.replies == v.replies && Finished(v, d, io).data == d
  {
  }

  lemma FinishedIsSound(v: Conn, d: Data, io: Io, c: Conn)
    requires Sound(v) && ValidSend(v, io) && c == Finished(v, d, io).conn
    ensures Sound(c) && c.replies == v.replies && Finished(v, d, io).data == d
  {
    FinishedConn(v, d, io, c);
    TransmittedIsSound(v, io.taken);
    if c != Transmitted(v, io.taken) {
      SettledIsSound(Transmitted(v, io.taken));
    }
  }

  lemma {:induction false} VisitKeepsSound(v: Conn, d: Data, io: Io, o: Outcome)
    requires Sound(v) && AllReplies(v.replies) && Bounded(d)
    requires ValidIo(v, d, io) && o == Visit(v, d, io)
    ensures Sound(o.conn) && AllReplies(o.conn.replies) && Bounded(o.data)
  {
    if io.event.error || io.event.hangup {
    } else if io.receiveFailed {
      ArrivedIsSound(v, io);
    } else {
      var w := Ran(v, d, io);
      var k := RanWell(v, d, io, w);
      if !Stuck(w.conn.input) {
        FinishedIsSound(w.conn, w.data, io, o.conn);
      }
    }
  }

  /** A visit that retains or drains the connection went through every stage. */
  lemma VisitEnds(v: Conn, d: Data, io: Io, o: Outcome, w: Worked)
    requires ValidIo(v, d, io) && o == Visit(v, d, io) && w == Ran(v, d, io)
    requires o.reason == None || o.reason == Some(EofAndDrained)
    ensures !CutShort(io) && !w.overflow && !Stuck(w.conn.input) && io.taken <= |w.conn.output|
    ensures o.conn == Settled(Transmitted(w.conn, io.taken))
    ensures o.reason == Some(EofAndDrained) <==> Exhausted(o.conn)
  {
  }

  lemma SettledRests(v: Conn)
    requires !Stuck(v.input) && !Exhausted(Settled(v))
    ensures Rested(Settled(v))
  {
  }

  lemma {:induction false} VisitRests(v: Conn, d: Data, io: Io, o: Outcome)
    requires ValidIo(v, d, io) && o == Visit(v, d, io)
    requires o.reason == None
    ensures Rested(o.conn)
  {
    var w := Ran(v, d, io);
    VisitEnds(v, d, io, o, w);
    SettledRests(Transmitted(w.conn, io.taken));
  }

  /** A retained connection always has a reason to be visited again. */
  lemma RestedIsAwaited(v: Conn)
    requires Rested(v) && |v.input| <= MAX_INPUT
    ensures Runnable(v) || Wanted(v).read || Wanted(v).write
    ensures !Runnable(v) && !Wanted(v).write ==> Wanted(v) == Interest(true, false)
  {
  }

  // ---- Failures ----

  /** A failed event, receive or send is the reason of the visit, and a visit that retains met none. */
  lemma FailuresRetire(v: Conn, d: Data, io: Io, o: Outcome)
    requires ValidIo(v, d, io) && o == Visit(v, d, io)
    ensures o.reason == Some(SocketErrorEvent) <==> io.event.error
    ensures o.reason == Some(FullHangup) <==> io.event.hangup && !io.event.error
    ensures o.reason == Some(ReceiveError) <==> io.receiveFailed && !io.event.error && !io.event.hangup
    ensures CutShort(io) ==> o.data == d && o.conn.executed == v.executed && o.conn.output == v.output
    ensures o.reason == None ==> !CutShort(io) && !io.sendFailed && !io.updateFailed
  {
  }

  // ---- A visit to a runnable connection runs something ----

  lemma {:induction false} RunnableReadsNothing(v: Conn, io: Io)
    requires HasFrame(v.input) && ValidReceive(v, io)
    ensures io.chunks == [] && !io.eof && !io.receiveFailed && Arrived(v, io) == v
  {
    assert forall more: string :: HasFrame(v.input + more) by {
      forall more: string ensures HasFrame(v.input + more) {
        assert (v.input + more)[Find(v.input)] == '\n';
      }
    }
    Right(v.input);
    Right(v.received);
  }

  lemma {:induction false} RestedRuns(v: Conn, d: Data, k: nat)
    requires Rested(v) && Runnable(v) && IsStop(Pressed(v), d, COMMAND_BUDGET, k)
    ensures k > 0
  {
    QueuedNone(Pressed(v), d);
    FirstOf(v);
  }

  /** Unless the event is a failure, a visit to a connection that can run a command executes at least one. */
  lemma {:induction false} VisitRuns(v: Conn, d: Data, io: Io, o: Outcome)
    requires Sound(v) && AllReplies(v.replies) && Bounded(d) && Rested(v) && Runnable(v)
    requires ValidIo(v, d, io) && o == Visit(v, d, io) && !io.event.error && !io.event.hangup
    ensures |o.conn.executed| > |v.executed|
  {
    RunnableReadsNothing(v, io);
    var w := Ran(v, d, io);
    var k := RanWell(v, d, io, w);
    RestedRuns(v, d, k);
    ExecutedCount(Begun(v, io), d, w, k, k);
    VisitAfterRun(v, d, io, o, w);
  }

  lemma {:induction false} RestedStays(v: Conn)
    requires Rested(v) && !Runnable(v)
    ensures !Goes(Pressed(v), COMMAND_BUDGET)
  {
  }

  /** And unless it reads, a visit to a connection that cannot run a command executes none and leaves the store alone. */
  lemma {:induction false} VisitIdles(v: Conn, d: Data, io: Io, o: Outcome)
    requires Sound(v) && AllReplies(v.replies) && Bounded(d) && Rested(v) && !Runnable(v)
    requires ValidIo(v, d, io) && o == Visit(v, d, io) && !io.event.readable
    ensures o.conn.executed == v.executed && o.data == d
  {
    if !CutShort(io) {
      Right(v.input);
      Right(v.received);
      assert Arrived(v, io) == v;
      RestedStays(v);
      WorkStops(Pressed(v), d, COMMAND_BUDGET);
      VisitAfterRun(v, d, io, o, Ran(v, d, io));
    }
  }

  // ---- Half-close ----

  /** Every complete frame received was answered, every answer was sent, and only an unfinished tail was dropped. */
  ghost predicate AnsweredInFull(v: Conn) {
    && v.eof
    && v.executed == Frames(v.received)
    && v.sent == Concat(v.replies)
    && v.discarded == Tail(v.received)
    && v.input == "" && v.output == ""
  }

  lemma {:induction false} DrainedIsComplete(v: Conn)
    requires Sound(v) && v.eof && v.input == "" && v.output == ""
    ensures AnsweredInFull(v)
  {
    SplitIsUnique(v.executed, v.input + v.discarded);
    assert v.input + v.discarded == v.discarded;
    Right(v.executed);
    Right(v.sent);
  }

  lemma SettledExhausted(v: Conn)
    requires Exhausted(Settled(v))
    ensures Settled(v).eof && Settled(v).input == "" && Settled(v).output == ""
  {
  }

  lemma {:induction false} HalfCloseDrainsExactly(v: Conn, d: Data, io: Io, o: Outcome)
    requires Sound(v) && AllReplies(v.replies) && Bounded(d)
    requires ValidIo(v, d, io) && o == Visit(v, d, io)
    requires o.reason == Some(EofAndDrained)
    ensures AnsweredInFull(o.conn)
  {
    VisitKeepsSound(v, d, io, o);
    var w := Ran(v, d, io);
    VisitEnds(v, d, io, o, w);
    SettledExhausted(Transmitted(w.conn, io.taken));
    DrainedIsComplete(o.conn);
  }

  // ---- The input limit ----

  /** A run leaves a full buffer without a newline exactly when it was given one. */
  lemma {:induction false} RunStuck(b: Conn, d: Data, w: Worked, k: nat)
    requires Executed(b, d, w, k, k) && |b.input| <= MAX_INPUT
    ensures Stuck(w.conn.input) <==> Stuck(b.input)
  {
    if k == 0 {
      TakeNone(Frames(b.input));
      assert "" + w.conn.input == w.conn.input;
    } else {
      assert Joined(Frames(b.input)[..k]) != "";
    }
  }

  lemma {:induction false} RanStuck(v: Conn, d: Data, io: Io, w: Worked)
    requires Sound(v) && AllReplies(v.replies) && Bounded(d)
    requires ValidReceive(v, io) && w == Ran(v, d, io)
    ensures !w.overflow && (Stuck(w.conn.input) <==> Stuck(Arrived(v, io).input))
  {
    var k := RanWell(v, d, io, w);
    ArrivedIsSound(v, io);
    RunStuck(Begun(v, io), d, w, k);
  }

  lemma VisitVerdict(v: Conn, d: Data, io: Io, o: Outcome, w: Worked)
    requires ValidIo(v, d, io) && o == Visit(v, d, io) && w == Ran(v, d, io)
    requires !CutShort(io) && !w.overflow
    ensures o.reason == Some(InputBufferLimit) <==> Stuck(w.conn.input)
    ensures o.conn.input == w.conn.input || o.conn.input == ""
    ensures Stuck(w.conn.input) ==> o.conn.input == w.conn.input
  {
  }

  /**
   * The verdict falls exactly when what was held and what arrived fill the buffer without a newline,
   * and exactly when that is what the connection is left with: no further byte can complete a frame.
   */
  lemma {:induction false} InputLimitIsExact(v: Conn, d: Data, io: Io, o: Outcome)
    requires Sound(v) && AllReplies(v.replies) && Bounded(d) && Rested(v)
    requires ValidIo(v, d, io) && o == Visit(v, d, io)
    ensures o.reason == Some(InputBufferLimit) <==> !CutShort(io) && Stuck(Arrived(v, io).input)
    ensures o.reason == Some(InputBufferLimit) <==> Stuck(o.conn.input)
  {
    if CutShort(io) {
      CutShortIsNotStuck(v, d, io, o);
    } else {
      var w := Ran(v, d, io);
      RanStuck(v, d, io, w);
      VisitVerdict(v, d, io, o, w);
    }
  }

  /** A receive that fails was allowed to read: it leaves room or a frame. */
  lemma CutShortIsNotStuck(v: Conn, d: Data, io: Io, o: Outcome)
    requires Rested(v) && ValidIo(v, d, io) && o == Visit(v, d, io) && CutShort(io)
    ensures o.reason != Some(InputBufferLimit) && !Stuck(o.conn.input)
  {
  }

  /** Every frame of the stream fits the limit with its newline, and so may the unfinished one. */
  ghost predicate FitsLimit(stream: string) {
    && (forall i :: 0 <= i < |Frames(stream)| ==> |Frames(stream)[i]| < MAX_INPUT)
    && |Tail(stream)| < MAX_INPUT
  }

  lemma {:induction false} TailOfSound(v: Conn)
    requires Sound(v)
    ensures Tail(v.received) == Tail(v.input + v.discarded)
    ensures Frames(v.received) == v.executed + Frames(v.input + v.discarded)
  {
    SplitIsUnique(v.executed, v.input + v.discarded);
  }

  lemma {:induction false} LongTailNeverFits(t: string, future: string)
    requires !HasFrame(t) && |t| >= MAX_INPUT
    ensures !FitsLimit(t + future)
  {
    var s := t + future;
    if HasFrame(s) {
      var i := Find(s);
      assert forall j :: 0 <= j < |t| ==> s[j] == t[j] && t[j] != '\n';
      assert Frames(s)[0] == FirstFrame(s);
    }
  }

  /** A stream whose frames all fit is never rejected, however its bytes are delivered. */
  lemma {:induction false} LegalStreamIsNeverRejected(v: Conn, future: string)
    requires Sound(v) && FitsLimit(v.received + future)
    ensures !Stuck(v.input)
  {
    if Stuck(v.input) {
      Right(v.input);
      Assoc(Joined(v.executed), v.input, future);
      SplitIsUnique(v.executed, v.input + future);
      LongTailNeverFits(v.input, future);
      LaterFramesFit(v.executed, v.input + future);
    }
  }

  lemma {:induction false} LaterFramesFit(frames: seq<string>, rest: string)
    requires NewlineFree(frames) && FitsLimit(Joined(frames) + rest)
    ensures FitsLimit(rest)
  {
    SplitIsUnique(frames, rest);
    var all := Frames(Joined(frames) + rest);
    assert forall i :: 0 <= i < |Frames(rest)| ==> Frames(rest)[i] == all[|frames| + i];
  }

  // ---- Termination after end of file ----

  /** The visit offered every pending byte to the kernel and the kernel took at least one. */
  ghost predicate Progressed(v: Conn, d: Data, io: Io) {
    Ran(v, d, io).conn.output != "" ==> io.taken > 0
  }

  lemma {:induction false} SettledFrames(v: Conn)
    ensures Frames(Settled(v).input) == Frames(v.input) && Settled(v).output == v.output
    ensures Settled(v).eof == v.eof
  {
  }

  /** Lexicographic decrease: a visit that retains the connection has fewer frames left, or as many and less output. */
  lemma {:induction false} DrainDecreases(v: Conn, d: Data, io: Io, o: Outcome)
    requires Sound(v) && AllReplies(v.replies) && Bounded(d) && Rested(v) && v.eof
    requires ValidIo(v, d, io) && Progressed(v, d, io)
    requires o == Visit(v, d, io) && o.reason == None
    ensures o.conn.eof
    ensures |Frames(o.conn.input)| < |Frames(v.input)|
      || (|Frames(o.conn.input)| == |Frames(v.input)| && |o.conn.output| < |v.output|)
  {
    var w := Ran(v, d, io);
    var k := RanWell(v, d, io, w);
    VisitEnds(v, d, io, o, w);
    NothingArrives(v, io);
    SettledFrames(Transmitted(w.conn, io.taken));
    RunDecreases(v, d, w, k);
  }

  /** The execution stage: some frame goes, or there is unchanged output to send. */
  lemma {:induction false} RunDecreases(v: Conn, d: Data, w: Worked, k: nat)
    requires Rested(v) && v.eof
    requires Executed(Pressed(v), d, w, k, k) && IsStop(Pressed(v), d, COMMAND_BUDGET, k)
    ensures k > 0 ==> |Frames(w.conn.input)| < |Frames(v.input)|
    ensures k == 0 ==> Frames(w.conn.input) == Frames(v.input) && w.conn.output == v.output && v.output != ""
  {
    if k == 0 {
      TakeNone(Frames(v.input));
      Right(v.output);
      QueuedNone(Pressed(v), d);
    }
  }

  /** An upper bound on the visits that draining can take. */
  function Effort(v: Conn): nat {
    |Frames(v.input)| * (MAX_OUTPUT + 1) + |v.output|
  }

  lemma EffortDrops(f: nat, p: nat, frames: nat, pending: nat)
    requires f < frames || (f == frames && p < pending)
    requires p <= MAX_OUTPUT
    ensures f * (MAX_OUTPUT + 1) + p < frames * (MAX_OUTPUT + 1) + pending
  {
  }

  // ---- Draining to the end ----

  /** No socket error, no hang-up, no failed send and no failed interest update. */
  predicate Quiet(io: Io) {
    !io.event.error && !io.event.hangup && !io.sendFailed && !io.updateFailed
  }

  lemma {:induction false} QuietVisitDrainsOrStays(v: Conn, d: Data, io: Io, o: Outcome)
    requires Sound(v) && AllReplies(v.replies) && Bounded(d) && Rested(v) && v.eof
    requires ValidIo(v, d, io) && Quiet(io) && o == Visit(v, d, io)
    ensures o.reason == None || o.reason == Some(EofAndDrained)
    ensures o.conn.received == v.received
  {
    NothingArrives(v, io);
    var w := Ran(v, d, io);
    var k := RanWell(v, d, io, w);
    if Stuck(w.conn.input) {
      TakeNone(Frames(v.input));
    }
  }

  /** A progressing visit drains the connection or leaves less to do. */
  lemma {:induction false} VisitDrains(v: Conn, d: Data, io: Io, o: Outcome)
    requires Sound(v) && AllReplies(v.replies) && Bounded(d) && Rested(v) && v.eof
    requires ValidIo(v, d, io) && Quiet(io) && Progressed(v, d, io) && o == Visit(v, d, io)
    ensures o.conn.received == v.received
    ensures o.reason == Some(EofAndDrained) || (o.reason == None && o.conn.eof && Effort(o.conn) < Effort(v))
  {
    QuietVisitDrainsOrStays(v, d, io, o);
    if o.reason == None {
      VisitKeepsSound(v, d, io, o);
      DrainDecreases(v, d, io, o);
      EffortDrops(|Frames(o.conn.input)|, |o.conn.output|, |Frames(v.input)|, |v.output|);
    }
  }

  /** Visits in a row until one asks for retirement. */
  ghost predicate Attempted(v: Conn, visits: seq<(Data, Io)>)
    decreases |visits|
  {
    visits == [] ||
    var (d, io) := visits[0];
    && Bounded(d) && ValidIo(v, d, io) && Progressed(v, d, io) && Quiet(io)
    && (Visit(v, d, io).reason == None ==> Attempted(Visit(v, d, io).conn, visits[1..]))
  }

  /** Where the visits lead. */
  ghost function Driven(v: Conn, visits: seq<(Data, Io)>): Outcome
    requires Attempted(v, visits)
    decreases |visits|
  {
    if visits == [] then Outcome(v, map[], None)
    else
      var (d, io) := visits[0];
      var o := Visit(v, d, io);
      if o.reason.Some? then o else Driven(o.conn, visits[1..])
  }

  /**
   * A half-closed client whose socket keeps accepting bytes is answered in full: more progressing
   * visits than `Effort` cannot pass without one retiring it drained, whatever other clients do to
   * the store in between.
   */
  lemma {:induction false} DrainingCompletes(v: Conn, visits: seq<(Data, Io)>)
    requires Sound(v) && AllReplies(v.replies) && Rested(v) && v.eof
    requires Attempted(v, visits) && |visits| > Effort(v)
    ensures var o := Driven(v, visits);
      o.reason == Some(EofAndDrained) && AnsweredInFull(o.conn) && o.conn.received == v.received
    decreases |visits|
  {
    var (d, io) := visits[0];
    var o := Visit(v, d, io);
    VisitDrains(v, d, io, o);
    if o.reason == None {
      VisitKeepsSound(v, d, io, o);
      VisitRests(v, d, io, o);
      DrainingCompletes(o.conn, visits[1..]);
    } else {
      HalfCloseDrainsExactly(v, d, io, o);
    }
  }

  /** The execution stage of a visit feeds the automaton `k` sizes, and no frame goes while it is paused. */
  lemma {:induction false} RunPressures(b: Conn, d: Data, w: Worked, stop: nat) returns (k: nat)
    requires w == Work(b, d, COMMAND_BUDGET) && !w.overflow
    requires b.paused == Automaton(b.pressures)
    requires |w.conn.executed| == |b.executed| + stop && IsStop(b, d, COMMAND_BUDGET, stop)
    ensures FedWith(b, d, w.conn, k)
    ensures forall j :: 0 <= j < k ==> !Automaton(b.pressures + Sizes(b, d, j))
  {
    k := WorkPressures(b, d, COMMAND_BUDGET, w);
    forall j | 0 <= j < k
      ensures !Automaton(b.pressures + Sizes(b, d, j))
    {
      ExecutedUnpaused(b, d, COMMAND_BUDGET, stop, j);
    }
  }

  /**
   * Hysteresis through one whole visit, however it ends: the automaton sees the pending size on entry,
   * after each of the `k` replies and after sending; no frame is executed while it is paused.
   */
  lemma {:induction false} VisitPressures(v: Conn, d: Data, io: Io, o: Outcome) returns (k: nat)
    requires Sound(v) && AllReplies(v.replies) && Bounded(d)
    requires ValidIo(v, d, io) && o == Visit(v, d, io)
    ensures CutShort(io) ==> o.conn.executed == v.executed && o.conn.pressures == v.pressures
    ensures k <= |Frames(Begun(v, io).input)| && |o.conn.executed| == |v.executed| + k
    ensures Begun(v, io).pressures == v.pressures + [|v.output|]
    ensures !CutShort(io) ==>
      o.conn.pressures == Begun(v, io).pressures + Sizes(Begun(v, io), d, k) + LastPressure(o)
    ensures forall j :: 0 <= j < k ==> !Automaton(Begun(v, io).pressures + Sizes(Begun(v, io), d, j))
  {
    if CutShort(io) {
      k := 0;
    } else {
      var w := Ran(v, d, io);
      var stop := RanWell(v, d, io, w);
      ExecutedCount(Begun(v, io), d, w, stop, stop);
      AutomatonSnoc(v.pressures, |v.output|);
      k := RunPressures(Begun(v, io), d, w, stop);
      VisitAfterRun(v, d, io, o, w);
      PressuresAfterRun(v, d, io, o, w);
    }
  }

  /** A visit that got past sending has looked at the pending size once more. */
  function LastPressure(o: Outcome): seq<nat> {
    if o.reason == Some(InputBufferLimit) || o.reason == Some(SendFailed) then [] else [|o.conn.output|]
  }

  lemma PressuresAfterRun(v: Conn, d: Data, io: Io, o: Outcome, w: Worked)
    requires ValidIo(v, d, io) && o == Visit(v, d, io) && w == Ran(v, d, io)
    requires !CutShort(io) && !w.overflow
    ensures o.conn.pressures == w.conn.pressures + LastPressure(o)
  {
    Right(w.conn.pressures);
  }

  // ---- Nothing is taken back ----

  /** What has been received, executed, answered and sent only grows. */
  ghost predicate Extends(v: Conn, c: Conn) {
    && c.id == v.id && (v.eof ==> c.eof)
    && v.received <= c.received && v.sent <= c.sent
    && v.executed <= c.executed && v.replies <= c.replies
  }

  lemma FinishedStream(v: Conn, d: Data, io: Io)
    requires ValidSend(v, io)
    ensures var c := Finished(v, d, io).conn;
      c.received == v.received && v.sent <= c.sent && c.eof == v.eof
  {
  }

  lemma {:induction false} VisitStream(v: Conn, d: Data, io: Io, o: Outcome)
    requires ValidIo(v, d, io) && o == Visit(v, d, io)
    ensures v.received <= o.conn.received && v.sent <= o.conn.sent && (v.eof ==> o.conn.eof)
  {
    if !CutShort(io) {
      var w := Ran(v, d, io);
      assert SameStream(Begun(v, io), w.conn);
      if !w.overflow && !Stuck(w.conn.input) {
        FinishedStream(w.conn, w.data, io);
      }
    }
  }

  lemma {:induction false} VisitExtends(v: Conn, d: Data, io: Io, o: Outcome)
    requires Sound(v) && AllReplies(v.replies) && Bounded(d)
    requires ValidIo(v, d, io) && o == Visit(v, d, io)
    ensures Extends(v, o.conn)
  {
    var frames := VisitServes(v, d, io, o);
    VisitStream(v, d, io, o);
  }
}
