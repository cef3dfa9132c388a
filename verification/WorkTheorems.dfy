/** What one budgeted run of `process_input` does, said without following its loop. */
module WorkTheorems {
  import opened Sequences
  import opened Limits
  import opened Framing
  import opened Store
  import opened Serial
  import opened ConnectionModel

  /** Bytes of output pending once the first `j` frames have been answered. */
  ghost function QueuedSize(v: Conn, d: Data, j: nat): nat
    requires j <= |Frames(v.input)|
  {
    |v.output| + |Concat(ReplyRun(Frames(v.input)[..j], d))|
  }

  /** A reason not to execute frame `j`: the budget, the supply of frames, or the output. */
  ghost predicate Stops(v: Conn, d: Data, budget: nat, j: nat)
    requires j <= |Frames(v.input)|
  {
    j == budget || j == |Frames(v.input)| || v.paused || QueuedSize(v, d, j) >= HIGH_WATER
  }

  /** `k` is the first index with a reason to stop. */
  ghost predicate IsStop(v: Conn, d: Data, budget: nat, k: nat) {
    && k <= |Frames(v.input)|
    && Stops(v, d, budget, k)
    && forall j :: 0 <= j < k ==> !Stops(v, d, budget, j)
  }

  /** `w` is `v` after executing exactly its first `k` frames and answering the first `m` of them. */
  ghost predicate Executed(v: Conn, d: Data, w: Worked, k: nat, m: nat) {
    && m <= k <= |Frames(v.input)|
    && var frames := Frames(v.input)[..k];
      && w.conn.executed == v.executed + frames
      && w.data == StoreRun(frames, d)
      && v.input == Joined(frames) + w.conn.input
      && Frames(w.conn.input) == Frames(v.input)[k..]
      && w.conn.replies == v.replies + ReplyRun(frames[..m], d)
      && w.conn.output == v.output + Concat(ReplyRun(frames[..m], d))
  }

  lemma FirstOf(v: Conn)
    requires HasFrame(v.input)
    ensures Frames(v.input) == [FirstFrame(v.input)] + Frames(AfterFirst(v.input))
    ensures v.input == FirstFrame(v.input) + "\n" + AfterFirst(v.input)
  {
    FirstFrameSplits(v.input);
  }

  lemma {:induction false} NothingExecuted(v: Conn, d: Data)
    ensures Executed(v, d, Worked(v, d, false), 0, 0)
  {
    TakeNone(Frames(v.input));
    Right(v.executed);
    Right(v.replies);
    Right(v.output);
    RunNil(d);
    Right(v.input);
    assert "" + v.input == v.input;
  }

  lemma {:induction false} OneExecuted(v: Conn, d: Data, one: Worked, w: Worked, k: nat, m: nat)
    requires HasFrame(v.input) && one == ExecuteOne(v, d) && !one.overflow
    requires Executed(one.conn, one.data, w, k, m)
    ensures Executed(v, d, w, k + 1, m + 1)
  {
    var f, rest := FirstFrame(v.input), Frames(AfterFirst(v.input));
    FirstOf(v);
    TakeCons(f, rest, k);
    TakeCons(f, rest[..k], m);
    RunOne(f, rest[..k], d);
    RunOne(f, rest[..k][..m], d);
    OneExecutedStreams(v, one.conn, f, rest[..k], w.conn, ReplyRun(rest[..k][..m], one.data), Reply(f, d));
  }

  /** The string half of `OneExecuted`. */
  lemma {:induction false} OneExecutedStreams(
    v: Conn, one: Conn, f: string, frames: seq<string>, w: Conn, replies: seq<string>, reply: string)
    requires v.input == f + "\n" + one.input && one.input == Joined(frames) + w.input
    requires one.executed == v.executed + [f] && w.executed == one.executed + frames
    requires one.replies == v.replies + [reply] && w.replies == one.replies + replies
    requires one.output == v.output + reply && w.output == one.output + Concat(replies)
    ensures v.input == Joined([f] + frames) + w.input
    ensures w.executed == v.executed + ([f] + frames)
    ensures w.replies == v.replies + ([reply] + replies)
    ensures w.output == v.output + Concat([reply] + replies)
  {
    TakeCons(f, frames, 0);
    TakeCons(reply, replies, 0);
    Assoc(f + "\n", Joined(frames), w.input);
    Assoc(v.executed, [f], frames);
    Assoc(v.replies, [reply], replies);
    Assoc(v.output, reply, Concat(replies));
  }

  lemma {:induction false} OneOverflowed(v: Conn, d: Data, w: Worked)
    requires HasFrame(v.input) && w == ExecuteOne(v, d) && w.overflow
    ensures Executed(v, d, w, 1, 0)
  {
    var f, rest := FirstFrame(v.input), Frames(AfterFirst(v.input));
    FirstOf(v);
    TakeCons(f, rest, 0);
    TakeNone(rest);
    Right([f]);
    SingleRun(f, d);
    TakeNone([f]);
    RunNil(d);
    Right(v.replies);
    Right(v.output);
    assert Joined([f]) == f + "\n" by { assert [f][1..] == []; }
  }

  predicate Goes(v: Conn, budget: nat) {
    budget > 0 && !v.paused && HasFrame(v.input)
  }

  lemma WorkStops(v: Conn, d: Data, budget: nat)
    requires !Goes(v, budget)
    ensures Work(v, d, budget) == Worked(v, d, false)
  {
  }

  lemma WorkGoes(v: Conn, d: Data, budget: nat)
    requires Goes(v, budget)
    ensures var one := ExecuteOne(v, d);
      Work(v, d, budget) == if one.overflow then one else Work(one.conn, one.data, budget - 1)
  {
  }

  /** The reply to frame `m` does not fit, though there was room for a reply of full size before it. */
  ghost predicate Oversized(v: Conn, d: Data, m: nat) {
    && m < |Frames(v.input)| && QueuedSize(v, d, m) < HIGH_WATER
    && var reply := Reply(Frames(v.input)[m], StoreRun(Frames(v.input)[..m], d));
      |reply| > MAX_RESPONSE || |reply| > MAX_OUTPUT - QueuedSize(v, d, m)
  }

  lemma {:induction false} OversizedAtOnce(v: Conn, d: Data, one: Worked)
    requires HasFrame(v.input) && one == ExecuteOne(v, d) && one.overflow && |v.output| < HIGH_WATER
    ensures Oversized(v, d, 0)
  {
    FirstOf(v);
    QueuedNone(v, d);
    TakeNone(Frames(v.input));
    RunNil(d);
  }

  lemma {:induction false} OversizedLater(v: Conn, d: Data, one: Worked, m: nat)
    requires HasFrame(v.input) && one == ExecuteOne(v, d) && !one.overflow
    requires Oversized(one.conn, one.data, m)
    ensures Oversized(v, d, m + 1)
  {
    var f, rest := FirstFrame(v.input), Frames(AfterFirst(v.input));
    FirstOf(v);
    QueuedShift(v, d, m);
    TakeCons(f, rest, m);
    RunOne(f, rest[..m], d);
  }

  /**
   * The work of one visit: it executes the first `k` frames of the buffer and no others, in order,
   * against the store, and queues their replies in order. Only a reply that does not fit is missing.
   */
  lemma {:induction false} WorkExecutes(v: Conn, d: Data, budget: nat, w: Worked) returns (k: nat, m: nat)
    requires w == Work(v, d, budget)
    ensures Executed(v, d, w, k, m)
    ensures k == if w.overflow then m + 1 else m
    ensures k <= budget
    ensures w.overflow && (v.paused || |v.output| < HIGH_WATER) ==> Oversized(v, d, m)
    decreases budget, 0
  {
    if !Goes(v, budget) {
      NothingExecuted(v, d);
      k, m := 0, 0;
    } else {
      var one := ExecuteOne(v, d);
      if one.overflow {
        OneOverflowed(v, d, w);
        if |v.output| < HIGH_WATER {
          OversizedAtOnce(v, d, w);
        }
        k, m := 1, 0;
      } else {
        k, m := WorkExecutesMore(v, d, one, budget - 1, w);
      }
    }
  }

  /** The recursive step of `WorkExecutes`: what is left of the run after its first frame. */
  lemma {:induction false} WorkExecutesMore(v: Conn, d: Data, one: Worked, budget: nat, w: Worked)
    returns (k: nat, m: nat)
    requires HasFrame(v.input) && one == ExecuteOne(v, d) && !one.overflow
    requires w == Work(one.conn, one.data, budget)
    ensures Executed(v, d, w, k, m)
    ensures k == if w.overflow then m + 1 else m
    ensures k <= budget + 1
    ensures w.overflow ==> Oversized(v, d, m)
    decreases budget, 1
  {
    k, m := WorkExecutes(one.conn, one.data, budget, w);
    OneExecuted(v, d, one, w, k, m);
    if w.overflow {
      OversizedLater(v, d, one, m);
    }
    k, m := k + 1, m + 1;
  }

  lemma {:induction false} QueuedShift(v: Conn, d: Data, j: nat)
    requires HasFrame(v.input) && !ExecuteOne(v, d).overflow
    requires j <= |Frames(AfterFirst(v.input))|
    ensures j + 1 <= |Frames(v.input)|
    ensures QueuedSize(v, d, j + 1) == QueuedSize(ExecuteOne(v, d).conn, ExecuteOne(v, d).data, j)
  {
    var f, rest := FirstFrame(v.input), Frames(AfterFirst(v.input));
    FirstOf(v);
    TakeCons(f, rest, j);
    RunOne(f, rest[..j], d);
    var rs := ReplyRun(rest[..j], After(f, d));
    TakeCons(Reply(f, d), rs, 0);
  }

  lemma {:induction false} QueuedNone(v: Conn, d: Data)
    ensures QueuedSize(v, d, 0) == |v.output|
  {
    TakeNone(Frames(v.input));
  }

  /** ... where `k` is the least of the budget, the frames present, and the first crossing of the high-water mark. */
  lemma {:induction false} WorkStopsExactly(v: Conn, d: Data, budget: nat, w: Worked) returns (k: nat)
    requires w == Work(v, d, budget) && !w.overflow
    requires v.paused || |v.output| < HIGH_WATER
    ensures Executed(v, d, w, k, k) && IsStop(v, d, budget, k)
    decreases budget
  {
    if !Goes(v, budget) {
      NothingExecuted(v, d);
      StopsAtOnce(v, d, budget);
      k := 0;
    } else {
      var one := ExecuteOne(v, d);
      k := WorkStopsExactly(one.conn, one.data, budget - 1, w);
      OneExecuted(v, d, one, w, k, k);
      StopIsShifted(v, d, budget, k);
      k := k + 1;
    }
  }

  lemma {:induction false} StopsAtOnce(v: Conn, d: Data, budget: nat)
    requires !Goes(v, budget)
    ensures IsStop(v, d, budget, 0)
  {
  }

  lemma {:induction false} StopIsShifted(v: Conn, d: Data, budget: nat, k: nat)
    requires Goes(v, budget) && |v.output| < HIGH_WATER && !ExecuteOne(v, d).overflow
    requires IsStop(ExecuteOne(v, d).conn, ExecuteOne(v, d).data, budget - 1, k)
    ensures IsStop(v, d, budget, k + 1)
  {
    FirstOf(v);
    StopShift(v, d, budget, k);
    forall j | 0 <= j < k + 1
      ensures !Stops(v, d, budget, j)
    {
      if j == 0 {
        QueuedNone(v, d);
      } else {
        StopShift(v, d, budget, j - 1);
      }
    }
  }

  lemma {:induction false} StopShift(v: Conn, d: Data, budget: nat, j: nat)
    requires budget > 0 && !v.paused && HasFrame(v.input) && !ExecuteOne(v, d).overflow
    requires j <= |Frames(AfterFirst(v.input))|
    ensures j + 1 <= |Frames(v.input)|
    ensures Stops(v, d, budget, j + 1) == Stops(ExecuteOne(v, d).conn, ExecuteOne(v, d).data, budget - 1, j)
  {
    var one := ExecuteOne(v, d);
    FirstOf(v);
    QueuedShift(v, d, j);
    if one.conn.paused {
      QueuedGrows(v, d, j);
    }
  }

  /** Pending output never shrinks while frames are answered. */
  lemma {:induction false} QueuedGrows(v: Conn, d: Data, j: nat)
    requires HasFrame(v.input) && !ExecuteOne(v, d).overflow
    requires j <= |Frames(AfterFirst(v.input))|
    requires j + 1 <= |Frames(v.input)|
    ensures QueuedSize(v, d, j + 1) >= |ExecuteOne(v, d).conn.output|
  {
    QueuedShift(v, d, j);
  }

  lemma {:induction false} StopIsUnique(v: Conn, d: Data, budget: nat, k1: nat, k2: nat)
    requires IsStop(v, d, budget, k1) && IsStop(v, d, budget, k2)
    ensures k1 == k2
  {
  }

  /** So a run executes and answers `k` frames if and only if `k` is that first index. */
  lemma {:induction false} WorkIsExact(v: Conn, d: Data, budget: nat, w: Worked, k: nat)
    requires w == Work(v, d, budget) && !w.overflow
    requires v.paused || |v.output| < HIGH_WATER
    ensures Executed(v, d, w, k, k) <==> IsStop(v, d, budget, k)
  {
    var first := WorkStopsExactly(v, d, budget, w);
    if IsStop(v, d, budget, k) {
      StopIsUnique(v, d, budget, k, first);
    }
    if Executed(v, d, w, k, k) {
      ExecutedCount(v, d, w, k, k);
      ExecutedCount(v, d, w, first, first);
    }
  }

  lemma ExecutedCount(v: Conn, d: Data, w: Worked, k: nat, m: nat)
    requires Executed(v, d, w, k, m)
    ensures |w.conn.executed| == |v.executed| + k
  {
  }

  /** A run that overflows does so on an oversized reply. */
  lemma {:induction false} OverflowIsOversized(v: Conn, d: Data, budget: nat, w: Worked) returns (m: nat)
    requires w == Work(v, d, budget) && w.overflow
    requires v.paused || |v.output| < HIGH_WATER
    ensures Oversized(v, d, m)
  {
    var k;
    k, m := WorkExecutes(v, d, budget, w);
  }
}
