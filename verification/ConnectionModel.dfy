/**
 * The meaning of one connection as a value: its byte streams, the frames it has executed, and the
 * functions that say what each operation of src/server/connection.cpp and one visit of
 * apps/server.cpp do to it. The classes are proved against these functions.
 */
module ConnectionModel {
  import opened Wrappers
  import opened Sequences
  import opened Limits
  import opened Framing
  import opened Store

  /**
   * `input` and `output` are the unconsumed and unsent suffixes of the two buffers. The rest is history:
   * everything received and sent, the frames executed and the replies queued, the tail discarded at
   * end of file, and the pending-output size seen at every backpressure update.
   */
  datatype Conn = Conn(
    id: nat, fd: int,
    input: string, output: string, eof: bool, paused: bool,
    received: string, sent: string,
    executed: seq<string>, replies: seq<string>,
    discarded: string, pressures: seq<nat>)

  datatype Interest = Interest(read: bool, write: bool)

  datatype ReadyEvent = ReadyEvent(fd: int, readable: bool, writable: bool, error: bool, hangup: bool)

  datatype InputResult = Ok | InputLimit | OutputLimit

  datatype Reason =
    | SocketErrorEvent | FullHangup | InputBufferLimit | ReceiveError | ResponseBufferLimit
    | SendFailed | EofAndDrained | InterestUpdateFailed | IdleTimeout

  /** What crossed the kernel boundary on one descriptor: bytes delivered, bytes accepted, end of file reported. */
  datatype Traffic = Traffic(delivered: string, accepted: string, ended: bool)

  const NO_TRAFFIC := Traffic("", "", false)

  /** The traffic a connection accounts for. */
  function Carried(v: Conn): Traffic {
    Traffic(v.received, v.sent, v.eof)
  }

  function Fresh(id: nat, fd: int): Conn {
    Conn(id, fd, "", "", false, false, "", "", [], [], "", [])
  }

  // ---- Backpressure ----

  /** One step of the two-threshold automaton. */
  function Trip(paused: bool, pending: nat): bool {
    if pending >= HIGH_WATER then true else if pending <= LOW_WATER then false else paused
  }

  /** The automaton run over a whole history of pending sizes. */
  function Automaton(pressures: seq<nat>): bool {
    if pressures == [] then false
    else Trip(Automaton(pressures[..|pressures| - 1]), pressures[|pressures| - 1])
  }

  /** The high-water mark was reached at `i`, and the low-water mark has not been since. */
  ghost predicate TrippedAt(pressures: seq<nat>, i: nat) {
    && i < |pressures| && pressures[i] >= HIGH_WATER
    && forall j :: i < j < |pressures| ==> pressures[j] > LOW_WATER
  }

  lemma TrippedLonger(before: seq<nat>, p: nat, i: nat)
    requires i < |before|
    ensures TrippedAt(before + [p], i) <==> TrippedAt(before, i) && p > LOW_WATER
  {
    var all := before + [p];
    assert forall j :: 0 <= j < |before| ==> all[j] == before[j];
    assert all[|before|] == p;
  }

  /** Paused means: the high-water mark was reached, and the low-water mark has not been since. */
  lemma {:induction false} AutomatonMeaning(pressures: seq<nat>)
    ensures Automaton(pressures) <==> exists i: nat :: TrippedAt(pressures, i)
  {
    if pressures != [] {
      var n := |pressures| - 1;
      var before, p := pressures[..n], pressures[n];
      AutomatonMeaning(before);
      Unsnoc(pressures);
      AutomatonSnoc(before, p);
      assert p >= HIGH_WATER ==> TrippedAt(pressures, n);
      if i: nat :| TrippedAt(before, i) {
        TrippedLonger(before, p, i);
      }
      if i: nat :| TrippedAt(pressures, i) {
        if i < n {
          TrippedLonger(before, p, i);
        }
      }
    }
  }

  lemma AutomatonSnoc(pressures: seq<nat>, p: nat)
    ensures Automaton(pressures + [p]) == Trip(Automaton(pressures), p)
  {
    assert (pressures + [p])[..|pressures|] == pressures;
  }

  function Pressed(v: Conn): Conn {
    v.(paused := Trip(v.paused, |v.output|), pressures := v.pressures + [|v.output|])
  }

  // ---- Questions the scheduler asks ----

  predicate Runnable(v: Conn) {
    !v.paused && HasFrame(v.input)
  }

  predicate CanRead(v: Conn) {
    !v.eof && !v.paused && !HasFrame(v.input) && |v.input| < MAX_INPUT
  }

  function Wanted(v: Conn): Interest {
    Interest(CanRead(v), v.output != "")
  }

  /** A full buffer without a newline: no future byte can complete the frame. */
  predicate Stuck(input: string) {
    |input| == MAX_INPUT && !HasFrame(input)
  }

  // ---- Operations ----

  function Admitted(v: Conn, bytes: string): Conn {
    v.(input := v.input + bytes, received := v.received + bytes)
  }

  datatype Worked = Worked(conn: Conn, data: Data, overflow: bool)

  function Consumed(v: Conn): Conn
    requires HasFrame(v.input)
  {
    v.(input := AfterFirst(v.input), executed := v.executed + [FirstFrame(v.input)])
  }

  function Queued(v: Conn, reply: string): Conn {
    Pressed(v.(output := v.output + reply, replies := v.replies + [reply]))
  }

  /** Execute the first frame. A reply that does not fit is not queued, and its execution stands. */
  function ExecuteOne(v: Conn, d: Data): Worked
    requires HasFrame(v.input)
  {
    var f := FirstFrame(v.input);
    var reply := Reply(f, d);
    if |reply| > MAX_RESPONSE || |reply| > MAX_OUTPUT - |v.output| then Worked(Consumed(v), After(f, d), true)
    else Worked(Queued(Consumed(v), reply), After(f, d), false)
  }

  /** What executing frames leaves alone. */
  predicate SameStream(v: Conn, w: Conn) {
    && w.id == v.id && w.fd == v.fd && w.eof == v.eof
    && w.received == v.received && w.sent == v.sent && w.discarded == v.discarded
  }

  /** The output cap, and the pause flag as the automaton has it. */
  predicate Capped(v: Conn) {
    |v.output| <= MAX_OUTPUT && v.paused == Automaton(v.pressures)
  }

  lemma OneIsCapped(v: Conn, d: Data)
    requires Capped(v) && HasFrame(v.input)
    ensures Capped(ExecuteOne(v, d).conn)
  {
    var reply := Reply(FirstFrame(v.input), d);
    AutomatonSnoc(v.pressures, |v.output + reply|);
  }

  /** Execute frames until the budget, the frames or the output allowance runs out. */
  function Work(v: Conn, d: Data, budget: nat): (w: Worked)
    ensures SameStream(v, w.conn) && (Capped(v) ==> Capped(w.conn))
    decreases budget, v
  {
    if budget == 0 || v.paused || !HasFrame(v.input) then Worked(v, d, false)
    else
      var w := ExecuteOne(v, d);
      assert Capped(v) ==> Capped(w.conn) by { if Capped(v) { OneIsCapped(v, d); } }
      if w.overflow then w else Work(w.conn, w.data, budget - 1)
  }

  /** What processing answers after a run. */
  function Verdict(w: Worked): InputResult {
    if w.overflow then OutputLimit else if Stuck(w.conn.input) then InputLimit else Ok
  }

  function Transmitted(v: Conn, n: nat): Conn
    requires n <= |v.output|
  {
    v.(sent := v.sent + v.output[..n], output := v.output[n..])
  }

  // ---- One visit ----

  /**
   * What the kernel contributes to one visit: the event, the chunks that recv delivered and how
   * receiving ended, how many bytes send accepted and whether it failed, and whether the interest
   * update failed.
   */
  datatype Io = Io(
    event: ReadyEvent,
    chunks: seq<string>, eof: bool, receiveFailed: bool,
    taken: nat, sendFailed: bool,
    updateFailed: bool)

  datatype Outcome = Outcome(conn: Conn, data: Data, reason: Option<Reason>)

  /** Each chunk was asked for only when reading was allowed, and fits both the request and the room left. */
  ghost predicate Admissible(v: Conn, chunks: seq<string>) {
    chunks == [] ||
    var before, last := chunks[..|chunks| - 1], chunks[|chunks| - 1];
    && Admissible(v, before)
    && CanRead(Admitted(v, Concat(before)))
    && 0 < |last| <= READ_BUFFER
    && |v.input| + |Concat(before)| + |last| <= MAX_INPUT
  }

  function Arrived(v: Conn, io: Io): Conn {
    Admitted(v, Concat(io.chunks)).(eof := v.eof || io.eof)
  }

  function Ran(v: Conn, d: Data, io: Io): Worked {
    Work(Pressed(Arrived(v, io)), d, COMMAND_BUDGET)
  }

  ghost predicate ValidReceive(v: Conn, io: Io) {
    && Admissible(v, io.chunks)
    && |io.chunks| <= READ_CALL_BUDGET
    && (io.chunks != [] || io.eof || io.receiveFailed ==> io.event.readable)
    && (io.eof || io.receiveFailed ==> CanRead(Admitted(v, Concat(io.chunks))))
    && !(io.eof && io.receiveFailed)
  }

  ghost predicate ValidSend(v: Conn, io: Io) {
    && io.taken <= |v.output|
    && io.taken <= WRITE_CALL_BUDGET * WRITE_CHUNK
    && (io.sendFailed ==> io.taken < |v.output|)
  }

  ghost predicate ValidIo(v: Conn, d: Data, io: Io) {
    ValidReceive(v, io) && ValidSend(Ran(v, d, io).conn, io)
  }

  /** After sending: the last backpressure update, and an unfinishable tail dropped. */
  function Settled(v: Conn): Conn {
    var p := Pressed(v);
    if p.eof && !HasFrame(p.input) then p.(input := "", discarded := p.discarded + p.input) else p
  }

  /** Nothing will arrive, nothing is left to execute, nothing is left to send. */
  predicate Exhausted(v: Conn) {
    v.eof && !HasFrame(v.input) && v.output == ""
  }

  /** A visit from sending on. */
  function Finished(v: Conn, d: Data, io: Io): Outcome
    requires ValidSend(v, io)
  {
    var sent := Transmitted(v, io.taken);
    if io.sendFailed then Outcome(sent, d, Some(SendFailed))
    else
      var s := Settled(sent);
      if Exhausted(s) then Outcome(s, d, Some(EofAndDrained))
      else if io.updateFailed then Outcome(s, d, Some(InterestUpdateFailed))
      else Outcome(s, d, None)
  }

  /** A visit from execution on. */
  function Continued(v: Conn, d: Data, io: Io): Outcome
    requires ValidSend(Work(Pressed(v), d, COMMAND_BUDGET).conn, io)
  {
    var w := Work(Pressed(v), d, COMMAND_BUDGET);
    match Verdict(w)
    case OutputLimit => Outcome(w.conn, w.data, Some(ResponseBufferLimit))
    case InputLimit => Outcome(w.conn, w.data, Some(InputBufferLimit))
    case Ok => Finished(w.conn, w.data, io)
  }

  function Visit(v: Conn, d: Data, io: Io): Outcome
    requires ValidIo(v, d, io)
  {
    if io.event.error then Outcome(v, d, Some(SocketErrorEvent))
    else if io.event.hangup then Outcome(v, d, Some(FullHangup))
    else if io.receiveFailed then Outcome(Arrived(v, io), d, Some(ReceiveError))
    else Continued(Arrived(v, io), d, io)
  }
}
