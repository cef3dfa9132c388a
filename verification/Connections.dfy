/** `Connection` (include/tcp/server/connection.hpp, src/server/connection.cpp), proved against `ConnectionModel`. */
module Connections {
  import opened Sequences
  import opened Limits
  import opened Framing
  import opened Store
  import opened Commands
  import opened ConnectionModel
  import opened WorkTheorems
  import opened Kernels

  /** `Flushed(true)`: drained. `Flushed(false)`: bytes remain. `FlushFailed`: terminal send failure. */
  datatype FlushResult = Flushed(drained: bool) | FlushFailed

  class Connection {
    const socket: int
    var inputBuffer: string
    var inputCursor: nat
    var outputBuffer: string
    var outputCursor: nat
    var readEof: bool
    var outputPaused: bool
    var lastProgress: int

    // History, for the specification only.
    ghost const id: nat
    ghost var received: string
    ghost var sent: string
    ghost var executed: seq<string>
    ghost var replies: seq<string>
    ghost var discarded: string
    ghost var pressures: seq<nat>

    /** The cursor bounds and size caps that keep every unsigned subtraction non-negative. */
    ghost predicate Valid() reads this {
      && inputCursor <= |inputBuffer| <= MAX_INPUT
      && outputCursor <= |outputBuffer| <= MAX_OUTPUT
    }

    ghost function View(): Conn
      reads this
      requires Valid()
    {
      Conn(id, socket, inputBuffer[inputCursor..], outputBuffer[outputCursor..], readEof, outputPaused,
           received, sent, executed, replies, discarded, pressures)
    }

    /** The history agrees with what the kernel moved on this connection's descriptor. */
    ghost predicate Accounted(kernel: Kernel)
      reads this, kernel`traffic
      requires Valid()
    {
      socket in kernel.traffic && kernel.traffic[socket] == Carried(View())
    }

    constructor (ghost id: nat, socket: int, now: int)
      ensures Valid() && View() == Fresh(id, socket)
      ensures lastProgress == now
      ensures this.socket == socket && this.id == id
    {
      this.id, this.socket := id, socket;
      inputBuffer, inputCursor := "", 0;
      outputBuffer, outputCursor := "", 0;
      readEof, outputPaused, lastProgress := false, false, now;
      received, sent, executed, replies, discarded, pressures := "", "", [], [], "", [];
    }

    // ---- Queries ----

    function PendingInputBytes(): (n: nat)
      reads this
      requires Valid()
      ensures n == |View().input|
    {
      |inputBuffer| - inputCursor
    }

    function PendingOutputBytes(): (n: nat)
      reads this
      requires Valid()
      ensures n == |View().output|
    {
      |outputBuffer| - outputCursor
    }

    predicate HasPendingOutput()
      reads this
      requires Valid()
      ensures HasPendingOutput() == (View().output != "")
    {
      PendingOutputBytes() != 0
    }

    predicate HasCompleteFrame()
      reads this
      requires Valid()
      ensures HasCompleteFrame() == HasFrame(View().input)
    {
      HasFrame(inputBuffer[inputCursor..])
    }

    predicate HasRunnableInput()
      reads this
      requires Valid()
      ensures HasRunnableInput() == Runnable(View())
    {
      !outputPaused && HasCompleteFrame()
    }

    predicate MayRead()
      reads this
      requires Valid()
      ensures MayRead() == CanRead(View())
    {
      !readEof && !outputPaused && !HasCompleteFrame() && PendingInputBytes() < MAX_INPUT
    }

    // ---- Operations ----

    method UpdateBackpressure()
      requires Valid()
      modifies `outputPaused, `pressures
      ensures Valid() && View() == Pressed(old(View()))
    {
      var pending := PendingOutputBytes();
      pressures := pressures + [pending];
      if pending >= HIGH_WATER {
        outputPaused := true;
      } else if pending <= LOW_WATER {
        outputPaused := false;
      }
    }

    /** Admit a chunk whole or not at all. */
    method AppendInput(bytes: string) returns (result: InputResult)
      requires Valid()
      modifies `inputBuffer, `inputCursor, `received
      ensures Valid() && inputCursor == 0
      ensures result == if |bytes| > MAX_INPUT - |old(View()).input| then InputLimit else Ok
      ensures View() == if result == Ok then Admitted(old(View()), bytes) else old(View())
    {
      if inputCursor != 0 {
        inputBuffer := inputBuffer[inputCursor..];
        inputCursor := 0;
      }
      assert inputBuffer[0..] == inputBuffer;
      assert View() == old(View());
      if |bytes| > MAX_INPUT - |inputBuffer| {
        return InputLimit;
      }
      inputBuffer := inputBuffer + bytes;
      received := received + bytes;
      assert inputBuffer[0..] == inputBuffer;
      result := Ok;
    }

    /** Drop the already-sent prefix of the output buffer. */
    method CompactOutput()
      requires Valid()
      modifies `outputBuffer, `outputCursor
      ensures Valid() && View() == old(View()) && outputCursor == 0
    {
      if outputCursor != 0 {
        outputBuffer := outputBuffer[outputCursor..];
        outputCursor := 0;
      }
      assert outputBuffer[0..] == outputBuffer;
    }

    /** Take the first complete frame off the input: it is consumed once, with its newline. */
    method TakeFrame() returns (frame: string)
      requires Valid() && HasFrame(View().input)
      modifies `inputCursor, `executed
      ensures Valid() && View() == Consumed(old(View()))
      ensures frame == FirstFrame(old(View()).input)
    {
      ghost var pending := View().input;
      var newline := inputCursor + Find(inputBuffer[inputCursor..]);
      assert pending[..newline - inputCursor] == inputBuffer[inputCursor..newline];
      frame := inputBuffer[inputCursor..newline];
      assert pending[newline - inputCursor + 1..] == inputBuffer[newline + 1..];
      inputCursor := newline + 1;
      executed := executed + [frame];
    }

    method QueueReply(response: string)
      requires Valid() && outputCursor == 0 && |outputBuffer| + |response| <= MAX_OUTPUT
      modifies `outputBuffer, `replies, `outputPaused, `pressures
      ensures Valid() && outputCursor == 0 && View() == Queued(old(View()), response)
    {
      assert outputBuffer[0..] == outputBuffer;
      outputBuffer := outputBuffer + response;
      replies := replies + [response];
      assert outputBuffer[0..] == outputBuffer;
      UpdateBackpressure();
    }

    /** Execute the first frame. A reply that does not fit is dropped; its execution stands. */
    method ExecuteFrame(store: KeyValueStore) returns (overflow: bool)
      requires Valid() && HasFrame(View().input) && outputCursor == 0
      modifies `inputCursor, `executed, `outputBuffer, `replies, `outputPaused, `pressures, store
      ensures Valid() && outputCursor == 0
      ensures Worked(View(), store.data, overflow) == ExecuteOne(old(View()), old(store.data))
    {
      var frame := TakeFrame();
      var command := ParseCommand(frame);
      var response := INVALID;
      if command.Some? {
        response := ExecuteCommand(command.value, store);
      }
      response := response + "\n";
      assert response == Reply(frame, old(store.data)) && store.data == After(frame, old(store.data));
      assert outputBuffer[0..] == outputBuffer;
      if |response| > MAX_RESPONSE || |response| > MAX_OUTPUT - |outputBuffer| {
        return true;
      }
      QueueReply(response);
      overflow := false;
    }

    /** The part of `ProcessInput` before its loop. */
    method BeginProcessing(bytes: string) returns (result: InputResult)
      requires Valid()
      modifies `inputBuffer, `inputCursor, `received, `outputBuffer, `outputCursor, `outputPaused, `pressures
      ensures Valid()
      ensures result == if |bytes| > MAX_INPUT - |old(View()).input| then InputLimit else Ok
      ensures result == Ok ==> View() == Pressed(Admitted(old(View()), bytes)) && outputCursor == 0
      ensures result != Ok ==> View() == old(View())
    {
      result := AppendInput(bytes);
      if result == Ok {
        CompactOutput();
        UpdateBackpressure();
      }
    }

    /** Admit `bytes`, then execute at most one budget of frames while the output allows it. */
    method ProcessInput(bytes: string, store: KeyValueStore) returns (result: InputResult)
      requires Valid()
      modifies this, store
      ensures Valid() && lastProgress == old(lastProgress)
      ensures var v, d := old(View()), old(store.data);
        if |bytes| > MAX_INPUT - |v.input| then
          result == InputLimit && View() == v && store.data == d
        else
          var w := Work(Pressed(Admitted(v, bytes)), d, COMMAND_BUDGET);
          View() == w.conn && store.data == w.data && result == Verdict(w)
    {
      result := BeginProcessing(bytes);
      if result == Ok {
        result := ExecuteFrames(store);
      }
    }

    /** The part of `ProcessInput` from its loop on. */
    method ExecuteFrames(store: KeyValueStore) returns (result: InputResult)
      requires Valid() && outputCursor == 0
      modifies `inputBuffer, `inputCursor, `executed, `outputBuffer, `replies, `outputPaused, `pressures, store
      ensures Valid()
      ensures var w := Work(old(View()), old(store.data), COMMAND_BUDGET);
        View() == w.conn && store.data == w.data && result == Verdict(w)
    {
      var overflow := ExecuteBudget(store);
      if overflow {
        return OutputLimit;
      }
      var stuck := JudgeInput();
      result := if stuck then InputLimit else Ok;
    }

    /** Reset an emptied input buffer, then see whether what is left can still become a frame. */
    method JudgeInput() returns (stuck: bool)
      requires Valid()
      modifies `inputBuffer, `inputCursor
      ensures Valid() && View() == old(View())
      ensures stuck == Stuck(View().input)
    {
      ghost var v := View();
      if inputCursor == |inputBuffer| {
        inputBuffer, inputCursor := "", 0;
      }
      assert View().input == v.input;
      stuck := PendingInputBytes() == MAX_INPUT && !HasCompleteFrame();
    }

    /** The execution loop of one visit. */
    method ExecuteBudget(store: KeyValueStore) returns (overflow: bool)
      requires Valid() && outputCursor == 0
      modifies `inputCursor, `executed, `outputBuffer, `replies, `outputPaused, `pressures, store
      ensures Valid()
      ensures Worked(View(), store.data, overflow) == Work(old(View()), old(store.data), COMMAND_BUDGET)
    {
      ghost var w := Work(View(), store.data, COMMAND_BUDGET);
      var processed := 0;
      while processed < COMMAND_BUDGET && !outputPaused && HasCompleteFrame()
        invariant Valid() && outputCursor == 0
        invariant 0 <= processed <= COMMAND_BUDGET
        invariant w == Work(View(), store.data, COMMAND_BUDGET - processed)
      {
        WorkGoes(View(), store.data, COMMAND_BUDGET - processed);
        overflow := ExecuteFrame(store);
        if overflow {
          return;
        }
        processed := processed + 1;
      }
      WorkStops(View(), store.data, COMMAND_BUDGET - processed);
      overflow := false;
    }

    /** One send call on the unsent suffix. Only accepted bytes move the cursor and count as progress. */
    method SendSome(kernel: Kernel) returns (r: SendResult)
      requires Valid() && View().output != "" && socket in kernel.open && Accounted(kernel)
      modifies `outputCursor, `sent, `lastProgress, kernel`clock, kernel`sends, kernel`traffic
      ensures Valid() && kernel.clock >= old(kernel.clock)
      ensures r.Accepted? ==> r.count <= WRITE_CHUNK && r.count <= |old(View()).output|
      ensures kernel.traffic == old(kernel.traffic)[socket := Carried(View())]
      ensures kernel.sends == Noted(old(kernel.sends),
        if |old(View()).output| < WRITE_CHUNK then |old(View()).output| else WRITE_CHUNK, SendFinal(r), SendFailure(r), r)
      ensures View() == if r.Accepted? then Transmitted(old(View()), r.count) else old(View())
      ensures lastProgress == if r.Accepted? && r.count > 0 then kernel.clock else old(lastProgress)
    {
      var remaining := PendingOutputBytes();
      var requested := if remaining < WRITE_CHUNK then remaining else WRITE_CHUNK;
      var chunk := outputBuffer[outputCursor..outputCursor + requested];
      r := kernel.Send(socket, chunk);
      TransmitNothing(View());
      if r.Accepted? && r.count > 0 {
        assert View().output[..r.count] == chunk[..r.count];
        Advance(r.count);
        lastProgress := kernel.Now();
      }
    }

    /** Move the output cursor past `count` accepted bytes. */
    method Advance(count: nat)
      requires Valid() && count <= |View().output|
      modifies `outputCursor, `sent
      ensures Valid() && View() == Transmitted(old(View()), count)
    {
      ghost var pending := View().output;
      assert pending[count..] == outputBuffer[outputCursor + count..];
      sent := sent + pending[..count];
      outputCursor := outputCursor + count;
    }

    /** The same, counted from the start of a flush: `taken` bytes of `v` have gone. */
    method SendMore(kernel: Kernel, ghost v: Conn, ghost taken: nat) returns (r: SendResult, ghost total: nat)
      requires Valid() && View().output != "" && socket in kernel.open && Accounted(kernel)
      requires taken <= |v.output| && View() == Transmitted(v, taken)
      modifies `outputCursor, `sent, `lastProgress, kernel`clock, kernel`sends, kernel`traffic
      ensures Valid() && kernel.clock >= old(kernel.clock)
      ensures kernel.sends == Noted(old(kernel.sends), kernel.sends.asked, SendFinal(r), SendFailure(r), r)
      ensures total <= |v.output| && View() == Transmitted(v, total)
      ensures total == if r.Accepted? then taken + r.count else taken
      ensures total <= taken + WRITE_CHUNK
      ensures kernel.traffic == old(kernel.traffic)[socket := Carried(View())]
      ensures lastProgress == if total > taken then kernel.clock else old(lastProgress)
    {
      r := SendSome(kernel);
      total := taken;
      if r.Accepted? {
        TransmitTwice(v, taken, r.count);
        total := taken + r.count;
      }
    }

    /** Offer pending output in a bounded number of calls; keep whatever is not accepted. */
    method FlushOutput(kernel: Kernel) returns (r: FlushResult, ghost taken: nat)
      requires Valid() && socket in kernel.open && Accounted(kernel)
      modifies `outputBuffer, `outputCursor, `sent, `lastProgress, kernel`clock, kernel`sends, kernel`traffic
      ensures Valid() && kernel.clock >= old(kernel.clock)
      ensures taken <= |old(View()).output| && View() == Transmitted(old(View()), taken)
      ensures taken <= WRITE_CALL_BUDGET * WRITE_CHUNK
      ensures kernel.traffic == old(kernel.traffic)[socket := Carried(View())]
      ensures kernel.sends.calls <= old(kernel.sends.calls) + WRITE_CALL_BUDGET
      ensures r == Flushed(true) <==> View().output == ""
      ensures r == Flushed(false) ==>
        kernel.sends.calls == old(kernel.sends.calls) + WRITE_CALL_BUDGET || kernel.sends.last == SendWouldBlock
      ensures r == FlushFailed <==> kernel.sends.calls > old(kernel.sends.calls) && SendFailure(kernel.sends.last)
      ensures Round(old(kernel.sends), kernel.sends,
        kernel.sends.calls > old(kernel.sends.calls) && SendFinal(kernel.sends.last), r == FlushFailed)
      ensures old(View()).output != "" ==> kernel.sends.calls > old(kernel.sends.calls)
      ensures kernel.sends.calls > old(kernel.sends.calls) ==> old(View()).output != ""
      ensures kernel.sends.calls > old(kernel.sends.calls) && Moves(kernel.sends.last) ==> taken > 0
      ensures r == Flushed(true) ==> outputBuffer == "" && outputCursor == 0
      ensures taken == 0 ==> lastProgress == old(lastProgress)
      ensures taken > 0 ==> old(kernel.clock) <= lastProgress <= kernel.clock
    {
      ghost var v, sends := View(), kernel.sends;
      taken := 0;
      TransmitNothing(v);
      var attempt := 0;
      while attempt < WRITE_CALL_BUDGET && HasPendingOutput()
        invariant Valid() && kernel.clock >= old(kernel.clock)
        invariant taken <= |v.output| && View() == Transmitted(v, taken)
        invariant kernel.traffic == old(kernel.traffic)[socket := Carried(View())]
        invariant Flushing(v, sends, kernel.sends, attempt, taken)
        invariant taken == 0 ==> lastProgress == old(lastProgress)
        invariant taken > 0 ==> old(kernel.clock) <= lastProgress <= kernel.clock
      {
        ghost var before, sofar := kernel.sends, taken;
        var s;
        s, taken := SendMore(kernel, v, taken);
        FlushingMore(v, sends, before, kernel.sends, attempt, sofar, taken, s);
        attempt := attempt + 1;
        if s.Accepted? {
          if s.count == 0 {
            return FlushFailed, taken;
          }
        } else if s == SendWouldBlock {
          return Flushed(false), taken;
        } else if s == SendError {
          return FlushFailed, taken;
        }
      }
      if HasPendingOutput() {
        return Flushed(false), taken;
      }
      outputBuffer, outputCursor := "", 0;
      assert View() == Transmitted(v, taken);
      r := Flushed(true);
    }
  }

  /** A flush of `v` has made `calls` calls, `taken` bytes have gone, and no result was final so far. */
  ghost predicate Flushing(v: Conn, before: Tally<SendResult>, after: Tally<SendResult>, calls: nat, taken: nat) {
    && calls <= WRITE_CALL_BUDGET && after.calls == before.calls + calls && Round(before, after, false, false)
    && (calls > 0 ==> v.output != "" && !SendFinal(after.last) && (Moves(after.last) ==> taken > 0))
    && taken <= calls * WRITE_CHUNK
  }

  lemma FlushingMore(v: Conn, before: Tally<SendResult>, mid: Tally<SendResult>, after: Tally<SendResult>,
                     calls: nat, taken: nat, total: nat, r: SendResult)
    requires Flushing(v, before, mid, calls, taken) && calls < WRITE_CALL_BUDGET && v.output != ""
    requires after == Noted(mid, after.asked, SendFinal(r), SendFailure(r), r)
    requires total == (if r.Accepted? then taken + r.count else taken) && total <= taken + WRITE_CHUNK
    ensures !SendFinal(r) ==> Flushing(v, before, after, calls + 1, total)
    ensures Round(before, after, SendFinal(r), SendFailure(r)) && after.calls == before.calls + calls + 1
    ensures total <= WRITE_CALL_BUDGET * WRITE_CHUNK && (Moves(r) ==> total > 0)
  {
  }

  lemma AdmitNothing(v: Conn)
    ensures Admitted(v, "") == v
  {
    Right(v.input);
    Right(v.received);
  }

  lemma TransmitNothing(v: Conn)
    ensures Transmitted(v, 0) == v
  {
    Right(v.sent);
    TakeNone(v.output);
  }

  lemma TransmitTwice(v: Conn, a: nat, b: nat)
    requires a + b <= |v.output|
    ensures Transmitted(Transmitted(v, a), b) == Transmitted(v, a + b)
  {
    var o := v.output;
    assert o[a..][b..] == o[a + b..];
    assert o[..a] + o[a..][..b] == o[..a + b];
    Assoc(v.sent, o[..a], o[a..][..b]);
  }
}
