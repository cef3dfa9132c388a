/** `service_client` (apps/server.cpp): one bounded receive, execute and send visit to one connection. */
module Service {
  import opened Wrappers
  import opened Sequences
  import opened Limits
  import opened Framing
  import opened Store
  import opened ConnectionModel
  import opened VisitTheorems
  import opened Kernels
  import opened Connections

  // ---- What the kernel must have said ----

  /** How receiving went is what recv reported, and it ended for one of the reasons there are. */
  ghost predicate ReceiveReported(v: Conn, io: Io, before: Tally<RecvResult>, after: Tally<RecvResult>) {
    && before.calls <= after.calls <= before.calls + READ_CALL_BUDGET
    && (after.calls > before.calls <==> io.event.readable && CanRead(v))
    && (io.receiveFailed <==> after.calls > before.calls && after.last == RecvError)
    && (io.eof <==> after.calls > before.calls && after.last == EndOfFile)
    && Round(before, after, after.calls > before.calls && RecvFinal(after.last), io.receiveFailed)
    && (io.event.readable && !io.receiveFailed && !io.eof ==>
          || !CanRead(Admitted(v, Concat(io.chunks)))
          || after.calls == before.calls + READ_CALL_BUDGET
          || after.last == RecvWouldBlock)
  }

  /** Pending output was offered, what became of it is what send reported, and it ended for one of the reasons there are. */
  ghost predicate SendReported(v: Conn, io: Io, before: Tally<SendResult>, after: Tally<SendResult>) {
    && before.calls <= after.calls <= before.calls + WRITE_CALL_BUDGET
    && (after.calls > before.calls <==> v.output != "")
    && (after.calls > before.calls && Moves(after.last) ==> io.taken > 0)
    && (io.sendFailed <==> after.calls > before.calls && SendFailure(after.last))
    && Round(before, after, after.calls > before.calls && SendFinal(after.last), io.sendFailed)
    && (io.taken < |v.output| && !io.sendFailed ==>
          after.calls == before.calls + WRITE_CALL_BUDGET || after.last == SendWouldBlock)
  }

  /** The interest was updated exactly when the connection was to be retained, with the result reported. */
  ghost predicate UpdateReported(reason: Option<Reason>, io: Io, before: Tally<bool>, after: Tally<bool>) {
    if reason == None || reason == Some(InterestUpdateFailed)
    then after == Noted(before, 0, !after.last, !after.last, after.last)
      && after.last == (reason == None) && io.updateFailed == !after.last
    else after == before && !io.updateFailed
  }

  /** From execution on: `w` is what the run left. */
  ghost predicate RestReported(w: Worked, io: Io, reason: Option<Reason>, before: Reports, after: Reports) {
    && UpdateReported(reason, io, before.updates, after.updates)
    && (reason == Some(SendFailed) <==> io.sendFailed) && reason != Some(ReceiveError)
    && if Verdict(w) == Ok then SendReported(w.conn, io, before.sends, after.sends)
       else after.sends == before.sends && io.taken == 0 && !io.sendFailed
  }

  /** Nothing in the record `io` of a visit is made up: every failure, and every reason to stop, was reported. */
  ghost predicate Reported(v: Conn, d: Data, io: Io, reason: Option<Reason>, before: Reports, after: Reports) {
    if io.event.error || io.event.hangup then after == before && io == NoIo(io.event)
    else
      && ReceiveReported(v, io, before.recvs, after.recvs)
      && (reason == Some(ReceiveError) <==> io.receiveFailed)
      && if io.receiveFailed
         then after.sends == before.sends && after.updates == before.updates
           && io.taken == 0 && !io.sendFailed && !io.updateFailed
         else RestReported(Ran(v, d, io), io, reason, before, after)
  }

  function NoIo(event: ReadyEvent): Io {
    Io(event, [], false, false, 0, false, false)
  }

  // ---- Receiving ----

  lemma {:induction false} AdmitMore(v: Conn, chunks: seq<string>, chunk: string)
    requires Admissible(v, chunks) && CanRead(Admitted(v, Concat(chunks)))
    requires 0 < |chunk| <= READ_BUFFER && |v.input| + |Concat(chunks)| + |chunk| <= MAX_INPUT
    ensures Admissible(v, chunks + [chunk])
    ensures Admitted(Admitted(v, Concat(chunks)), chunk) == Admitted(v, Concat(chunks + [chunk]))
  {
    assert (chunks + [chunk])[..|chunks|] == chunks;
    ConcatSnoc(chunks, chunk);
    Assoc(v.input, Concat(chunks), chunk);
    Assoc(v.received, Concat(chunks), chunk);
  }

  /** One recv call and the admission of what it delivered. */
  method ReceiveChunk(kernel: Kernel, c: Connection) returns (r: RecvResult, admitted: InputResult)
    requires c.Valid() && c.socket in kernel.open && c.Accounted(kernel) && CanRead(c.View())
    modifies kernel`clock, kernel`recvs, kernel`traffic, c`inputBuffer, c`inputCursor, c`received, c`lastProgress
    ensures c.Valid() && kernel.clock >= old(kernel.clock)
    ensures var room := MAX_INPUT - |old(c.View()).input|;
      kernel.recvs == Noted(old(kernel.recvs), if room < READ_BUFFER then room else READ_BUFFER, RecvFinal(r), r == RecvError, r)
    ensures kernel.traffic == old(kernel.traffic)[c.socket := Carried(c.View().(eof := r == EndOfFile))]
    ensures admitted == Ok
    ensures r.Received? ==>
      && 0 < |r.bytes| <= READ_BUFFER && |old(c.View()).input| + |r.bytes| <= MAX_INPUT
      && c.View() == Admitted(old(c.View()), r.bytes) && c.lastProgress >= old(kernel.clock)
      && c.lastProgress <= kernel.clock
    ensures !r.Received? ==> c.View() == old(c.View()) && c.lastProgress == old(c.lastProgress)
    ensures !c.View().eof
  {
    admitted := Ok;
    var room := MAX_INPUT - c.PendingInputBytes();
    var requested := if room < READ_BUFFER then room else READ_BUFFER;
    r := kernel.Recv(c.socket, requested);
    if r.Received? {
      c.lastProgress := kernel.Now();
      admitted := c.AppendInput(r.bytes);
    }
  }

  /** The same, counted from the start of a visit: `chunks` have arrived since `v`. */
  method ReceiveMore(kernel: Kernel, c: Connection, ghost v: Conn, ghost chunks: seq<string>)
    returns (r: RecvResult, admitted: InputResult, ghost chunks': seq<string>)
    requires c.Valid() && c.socket in kernel.open && c.Accounted(kernel)
    requires Admissible(v, chunks) && c.View() == Admitted(v, Concat(chunks)) && CanRead(c.View())
    modifies kernel`clock, kernel`recvs, kernel`traffic
    modifies c`inputBuffer, c`inputCursor, c`received, c`lastProgress
    ensures c.Valid() && kernel.clock >= old(kernel.clock) && admitted == Ok
    ensures kernel.recvs == Noted(old(kernel.recvs), kernel.recvs.asked, RecvFinal(r), r == RecvError, r)
    ensures kernel.traffic == old(kernel.traffic)[c.socket := Carried(c.View().(eof := r == EndOfFile))]
    ensures chunks' == if r.Received? then chunks + [r.bytes] else chunks
    ensures Admissible(v, chunks') && c.View() == Admitted(v, Concat(chunks'))
    ensures if r.Received? then old(kernel.clock) <= c.lastProgress <= kernel.clock
      else c.lastProgress == old(c.lastProgress) && CanRead(c.View())
  {
    r, admitted := ReceiveChunk(kernel, c);
    chunks' := chunks;
    if r.Received? {
      AdmitMore(v, chunks, r.bytes);
      chunks' := chunks + [r.bytes];
    }
  }

  /** The receive loop: stop at a complete frame, a full buffer, end of file, a pause or the call budget. */
  method ReceiveInput(kernel: Kernel, c: Connection, readable: bool)
    returns (broken: bool, ghost chunks: seq<string>, ghost eof: bool)
    requires c.Valid() && c.socket in kernel.open && c.Accounted(kernel)
    modifies kernel`clock, kernel`recvs, kernel`traffic, c`inputBuffer, c`inputCursor, c`received, c`lastProgress, c`readEof
    ensures c.Valid() && kernel.clock >= old(kernel.clock)
    ensures kernel.recvs.calls <= old(kernel.recvs.calls) + READ_CALL_BUDGET
    ensures broken <==> kernel.recvs.calls > old(kernel.recvs.calls) && kernel.recvs.last == RecvError
    ensures eof <==> kernel.recvs.calls > old(kernel.recvs.calls) && kernel.recvs.last == EndOfFile
    ensures Round(old(kernel.recvs), kernel.recvs,
      kernel.recvs.calls > old(kernel.recvs.calls) && RecvFinal(kernel.recvs.last), broken)
    ensures readable && !broken && !eof ==>
      || !CanRead(c.View())
      || kernel.recvs.calls == old(kernel.recvs.calls) + READ_CALL_BUDGET
      || kernel.recvs.last == RecvWouldBlock
    ensures kernel.recvs.calls >= old(kernel.recvs.calls)
    ensures kernel.recvs.calls > old(kernel.recvs.calls) <==> readable && CanRead(old(c.View()))
    ensures kernel.traffic == old(kernel.traffic)[c.socket := Carried(c.View())]
    ensures Admissible(old(c.View()), chunks) && |chunks| <= READ_CALL_BUDGET
    ensures chunks != [] || eof || broken ==> readable
    ensures eof || broken ==> CanRead(Admitted(old(c.View()), Concat(chunks)))
    ensures !(eof && broken)
    ensures c.View() == Admitted(old(c.View()), Concat(chunks)).(eof := old(c.View()).eof || eof)
    ensures chunks == [] ==> c.lastProgress == old(c.lastProgress)
    ensures chunks != [] ==> old(kernel.clock) <= c.lastProgress <= kernel.clock
  {
    ghost var v := c.View();
    chunks, eof := [], false;
    AdmitNothing(v);
    var attempt := 0;
    while attempt < READ_CALL_BUDGET && readable && c.MayRead()
      invariant 0 <= attempt <= READ_CALL_BUDGET && |chunks| <= attempt
      invariant c.Valid() && kernel.clock >= old(kernel.clock)
      invariant kernel.recvs.calls == old(kernel.recvs.calls) + attempt
      invariant Round(old(kernel.recvs), kernel.recvs, false, false)
      invariant attempt > 0 ==> !RecvFinal(kernel.recvs.last)
      invariant kernel.traffic == old(kernel.traffic)[c.socket := Carried(c.View())]
      invariant Admissible(v, chunks) && c.View() == Admitted(v, Concat(chunks))
      invariant chunks != [] ==> readable
      invariant attempt > 0 ==> readable && CanRead(v)
      invariant chunks == [] ==> c.lastProgress == old(c.lastProgress)
      invariant chunks != [] ==> old(kernel.clock) <= c.lastProgress <= kernel.clock
    {
      var r, admitted;
      r, admitted, chunks := ReceiveMore(kernel, c, v, chunks);
      attempt := attempt + 1;
      if r.Received? {
        // The source's check of the admission result: it cannot fail here.
        if admitted != Ok {
          assert false;
        }
      } else if r == EndOfFile {
        c.readEof := true;
        return false, chunks, true;
      } else if r == RecvWouldBlock {
        return false, chunks, false;
      } else if r == RecvError {
        return true, chunks, false;
      }
    }
    broken := false;
  }

  /** A visit up to execution: the receive loop, as one step of the connection's value. */
  method BeginVisit(kernel: Kernel, c: Connection, event: ReadyEvent) returns (broken: bool, ghost io: Io)
    requires c.Valid() && c.socket in kernel.open && c.Accounted(kernel)
    modifies kernel`clock, kernel`recvs, kernel`traffic
    modifies c`inputBuffer, c`inputCursor, c`received, c`lastProgress, c`readEof
    ensures c.Valid() && kernel.clock >= old(kernel.clock)
    ensures ValidReceive(old(c.View()), io) && c.View() == Arrived(old(c.View()), io)
    ensures io == NoIo(event).(chunks := io.chunks, eof := io.eof, receiveFailed := broken)
    ensures kernel.traffic == old(kernel.traffic)[c.socket := Carried(c.View())]
    ensures ReceiveReported(old(c.View()), io, old(kernel.recvs), kernel.recvs)
    ensures io.chunks == [] ==> c.lastProgress == old(c.lastProgress)
    ensures io.chunks != [] ==> old(kernel.clock) <= c.lastProgress <= kernel.clock
  {
    ghost var chunks, eof;
    broken, chunks, eof := ReceiveInput(kernel, c, event.readable);
    io := NoIo(event).(chunks := chunks, eof := eof, receiveFailed := broken);
  }

  /** The last backpressure update of a visit, and the end-of-file decision. */
  method SettleVisit(c: Connection) returns (drained: bool)
    requires c.Valid()
    modifies c`inputBuffer, c`inputCursor, c`outputPaused, c`pressures, c`discarded
    ensures c.Valid() && c.View() == Settled(old(c.View()))
    ensures drained == (c.View().eof && !HasFrame(c.View().input) && c.View().output == "")
  {
    c.UpdateBackpressure();
    drained := false;
    if c.readEof && !c.HasCompleteFrame() {
      c.discarded := c.discarded + c.inputBuffer[c.inputCursor..];
      c.inputBuffer := "";
      c.inputCursor := 0;
      drained := !c.HasPendingOutput();
    }
  }

  /** Send what is pending, if anything is. */
  method SendPending(kernel: Kernel, c: Connection, ghost begun: Io) returns (failed: bool, ghost io: Io)
    requires c.Valid() && c.socket in kernel.open && c.Accounted(kernel)
    modifies kernel`clock, kernel`sends, kernel`traffic, c`outputBuffer, c`outputCursor, c`sent, c`lastProgress
    ensures c.Valid() && kernel.clock >= old(kernel.clock)
    ensures io == begun.(taken := io.taken, sendFailed := failed) && ValidSend(old(c.View()), io)
    ensures SendReported(old(c.View()), io, old(kernel.sends), kernel.sends)
    ensures kernel.traffic == old(kernel.traffic)[c.socket := Carried(c.View())]
    ensures c.View() == Transmitted(old(c.View()), io.taken)
    ensures io.taken == 0 ==> c.lastProgress == old(c.lastProgress)
    ensures io.taken > 0 ==> old(kernel.clock) <= c.lastProgress <= kernel.clock
  {
    ghost var taken := 0;
    failed := false;
    TransmitNothing(c.View());
    if c.HasPendingOutput() {
      var flushed: FlushResult;
      flushed, taken := c.FlushOutput(kernel);
      failed := flushed == FlushFailed;
    }
    io := begun.(taken := taken, sendFailed := failed);
  }

  /** A visit from sending on. */
  method FinishVisit(kernel: Kernel, c: Connection, ghost begun: Io, ghost d: Data)
    returns (reason: Option<Reason>, ghost io: Io)
    requires c.Valid() && c.socket in kernel.open && c.Accounted(kernel) && !begun.updateFailed
    modifies kernel`clock, kernel`sends, kernel`traffic, kernel`registered, kernel`updates
    modifies c`inputBuffer, c`inputCursor, c`outputBuffer, c`outputCursor, c`sent, c`discarded
    modifies c`outputPaused, c`pressures, c`lastProgress
    ensures c.Valid() && kernel.clock >= old(kernel.clock)
    ensures io == begun.(taken := io.taken, sendFailed := io.sendFailed, updateFailed := io.updateFailed)
    ensures ValidSend(old(c.View()), io)
    ensures SendReported(old(c.View()), io, old(kernel.sends), kernel.sends)
    ensures (reason == Some(SendFailed) <==> io.sendFailed) && reason != Some(ReceiveError)
    ensures UpdateReported(reason, io, old(kernel.updates), kernel.updates)
    ensures kernel.traffic == old(kernel.traffic)[c.socket := Carried(c.View())]
    ensures Outcome(c.View(), d, reason) == Finished(old(c.View()), d, io)
    ensures kernel.registered ==
      if reason == None then old(kernel.registered)[c.socket := Wanted(c.View())] else old(kernel.registered)
    ensures io.taken == 0 ==> c.lastProgress == old(c.lastProgress)
    ensures io.taken > 0 ==> old(kernel.clock) <= c.lastProgress <= kernel.clock
  {
    ghost var v := c.View();
    var failed;
    failed, io := SendPending(kernel, c, begun);
    if failed {
      return Some(SendFailed), io;
    }
    reason := Retain(kernel, c);
    io := io.(updateFailed := reason == Some(InterestUpdateFailed));
    assert Finished(v, d, io) == Outcome(c.View(), d, reason) by {
      RetainedIsFinished(v, d, io, c.View(), reason);
    }
  }

  lemma RetainedIsFinished(v: Conn, d: Data, io: Io, s: Conn, reason: Option<Reason>)
    requires ValidSend(v, io) && !io.sendFailed && s == Settled(Transmitted(v, io.taken))
    requires reason == None || reason == Some(EofAndDrained) || reason == Some(InterestUpdateFailed)
    requires reason == Some(EofAndDrained) <==> Exhausted(s)
    requires io.updateFailed <==> reason == Some(InterestUpdateFailed)
    ensures Finished(v, d, io) == Outcome(s, d, reason)
  {
  }

  /** The end of a visit whose sending did not fail: retain the connection, unless there is nothing left to do for it. */
  method Retain(kernel: Kernel, c: Connection) returns (reason: Option<Reason>)
    requires c.Valid() && c.socket in kernel.open
    modifies kernel`registered, kernel`updates, c`inputBuffer, c`inputCursor, c`outputPaused, c`pressures, c`discarded
    ensures c.Valid() && c.View() == Settled(old(c.View()))
    ensures reason == None || reason == Some(EofAndDrained) || reason == Some(InterestUpdateFailed)
    ensures reason == Some(EofAndDrained) <==> Exhausted(c.View())
    ensures if reason == Some(EofAndDrained) then kernel.updates == old(kernel.updates)
      else kernel.updates == Noted(old(kernel.updates), 0, reason != None, reason != None, reason == None)
    ensures kernel.registered ==
      if reason == None then old(kernel.registered)[c.socket := Wanted(c.View())] else old(kernel.registered)
  {
    var drained := SettleVisit(c);
    if drained {
      return Some(EofAndDrained);
    }
    var modified := kernel.Modify(c.socket, Interest(c.MayRead(), c.HasPendingOutput()));
    reason := if modified then None else Some(InterestUpdateFailed);
  }

  /** The execution run of a visit: it admits nothing new. */
  method Process(c: Connection, store: KeyValueStore) returns (result: InputResult, ghost w: Worked)
    requires c.Valid()
    modifies c, store
    ensures w == Work(Pressed(old(c.View())), old(store.data), COMMAND_BUDGET)
    ensures c.Valid() && c.View() == w.conn && store.data == w.data && result == Verdict(w)
    ensures c.lastProgress == old(c.lastProgress)
  {
    AdmitNothing(c.View());
    w := Work(Pressed(c.View()), store.data, COMMAND_BUDGET);
    result := c.ProcessInput("", store);
  }

  /** A visit from execution on. */
  method ContinueVisit(kernel: Kernel, c: Connection, store: KeyValueStore, ghost begun: Io)
    returns (reason: Option<Reason>, ghost io: Io)
    requires c.Valid() && c.socket in kernel.open && c.Accounted(kernel)
    requires begun.taken == 0 && !begun.sendFailed && !begun.updateFailed
    modifies c, store, kernel`clock, kernel`sends, kernel`traffic, kernel`registered, kernel`updates
    ensures c.Valid() && kernel.clock >= old(kernel.clock)
    ensures io == begun.(taken := io.taken, sendFailed := io.sendFailed, updateFailed := io.updateFailed)
    ensures ValidSend(Work(Pressed(old(c.View())), old(store.data), COMMAND_BUDGET).conn, io)
    ensures kernel.traffic == old(kernel.traffic)[c.socket := Carried(c.View())]
    ensures Outcome(c.View(), store.data, reason) == Continued(old(c.View()), old(store.data), io)
    ensures RestReported(Work(Pressed(old(c.View())), old(store.data), COMMAND_BUDGET), io, reason,
                         old(kernel.Reported()), kernel.Reported())
    ensures kernel.registered ==
      if reason == None then old(kernel.registered)[c.socket := Wanted(c.View())] else old(kernel.registered)
    ensures io.taken == 0 ==> c.lastProgress == old(c.lastProgress)
    ensures io.taken > 0 ==> old(kernel.clock) <= c.lastProgress <= kernel.clock
  {
    ghost var w;
    var result;
    result, w := Process(c, store);
    io := begun;
    if result == InputLimit {
      return Some(InputBufferLimit), io;
    }
    if result == OutputLimit {
      return Some(ResponseBufferLimit), io;
    }
    reason, io := FinishVisit(kernel, c, begun, w.data);
  }

  /** A visit that ends with the event or with receiving. */
  lemma CutShortVisit(v: Conn, d: Data, io: Io)
    requires ValidReceive(v, io) && CutShort(io) && io.taken == 0 && !io.sendFailed && !io.updateFailed
    ensures ValidIo(v, d, io)
    ensures Visit(v, d, io) ==
      if io.event.error then Outcome(v, d, Some(SocketErrorEvent))
      else if io.event.hangup then Outcome(v, d, Some(FullHangup))
      else Outcome(Arrived(v, io), d, Some(ReceiveError))
  {
  }

  /** A visit that goes on after receiving `begun`. */
  lemma WholeVisit(v: Conn, d: Data, begun: Io, io: Io, o: Outcome)
    requires ValidReceive(v, begun) && !CutShort(begun)
    requires io == begun.(taken := io.taken, sendFailed := io.sendFailed, updateFailed := io.updateFailed)
    requires ValidSend(Work(Pressed(Arrived(v, begun)), d, COMMAND_BUDGET).conn, io)
    requires o == Continued(Arrived(v, begun), d, io)
    ensures ValidIo(v, d, io) && o == Visit(v, d, io)
  {
  }

  lemma WholeVisitReported(v: Conn, d: Data, begun: Io, io: Io, reason: Option<Reason>, before: Reports, after: Reports)
    requires ReceiveReported(v, begun, before.recvs, after.recvs) && !CutShort(begun)
    requires io == begun.(taken := io.taken, sendFailed := io.sendFailed, updateFailed := io.updateFailed)
    requires RestReported(Ran(v, d, begun), io, reason, before.(recvs := after.recvs), after)
    ensures Reported(v, d, io, reason, before, after)
  {
  }

  lemma CutShortReported(v: Conn, d: Data, io: Io, before: Reports, after: Reports)
    requires io == NoIo(io.event).(chunks := io.chunks, eof := io.eof, receiveFailed := true)
    requires !io.event.error && !io.event.hangup && ReceiveReported(v, io, before.recvs, after.recvs)
    requires after == before.(recvs := after.recvs)
    ensures Reported(v, d, io, Some(ReceiveError), before, after)
  {
  }

  /** A visit after receiving, seen from `v`, where it began. */
  method CompleteVisit(kernel: Kernel, c: Connection, store: KeyValueStore, broken: bool, ghost v: Conn, ghost begun: Io,
                       ghost before: Reports)
    returns (reason: Option<Reason>, ghost io: Io)
    requires c.Valid() && c.socket in kernel.open && c.Accounted(kernel)
    requires ValidReceive(v, begun) && !begun.event.error && !begun.event.hangup && c.View() == Arrived(v, begun)
    requires ReceiveReported(v, begun, before.recvs, kernel.recvs)
    requires kernel.sends == before.sends && kernel.updates == before.updates
    requires begun == NoIo(begun.event).(chunks := begun.chunks, eof := begun.eof, receiveFailed := broken)
    modifies c, store, kernel`clock, kernel`sends, kernel`traffic, kernel`registered, kernel`updates
    ensures c.Valid() && kernel.clock >= old(kernel.clock)
    ensures io.event == begun.event && io.chunks == begun.chunks
    ensures ValidIo(v, old(store.data), io)
    ensures Outcome(c.View(), store.data, reason) == Visit(v, old(store.data), io)
    ensures kernel.traffic == old(kernel.traffic)[c.socket := Carried(c.View())]
    ensures Reported(v, old(store.data), io, reason, before, kernel.Reported())
    ensures kernel.registered ==
      if reason == None then old(kernel.registered)[c.socket := Wanted(c.View())] else old(kernel.registered)
    ensures io.taken == 0 ==> c.lastProgress == old(c.lastProgress)
    ensures io.taken > 0 ==> old(kernel.clock) <= c.lastProgress <= kernel.clock
  {
    ghost var d := store.data;
    if broken {
      CutShortVisit(v, d, begun);
      CutShortReported(v, d, begun, before, kernel.Reported());
      return Some(ReceiveError), begun;
    }
    reason, io := ContinueVisit(kernel, c, store, begun);
    WholeVisit(v, d, begun, io, Outcome(c.View(), store.data, reason));
    WholeVisitReported(v, d, begun, io, reason, before, kernel.Reported());
  }

  /** A visit whose event names no failure. */
  method ServeOpen(kernel: Kernel, c: Connection, event: ReadyEvent, store: KeyValueStore)
    returns (reason: Option<Reason>, ghost io: Io)
    requires c.Valid() && c.socket in kernel.open && c.Accounted(kernel)
    requires !event.error && !event.hangup
    modifies c, store, kernel`clock, kernel`recvs, kernel`sends, kernel`traffic, kernel`registered, kernel`updates
    ensures c.Valid() && kernel.clock >= old(kernel.clock)
    ensures io.event == event && ValidIo(old(c.View()), old(store.data), io)
    ensures Outcome(c.View(), store.data, reason) == Visit(old(c.View()), old(store.data), io)
    ensures kernel.traffic == old(kernel.traffic)[c.socket := Carried(c.View())]
    ensures Reported(old(c.View()), old(store.data), io, reason, old(kernel.Reported()), kernel.Reported())
    ensures kernel.registered ==
      if reason == None then old(kernel.registered)[c.socket := Wanted(c.View())] else old(kernel.registered)
    ensures io.chunks == [] && io.taken == 0 ==> c.lastProgress == old(c.lastProgress)
    ensures io.chunks != [] || io.taken > 0 ==> old(kernel.clock) <= c.lastProgress <= kernel.clock
  {
    ghost var v, before, traffic := c.View(), kernel.Reported(), kernel.traffic;
    var broken;
    broken, io := BeginVisit(kernel, c, event);
    ghost var arrived := Carried(c.View());
    reason, io := CompleteVisit(kernel, c, store, broken, v, io, before);
    Overwritten(traffic, c.socket, arrived, Carried(c.View()));
  }

  /** `reason` is why the connection must be retired; `io` records what the kernel did, for the specification. */
  method ServiceClient(kernel: Kernel, c: Connection, event: ReadyEvent, store: KeyValueStore)
    returns (reason: Option<Reason>, ghost io: Io)
    requires c.Valid() && c.socket in kernel.open && c.Accounted(kernel)
    modifies c, store, kernel`clock, kernel`recvs, kernel`sends, kernel`traffic, kernel`registered, kernel`updates
    ensures c.Valid() && kernel.clock >= old(kernel.clock)
    ensures io.event == event && ValidIo(old(c.View()), old(store.data), io)
    ensures Outcome(c.View(), store.data, reason) == Visit(old(c.View()), old(store.data), io)
    ensures kernel.traffic == old(kernel.traffic)[c.socket := Carried(c.View())]
    ensures Reported(old(c.View()), old(store.data), io, reason, old(kernel.Reported()), kernel.Reported())
    ensures kernel.registered ==
      if reason == None then old(kernel.registered)[c.socket := Wanted(c.View())] else old(kernel.registered)
    ensures io.chunks == [] && io.taken == 0 ==> c.lastProgress == old(c.lastProgress)
    ensures io.chunks != [] || io.taken > 0 ==> old(kernel.clock) <= c.lastProgress <= kernel.clock
  {
    if event.error || event.hangup {
      io := NoIo(event);
      CutShortVisit(c.View(), store.data, io);
      return Some(if event.error then SocketErrorEvent else FullHangup), io;
    }
    reason, io := ServeOpen(kernel, c, event, store);
  }
}
