/**
 * The blocking side: `read_message` and `send_all` (src/protocol/framing.cpp) and the one-client
 * server `handle_client` (src/server/client_handler.cpp), the reference for what a connection says.
 *
 * A socket is a script: the results that its reads and writes will give, in order. Any run that
 * ends uses finitely many, so it has a script.
 */
module Blocking {
  import opened Wrappers
  import opened Sequences
  import opened Framing
  import opened Commands
  import opened Store
  import opened Serial

  /** The 4096-byte array of `read_message`. */
  const CHUNK: nat := 4096

  /** An empty chunk is end of file, and so is the end of the script. */
  datatype Read = Chunk(bytes: string) | ReadInterrupted | ReadFailed

  datatype Write = Wrote(count: nat) | WriteInterrupted | WriteFailed

  /** The bytes that reads deliver before end of file or a failure. */
  function Deliverable(incoming: seq<Read>): string {
    if incoming == [] then ""
    else match incoming[0]
      case Chunk(bytes) => if bytes == "" then "" else bytes + Deliverable(incoming[1..])
      case ReadInterrupted => Deliverable(incoming[1..])
      case ReadFailed => ""
  }

  /** No write will fail: each is interrupted or takes something. */
  ghost predicate Writable(outgoing: seq<Write>) {
    forall i :: 0 <= i < |outgoing| ==> outgoing[i] == WriteInterrupted || (outgoing[i].Wrote? && outgoing[i].count > 0)
  }

  class BlockingSocket {
    var incoming: seq<Read>
    var outgoing: seq<Write>
    ghost var sent: string

    constructor (incoming: seq<Read>, outgoing: seq<Write>)
      ensures this.incoming == incoming && this.outgoing == outgoing && sent == ""
    {
      this.incoming, this.outgoing, sent := incoming, outgoing, "";
    }

    /** A read delivers at most `limit` bytes of the next chunk. */
    method Recv(limit: nat) returns (r: Read)
      requires limit > 0
      modifies `incoming
      ensures r.Chunk? && r.bytes != "" ==>
        |r.bytes| <= limit && Deliverable(old(incoming)) == r.bytes + Deliverable(incoming)
      ensures r == ReadInterrupted ==> |incoming| < |old(incoming)| && Deliverable(old(incoming)) == Deliverable(incoming)
      ensures r == ReadFailed || r == Chunk("") ==> Deliverable(old(incoming)) == ""
    {
      if incoming == [] {
        return Chunk("");
      }
      r := incoming[0];
      if r.Chunk? && |r.bytes| > limit {
        ghost var all, rest := r.bytes, incoming[1..];
        incoming := [Chunk(r.bytes[limit..])] + incoming[1..];
        assert incoming[1..] == rest && all == all[..limit] + all[limit..];
        Assoc(all[..limit], all[limit..], Deliverable(rest));
        r := Chunk(r.bytes[..limit]);
      } else {
        incoming := incoming[1..];
      }
    }

    /** A write takes a prefix of what it is offered; past the script everything is taken. */
    method Send(bytes: string) returns (r: Write)
      requires bytes != ""
      modifies `outgoing, `sent
      ensures r.Wrote? ==> r.count <= |bytes| && sent == old(sent) + bytes[..r.count]
      ensures !r.Wrote? ==> sent == old(sent)
      ensures r == WriteInterrupted ==> |outgoing| < |old(outgoing)|
      ensures |outgoing| <= |old(outgoing)|
      ensures Writable(old(outgoing)) ==>
        Writable(outgoing) && (r == WriteInterrupted || (r.Wrote? && r.count > 0))
    {
      if outgoing == [] {
        r := Wrote(|bytes|);
      } else {
        r := outgoing[0];
        outgoing := outgoing[1..];
        if r.Wrote? && r.count > |bytes| {
          r := Wrote(|bytes|);
        }
      }
      if r.Wrote? {
        sent := sent + bytes[..r.count];
      }
    }
  }

  lemma {:induction false} FirstFrameExtends(a: string, b: string)
    requires HasFrame(a)
    ensures HasFrame(a + b) && FirstFrame(a + b) == FirstFrame(a) && AfterFirst(a + b) == AfterFirst(a) + b
  {
    var f, rest := FirstFrame(a), AfterFirst(a);
    FirstFrameSplits(a);
    Assoc(f + "\n", rest, b);
    FirstFrameIs(f, rest + b);
  }

  /** The next message of the stream, however its bytes are chunked. */
  method ReadMessage(socket: BlockingSocket, buffer: string) returns (message: Option<string>, rest: string)
    modifies socket`incoming
    ensures var all := buffer + Deliverable(old(socket.incoming));
      && (message.Some? <==> HasFrame(all))
      && (message.Some? ==> message.value == FirstFrame(all) && rest + Deliverable(socket.incoming) == AfterFirst(all))
      && (message == None ==> rest == all)
  {
    rest := buffer;
    ghost var all := buffer + Deliverable(socket.incoming);
    while true
      invariant rest + Deliverable(socket.incoming) == all
      decreases |Deliverable(socket.incoming)|, |socket.incoming|
    {
      var next;
      message, next := NextMessage(rest);
      if message.Some? {
        FirstFrameIs(message.value, next);
        FirstFrameExtends(rest, Deliverable(socket.incoming));
        rest := next;
        return;
      }
      var r := socket.Recv(CHUNK);
      match r
      case ReadInterrupted =>
      case ReadFailed =>
        Right(rest);
        return None, rest;
      case Chunk(bytes) =>
        if bytes == "" {
          Right(rest);
          return None, rest;
        }
        Assoc(rest, bytes, Deliverable(socket.incoming));
        rest := rest + bytes;
    }
  }

  /** Reading messages until there are no more yields exactly the frames of the stream. */
  method ReadMessages(socket: BlockingSocket) returns (messages: seq<string>, rest: string)
    modifies socket`incoming
    ensures messages == Frames(Deliverable(old(socket.incoming)))
    ensures rest == Tail(Deliverable(old(socket.incoming)))
  {
    ghost var stream := Deliverable(socket.incoming);
    messages, rest := [], "";
    assert rest + Deliverable(socket.incoming) == stream;
    while true
      invariant Frames(stream) == messages + Frames(rest + Deliverable(socket.incoming))
      invariant Tail(stream) == Tail(rest + Deliverable(socket.incoming))
      decreases |rest + Deliverable(socket.incoming)|
    {
      ghost var all := rest + Deliverable(socket.incoming);
      var message;
      message, rest := ReadMessage(socket, rest);
      if message == None {
        Right(messages);
        return;
      }
      Assoc(messages, [message.value], Frames(AfterFirst(all)));
      messages := messages + [message.value];
    }
  }

  /** Send the whole message, or report failure having sent a proper prefix of it. */
  method SendAll(socket: BlockingSocket, message: string) returns (ok: bool, ghost total: nat)
    modifies socket`outgoing, socket`sent
    ensures total <= |message| && socket.sent == old(socket.sent) + message[..total]
    ensures ok <==> total == |message|
    ensures Writable(old(socket.outgoing)) ==> ok && Writable(socket.outgoing)
  {
    var totalSent := 0;
    Right(socket.sent);
    while totalSent < |message|
      invariant totalSent <= |message| && socket.sent == old(socket.sent) + message[..totalSent]
      invariant Writable(old(socket.outgoing)) ==> Writable(socket.outgoing)
      decreases |message| - totalSent, |socket.outgoing|
    {
      var r := socket.Send(message[totalSent..]);
      match r
      case WriteInterrupted =>
      case WriteFailed =>
        return false, totalSent;
      case Wrote(count) =>
        if count == 0 {
          Right(socket.sent);
          return false, totalSent;
        }
        assert message[..totalSent] + message[totalSent..][..count] == message[..totalSent + count];
        Assoc(old(socket.sent), message[..totalSent], message[totalSent..][..count]);
        totalSent := totalSent + count;
    }
    ok, total := true, totalSent;
  }

  /** Answer one message: what `handle_client` does between two reads. */
  method AnswerMessage(socket: BlockingSocket, message: string, store: KeyValueStore)
    returns (ok: bool, ghost total: nat)
    modifies socket`outgoing, socket`sent, store
    ensures store.data == After(message, old(store.data))
    ensures var reply := Reply(message, old(store.data));
      && total <= |reply| && socket.sent == old(socket.sent) + reply[..total]
      && (ok <==> total == |reply|)
    ensures Writable(old(socket.outgoing)) ==> ok && Writable(socket.outgoing)
  {
    var command := ParseCommand(message);
    if command == None {
      ok, total := SendAll(socket, INVALID + "\n");
    } else {
      var response := ExecuteCommand(command.value, store);
      ok, total := SendAll(socket, response + "\n");
    }
  }

  /** All replies but the last were sent in full after `start`, and the last one was not. */
  ghost predicate SentWithin(start: string, done: seq<string>, d: Data, sent: string)
    requires |done| > 0
  {
    && start + Concat(ReplyRun(done[..|done| - 1], d)) <= sent
    && sent < start + Concat(ReplyRun(done, d))
  }

  /**
   * Serve one client to the end. When every reply could be sent, what was sent is the replies to all
   * complete frames of the stream, each computed on the store its predecessors left. Otherwise the
   * frames up to the failed reply were executed, and that reply was cut short.
   */
  method HandleClient(socket: BlockingSocket, store: KeyValueStore) returns (ok: bool, ghost done: seq<string>)
    modifies socket, store
    ensures var frames, d := Frames(Deliverable(old(socket.incoming))), old(store.data);
      && done <= frames && store.data == StoreRun(done, d)
      && (ok ==> done == frames && socket.sent == old(socket.sent) + Concat(ReplyRun(frames, d)))
      && (!ok ==> |done| > 0 && SentWithin(old(socket.sent), done, d, socket.sent))
    ensures Writable(old(socket.outgoing)) ==> ok
  {
    ghost var stream, d, sent0 := Deliverable(socket.incoming), store.data, socket.sent;
    var buffer := "";
    done := [];
    assert buffer + Deliverable(socket.incoming) == stream;
    Right(sent0);
    while true
      invariant Frames(stream) == done + Frames(buffer + Deliverable(socket.incoming))
      invariant store.data == StoreRun(done, d)
      invariant socket.sent == sent0 + Concat(ReplyRun(done, d))
      invariant Writable(old(socket.outgoing)) ==> Writable(socket.outgoing)
      decreases |buffer + Deliverable(socket.incoming)|
    {
      ghost var all := buffer + Deliverable(socket.incoming);
      var message;
      message, buffer := ReadMessage(socket, buffer);
      if message == None {
        Right(done);
        return true, done;
      }
      ghost var before, reply := done, Reply(message.value, store.data);
      RunSnoc(before, message.value, d);
      ConcatSnoc(ReplyRun(before, d), reply);
      Assoc(before, [message.value], Frames(AfterFirst(all)));
      done := before + [message.value];
      Assoc(sent0, Concat(ReplyRun(before, d)), reply);
      ghost var total;
      ok, total := AnswerMessage(socket, message.value, store);
      if !ok {
        assert done[..|done| - 1] == before;
        CutShort(sent0 + Concat(ReplyRun(before, d)), reply, total);
        return;
      }
      assert reply[..|reply|] == reply;
    }
  }

  lemma CutShort(s: string, t: string, n: nat)
    requires n < |t|
    ensures s <= s + t[..n] && s + t[..n] < s + t
  {
  }
}
