/**
 * The serial meaning of a server: frames executed one after another against one store.
 * `StoreRun` and `ReplyRun` are the naive program; a log says which client each frame came from.
 */
module Serial {
  import opened Sequences
  import opened Store
  import opened Limits
  import opened Framing

  /** The store after executing the frames in order. */
  function StoreRun(frames: seq<string>, d: Data): Data {
    if frames == [] then d
    else After(frames[|frames| - 1], StoreRun(frames[..|frames| - 1], d))
  }

  /** The replies the frames get, in order. */
  function ReplyRun(frames: seq<string>, d: Data): (rs: seq<string>)
    ensures |rs| == |frames|
  {
    if frames == [] then []
    else
      var init := frames[..|frames| - 1];
      ReplyRun(init, d) + [Reply(frames[|frames| - 1], StoreRun(init, d))]
  }

  lemma RunSnoc(frames: seq<string>, f: string, d: Data)
    ensures StoreRun(frames + [f], d) == After(f, StoreRun(frames, d))
    ensures ReplyRun(frames + [f], d) == ReplyRun(frames, d) + [Reply(f, StoreRun(frames, d))]
  {
    assert (frames + [f])[..|frames|] == frames;
  }

  lemma RunNil(d: Data)
    ensures StoreRun([], d) == d && ReplyRun([], d) == []
  {
  }

  /** Executing in two portions is executing once. */
  lemma {:induction false} RunAppend(a: seq<string>, b: seq<string>, d: Data)
    ensures StoreRun(a + b, d) == StoreRun(b, StoreRun(a, d))
    ensures ReplyRun(a + b, d) == ReplyRun(a, d) + ReplyRun(b, StoreRun(a, d))
  {
    if b == [] {
      assert a + b == a;
      Right(ReplyRun(a, d));
    } else {
      var init, f := b[..|b| - 1], b[|b| - 1];
      RunAppend(a, init, d);
      Unsnoc(b);
      Assoc(a, init, [f]);
      RunSnoc(a + init, f, d);
      Assoc(ReplyRun(a, d), ReplyRun(init, StoreRun(a, d)), [Reply(f, StoreRun(a + init, d))]);
    }
  }

  lemma RunOne(f: string, frames: seq<string>, d: Data)
    ensures StoreRun([f] + frames, d) == StoreRun(frames, After(f, d))
    ensures ReplyRun([f] + frames, d) == [Reply(f, d)] + ReplyRun(frames, After(f, d))
  {
    RunAppend([f], frames, d);
    SingleRun(f, d);
  }

  lemma SingleRun(f: string, d: Data)
    ensures StoreRun([f], d) == After(f, d) && ReplyRun([f], d) == [Reply(f, d)]
  {
    assert [f][..0] == [];
  }

  /** Frames that fit the input limit keep the store bounded and get one-line replies that fit. */
  lemma {:induction false} RunStaysBounded(frames: seq<string>, d: Data)
    requires Bounded(d)
    requires forall i :: 0 <= i < |frames| ==> |frames[i]| < MAX_INPUT
    ensures Bounded(StoreRun(frames, d))
    ensures AllReplies(ReplyRun(frames, d))
  {
    if frames != [] {
      var init, f := frames[..|frames| - 1], frames[|frames| - 1];
      RunStaysBounded(init, d);
      ServingKeepsBounded(f, StoreRun(init, d));
      BoundedReply(f, StoreRun(init, d));
    }
  }

  // ---- The log ----

  datatype Entry = Entry(client: nat, frame: string)

  function StoreAfter(log: seq<Entry>): Data {
    if log == [] then map[]
    else After(log[|log| - 1].frame, StoreAfter(log[..|log| - 1]))
  }

  /** The frames the log attributes to one client, in order. */
  function FramesOf(log: seq<Entry>, client: nat): seq<string> {
    if log == [] then []
    else
      FramesOf(log[..|log| - 1], client) +
      (if log[|log| - 1].client == client then [log[|log| - 1].frame] else [])
  }

  /** The replies the log gives one client: each computed from the store at its place in the log. */
  function RepliesOf(log: seq<Entry>, client: nat): seq<string> {
    if log == [] then []
    else
      var before := log[..|log| - 1];
      RepliesOf(before, client) +
      (if log[|log| - 1].client == client then [Reply(log[|log| - 1].frame, StoreAfter(before))] else [])
  }

  function Entries(client: nat, frames: seq<string>): seq<Entry> {
    seq(|frames|, i requires 0 <= i < |frames| => Entry(client, frames[i]))
  }

  lemma LogSnoc(log: seq<Entry>, e: Entry)
    ensures StoreAfter(log + [e]) == After(e.frame, StoreAfter(log))
    ensures forall c ::
      FramesOf(log + [e], c) == FramesOf(log, c) + (if c == e.client then [e.frame] else [])
    ensures forall c ::
      RepliesOf(log + [e], c) == RepliesOf(log, c) + (if c == e.client then [Reply(e.frame, StoreAfter(log))] else [])
  {
    assert (log + [e])[..|log|] == log;
  }

  lemma EntriesSnoc(client: nat, frames: seq<string>, f: string)
    ensures Entries(client, frames + [f]) == Entries(client, frames) + [Entry(client, f)]
  {
  }

  /**
   * Frames of one client executed back to back extend the log: the store and that client's frames
   * and replies move as the naive program moves them, and no other client's do.
   */
  lemma {:induction false} LogExtends(log: seq<Entry>, client: nat, frames: seq<string>)
    ensures StoreAfter(log + Entries(client, frames)) == StoreRun(frames, StoreAfter(log))
    ensures FramesOf(log + Entries(client, frames), client) == FramesOf(log, client) + frames
    ensures RepliesOf(log + Entries(client, frames), client)
      == RepliesOf(log, client) + ReplyRun(frames, StoreAfter(log))
    ensures forall c :: c != client ==>
      && FramesOf(log + Entries(client, frames), c) == FramesOf(log, c)
      && RepliesOf(log + Entries(client, frames), c) == RepliesOf(log, c)
  {
    if frames == [] {
      assert Entries(client, frames) == [];
      Right(log);
      Right(FramesOf(log, client));
      Right(RepliesOf(log, client));
    } else {
      var init, f := frames[..|frames| - 1], frames[|frames| - 1];
      Unsnoc(frames);
      EntriesSnoc(client, init, f);
      LogExtends(log, client, init);
      Assoc(log, Entries(client, init), [Entry(client, f)]);
      LogSnoc(log + Entries(client, init), Entry(client, f));
      Assoc(FramesOf(log, client), init, [f]);
      Assoc(RepliesOf(log, client), ReplyRun(init, StoreAfter(log)), [Reply(f, StoreRun(init, StoreAfter(log)))]);
    }
  }

  /** A client with no entries in the log has no frames and no replies. */
  lemma {:induction false} AbsentClient(log: seq<Entry>, client: nat)
    requires forall i :: 0 <= i < |log| ==> log[i].client != client
    ensures FramesOf(log, client) == [] && RepliesOf(log, client) == []
  {
    if log != [] {
      AbsentClient(log[..|log| - 1], client);
    }
  }
}
