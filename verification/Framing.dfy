/**
 * Newline framing (src/protocol/framing.cpp): a byte stream is a sequence of complete frames,
 * each closed by a newline, followed by a tail that has no newline yet.
 *
 * Bytes are modelled as `char`. Only the newline and the white-space characters are ever
 * inspected, so every statement about all strings covers all byte strings.
 */
module Framing {
  import opened Wrappers
  import opened Sequences

  predicate HasFrame(s: string) {
    '\n' in s
  }

  predicate NewlineFree(frames: seq<string>) {
    forall i :: 0 <= i < |frames| ==> !HasFrame(frames[i])
  }

  /** The position of the first newline: `std::string::find`. */
  function Find(s: string): (i: nat)
    requires HasFrame(s)
    ensures i < |s| && s[i] == '\n' && !HasFrame(s[..i])
  {
    if s[0] == '\n' then 0
    else
      var i := 1 + Find(s[1..]);
      assert s[..i] == [s[0]] + s[1..][..i - 1];
      i
  }

  function FirstFrame(s: string): string
    requires HasFrame(s)
  {
    s[..Find(s)]
  }

  function AfterFirst(s: string): string
    requires HasFrame(s)
  {
    s[Find(s) + 1..]
  }

  /** The complete frames of a stream, in order, without their newlines. */
  function Frames(s: string): seq<string>
    decreases |s|
  {
    if HasFrame(s) then [FirstFrame(s)] + Frames(AfterFirst(s)) else []
  }

  /** What follows the last newline. */
  function Tail(s: string): string
    decreases |s|
  {
    if HasFrame(s) then Tail(AfterFirst(s)) else s
  }

  /** Frames written out with their newlines. */
  function Joined(frames: seq<string>): string {
    if frames == [] then "" else frames[0] + "\n" + Joined(frames[1..])
  }

  function Concat(parts: seq<string>): string {
    if parts == [] then "" else parts[0] + Concat(parts[1..])
  }

  lemma {:induction false} ConcatAppend(a: seq<string>, b: seq<string>)
    ensures Concat(a + b) == Concat(a) + Concat(b)
  {
    if a == [] {
      assert a + b == b;
    } else {
      assert (a + b)[1..] == a[1..] + b;
      ConcatAppend(a[1..], b);
      Assoc(a[0], Concat(a[1..]), Concat(b));
    }
  }

  lemma {:induction false} JoinedAppend(a: seq<string>, b: seq<string>)
    ensures Joined(a + b) == Joined(a) + Joined(b)
  {
    if a == [] {
      assert a + b == b;
    } else {
      assert (a + b)[1..] == a[1..] + b;
      JoinedAppend(a[1..], b);
      Assoc(a[0] + "\n", Joined(a[1..]), Joined(b));
    }
  }

  lemma ConcatSnoc(parts: seq<string>, p: string)
    ensures Concat(parts + [p]) == Concat(parts) + p
  {
    ConcatAppend(parts, [p]);
    assert [p][1..] == [];
  }

  /** A newline-free text before a newline is the first frame, and nothing else is. */
  lemma {:induction false} FirstFrameIs(f: string, rest: string)
    requires !HasFrame(f)
    ensures HasFrame(f + "\n" + rest)
    ensures FirstFrame(f + "\n" + rest) == f && AfterFirst(f + "\n" + rest) == rest
  {
    var s := f + "\n" + rest;
    assert s[|f|] == '\n';
    var i := Find(s);
    assert forall j :: 0 <= j < |f| ==> s[j] == f[j] && f[j] != '\n';
    assert forall j :: 0 <= j < i ==> s[j] == s[..i][j] && s[j] != '\n';
    assert s[..i] == f && s[i + 1..] == rest;
  }

  lemma FirstFrameSplits(s: string)
    requires HasFrame(s)
    ensures s == FirstFrame(s) + "\n" + AfterFirst(s)
    ensures !HasFrame(FirstFrame(s))
  {
  }

  /** Every stream is its complete frames followed by its tail. */
  lemma {:induction false} StreamSplits(s: string)
    ensures s == Joined(Frames(s)) + Tail(s)
    ensures NewlineFree(Frames(s)) && !HasFrame(Tail(s))
    decreases |s|
  {
    if HasFrame(s) {
      StreamSplits(AfterFirst(s));
      SplitStep(s, Frames(AfterFirst(s)), Tail(AfterFirst(s)));
    }
  }

  lemma {:induction false} SplitStep(s: string, frames: seq<string>, tail: string)
    requires HasFrame(s) && AfterFirst(s) == Joined(frames) + tail && NewlineFree(frames)
    ensures s == Joined([FirstFrame(s)] + frames) + tail
    ensures NewlineFree([FirstFrame(s)] + frames)
  {
    var f := FirstFrame(s);
    FirstFrameSplits(s);
    assert ([f] + frames)[1..] == frames;
    Assoc(f + "\n", Joined(frames), tail);
  }

  /** ... and it is so in only one way. */
  lemma {:induction false} SplitIsUnique(frames: seq<string>, rest: string)
    requires NewlineFree(frames)
    ensures Frames(Joined(frames) + rest) == frames + Frames(rest)
    ensures Tail(Joined(frames) + rest) == Tail(rest)
    decreases |frames|
  {
    if frames == [] {
      assert Joined(frames) + rest == rest;
    } else {
      var f, more := frames[0], frames[1..];
      SplitIsUnique(more, rest);
      Assoc(f + "\n", Joined(more), rest);
      OneMoreFrame(f, Joined(more) + rest);
      Uncons(frames);
      Assoc([f], more, Frames(rest));
    }
  }

  lemma {:induction false} OneMoreFrame(f: string, rest: string)
    requires !HasFrame(f)
    ensures Frames(f + "\n" + rest) == [f] + Frames(rest)
    ensures Tail(f + "\n" + rest) == Tail(rest)
  {
    FirstFrameIs(f, rest);
  }

  /** Take one complete frame off the buffer: the source erases it from the caller's string. */
  method NextMessage(buffer: string) returns (message: Option<string>, rest: string)
    ensures message == None <==> Frames(buffer) == []
    ensures message == None ==> rest == buffer
    ensures message.Some? ==> Frames(buffer) == [message.value] + Frames(rest)
    ensures message.Some? ==> Tail(buffer) == Tail(rest) && |rest| < |buffer|
    ensures message.Some? ==> buffer == message.value + "\n" + rest && !HasFrame(message.value)
  {
    if !HasFrame(buffer) {
      return None, buffer;
    }
    var newline := Find(buffer);
    FirstFrameSplits(buffer);
    message := Some(buffer[..newline]);
    rest := buffer[newline + 1..];
  }

  // ---- Replies as the client sees them ----

  /** One newline, and it is the last character. */
  predicate IsReply(r: string) {
    |r| > 0 && r[|r| - 1] == '\n' && !HasFrame(r[..|r| - 1])
  }

  predicate AllReplies(rs: seq<string>) {
    forall i :: 0 <= i < |rs| ==> IsReply(rs[i])
  }

  function Bodies(rs: seq<string>): seq<string>
    requires AllReplies(rs)
  {
    seq(|rs|, i requires 0 <= i < |rs| => rs[i][..|rs[i]| - 1])
  }

  /** Replies run together are recovered one by one by newline framing. */
  lemma {:induction false} RepliesAreFrames(rs: seq<string>)
    requires AllReplies(rs)
    ensures Frames(Concat(rs)) == Bodies(rs) && Tail(Concat(rs)) == ""
  {
    RepliesJoined(rs);
    SplitIsUnique(Bodies(rs), "");
    assert Joined(Bodies(rs)) + "" == Concat(rs);
    assert Bodies(rs) + [] == Bodies(rs);
  }

  lemma {:induction false} RepliesJoined(rs: seq<string>)
    requires AllReplies(rs)
    ensures Concat(rs) == Joined(Bodies(rs))
  {
    if rs != [] {
      RepliesJoined(rs[1..]);
      assert Bodies(rs)[1..] == Bodies(rs[1..]);
      assert rs[0] == rs[0][..|rs[0]| - 1] + "\n";
    }
  }
}
