/**
 * What the replies mean, found by reading the log and nothing else: which write a key's value comes
 * from, which keys are bound, and what that makes of each command.
 */
module Answers {
  import opened Wrappers
  import opened Limits
  import opened Commands
  import opened Store
  import opened Serial

  // ---- The last write of a key ----

  predicate WritesKey(frame: string, key: string) {
    match Parse(frame)
    case Some(Set(k, _)) => k == key
    case Some(Erase(k)) => k == key
    case _ => false
  }

  /** Entry `i` sets the key to the value, and no later entry sets or deletes the key. */
  ghost predicate LeftBy(log: seq<Entry>, key: string, value: string, i: nat) {
    && i < |log| && Parse(log[i].frame) == Some(Set(key, value))
    && forall j :: i < j < |log| ==> !WritesKey(log[j].frame, key)
  }

  /** The value that the last write of the key left, found by scanning the log from its end. */
  function LastWritten(log: seq<Entry>, key: string): Option<string> {
    if log == [] then None
    else if WritesKey(log[|log| - 1].frame, key) then
      match Parse(log[|log| - 1].frame)
      case Some(Set(_, value)) => Some(value)
      case _ => None
    else LastWritten(log[..|log| - 1], key)
  }

  lemma LeftEarlier(log: seq<Entry>, key: string, value: string, i: nat)
    requires log != [] && !WritesKey(log[|log| - 1].frame, key)
    ensures LeftBy(log, key, value, i) <==> LeftBy(log[..|log| - 1], key, value, i)
  {
  }

  lemma {:induction false} LastWrittenIsLeft(log: seq<Entry>, key: string, value: string)
    ensures LastWritten(log, key) == Some(value) <==> exists i: nat :: LeftBy(log, key, value, i)
  {
    if log != [] {
      var n := |log| - 1;
      if WritesKey(log[n].frame, key) {
        assert LastWritten(log, key) == Some(value) ==> LeftBy(log, key, value, n);
        assert forall i: nat :: LeftBy(log, key, value, i) ==> i == n;
      } else {
        LastWrittenIsLeft(log[..n], key, value);
        forall i: nat
          ensures LeftBy(log, key, value, i) <==> LeftBy(log[..n], key, value, i)
        {
          LeftEarlier(log, key, value, i);
        }
      }
    }
  }

  /** The store has exactly the values that the last writes left. */
  lemma {:induction false} StoreIsWritten(log: seq<Entry>, key: string)
    ensures LastWritten(log, key) == if key in StoreAfter(log) then Some(StoreAfter(log)[key]) else None
  {
    if log != [] {
      StoreIsWritten(log[..|log| - 1], key);
    }
  }

  // ---- The bound keys ----

  /** The keys that some SET names. */
  function SetKeys(log: seq<Entry>): set<string> {
    if log == [] then {}
    else
      SetKeys(log[..|log| - 1]) +
      match Parse(log[|log| - 1].frame)
      case Some(Set(key, _)) => {key}
      case _ => {}
  }

  /** The keys whose last write is a SET. */
  function BoundKeys(log: seq<Entry>): set<string> {
    set key | key in SetKeys(log) && LastWritten(log, key).Some?
  }

  lemma {:induction false} WrittenIsSet(log: seq<Entry>, key: string)
    requires LastWritten(log, key).Some?
    ensures key in SetKeys(log)
  {
    if !WritesKey(log[|log| - 1].frame, key) {
      WrittenIsSet(log[..|log| - 1], key);
    }
  }

  lemma {:induction false} BoundKeysAreLeft(log: seq<Entry>, key: string)
    ensures key in BoundKeys(log) <==> exists value, i: nat :: LeftBy(log, key, value, i)
  {
    if LastWritten(log, key).Some? {
      WrittenIsSet(log, key);
      LastWrittenIsLeft(log, key, LastWritten(log, key).value);
    }
    if value, i: nat :| LeftBy(log, key, value, i) {
      LastWrittenIsLeft(log, key, value);
    }
  }

  lemma {:induction false} StoreKeysAreBound(log: seq<Entry>)
    ensures StoreAfter(log).Keys == BoundKeys(log)
  {
    forall key
      ensures key in StoreAfter(log) <==> key in BoundKeys(log)
    {
      StoreIsWritten(log, key);
      if LastWritten(log, key).Some? {
        WrittenIsSet(log, key);
      }
    }
  }

  // ---- The replies ----

  /** What a frame is told after the log: by the last write of its key, or the number of bound keys. */
  function Told(frame: string, log: seq<Entry>): string {
    match Parse(frame)
    case None => "INVALID COMMAND MESSAGE\n"
    case Some(Set(_, _)) => "OK\n"
    case Some(Get(key)) => (match LastWritten(log, key) case Some(value) => value + "\n" case None => "NOT_FOUND\n")
    case Some(Erase(key)) => if LastWritten(log, key).Some? then "OK\n" else "NOT_FOUND\n"
    case Some(Exists(key)) => if LastWritten(log, key).Some? then "1\n" else "0\n"
    case Some(Count) => Decimal(|BoundKeys(log)| % SIZE_MODULUS) + "\n"
  }

  /** The answer to every command, from the log alone. */
  lemma {:induction false} ReplyIsTold(frame: string, log: seq<Entry>)
    ensures Reply(frame, StoreAfter(log)) == Told(frame, log)
  {
    match Parse(frame)
    case None =>
    case Some(Count) =>
      StoreKeysAreBound(log);
      assert |StoreAfter(log).Keys| == |StoreAfter(log)|;
    case Some(Set(_, _)) =>
    case Some(Get(key)) => StoreIsWritten(log, key);
    case Some(Erase(key)) => StoreIsWritten(log, key);
    case Some(Exists(key)) => StoreIsWritten(log, key);
  }

  /** A GET is told the value of the last SET of its key with no DELETE of it since, and NOT_FOUND when there is none. */
  lemma {:induction false} GetTellsTheLastWrite(frame: string, key: string, log: seq<Entry>)
    requires Parse(frame) == Some(Get(key))
    ensures forall value, i: nat :: LeftBy(log, key, value, i) ==> Reply(frame, StoreAfter(log)) == value + "\n"
    ensures (forall value, i: nat :: !LeftBy(log, key, value, i)) ==> Reply(frame, StoreAfter(log)) == "NOT_FOUND\n"
  {
    ReplyIsTold(frame, log);
    forall value, i: nat | LeftBy(log, key, value, i)
      ensures LastWritten(log, key) == Some(value)
    {
      LastWrittenIsLeft(log, key, value);
    }
    if LastWritten(log, key).Some? {
      LastWrittenIsLeft(log, key, LastWritten(log, key).value);
    }
  }

  /** What one client is told, frame by frame. */
  function ToldTo(log: seq<Entry>, client: nat): seq<string> {
    if log == [] then []
    else
      var before := log[..|log| - 1];
      ToldTo(before, client) +
      (if log[|log| - 1].client == client then [Told(log[|log| - 1].frame, before)] else [])
  }

  lemma {:induction false} RepliesAreTold(log: seq<Entry>, client: nat)
    ensures RepliesOf(log, client) == ToldTo(log, client)
  {
    if log != [] {
      var before, e := log[..|log| - 1], log[|log| - 1];
      RepliesAreTold(before, client);
      ReplyIsTold(e.frame, before);
    }
  }
}
