/**
 * The key-value store (src/store.cpp) and the executor (src/protocol/executor.cpp): what one
 * command does to the shared map and what it answers.
 */
module Store {
  import opened Wrappers
  import opened Commands
  import opened Limits
  import Framing

  type Data = map<string, string>

  const INVALID: string := "INVALID COMMAND MESSAGE"

  class KeyValueStore {
    var data: Data

    constructor ()
      ensures data == map[]
    {
      data := map[];
    }

    method Set(key: string, value: string)
      modifies this
      ensures data == old(data)[key := value]
    {
      data := data[key := value];
    }

    method Get(key: string) returns (value: Option<string>)
      ensures value == if key in data then Some(data[key]) else None
    {
      value := if key in data then Some(data[key]) else None;
    }

    method Erase(key: string) returns (erased: bool)
      modifies this
      ensures erased == (key in old(data)) && data == old(data) - {key}
    {
      erased := key in data;
      data := data - {key};
    }

    method Exists(key: string) returns (present: bool)
      ensures present == (key in data)
    {
      present := key in data;
    }

    method Count() returns (n: nat)
      ensures n == |data| % SIZE_MODULUS
    {
      n := |data| % SIZE_MODULUS;
    }
  }

  // ---- Decimal printing: std::to_string ----

  const DIGITS: string := "0123456789"

  function Decimal(n: nat): string {
    if n < 10 then [DIGITS[n]] else Decimal(n / 10) + [DIGITS[n % 10]]
  }

  /** The number a string of digits denotes. */
  function Denotes(s: string): nat {
    if s == "" then 0 else 10 * Denotes(s[..|s| - 1]) + (s[|s| - 1] as int - '0' as int) % 10
  }

  lemma DigitChar(d: nat)
    requires d < 10
    ensures DIGITS[d] as int == '0' as int + d
  {
    if d < 5 {
    } else {
    }
  }

  /** The printed count denotes the count. */
  lemma {:induction false} DecimalDenotes(n: nat)
    ensures Denotes(Decimal(n)) == n
  {
    if n < 10 {
      DigitChar(n);
      DenotesSnoc("", DIGITS[n], n);
    } else {
      DigitChar(n % 10);
      DecimalDenotes(n / 10);
      DenotesSnoc(Decimal(n / 10), DIGITS[n % 10], n % 10);
    }
  }

  lemma DenotesSnoc(s: string, c: char, d: nat)
    requires d < 10 && c as int == '0' as int + d
    ensures Denotes(s + [c]) == 10 * Denotes(s) + d
  {
    assert (s + [c])[..|s|] == s;
  }

  lemma {:induction false} DecimalDigits(n: nat)
    ensures |Decimal(n)| > 0
    ensures forall i :: 0 <= i < |Decimal(n)| ==> '0' <= Decimal(n)[i] <= '9'
  {
    DigitChar(n % 10);
    if n >= 10 {
      DecimalDigits(n / 10);
    }
  }

  /** The printed number has no leading zero. */
  lemma {:induction false} DecimalIsPlain(n: nat)
    ensures |Decimal(n)| > 0 && (n > 0 ==> Decimal(n)[0] != '0')
  {
    if n < 10 {
      DigitChar(n);
    } else {
      DecimalIsPlain(n / 10);
    }
  }

  function Power10(e: nat): nat {
    if e == 0 then 1 else 10 * Power10(e - 1)
  }

  lemma {:induction false} DecimalLength(n: nat, e: nat)
    requires e > 0 && n < Power10(e)
    ensures |Decimal(n)| <= e
  {
    if n >= 10 {
      assert e > 1;
      DecimalLength(n / 10, e - 1);
    }
  }

  lemma SizeFitsTwentyDigits(n: nat)
    requires n < SIZE_MODULUS
    ensures |Decimal(n)| <= 20
  {
    assert Power10(4) == 10_000;
    assert Power10(8) == 10_000 * 10_000;
    assert Power10(12) == 10_000 * 10_000 * 10_000;
    assert Power10(16) == 10_000 * 10_000 * 10_000 * 10_000;
    assert Power10(20) == 10_000 * 10_000 * 10_000 * 10_000 * 10_000;
    DecimalLength(n, 20);
  }

  // ---- Executing a command ----

  function Apply(c: Command, d: Data): Data {
    match c
    case Set(key, value) => d[key := value]
    case Erase(key) => d - {key}
    case Get(_) | Exists(_) | Count => d
  }

  function Answer(c: Command, d: Data): string {
    match c
    case Set(_, _) => "OK"
    case Get(key) => if key in d then d[key] else "NOT_FOUND"
    case Erase(key) => if key in d then "OK" else "NOT_FOUND"
    case Exists(key) => if key in d then "1" else "0"
    case Count => Decimal(|d| % SIZE_MODULUS)
  }

  method ExecuteCommand(command: Command, store: KeyValueStore) returns (response: string)
    modifies store
    ensures store.data == Apply(command, old(store.data))
    ensures response == Answer(command, old(store.data))
  {
    match command
    case Set(key, value) =>
      store.Set(key, value);
      response := "OK";
    case Get(key) =>
      var value := store.Get(key);
      response := if value == None then "NOT_FOUND" else value.value;
    case Erase(key) =>
      var erased := store.Erase(key);
      response := if erased then "OK" else "NOT_FOUND";
    case Exists(key) =>
      var present := store.Exists(key);
      response := if present then "1" else "0";
    case Count =>
      var n := store.Count();
      response := Decimal(n);
  }

  // ---- Serving a frame ----

  /** The store after one frame: a frame that does not parse changes nothing. */
  function After(frame: string, d: Data): Data {
    match Parse(frame)
    case None => d
    case Some(c) => Apply(c, d)
  }

  /** The reply to one frame, with its newline. */
  function Reply(frame: string, d: Data): string {
    match Parse(frame)
    case None => INVALID + "\n"
    case Some(c) => Answer(c, d) + "\n"
  }

  /** Everything in the store arrived in a SET frame that fitted the input limit. */
  ghost predicate Bounded(d: Data) {
    forall k :: k in d ==> IsToken(k) && IsToken(d[k]) && |k| + |d[k]| <= MAX_INPUT - 6
  }

  lemma {:induction false} ServingKeepsBounded(frame: string, d: Data)
    requires Bounded(d) && |frame| < MAX_INPUT
    ensures Bounded(After(frame, d))
  {
    var c := Parse(frame);
    if c.Some? && c.value.Set? {
      SetLength(frame, c.value.key, c.value.value);
    }
  }

  /** A reply from a bounded store is one line that fits the response allowance. */
  lemma {:induction false} BoundedReply(frame: string, d: Data)
    requires Bounded(d)
    ensures Framing.IsReply(Reply(frame, d)) && |Reply(frame, d)| <= MAX_RESPONSE - 6
  {
    var c := Parse(frame);
    if c == None {
      LineIsReply(INVALID);
    } else {
      AnswerIsLine(c.value, d);
      LineIsReply(Answer(c.value, d));
    }
  }

  lemma LineIsReply(body: string)
    requires !Framing.HasFrame(body)
    ensures Framing.IsReply(body + "\n")
  {
    assert (body + "\n")[..|body|] == body;
  }

  lemma {:induction false} AnswerIsLine(c: Command, d: Data)
    requires Bounded(d)
    ensures !Framing.HasFrame(Answer(c, d)) && |Answer(c, d)| <= MAX_RESPONSE - 7
  {
    if c.Get? && c.key in d {
      assert IsToken(d[c.key]);
    } else if c.Count? {
      var n := |d| % SIZE_MODULUS;
      DecimalDigits(n);
      SizeFitsTwentyDigits(n);
    }
  }
}
