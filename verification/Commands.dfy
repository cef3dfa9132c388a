/**
 * The command language (src/protocol/parser.cpp): white-space separated tokens in one of five
 * shapes. The specification is the token list; the parser pulls tokens one at a time.
 */
module Commands {
  import opened Wrappers
  import opened Sequences

  datatype Command =
    | Set(key: string, value: string)
    | Get(key: string)
    | Erase(key: string)
    | Exists(key: string)
    | Count

  /** The classic-locale white space of `operator>>`: blank, and the range from tab to carriage return. */
  predicate IsSpace(c: char) {
    c == ' ' || '\t' <= c <= '\r'
  }

  predicate IsBlank(s: string) {
    forall i :: 0 <= i < |s| ==> IsSpace(s[i])
  }

  predicate IsToken(s: string) {
    |s| > 0 && forall i :: 0 <= i < |s| ==> !IsSpace(s[i])
  }

  /** The length of the longest prefix without white space. */
  function WordLength(s: string): (n: nat)
    ensures n <= |s|
    ensures forall i :: 0 <= i < n ==> !IsSpace(s[i])
    ensures n < |s| ==> IsSpace(s[n])
  {
    if s == "" || IsSpace(s[0]) then 0 else 1 + WordLength(s[1..])
  }

  function Tokens(s: string): seq<string>
    decreases |s|
  {
    if s == "" then []
    else if IsSpace(s[0]) then Tokens(s[1..])
    else [s[..WordLength(s)]] + Tokens(s[WordLength(s)..])
  }

  lemma {:induction false} TokensAreTokens(s: string)
    ensures forall i :: 0 <= i < |Tokens(s)| ==> IsToken(Tokens(s)[i])
    decreases |s|
  {
    if s == "" {
    } else if IsSpace(s[0]) {
      TokensAreTokens(s[1..]);
    } else {
      TokensAreTokens(s[WordLength(s)..]);
    }
  }

  // ---- White space ----

  /** Blank, tab, newline, vertical tab, form feed and carriage return. */
  const BLANKS: string := [' ', '\t', '\n', '\U{b}', '\U{c}', '\r']

  /** These characters separate tokens, and every other character is part of one. */
  lemma OnlyBlanksSeparate(c: char)
    ensures Tokens([c]) == if c in BLANKS then [] else [[c]]
  {
    assert c in BLANKS <==> IsSpace(c) by {
      assert BLANKS[0] == ' ' && BLANKS[1] == '\t' && BLANKS[2] == '\n';
      assert BLANKS[3] == '\U{b}' && BLANKS[4] == '\U{c}' && BLANKS[5] == '\r';
    }
    if IsSpace(c) {
      assert [c][1..] == "";
    } else {
      assert [c][1..] == "" && WordLength("") == 0 && WordLength([c]) == 1;
      assert [c][..1] == [c];
    }
  }

  lemma {:induction false} WordStaysShort(s: string, c: char)
    requires IsSpace(c)
    ensures WordLength(s + [c]) == WordLength(s)
  {
    if s != "" {
      assert (s + [c])[1..] == s[1..] + [c];
      if !IsSpace(s[0]) {
        WordStaysShort(s[1..], c);
      }
    } else {
      assert ("" + [c])[0] == c;
    }
  }

  lemma {:induction false} TrailingBlank(s: string, c: char)
    requires IsSpace(c)
    ensures Tokens(s + [c]) == Tokens(s)
    decreases |s|
  {
    if s == "" {
      assert ("" + [c])[1..] == "" && ("" + [c])[0] == c;
    } else if IsSpace(s[0]) {
      assert (s + [c])[1..] == s[1..] + [c];
      TrailingBlank(s[1..], c);
    } else {
      var n := WordLength(s);
      WordStaysShort(s, c);
      assert (s + [c])[..n] == s[..n] && (s + [c])[n..] == s[n..] + [c];
      TrailingBlank(s[n..], c);
    }
  }

  /** White space before or after a command, such as the carriage return of a line ended by both, changes nothing. */
  lemma {:induction false} BlanksAreIgnored(s: string, c: char)
    requires c in BLANKS
    ensures Parse(s + [c]) == Parse(s) && Parse([c] + s) == Parse(s)
  {
    OnlyBlanksSeparate(c);
    TokensOfOne(c);
    TrailingBlank(s, c);
    assert ([c] + s)[1..] == s;
  }

  lemma TokensOfOne(c: char)
    requires Tokens([c]) == []
    ensures IsSpace(c)
  {
  }

  // ---- Printing ----

  /** Words written with a gap before each and `last` after the final one. */
  function Layout(words: seq<string>, gaps: seq<string>, last: string): string
    requires |gaps| == |words|
  {
    if words == [] then last else gaps[0] + (words[0] + Layout(words[1..], gaps[1..], last))
  }

  /** Gaps are white space, and two neighbouring words are kept apart. */
  predicate Spaced(gaps: seq<string>, last: string) {
    && IsBlank(last)
    && (forall i :: 0 <= i < |gaps| ==> IsBlank(gaps[i]))
    && (forall i :: 0 < i < |gaps| ==> gaps[i] != "")
  }

  predicate AllTokens(words: seq<string>) {
    forall i :: 0 <= i < |words| ==> IsToken(words[i])
  }

  lemma {:induction false} SkipBlank(gap: string, s: string)
    requires IsBlank(gap)
    ensures Tokens(gap + s) == Tokens(s)
  {
    if gap == "" {
      assert gap + s == s;
    } else {
      assert (gap + s)[0] == gap[0] && (gap + s)[1..] == gap[1..] + s;
      SkipBlank(gap[1..], s);
    }
  }

  lemma TakeWord(w: string, rest: string)
    requires IsToken(w)
    requires rest == "" || IsSpace(rest[0])
    ensures Tokens(w + rest) == [w] + Tokens(rest)
  {
    var s := w + rest;
    var n := WordLength(s);
    assert forall i :: 0 <= i < |w| ==> s[i] == w[i];
    assert rest != "" ==> s[|w|] == rest[0];
    assert n == |w|;
    assert s[..n] == w && s[n..] == rest;
  }

  /** Reading back any layout of tokens gives the tokens. */
  lemma {:induction false} TokensOfLayout(words: seq<string>, gaps: seq<string>, last: string)
    requires |gaps| == |words| && AllTokens(words) && Spaced(gaps, last)
    ensures Tokens(Layout(words, gaps, last)) == words
  {
    if words == [] {
      SkipBlank(last, "");
      assert last + "" == last;
    } else {
      var rest := Layout(words[1..], gaps[1..], last);
      TokensOfLayout(words[1..], gaps[1..], last);
      LayoutStart(words[1..], gaps[1..], last);
      SkipBlank(gaps[0], words[0] + rest);
      TakeWord(words[0], rest);
    }
  }

  lemma LayoutStart(words: seq<string>, gaps: seq<string>, last: string)
    requires |gaps| == |words| && Spaced(gaps, last)
    requires gaps != [] ==> gaps[0] != ""
    ensures var s := Layout(words, gaps, last); s == "" || IsSpace(s[0])
  {
  }

  /** Every text is a layout of its own tokens. */
  lemma {:induction false} LayoutOfTokens(s: string) returns (gaps: seq<string>, last: string)
    ensures |gaps| == |Tokens(s)| && Spaced(gaps, last)
    ensures s == Layout(Tokens(s), gaps, last)
    ensures gaps != [] && IsSpace(s[0]) ==> gaps[0] != ""
    decreases |s|
  {
    if s == "" {
      gaps, last := [], "";
    } else if IsSpace(s[0]) {
      gaps, last := LayoutOfTokens(s[1..]);
      gaps, last := WidenFirst(s[0], Tokens(s), gaps, last);
    } else {
      var n := WordLength(s);
      gaps, last := LayoutOfTokens(s[n..]);
      assert [""][0] == "" && ([""] + gaps)[1..] == gaps;
      assert s == s[..n] + s[n..];
      gaps := [""] + gaps;
    }
  }

  lemma WidenFirst(c: char, words: seq<string>, gaps: seq<string>, last: string)
    returns (gaps': seq<string>, last': string)
    requires IsSpace(c) && |gaps| == |words| && Spaced(gaps, last)
    ensures |gaps'| == |words| && Spaced(gaps', last')
    ensures Layout(words, gaps', last') == [c] + Layout(words, gaps, last)
    ensures gaps' != [] ==> gaps'[0] != ""
  {
    if words == [] {
      gaps', last' := gaps, [c] + last;
    } else {
      gaps', last' := [[c] + gaps[0]] + gaps[1..], last;
      Assoc([c], gaps[0], words[0] + Layout(words[1..], gaps[1..], last));
    }
  }

  function TotalLength(words: seq<string>): nat {
    if words == [] then 0 else |words[0]| + TotalLength(words[1..])
  }

  lemma {:induction false} LayoutLength(words: seq<string>, gaps: seq<string>, last: string)
    requires |gaps| == |words| && Spaced(gaps, last)
    ensures |Layout(words, gaps, last)| >= TotalLength(words) + (if words == [] then 0 else |words| - 1)
  {
    if |words| > 0 {
      LayoutLength(words[1..], gaps[1..], last);
      if |words| > 1 {
        assert gaps[1] != "";
        LayoutGap(words[1..], gaps[1..], last);
      }
    }
  }

  /** A first gap that is not empty costs one more character. */
  lemma {:induction false} LayoutGap(words: seq<string>, gaps: seq<string>, last: string)
    requires |gaps| == |words| > 0 && Spaced(gaps, last) && gaps[0] != ""
    ensures |Layout(words, gaps, last)| >= TotalLength(words) + |words|
  {
    if |words| > 1 {
      assert gaps[1] != "";
      LayoutGap(words[1..], gaps[1..], last);
    }
  }

  // ---- The five shapes ----

  function Words(c: Command): seq<string> {
    match c
    case Set(key, value) => ["SET", key, value]
    case Get(key) => ["GET", key]
    case Erase(key) => ["DELETE", key]
    case Exists(key) => ["EXISTS", key]
    case Count => ["COUNT"]
  }

  function Recognise(words: seq<string>): Option<Command> {
    if words == [] then None
    else if words[0] == "SET" then if |words| == 3 then Some(Set(words[1], words[2])) else None
    else if words[0] == "GET" then if |words| == 2 then Some(Get(words[1])) else None
    else if words[0] == "DELETE" then if |words| == 2 then Some(Erase(words[1])) else None
    else if words[0] == "EXISTS" then if |words| == 2 then Some(Exists(words[1])) else None
    else if words[0] == "COUNT" then if |words| == 1 then Some(Count) else None
    else None
  }

  lemma RecogniseIsShape(words: seq<string>, c: Command)
    ensures Recognise(words) == Some(c) <==> words == Words(c)
  {
  }

  function Parse(text: string): Option<Command> {
    Recognise(Tokens(text))
  }

  /** The grammar: a text parses to `c` exactly when it is the words of `c`, all of them tokens, with any spacing. */
  ghost predicate Writes(text: string, c: Command) {
    exists gaps: seq<string>, last: string ::
      |gaps| == |Words(c)| && Spaced(gaps, last) && text == Layout(Words(c), gaps, last)
  }

  lemma {:induction false} ParseMeetsGrammar(text: string, c: Command)
    ensures Parse(text) == Some(c) <==> AllTokens(Words(c)) && Writes(text, c)
  {
    RecogniseIsShape(Tokens(text), c);
    if Parse(text) == Some(c) {
      TokensAreTokens(text);
      var gaps, last := LayoutOfTokens(text);
    }
    if AllTokens(Words(c)) && Writes(text, c) {
      var gaps, last :| |gaps| == |Words(c)| && Spaced(gaps, last) && text == Layout(Words(c), gaps, last);
      TokensOfLayout(Words(c), gaps, last);
    }
  }

  lemma {:induction false} OneWord(a: string)
    requires IsToken(a)
    ensures Tokens(a) == [a]
  {
    TokensOfLayout([a], [""], "");
    assert [a][1..] == [] && [""][1..] == [];
    assert Layout([a], [""], "") == a;
  }

  lemma {:induction false} OneMoreWord(a: string, rest: string)
    requires IsToken(a)
    ensures Tokens(a + " " + rest) == [a] + Tokens(rest)
  {
    assert a + " " + rest == a + (" " + rest);
    TakeWord(a, " " + rest);
    assert (" " + rest)[1..] == rest;
  }

  lemma {:induction false} TwoWords(a: string, b: string)
    requires IsToken(a) && IsToken(b)
    ensures Tokens(a + " " + b) == [a, b]
  {
    OneMoreWord(a, b);
    OneWord(b);
  }

  lemma {:induction false} ThreeWords(a: string, b: string, c: string)
    requires IsToken(a) && IsToken(b) && IsToken(c)
    ensures Tokens(a + " " + b + " " + c) == [a, b, c]
  {
    assert a + " " + b + " " + c == a + " " + (b + " " + c);
    OneMoreWord(a, b + " " + c);
    TwoWords(b, c);
  }

  lemma {:induction false} TypedSet(key: string, value: string)
    requires IsToken(key) && IsToken(value)
    ensures Parse("SET" + " " + key + " " + value) == Some(Set(key, value))
  {
    ThreeWords("SET", key, value);
  }

  lemma {:induction false} TypedGet(key: string)
    requires IsToken(key)
    ensures Parse("GET" + " " + key) == Some(Get(key))
  {
    TwoWords("GET", key);
  }

  lemma {:induction false} TypedErase(key: string)
    requires IsToken(key)
    ensures Parse("DELETE" + " " + key) == Some(Erase(key))
  {
    TwoWords("DELETE", key);
  }

  lemma {:induction false} TypedExists(key: string)
    requires IsToken(key)
    ensures Parse("EXISTS" + " " + key) == Some(Exists(key))
  {
    TwoWords("EXISTS", key);
  }

  lemma {:induction false} TypedCount()
    ensures Parse("COUNT") == Some(Count)
  {
    OneWord("COUNT");
  }

  /** The commands as a client types them. */
  lemma {:induction false} TypedCommands(key: string, value: string)
    requires IsToken(key) && IsToken(value)
    ensures Parse("SET" + " " + key + " " + value) == Some(Set(key, value))
    ensures Parse("GET" + " " + key) == Some(Get(key))
    ensures Parse("DELETE" + " " + key) == Some(Erase(key))
    ensures Parse("EXISTS" + " " + key) == Some(Exists(key))
    ensures Parse("COUNT") == Some(Count)
  {
    TypedSet(key, value);
    TypedGet(key);
    TypedErase(key);
    TypedExists(key);
    TypedCount();
  }

  /** A SET command spends at least its keyword and two separators beyond its key and value. */
  lemma {:induction false} SetLength(text: string, key: string, value: string)
    requires Parse(text) == Some(Set(key, value))
    ensures IsToken(key) && IsToken(value) && |key| + |value| + 5 <= |text|
  {
    RecogniseIsShape(Tokens(text), Set(key, value));
    TokensAreTokens(text);
    assert Tokens(text)[1] == key && Tokens(text)[2] == value;
    var gaps, last := LayoutOfTokens(text);
    LayoutLength(Tokens(text), gaps, last);
    SumOfThree("SET", key, value);
  }

  lemma SumOfThree(a: string, b: string, c: string)
    ensures TotalLength([a, b, c]) == |a| + |b| + |c|
  {
    assert [a, b, c][1..] == [b, c] && [b, c][1..] == [c] && [c][1..] == [];
    assert TotalLength([c]) == |c|;
    assert TotalLength([b, c]) == |b| + |c|;
  }

  // ---- The parser ----

  /** An `istringstream` read with `operator>>` into strings. */
  class TokenStream {
    const text: string
    var position: nat

    ghost predicate Valid() reads this {
      position <= |text|
    }

    ghost function Remaining(): seq<string>
      reads this
      requires Valid()
    {
      Tokens(text[position..])
    }

    constructor (input: string)
      ensures Valid() && Remaining() == Tokens(input)
    {
      text, position := input, 0;
      new;
      assert text[0..] == input;
    }

    /** Skip white space, then take characters up to the next white space; fail when there are none. */
    method Next() returns (token: Option<string>)
      requires Valid()
      modifies this
      ensures Valid()
      ensures token == None ==> old(Remaining()) == [] && Remaining() == []
      ensures token.Some? ==> old(Remaining()) == [token.value] + Remaining()
    {
      ghost var all := Remaining();
      while position < |text| && IsSpace(text[position])
        invariant Valid() && Remaining() == all
      {
        assert text[position..][1..] == text[position + 1..];
        position := position + 1;
      }
      var start := position;
      ghost var rest := text[start..];
      while position < |text| && !IsSpace(text[position])
        invariant start <= position <= |text|
        invariant forall i :: start <= i < position ==> !IsSpace(text[i])
      {
        position := position + 1;
      }
      if position == start {
        return None;
      }
      token := Some(text[start..position]);
      assert forall i :: 0 <= i < position - start ==> rest[i] == text[start + i];
      assert rest == text[start..position] + text[position..];
      TakeWord(text[start..position], text[position..]);
    }
  }

  method ParseCommand(input: string) returns (command: Option<Command>)
    ensures command == Parse(input)
  {
    var stream := new TokenStream(input);
    var operation := stream.Next();
    if operation == None {
      return None;
    }
    if operation.value == "SET" {
      var key := stream.Next();
      if key == None {
        return None;
      }
      var value := stream.Next();
      if value == None {
        return None;
      }
      var extra := stream.Next();
      return if extra.Some? then None else Some(Set(key.value, value.value));
    }
    if operation.value == "GET" {
      var key := stream.Next();
      if key == None {
        return None;
      }
      var extra := stream.Next();
      return if extra.Some? then None else Some(Get(key.value));
    }
    if operation.value == "DELETE" {
      var key := stream.Next();
      if key == None {
        return None;
      }
      var extra := stream.Next();
      return if extra.Some? then None else Some(Erase(key.value));
    }
    if operation.value == "EXISTS" {
      var key := stream.Next();
      if key == None {
        return None;
      }
      var extra := stream.Next();
      return if extra.Some? then None else Some(Exists(key.value));
    }
    if operation.value == "COUNT" {
      var extra := stream.Next();
      return if extra.Some? then None else Some(Count);
    }
    return None;
  }
}
