/**
 The RESP writer and reader of the relay-bus benchmark.

 A reply is what read_resp returns; text payloads are byte strings, CR and LF included.
 */
module Resp {
  import opened Basics

  type Byte = x: int | 0 <= x < 256
  type Bytes = seq<Byte>

  const CR: Byte := 13
  const LF: Byte := 10
  const CRLF: Bytes := [CR, LF]
  const PLUS: Byte := 43
  const MINUS: Byte := 45
  const COLON: Byte := 58
  const DOLLAR: Byte := 36
  const STAR: Byte := 42
  const UNDERSCORE: Byte := 95

  datatype Reply = Str(text: Bytes) | Int(value: int) | Nil | Arr(items: seq<Reply>)

  datatype Error =
    | ConnectionClosed
    | MalformedLine
    | MalformedBulk
    | BadInteger
    | ServerError(message: Bytes)
    | UnknownPrefix
    | BadLength

  datatype Parse<+T> = Ok(value: T, rest: Bytes) | Err(error: Error)

  // ---- integers as text ----

  function Digits(n: nat): (d: Bytes)
    ensures d != []
  {
    if n < 10 then [48 + n] else Digits(n / 10) + [48 + n % 10]
  }

  predicate IsDigit(b: Byte) {
    48 <= b <= 57
  }

  predicate IsSpace(b: Byte) {
    b == 32 || 9 <= b <= 13
  }

  function StripLeft(s: Bytes): Bytes {
    if s != [] && IsSpace(s[0]) then StripLeft(s[1..]) else s
  }

  function StripRight(s: Bytes): Bytes {
    if s != [] && IsSpace(s[|s| - 1]) then StripRight(s[..|s| - 1]) else s
  }

  /** Decimal digits with single underscores between them; the value so far is carried along. */
  function ParseDigits(s: Bytes, value: nat): Option<nat> {
    if s == [] then Some(value)
    else if IsDigit(s[0]) then ParseDigits(s[1..], value * 10 + (s[0] - 48))
    else if s[0] == UNDERSCORE && |s| > 1 && IsDigit(s[1]) then ParseDigits(s[1..], value)
    else None
  }

  function ParseUnsigned(s: Bytes): Option<nat> {
    if s != [] && IsDigit(s[0]) then ParseDigits(s, 0) else None
  }

  /** Python's int() on a byte string. */
  function ParseInt(line: Bytes): Option<int> {
    var s := StripRight(StripLeft(line));
    if s != [] && s[0] == MINUS then
      var n: Option<int> := ParseUnsigned(s[1..]);
      if n.Some? then Some(-n.value) else None
    else if s != [] && s[0] == PLUS then ParseUnsigned(s[1..])
    else ParseUnsigned(s)
  }

  lemma {:induction false} DigitsAreDigits(n: nat)
    ensures forall b :: b in Digits(n) ==> IsDigit(b)
  {
    if n >= 10 {
      DigitsAreDigits(n / 10);
    }
  }

  lemma {:induction false} ParseDigitsAppend(s: Bytes, d: Byte, value: nat)
    requires (forall b :: b in s ==> IsDigit(b)) && IsDigit(d)
    ensures ParseDigits(s, value).Some?
    ensures ParseDigits(s + [d], value) == Some(ParseDigits(s, value).value * 10 + (d as int - 48))
  {
    if s == [] {
      assert ([] + [d])[1..] == [];
    } else {
      assert (s + [d])[1..] == s[1..] + [d];
      assert IsDigit(s[0]);
      ParseDigitsAppend(s[1..], d, value * 10 + (s[0] as int - 48));
    }
  }

  lemma {:induction false} ParseDigitsOfDigits(n: nat)
    ensures ParseDigits(Digits(n), 0) == Some(n)
  {
    if n < 10 {
      assert [48 + n][1..] == [];
    } else {
      DigitsAreDigits(n / 10);
      ParseDigitsOfDigits(n / 10);
      ParseDigitsAppend(Digits(n / 10), 48 + n % 10, 0);
    }
  }

  /** Reading back a written length. */
  lemma ParseIntOfDigits(n: nat)
    ensures ParseInt(Digits(n)) == Some(n)
  {
    var d := Digits(n);
    DigitsAreDigits(n);
    ParseDigitsOfDigits(n);
    assert d[0] in d && d[|d| - 1] in d;
  }

  // ---- writer ----

  function Bulk(part: Bytes): Bytes {
    [DOLLAR] + Digits(|part|) + CRLF + part + CRLF
  }

  function Bulks(parts: seq<Bytes>): Bytes {
    if parts == [] then [] else Bulk(parts[0]) + Bulks(parts[1..])
  }

  function Encode(parts: seq<Bytes>): Bytes {
    [STAR] + Digits(|parts|) + CRLF + Bulks(parts)
  }

  lemma {:induction false} BulksAppend(a: seq<Bytes>, p: Bytes)
    ensures Bulks(a + [p]) == Bulks(a) + Bulk(p)
  {
    if a == [] {
      assert ([] + [p])[1..] == [];
      assert Bulks([]) == [];
    } else {
      assert (a + [p])[1..] == a[1..] + [p];
      BulksAppend(a[1..], p);
    }
  }

  method EncodeCommand(parts: seq<Bytes>) returns (frame: Bytes)
    ensures frame == Encode(parts)
  {
    frame := [STAR] + Digits(|parts|) + CRLF;
    ghost var head := frame;
    for i := 0 to |parts|
      invariant frame == head + Bulks(parts[..i])
    {
      frame := frame + ([DOLLAR] + Digits(|parts[i]|) + CRLF);
      frame := frame + parts[i];
      frame := frame + CRLF;
      assert parts[..i + 1] == parts[..i] + [parts[i]];
      BulksAppend(parts[..i], parts[i]);
    }
    assert parts[..|parts|] == parts;
  }

  // ---- reader ----

  /** Index of the first line feed, or the length. */
  function FindLF(s: Bytes): (k: nat)
    ensures k <= |s|
  {
    if s == [] then 0 else if s[0] == LF then 0 else 1 + FindLF(s[1..])
  }

  lemma {:induction false} FirstLF(s: Bytes)
    ensures var k := FindLF(s); (k < |s| ==> s[k] == LF) && forall i :: 0 <= i < k ==> s[i] != LF
  {
    if s != [] && s[0] != LF {
      FirstLF(s[1..]);
      var k := FindLF(s[1..]);
      assert FindLF(s) == 1 + k;
      forall i | 0 <= i < k + 1 ensures s[i] != LF {
        assert i > 0 ==> s[1..][i - 1] == s[i];
      }
    }
  }

  /** One line without its terminator. */
  function ReadLine(s: Bytes): (r: Parse<Bytes>)
    ensures r.Ok? ==> |r.rest| < |s|
  {
    if s == [] then Err(ConnectionClosed)
    else
      var k := FindLF(s);
      if k < |s| && k > 0 && s[k - 1] == CR then Ok(s[..k - 1], s[k + 1..]) else Err(MalformedLine)
  }

  function ReadNumber(s: Bytes): (r: Parse<int>)
    ensures r.Ok? ==> |r.rest| < |s|
  {
    match ReadLine(s)
    case Err(e) => Err(e)
    case Ok(line, rest) =>
      var n := ParseInt(line);
      if n.Some? then Ok(n.value, rest) else Err(BadInteger)
  }

  function ReadBulk(s: Bytes, length: int): (r: Parse<Reply>)
    ensures r.Ok? ==> |r.rest| <= |s|
  {
    if length == -1 then Ok(Nil, s)
    else if length < 0 then Err(BadLength)
    else if |s| < length + 2 || s[length..length + 2] != CRLF then Err(MalformedBulk)
    else Ok(Str(s[..length]), s[length + 2..])
  }

  function ReadResp(s: Bytes): (r: Parse<Reply>)
    ensures r.Ok? ==> |r.rest| < |s|
    decreases |s|, 0
  {
    if s == [] then Err(ConnectionClosed)
    else if s[0] == PLUS then
      match ReadLine(s[1..]) { case Err(e) => Err(e) case Ok(line, rest) => Ok(Str(line), rest) }
    else if s[0] == MINUS then
      match ReadLine(s[1..]) { case Err(e) => Err(e) case Ok(line, _) => Err(ServerError(line)) }
    else if s[0] == COLON then
      match ReadNumber(s[1..]) { case Err(e) => Err(e) case Ok(n, rest) => Ok(Int(n), rest) }
    else if s[0] == DOLLAR then
      match ReadNumber(s[1..]) { case Err(e) => Err(e) case Ok(n, rest) => ReadBulk(rest, n) }
    else if s[0] == STAR then
      match ReadNumber(s[1..])
      case Err(e) => Err(e)
      case Ok(n, rest) =>
        if n == -1 then Ok(Nil, rest)
        else
          match ReadMany(rest, n) { case Err(e) => Err(e) case Ok(items, rest') => Ok(Arr(items), rest') }
    else Err(UnknownPrefix)
  }

  /** `n` replies in a row; none when `n` is not positive. */
  function ReadMany(s: Bytes, n: int): (r: Parse<seq<Reply>>)
    ensures r.Ok? ==> |r.rest| <= |s|
    decreases |s|, 1
  {
    if n <= 0 then Ok([], s)
    else
      match ReadResp(s)
      case Err(e) => Err(e)
      case Ok(item, rest) =>
        match ReadMany(rest, n - 1) { case Err(e) => Err(e) case Ok(items, rest') => Ok([item] + items, rest') }
  }

  // ---- the reader over a stream ----

  class Stream {
    var left: Bytes

    constructor (bytes: Bytes)
      ensures left == bytes
    {
      left := bytes;
    }

    /** Up to `n` bytes; fewer only at the end of the stream. */
    method Read(n: nat) returns (data: Bytes)
      modifies this
      ensures data == old(left)[..if n <= |old(left)| then n else |old(left)|]
      ensures left == old(left)[|data|..]
    {
      var k := if n <= |left| then n else |left|;
      data := left[..k];
      left := left[k..];
    }

    /** Through the next line feed, or to the end. */
    method Readline() returns (line: Bytes)
      modifies this
      ensures var k := FindLF(old(left)); line == old(left)[..if k < |old(left)| then k + 1 else k]
      ensures left == old(left)[|line|..]
    {
      var k := 0;
      while k < |left| && left[k] != LF
        invariant k <= |left|
        invariant forall i :: 0 <= i < k ==> left[i] != LF
      {
        k := k + 1;
      }
      FirstLF(left);
      var first := FindLF(left);
      assert first == k;
      if k < |left| {
        k := k + 1;
      }
      line := left[..k];
      left := left[k..];
    }

    method Line() returns (r: Parse<Bytes>)
      modifies this
      ensures r == ReadLine(old(left))
      ensures r.Ok? ==> left == r.rest
      ensures |left| <= |old(left)|
    {
      ghost var s := left;
      var line := Readline();
      LineShape(s, line);
      if line == [] {
        return Err(ConnectionClosed);
      }
      if |line| < 2 || line[|line| - 2..] != CRLF {
        return Err(MalformedLine);
      }
      return Ok(line[..|line| - 2], left);
    }

    method Number() returns (r: Parse<int>)
      modifies this
      ensures r == ReadNumber(old(left))
      ensures r.Ok? ==> left == r.rest
      ensures |left| <= |old(left)|
    {
      var line := Line();
      if line.Err? {
        return Err(line.error);
      }
      var n := ParseInt(line.value);
      if n.None? {
        return Err(BadInteger);
      }
      return Ok(n.value, left);
    }

    /** read_resp: it agrees with ReadResp, and after a success the stream stands right after the reply. */
    method Next() returns (r: Parse<Reply>)
      modifies this
      ensures r == ReadResp(old(left))
      ensures r.Ok? ==> left == r.rest
      decreases |left|, 0
    {
      var prefix := Read(1);
      if prefix == [] {
        return Err(ConnectionClosed);
      }
      if prefix == [PLUS] {
        var line := Line();
        return if line.Err? then Err(line.error) else Ok(Str(line.value), left);
      }
      if prefix == [MINUS] {
        var line := Line();
        return if line.Err? then Err(line.error) else Err(ServerError(line.value));
      }
      if prefix == [COLON] {
        var n := Number();
        return if n.Err? then Err(n.error) else Ok(Int(n.value), left);
      }
      if prefix == [DOLLAR] {
        var n := Number();
        if n.Err? {
          return Err(n.error);
        }
        r := BulkBody(n.value);
        return;
      }
      if prefix == [STAR] {
        var n := Number();
        if n.Err? {
          return Err(n.error);
        }
        if n.value == -1 {
          return Ok(Nil, left);
        }
        var items := Items(n.value);
        return if items.Err? then Err(items.error) else Ok(Arr(items.value), left);
      }
      return Err(UnknownPrefix);
    }

    method BulkBody(length: int) returns (r: Parse<Reply>)
      modifies this
      ensures r == ReadBulk(old(left), length)
      ensures r.Ok? ==> left == r.rest
    {
      if length == -1 {
        return Ok(Nil, left);
      }
      if length < 0 {
        return Err(BadLength);
      }
      var data := Read(length);
      var terminator := Read(2);
      if |data| != length || terminator != CRLF {
        return Err(MalformedBulk);
      }
      return Ok(Str(data), left);
    }

    /** One round of the list: the next reply, or the error that ends the whole list. */
    method NextItem(ghost items: seq<Reply>, ghost n: int, ghost all: Parse<seq<Reply>>) returns (r: Parse<Reply>)
      requires n > 0 && all == Prefixed(items, ReadMany(left, n))
      modifies this
      ensures r.Err? ==> all == Err(r.error)
      ensures r.Ok? ==> all == Prefixed(items + [r.value], ReadMany(left, n - 1)) && |left| <= |old(left)|
      decreases |left|, 1
    {
      PrefixedStep(items, left, n);
      r := Next();
    }

    method Items(n: int) returns (r: Parse<seq<Reply>>)
      modifies this
      ensures r == ReadMany(old(left), n)
      ensures r.Ok? ==> left == r.rest
      decreases |left|, 2
    {
      ghost var all := ReadMany(left, n);
      var items: seq<Reply> := [];
      PrefixedStart(left, n);
      var i := 0;
      while i < n
        invariant i <= n || i == 0
        invariant |left| <= |old(left)|
        invariant all == Prefixed(items, ReadMany(left, n - i))
        decreases n - i
      {
        var item := NextItem(items, n - i, all);
        if item.Err? {
          return Err(item.error);
        }
        items := items + [item.value];
        i := i + 1;
      }
      PrefixedEnd(items, left, n - i);
      return Ok(items, left);
    }
  }

  predicate EndsInCRLF(line: Bytes) {
    |line| >= 2 && line[|line| - 2..] == CRLF
  }

  lemma EndedLine(s: Bytes, k: nat, line: Bytes)
    requires k < |s| && s[k] == LF && line == s[..k + 1]
    ensures EndsInCRLF(line) <==> k > 0 && s[k - 1] == CR
    ensures EndsInCRLF(line) ==> line[..|line| - 2] == s[..k - 1]
  {
    if k > 0 {
      LastTwo(line);
      assert line[k] == s[k] && line[k - 1] == s[k - 1];
    }
  }

  lemma UnendedLine(s: Bytes)
    requires forall i :: 0 <= i < |s| ==> s[i] != LF
    ensures !EndsInCRLF(s)
  {
    if |s| >= 2 {
      LastTwo(s);
    }
  }

  /** What the line read from `s` says about ReadLine. */
  lemma LineShape(s: Bytes, line: Bytes)
    requires var k := FindLF(s); line == s[..if k < |s| then k + 1 else k]
    ensures line == [] <==> s == []
    ensures EndsInCRLF(line) ==> ReadLine(s) == Ok(line[..|line| - 2], s[|line|..])
    ensures s != [] && !EndsInCRLF(line) ==> ReadLine(s) == Err(MalformedLine)
  {
    var k := FindLF(s);
    FirstLF(s);
    if k < |s| {
      EndedLine(s, k, line);
    } else {
      assert line == s;
      UnendedLine(s);
    }
  }

  lemma LastTwo(line: Bytes)
    requires |line| >= 2
    ensures line[|line| - 2..] == CRLF <==> line[|line| - 2] == CR && line[|line| - 1] == LF
  {
    assert line[|line| - 2..] == [line[|line| - 2], line[|line| - 1]];
  }

  /** A list of replies continued by what remains to be read. */
  function Prefixed(items: seq<Reply>, p: Parse<seq<Reply>>): Parse<seq<Reply>> {
    match p
    case Err(e) => Err(e)
    case Ok(more, rest) => Ok(items + more, rest)
  }

  lemma PrefixedStart(s: Bytes, n: int)
    ensures Prefixed([], ReadMany(s, n)) == ReadMany(s, n)
  {
    var p := ReadMany(s, n);
    assert p.Ok? ==> [] + p.value == p.value;
  }

  lemma PrefixedEnd(items: seq<Reply>, s: Bytes, n: int)
    requires n <= 0
    ensures Prefixed(items, ReadMany(s, n)) == Ok(items, s)
  {
    assert items + [] == items;
  }

  lemma PrefixedStep(items: seq<Reply>, s: Bytes, n: int)
    requires n > 0
    ensures ReadResp(s).Err? ==> Prefixed(items, ReadMany(s, n)) == Err(ReadResp(s).error)
    ensures ReadResp(s).Ok? ==>
      Prefixed(items, ReadMany(s, n)) == Prefixed(items + [ReadResp(s).value], ReadMany(ReadResp(s).rest, n - 1))
  {
    var r := ReadResp(s);
    if r.Ok? && ReadMany(r.rest, n - 1).Ok? {
      Assoc(items, [r.value], ReadMany(r.rest, n - 1).value);
    }
  }

  /** A prefix byte, a length, a separator and the rest, taken apart. */
  lemma TakeApart(d: Byte, x: Bytes, c: Bytes, body: Bytes)
    ensures var s := [d] + x + c + body; s != [] && s[0] == d && s[1..] == x + c + body
  {
  }

  // ---- round trip ----

  lemma LineBack(line: Bytes, tail: Bytes)
    requires LF !in line
    ensures ReadLine(line + CRLF + tail) == Ok(line, tail)
  {
    var s := line + CRLF + tail;
    FirstLF(s);
    var k := FindLF(s);
    assert s[|line| + 1] == LF;
    assert forall i :: 0 <= i < |line| ==> s[i] == line[i] && line[i] in line;
    assert s[|line|] == CR;
    assert k == |line| + 1;
    assert s[..k - 1] == line && s[k + 1..] == tail;
  }

  lemma NumberBack(n: nat, tail: Bytes)
    ensures ReadNumber(Digits(n) + CRLF + tail) == Ok(n, tail)
  {
    DigitsAreDigits(n);
    LineBack(Digits(n), tail);
    ParseIntOfDigits(n);
  }

  lemma BulkTail(part: Bytes, tail: Bytes)
    ensures (Bulk(part) + tail)[0] == DOLLAR
    ensures (Bulk(part) + tail)[1..] == Digits(|part|) + CRLF + (part + CRLF + tail)
  {
    var head := [DOLLAR] + Digits(|part|) + CRLF;
    Assoc(head + part, CRLF, tail);
    Assoc(head, part, CRLF + tail);
    Assoc(part, CRLF, tail);
    TakeApart(DOLLAR, Digits(|part|), CRLF, part + CRLF + tail);
  }

  lemma BodyBack(part: Bytes, tail: Bytes)
    ensures ReadBulk(part + CRLF + tail, |part|) == Ok(Str(part), tail)
  {
    var body := part + CRLF + tail;
    assert body[|part|..|part| + 2] == CRLF;
    assert body[..|part|] == part && body[|part| + 2..] == tail;
  }

  lemma BulkBack(part: Bytes, tail: Bytes)
    ensures ReadResp(Bulk(part) + tail) == Ok(Str(part), tail)
  {
    BulkTail(part, tail);
    NumberBack(|part|, part + CRLF + tail);
    BodyBack(part, tail);
  }

  function Strs(parts: seq<Bytes>): seq<Reply> {
    seq(|parts|, i requires 0 <= i < |parts| => Str(parts[i]))
  }

  /** Reading one more reply before the others. */
  lemma ManyBack(s: Bytes, n: nat, item: Reply, mid: Bytes, items: seq<Reply>, tail: Bytes)
    requires ReadResp(s) == Ok(item, mid) && ReadMany(mid, n) == Ok(items, tail)
    ensures ReadMany(s, n + 1) == Ok([item] + items, tail)
  {
  }

  lemma BulksHead(parts: seq<Bytes>, tail: Bytes)
    requires parts != []
    ensures Bulks(parts) + tail == Bulk(parts[0]) + (Bulks(parts[1..]) + tail)
  {
    Assoc(Bulk(parts[0]), Bulks(parts[1..]), tail);
  }

  lemma StrsHead(parts: seq<Bytes>)
    requires parts != []
    ensures Strs(parts) == [Str(parts[0])] + Strs(parts[1..])
  {
  }

  lemma {:induction false} BulksBack(parts: seq<Bytes>, tail: Bytes)
    ensures ReadMany(Bulks(parts) + tail, |parts|) == Ok(Strs(parts), tail)
  {
    if parts == [] {
      assert Bulks(parts) + tail == tail && Strs(parts) == [];
    } else {
      var rest := Bulks(parts[1..]) + tail;
      BulksHead(parts, tail);
      StrsHead(parts);
      BulkBack(parts[0], rest);
      BulksBack(parts[1..], tail);
      ManyBack(Bulk(parts[0]) + rest, |parts| - 1, Str(parts[0]), rest, Strs(parts[1..]), tail);
    }
  }

  lemma EncodeTail(parts: seq<Bytes>, tail: Bytes)
    ensures (Encode(parts) + tail)[0] == STAR
    ensures (Encode(parts) + tail)[1..] == Digits(|parts|) + CRLF + (Bulks(parts) + tail)
  {
    Assoc([STAR] + Digits(|parts|) + CRLF, Bulks(parts), tail);
    TakeApart(STAR, Digits(|parts|), CRLF, Bulks(parts) + tail);
  }

  lemma ArrayBack(s: Bytes, n: nat, body: Bytes, items: seq<Reply>, tail: Bytes)
    requires s != [] && s[0] == STAR && ReadNumber(s[1..]) == Ok(n, body) && ReadMany(body, n) == Ok(items, tail)
    ensures ReadResp(s) == Ok(Arr(items), tail)
  {
  }

  /** Round trip: whatever the parts contain and whatever follows, a command reads back as its parts. */
  lemma RoundTrip(parts: seq<Bytes>, tail: Bytes)
    ensures ReadResp(Encode(parts) + tail) == Ok(Arr(Strs(parts)), tail)
  {
    EncodeTail(parts, tail);
    NumberBack(|parts|, Bulks(parts) + tail);
    BulksBack(parts, tail);
    ArrayBack(Encode(parts) + tail, |parts|, Bulks(parts) + tail, Strs(parts), tail);
  }

  function EncodeAll(commands: seq<seq<Bytes>>): Bytes {
    if commands == [] then [] else Encode(commands[0]) + EncodeAll(commands[1..])
  }

  function Replies(commands: seq<seq<Bytes>>): seq<Reply> {
    seq(|commands|, i requires 0 <= i < |commands| => Arr(Strs(commands[i])))
  }

  lemma CommandsHead(commands: seq<seq<Bytes>>, tail: Bytes)
    requires commands != []
    ensures EncodeAll(commands) + tail == Encode(commands[0]) + (EncodeAll(commands[1..]) + tail)
  {
    Assoc(Encode(commands[0]), EncodeAll(commands[1..]), tail);
  }

  lemma RepliesHead(commands: seq<seq<Bytes>>)
    requires commands != []
    ensures Replies(commands) == [Arr(Strs(commands[0]))] + Replies(commands[1..])
  {
    var r, q := Replies(commands), [Arr(Strs(commands[0]))] + Replies(commands[1..]);
    assert forall i :: 0 <= i < |r| ==> r[i] == q[i];
  }

  /** Pipelining: n commands written back to back read back as n lists, in order. */
  lemma {:induction false} PipelineRoundTrip(commands: seq<seq<Bytes>>, tail: Bytes)
    ensures ReadMany(EncodeAll(commands) + tail, |commands|) == Ok(Replies(commands), tail)
  {
    if commands == [] {
      assert EncodeAll(commands) + tail == tail && Replies(commands) == [];
    } else {
      var rest := EncodeAll(commands[1..]) + tail;
      CommandsHead(commands, tail);
      RepliesHead(commands);
      RoundTrip(commands[0], rest);
      PipelineRoundTrip(commands[1..], tail);
      ManyBack(Encode(commands[0]) + rest, |commands| - 1, Arr(Strs(commands[0])), rest, Replies(commands[1..]), tail);
    }
  }

  // ---- the other replies ----

  /** Whitespace around a number does not matter. */
  lemma {:induction false} StripBefore(pad: Bytes, s: Bytes)
    requires (forall b :: b in pad ==> IsSpace(b)) && s != [] && !IsSpace(s[0])
    ensures StripLeft(pad + s) == s
  {
    if pad == [] {
      assert pad + s == s;
    } else {
      assert pad[0] in pad;
      assert (pad + s)[1..] == pad[1..] + s && (pad + s)[0] == pad[0];
      StripBefore(pad[1..], s);
    }
  }

  lemma {:induction false} StripAfter(s: Bytes, pad: Bytes)
    requires (forall b :: b in pad ==> IsSpace(b)) && s != [] && !IsSpace(s[|s| - 1])
    ensures StripRight(s + pad) == s
  {
    if pad == [] {
      assert s + pad == s;
    } else {
      var n := |pad| - 1;
      assert pad[n] in pad;
      assert (s + pad)[..|s + pad| - 1] == s + pad[..n] && (s + pad)[|s + pad| - 1] == pad[n];
      StripAfter(s, pad[..n]);
    }
  }

  /** A sign, if any, and the digits of a number. */
  function Signed(minus: bool, plus: bool, n: nat): Bytes {
    (if minus then [MINUS] else if plus then [PLUS] else []) + Digits(n)
  }

  function Value(minus: bool, n: int): int {
    if minus then -n else n
  }

  lemma SignedBare(minus: bool, plus: bool, n: nat)
    ensures ParseInt(Signed(minus, plus, n)) == Some(Value(minus, n))
    ensures var s := Signed(minus, plus, n); !IsSpace(s[0]) && !IsSpace(s[|s| - 1])
    ensures LF !in Signed(minus, plus, n)
  {
    var d, s := Digits(n), Signed(minus, plus, n);
    DigitsAreDigits(n);
    ParseDigitsOfDigits(n);
    assert d[0] in d && d[|d| - 1] in d;
    assert s[|s| - 1] == d[|d| - 1];
    assert forall b :: b in s ==> b in d || b == MINUS || b == PLUS;
    if minus || plus {
      assert s[1..] == d;
    } else {
      assert s == d;
    }
    assert IsDigit(d[0]) && IsDigit(d[|d| - 1]);
    assert s[0] == if minus then MINUS else if plus then PLUS else d[0];
    assert !IsSpace(s[0]) && !IsSpace(s[|s| - 1]);
    StripNothing(s);
  }

  /** Integers as Python reads them: an optional sign, and whitespace on both sides. */
  lemma SignedBack(minus: bool, plus: bool, n: nat, before: Bytes, after: Bytes)
    requires forall b :: b in before + after ==> IsSpace(b)
    ensures ParseInt(before + (Signed(minus, plus, n) + after)) == Some(Value(minus, n))
  {
    var s := Signed(minus, plus, n);
    SignedBare(minus, plus, n);
    forall b | b in before || b in after ensures IsSpace(b) {
      assert b in before + after;
    }
    assert (s + after)[0] == s[0];
    StripBefore(before, s + after);
    StripAfter(s, after);
    StripNothing(s);
  }

  lemma StripNothing(s: Bytes)
    requires s != [] && !IsSpace(s[0]) && !IsSpace(s[|s| - 1])
    ensures StripRight(StripLeft(s)) == s
  {
  }

  /** A single underscore between digits is ignored. */
  lemma {:induction false} UnderscoreBack(x: Bytes, y: Bytes, v: nat)
    requires y != [] && IsDigit(y[0]) && forall b :: b in x ==> IsDigit(b)
    ensures ParseDigits(x + [UNDERSCORE] + y, v) == ParseDigits(x + y, v)
    decreases |x|
  {
    if x == [] {
      assert x + [UNDERSCORE] + y == [UNDERSCORE] + y && ([UNDERSCORE] + y)[1..] == y && x + y == y;
    } else {
      var d, rest := x[0], x[1..];
      assert d in x && forall b :: b in rest ==> b in x;
      FrontOff(x, [UNDERSCORE] + y);
      FrontOff(x, y);
      Assoc(x, [UNDERSCORE], y);
      Assoc(rest, [UNDERSCORE], y);
      UnderscoreBack(rest, y, v * 10 + (d as int - 48));
    }
  }

  lemma FrontOff(x: Bytes, y: Bytes)
    requires x != []
    ensures (x + y)[0] == x[0] && (x + y)[1..] == x[1..] + y
  {
  }

  lemma SignedLine(minus: bool, n: nat, tail: Bytes)
    ensures ReadNumber(Signed(minus, false, n) + CRLF + tail) == Ok(Value(minus, n), tail)
  {
    SignedBare(minus, false, n);
    LineBack(Signed(minus, false, n), tail);
  }

  lemma After(d: Byte, s: Bytes, tail: Bytes)
    ensures ([d] + s + CRLF + tail)[0] == d && ([d] + s + CRLF + tail)[1..] == s + CRLF + tail
  {
    TakeApart(d, s, CRLF, tail);
  }

  /** Every reply that is not a command reads back as what it says, and leaves what follows. */
  lemma SimpleReplies(line: Bytes, minus: bool, n: nat, tail: Bytes)
    requires LF !in line
    ensures ReadResp([PLUS] + line + CRLF + tail) == Ok(Str(line), tail)
    ensures ReadResp([MINUS] + line + CRLF + tail) == Err(ServerError(line))
    ensures ReadResp([COLON] + Signed(minus, false, n) + CRLF + tail) == Ok(Int(Value(minus, n)), tail)
  {
    LineBack(line, tail);
    SignedLine(minus, n, tail);
    After(PLUS, line, tail);
    After(MINUS, line, tail);
    After(COLON, Signed(minus, false, n), tail);
  }

  /** The null bulk string and the null array. */
  lemma NullReplies(one: Bytes, tail: Bytes)
    requires one == [MINUS, 49]
    ensures ReadResp([DOLLAR] + one + CRLF + tail) == Ok(Nil, tail)
    ensures ReadResp([STAR] + one + CRLF + tail) == Ok(Nil, tail)
  {
    assert Digits(1) == [49];
    assert Signed(true, false, 1) == one;
    SignedLine(true, 1, tail);
    After(DOLLAR, one, tail);
    After(STAR, one, tail);
  }

  lemma BadBody(n: nat, body: Bytes)
    requires |body| < n + 2 || body[n..n + 2] != CRLF
    ensures ReadBulk(body, n) == Err(MalformedBulk)
  {
  }

  lemma BulkFails(s: Bytes, n: nat, body: Bytes, e: Error)
    requires s != [] && s[0] == DOLLAR && ReadNumber(s[1..]) == Ok(n, body) && ReadBulk(body, n) == Err(e)
    ensures ReadResp(s) == Err(e)
  {
  }

  /** A bulk string cut short, or one whose terminator is wrong, is malformed. */
  lemma BadBulk(n: nat, body: Bytes, s: Bytes)
    requires |body| < n + 2 || body[n..n + 2] != CRLF
    requires s == [DOLLAR] + Digits(n) + CRLF + body
    ensures ReadResp(s) == Err(MalformedBulk)
  {
    NumberBack(n, body);
    After(DOLLAR, Digits(n), body);
    BadBody(n, body);
    BulkFails(s, n, body, MalformedBulk);
  }

  /** A prefix that is none of the five is refused, and an ended stream is closed. */
  lemma BadPrefix(other: Byte, s: Bytes)
    requires other != PLUS && other != MINUS && other != COLON && other != DOLLAR && other != STAR
    ensures ReadResp([other] + s) == Err(UnknownPrefix)
    ensures ReadResp([]) == Err(ConnectionClosed)
  {
  }

  /** A line that never ends is malformed. */
  lemma BadLine(s: Bytes)
    requires s != [] && LF !in s
    ensures ReadLine(s) == Err(MalformedLine)
  {
    FirstLF(s);
  }

  // ---- a success depends only on what it consumed ----

  /** Reading a line consumes exactly `used`, whatever follows; likewise below. */
  ghost predicate LineUses(used: Bytes, line: Bytes) {
    forall tail: Bytes {:trigger ReadLine(used + tail)} :: ReadLine(used + tail) == Ok(line, tail)
  }

  ghost predicate NumberUses(used: Bytes, n: int) {
    forall tail: Bytes {:trigger ReadNumber(used + tail)} :: ReadNumber(used + tail) == Ok(n, tail)
  }

  ghost predicate BulkUses(used: Bytes, n: int, item: Reply) {
    forall tail: Bytes {:trigger ReadBulk(used + tail, n)} :: ReadBulk(used + tail, n) == Ok(item, tail)
  }

  ghost predicate ReplyUses(used: Bytes, item: Reply) {
    forall tail: Bytes {:trigger ReadResp(used + tail)} :: ReadResp(used + tail) == Ok(item, tail)
  }

  ghost predicate RepliesUse(used: Bytes, n: int, items: seq<Reply>) {
    forall tail: Bytes {:trigger ReadMany(used + tail, n)} :: ReadMany(used + tail, n) == Ok(items, tail)
  }

  lemma LineLocal(s: Bytes, line: Bytes, rest: Bytes) returns (used: Bytes)
    requires ReadLine(s) == Ok(line, rest)
    ensures s == used + rest && LineUses(used, line)
  {
    FirstLF(s);
    var k := FindLF(s);
    used := line + CRLF;
    assert s == used + rest;
    assert LF !in line;
    forall tail: Bytes ensures ReadLine(used + tail) == Ok(line, tail) {
      LineBack(line, tail);
    }
  }

  lemma NumberLocal(s: Bytes, n: int, rest: Bytes) returns (used: Bytes)
    requires ReadNumber(s) == Ok(n, rest)
    ensures s == used + rest && NumberUses(used, n)
  {
    used := LineLocal(s, ReadLine(s).value, rest);
  }

  lemma BulkLocal(s: Bytes, n: int, item: Reply, rest: Bytes) returns (used: Bytes)
    requires ReadBulk(s, n) == Ok(item, rest)
    ensures s == used + rest && BulkUses(used, n, item)
  {
    if n == -1 {
      used := [];
      assert forall tail: Bytes :: used + tail == tail;
    } else {
      used := item.text + CRLF;
      assert s == used + rest;
      forall tail: Bytes ensures ReadBulk(used + tail, n) == Ok(item, tail) {
        BodyBack(item.text, tail);
      }
    }
  }

  /** A prefix byte and what follows it. */
  lemma AfterPrefix(d: Byte, used: Bytes, tail: Bytes)
    ensures var u := [d] + used + tail; u[0] == d && u[1..] == used + tail
  {
  }

  lemma LineReply(s: Bytes, used: Bytes, line: Bytes, rest: Bytes) returns (all: Bytes)
    requires s != [] && s[0] == PLUS && s[1..] == used + rest && LineUses(used, line)
    ensures s == all + rest && ReplyUses(all, Str(line))
  {
    all := [PLUS] + used;
    forall tail: Bytes ensures ReadResp(all + tail) == Ok(Str(line), tail) {
      AfterPrefix(PLUS, used, tail);
    }
  }

  lemma NumberReply(s: Bytes, used: Bytes, n: int, rest: Bytes) returns (all: Bytes)
    requires s != [] && s[0] == COLON && s[1..] == used + rest && NumberUses(used, n)
    ensures s == all + rest && ReplyUses(all, Int(n))
  {
    all := [COLON] + used;
    forall tail: Bytes ensures ReadResp(all + tail) == Ok(Int(n), tail) {
      AfterPrefix(COLON, used, tail);
    }
  }

  lemma NullReply(s: Bytes, used: Bytes, rest: Bytes) returns (all: Bytes)
    requires s != [] && s[0] == STAR && s[1..] == used + rest && NumberUses(used, -1)
    ensures s == all + rest && ReplyUses(all, Nil)
  {
    all := [STAR] + used;
    forall tail: Bytes ensures ReadResp(all + tail) == Ok(Nil, tail) {
      AfterPrefix(STAR, used, tail);
    }
  }

  lemma Framed(s: Bytes, size: Bytes, used: Bytes, rest: Bytes)
    requires s != [] && s[1..] == size + (used + rest)
    ensures s == [s[0]] + (size + used) + rest
  {
    Assoc(size, used, rest);
  }

  lemma BulkReply(s: Bytes, size: Bytes, n: int, used: Bytes, item: Reply, rest: Bytes) returns (all: Bytes)
    requires s != [] && s[0] == DOLLAR && s[1..] == size + (used + rest)
    requires NumberUses(size, n) && BulkUses(used, n, item)
    ensures s == all + rest && ReplyUses(all, item)
  {
    all := [DOLLAR] + (size + used);
    Framed(s, size, used, rest);
    forall tail: Bytes ensures ReadResp(all + tail) == Ok(item, tail) {
      AfterPrefix(DOLLAR, size + used, tail);
      Assoc(size, used, tail);
    }
  }

  lemma ArrayReply(s: Bytes, size: Bytes, n: int, used: Bytes, items: seq<Reply>, rest: Bytes) returns (all: Bytes)
    requires s != [] && s[0] == STAR && s[1..] == size + (used + rest)
    requires n != -1 && NumberUses(size, n) && RepliesUse(used, n, items)
    ensures s == all + rest && ReplyUses(all, Arr(items))
  {
    all := [STAR] + (size + used);
    Framed(s, size, used, rest);
    forall tail: Bytes ensures ReadResp(all + tail) == Ok(Arr(items), tail) {
      AfterPrefix(STAR, size + used, tail);
      Assoc(size, used, tail);
    }
  }

  lemma OneMore(first: Bytes, item: Reply, others: Bytes, n: int, items: seq<Reply>, tail: Bytes)
    requires n > 0 && ReplyUses(first, item) && RepliesUse(others, n - 1, items)
    ensures ReadMany(first + (others + tail), n) == Ok([item] + items, tail)
  {
    ManyBack(first + (others + tail), n - 1, item, others + tail, items, tail);
  }

  lemma MoreReplies(s: Bytes, n: int, item: Reply, items: seq<Reply>, first: Bytes, others: Bytes, rest: Bytes)
    returns (used: Bytes)
    requires n > 0 && s == first + (others + rest)
    requires ReplyUses(first, item) && RepliesUse(others, n - 1, items)
    ensures s == used + rest && RepliesUse(used, n, [item] + items)
  {
    used := first + others;
    Assoc(first, others, rest);
    forall tail: Bytes ensures ReadMany(used + tail, n) == Ok([item] + items, tail) {
      Assoc(first, others, tail);
      OneMore(first, item, others, n, items, tail);
    }
  }

  /** A successful read never depends on bytes past those it consumed. */
  lemma {:induction false} RespLocal(s: Bytes, item: Reply, rest: Bytes) returns (used: Bytes)
    requires ReadResp(s) == Ok(item, rest)
    ensures s == used + rest && ReplyUses(used, item)
    decreases |s|, 0
  {
    var body := s[1..];
    if s[0] == PLUS {
      used := LineLocal(body, item.text, rest);
      used := LineReply(s, used, item.text, rest);
      return;
    }
    var n, mid := ReadNumber(body).value, ReadNumber(body).rest;
    var size := NumberLocal(body, n, mid);
    if s[0] == COLON {
      used := NumberReply(s, size, n, rest);
    } else if s[0] == DOLLAR {
      used := BulkLocal(mid, n, item, rest);
      used := BulkReply(s, size, n, used, item, rest);
    } else if n == -1 {
      used := NullReply(s, size, rest);
    } else {
      used := ManyLocal(mid, n, item.items, rest);
      used := ArrayReply(s, size, n, used, item.items, rest);
    }
  }

  lemma NoReplies(s: Bytes, n: int)
    requires n <= 0
    ensures ReadMany(s, n) == Ok([], s) && s == [] + s && RepliesUse([], n, [])
  {
    forall tail: Bytes ensures ReadMany([] + tail, n) == Ok([], tail) {
      assert [] + tail == tail;
    }
  }

  lemma FirstReply(s: Bytes, n: int, items: seq<Reply>, rest: Bytes)
    returns (item: Reply, mid: Bytes, items': seq<Reply>)
    requires n > 0 && ReadMany(s, n) == Ok(items, rest)
    ensures ReadResp(s) == Ok(item, mid) && |mid| < |s|
    ensures ReadMany(mid, n - 1) == Ok(items', rest) && items == [item] + items'
  {
    item, mid := ReadResp(s).value, ReadResp(s).rest;
    items' := ReadMany(mid, n - 1).value;
  }

  /** The same for a list of replies. */
  lemma {:induction false} ManyLocal(s: Bytes, n: int, items: seq<Reply>, rest: Bytes) returns (used: Bytes)
    requires ReadMany(s, n) == Ok(items, rest)
    ensures s == used + rest && RepliesUse(used, n, items)
    decreases |s|, 1
  {
    if n <= 0 {
      NoReplies(s, n);
      return [];
    }
    var item, mid, items' := FirstReply(s, n, items, rest);
    var first := RespLocal(s, item, mid);
    var others := ManyLocal(mid, n - 1, items', rest);
    used := MoreReplies(s, n, item, items', first, others, rest);
  }
}
