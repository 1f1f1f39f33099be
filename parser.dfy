/** The scanner of the kangaroo front end (src/compiler/parser.rs).

    A cursor over the bytes of one input line yields one character per call;
    once the bytes are used up it yields the sentinel '$' forever. The scan
    loop wraps every character in an UNDEFINED token and stops after the
    first token whose text is "$", so a literal '$' in the input ends the
    scan exactly as the end of the input does. */
module Parser {

  type byte = bv8

  datatype Option<T> = None | Some(value: T)

  /** The token kinds the parser declares; each carries its text. */
  datatype Token =
    | Plus(text: string)
    | Minus(text: string)
    | Asterisk(text: string)
    | Slash(text: string)
    | Percent(text: string)
    | Eof(text: string)
    | Undefined(text: string)

  /** The byte that stands in for exhausted input. */
  const SentinelByte: byte := 0x24
  const Sentinel: char := '$'

  /** A byte read as a character (Rust's `u8 as char`): the character whose
      code point is the byte's value. */
  function CharOf(b: byte): (c: char)
    ensures c as int == b as int
    ensures c == Sentinel <==> b == SentinelByte
  {
    (b as int) as char
  }

  /** The character the cursor yields when it stands at `pos`. */
  function CharAt(bytes: seq<byte>, pos: nat): char
    requires pos <= |bytes|
  {
    if pos < |bytes| then CharOf(bytes[pos]) else Sentinel
  }

  /** The iterator over the bytes of the input line; `pos` is the index of
      the next byte it hands out. */
  class ByteIter {
    const bytes: seq<byte>
    var pos: nat

    ghost predicate Valid()
      reads this
    {
      pos <= |bytes|
    }

    constructor (bytes: seq<byte>)
      ensures Valid()
      ensures this.bytes == bytes && pos == 0
    {
      this.bytes := bytes;
      pos := 0;
    }

    /** The next byte, or None once all bytes have been handed out. */
    method Next() returns (b: Option<byte>)
      requires Valid()
      modifies this`pos
      ensures Valid()
      ensures old(pos) < |bytes| ==> b == Some(bytes[old(pos)]) && pos == old(pos) + 1
      ensures old(pos) == |bytes| ==> b == None && pos == old(pos)
    {
      if pos < |bytes| {
        b := Some(bytes[pos]);
        pos := pos + 1;
      } else {
        b := None;
      }
    }
  }

  /** `nextchar`: the next byte as a character, or the sentinel at the end.
      The cursor advances by one byte, except at the end, where it stays, so
      every later call yields the sentinel again. */
  method NextChar(it: ByteIter) returns (c: char)
    requires it.Valid()
    modifies it`pos
    ensures it.Valid()
    ensures c == CharAt(it.bytes, old(it.pos))
    ensures it.pos == if old(it.pos) < |it.bytes| then old(it.pos) + 1 else old(it.pos)
  {
    var b := it.Next();
    var v := if b.Some? then b.value else SentinelByte;
    c := CharOf(v);
  }

  /** `nexttoken`: the next character wrapped as an UNDEFINED token. */
  method NextToken(it: ByteIter) returns (t: Token)
    requires it.Valid()
    modifies it`pos
    ensures it.Valid()
    ensures t == Undefined([CharAt(it.bytes, old(it.pos))])
    ensures it.pos == if old(it.pos) < |it.bytes| then old(it.pos) + 1 else old(it.pos)
  {
    var c := NextChar(it);
    t := Undefined([c]);
  }

  /** The tokens the scan loop emits from cursor position `pos` on: one per
      step, at most one per remaining byte plus the sentinel's, the last one
      being the first whose text is "$". */
  function ScanFrom(line: seq<byte>, pos: nat): (r: seq<Token>)
    requires pos <= |line|
    ensures 1 <= |r| <= |line| - pos + 1
    ensures r[|r| - 1] == Undefined("$")
    decreases |line| - pos
  {
    var t := Undefined([CharAt(line, pos)]);
    if t.text == "$" then [t] else [t] + ScanFrom(line, pos + 1)
  }

  /** The tokens `parse` emits for a whole line. */
  function Scan(line: seq<byte>): seq<Token>
  {
    ScanFrom(line, 0)
  }

  /** `parse`: pull tokens until one is UNDEFINED("$"), returning every token
      pulled (the source prints each one). Each turn of the loop either
      consumes a byte or yields the sentinel, which ends the loop. `read` is
      how far the cursor got: through the first '$' byte, or to the end when
      there is none, so no byte after the first '$' is ever read. */
  method Parse(line: seq<byte>) returns (tokens: seq<Token>, ghost read: nat)
    ensures tokens == Scan(line)
    ensures read == if FirstSentinel(line) < |line| then FirstSentinel(line) + 1 else |line|
  {
    var it := new ByteIter(line);
    tokens := [];
    while true
      invariant it.Valid() && it.bytes == line
      invariant it.pos <= FirstSentinel(line)
      invariant tokens + ScanFrom(line, it.pos) == Scan(line)
      decreases |line| - it.pos
    {
      ghost var p := it.pos;
      var token := NextToken(it);
      CursorStep(line, p);
      assert token.text == "$" <==> CharAt(line, p) == Sentinel by {
        assert token.text == [CharAt(line, p)];
      }
      tokens := tokens + [token];
      if token.Undefined? && token.text == "$" {
        read := it.pos;
        break;
      }
    }
  }

  /** One turn of the scan loop from a cursor that has not passed the first
      '$': either the sentinel shows up, at the first '$' or at the end of the
      input, and the scan ends; or a byte other than '$' is consumed and the
      cursor still has not passed the first '$'. */
  lemma CursorStep(line: seq<byte>, p: nat)
    requires p <= FirstSentinel(line)
    ensures CharAt(line, p) == Sentinel ==>
              ScanFrom(line, p) == [Undefined([Sentinel])] &&
              (if FirstSentinel(line) < |line| then p == FirstSentinel(line) else p == |line|)
    ensures CharAt(line, p) != Sentinel ==>
              p + 1 <= FirstSentinel(line) &&
              ScanFrom(line, p) == [Undefined([CharAt(line, p)])] + ScanFrom(line, p + 1)
  {
    var k := FirstSentinel(line);
    if p < k {
      assert line[..k][p] == line[p];
    }
  }

  // ----- A closed form of the emitted tokens -----

  /** Index of the first '$' byte of `line`, or |line| when there is none. */
  function FirstSentinel(line: seq<byte>): (k: nat)
    ensures k <= |line|
    ensures SentinelByte !in line[..k]
    ensures k < |line| ==> line[k] == SentinelByte
  {
    if |line| == 0 || line[0] == SentinelByte then 0
    else
      var k' := FirstSentinel(line[1..]);
      assert line[..k' + 1] == [line[0]] + line[1..][..k'];
      k' + 1
  }

  /** The first '$' is at k when none comes before k and k is a '$' or the
      end of the input. */
  lemma FirstSentinelIs(line: seq<byte>, k: nat)
    requires k <= |line|
    requires SentinelByte !in line[..k]
    requires k < |line| ==> line[k] == SentinelByte
    ensures FirstSentinel(line) == k
  {
  }

  /** One UNDEFINED token per byte, carrying that byte's character. */
  function ByteTokens(bytes: seq<byte>): seq<Token>
  {
    seq(|bytes|, i requires 0 <= i < |bytes| => Undefined([CharOf(bytes[i])]))
  }

  /** The tokens of the bytes before the first '$', then UNDEFINED("$"). */
  function Expected(line: seq<byte>): seq<Token>
  {
    ByteTokens(line[..FirstSentinel(line)]) + [Undefined("$")]
  }

  lemma {:induction false} ScanFromIsExpected(line: seq<byte>, pos: nat)
    requires pos <= |line|
    ensures ScanFrom(line, pos) == Expected(line[pos..])
    decreases |line| - pos
  {
    var rest := line[pos..];
    if pos == |line| {
      assert rest == [];
    } else if line[pos] == SentinelByte {
      assert FirstSentinel(rest) == 0;
    } else {
      ScanFromIsExpected(line, pos + 1);
      assert rest[1..] == line[pos + 1..];
      var k := FirstSentinel(line[pos + 1..]);
      assert FirstSentinel(rest) == k + 1;
      assert rest[..k + 1] == [line[pos]] + line[pos + 1..][..k];
    }
  }

  /** The scan loop emits exactly the closed form. */
  lemma ScanIsExpected(line: seq<byte>)
    ensures Scan(line) == Expected(line)
  {
    ScanFromIsExpected(line, 0);
    assert line[0..] == line;
  }

  /** Every emitted token is a one-character UNDEFINED token, and only the
      last one carries "$". */
  lemma ScanShape(line: seq<byte>)
    ensures forall i :: 0 <= i < |Scan(line)| ==>
              Scan(line)[i].Undefined? && |Scan(line)[i].text| == 1
    ensures forall i :: 0 <= i < |Scan(line)| ==>
              (Scan(line)[i].text == "$" <==> i == |Scan(line)| - 1)
  {
    ScanIsExpected(line);
    var k := FirstSentinel(line);
    var r := Scan(line);
    assert |r| == k + 1 && r[k] == Undefined("$");
    forall i | 0 <= i < |r|
      ensures r[i].Undefined? && |r[i].text| == 1
      ensures r[i].text == "$" <==> i == |r| - 1
    {
      if i < k {
        var c := CharOf(line[..k][i]);
        assert r[i] == Undefined([c]);
        assert [c][0] != "$"[0];
      }
    }
  }

  /** Empty input yields the one token UNDEFINED("$"). */
  lemma ScanOfEmpty()
    ensures Scan([]) == [Undefined("$")]
  {
  }

  /** Without a '$' byte, every byte yields its token in order, followed by
      one final UNDEFINED("$"). */
  lemma ScanWithoutSentinel(line: seq<byte>)
    requires SentinelByte !in line
    ensures Scan(line) == ByteTokens(line) + [Undefined("$")]
    ensures |Scan(line)| == |line| + 1
  {
    ScanIsExpected(line);
    assert line[..|line|] == line;
  }

  /** With the first '$' byte at index k, exactly the tokens of bytes 0..k
      (inclusive) are emitted; the last of them is UNDEFINED("$"). */
  lemma ScanStopsAtSentinel(line: seq<byte>, k: nat)
    requires k < |line| && line[k] == SentinelByte
    requires SentinelByte !in line[..k]
    ensures Scan(line) == ByteTokens(line[..k + 1])
    ensures |Scan(line)| == k + 1
  {
    ScanIsExpected(line);
    assert FirstSentinel(line) == k;
    assert ByteTokens(line[..k + 1]) == ByteTokens(line[..k]) + [Undefined([CharOf(line[k])])];
  }

  /** A literal '$' byte ends the scan exactly as the end of the input does:
      whatever follows the first '$' has no effect on the output. */
  lemma ScanSentinelIsEnd(prefix: seq<byte>, rest: seq<byte>)
    ensures Scan(prefix + [SentinelByte] + rest) == Scan(prefix)
  {
    var line := prefix + [SentinelByte] + rest;
    var k := FirstSentinel(prefix);
    assert line[..|prefix|] == prefix;
    assert line[..k] == prefix[..k];
    FirstSentinelIs(line, k);
    ScanIsExpected(line);
    ScanIsExpected(prefix);
  }
}
