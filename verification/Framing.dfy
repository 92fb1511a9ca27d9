/**
 Reading one request line from a socket. Bytes arrive in chunks of any size, and the client may stop,
 fail or go idle at any point. The main result: the answer depends on the bytes and not on how they
 were cut.
 */
module Framing {

  type Byte = b: nat | b < 256

  const NEWLINE: Byte := 10
  const MAX_LINE_BYTES := 65536

  datatype Request = Refused | Ping | Line(bytes: seq<Byte>)

  /** Where the first newline is, or the length when there is none. */
  function FirstNewline(s: seq<Byte>): (n: nat)
    ensures n <= |s|
    ensures n < |s| ==> s[n] == NEWLINE
    ensures forall i :: 0 <= i < n ==> s[i] != NEWLINE
  {
    if s == [] || s[0] == NEWLINE then 0 else 1 + FirstNewline(s[1..])
  }

  /** What the bytes of a client are worth: its first line when that fits the cap; without a newline,
      nothing but a bare ping. `isPing` reads bytes as text and trims it. */
  function AnswerTo(bytes: seq<Byte>, isPing: seq<Byte> -> bool): Request {
    var n := FirstNewline(bytes);
    if n > MAX_LINE_BYTES then Refused
    else if n < |bytes| then Line(bytes[..n])
    else if isPing(bytes) then Ping
    else Refused
  }

  /** The bytes received: every chunk up to the empty one a closed stream reads. */
  function Received(chunks: seq<seq<Byte>>): seq<Byte> {
    if chunks == [] || chunks[0] == [] then [] else chunks[0] + Received(chunks[1..])
  }

  lemma NewlineComesFirst(s: seq<Byte>, more: seq<Byte>)
    ensures FirstNewline(s) < |s| ==> FirstNewline(s + more) == FirstNewline(s)
    ensures FirstNewline(s) == |s| ==> FirstNewline(s + more) >= |s|
  {
    var n := FirstNewline(s + more);
    assert forall k :: 0 <= k < |s| ==> (s + more)[k] == s[k];
    assert n < |s| ==> s[n] == NEWLINE;
    assert FirstNewline(s) < |s| ==> (s + more)[FirstNewline(s)] == NEWLINE;
  }

  /** Reads chunks until a newline, the cap, or the end of the stream. */
  method ReadRequest(chunks: seq<seq<Byte>>, isPing: seq<Byte> -> bool) returns (request: Request)
    ensures request == AnswerTo(Received(chunks), isPing)
  {
    var buffer: seq<Byte> := [];
    var i := 0;
    assert chunks[0..] == chunks;
    while i < |chunks|
      invariant 0 <= i <= |chunks|
      invariant buffer + Received(chunks[i..]) == Received(chunks)
      invariant FirstNewline(buffer) == |buffer| <= MAX_LINE_BYTES
    {
      var chunk := chunks[i];
      ghost var rest := Received(chunks[i..]);
      if chunk == [] {
        break;
      }
      assert chunks[i..][1..] == chunks[i + 1..];
      assert buffer + (chunk + Received(chunks[i + 1..])) == buffer + chunk + Received(chunks[i + 1..]);
      buffer := buffer + chunk;
      i := i + 1;
      NewlineComesFirst(buffer, Received(chunks[i..]));
      var newline := FirstNewline(buffer);
      if newline < |buffer| {
        if newline > MAX_LINE_BYTES {
          return Refused;
        }
        assert buffer[..newline] == Received(chunks)[..newline];
        return Line(buffer[..newline]);
      }
      if |buffer| > MAX_LINE_BYTES {
        return Refused;
      }
    }
    assert Received(chunks[i..]) == [];
    assert buffer == Received(chunks);
    return if isPing(buffer) then Ping else Refused;
  }

  /** A line within the cap is read whole, however it is cut and whatever follows it. */
  lemma LineIsReadWhole(line: seq<Byte>, more: seq<Byte>, chunks: seq<seq<Byte>>, isPing: seq<Byte> -> bool)
    requires NEWLINE !in line && Received(chunks) == line + [NEWLINE] + more
    ensures AnswerTo(Received(chunks), isPing) == if |line| <= MAX_LINE_BYTES then Line(line) else Refused
  {
    var bytes := line + [NEWLINE] + more;
    var n := FirstNewline(bytes);
    assert bytes[|line|] == NEWLINE;
    assert forall k :: 0 <= k < |line| ==> bytes[k] == line[k];
    assert bytes[..|line|] == line;
  }

  /** All the chunks end to end. */
  function Joined(chunks: seq<seq<Byte>>): seq<Byte> {
    if chunks == [] then [] else chunks[0] + Joined(chunks[1..])
  }

  predicate NoneEmpty(chunks: seq<seq<Byte>>) {
    forall i :: 0 <= i < |chunks| ==> chunks[i] != []
  }

  lemma {:induction false} NoneEmptyIsReceived(chunks: seq<seq<Byte>>)
    requires NoneEmpty(chunks)
    ensures Received(chunks) == Joined(chunks)
  {
    if chunks != [] {
      NoneEmptyIsReceived(chunks[1..]);
    }
  }

  /** Any two cuts of the same bytes into chunks that are not empty get the same answer. */
  method ReadCutTwoWays(one: seq<seq<Byte>>, other: seq<seq<Byte>>, isPing: seq<Byte> -> bool)
    returns (first: Request, second: Request)
    requires NoneEmpty(one) && NoneEmpty(other) && Joined(one) == Joined(other)
    ensures first == second == AnswerTo(Joined(one), isPing)
  {
    first := ReadRequest(one, isPing);
    second := ReadRequest(other, isPing);
    NoneEmptyIsReceived(one);
    NoneEmptyIsReceived(other);
  }
}
