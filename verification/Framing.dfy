/** Newline framing of controller messages over a stream socket. */
module Framing {

  newtype byte = x: int | 0 <= x < 256
  type bytes = seq<byte>

  const MAX_MESSAGE_BYTES := 65536
  const RECV_BYTES := 4096
  const NEWLINE: byte := 10

  /** The bytes that `bytes.strip` drops: tab to carriage return, and space. */
  predicate IsSpace(b: byte)
    ensures IsSpace(b) <==> b in {9, 10, 11, 12, 13, 32}
  {
    9 <= b <= 13 || b == 32
  }

  datatype Line = Message(line: bytes) | Empty | TooLarge

  // ---------- The stream, without chunks ----------

  /** Index of the first newline, or the length when there is none. */
  function LineEnd(s: bytes): (k: nat)
    ensures k <= |s| && NEWLINE !in s[..k] && (k < |s| ==> s[k] == NEWLINE)
  {
    if s == [] || s[0] == NEWLINE then 0
    else
      var k := 1 + LineEnd(s[1..]);
      assert s[..k] == [s[0]] + s[1..][..k - 1];
      k
  }

  function StripLeft(s: bytes): (t: bytes)
    ensures |t| <= |s|
  {
    if s != [] && IsSpace(s[0]) then StripLeft(s[1..]) else s
  }

  function StripRight(s: bytes): bytes {
    if s != [] && IsSpace(s[|s| - 1]) then StripRight(s[..|s| - 1]) else s
  }

  function Strip(s: bytes): bytes {
    StripRight(StripLeft(s))
  }

  /** What the text before the first newline stands for. */
  function FirstLine(s: bytes): Line {
    var line := Strip(s[..LineEnd(s)]);
    if line == [] then Empty else Message(line)
  }

  /** Stripping takes off exactly the spaces at both ends. */
  lemma StripSpec(s: bytes) returns (i: nat, j: nat)
    ensures i <= j <= |s| && Strip(s) == s[i..j]
    ensures forall k | 0 <= k < |s| && !(i <= k < j) :: IsSpace(s[k])
    ensures i < j ==> !IsSpace(s[i]) && !IsSpace(s[j - 1])
  {
    i := StripLeftSpec(s);
    var n := StripRightSpec(s[i..]);
    j := i + n;
    assert s[i..][..n] == s[i..j];
    if n > 0 { assert s[i..][n - 1] == s[j - 1]; }
    forall k | 0 <= k < |s| && !(i <= k < j) ensures IsSpace(s[k]) {
      if k >= j { assert s[k] == s[i..][k - i]; }
    }
  }

  lemma {:induction false} StripLeftSpec(s: bytes) returns (i: nat)
    ensures i <= |s| && StripLeft(s) == s[i..]
    ensures forall k | 0 <= k < i :: IsSpace(s[k])
    ensures i < |s| ==> !IsSpace(s[i])
    decreases |s|
  {
    i := 0;
    if s != [] && IsSpace(s[0]) {
      var n := StripLeftSpec(s[1..]);
      i := n + 1;
      assert s[1..][n..] == s[i..];
      forall k | 0 <= k < i ensures IsSpace(s[k]) { if k > 0 { assert s[k] == s[1..][k - 1]; } }
    }
  }

  lemma {:induction false} StripRightSpec(s: bytes) returns (n: nat)
    ensures n <= |s| && StripRight(s) == s[..n]
    ensures forall k | n <= k < |s| :: IsSpace(s[k])
    ensures 0 < n ==> !IsSpace(s[n - 1])
    decreases |s|
  {
    n := |s|;
    if s != [] && IsSpace(s[|s| - 1]) {
      n := StripRightSpec(s[..|s| - 1]);
      assert s[..|s| - 1][..n] == s[..n];
      forall k | n <= k < |s| ensures IsSpace(s[k]) {
        if k < |s| - 1 { assert s[k] == s[..|s| - 1][k]; }
      }
    } else {
      assert s == s[..n];
    }
  }

  /** A line is empty exactly when nothing but white space comes before the first newline; otherwise it
      is the part of the stream between the white space at both ends. */
  lemma FirstLineSpec(s: bytes) returns (i: nat, j: nat)
    ensures FirstLine(s) == Empty <==> forall k | 0 <= k < LineEnd(s) :: IsSpace(s[k])
    ensures i <= j <= LineEnd(s) && forall k | 0 <= k < LineEnd(s) && !(i <= k < j) :: IsSpace(s[k])
    ensures FirstLine(s) != Empty ==>
            i < j && FirstLine(s) == Message(s[i..j]) && !IsSpace(s[i]) && !IsSpace(s[j - 1])
  {
    var line := s[..LineEnd(s)];
    i, j := StripSpec(line);
    assert line[i..j] == s[i..j];
    assert forall k | 0 <= k < LineEnd(s) :: line[k] == s[k];
    if i < j { assert !IsSpace(s[i]); }
  }

  // ---------- The stream in chunks ----------

  /** What the peer's bytes look like to `recv(4096)`: non-empty pieces of at most that size. */
  ghost predicate IsDelivery(chunks: seq<bytes>) {
    forall i | 0 <= i < |chunks| :: 0 < |chunks[i]| <= RECV_BYTES
  }

  function Stream(chunks: seq<bytes>): bytes {
    if chunks == [] then [] else chunks[0] + Stream(chunks[1..])
  }

  ghost predicate IsSplit(chunks: seq<bytes>, s: bytes) {
    IsDelivery(chunks) && Stream(chunks) == s
  }

  /** The buffer when the reading loop ends: with a newline, at end of stream, or too large. */
  function Buffered(data: bytes, chunks: seq<bytes>): bytes
    decreases |chunks|
  {
    if NEWLINE in data || chunks == [] then data
    else if |data + chunks[0]| > MAX_MESSAGE_BYTES then data + chunks[0]
    else Buffered(data + chunks[0], chunks[1..])
  }

  function ReadLine(chunks: seq<bytes>): Line {
    var data := Buffered([], chunks);
    if |data| > MAX_MESSAGE_BYTES then TooLarge else FirstLine(data)
  }

  /** The buffer never holds more than the limit and one chunk. */
  lemma {:induction false} BufferIsBounded(data: bytes, chunks: seq<bytes>)
    requires IsDelivery(chunks) && |data| <= MAX_MESSAGE_BYTES
    ensures |Buffered(data, chunks)| <= 65536 + 4096
    decreases |chunks|
  {
    if !(NEWLINE in data || chunks == []) && |data + chunks[0]| <= MAX_MESSAGE_BYTES {
      assert forall i | 0 <= i < |chunks[1..]| :: chunks[1..][i] == chunks[i + 1];
      BufferIsBounded(data + chunks[0], chunks[1..]);
    }
  }

  /** Reading stops inside the chunk that brings the newline, at the end, or past the limit. */
  lemma {:induction false} BufferedIsPrefix(data: bytes, chunks: seq<bytes>)
    requires IsDelivery(chunks) && NEWLINE !in data && |data| <= MAX_MESSAGE_BYTES
    ensures var s := data + Stream(chunks); var b := Buffered(data, chunks);
            && b <= s
            && (|b| <= MAX_MESSAGE_BYTES ==> b == s || LineEnd(s) < |b|)
            && (LineEnd(s) < |s| ==> |b| <= LineEnd(s) + RECV_BYTES)
    decreases |chunks|
  {
    var s := data + Stream(chunks);
    if chunks != [] {
      var next := data + chunks[0];
      assert s == next + Stream(chunks[1..]);
      assert LineEnd(s) >= |data| by { LineEndAtLeast(data, Stream(chunks)); }
      if |next| <= MAX_MESSAGE_BYTES {
        assert forall i | 0 <= i < |chunks[1..]| :: chunks[1..][i] == chunks[i + 1];
        if NEWLINE in next {
          LineEndWithin(next, Stream(chunks[1..]));
        } else {
          BufferedIsPrefix(next, chunks[1..]);
        }
      }
    }
  }

  lemma {:induction false} LineEndAtLeast(a: bytes, b: bytes)
    requires NEWLINE !in a
    ensures LineEnd(a + b) >= |a|
    decreases |a|
  {
    if a != [] {
      assert (a + b)[1..] == a[1..] + b;
      LineEndAtLeast(a[1..], b);
    }
  }

  /** The first line is decided once its newline has arrived. */
  lemma {:induction false} LineEndWithin(a: bytes, b: bytes)
    requires NEWLINE in a
    ensures LineEnd(a + b) == LineEnd(a) < |a|
    decreases |a|
  {
    if a[0] != NEWLINE {
      assert a == [a[0]] + a[1..];
      assert (a + b)[1..] == a[1..] + b;
      LineEndWithin(a[1..], b);
    }
  }

  lemma FirstLineOfPrefix(b: bytes, s: bytes)
    requires b <= s && (b == s || LineEnd(s) < |b|)
    ensures FirstLine(b) == FirstLine(s)
  {
    if b != s {
      assert b[LineEnd(s)] == NEWLINE;
      assert s == b + s[|b|..];
      LineEndWithin(b, s[|b|..]);
      assert b[..LineEnd(b)] == s[..LineEnd(s)];
    }
  }

  /** The most that can be read of a stream, over all ways of delivering it. */
  function MostRead(s: bytes): nat {
    var k := LineEnd(s);
    if k < |s| && k + RECV_BYTES < |s| then k + RECV_BYTES else |s|
  }

  /** The least that can be read of it: the line and its newline. */
  function LeastRead(s: bytes): nat {
    var k := LineEnd(s);
    if k < |s| then k + 1 else |s|
  }

  /** Whatever the split, a result other than "too large" is the first line of the stream;
      the limit is never met below one bound, and always above the other. */
  lemma ReadLineOfSplit(chunks: seq<bytes>, s: bytes)
    requires IsSplit(chunks, s)
    ensures ReadLine(chunks) == TooLarge || ReadLine(chunks) == FirstLine(s)
    ensures MostRead(s) <= MAX_MESSAGE_BYTES ==> ReadLine(chunks) == FirstLine(s)
    ensures LeastRead(s) > MAX_MESSAGE_BYTES ==> ReadLine(chunks) == TooLarge
  {
    assert [] + Stream(chunks) == s;
    BufferedIsPrefix([], chunks);
    var b := Buffered([], chunks);
    if |b| <= MAX_MESSAGE_BYTES { FirstLineOfPrefix(b, s); }
  }

  // ---------- Exactly when the split does not matter ----------

  function Singles(s: bytes): seq<bytes> {
    if s == [] then [] else [[s[0]]] + Singles(s[1..])
  }

  lemma {:induction false} SinglesSplit(s: bytes)
    ensures IsSplit(Singles(s), s)
  {
    if s != [] {
      SinglesSplit(s[1..]);
      assert Singles(s)[1..] == Singles(s[1..]);
    }
  }

  lemma {:induction false} BufferedOfJoin(data: bytes, a: seq<bytes>, b: seq<bytes>)
    requires |Buffered(data, a)| <= MAX_MESSAGE_BYTES
    ensures Buffered(data, a + b) == Buffered(Buffered(data, a), b)
    decreases |a|
  {
    if a == [] {
      assert a + b == b;
    } else if NEWLINE !in data {
      assert (a + b)[1..] == a[1..] + b;
      assert (a + b)[0] == a[0];
      if |data + a[0]| <= MAX_MESSAGE_BYTES { BufferedOfJoin(data + a[0], a[1..], b); }
    }
  }

  lemma BufferedStep(data: bytes, chunk: bytes, rest: seq<bytes>)
    requires NEWLINE !in data && |data| + |chunk| <= MAX_MESSAGE_BYTES
    ensures Buffered(data, [chunk] + rest) == Buffered(data + chunk, rest)
  {
    var chunks := [chunk] + rest;
    assert chunks[0] == chunk && chunks[1..] == rest;
  }

  lemma {:induction false} SinglesReadAll(data: bytes, s: bytes)
    requires NEWLINE !in data && NEWLINE !in s && |data| + |s| <= MAX_MESSAGE_BYTES
    ensures Buffered(data, Singles(s)) == data + s
    decreases |s|
  {
    if s == [] {
      assert data + s == data;
    } else {
      var head, rest := [s[0]], s[1..];
      BufferedStep(data, head, Singles(rest));
      SinglesReadAll(data + head, rest);
      assert (data + head) + rest == data + s;
    }
  }

  lemma {:induction false} StreamOfJoin(a: seq<bytes>, b: seq<bytes>)
    ensures Stream(a + b) == Stream(a) + Stream(b)
  {
    if a == [] {
      assert a + b == b;
    } else {
      assert (a + b)[1..] == a[1..] + b;
      StreamOfJoin(a[1..], b);
    }
  }

  function Delivery(head: bytes, mid: bytes, rest: bytes): seq<bytes> {
    Singles(head) + ([mid] + Singles(rest))
  }

  lemma DeliveryIsSplit(head: bytes, mid: bytes, rest: bytes)
    requires 0 < |mid| <= RECV_BYTES
    ensures IsSplit(Delivery(head, mid, rest), head + (mid + rest))
  {
    var tail := [mid] + Singles(rest);
    assert tail[1..] == Singles(rest);
    SinglesSplit(head);
    SinglesSplit(rest);
    StreamOfJoin(Singles(head), tail);
  }

  lemma DeliveryBuffered(head: bytes, mid: bytes, rest: bytes)
    requires NEWLINE !in head && |head| <= MAX_MESSAGE_BYTES
    requires mid != [] && mid[0] == NEWLINE
    ensures Buffered([], Delivery(head, mid, rest)) == head + mid
  {
    var tail := [mid] + Singles(rest);
    SinglesReadAll([], head);
    assert [] + head == head;
    BufferedOfJoin([], Singles(head), tail);
    assert tail[0] == mid;
    assert NEWLINE in head + mid by { assert (head + mid)[|head|] == NEWLINE; }
  }

  /** A delivery whose newline comes in a chunk of the given size. */
  lemma DeliveryReading(s: bytes, n: nat) returns (chunks: seq<bytes>)
    requires LineEnd(s) < |s| && LineEnd(s) <= MAX_MESSAGE_BYTES
    requires 0 < n <= RECV_BYTES && LineEnd(s) + n <= |s|
    ensures IsSplit(chunks, s)
    ensures (ReadLine(chunks) == TooLarge) == (LineEnd(s) + n > MAX_MESSAGE_BYTES)
  {
    var k := LineEnd(s);
    var head, mid, rest := s[..k], s[k..k + n], s[k + n..];
    chunks := Delivery(head, mid, rest);
    DeliveryIsSplit(head, mid, rest);
    assert head + (mid + rest) == s;
    assert mid[0] == NEWLINE;
    DeliveryBuffered(head, mid, rest);
  }

  /** Reading gives the same result for every way of delivering a stream exactly when
      no delivery can pass the limit or every one must. */
  lemma SplitIndependence(s: bytes)
    ensures (forall a, b | IsSplit(a, s) && IsSplit(b, s) :: ReadLine(a) == ReadLine(b)) <==>
            (MostRead(s) <= MAX_MESSAGE_BYTES || LeastRead(s) > MAX_MESSAGE_BYTES)
  {
    if MostRead(s) <= MAX_MESSAGE_BYTES || LeastRead(s) > MAX_MESSAGE_BYTES {
      forall a, b | IsSplit(a, s) && IsSplit(b, s) ensures ReadLine(a) == ReadLine(b) {
        ReadLineOfSplit(a, s);
        ReadLineOfSplit(b, s);
      }
    } else {
      var a := DeliveryReading(s, 1);
      var b := DeliveryReading(s, MostRead(s) - LineEnd(s));
      assert IsSplit(a, s) && IsSplit(b, s) && ReadLine(a) != ReadLine(b);
    }
  }

  // ---------- Round trip ----------

  /** A JSON object on one line: braces at both ends and no raw newline, which
      section 7 of RFC 8259 does not allow inside strings. */
  predicate IsJsonLine(body: bytes) {
    |body| >= 2 && body[0] == 123 && body[|body| - 1] == 125 && NEWLINE !in body
  }

  /** The serialized model and its newline. */
  function SerializeSocketMessage(body: bytes): bytes {
    body + [NEWLINE]
  }

  /** A serialized message reads back as itself over every delivery, exactly when it fits. */
  lemma RoundTrip(body: bytes)
    requires IsJsonLine(body)
    ensures (forall chunks | IsSplit(chunks, SerializeSocketMessage(body)) :: ReadLine(chunks) == Message(body))
            <==> |body| < 65536
  {
    var s := SerializeSocketMessage(body);
    JsonFirstLine(body, []);
    assert body + ([NEWLINE] + []) == s;
    forall chunks | IsSplit(chunks, s)
      ensures ReadLine(chunks) == (if |body| < MAX_MESSAGE_BYTES then Message(body) else TooLarge)
    {
      ReadLineOfSplit(chunks, s);
    }
    SinglesSplit(s);
  }

  /** Bytes after the newline change nothing while the message and one chunk fit. */
  lemma TrailingBytesAreIgnored(body: bytes, extra: bytes, chunks: seq<bytes>)
    requires IsJsonLine(body) && |body| + RECV_BYTES <= MAX_MESSAGE_BYTES
    requires IsSplit(chunks, SerializeSocketMessage(body) + extra)
    ensures ReadLine(chunks) == Message(body)
  {
    var s := SerializeSocketMessage(body) + extra;
    assert s == body + ([NEWLINE] + extra);
    JsonFirstLine(body, extra);
    ReadLineOfSplit(chunks, s);
  }

  lemma JsonFirstLine(body: bytes, extra: bytes)
    requires IsJsonLine(body)
    ensures var s := body + ([NEWLINE] + extra); LineEnd(s) == |body| && FirstLine(s) == Message(body)
  {
    var s := body + ([NEWLINE] + extra);
    LineEndAtLeast(body, [NEWLINE] + extra);
    assert LineEnd(s) == |body| by {
      assert s[|body|] == NEWLINE;
      assert s[..|body| + 1][|body|] in s[..|body| + 1];
      assert s == s[..|body| + 1] + extra;
      LineEndWithin(s[..|body| + 1], extra);
    }
    assert s[..|body|] == body;
    assert StripLeft(body) == body == StripRight(body);
  }

  // ---------- The two reading loops ----------

  /** A connected socket: the chunks that `recv` will return, then end of stream. */
  class Connection {
    var incoming: seq<bytes>

    ghost predicate Valid() reads this { IsDelivery(incoming) }

    constructor (incoming: seq<bytes>)
      requires IsDelivery(incoming)
      ensures this.incoming == incoming && Valid()
    {
      this.incoming := incoming;
    }

    method Recv() returns (chunk: bytes)
      requires Valid()
      modifies this
      ensures Valid()
      ensures old(incoming) == [] ==> chunk == [] && incoming == []
      ensures old(incoming) != [] ==> chunk == old(incoming)[0] && incoming == old(incoming)[1..]
      ensures old(incoming) != [] ==> 0 < |chunk| <= RECV_BYTES
    {
      chunk := [];
      if incoming != [] {
        chunk := incoming[0];
        assert forall i | 0 <= i < |incoming[1..]| :: incoming[1..][i] == incoming[i + 1];
        incoming := incoming[1..];
      }
    }
  }

  method Receive(connection: Connection) returns (data: bytes, tooLarge: bool)
    requires connection.Valid()
    modifies connection
    ensures data == Buffered([], old(connection.incoming))
    ensures tooLarge == (|data| > MAX_MESSAGE_BYTES)
    ensures |data| <= MAX_MESSAGE_BYTES + RECV_BYTES
  {
    data, tooLarge := [], false;
    while NEWLINE !in data
      invariant connection.Valid() && |data| <= MAX_MESSAGE_BYTES
      invariant Buffered(data, connection.incoming) == Buffered([], old(connection.incoming))
      decreases |connection.incoming|
    {
      var chunk := connection.Recv();
      if chunk == [] { return; }
      data := data + chunk;
      if |data| > MAX_MESSAGE_BYTES {
        tooLarge := true;
        return;
      }
    }
  }

  /** `read_request`, and the reading half of `send_controller_socket_request`: the two loops
      are the same, and differ in the exceptions that `Empty` and `TooLarge` stand for. */
  method ReadRequest(connection: Connection) returns (result: Line)
    requires connection.Valid()
    modifies connection
    ensures result == ReadLine(old(connection.incoming))
    ensures MostRead(Stream(old(connection.incoming))) <= MAX_MESSAGE_BYTES ==>
              result == FirstLine(Stream(old(connection.incoming)))
  {
    ReadLineOfSplit(connection.incoming, Stream(connection.incoming));
    var data, tooLarge := Receive(connection);
    if tooLarge { return TooLarge; }
    var line := Strip(data[..LineEnd(data)]);
    result := if line == [] then Empty else Message(line);
  }
}
