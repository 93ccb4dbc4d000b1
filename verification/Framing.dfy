/** Length-prefixed frames over a byte stream that arrives in arbitrary pieces (src/kvstore/common/protocol.py). */
module Framing {
  import opened Basics

  newtype byte = x: int | 0 <= x < 256

  const HEADER_SIZE: nat := 4
  const MAX_FRAME_BYTES: nat := 1048576

  datatype Failure = Eof | BadSize

  /** The header: an unsigned 32-bit length, most significant byte first. */
  function Header(n: nat): seq<byte>
    requires n < 0x1_0000_0000
  {
    [(n / 0x100_0000) as byte, (n / 0x1_0000 % 256) as byte, (n / 256 % 256) as byte, (n % 256) as byte]
  }

  function Length(h: seq<byte>): nat
    requires |h| == HEADER_SIZE
  {
    h[0] as nat * 0x100_0000 + h[1] as nat * 0x1_0000 + h[2] as nat * 256 + h[3] as nat
  }

  lemma SplitLow(n: nat)
    ensures n == n / 256 * 256 + n % 256
  {
  }

  lemma Shifts(n: nat)
    ensures n / 0x1_0000 == n / 256 / 256 && n / 0x100_0000 == n / 256 / 256 / 256
  {
  }

  lemma HeaderRoundTrip(n: nat)
    requires n < 0x1_0000_0000
    ensures |Header(n)| == HEADER_SIZE && Length(Header(n)) == n
    ensures var h := Header(n);
            |h| == 4 && n == ((h[0] as nat * 256 + h[1] as nat) * 256 + h[2] as nat) * 256 + h[3] as nat
  {
    Shifts(n);
    var a := n / 256;
    var b := a / 256;
    SplitLow(n);
    SplitLow(a);
    SplitLow(b);
  }

  predicate Sendable(payload: seq<byte>) {
    1 <= |payload| <= MAX_FRAME_BYTES
  }

  function Encode(payload: seq<byte>): Result<seq<byte>, Failure> {
    if Sendable(payload) then Ok(Header(|payload|) + payload) else Err(BadSize)
  }

  /** One payload off the front of a stream, and what is left of the stream. */
  function ParseOne(stream: seq<byte>): Result<(seq<byte>, seq<byte>), Failure> {
    if |stream| < HEADER_SIZE then Err(Eof) else
      var n := Length(stream[..HEADER_SIZE]);
      if n == 0 || n > MAX_FRAME_BYTES then Err(BadSize)
      else if |stream| < HEADER_SIZE + n then Err(Eof)
      else Ok((stream[HEADER_SIZE..HEADER_SIZE + n], stream[HEADER_SIZE + n..]))
  }

  /** All payloads of a stream up to the first failure, and that failure. */
  function ParseAll(stream: seq<byte>): (seq<seq<byte>>, Failure)
    decreases |stream|
  {
    match ParseOne(stream)
    case Err(f) => ([], f)
    case Ok((payload, rest)) => var (more, f) := ParseAll(rest); ([payload] + more, f)
  }

  function Frames(payloads: seq<seq<byte>>): seq<byte>
    requires forall p <- payloads :: Sendable(p)
  {
    if |payloads| == 0 then [] else
      assert payloads[0] in payloads && Sendable(payloads[0]) && forall p <- payloads[1..] :: p in payloads;
      Encode(payloads[0]).value + Frames(payloads[1..])
  }

  lemma ParseFrame(payload: seq<byte>, rest: seq<byte>)
    requires Sendable(payload)
    ensures ParseOne(Header(|payload|) + payload + rest) == Ok((payload, rest))
  {
    HeaderRoundTrip(|payload|);
    var s := Header(|payload|) + payload + rest;
    assert s[..HEADER_SIZE] == Header(|payload|);
    assert s[HEADER_SIZE..HEADER_SIZE + |payload|] == payload;
    assert s[HEADER_SIZE + |payload|..] == rest;
  }

  /** What a sender refuses, and what it puts in front of a payload: four bytes, the most significant first. */
  lemma EncodeLaw(payload: seq<byte>)
    ensures Encode(payload).Ok? <==> 1 <= |payload| <= 1048576
    ensures Encode(payload).Ok? ==>
              var s := Encode(payload).value;
              && |s| == 4 + |payload| && s[4..] == payload
              && |payload| == ((s[0] as nat * 256 + s[1] as nat) * 256 + s[2] as nat) * 256 + s[3] as nat
  {
    if 1 <= |payload| <= 1048576 { HeaderRoundTrip(|payload|); }
    hide Header;
  }

  /** A header that announces nothing, or more than a frame may hold, is an error, whatever follows. */
  lemma BadHeader(stream: seq<byte>)
    requires |stream| >= 4
    ensures var n := ((stream[0] as nat * 256 + stream[1] as nat) * 256 + stream[2] as nat) * 256 + stream[3] as nat;
            ParseOne(stream) == Err(BadSize) <==> n == 0 || n > 1048576
  {
  }

  /** A stream that ends inside its first frame yields no message, only the end of the stream. */
  lemma TruncatedFrame(payload: seq<byte>, cut: nat)
    requires Sendable(payload) && cut < HEADER_SIZE + |payload|
    ensures ParseOne((Header(|payload|) + payload)[..cut]) == Err(Eof)
  {
    hide Header, Length;
    HeaderRoundTrip(|payload|);
    var whole := Header(|payload|) + payload;
    if cut >= HEADER_SIZE {
      assert whole[..cut][..HEADER_SIZE] == Header(|payload|);
    }
  }

  /** How many of the payloads lie completely within the first `cut` bytes. */
  function Complete(payloads: seq<seq<byte>>, cut: nat): (k: nat)
    ensures k <= |payloads|
  {
    if |payloads| == 0 || cut < HEADER_SIZE + |payloads[0]| then 0
    else 1 + Complete(payloads[1..], cut - HEADER_SIZE - |payloads[0]|)
  }

  lemma ParseStep(payload: seq<byte>, rest: seq<byte>)
    requires Sendable(payload)
    ensures ParseAll(Header(|payload|) + payload + rest) == ([payload] + ParseAll(rest).0, ParseAll(rest).1)
  {
    ParseFrame(payload, rest);
  }

  lemma ParseCut(payload: seq<byte>, cut: nat)
    requires Sendable(payload) && cut < HEADER_SIZE + |payload|
    ensures ParseAll((Header(|payload|) + payload)[..cut]) == ([], Eof)
  {
  }

  lemma ParseNothing()
    ensures ParseAll([]) == ([], Eof)
  {
  }

  /**
   * Cut anywhere, a stream of frames gives back exactly the payloads that arrived complete, in order, and then
   * reports the end of the stream.
   */
  lemma {:induction false} ParsePrefix(payloads: seq<seq<byte>>, cut: nat)
    requires (forall p <- payloads :: Sendable(p)) && cut <= |Frames(payloads)|
    ensures ParseAll(Frames(payloads)[..cut]) == (payloads[..Complete(payloads, cut)], Eof)
    decreases |payloads|
  {
    hide ParseOne, Header, Length;
    var s := Frames(payloads);
    ParseNothing();
    if |payloads| == 0 {
    } else {
      var p := payloads[0];
      assert p in payloads && Sendable(p) && forall q <- payloads[1..] :: q in payloads;
      var rest := Frames(payloads[1..]);
      HeaderRoundTrip(|p|);
      var n := HEADER_SIZE + |p|;
      hide ParseAll;
      if cut < n {
        assert s[..cut] == (Header(|p|) + p)[..cut];
        ParseCut(p, cut);
      } else {
        assert s[..cut] == Header(|p|) + p + rest[..cut - n];
        ParseStep(p, rest[..cut - n]);
        ParsePrefix(payloads[1..], cut - n);
        assert payloads[..1 + Complete(payloads[1..], cut - n)] ==
            [p] + payloads[1..][..Complete(payloads[1..], cut - n)];
      }
    }
  }

  lemma {:induction false} CompleteAll(payloads: seq<seq<byte>>)
    requires forall p <- payloads :: Sendable(p)
    ensures Complete(payloads, |Frames(payloads)|) == |payloads|
    decreases |payloads|
  {
    if |payloads| == 0 {
    } else {
      assert payloads[0] in payloads && forall q <- payloads[1..] :: q in payloads;
      CompleteAll(payloads[1..]);
    }
  }

  /** Round trip: everything framed is recovered, in order, with nothing left over. */
  lemma RoundTrip(payloads: seq<seq<byte>>)
    requires forall p <- payloads :: Sendable(p)
    ensures ParseAll(Frames(payloads)) == (payloads, Eof)
  {
    var s := Frames(payloads);
    assert s[..|s|] == s;
    ParsePrefix(payloads, |s|);
    CompleteAll(payloads);
    assert payloads[..|payloads|] == payloads;
  }

  // ---- reading from a socket ------------------------------------------------------------------

  /** The receiving end of a connection: the bytes still to come before the peer closes it. */
  class Socket {
    var incoming: seq<byte>

    constructor (bytes: seq<byte>)
      ensures incoming == bytes
    {
      incoming := bytes;
    }

    /** At least one byte and at most `size`, as the network pleases; nothing only at the end. */
    method Recv(size: nat) returns (chunk: seq<byte>)
      requires size > 0
      modifies this
      ensures |chunk| <= size && chunk + incoming == old(incoming)
      ensures chunk == [] <==> old(incoming) == []
    {
      if |incoming| == 0 {
        return [];
      }
      var k :| 1 <= k <= size && k <= |incoming|;
      chunk := incoming[..k];
      incoming := incoming[k..];
    }
  }

  function Join(chunks: seq<seq<byte>>): seq<byte> {
    if |chunks| == 0 then [] else Join(chunks[..|chunks| - 1]) + chunks[|chunks| - 1]
  }

  /** Collects chunks until `size` bytes are there; the end of the stream before that is an error. */
  method RecvExact(sock: Socket, size: nat) returns (r: Result<seq<byte>, Failure>)
    modifies sock
    ensures r.Ok? <==> size <= |old(sock.incoming)|
    ensures r.Ok? ==> r.value == old(sock.incoming)[..size] && sock.incoming == old(sock.incoming)[size..]
    ensures r.Err? ==> r.error == Eof && sock.incoming == []
  {
    var chunks: seq<seq<byte>> := [];
    var remaining := size;
    while remaining > 0
      invariant Join(chunks) + sock.incoming == old(sock.incoming)
      invariant 0 <= remaining && |Join(chunks)| + remaining == size
    {
      var chunk := sock.Recv(remaining);
      if |chunk| == 0 {
        return Err(Eof);
      }
      ghost var joined := Join(chunks);
      chunks := chunks + [chunk];
      assert chunks[..|chunks| - 1] + [chunk] == chunks && Join(chunks) == joined + chunk;
      assert joined + (chunk + sock.incoming) == (joined + chunk) + sock.incoming;
      remaining := remaining - |chunk|;
    }
    assert old(sock.incoming)[..size] == Join(chunks) && old(sock.incoming)[size..] == sock.incoming;
    r := Ok(Join(chunks));
  }

  /** One message: whatever the chunking, the result is what parsing the whole stream gives. */
  method ReceiveMessage(sock: Socket) returns (r: Result<seq<byte>, Failure>)
    modifies sock
    ensures var p := ParseOne(old(sock.incoming));
            && (r.Ok? <==> p.Ok?)
            && (p.Ok? ==> r.value == p.value.0 && sock.incoming == p.value.1)
            && (p.Err? ==> r.error == p.error)
  {
    var header := RecvExact(sock, HEADER_SIZE);
    if header.Err? {
      return Err(header.error);
    }
    var size := Length(header.value);
    if size == 0 || size > MAX_FRAME_BYTES {
      return Err(BadSize);
    }
    r := RecvExact(sock, size);
  }

  /** Reading messages until the stream ends or breaks. */
  method ReceiveAll(sock: Socket) returns (payloads: seq<seq<byte>>, failure: Failure)
    modifies sock
    ensures (payloads, failure) == ParseAll(old(sock.incoming))
  {
    payloads := [];
    var r := ReceiveMessage(sock);
    ghost var before := old(sock.incoming);
    assert [] + ParseAll(before).0 == ParseAll(before).0;
    while r.Ok?
      invariant r.Ok? <==> ParseOne(before).Ok?
      invariant r.Ok? ==> r.value == ParseOne(before).value.0 && sock.incoming == ParseOne(before).value.1
      invariant r.Err? ==> r.error == ParseOne(before).error
      invariant ParseAll(old(sock.incoming)) == (payloads + ParseAll(before).0, ParseAll(before).1)
      decreases |before|
    {
      assert ParseAll(before) == ([r.value] + ParseAll(sock.incoming).0, ParseAll(sock.incoming).1);
      assert payloads + ([r.value] + ParseAll(sock.incoming).0) == (payloads + [r.value]) + ParseAll(sock.incoming).0;
      payloads := payloads + [r.value];
      before := sock.incoming;
      r := ReceiveMessage(sock);
    }
    failure := r.error;
    assert payloads + [] == payloads;
  }

  /** Sender to receiver: any list of payloads, over any chunking, arrives as it was sent. */
  method Transmit(payloads: seq<seq<byte>>) returns (received: seq<seq<byte>>)
    requires forall p <- payloads :: Sendable(p)
    ensures received == payloads
  {
    RoundTrip(payloads);
    var sock := new Socket(Frames(payloads));
    var failure;
    received, failure := ReceiveAll(sock);
  }
}
