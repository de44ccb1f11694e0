// The two bounded buffers of the connection keeper: inbound keeps the newest bytes,
// outbound keeps the oldest whole lines.
module KeeperBuffers {
  import opened Basics

  const MAX_BUFFER: nat := 4194304
  const MAX_OUT_BUFFER: nat := 16384
  const READ_BUFFER: nat := 32768

  // --- inbound: the newest n bytes ------------------------------------------

  function LastN(s: seq<Byte>, n: nat): seq<Byte> {
    if |s| <= n then s else s[|s| - n..]
  }

  // Keeping the newest bytes chunk by chunk is keeping the newest bytes of the whole.
  lemma LastNAppend(s: seq<Byte>, b: seq<Byte>, n: nat)
    requires |b| <= n
    ensures LastN(LastN(s, n) + b, n) == LastN(s + b, n)
  {}

  // --- outbound: the oldest whole lines --------------------------------------

  function LastIndex(s: seq<Byte>, x: Byte): (i: int)
    ensures -1 <= i < |s|
    ensures i >= 0 ==> s[i] == x
    ensures forall j :: i < j < |s| ==> s[j] != x
  {
    if s == [] then -1 else if s[|s| - 1] == x then |s| - 1 else LastIndex(s[..|s| - 1], x)
  }

  method LastIndexByte(s: seq<Byte>, x: Byte) returns (i: int)
    ensures i == LastIndex(s, x)
  {
    i := |s| - 1;
    while i >= 0 && s[i] != x
      invariant -1 <= i < |s|
      invariant forall j :: i < j < |s| ==> s[j] != x
    {
      i := i - 1;
    }
  }

  // What is held of an outbound stream: all of it while it fits, else its lines.
  function Held(q: seq<Byte>): seq<Byte> {
    if Fits(q) then q else q[..LastIndex(q[..MAX_OUT_BUFFER], NEWLINE) + 1]
  }

  predicate Fits(q: seq<Byte>) {
    |q| <= MAX_OUT_BUFFER
  }

  // A stream of up to 16 KiB is held whole. Of a longer one, what is held is the longest
  // prefix of whole lines within that.
  lemma HeldIsLongest(q: seq<Byte>, p: seq<Byte>)
    ensures |q| <= 16384 ==> HeldOut(q) == Out(q, false)
    ensures |q| > 16384 ==> HeldOut(q).dropped
                            && Held(q) <= q && |Held(q)| <= 16384 && (Held(q) == [] || Held(q)[|Held(q)| - 1] == 10)
                            && (p <= q && |p| <= 16384 && (p == [] || p[|p| - 1] == 10) ==> p <= Held(q))
  {
    if |q| > 16384 && p <= q && |p| <= MAX_OUT_BUFFER && p != [] && p[|p| - 1] == 10 {
      assert q[..MAX_OUT_BUFFER][|p| - 1] == p[|p| - 1];
    }
  }

  lemma HeldStays(q: seq<Byte>, b: seq<Byte>)
    requires !Fits(q)
    ensures !Fits(q + b) && Held(q + b) == Held(q)
  {
    assert (q + b)[..MAX_OUT_BUFFER] == q[..MAX_OUT_BUFFER];
  }

  // --- one chunk at a time ----------------------------------------------------

  // A chunk longer than the cap is kept whole; a read never returns one.
  function BufferIn(buffer: seq<Byte>, b: seq<Byte>): seq<Byte> {
    LastN(buffer + b, if |b| <= MAX_BUFFER then MAX_BUFFER else |b|)
  }

  datatype Out = Out(bytes: seq<Byte>, dropped: bool)

  function BufferOut(o: Out, b: seq<Byte>): Out {
    if o.dropped then o
    else if Fits(o.bytes + b) then Out(o.bytes + b, false)
    else
      var room := MAX_OUT_BUFFER - |o.bytes|;
      var full := if room > 0 then o.bytes + b[..room] else o.bytes;
      Out(full[..LastIndex(full, NEWLINE) + 1], true)
  }

  function HeldOut(q: seq<Byte>): Out {
    Out(Held(q), !Fits(q))
  }

  lemma BufferOutHolds(q: seq<Byte>, b: seq<Byte>)
    ensures BufferOut(HeldOut(q), b) == HeldOut(q + b)
  {
    if !Fits(q) {
      HeldStays(q, b);
    } else if !Fits(q + b) {
      assert (q + b)[..MAX_OUT_BUFFER] == q + b[..MAX_OUT_BUFFER - |q|];
    }
  }

  function AllIn(chunks: seq<seq<Byte>>): seq<Byte> {
    if chunks == [] then [] else BufferIn(AllIn(chunks[..|chunks| - 1]), chunks[|chunks| - 1])
  }

  function AllOut(chunks: seq<seq<Byte>>): Out {
    if chunks == [] then Out([], false) else BufferOut(AllOut(chunks[..|chunks| - 1]), chunks[|chunks| - 1])
  }

  lemma InboundMore(q: seq<Byte>, b: seq<Byte>)
    requires |b| <= MAX_BUFFER
    ensures BufferIn(LastN(q, MAX_BUFFER), b) == LastN(q + b, MAX_BUFFER)
  {
    LastNAppend(q, b, MAX_BUFFER);
  }

  // However the stream is cut into reads, the inbound buffer is its newest 4 MiB.
  lemma {:induction false} InboundAnyChunking(chunks: seq<seq<Byte>>)
    requires forall k :: 0 <= k < |chunks| ==> |chunks[k]| <= MAX_BUFFER
    ensures var q, n := Flat(chunks), 4194304;
            AllIn(chunks) == if |q| <= n then q else q[|q| - n..]
  {
    if chunks != [] {
      var init, b := chunks[..|chunks| - 1], chunks[|chunks| - 1];
      InboundAnyChunking(init);
      InboundMore(Flat(init), b);
    }
  }

  // However the stream is cut into writes, the outbound buffer is its oldest whole lines.
  lemma {:induction false} OutboundAnyChunking(chunks: seq<seq<Byte>>)
    ensures AllOut(chunks) == HeldOut(Flat(chunks))
  {
    if chunks != [] {
      var init, b := chunks[..|chunks| - 1], chunks[|chunks| - 1];
      OutboundAnyChunking(init);
      BufferOutHolds(Flat(init), b);
    }
  }
}
