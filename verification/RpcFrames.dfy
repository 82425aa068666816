/**
 The framed byte stream between nodes: encoding, decoding, and the two receive loops, which must put
 frames together from whatever pieces the socket delivers.
 */
module RpcFrames {
  import opened Types
  import opened Bytes

  datatype Rpc = Rpc(kind: byte, seqNo: nat, payload: seq<byte>)

  const HEADER := 9

  const APPEND_REQ: byte := 1
  const APPEND_RESP: byte := 2
  const VOTE_REQ: byte := 3
  const VOTE_RESP: byte := 4

  /** The sequence number fits its field, and header and payload together stay below 2^32 bytes. */
  predicate Fits(f: Rpc)
  {
    f.seqNo < TWO_32 && HEADER + |f.payload| < TWO_32
  }

  // Past `Fits` the original's buffer is shorter than what it copies into it.
  function Encode(f: Rpc): (s: seq<byte>)
    requires Fits(f)
    ensures |s| == HEADER + |f.payload|
  {
    [f.kind] + NatBytes(f.seqNo) + NatBytes(|f.payload|) + f.payload
  }

  // `Wrapped`: the sum of header and declared length does not fit 32 bits, and the original would
  // compare and advance by what is left of it.
  datatype Decoded = Partial | Whole(frame: Rpc) | Wrapped

  /** Header and payload length added in 32 bits. */
  function Size32(n: nat): nat
    requires n < TWO_32
  {
    if HEADER + n < TWO_32 then HEADER + n else HEADER + n - TWO_32
  }

  function Decode(s: seq<byte>): (r: Decoded)
    ensures r.Whole? ==> |s| >= HEADER + |r.frame.payload|
  {
    if |s| < HEADER then Partial else DecodeBody(s, NatOf(s[5..9]))
  }

  function DecodeBody(s: seq<byte>, n: nat): (r: Decoded)
    requires |s| >= HEADER && n < TWO_32
    ensures r.Whole? ==> |s| >= HEADER + |r.frame.payload|
  {
    if |s| < Size32(n) then Partial
    else if HEADER + n >= TWO_32 then Wrapped
    else Whole(Rpc(s[0], NatOf(s[1..5]), s[9..9 + n]))
  }

  // ----- one frame -----

  /** What a reader needs to find in the bytes of a frame. */
  ghost predicate Encodes(b: seq<byte>, f: Rpc)
  {
    && |b| == HEADER + |f.payload| && |b| < TWO_32
    && b[0] == f.kind && NatOf(b[1..5]) == f.seqNo && NatOf(b[5..9]) == |f.payload| && b[9..] == f.payload
  }

  lemma Assembled(number: seq<byte>, len: seq<byte>, f: Rpc)
    requires |number| == |len| == 4 && NatOf(number) == f.seqNo && NatOf(len) == |f.payload| && Fits(f)
    ensures Encodes([f.kind] + number + len + f.payload, f)
  {
  }

  lemma EncodeEncodes(f: Rpc)
    requires Fits(f)
    ensures Encodes(Encode(f), f)
  {
    SmallRoundTrip(f.seqNo);
    SmallRoundTrip(|f.payload|);
    Assembled(NatBytes(f.seqNo), NatBytes(|f.payload|), f);
  }

  /** One frame in full: type 3, number 0x04030201 and one byte of payload. */
  lemma FrameInFull(b: byte)
    ensures Encode(Rpc(3, 0x0403_0201, [b])) == [3] + [1, 2, 3, 4] + [1, 0, 0, 0] + [b]
  {
    LowByteFirst(1, 2, 3, 4);
    LowByteFirst(1, 0, 0, 0);
    EncodeFrom(Rpc(3, 0x0403_0201, [b]), [1, 2, 3, 4], [1, 0, 0, 0]);
  }

  lemma EncodeFrom(f: Rpc, number: seq<byte>, len: seq<byte>)
    requires Fits(f) && |number| == |len| == 4 && NatOf(number) == f.seqNo && NatOf(len) == |f.payload|
    ensures Encode(f) == [f.kind] + number + len + f.payload
  {
    NatBack(number);
    NatBack(len);
  }

  lemma Prefixed(b: seq<byte>, rest: seq<byte>)
    requires |b| >= HEADER
    ensures var s := b + rest;
            s[0] == b[0] && s[1..5] == b[1..5] && s[5..9] == b[5..9] && s[9..|b|] == b[9..] && s[|b|..] == rest
  {
  }

  lemma DecodeWhole(b: seq<byte>, f: Rpc, rest: seq<byte>)
    requires Encodes(b, f)
    ensures Decode(b + rest) == Whole(f) && (b + rest)[HEADER + |f.payload|..] == rest
  {
    Prefixed(b, rest);
  }

  lemma DecodePart(b: seq<byte>, f: Rpc, c: nat)
    requires Encodes(b, f) && c < |b|
    ensures Decode(b[..c]) == Partial
  {
  }

  lemma BodyStable(s: seq<byte>, more: seq<byte>, n: nat)
    requires |s| >= HEADER && n < TWO_32 && DecodeBody(s, n) != Partial
    ensures DecodeBody(s + more, n) == DecodeBody(s, n)
  {
  }

  /** More bytes never change what has been decoded. */
  lemma DecodeStable(s: seq<byte>, more: seq<byte>)
    requires Decode(s) != Partial
    ensures Decode(s + more) == Decode(s)
  {
    Prefixed(s, more);
    BodyStable(s, more, NatOf(s[5..9]));
  }

  // ----- a buffer -----

  datatype Parsed = Parsed(frames: seq<Rpc>, rest: seq<byte>)

  function DecodeAll(s: seq<byte>): Parsed
    decreases |s|
  {
    match Decode(s)
    case Whole(f) =>
      var p := DecodeAll(s[HEADER + |f.payload|..]);
      Parsed([f] + p.frames, p.rest)
    case _ => Parsed([], s)
  }

  lemma DecodeFirst(b: seq<byte>, f: Rpc, rest: seq<byte>)
    requires Encodes(b, f)
    ensures DecodeAll(b + rest) == Parsed([f] + DecodeAll(rest).frames, DecodeAll(rest).rest)
  {
    DecodeWhole(b, f, rest);
  }

  lemma DropAcross(s: seq<byte>, more: seq<byte>, n: nat)
    requires n <= |s|
    ensures (s + more)[n..] == s[n..] + more
  {
  }

  lemma Regroup(f: Rpc, a: seq<Rpc>, b: seq<Rpc>)
    ensures ([f] + a) + b == [f] + (a + b)
  {
  }

  /** Decoding what has arrived, and later the leftover with what follows, is decoding it all at once. */
  lemma {:induction false} DecodeInPieces(s: seq<byte>, more: seq<byte>)
    ensures var p := DecodeAll(s);
            var q := DecodeAll(p.rest + more);
            DecodeAll(s + more) == Parsed(p.frames + q.frames, q.rest)
    decreases |s|
  {
    if Decode(s).Whole? {
      var f := Decode(s).frame;
      var tail := s[HEADER + |f.payload|..];
      DecodeStable(s, more);
      DropAcross(s, more, HEADER + |f.payload|);
      DecodeInPieces(tail, more);
      Regroup(f, DecodeAll(tail).frames, DecodeAll(DecodeAll(tail).rest + more).frames);
    }
  }

  // ----- a stream of frames cut anywhere -----

  ghost predicate EncodesAll(parts: seq<seq<byte>>, fs: seq<Rpc>)
  {
    |parts| == |fs| && forall k :: 0 <= k < |fs| ==> Encodes(parts[k], fs[k])
  }

  function Encodings(fs: seq<Rpc>): (parts: seq<seq<byte>>)
    requires forall k :: 0 <= k < |fs| ==> Fits(fs[k])
    ensures |parts| == |fs| && forall k :: 0 <= k < |fs| ==> parts[k] == Encode(fs[k])
  {
    seq(|fs|, k requires 0 <= k < |fs| => Encode(fs[k]))
  }

  lemma EncodingsEncode(fs: seq<Rpc>)
    requires forall k :: 0 <= k < |fs| ==> Fits(fs[k])
    ensures EncodesAll(Encodings(fs), fs)
  {
    forall k | 0 <= k < |fs| ensures Encodes(Encodings(fs)[k], fs[k]) { EncodeEncodes(fs[k]); }
  }

  /** `rest` is what is left of the first `c` bytes after `k` whole frames: a strict prefix of the next frame. */
  ghost predicate Leftover(parts: seq<seq<byte>>, c: nat, k: nat, rest: seq<byte>)
  {
    && k <= |parts| && c <= |Flat(parts)| && Flat(parts[..k]) + rest == Flat(parts)[..c]
    && if k < |parts| then rest < parts[k] else rest == []
  }

  lemma LeftoverFirst(parts: seq<seq<byte>>, c: nat)
    requires parts != [] && c <= |Flat(parts)| && c < |parts[0]|
    ensures Leftover(parts, c, 0, parts[0][..c]) && Flat(parts)[..c] == parts[0][..c]
  {
  }

  lemma LeftoverNext(parts: seq<seq<byte>>, c: nat, k: nat, rest: seq<byte>)
    requires parts != [] && |parts[0]| <= c <= |Flat(parts)| && Leftover(parts[1..], c - |parts[0]|, k, rest)
    ensures Leftover(parts, c, k + 1, rest)
    ensures Flat(parts)[..c] == parts[0] + Flat(parts[1..])[..c - |parts[0]|]
  {
    assert parts[..k + 1][1..] == parts[1..][..k];
    assert Flat(parts)[..c] == parts[0] + Flat(parts[1..])[..c - |parts[0]|];
  }

  lemma OneMoreWhole(parts: seq<seq<byte>>, fs: seq<Rpc>, c: nat, k: nat)
    requires parts != [] && |parts| == |fs| && |parts[0]| <= c <= |Flat(parts)|
    requires k == WholeParts(parts[1..], c - |parts[0]|)
    ensures WholeParts(parts, c) == k + 1 && fs[..k + 1] == [fs[0]] + fs[1..][..k]
  {
  }

  lemma CutNext(parts: seq<seq<byte>>, fs: seq<Rpc>, c: nat, tail: seq<byte>, k: nat)
    requires parts != [] && |parts| == |fs| && Encodes(parts[0], fs[0]) && |parts[0]| <= c <= |Flat(parts)|
    requires tail == Flat(parts[1..])[..c - |parts[0]|] && k == WholeParts(parts[1..], c - |parts[0]|)
    requires DecodeAll(tail).frames == fs[1..][..k] && Leftover(parts[1..], c - |parts[0]|, k, DecodeAll(tail).rest)
    ensures WholeParts(parts, c) == k + 1
    ensures DecodeAll(Flat(parts)[..c]) == Parsed(fs[..k + 1], DecodeAll(tail).rest)
    ensures Leftover(parts, c, k + 1, DecodeAll(tail).rest)
  {
    LeftoverNext(parts, c, k, DecodeAll(tail).rest);
    DecodeFirst(parts[0], fs[0], tail);
    OneMoreWhole(parts, fs, c, k);
  }

  lemma {:induction false} CutStream(parts: seq<seq<byte>>, fs: seq<Rpc>, c: nat)
    requires EncodesAll(parts, fs) && c <= |Flat(parts)|
    ensures DecodeAll(Flat(parts)[..c]).frames == fs[..WholeParts(parts, c)]
    ensures Leftover(parts, c, WholeParts(parts, c), DecodeAll(Flat(parts)[..c]).rest)
    decreases |parts|
  {
    if parts != [] {
      if c < |parts[0]| {
        LeftoverFirst(parts, c);
        DecodePart(parts[0], fs[0], c);
      } else {
        var c' := c - |parts[0]|;
        CutStream(parts[1..], fs[1..], c');
        CutNext(parts, fs, c, Flat(parts[1..])[..c'], WholeParts(parts[1..], c'));
      }
    }
  }

  /**
   Any list of frames, received up to any byte: the frames wholly received come out in order, and the
   buffer holds a strict prefix of the next one.
   */
  lemma StreamDecodes(fs: seq<Rpc>, c: nat)
    requires forall k :: 0 <= k < |fs| ==> Fits(fs[k])
    requires c <= |Flat(Encodings(fs))|
    ensures var p, k := DecodeAll(Flat(Encodings(fs))[..c]), WholeParts(Encodings(fs), c);
            && p.frames == fs[..k]
            && Flat(Encodings(fs)[..k]) + p.rest == Flat(Encodings(fs))[..c]
            && if k < |fs| then p.rest < Encode(fs[k]) else p.rest == []
  {
    EncodingsEncode(fs);
    CutStream(Encodings(fs), fs, c);
  }

  /** `bytes` are the first `c` bytes of the frames `fs`. */
  ghost predicate ReceivedOf(fs: seq<Rpc>, c: nat, bytes: seq<byte>)
  {
    && (forall k :: 0 <= k < |fs| ==> Fits(fs[k]))
    && c <= |Flat(Encodings(fs))| && bytes == Flat(Encodings(fs))[..c]
  }

  /** Of those bytes, the frames wholly received have come out, and the buffer holds a strict prefix of the next one. */
  ghost predicate Delivered(fs: seq<Rpc>, c: nat, decoded: seq<Rpc>, buf: seq<byte>)
    requires forall k :: 0 <= k < |fs| ==> Fits(fs[k])
    requires c <= |Flat(Encodings(fs))|
  {
    var k := WholeParts(Encodings(fs), c);
    decoded == fs[..k] && if k < |fs| then buf < Encode(fs[k]) else buf == []
  }

  lemma AllDelivered(bytes: seq<byte>, decoded: seq<Rpc>, buf: seq<byte>)
    requires DecodeAll(bytes) == Parsed(decoded, buf)
    ensures forall fs, c :: ReceivedOf(fs, c, bytes) ==> Delivered(fs, c, decoded, buf)
  {
    forall fs, c | ReceivedOf(fs, c, bytes) ensures Delivered(fs, c, decoded, buf) { StreamDecodes(fs, c); }
  }

  // ----- resolving calls -----

  datatype Calls = Calls(pending: set<nat>, resolved: map<nat, seq<byte>>)

  function ResolveOne(c: Calls, f: Rpc): Calls
  {
    if f.seqNo in c.pending then Calls(c.pending - {f.seqNo}, c.resolved[f.seqNo := f.payload]) else c
  }

  function ResolveAll(c: Calls, fs: seq<Rpc>): Calls
  {
    if fs == [] then c else ResolveOne(ResolveAll(c, fs[..|fs| - 1]), fs[|fs| - 1])
  }

  lemma {:induction false} ResolveInPieces(c: Calls, a: seq<Rpc>, b: seq<Rpc>)
    ensures ResolveAll(c, a + b) == ResolveAll(ResolveAll(c, a), b)
    decreases |b|
  {
    if b == [] {
      assert a + b == a;
    } else {
      assert (a + b)[..|a + b| - 1] == a + b[..|b| - 1];
      ResolveInPieces(c, a, b[..|b| - 1]);
    }
  }

  function FirstReply(fs: seq<Rpc>, n: nat): Option<seq<byte>>
  {
    if fs == [] then None
    else
      var r := FirstReply(fs[..|fs| - 1], n);
      if r.Some? then r else if fs[|fs| - 1].seqNo == n then Some(fs[|fs| - 1].payload) else None
  }

  /** A pending call is resolved once, by the first reply that carries its number; nothing else changes. */
  lemma {:induction false} ResolvedByFirstReply(c: Calls, fs: seq<Rpc>, n: nat)
    ensures var c' := ResolveAll(c, fs);
            if n in c.pending && FirstReply(fs, n).Some?
            then n !in c'.pending && n in c'.resolved && c'.resolved[n] == FirstReply(fs, n).value
            else (n in c'.pending <==> n in c.pending) && (n in c'.resolved <==> n in c.resolved)
                 && (n in c.resolved ==> c'.resolved[n] == c.resolved[n])
  {
    if fs != [] { ResolvedByFirstReply(c, fs[..|fs| - 1], n); }
  }

  /** `k` is the first of the frames that carries number `n`. */
  ghost predicate FirstWith(fs: seq<Rpc>, n: nat, k: nat)
  {
    k < |fs| && fs[k].seqNo == n && forall j :: 0 <= j < k ==> fs[j].seqNo != n
  }

  lemma {:induction false} FirstReplyIs(fs: seq<Rpc>, n: nat)
    ensures FirstReply(fs, n).Some? <==> exists k :: 0 <= k < |fs| && fs[k].seqNo == n
    ensures forall k: nat :: FirstWith(fs, n, k) ==> FirstReply(fs, n) == Some(fs[k].payload)
  {
    if fs != [] {
      var front := fs[..|fs| - 1];
      FirstReplyIs(front, n);
      assert forall k :: 0 <= k < |front| ==> front[k] == fs[k];
      forall k: nat | FirstWith(fs, n, k) ensures FirstReply(fs, n) == Some(fs[k].payload) {
        if k < |front| { assert FirstWith(front, n, k); }
      }
    }
  }

  /** The receiving side of a connection to a peer. */
  class RaftPeer {
    var buf: seq<byte>
    var calls: Calls
    ghost var received: seq<byte>
    ghost var decoded: seq<Rpc>

    ghost predicate Valid()
      reads this
    {
      DecodeAll(received) == Parsed(decoded, buf)
    }

    constructor ()
      ensures Valid() && received == [] && decoded == [] && calls == Calls({}, map[])
    {
      buf, calls := [], Calls({}, map[]);
      received, decoded := [], [];
    }

    /** One turn of the receive loop on the bytes one `recv` returned. */
    method Receive(chunk: seq<byte>)
      requires Valid()
      modifies this
      ensures Valid() && received == old(received) + chunk
      ensures old(decoded) <= decoded
      ensures calls == ResolveAll(old(calls), decoded[|old(decoded)|..])
    {
      DecodeInPieces(received, chunk);
      buf := buf + chunk;
      var consumed, resolved, fs := Drain(buf, calls);
      calls := resolved;
      received, decoded := received + chunk, decoded + fs;
      if consumed > 0 {
        buf := buf[consumed..];
      }
    }

    /** Every frame decoded after `ds` has been resolved against `cs`. */
    ghost predicate Since(cs: Calls, ds: seq<Rpc>)
      reads this
    {
      ds <= decoded && calls == ResolveAll(cs, decoded[|ds|..])
    }

    method ReceiveNext(chunk: seq<byte>, ghost cs: Calls, ghost ds: seq<Rpc>)
      requires Valid() && Since(cs, ds)
      modifies this
      ensures Valid() && Since(cs, ds) && received == old(received) + chunk
    {
      Receive(chunk);
      SinceThen(cs, ds, old(decoded), decoded);
    }

    /** The inner loop: decodes frame after frame and resolves the calls they answer. */
    method Drain(s: seq<byte>, calls0: Calls) returns (consumed: nat, c: Calls, ghost fs: seq<Rpc>)
      ensures consumed <= |s| && DecodeAll(s) == Parsed(fs, s[consumed..])
      ensures c == ResolveAll(calls0, fs)
    {
      consumed, c, fs := 0, calls0, [];
      ghost var all := DecodeAll(s);
      assert s[0..] == s;
      while true
        invariant consumed <= |s|
        invariant LoopAt(all, fs, s[consumed..])
        invariant c == ResolveAll(calls0, fs)
        decreases |s| - consumed
      {
        var d := Decode(s[consumed..]);
        if !d.Whole? {
          break;
        }
        var f := d.frame;
        LoopOn(all, fs, s, consumed, f);
        ResolveSnoc(calls0, fs, f);
        fs := fs + [f];
        consumed := consumed + HEADER + |f.payload|;
        if f.seqNo in c.pending {
          c := Calls(c.pending - {f.seqNo}, c.resolved[f.seqNo := f.payload]);
        }
      }
    }

    /** The whole loop; an empty `recv` means the peer has closed the connection. */
    method RecvLoop(chunks: seq<seq<byte>>)
      requires Valid()
      modifies this
      ensures Valid() && received == old(received) + UntilClosed(chunks)
      ensures old(decoded) <= decoded && calls == ResolveAll(old(calls), decoded[|old(decoded)|..])
      ensures forall fs, c :: ReceivedOf(fs, c, received) ==> Delivered(fs, c, decoded, buf)
    {
      assert chunks[0..] == chunks;
      for i := 0 to |chunks|
        invariant Valid() && received + UntilClosed(chunks[i..]) == old(received) + UntilClosed(chunks)
        invariant Since(old(calls), old(decoded))
      {
        if chunks[i] == [] {
          assert received + UntilClosed(chunks[i..]) == received;
          break;
        }
        OneChunk(received, chunks, i);
        ReceiveNext(chunks[i], old(calls), old(decoded));
      }
      AllDelivered(received, decoded, buf);
    }
  }

  lemma SinceThen(cs: Calls, ds: seq<Rpc>, before: seq<Rpc>, after: seq<Rpc>)
    requires ds <= before <= after
    ensures ResolveAll(ResolveAll(cs, before[|ds|..]), after[|before|..]) == ResolveAll(cs, after[|ds|..])
  {
    ResolveInPieces(cs, before[|ds|..], after[|before|..]);
    assert before[|ds|..] + after[|before|..] == after[|ds|..];
  }

  /** The bytes of all pieces before the first empty one. */
  function UntilClosed(chunks: seq<seq<byte>>): seq<byte>
  {
    if chunks == [] || chunks[0] == [] then [] else chunks[0] + UntilClosed(chunks[1..])
  }

  /** Nothing is taken in after an empty piece, and everything before it is. */
  lemma {:induction false} NothingAfterClose(a: seq<seq<byte>>, b: seq<seq<byte>>)
    requires forall k :: 0 <= k < |a| ==> a[k] != []
    ensures UntilClosed(a) == Flat(a) && UntilClosed(a + [[]] + b) == Flat(a)
    decreases |a|
  {
    if a != [] {
      assert (a + [[]] + b)[1..] == a[1..] + [[]] + b;
      NothingAfterClose(a[1..], b);
    } else {
      assert ([[]] + b)[0] == [] && a + [[]] + b == [[]] + b;
    }
  }

  lemma OneChunk(received: seq<byte>, chunks: seq<seq<byte>>, i: nat)
    requires i < |chunks| && chunks[i] != []
    ensures received + UntilClosed(chunks[i..]) == (received + chunks[i]) + UntilClosed(chunks[i + 1..])
  {
  }

  /** Inside the decode loop: `fs` is done, `left` is to go. */
  ghost predicate LoopAt(all: Parsed, fs: seq<Rpc>, left: seq<byte>)
  {
    all == Parsed(fs + DecodeAll(left).frames, DecodeAll(left).rest)
  }

  lemma LoopOn(all: Parsed, fs: seq<Rpc>, buf: seq<byte>, consumed: nat, f: Rpc)
    requires consumed <= |buf| && LoopAt(all, fs, buf[consumed..]) && Decode(buf[consumed..]) == Whole(f)
    ensures consumed + HEADER + |f.payload| <= |buf|
    ensures LoopAt(all, fs + [f], buf[consumed + HEADER + |f.payload|..])
  {
    var n := HEADER + |f.payload|;
    DropTwice(buf, consumed, n);
    DecodeNext(buf[consumed..], f, buf[consumed + n..]);
    OneDone(fs, f, DecodeAll(buf[consumed + n..]).frames);
  }

  lemma DecodeNext(s: seq<byte>, f: Rpc, rest: seq<byte>)
    requires Decode(s) == Whole(f) && rest == s[HEADER + |f.payload|..]
    ensures DecodeAll(s) == Parsed([f] + DecodeAll(rest).frames, DecodeAll(rest).rest)
  {
  }

  lemma OneDone(fs: seq<Rpc>, f: Rpc, more: seq<Rpc>)
    ensures fs + ([f] + more) == (fs + [f]) + more
  {
  }

  lemma ResolveSnoc(c: Calls, fs: seq<Rpc>, f: Rpc)
    ensures ResolveAll(c, fs + [f]) == ResolveOne(ResolveAll(c, fs), f)
  {
  }

  // ----- serving requests -----

  predicate IsRequest(f: Rpc)
  {
    f.kind == APPEND_REQ || f.kind == VOTE_REQ
  }

  /** The server's loop over a buffer: it also stops, having consumed it, at a frame that is no request. */
  function ServeAll(s: seq<byte>): Parsed
    decreases |s|
  {
    match Decode(s)
    case Whole(f) =>
      var rest := s[HEADER + |f.payload|..];
      if IsRequest(f) then Parsed([f] + ServeAll(rest).frames, ServeAll(rest).rest) else Parsed([], rest)
    case _ => Parsed([], s)
  }

  ghost predicate AllRequests(fs: seq<Rpc>)
  {
    forall k :: 0 <= k < |fs| ==> IsRequest(fs[k])
  }

  lemma {:induction false} ServesRequests(s: seq<byte>)
    requires AllRequests(DecodeAll(s).frames)
    ensures ServeAll(s) == DecodeAll(s)
    decreases |s|
  {
    if Decode(s).Whole? {
      var f := Decode(s).frame;
      var p := DecodeAll(s[HEADER + |f.payload|..]);
      assert DecodeAll(s).frames[0] == f && DecodeAll(s).frames[1..] == p.frames;
      ServesRequests(s[HEADER + |f.payload|..]);
    }
  }

  lemma {:induction false} RestNotLonger(s: seq<byte>)
    ensures |DecodeAll(s).rest| <= |s|
    ensures Decode(s).Whole? ==> |DecodeAll(s).rest| < |s|
    decreases |s|
  {
    if Decode(s).Whole? { RestNotLonger(s[HEADER + |Decode(s).frame.payload|..]); }
  }

  /** The server leaves no whole frame behind exactly if every frame but the last one in the buffer is a request. */
  lemma {:induction false} ServesAllIff(s: seq<byte>)
    ensures ServeAll(s).rest == DecodeAll(s).rest <==> RequestsButLast(DecodeAll(s).frames)
    decreases |s|
  {
    if Decode(s).Whole? {
      var f := Decode(s).frame;
      var rest := s[HEADER + |f.payload|..];
      DecodeNext(s, f, rest);
      ServesAllIff(rest);
      RestNotLonger(rest);
      NothingLeft(rest);
      ButLastNext(f, DecodeAll(rest).frames);
    }
  }

  /** Every frame but the last one is a request. */
  ghost predicate RequestsButLast(fs: seq<Rpc>)
  {
    forall k :: 0 <= k < |fs| - 1 ==> IsRequest(fs[k])
  }

  lemma ButLastNext(f: Rpc, gs: seq<Rpc>)
    ensures RequestsButLast([f] + gs) <==> (gs == [] || IsRequest(f)) && RequestsButLast(gs)
  {
    var fs := [f] + gs;
    assert fs[0] == f && forall k :: 0 <= k < |gs| ==> fs[k + 1] == gs[k];
    if (gs == [] || IsRequest(f)) && RequestsButLast(gs) {
      assert forall k :: 1 <= k < |fs| ==> fs[k] == gs[k - 1];
    }
  }

  lemma NothingLeft(s: seq<byte>)
    ensures DecodeAll(s).frames == [] <==> !Decode(s).Whole?
    ensures DecodeAll(s).frames == [] ==> DecodeAll(s).rest == s
  {
  }

  /** A reply has the request's number, and type 2 for a request of type 1, type 4 for one of type 3. */
  predicate Answers(head: (byte, nat), request: Rpc)
  {
    head.1 == request.seqNo && ((request.kind == 1 && head.0 == 2) || (request.kind == 3 && head.0 == 4))
  }

  /** One reply for each request, in order. */
  ghost predicate AnswersAll(heads: seq<(byte, nat)>, requests: seq<Rpc>)
  {
    |heads| == |requests| && forall k :: 0 <= k < |requests| ==> Answers(heads[k], requests[k])
  }

  /** The server's end of one connection. */
  class RaftRpcServer {
    var buf: seq<byte>
    var served: seq<Rpc>
    // Type and sequence number of every reply sent.
    var replies: seq<(byte, nat)>
    ghost var received: seq<byte>

    /** As long as only requests arrive, they are served in order and the buffer holds what is not yet whole. */
    ghost predicate Valid()
      reads this
    {
      && (AllRequests(DecodeAll(received).frames) ==> DecodeAll(received) == Parsed(served, buf))
      && AnswersAll(replies, served)
    }

    constructor ()
      ensures Valid() && received == [] && served == []
    {
      buf, served, replies, received := [], [], [], [];
    }

    /** One turn of the loop on the bytes one `recv` returned. */
    method Serve(chunk: seq<byte>)
      requires Valid()
      modifies this
      ensures Valid() && received == old(received) + chunk
      ensures served == old(served) + ServeAll(old(buf) + chunk).frames
      ensures buf == ServeAll(old(buf) + chunk).rest
      ensures AnswersAll(replies, served)
    {
      ServedInPieces(received, served, buf, chunk);
      buf := buf + chunk;
      var consumed, fs, heads := Answer(buf);
      served, replies := served + fs, replies + heads;
      received := received + chunk;
      if consumed > 0 {
        buf := buf[consumed..];
      }
    }

    /** The inner loop: serves request after request. */
    method Answer(s: seq<byte>) returns (consumed: nat, fs: seq<Rpc>, heads: seq<(byte, nat)>)
      ensures consumed <= |s| && ServeAll(s) == Parsed(fs, s[consumed..])
      ensures AnswersAll(heads, fs)
    {
      consumed, fs, heads := 0, [], [];
      ghost var all := ServeAll(s);
      assert s[0..] == s;
      while true
        invariant consumed <= |s|
        invariant ServeLoopAt(all, fs, s[consumed..])
        invariant AnswersAll(heads, fs)
        decreases |s| - consumed
      {
        var d := Decode(s[consumed..]);
        if !d.Whole? {
          break;
        }
        var f := d.frame;
        ServeLoopOn(all, fs, s, consumed, f);
        consumed := consumed + HEADER + |f.payload|;
        var ok, head := ReplyTo(f);
        if !ok {
          break;
        }
        fs, heads := fs + [f], heads + [head];
      }
    }

    method ReplyTo(f: Rpc) returns (ok: bool, head: (byte, nat))
      ensures ok == IsRequest(f) && (ok ==> Answers(head, f))
    {
      ok, head := true, (APPEND_RESP, f.seqNo);
      if f.kind == APPEND_REQ {
      } else if f.kind == VOTE_REQ {
        head := (VOTE_RESP, f.seqNo);
      } else {
        ok := false;
      }
    }

    /** The whole loop, until the connection is closed. */
    method HandleConn(chunks: seq<seq<byte>>)
      requires Valid()
      modifies this
      ensures Valid() && received == old(received) + UntilClosed(chunks)
      ensures AnswersAll(replies, served)
    {
      assert chunks[0..] == chunks;
      for i := 0 to |chunks|
        invariant Valid() && received + UntilClosed(chunks[i..]) == old(received) + UntilClosed(chunks)
      {
        if chunks[i] == [] {
          assert received + UntilClosed(chunks[i..]) == received;
          return;
        }
        OneChunk(received, chunks, i);
        Serve(chunks[i]);
      }
    }
  }

  /**
   From call to call: replies with those heads resolve exactly the pending calls whose numbers the requests
   carried, each with the reply to the first request of its number.
   */
  lemma RepliesResolveTheirCalls(c: Calls, requests: seq<Rpc>, heads: seq<(byte, nat)>, replies: seq<Rpc>)
    requires AnswersAll(heads, requests) && |replies| == |heads|
    requires forall k :: 0 <= k < |heads| ==> heads[k] == (replies[k].kind, replies[k].seqNo)
    ensures var c' := ResolveAll(c, replies);
            && (forall n :: n in c'.pending <==> n in c.pending && forall k :: 0 <= k < |requests| ==> requests[k].seqNo != n)
            && forall n, k: nat :: n in c.pending && FirstWith(requests, n, k) ==> n in c'.resolved && c'.resolved[n] == replies[k].payload
  {
    var c' := ResolveAll(c, replies);
    assert forall k :: 0 <= k < |requests| ==> replies[k].seqNo == requests[k].seqNo;
    forall n ensures n in c'.pending <==> n in c.pending && forall k :: 0 <= k < |requests| ==> requests[k].seqNo != n {
      ResolvedByFirstReply(c, replies, n);
      FirstReplyIs(replies, n);
    }
    forall n, k: nat | n in c.pending && FirstWith(requests, n, k) ensures n in c'.resolved && c'.resolved[n] == replies[k].payload {
      ResolvedByFirstReply(c, replies, n);
      FirstReplyIs(replies, n);
      assert FirstWith(replies, n, k);
    }
  }

  ghost predicate ServeLoopAt(all: Parsed, fs: seq<Rpc>, left: seq<byte>)
  {
    all == Parsed(fs + ServeAll(left).frames, ServeAll(left).rest)
  }

  lemma ServeLoopOn(all: Parsed, fs: seq<Rpc>, buf: seq<byte>, consumed: nat, f: Rpc)
    requires consumed <= |buf| && ServeLoopAt(all, fs, buf[consumed..]) && Decode(buf[consumed..]) == Whole(f)
    ensures consumed + HEADER + |f.payload| <= |buf|
    ensures var left := buf[consumed + HEADER + |f.payload|..];
            if IsRequest(f) then ServeLoopAt(all, fs + [f], left) else all == Parsed(fs, left)
  {
    var n := HEADER + |f.payload|;
    DropTwice(buf, consumed, n);
    ServeNext(buf[consumed..], f, buf[consumed + n..]);
    OneDone(fs, f, ServeAll(buf[consumed + n..]).frames);
  }

  lemma ServeNext(s: seq<byte>, f: Rpc, rest: seq<byte>)
    requires Decode(s) == Whole(f) && rest == s[HEADER + |f.payload|..]
    ensures ServeAll(s) == if IsRequest(f) then Parsed([f] + ServeAll(rest).frames, ServeAll(rest).rest) else Parsed([], rest)
  {
  }

  lemma ServedInPieces(received: seq<byte>, served: seq<Rpc>, buf: seq<byte>, chunk: seq<byte>)
    requires AllRequests(DecodeAll(received).frames) ==> DecodeAll(received) == Parsed(served, buf)
    ensures AllRequests(DecodeAll(received + chunk).frames) ==>
              DecodeAll(received + chunk) == Parsed(served + ServeAll(buf + chunk).frames, ServeAll(buf + chunk).rest)
  {
    DecodeInPieces(received, chunk);
    if AllRequests(DecodeAll(received + chunk).frames) {
      var p := DecodeAll(received);
      RequestsInPieces(p.frames, DecodeAll(p.rest + chunk).frames);
      ServesRequests(buf + chunk);
    }
  }

  lemma RequestsInPieces(a: seq<Rpc>, b: seq<Rpc>)
    requires AllRequests(a + b)
    ensures AllRequests(a) && AllRequests(b)
  {
    assert forall k :: 0 <= k < |a| ==> a[k] == (a + b)[k];
    assert forall k :: 0 <= k < |b| ==> b[k] == (a + b)[|a| + k];
  }

  /** Two frames in one piece against the same two in two: behind a frame that is no request, a whole request waits for more input. */
  lemma RequestBehindOtherWaits(g: Rpc, f: Rpc)
    requires Fits(g) && Fits(f) && !IsRequest(g) && IsRequest(f)
    ensures ServeAll(Encode(g) + Encode(f)) == Parsed([], Encode(f))
    ensures ServeAll(Encode(f)) == Parsed([f], [])
  {
    EncodeEncodes(g);
    EncodeEncodes(f);
    ServeOther(Encode(g), g, Encode(f));
    ServeLast(Encode(f), f);
  }

  lemma ServeOther(b: seq<byte>, g: Rpc, rest: seq<byte>)
    requires Encodes(b, g) && !IsRequest(g)
    ensures ServeAll(b + rest) == Parsed([], rest)
  {
    DecodeWhole(b, g, rest);
  }

  lemma ServeLast(b: seq<byte>, f: Rpc)
    requires Encodes(b, f) && IsRequest(f)
    ensures ServeAll(b) == Parsed([f], [])
  {
    assert b + [] == b;
    DecodeWhole(b, f, []);
  }
}
