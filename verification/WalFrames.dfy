/**
 Write-ahead log records as bytes in segment files: the frame format, and what the recovery loop
 reads back after the last segment has been cut or a frame damaged.

 The JSON text inside a frame is left to a codec that is only assumed to be lossless.
 */
module WalFrames {
  import opened Types
  import opened Bytes
  import opened Crc32

  datatype Frame = Frame(kind: byte, payload: seq<byte>)

  const HEADER := 9

  function Sum(kind: byte, payload: seq<byte>): bv32
  {
    Checksum([kind] + payload)
  }

  function FrameBytes(f: Frame): (s: seq<byte>)
    ensures |s| == HEADER + |f.payload|
  {
    WordBytes(Sum(f.kind, f.payload)) + NatBytes(|f.payload|) + [f.kind] + f.payload
  }

  /** The length field holds the length. */
  predicate Small(f: Frame)
  {
    |f.payload| < TWO_32
  }

  /** What a reader needs to find in the bytes of a frame. */
  ghost predicate Encodes(b: seq<byte>, f: Frame)
  {
    && |b| == HEADER + |f.payload|
    && WordOf(b[..4]) == Sum(f.kind, f.payload) && NatOf(b[4..8]) == |f.payload|
    && b[8] == f.kind && b[9..] == f.payload
  }

  lemma Assembled(sum: seq<byte>, len: seq<byte>, f: Frame)
    requires |sum| == |len| == 4 && WordOf(sum) == Sum(f.kind, f.payload) && NatOf(len) == |f.payload|
    ensures Encodes(sum + len + [f.kind] + f.payload, f)
  {
    var b := sum + len + [f.kind] + f.payload;
    assert b[..4] == sum && b[4..8] == len && b[9..] == f.payload;
  }

  lemma FrameEncodes(f: Frame)
    requires Small(f)
    ensures Encodes(FrameBytes(f), f)
  {
    WordRoundTrip(Sum(f.kind, f.payload));
    SmallRoundTrip(|f.payload|);
    Assembled(WordBytes(Sum(f.kind, f.payload)), NatBytes(|f.payload|), f);
  }

  /** One frame in full: kind 0x31 with the text of the digits 2 to 9. */
  lemma FrameOfDigits()
    ensures FrameBytes(Frame(0x31, DIGITS[1..])) == [0x26, 0x39, 0xF4, 0xCB] + [8, 0, 0, 0] + [0x31] + DIGITS[1..]
  {
    CheckValue();
    assert [0x31] + DIGITS[1..] == DIGITS;
    CheckBytes();
    LowByteFirst(8, 0, 0, 0);
    FrameFrom(Frame(0x31, DIGITS[1..]), [0x26, 0x39, 0xF4, 0xCB], [8, 0, 0, 0]);
  }

  lemma CheckBytes()
    ensures WordOf([0x26, 0x39, 0xF4, 0xCB]) == 0xCBF4_3926
  {
  }

  lemma FrameFrom(f: Frame, sum: seq<byte>, len: seq<byte>)
    requires |sum| == |len| == 4 && WordOf(sum) == Sum(f.kind, f.payload) && NatOf(len) == |f.payload|
    ensures FrameBytes(f) == sum + len + [f.kind] + f.payload
  {
    WordBack(sum);
    NatBack(len);
  }

  // ----- reading -----

  /** None where the loop leaves the segment: a short header, a short payload or a wrong checksum. */
  function ParseFrame(s: seq<byte>): (r: Option<Frame>)
    ensures r.Some? ==> |s| >= HEADER + |r.value.payload|
  {
    if |s| < HEADER then None
    else
      var n := NatOf(s[4..8]);
      if |s| < HEADER + n then None
      else if Sum(s[8], s[9..9 + n]) != WordOf(s[..4]) then None
      else Some(Frame(s[8], s[9..9 + n]))
  }

  function ParseAll(s: seq<byte>): seq<Frame>
    decreases |s|
  {
    match ParseFrame(s)
    case None => []
    case Some(f) => [f] + ParseAll(s[HEADER + |f.payload|..])
  }

  lemma ParseShort(s: seq<byte>, n: nat)
    requires |s| >= HEADER && n == NatOf(s[4..8]) && |s| < HEADER + n
    ensures ParseFrame(s) == None
  {
  }

  lemma Prefixed(b: seq<byte>, rest: seq<byte>)
    requires |b| >= HEADER
    ensures var s := b + rest;
            s[..4] == b[..4] && s[4..8] == b[4..8] && s[8] == b[8] && s[9..|b|] == b[9..] && s[|b|..] == rest
  {
  }

  lemma ParseWritten(b: seq<byte>, f: Frame, rest: seq<byte>)
    requires Encodes(b, f)
    ensures ParseFrame(b + rest) == Some(f) && (b + rest)[HEADER + |f.payload|..] == rest
  {
    Prefixed(b, rest);
  }

  lemma ParseFirst(b: seq<byte>, f: Frame, rest: seq<byte>)
    requires Encodes(b, f)
    ensures ParseAll(b + rest) == [f] + ParseAll(rest)
  {
    ParseWritten(b, f, rest);
  }

  lemma ParseTornAll(b: seq<byte>, f: Frame, c: nat)
    requires Encodes(b, f) && c < |b|
    ensures ParseAll(b[..c]) == []
  {
  }

  // ----- a cut in a segment -----

  ghost predicate EncodesAll(parts: seq<seq<byte>>, fs: seq<Frame>)
  {
    |parts| == |fs| && forall k :: 0 <= k < |fs| ==> Encodes(parts[k], fs[k])
  }

  lemma CutPastFirst(parts: seq<seq<byte>>, c: nat)
    requires parts != [] && c <= |Flat(parts)|
    ensures c < |parts[0]| ==> Flat(parts)[..c] == parts[0][..c]
    ensures c >= |parts[0]| ==> Flat(parts)[..c] == parts[0] + Flat(parts[1..])[..c - |parts[0]|]
  {
  }

  lemma OneMoreWhole(parts: seq<seq<byte>>, fs: seq<Frame>, c: nat, k: nat)
    requires parts != [] && |parts| == |fs| && |parts[0]| <= c <= |Flat(parts)|
    requires k == WholeParts(parts[1..], c - |parts[0]|)
    ensures fs[..WholeParts(parts, c)] == [fs[0]] + fs[1..][..k]
  {
  }

  /** Cutting a segment anywhere leaves exactly the frames that lie wholly before the cut. */
  lemma {:induction false} CutSegment(parts: seq<seq<byte>>, fs: seq<Frame>, c: nat)
    requires EncodesAll(parts, fs) && c <= |Flat(parts)|
    ensures ParseAll(Flat(parts)[..c]) == fs[..WholeParts(parts, c)]
    decreases |parts|
  {
    if parts != [] {
      CutPastFirst(parts, c);
      if c < |parts[0]| {
        ParseTornAll(parts[0], fs[0], c);
      } else {
        var c' := c - |parts[0]|;
        ParseFirst(parts[0], fs[0], Flat(parts[1..])[..c']);
        CutSegment(parts[1..], fs[1..], c');
        OneMoreWhole(parts, fs, c, WholeParts(parts[1..], c'));
      }
    }
  }

  // ----- reading exactly what was written -----

  /** The bytes of the frames one after another. */
  function Stream(fs: seq<Frame>): seq<byte>
  {
    if fs == [] then [] else FrameBytes(fs[0]) + Stream(fs[1..])
  }

  ghost predicate AllSmall(fs: seq<Frame>)
  {
    forall k :: 0 <= k < |fs| ==> Small(fs[k])
  }

  lemma Reassembled(s: seq<byte>, f: Frame, sum: seq<byte>, len: seq<byte>)
    requires |s| >= HEADER + |f.payload| && sum == s[..4] && len == s[4..8]
    requires s[8] == f.kind && s[9..9 + |f.payload|] == f.payload
    ensures s[..HEADER + |f.payload|] == sum + len + [f.kind] + f.payload
  {
  }

  lemma ParsedFields(s: seq<byte>, f: Frame)
    requires ParseFrame(s) == Some(f)
    ensures |s| >= HEADER + |f.payload| && s[8] == f.kind && s[9..9 + |f.payload|] == f.payload
    ensures NatOf(s[4..8]) == |f.payload| && WordOf(s[..4]) == Sum(f.kind, f.payload)
  {
  }

  /** What is read as a frame is, byte for byte, what writing that frame gives. */
  lemma ParseConsumes(s: seq<byte>, f: Frame)
    requires ParseFrame(s) == Some(f)
    ensures Small(f) && s[..HEADER + |f.payload|] == FrameBytes(f)
  {
    ParsedFields(s, f);
    WordBack(s[..4]);
    NatBack(s[4..8]);
    Reassembled(s, f, s[..4], s[4..8]);
  }

  lemma PrefixSplit(a: seq<byte>, b: seq<byte>, x: seq<byte>)
    ensures a + b <= x <==> a <= x && b <= x[|a|..]
  {
  }

  lemma ReadsFirstIff(f: Frame, x: seq<byte>)
    requires Small(f)
    ensures ParseFrame(x) == Some(f) <==> FrameBytes(f) <= x
  {
    if FrameBytes(f) <= x {
      ReadsFirst(f, FrameBytes(f), x);
    } else if ParseFrame(x) == Some(f) {
      ParseConsumes(x, f);
    }
  }

  lemma ReadsFirst(f: Frame, b: seq<byte>, x: seq<byte>)
    requires Small(f) && b == FrameBytes(f) && b <= x
    ensures ParseFrame(x) == Some(f)
  {
    FrameEncodes(f);
    ParseWritten(b, f, x[|b|..]);
    assert x == b + x[|b|..];
  }

  lemma FirstOfPrefix(fs: seq<Frame>, gs: seq<Frame>)
    requires fs != []
    ensures fs <= gs <==> gs != [] && gs[0] == fs[0] && fs[1..] <= gs[1..]
  {
    if gs != [] && gs[0] == fs[0] && fs[1..] <= gs[1..] {
      assert gs == [gs[0]] + gs[1..] && fs == [fs[0]] + fs[1..];
    }
  }

  /** A segment reads as given frames first if and only if it begins with their bytes. */
  lemma {:induction false} ReadsIff(fs: seq<Frame>, x: seq<byte>)
    requires AllSmall(fs)
    ensures fs <= ParseAll(x) <==> Stream(fs) <= x
    decreases |fs|
  {
    if fs != [] {
      var n := |FrameBytes(fs[0])|;
      ReadsFirstIff(fs[0], x);
      FirstOfPrefix(fs, ParseAll(x));
      PrefixSplit(FrameBytes(fs[0]), Stream(fs[1..]), x);
      if FrameBytes(fs[0]) <= x {
        ReadsIff(fs[1..], x[n..]);
      }
    }
  }

  /**
   Frames appended behind the torn bytes `t` are read back as written if and only if the segment still
   begins with them there, that is, if shifting their bytes by the tear changes nothing.
   */
  lemma ReadBehindTearIff(t: seq<byte>, fs: seq<Frame>)
    requires AllSmall(fs)
    ensures fs <= ParseAll(t + Stream(fs)) <==> Stream(fs) <= t + Stream(fs)
  {
    ReadsIff(fs, t + Stream(fs));
  }

  /** So a tear hides what follows it, wherever in the frame it is, unless the appended bytes start with the torn ones. */
  lemma TearHidesAppended(t: seq<byte>, fs: seq<Frame>)
    requires AllSmall(fs) && |t| <= |Stream(fs)| && !(t <= Stream(fs))
    ensures !(fs <= ParseAll(t + Stream(fs)))
  {
    ReadBehindTearIff(t, fs);
    assert (t + Stream(fs))[..|t|] == t;
  }

  /**
   Nothing at all is read behind a tear until a header is complete and, if the tear is past the header,
   until the bytes missing from the torn frame are made up.
   */
  lemma AppendedAfterTearIsLost(b: seq<byte>, f: Frame, c: nat, more: seq<byte>)
    requires Encodes(b, f) && c <= |b| && if c < HEADER then c + |more| < HEADER else c + |more| < |b|
    ensures ParseAll(b[..c] + more) == []
  {
    if c >= HEADER {
      LengthKept(b, c, more);
      ParseShort(b[..c] + more, |f.payload|);
    }
  }

  lemma LengthKept(b: seq<byte>, c: nat, more: seq<byte>)
    requires HEADER <= c <= |b|
    ensures (b[..c] + more)[4..8] == b[4..8]
  {
  }

  // ----- damage -----

  /** The checksummed bytes of a frame. */
  function Body(f: Frame): seq<byte>
  {
    [f.kind] + f.payload
  }

  /** `g` differs from `f` inside four consecutive bytes of kind and payload. */
  ghost predicate Burst(f: Frame, g: Frame, lo: nat)
  {
    && f != g && |f.payload| == |g.payload|
    && forall i :: 0 <= i < |Body(f)| && !(lo <= i < lo + 4) ==> Body(f)[i] == Body(g)[i]
  }

  lemma BodiesDiffer(f: Frame, g: Frame)
    requires f != g
    ensures Body(f) != Body(g)
  {
    assert f.kind == Body(f)[0] && f.payload == Body(f)[1..];
    assert g.kind == Body(g)[0] && g.payload == Body(g)[1..];
  }

  /** The bytes `b` of a frame with kind and payload overwritten by those of `g`. */
  function Overwritten(b: seq<byte>, g: Frame): seq<byte>
    requires |b| >= 8
  {
    b[..8] + Body(g)
  }

  lemma OverwrittenFields(b: seq<byte>, g: Frame, rest: seq<byte>)
    requires |b| >= 8
    ensures var s := Overwritten(b, g) + rest;
            && |s| == HEADER + |g.payload| + |rest|
            && s[..4] == b[..4] && s[4..8] == b[4..8] && s[8] == g.kind && s[9..9 + |g.payload|] == g.payload
  {
  }

  lemma DamageIsSeen(b: seq<byte>, f: Frame, g: Frame, lo: nat, rest: seq<byte>)
    requires Encodes(b, f) && Burst(f, g, lo)
    ensures ParseFrame(Overwritten(b, g) + rest) == None
  {
    BodiesDiffer(f, g);
    BurstChangesChecksum(Body(f), Body(g), lo);
    OverwrittenFields(b, g, rest);
  }

  lemma FlatTail(parts: seq<seq<byte>>, tail: seq<byte>)
    requires parts != []
    ensures Flat(parts) + tail == parts[0] + (Flat(parts[1..]) + tail)
  {
  }

  lemma FirstAndRest(fs: seq<Frame>, more: seq<Frame>)
    requires fs != []
    ensures [fs[0]] + (fs[1..] + more) == fs + more
  {
  }

  lemma {:induction false} ParsePrefix(parts: seq<seq<byte>>, fs: seq<Frame>, tail: seq<byte>)
    requires EncodesAll(parts, fs)
    ensures ParseAll(Flat(parts) + tail) == fs + ParseAll(tail)
    decreases |fs|
  {
    if parts == [] {
      assert Flat(parts) + tail == tail;
    } else {
      FlatTail(parts, tail);
      ParseFirst(parts[0], fs[0], Flat(parts[1..]) + tail);
      ParsePrefix(parts[1..], fs[1..], tail);
      FirstAndRest(fs, ParseAll(tail));
    }
  }

  /** A segment with one such frame gives back exactly the frames before it. */
  lemma DamagedSegment(parts: seq<seq<byte>>, fs: seq<Frame>, b: seq<byte>, f: Frame, g: Frame, lo: nat, rest: seq<byte>)
    requires EncodesAll(parts, fs) && Encodes(b, f) && Burst(f, g, lo)
    ensures ParseAll(Flat(parts) + (Overwritten(b, g) + rest)) == fs
  {
    ParsePrefix(parts, fs, Overwritten(b, g) + rest);
    DamageIsSeen(b, f, g, lo, rest);
  }
}
