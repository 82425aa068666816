/**
 The checksum of log records: CRC-32 with the reflected polynomial 0xEDB88320, as in section 8 of RFC 1952.

 `Register` and `Checksum` define it one message bit at a time; the table-driven loop is proved equal to them.
 */
module Crc32 {
  import opened Bytes

  const POLY: bv32 := 0xEDB8_8320
  const BYTE_BITS: nat := 8
  const ONES: bv32 := 0xFFFF_FFFF

  // ----- the definition, one bit at a time -----

  /** The feedback of the shift register. */
  function Tap(on: bool, x: bv32): bv32
  {
    if on then POLY ^ x else x
  }

  /** One message bit into the shift register. */
  function Shift(c: bv32, bit: bool): bv32
  {
    Tap((c & 1 == 1) != bit, c >> 1)
  }

  function Register(c: bv32, bits: seq<bool>): bv32
    decreases |bits|
  {
    if bits == [] then c else Register(Shift(c, bits[0]), bits[1..])
  }

  /** The low `n` bits of `y`, lowest first. */
  function BitsOf(y: bv32, n: nat): seq<bool>
    decreases n
  {
    if n == 0 then [] else [y & 1 == 1] + BitsOf(y >> 1, n - 1)
  }

  function MessageBits(bytes: seq<byte>): seq<bool>
  {
    if bytes == [] then [] else MessageBits(bytes[..|bytes| - 1]) + BitsOf(bytes[|bytes| - 1] as bv32, BYTE_BITS)
  }

  function Checksum(bytes: seq<byte>): bv32
  {
    Register(ONES, MessageBits(bytes)) ^ ONES
  }

  // ----- one byte at a time -----

  /** A shift of the register alone. */
  function BitStep(x: bv32): bv32
  {
    Tap(x & 1 == 1, x >> 1)
  }

  function Iterate(f: bv32 -> bv32, x: bv32, n: nat): bv32
    decreases n
  {
    if n == 0 then x else Iterate(f, f(x), n - 1)
  }

  function ByteStep(x: bv32): bv32
  {
    Iterate(BitStep, x, BYTE_BITS)
  }

  function Feed(c: bv32, b: byte): bv32
  {
    ByteStep(c ^ (b as bv32))
  }

  function FeedAll(c: bv32, bytes: seq<byte>): bv32
  {
    if bytes == [] then c else Feed(FeedAll(c, bytes[..|bytes| - 1]), bytes[|bytes| - 1])
  }

  // ----- xor -----

  /** Kept as a relation so that sums of sums do not pile up in proofs. */
  ghost predicate IsXor(x: bv32, y: bv32, z: bv32)
  {
    z == x ^ y
  }

  ghost predicate Linear(f: bv32 -> bv32)
  {
    forall x, y, z :: IsXor(x, y, z) ==> IsXor(f(x), f(y), f(z))
  }

  lemma {:induction false} IterateLinear(f: bv32 -> bv32, x: bv32, y: bv32, z: bv32, n: nat)
    requires Linear(f) && IsXor(x, y, z)
    ensures IsXor(Iterate(f, x, n), Iterate(f, y, n), Iterate(f, z, n))
    decreases n
  {
    if n > 0 {
      IterateLinear(f, f(x), f(y), f(z), n - 1);
    }
  }

  lemma {:induction false} IterateSnoc(f: bv32 -> bv32, x: bv32, n: nat)
    ensures Iterate(f, x, n + 1) == f(Iterate(f, x, n))
    decreases n
  {
    if n > 0 {
      IterateSnoc(f, f(x), n - 1);
    }
  }

  lemma HighBits(x: bv32, y: bv32, z: bv32)
    requires IsXor(x, y, z)
    ensures IsXor(x >> 1, y >> 1, z >> 1)
  {
  }

  lemma LowBits(x: bv32, y: bv32, z: bv32)
    requires IsXor(x, y, z)
    ensures (z & 1 == 1) == ((x & 1 == 1) != (y & 1 == 1))
  {
  }

  lemma TapLeft(on: bool, x: bv32, y: bv32, z: bv32)
    requires IsXor(x, y, z)
    ensures IsXor(Tap(on, x), y, Tap(on, z))
  {
  }

  lemma TapRight(x: bv32, y: bv32, z: bv32)
    requires IsXor(x, y, z)
    ensures IsXor(x, POLY ^ y, POLY ^ z)
  {
  }

  lemma TapBoth(x: bv32, y: bv32, z: bv32)
    requires IsXor(x, y, z)
    ensures IsXor(POLY ^ x, POLY ^ y, z)
  {
  }

  lemma Taps(p: bool, q: bool, x: bv32, y: bv32, z: bv32)
    requires IsXor(x, y, z)
    ensures IsXor(Tap(p, x), Tap(q, y), Tap(p != q, z))
  {
    if p && q {
      TapBoth(x, y, z);
    } else if q {
      TapRight(x, y, z);
    } else {
      TapLeft(p, x, y, z);
    }
  }

  lemma BitLinear(x: bv32, y: bv32, z: bv32)
    requires IsXor(x, y, z)
    ensures IsXor(BitStep(x), BitStep(y), BitStep(z))
  {
    HighBits(x, y, z);
    LowBits(x, y, z);
    Taps(x & 1 == 1, y & 1 == 1, x >> 1, y >> 1, z >> 1);
  }

  lemma BitStepLinear()
    ensures Linear(BitStep)
  {
    forall x, y, z | IsXor(x, y, z) ensures IsXor(BitStep(x), BitStep(y), BitStep(z)) { BitLinear(x, y, z); }
  }

  lemma ByteLinear(x: bv32, y: bv32, z: bv32)
    requires IsXor(x, y, z)
    ensures IsXor(ByteStep(x), ByteStep(y), ByteStep(z))
  {
    BitStepLinear();
    IterateLinear(BitStep, x, y, z, BYTE_BITS);
  }

  /** A value with eight zero bits below it is only moved down. */
  lemma ByteShift(y: bv32)
    requires y < 0x100_0000
    ensures ByteStep(y << 8) == y
  {
  }

  // ----- the byte-wise form agrees with the definition -----

  function Half(y: bv32): bv32
  {
    y >> 1
  }

  /** A register whose low bits were already mixed with the message moves on as if the message were idle. */
  lemma ShiftIsStep(x: bv32, y: bv32, c: bv32)
    requires IsXor(x, y, c)
    ensures IsXor(BitStep(x), Half(y), Shift(c, y & 1 == 1))
  {
    HighBits(x, y, c);
    LowBits(x, y, c);
    TapLeft(x & 1 == 1, x >> 1, y >> 1, c >> 1);
  }

  lemma {:induction false} RegisterBits(x: bv32, y: bv32, c: bv32, n: nat)
    requires IsXor(x, y, c)
    ensures IsXor(Iterate(BitStep, x, n), Iterate(Half, y, n), Register(c, BitsOf(y, n)))
    decreases n
  {
    if n > 0 {
      ShiftIsStep(x, y, c);
      RegisterBits(BitStep(x), Half(y), Shift(c, y & 1 == 1), n - 1);
    }
  }

  lemma ByteRunsOut(b: byte)
    ensures Iterate(Half, b as bv32, BYTE_BITS) == 0
  {
  }

  lemma XorBack(c: bv32, y: bv32)
    ensures IsXor(c ^ y, y, c)
  {
  }

  lemma XorNothing(x: bv32, z: bv32)
    requires IsXor(x, 0, z)
    ensures x == z
  {
  }

  lemma RegisterByte(c: bv32, b: byte)
    ensures Register(c, BitsOf(b as bv32, BYTE_BITS)) == Feed(c, b)
  {
    XorBack(c, b as bv32);
    RegisterBits(c ^ (b as bv32), b as bv32, c, BYTE_BITS);
    ByteRunsOut(b);
    XorNothing(Feed(c, b), Register(c, BitsOf(b as bv32, BYTE_BITS)));
  }

  lemma {:induction false} RegisterAppend(c: bv32, a: seq<bool>, b: seq<bool>)
    ensures Register(c, a + b) == Register(Register(c, a), b)
    decreases |a|
  {
    if a == [] {
      assert a + b == b;
    } else {
      assert (a + b)[1..] == a[1..] + b;
      RegisterAppend(Shift(c, a[0]), a[1..], b);
    }
  }

  lemma {:induction false} RegisterIsFeed(c: bv32, bytes: seq<byte>)
    ensures Register(c, MessageBits(bytes)) == FeedAll(c, bytes)
  {
    if bytes != [] {
      var front, last := bytes[..|bytes| - 1], bytes[|bytes| - 1];
      RegisterIsFeed(c, front);
      RegisterAppend(c, MessageBits(front), BitsOf(last as bv32, BYTE_BITS));
      RegisterByte(FeedAll(c, front), last);
    }
  }

  // ----- the table -----

  lemma LowAndHigh(x: bv32)
    ensures IsXor(x & 0xFF, (x >> 8) << 8, x) && x >> 8 < 0x100_0000
  {
  }

  lemma MixedStep(x: bv32, low: bv32, high: bv32)
    requires IsXor(low, high << 8, x) && high < 0x100_0000
    ensures IsXor(ByteStep(low), high, ByteStep(x))
  {
    ByteLinear(low, high << 8, x);
    ByteShift(high);
  }

  /** Why one table look-up replaces eight steps. */
  lemma TableStep(x: bv32)
    ensures IsXor(ByteStep(x & 0xFF), x >> 8, ByteStep(x))
  {
    LowAndHigh(x);
    MixedStep(x, x & 0xFF, x >> 8);
  }

  lemma IndexBound(y: bv32)
    requires y < 256
    ensures y as nat < 256
  {
  }

  lemma IndexBack(x: bv32)
    ensures (x as nat) as bv32 == x
  {
  }

  lemma IndexUnique(x: bv32, y: bv32)
    requires x as nat == y as nat
    ensures x == y
  {
    IndexBack(x);
    IndexBack(y);
  }

  lemma IndexDistinct(x: bv32, y: bv32)
    requires x != y
    ensures x as nat != y as nat
  {
    if x as nat == y as nat { IndexUnique(x, y); }
  }

  lemma UpToNext(y: bv32, i: bv32)
    requires y < i + 1 && i < 256
    ensures y < i || y == i
  {
  }

  lemma LowByte(x: bv32)
    ensures x & 0xFF < 256
  {
  }

  /** The first `n` entries are filled in. */
  ghost predicate Filled(table: seq<bv32>, n: bv32)
  {
    forall y: bv32 :: y < n ==> Holds(table, y)
  }

  ghost predicate Holds(table: seq<bv32>, y: bv32)
  {
    y as nat < |table| && table[y as nat] == ByteStep(y)
  }

  lemma HoldsElsewhere(table: seq<bv32>, i: bv32, v: bv32, y: bv32)
    requires Holds(table, y) && i as nat < |table| && y != i
    ensures Holds(table[i as nat := v], y)
  {
    IndexDistinct(y, i);
  }

  lemma FilledMore(table: seq<bv32>, i: bv32)
    requires Filled(table, i) && i < 256 && i as nat < |table|
    ensures Filled(table[i as nat := ByteStep(i)], i + 1)
  {
    var table' := table[i as nat := ByteStep(i)];
    forall y: bv32 | y < i + 1 ensures Holds(table', y) {
      UpToNext(y, i);
      if y != i { HoldsElsewhere(table, i, ByteStep(i), y); }
    }
  }

  /** The process-wide table and its flag. */
  class Crc32Table {
    const table: array<bv32>
    var ready: bool

    ghost predicate Valid()
      reads this, table
    {
      table.Length == 256 && (ready ==> Filled(table[..], 256))
    }

    constructor ()
      ensures Valid() && !ready && fresh(table)
    {
      table := new bv32[256];
      ready := false;
    }

    method BuildTable()
      requires Valid()
      modifies this`ready, table
      ensures Valid() && ready
    {
      var i: bv32 := 0;
      while i < 256
        invariant i <= 256 && table.Length == 256 && Filled(table[..], i)
        decreases 256 - i
      {
        IndexBound(i);
        var crc := EightTimes(i);
        FilledMore(table[..], i);
        table[i as nat] := crc;
        i := i + 1;
      }
      ready := true;
    }

    method EightTimes(x: bv32) returns (crc: bv32)
      ensures crc == ByteStep(x)
    {
      crc := x;
      for j := 0 to 8
        invariant crc == Iterate(BitStep, x, j)
      {
        IterateSnoc(BitStep, x, j);
        crc := if crc & 1 == 1 then 0xEDB8_8320 ^ (crc >> 1) else crc >> 1;
      }
    }

    method LookUp(x: bv32) returns (entry: bv32)
      requires Valid() && ready
      ensures entry == ByteStep(x & 0xFF)
    {
      LowByte(x);
      assert Holds(table[..], x & 0xFF);
      entry := table[(x & 0xFF) as nat];
    }

    /** One turn of the loop. */
    method Next(c: bv32, b: byte) returns (c': bv32)
      requires Valid() && ready
      ensures c' == Feed(c, b)
    {
      var x := c ^ (b as bv32);
      var entry := LookUp(x);
      c' := entry ^ (c >> 8);
      FeedLooksUp(c, b, x, entry, c >> 8);
    }

    /** The table-driven loop computes the checksum as defined bit by bit. */
    method Compute(bytes: seq<byte>) returns (r: bv32)
      requires Valid()
      modifies this`ready, table
      ensures Valid() && ready
      ensures r == Checksum(bytes)
    {
      if !ready { BuildTable(); }
      var crc: bv32 := 0xFFFF_FFFF;
      for i := 0 to |bytes|
        invariant Valid() && ready
        invariant crc == FeedAll(ONES, bytes[..i])
      {
        crc := Next(crc, bytes[i]);
        assert bytes[..i + 1][..i] == bytes[..i];
      }
      assert bytes[..|bytes|] == bytes;
      RegisterIsFeed(ONES, bytes);
      r := crc ^ 0xFFFF_FFFF;
    }
  }

  lemma TableSum(x: bv32, low: bv32, high: bv32, out: bv32)
    requires low == ByteStep(x & 0xFF) && high == x >> 8 && out == ByteStep(x)
    ensures low ^ high == out
  {
    TableStep(x);
  }

  lemma HighUnchanged(c: bv32, b: byte, x: bv32)
    requires x == c ^ (b as bv32)
    ensures x >> 8 == c >> 8
  {
  }

  lemma FeedLooksUp(c: bv32, b: byte, x: bv32, low: bv32, high: bv32)
    requires x == c ^ (b as bv32) && low == ByteStep(x & 0xFF) && high == c >> 8
    ensures low ^ high == Feed(c, b)
  {
    HighUnchanged(c, b, x);
    TableSum(x, low, high, Feed(c, b));
  }

  // ----- error detection -----

  ghost predicate IsByteXor(a: byte, b: byte, e: byte)
  {
    e == a ^ b
  }

  ghost predicate IsDiff(a: seq<byte>, b: seq<byte>, e: seq<byte>)
  {
    |a| == |b| == |e| && forall i :: 0 <= i < |a| ==> IsByteXor(a[i], b[i], e[i])
  }

  lemma MixedDiff(c: bv32, d: bv32, x: bv32, a: byte, b: byte, e: byte)
    requires IsXor(c, d, x) && IsByteXor(a, b, e)
    ensures IsXor(c ^ (a as bv32), d ^ (b as bv32), x ^ (e as bv32))
  {
  }

  lemma FeedLinear(c: bv32, d: bv32, x: bv32, a: byte, b: byte, e: byte)
    requires IsXor(c, d, x) && IsByteXor(a, b, e)
    ensures IsXor(Feed(c, a), Feed(d, b), Feed(x, e))
  {
    MixedDiff(c, d, x, a, b, e);
    ByteLinear(c ^ (a as bv32), d ^ (b as bv32), x ^ (e as bv32));
  }

  lemma FeedLast(c: bv32, bytes: seq<byte>, front: seq<byte>)
    requires bytes != [] && front == bytes[..|bytes| - 1]
    ensures FeedAll(c, bytes) == Feed(FeedAll(c, front), bytes[|bytes| - 1])
  {
  }

  /** Two runs drift apart exactly as the difference of their inputs drives a register of its own. */
  lemma {:induction false} FeedAllLinear(c: bv32, d: bv32, x: bv32, a: seq<byte>, b: seq<byte>, e: seq<byte>)
    requires IsDiff(a, b, e) && IsXor(c, d, x)
    ensures IsXor(FeedAll(c, a), FeedAll(d, b), FeedAll(x, e))
    decreases |a|
  {
    if a != [] {
      var n := |a| - 1;
      FeedAllLinear(c, d, x, a[..n], b[..n], e[..n]);
      FeedLinear(FeedAll(c, a[..n]), FeedAll(d, b[..n]), FeedAll(x, e[..n]), a[n], b[n], e[n]);
      FeedLast(c, a, a[..n]);
      FeedLast(d, b, b[..n]);
      FeedLast(x, e, e[..n]);
    }
  }

  lemma StepOfZero()
    ensures ByteStep(0) == 0
  {
  }

  /** The polynomial's top bit tells which branch was taken. */
  lemma BitUnique(x: bv32, y: bv32)
    requires BitStep(x) == BitStep(y)
    ensures x == y
  {
  }

  ghost predicate Injective(f: bv32 -> bv32)
  {
    forall x, y :: f(x) == f(y) ==> x == y
  }

  lemma {:induction false} IterateUnique(f: bv32 -> bv32, x: bv32, y: bv32, n: nat)
    requires Injective(f) && Iterate(f, x, n) == Iterate(f, y, n)
    ensures x == y
    decreases n
  {
    if n > 0 {
      IterateUnique(f, f(x), f(y), n - 1);
    }
  }

  lemma ByteUnique(x: bv32, y: bv32)
    requires ByteStep(x) == ByteStep(y)
    ensures x == y
  {
    assert Injective(BitStep) by {
      forall a, b | BitStep(a) == BitStep(b) ensures a == b { BitUnique(a, b); }
    }
    IterateUnique(BitStep, x, y, BYTE_BITS);
  }

  lemma Unstep(x: bv32, w: bv32)
    requires ByteStep(x) == w && w < 0x100_0000
    ensures x == w << 8
  {
    ByteShift(w);
    ByteUnique(x, w << 8);
  }

  lemma XorCancel(s: bv32, b: bv32, y: bv32)
    requires s ^ b == y
    ensures s == y ^ b
  {
  }

  lemma UnfeedSum(s: bv32, b: bv32, x: bv32, w: bv32)
    requires x == s ^ b && ByteStep(x) == w && w < 0x100_0000
    ensures s == (w << 8) ^ b
  {
    Unstep(x, w);
    XorCancel(s, b, w << 8);
  }

  /** Undoing one byte whose result has its top byte clear. */
  lemma Unfeed(s: bv32, b: byte, w: bv32)
    requires Feed(s, b) == w && w < 0x100_0000
    ensures s == (w << 8) ^ (b as bv32)
  {
    UnfeedSum(s, b as bv32, s ^ (b as bv32), w);
  }

  lemma {:induction false} ZerosFeed(e: seq<byte>)
    requires forall i :: 0 <= i < |e| ==> e[i] == 0
    ensures FeedAll(0, e) == 0
  {
    if e != [] {
      ZerosFeed(e[..|e| - 1]);
      StepOfZero();
      assert 0 ^ ((0 as byte) as bv32) == 0 as bv32;
    }
  }

  /** `w` fits in `j` bytes. */
  ghost predicate Fits(w: bv32, j: nat)
  {
    match j
    case 0 => w == 0
    case 1 => w < 0x100
    case 2 => w < 0x1_0000
    case 3 => w < 0x100_0000
    case _ => true
  }

  lemma FitsNext(w: bv32, b: byte, j: nat)
    requires Fits(w, j) && j <= 3
    ensures Fits((w << 8) ^ (b as bv32), j + 1) && w < 0x100_0000
  {
  }

  lemma ShiftedToZero(w: bv32, b: byte)
    requires w < 0x100_0000 && (w << 8) ^ (b as bv32) == 0
    ensures w == 0 && b == 0
  {
  }

  /** Undoing `4 - j` more bytes: a register that fits in `j` bytes cannot hide what they held. */
  lemma {:induction false} NothingHidden(e: seq<byte>, w: bv32, j: nat)
    requires FeedAll(0, e) == w && j <= 4 && Fits(w, j)
    requires forall i :: 0 <= i < |e| - (4 - j) ==> e[i] == 0
    ensures w == 0 && forall i :: 0 <= i < |e| ==> e[i] == 0
    decreases |e|
  {
    if j == 4 {
      ZerosFeed(e);
    } else if e != [] {
      var front, last := e[..|e| - 1], e[|e| - 1];
      FitsNext(w, last, j);
      Unfeed(FeedAll(0, front), last, w);
      NothingHidden(front, (w << 8) ^ (last as bv32), j + 1);
      ShiftedToZero(w, last);
    }
  }

  lemma IdleFeed(x: bv32)
    requires Feed(x, 0) == 0
    ensures x == 0
  {
    Unfeed(x, 0, 0);
  }

  /** A difference within four consecutive bytes that drives the register back to zero is no difference. */
  lemma {:induction false} BurstIsSeen(e: seq<byte>, lo: nat)
    requires FeedAll(0, e) == 0
    requires forall i :: 0 <= i < |e| && !(lo <= i < lo + 4) ==> e[i] == 0
    ensures forall i :: 0 <= i < |e| ==> e[i] == 0
  {
    if |e| <= lo + 4 {
      NothingHidden(e, 0, 0);
    } else {
      IdleFeed(FeedAll(0, e[..|e| - 1]));
      BurstIsSeen(e[..|e| - 1], lo);
    }
  }

  lemma EqualSums(x: bv32, y: bv32, z: bv32)
    requires x ^ ONES == y ^ ONES && IsXor(x, y, z)
    ensures z == 0
  {
  }

  lemma NoDiff(a: byte, b: byte)
    requires a ^ b == 0
    ensures a == b
  {
  }

  lemma ChecksumIsFeed(bytes: seq<byte>)
    ensures Checksum(bytes) == FeedAll(ONES, bytes) ^ ONES
  {
    RegisterIsFeed(ONES, bytes);
  }

  lemma RunsMeet(a: seq<byte>, b: seq<byte>, e: seq<byte>)
    requires IsDiff(a, b, e) && Checksum(a) == Checksum(b)
    ensures FeedAll(0, e) == 0
  {
    ChecksumIsFeed(a);
    ChecksumIsFeed(b);
    assert IsXor(ONES, ONES, 0);
    FeedAllLinear(ONES, ONES, 0, a, b, e);
    EqualSums(FeedAll(ONES, a), FeedAll(ONES, b), FeedAll(0, e));
  }

  lemma SameChecksum(a: seq<byte>, b: seq<byte>, lo: nat)
    requires |a| == |b| && Checksum(a) == Checksum(b)
    requires forall i :: 0 <= i < |a| && !(lo <= i < lo + 4) ==> a[i] == b[i]
    ensures a == b
  {
    var e := seq(|a|, i requires 0 <= i < |a| => a[i] ^ b[i]);
    assert IsDiff(a, b, e);
    RunsMeet(a, b, e);
    BurstIsSeen(e, lo);
    forall i | 0 <= i < |a| ensures a[i] == b[i] {
      assert e[i] == 0;
      NoDiff(a[i], b[i]);
    }
  }

  /** Any change confined to four consecutive bytes changes the checksum, whatever the length. */
  lemma BurstChangesChecksum(a: seq<byte>, b: seq<byte>, lo: nat)
    requires |a| == |b| && a != b
    requires forall i :: 0 <= i < |a| && !(lo <= i < lo + 4) ==> a[i] == b[i]
    ensures Checksum(a) != Checksum(b)
  {
    if Checksum(a) == Checksum(b) { SameChecksum(a, b, lo); }
  }

  // ----- the check value -----

  /** The decimal digits from 1 to 9 in ASCII. */
  const DIGITS: seq<byte> := [0x31, 0x32, 0x33, 0x34, 0x35, 0x36, 0x37, 0x38, 0x39]

  lemma EightSteps(x0: bv32, x1: bv32, x2: bv32, x3: bv32, x4: bv32, x5: bv32, x6: bv32, x7: bv32, x8: bv32)
    requires BitStep(x0) == x1 && BitStep(x1) == x2 && BitStep(x2) == x3 && BitStep(x3) == x4
    requires BitStep(x4) == x5 && BitStep(x5) == x6 && BitStep(x6) == x7 && BitStep(x7) == x8
    ensures ByteStep(x0) == x8
  {
    assert Iterate(BitStep, x6, 2) == x8;
    assert Iterate(BitStep, x4, 4) == x8;
    assert Iterate(BitStep, x2, 6) == x8;
  }

  lemma FedByte(c: bv32, b: byte, x: bv32, y: bv32)
    requires c ^ (b as bv32) == x && ByteStep(x) == y
    ensures Feed(c, b) == y
  {
  }

  /** The register after the first `n` digits. */
  ghost predicate FedTo(n: nat, c: bv32)
  {
    n <= 9 && FeedAll(ONES, DIGITS[..n]) == c
  }

  lemma FedNext(n: nat, c: bv32, y: bv32)
    requires n < 9 && FedTo(n, c) && Feed(c, DIGITS[n]) == y
    ensures FedTo(n + 1, y)
  {
    FeedLast(ONES, DIGITS[..n + 1], DIGITS[..n]);
  }

  lemma Digit1()
    ensures Feed(0xFFFFFFFF, DIGITS[0]) == 0x7C231048
  {
    EightSteps(0xFFFFFFCE, 0x7FFFFFE7, 0xD2477CD3, 0x849B3D49, 0xAFF51D84, 0x57FA8EC2, 0x2BFD4761, 0xF8462090, 0x7C231048);
    FedByte(0xFFFFFFFF, DIGITS[0], 0xFFFFFFCE, 0x7C231048);
  }

  lemma Digit2()
    ensures Feed(0x7C231048, DIGITS[1]) == 0xB0ACBB32
  {
    EightSteps(0x7C23107A, 0x3E11883D, 0xF2B0473E, 0x7958239F, 0xD11492EF, 0x8532CA57, 0xAF21E60B, 0xBA287025, 0xB0ACBB32);
    FedByte(0x7C231048, DIGITS[1], 0x7C23107A, 0xB0ACBB32);
  }

  lemma Digit3()
    ensures Feed(0xB0ACBB32, DIGITS[2]) == 0x77B79C2D
  {
    EightSteps(0xB0ACBB01, 0xB5EEDEA0, 0x5AF76F50, 0x2D7BB7A8, 0x16BDDBD4, 0x0B5EEDEA, 0x05AF76F5, 0xEF6F385A, 0x77B79C2D);
    FedByte(0xB0ACBB32, DIGITS[2], 0xB0ACBB01, 0x77B79C2D);
  }

  lemma Digit4()
    ensures Feed(0x77B79C2D, DIGITS[3]) == 0x641C1F5C
  {
    EightSteps(0x77B79C19, 0xD6634D2C, 0x6B31A696, 0x3598D34B, 0xF774EA85, 0x9602F662, 0x4B017B31, 0xC8383EB8, 0x641C1F5C);
    FedByte(0x77B79C2D, DIGITS[3], 0x77B79C19, 0x641C1F5C);
  }

  lemma Digit5()
    ensures Feed(0x641C1F5C, DIGITS[4]) == 0x340AC5E3
  {
    EightSteps(0x641C1F69, 0xDFB68C94, 0x6FDB464A, 0x37EDA325, 0xF64E52B2, 0x7B272959, 0xD02B178C, 0x68158BC6, 0x340AC5E3);
    FedByte(0x641C1F5C, DIGITS[4], 0x641C1F69, 0x340AC5E3);
  }

  lemma Digit6()
    ensures Feed(0x340AC5E3, DIGITS[5]) == 0xF68D2C9E
  {
    EightSteps(0x340AC5D5, 0xF7BDE1CA, 0x7BDEF0E5, 0xD057FB52, 0x682BFDA9, 0xD9AD7DF4, 0x6CD6BEFA, 0x366B5F7D, 0xF68D2C9E);
    FedByte(0x340AC5E3, DIGITS[5], 0x340AC5D5, 0xF68D2C9E);
  }

  lemma Digit7()
    ensures Feed(0xF68D2C9E, DIGITS[6]) == 0xAFFC9660
  {
    EightSteps(0xF68D2CA9, 0x96FE1574, 0x4B7F0ABA, 0x25BF855D, 0xFF67418E, 0x7FB3A0C7, 0xD2615343, 0x84882A81, 0xAFFC9660);
    FedByte(0xF68D2C9E, DIGITS[6], 0xF68D2CA9, 0xAFFC9660);
  }

  lemma Digit8()
    ensures Feed(0xAFFC9660, DIGITS[7]) == 0x651F2550
  {
    EightSteps(0xAFFC9658, 0x57FE4B2C, 0x2BFF2596, 0x15FF92CB, 0xE7474A45, 0x9E1B2602, 0x4F0D9301, 0xCA3E4AA0, 0x651F2550);
    FedByte(0xAFFC9660, DIGITS[7], 0xAFFC9658, 0x651F2550);
  }

  lemma Digit9()
    ensures Feed(0x651F2550, DIGITS[8]) == 0x340BC6D9
  {
    EightSteps(0x651F2569, 0xDF371194, 0x6F9B88CA, 0x37CDC465, 0xF65E6112, 0x7B2F3089, 0xD02F1B64, 0x68178DB2, 0x340BC6D9);
    FedByte(0x651F2550, DIGITS[8], 0x651F2569, 0x340BC6D9);
  }

  lemma DigitsFed()
    ensures FedTo(9, 0x340BC6D9)
  {
    Digit1();
    FedNext(0, 0xFFFFFFFF, 0x7C231048);
    Digit2();
    FedNext(1, 0x7C231048, 0xB0ACBB32);
    Digit3();
    FedNext(2, 0xB0ACBB32, 0x77B79C2D);
    Digit4();
    FedNext(3, 0x77B79C2D, 0x641C1F5C);
    Digit5();
    FedNext(4, 0x641C1F5C, 0x340AC5E3);
    Digit6();
    FedNext(5, 0x340AC5E3, 0xF68D2C9E);
    Digit7();
    FedNext(6, 0xF68D2C9E, 0xAFFC9660);
    Digit8();
    FedNext(7, 0xAFFC9660, 0x651F2550);
    Digit9();
    FedNext(8, 0x651F2550, 0x340BC6D9);
  }

  /** The published check value of this CRC: the checksum of the digits 1 to 9. */
  lemma CheckValue()
    ensures Checksum(DIGITS) == 0xCBF4_3926
  {
    ChecksumIsFeed(DIGITS);
    DigitsFed();
    assert DIGITS[..9] == DIGITS;
  }
}
