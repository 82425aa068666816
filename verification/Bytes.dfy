/** Bytes, and 32-bit words in the byte order the original copies them to disk and to the wire (little-endian). */
module Bytes {
  type byte = bv8

  const TWO_32: nat := 0x1_0000_0000

  // ----- words held as bit vectors -----

  function WordBytes(x: bv32): (s: seq<byte>)
    ensures |s| == 4
  {
    [(x & 0xFF) as byte, ((x >> 8) & 0xFF) as byte, ((x >> 16) & 0xFF) as byte, ((x >> 24) & 0xFF) as byte]
  }

  function WordOf(s: seq<byte>): bv32
    requires |s| == 4
  {
    (s[0] as bv32) | ((s[1] as bv32) << 8) | ((s[2] as bv32) << 16) | ((s[3] as bv32) << 24)
  }

  lemma WordRoundTrip(x: bv32)
    ensures WordOf(WordBytes(x)) == x
  {
  }

  lemma WordBack(s: seq<byte>)
    requires |s| == 4
    ensures WordBytes(WordOf(s)) == s
  {
  }

  // ----- the byte that stands for a number -----

  function ByteWith(n: nat): byte
  {
    if n == 0 then 0 else ByteWith(n - 1) + 1
  }

  lemma Successor(b: byte)
    requires b as nat < 255
    ensures (b + 1) as nat == b as nat + 1
  {
  }

  lemma {:induction false} ByteRoundTrip(n: nat)
    requires n < 256
    ensures ByteWith(n) as nat == n
  {
    if n > 0 {
      ByteRoundTrip(n - 1);
      Successor(ByteWith(n - 1));
    }
  }

  lemma ByteUnique(a: byte, b: byte)
    requires a as nat == b as nat
    ensures a == b
  {
    assert (a as nat) as byte == (b as nat) as byte;
  }

  lemma ByteBack(b: byte)
    ensures ByteWith(b as nat) == b
  {
    ByteRoundTrip(b as nat);
    ByteUnique(ByteWith(b as nat), b);
  }

  // ----- words held as numbers; a larger number is cut to 32 bits -----

  function NatBytes(n: nat): (s: seq<byte>)
    ensures |s| == 4
  {
    [ByteWith(n % 256), ByteWith(n / 256 % 256), ByteWith(n / 256 / 256 % 256), ByteWith(n / 256 / 256 / 256 % 256)]
  }

  function Combine(a: nat, b: nat, c: nat, d: nat): (n: nat)
    requires a < 256 && b < 256 && c < 256 && d < 256
    ensures n < TWO_32
  {
    a + 256 * (b + 256 * (c + 256 * d))
  }

  function NatOf(s: seq<byte>): (n: nat)
    requires |s| == 4
    ensures n < TWO_32
  {
    Combine(s[0] as nat, s[1] as nat, s[2] as nat, s[3] as nat)
  }

  lemma FourDigits(a: nat, b: nat, c: nat, d: nat)
    requires a < 256 && b < 256 && c < 256 && d < 256
    ensures NatOf([ByteWith(a), ByteWith(b), ByteWith(c), ByteWith(d)]) == Combine(a, b, c, d)
  {
    ByteRoundTrip(a);
    ByteRoundTrip(b);
    ByteRoundTrip(c);
    ByteRoundTrip(d);
  }

  lemma Recombine(n: nat, n1: nat, n2: nat, n3: nat)
    requires n1 == n / 256 && n2 == n1 / 256 && n3 == n2 / 256
    ensures Combine(n % 256, n1 % 256, n2 % 256, n3 % 256) == n % TWO_32
  {
  }

  lemma NatRoundTrip(n: nat)
    ensures NatOf(NatBytes(n)) == n % TWO_32
  {
    FourDigits(n % 256, n / 256 % 256, n / 256 / 256 % 256, n / 256 / 256 / 256 % 256);
    Recombine(n, n / 256, n / 256 / 256, n / 256 / 256 / 256);
  }

  lemma Split(a: nat, b: nat, c: nat, d: nat, n: nat)
    requires a < 256 && b < 256 && c < 256 && d < 256 && n == Combine(a, b, c, d)
    ensures n % 256 == a && n / 256 % 256 == b && n / 256 / 256 % 256 == c && n / 256 / 256 / 256 % 256 == d
  {
    assert n == 256 * (b + 256 * (c + 256 * d)) + a;
    assert n / 256 == b + 256 * (c + 256 * d);
    assert n / 256 / 256 == c + 256 * d;
  }

  lemma NatBack(s: seq<byte>)
    requires |s| == 4
    ensures NatBytes(NatOf(s)) == s
  {
    Split(s[0] as nat, s[1] as nat, s[2] as nat, s[3] as nat, NatOf(s));
    ByteBack(s[0]);
    ByteBack(s[1]);
    ByteBack(s[2]);
    ByteBack(s[3]);
  }

  lemma Uncut(n: nat)
    requires n < TWO_32
    ensures n % TWO_32 == n
  {
  }

  lemma SmallRoundTrip(n: nat)
    requires n < TWO_32
    ensures NatOf(NatBytes(n)) == n
  {
    NatRoundTrip(n);
    Uncut(n);
  }

  /** The low byte comes first. */
  lemma LowByteFirst(a: byte, b: byte, c: byte, d: byte)
    ensures NatOf([a, b, c, d]) == a as nat + 256 * b as nat + 65536 * c as nat + 16777216 * d as nat
    ensures WordOf([a, b, c, d]) & 0xFF == a as bv32 && WordOf([a, b, c, d]) >> 24 == d as bv32
  {
  }

  // ----- pieces of a byte stream -----

  function Flat(parts: seq<seq<byte>>): seq<byte>
  {
    if parts == [] then [] else parts[0] + Flat(parts[1..])
  }

  lemma DropTwice(s: seq<byte>, a: nat, b: nat)
    requires a + b <= |s|
    ensures s[a..][b..] == s[a + b..]
  {
  }

  /** How many parts lie wholly before byte position `c`. */
  function WholeParts(parts: seq<seq<byte>>, c: nat): (k: nat)
    requires c <= |Flat(parts)|
    ensures k <= |parts| && |Flat(parts[..k])| <= c
    ensures k < |parts| ==> c < |Flat(parts[..k + 1])|
    ensures (forall i :: 0 <= i < |parts| ==> parts[i] != []) && c == |Flat(parts)| ==> k == |parts|
  {
    if parts == [] || c < |parts[0]| then
      assert parts != [] ==> parts[..1][1..] == [];
      0
    else
      var k := WholeParts(parts[1..], c - |parts[0]|);
      assert parts[..k + 1][1..] == parts[1..][..k];
      assert k + 1 < |parts| ==> parts[..k + 2][1..] == parts[1..][..k + 1];
      k + 1
  }
}
