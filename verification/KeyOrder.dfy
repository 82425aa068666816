/** The order in which the store keeps its keys, and why keys with a common prefix lie together in it. */
module KeyOrder {
  function Less(a: string, b: string): bool
  {
    if b == [] then false
    else if a == [] then true
    else if a[0] != b[0] then a[0] < b[0]
    else Less(a[1..], b[1..])
  }

  /** The first character in which two keys differ decides, and without one the shorter key comes first. */
  lemma {:induction false} FirstDifferenceDecides(a: string, b: string, k: nat)
    requires k <= |a| && k <= |b| && a[..k] == b[..k]
    requires k == |a| || k == |b| || a[k] != b[k]
    ensures Less(a, b) <==> k < |b| && (k == |a| || a[k] < b[k])
  {
    if k > 0 {
      assert a[0] == a[..k][0] == b[..k][0] == b[0];
      assert a[1..][..k - 1] == a[..k][1..] == b[..k][1..] == b[1..][..k - 1];
      FirstDifferenceDecides(a[1..], b[1..], k - 1);
    }
  }

  lemma {:induction false} Irreflexive(a: string)
    ensures !Less(a, a)
  {
    if a != [] { Irreflexive(a[1..]); }
  }

  lemma {:induction false} Transitive(a: string, b: string, c: string)
    requires Less(a, b) && Less(b, c)
    ensures Less(a, c)
  {
    if a != [] && a[0] == b[0] && b[0] == c[0] {
      Transitive(a[1..], b[1..], c[1..]);
    }
  }

  lemma {:induction false} Total(a: string, b: string)
    ensures Less(a, b) || a == b || Less(b, a)
  {
    if a != [] && b != [] && a[0] == b[0] {
      Total(a[1..], b[1..]);
      assert a == [a[0]] + a[1..] && b == [b[0]] + b[1..];
    }
  }

  lemma {:induction false} Asymmetric(a: string, b: string)
    requires Less(a, b)
    ensures !Less(b, a) && a != b
  {
    if a == b {
      Irreflexive(a);
    } else if Less(b, a) {
      Transitive(a, b, a);
      Irreflexive(a);
    }
  }

  // `p <= s` is Dafny's "p is a prefix of s".

  /** A key is never below its own prefix. */
  lemma {:induction false} PrefixNotAbove(p: string, s: string)
    requires p <= s
    ensures !Less(s, p)
  {
    if p != [] {
      assert s[0] == p[0] && p[1..] <= s[1..];
      PrefixNotAbove(p[1..], s[1..]);
    }
  }

  /** Between a prefix and a key that has it, every key has it. */
  lemma {:induction false} Contiguous(p: string, b: string, c: string)
    requires !Less(b, p) && Less(b, c) && p <= c
    ensures p <= b
  {
    if p != [] {
      assert c[0] == p[0] && p[1..] <= c[1..];
      assert b != [] && b[0] == p[0];
      Contiguous(p[1..], b[1..], c[1..]);
      assert p == [p[0]] + p[1..] && b == [b[0]] + b[1..];
    }
  }
}
