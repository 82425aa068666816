/** The encoding against its standard, and which inputs the decoder and the encoder together reproduce. */
module Base64Laws {
  import opened Base64Url

  // ----- the standard -----

  /** Table 2 of RFC 4648. */
  const ALPHABET: string := UPPER + LOWER + DIGITS + "-_"

  const UPPER: string := "ABCDEFGHIJKLMNOPQRSTUVWXYZ"
  const LOWER: string := "abcdefghijklmnopqrstuvwxyz"
  const DIGITS: string := "0123456789"

  lemma UpperLetter(v: nat)
    requires v < 26
    ensures UPPER[v] as int == 65 + v
  {
  }

  lemma LowerLetter(v: nat)
    requires v < 26
    ensures LOWER[v] as int == 97 + v
  {
  }

  lemma Digit(v: nat)
    requires v < 10
    ensures DIGITS[v] as int == 48 + v
  {
  }

  lemma AlphabetIsStandard(v: sextet)
    ensures |ALPHABET| == 64 && UrlSymbol(v) == ALPHABET[v] as int
  {
    if v < 26 { UpperLetter(v); }
    else if v < 52 { LowerLetter(v - 26); }
    else if v < 62 { Digit(v - 52); }
  }

  lemma EncodedAs(s: seq<octet>, vs: seq<sextet>, t: seq<octet>)
    requires Sextets(s) == vs && |t| == |vs| && forall i :: 0 <= i < |vs| ==> t[i] == UrlSymbol(vs[i])
    ensures Encoded(s) == t
  {
  }

  lemma OneGroupMore(a: octet, b: octet, c: octet, s: seq<octet>)
    ensures Sextets([a, b, c] + s) == [First(a), Second(a, b), Third(b, c), Fourth(c)] + Sextets(s)
  {
    assert ([a, b, c] + s)[3..] == s;
  }

  /** The vectors of section 10 of RFC 4648 for "foob", "fooba" and "foobar". */
  lemma VectorFoob()
    ensures Encoded([102, 111, 111, 98]) == [90, 109, 57, 118, 89, 103]
  {
    OneGroupMore(102, 111, 111, [98]);
    assert [102, 111, 111] + [98] == [102, 111, 111, 98];
    EncodedAs([102, 111, 111, 98], [25, 38, 61, 47, 24, 32], [90, 109, 57, 118, 89, 103]);
  }

  lemma VectorFooba()
    ensures Encoded([102, 111, 111, 98, 97]) == [90, 109, 57, 118, 89, 109, 69]
  {
    OneGroupMore(102, 111, 111, [98, 97]);
    assert [102, 111, 111] + [98, 97] == [102, 111, 111, 98, 97];
    EncodedAs([102, 111, 111, 98, 97], [25, 38, 61, 47, 24, 38, 4], [90, 109, 57, 118, 89, 109, 69]);
  }

  lemma VectorFoobar()
    ensures Encoded([102, 111, 111, 98, 97, 114]) == [90, 109, 57, 118, 89, 109, 70, 121]
  {
    OneGroupMore(102, 111, 111, [98, 97, 114]);
    OneGroupMore(98, 97, 114, []);
    assert [98, 97, 114] + [] == [98, 97, 114] && [102, 111, 111] + [98, 97, 114] == [102, 111, 111, 98, 97, 114];
    EncodedAs([102, 111, 111, 98, 97, 114], [25, 38, 61, 47, 24, 38, 5, 50], [90, 109, 57, 118, 89, 109, 70, 121]);
  }

  // ----- inputs that are no encodings -----

  /** An octet from 128 on reads as the symbol of value zero. */
  function AsLetterA(c: octet): octet
  {
    if c >= 128 then 65 else c
  }

  lemma SameValue(c: octet)
    ensures Value(StdChar(AsLetterA(c))) == Value(StdChar(c))
  {
  }

  ghost predicate SameValues(s: seq<octet>, t: seq<octet>)
  {
    |s| == |t| && forall i :: 0 <= i < |s| ==> Value(s[i]) == Value(t[i])
  }

  lemma {:induction false} GroupsByValue(s: seq<octet>, t: seq<octet>)
    requires SameValues(s, t)
    ensures DecodedGroups(s) == DecodedGroups(t)
    decreases |s|
  {
    if |s| >= 4 { GroupsByValue(s[4..], t[4..]); }
  }

  lemma {:induction false} FilledByValue(s: seq<octet>, t: seq<octet>)
    requires SameValues(s, t)
    ensures SameValues(Filled(s), Filled(t))
    decreases (4 - |s| % 4) % 4
  {
    if |s| % 4 != 0 { FilledByValue(s + [EQUALS], t + [EQUALS]); }
  }

  /** The decoder accepts octets outside ASCII: each counts as an `A`. */
  lemma HighOctetsReadAsA(s: seq<octet>)
    ensures Decoded(s) == Decoded(Mapped(s, AsLetterA))
  {
    var x, y := Mapped(s, StdChar), Mapped(Mapped(s, AsLetterA), StdChar);
    forall i | 0 <= i < |s| ensures Value(x[i]) == Value(y[i]) { SameValue(s[i]); }
    FilledByValue(x, y);
    GroupsByValue(Filled(x), Filled(y));
  }

  /** The first two characters of every group of `s` have a value. */
  ghost predicate GroupsRead(s: seq<octet>)
  {
    forall i :: 0 <= i && 4 * i + 3 < |s| ==> Value(s[4 * i]) >= 0 && Value(s[4 * i + 1]) >= 0
  }

  lemma GroupsReadRest(s: seq<octet>)
    requires |s| >= 4 && GroupsRead(s)
    ensures Value(s[0]) >= 0 && Value(s[1]) >= 0 && GroupsRead(s[4..])
  {
    assert Value(s[4 * 0]) >= 0;
    forall i | 0 <= i && 4 * i + 3 < |s[4..]| ensures Value(s[4..][4 * i]) >= 0 && Value(s[4..][4 * i + 1]) >= 0 {
      assert Value(s[4 * (i + 1)]) >= 0;
    }
  }

  /** Reading goes group by group, and ends for good at a group whose first or second character has no value. */
  lemma {:induction false} ReadsGroupByGroup(a: seq<octet>, b: seq<octet>)
    requires |a| % 4 == 0 && GroupsRead(a)
    ensures DecodedGroups(a + b) == DecodedGroups(a) + DecodedGroups(b)
    ensures |b| < 4 || Value(b[0]) < 0 || Value(b[1]) < 0 ==> DecodedGroups(a + b) == DecodedGroups(a)
    decreases |a|
  {
    if a == [] {
      assert a + b == b;
    } else {
      GroupsReadRest(a);
      FirstGroup(a, a[4..]);
      FirstGroup(a + b, a[4..] + b);
      SameGroup(a, b);
      ReadsGroupByGroup(a[4..], b);
      Regroup(DecodedGroup(a), DecodedGroups(a[4..]), DecodedGroups(b));
    }
  }

  lemma FirstGroup(s: seq<octet>, rest: seq<octet>)
    requires |s| >= 4 && Value(s[0]) >= 0 && Value(s[1]) >= 0 && rest == s[4..]
    ensures DecodedGroups(s) == DecodedGroup(s) + DecodedGroups(rest)
  {
  }

  lemma SameGroup(a: seq<octet>, b: seq<octet>)
    requires |a| >= 4 && Value(a[0]) >= 0 && Value(a[1]) >= 0
    ensures DecodedGroup(a + b) == DecodedGroup(a)
  {
  }

  lemma Regroup(a: seq<octet>, b: seq<octet>, c: seq<octet>)
    ensures (a + b) + c == a + (b + c)
  {
  }

  /** A fourth character is read even if the third has no value, with two bits set that nobody sent. */
  lemma PaddingInsideIsRead(a: octet, b: octet, d: octet)
    requires Value(a) >= 0 && Value(b) >= 0 && Value(d) >= 0
    ensures DecodedGroup([a, b, EQUALS, d]) == [Value(a) * 4 + Value(b) / 16, 192 + Value(d)]
  {
  }

  // ----- canonical inputs -----

  predicate IsSymbol(c: octet)
  {
    65 <= c <= 90 || 97 <= c <= 122 || 48 <= c <= 57 || c == MINUS || c == UNDERSCORE
  }

  function SymbolIndex(c: octet): sextet
    requires IsSymbol(c)
  {
    Value(StdChar(c))
  }

  lemma SymbolBack(c: octet)
    requires IsSymbol(c)
    ensures UrlSymbol(SymbolIndex(c)) == c
  {
  }

  lemma IndexBack(v: sextet)
    ensures IsSymbol(UrlSymbol(v)) && SymbolIndex(UrlSymbol(v)) == v
  {
    SymbolValue(v);
  }

  /** Symbols of the alphabet only, no group of one, and no bits set that stand for nothing. */
  predicate Canonical(s: seq<octet>)
  {
    && (forall i :: 0 <= i < |s| ==> IsSymbol(s[i])) && |s| % 4 != 1
    && (|s| % 4 == 2 ==> SymbolIndex(s[|s| - 1]) % 16 == 0)
    && (|s| % 4 == 3 ==> SymbolIndex(s[|s| - 1]) % 4 == 0)
  }

  lemma CanonicalRest(s: seq<octet>)
    requires |s| >= 4
    ensures Canonical(s) <==> IsSymbol(s[0]) && IsSymbol(s[1]) && IsSymbol(s[2]) && IsSymbol(s[3]) && Canonical(s[4..])
  {
    assert forall i :: 4 <= i < |s| ==> s[i] == s[4..][i - 4];
    assert |s[4..]| % 4 == |s| % 4;
  }

  lemma EncodedGroups(t: seq<octet>)
    requires |t| >= 3
    ensures Encoded(t) == [UrlSymbol(First(t[0])), UrlSymbol(Second(t[0], t[1])), UrlSymbol(Third(t[1], t[2])), UrlSymbol(Fourth(t[2]))] + Encoded(t[3..])
  {
  }

  lemma ShortIsCanonical(t: seq<octet>)
    requires |t| < 3
    ensures Canonical(Encoded(t))
  {
    if |t| == 1 {
      IndexBack(First(t[0]));
      IndexBack(Second(t[0], 0));
    } else if |t| == 2 {
      IndexBack(First(t[0]));
      IndexBack(Second(t[0], t[1]));
      IndexBack(Third(t[1], 0));
    }
  }

  lemma {:induction false} EncodedIsCanonical(t: seq<octet>)
    ensures Canonical(Encoded(t))
    decreases |t|
  {
    if |t| < 3 {
      ShortIsCanonical(t);
    } else {
      EncodedGroups(t);
      EncodedIsCanonical(t[3..]);
      FourSymbols(First(t[0]), Second(t[0], t[1]), Third(t[1], t[2]), Fourth(t[2]), Encoded(t[3..]));
    }
  }

  lemma FourSymbols(v0: sextet, v1: sextet, v2: sextet, v3: sextet, rest: seq<octet>)
    requires Canonical(rest)
    ensures Canonical([UrlSymbol(v0), UrlSymbol(v1), UrlSymbol(v2), UrlSymbol(v3)] + rest)
  {
    var s := [UrlSymbol(v0), UrlSymbol(v1), UrlSymbol(v2), UrlSymbol(v3)] + rest;
    IndexBack(v0);
    IndexBack(v1);
    IndexBack(v2);
    IndexBack(v3);
    assert s[4..] == rest;
    CanonicalRest(s);
  }

  /** Four sextets are those of three octets. */
  lemma SextetsBack(v0: sextet, v1: sextet, v2: sextet, v3: sextet) returns (a: octet, b: octet, c: octet)
    ensures First(a) == v0 && Second(a, b) == v1 && Third(b, c) == v2 && Fourth(c) == v3
    ensures b == v1 % 16 * 16 + v2 / 4 && c == v2 % 4 * 64 + v3
  {
    a, b, c := v0 * 4 + v1 / 16, v1 % 16 * 16 + v2 / 4, v2 % 4 * 64 + v3;
  }

  lemma OneOctet(v0: sextet, v1: sextet) returns (a: octet)
    requires v1 % 16 == 0
    ensures Sextets([a]) == [v0, v1]
  {
    var b, c;
    a, b, c := SextetsBack(v0, v1, 0, 0);
  }

  lemma TwoOctets(v0: sextet, v1: sextet, v2: sextet) returns (a: octet, b: octet)
    requires v2 % 4 == 0
    ensures Sextets([a, b]) == [v0, v1, v2]
  {
    var c;
    a, b, c := SextetsBack(v0, v1, v2, 0);
  }

  lemma TwoSymbols(s: seq<octet>) returns (t: seq<octet>)
    requires Canonical(s) && |s| == 2
    ensures Encoded(t) == s
  {
    var a := OneOctet(SymbolIndex(s[0]), SymbolIndex(s[1]));
    t := [a];
    SymbolBack(s[0]);
    SymbolBack(s[1]);
  }

  lemma ThreeSymbols(s: seq<octet>) returns (t: seq<octet>)
    requires Canonical(s) && |s| == 3
    ensures Encoded(t) == s
  {
    var a, b := TwoOctets(SymbolIndex(s[0]), SymbolIndex(s[1]), SymbolIndex(s[2]));
    t := [a, b];
    SymbolBack(s[0]);
    SymbolBack(s[1]);
    SymbolBack(s[2]);
  }

  lemma {:induction false} CanonicalIsEncoded(s: seq<octet>) returns (t: seq<octet>)
    requires Canonical(s)
    ensures Encoded(t) == s
    decreases |s|
  {
    if s == [] {
      t := [];
    } else if |s| == 2 {
      t := TwoSymbols(s);
    } else if |s| == 3 {
      t := ThreeSymbols(s);
    } else {
      CanonicalRest(s);
      var rest := CanonicalIsEncoded(s[4..]);
      var a, b, c := SextetsBack(SymbolIndex(s[0]), SymbolIndex(s[1]), SymbolIndex(s[2]), SymbolIndex(s[3]));
      t := [a, b, c] + rest;
      assert t[3..] == rest;
      EncodedGroups(t);
      SymbolBack(s[0]);
      SymbolBack(s[1]);
      SymbolBack(s[2]);
      SymbolBack(s[3]);
      assert s == s[..4] + s[4..];
    }
  }

  /** Decoding and encoding again gives back exactly the canonical inputs; any other is read as something it does not encode. */
  lemma ReencodesIffCanonical(s: seq<octet>)
    ensures Encoded(Decoded(s)) == s <==> Canonical(s)
  {
    if Canonical(s) {
      var t := CanonicalIsEncoded(s);
      RoundTrip(t);
    }
    EncodedIsCanonical(Decoded(s));
  }
}
