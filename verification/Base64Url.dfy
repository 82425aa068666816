/**
 Base64url without padding (section 5 of RFC 4648), as the token code encodes and decodes it: by way
 of ordinary base64, rewriting two characters and adding or dropping `=`.
 */
module Base64Url {
  type octet = n: int | 0 <= n < 256

  const PLUS: octet := 43
  const SLASH: octet := 47
  const EQUALS: octet := 61
  const MINUS: octet := 45
  const UNDERSCORE: octet := 95

  /** The base64 alphabet: A-Z, a-z, 0-9, `+`, `/`. */
  function Symbol(v: sextet): octet
  {
    if v < 26 then 65 + v
    else if v < 52 then 71 + v
    else if v < 62 then v - 4
    else if v == 62 then PLUS
    else SLASH
  }

  /** The decoding table. Only its first half is written out; the rest is zero, not "invalid". */
  function Value(c: octet): int
  {
    if 65 <= c <= 90 then c - 65
    else if 97 <= c <= 122 then c - 71
    else if 48 <= c <= 57 then c + 4
    else if c == PLUS then 62
    else if c == SLASH then 63
    else if c >= 128 then 0
    else -1
  }

  // ----- the definition -----

  type sextet = v: int | 0 <= v < 64

  function First(a: octet): sextet { a / 4 }

  function Second(a: octet, b: octet): sextet { a % 4 * 16 + b / 16 }

  function Third(b: octet, c: octet): sextet { b % 16 * 4 + c / 64 }

  function Fourth(c: octet): sextet { c % 64 }

  /** Three octets are four groups of six bits; one or two left over are two or three, filled with zero bits. */
  function Sextets(s: seq<octet>): seq<sextet>
    decreases |s|
  {
    if s == [] then []
    else if |s| == 1 then [First(s[0]), Second(s[0], 0)]
    else if |s| == 2 then [First(s[0]), Second(s[0], s[1]), Third(s[1], 0)]
    else [First(s[0]), Second(s[0], s[1]), Third(s[1], s[2]), Fourth(s[2])] + Sextets(s[3..])
  }

  function UrlSymbol(v: sextet): octet
  {
    if v == 62 then MINUS else if v == 63 then UNDERSCORE else Symbol(v)
  }

  function Encoded(s: seq<octet>): (t: seq<octet>)
    ensures |t| == |Sextets(s)| && forall i :: 0 <= i < |t| ==> t[i] == UrlSymbol(Sextets(s)[i])
  {
    var vs := Sextets(s);
    seq(|vs|, i requires 0 <= i < |vs| => UrlSymbol(vs[i]))
  }

  // ----- the steps of the encoder and the decoder -----

  /** Ordinary base64 before padding. */
  function Plain(s: seq<octet>): (t: seq<octet>)
    ensures |t| == |Sextets(s)| && forall i :: 0 <= i < |t| ==> t[i] == Symbol(Sextets(s)[i])
  {
    var vs := Sextets(s);
    seq(|vs|, i requires 0 <= i < |vs| => Symbol(vs[i]))
  }

  function Filled(s: seq<octet>): seq<octet>
    decreases (4 - |s| % 4) % 4
  {
    if |s| % 4 == 0 then s else Filled(s + [EQUALS])
  }

  function Stripped(s: seq<octet>): seq<octet>
  {
    if s != [] && s[|s| - 1] == EQUALS then Stripped(s[..|s| - 1]) else s
  }

  function UrlChar(c: octet): octet
  {
    if c == PLUS then MINUS else if c == SLASH then UNDERSCORE else c
  }

  function StdChar(c: octet): octet
  {
    if c == MINUS then PLUS else if c == UNDERSCORE then SLASH else c
  }

  function Mapped(s: seq<octet>, f: octet -> octet): (t: seq<octet>)
    ensures |t| == |s| && forall i :: 0 <= i < |s| ==> t[i] == f(s[i])
  {
    seq(|s|, i requires 0 <= i < |s| => f(s[i]))
  }

  function DecodedGroup(s: seq<octet>): seq<octet>
    requires |s| >= 4 && Value(s[0]) >= 0 && Value(s[1]) >= 0
  {
    var v0, v1, v2, v3 := Value(s[0]), Value(s[1]), Value(s[2]), Value(s[3]);
    [v0 * 4 + v1 / 16]
    + (if v2 >= 0 then [v1 % 16 * 16 + v2 / 4] else [])
    + (if v3 >= 0 then [v2 % 4 * 64 + v3] else [])
  }

  function DecodedGroups(s: seq<octet>): seq<octet>
    decreases |s|
  {
    if |s| < 4 || Value(s[0]) < 0 || Value(s[1]) < 0 then []
    else DecodedGroup(s) + DecodedGroups(s[4..])
  }

  function Decoded(s: seq<octet>): seq<octet>
  {
    DecodedGroups(Filled(Mapped(s, StdChar)))
  }

  // ----- padding -----

  lemma SymbolValue(v: sextet)
    ensures Value(Symbol(v)) == v && StdChar(UrlSymbol(v)) == Symbol(v) && UrlChar(Symbol(v)) == UrlSymbol(v)
    ensures UrlSymbol(v) != EQUALS && Symbol(v) != EQUALS
  {
  }

  lemma {:induction false} FilledTail(a: seq<octet>, b: seq<octet>)
    requires |a| == 4
    ensures Filled(a + b) == a + Filled(b)
    decreases (4 - |b| % 4) % 4
  {
    if |b| % 4 != 0 {
      assert (a + b) + [EQUALS] == a + (b + [EQUALS]);
      FilledTail(a, b + [EQUALS]);
    }
  }

  /** `y` is `x` followed by `=` only. */
  ghost predicate Pads(x: seq<octet>, y: seq<octet>)
  {
    x <= y && forall i :: |x| <= i < |y| ==> y[i] == EQUALS
  }

  lemma {:induction false} FilledPads(x: seq<octet>)
    ensures Pads(x, Filled(x))
    decreases (4 - |x| % 4) % 4
  {
    if |x| % 4 != 0 {
      FilledPads(x + [EQUALS]);
      assert x <= x + [EQUALS] <= Filled(x);
      assert (x + [EQUALS])[|x|] == EQUALS;
    }
  }

  /** Stripping a padded string that holds no `=` of its own gives it back. */
  lemma {:induction false} StrippedPads(x: seq<octet>, y: seq<octet>)
    requires Pads(x, y) && EQUALS !in x
    ensures Stripped(y) == x
    decreases |y|
  {
    if |x| < |y| {
      StrippedPads(x, y[..|y| - 1]);
    } else {
      assert x == y;
    }
  }

  // ----- groups of four -----

  /** One group of ordinary base64, from up to three octets. */
  function Group(s: seq<octet>): (g: seq<octet>)
    requires s != []
    ensures |g| == 4
  {
    var b := if |s| > 1 then s[1] else 0;
    var c := if |s| > 2 then s[2] else 0;
    [Symbol(First(s[0])), Symbol(Second(s[0], b)),
     if |s| > 1 then Symbol(Third(b, c)) else EQUALS,
     if |s| > 2 then Symbol(Fourth(c)) else EQUALS]
  }

  function Rest(s: seq<octet>): seq<octet>
  {
    if |s| <= 3 then [] else s[3..]
  }

  function Padded(s: seq<octet>): seq<octet>
    decreases |s|
  {
    if s == [] then [] else Group(s) + Padded(Rest(s))
  }

  lemma FullGroup(s: seq<octet>)
    requires |s| >= 3
    ensures Plain(s) == Group(s) + Plain(Rest(s))
  {
  }

  lemma FilledShort(x: seq<octet>)
    ensures |x| == 2 ==> Filled(x) == x + [EQUALS, EQUALS]
    ensures |x| == 3 ==> Filled(x) == x + [EQUALS]
  {
    if |x| == 2 {
      assert Filled(x) == Filled(x + [EQUALS]) == Filled((x + [EQUALS]) + [EQUALS]);
    }
  }

  lemma LastGroup(s: seq<octet>)
    requires 1 <= |s| <= 2
    ensures Filled(Plain(s)) == Group(s)
  {
    FilledShort(Plain(s));
  }

  lemma {:induction false} FilledIsPadded(s: seq<octet>)
    ensures Filled(Plain(s)) == Padded(s)
    decreases |s|
  {
    if 1 <= |s| <= 2 {
      LastGroup(s);
    } else if s != [] {
      FullGroup(s);
      FilledTail(Group(s), Plain(Rest(s)));
      FilledIsPadded(Rest(s));
    }
  }

  // ----- round trip -----

  lemma OctetsBack(a: octet, b: octet, c: octet)
    ensures First(a) * 4 + Second(a, b) / 16 == a
    ensures Second(a, b) % 16 * 16 + Third(b, c) / 4 == b
    ensures Third(b, c) % 4 * 64 + Fourth(c) == c
  {
  }

  /** One group decodes to the octets it was made from. */
  lemma GroupDecodes(s: seq<octet>, t: seq<octet>)
    requires s != [] && Group(s) <= t
    ensures Value(t[0]) >= 0 && Value(t[1]) >= 0
    ensures DecodedGroup(t) == if |s| < 3 then s else s[..3]
  {
    var b := if |s| > 1 then s[1] else 0;
    var c := if |s| > 2 then s[2] else 0;
    SymbolValue(First(s[0]));
    SymbolValue(Second(s[0], b));
    SymbolValue(Third(b, c));
    SymbolValue(Fourth(c));
    OctetsBack(s[0], b, c);
  }

  lemma {:induction false} PaddedDecodes(s: seq<octet>)
    ensures DecodedGroups(Padded(s)) == s
    decreases |s|
  {
    if s != [] {
      GroupDecodes(s, Padded(s));
      assert Padded(s)[4..] == Padded(Rest(s));
      PaddedDecodes(Rest(s));
    }
  }

  lemma UrlAndBack(s: seq<octet>)
    ensures Mapped(Encoded(s), StdChar) == Plain(s) && Mapped(Plain(s), UrlChar) == Encoded(s)
    ensures EQUALS !in Encoded(s)
  {
  }

  /** Decoding an encoding gives back the octets, for every octet string. */
  lemma RoundTrip(s: seq<octet>)
    ensures Decoded(Encoded(s)) == s
  {
    UrlAndBack(s);
    FilledIsPadded(s);
    PaddedDecodes(s);
  }

  lemma EncodedUnique(s: seq<octet>, t: seq<octet>)
    requires Encoded(s) == Encoded(t)
    ensures s == t
  {
    RoundTrip(s);
    RoundTrip(t);
  }

  // ----- the encoder -----

  lemma MappedPads(x: seq<octet>, y: seq<octet>)
    requires Pads(x, y)
    ensures Pads(Mapped(x, UrlChar), Mapped(y, UrlChar))
  {
  }

  /** Rewriting and stripping ordinary base64 gives the definition. */
  lemma StrippedIsEncoded(s: seq<octet>)
    ensures Stripped(Mapped(Padded(s), UrlChar)) == Encoded(s)
  {
    FilledIsPadded(s);
    FilledPads(Plain(s));
    MappedPads(Plain(s), Padded(s));
    UrlAndBack(s);
    StrippedPads(Encoded(s), Mapped(Padded(s), UrlChar));
  }

  // The four six-bit fields of the 24-bit value, against the octets they come from.

  lemma FieldOne(a: octet, b: octet, c: octet, val: int)
    requires val == a * 65536 + b * 256 + c
    ensures 0 <= val && val / 262144 % 64 == First(a)
  {
  }

  lemma FieldTwo(a: octet, b: octet, c: octet, val: int, q: int)
    requires val == a * 65536 + b * 256 + c && q == a * 16 + b / 16
    ensures val / 4096 == q
  {
    assert val == q * 4096 + (b % 16 * 256 + c);
  }

  lemma FieldTwoLow(a: octet, b: octet, q: int)
    requires q == a * 16 + b / 16
    ensures q % 64 == Second(a, b)
  {
    assert q == a / 4 * 64 + (a % 4 * 16 + b / 16);
  }

  lemma FieldThree(a: octet, b: octet, c: octet, val: int, q: int)
    requires val == a * 65536 + b * 256 + c && q == a * 1024 + b * 4 + c / 64
    ensures val / 64 == q && val % 64 == Fourth(c)
  {
    assert val == q * 64 + c % 64;
  }

  lemma FieldThreeLow(a: octet, b: octet, c: octet, q: int)
    requires q == a * 1024 + b * 4 + c / 64
    ensures q % 64 == Third(b, c)
  {
    assert q == (a * 16 + b / 16) * 64 + (b % 16 * 4 + c / 64);
  }

  method EncodeGroup(s: seq<octet>, i: nat) returns (g: seq<octet>)
    requires i < |s|
    ensures g == Group(s[i..])
  {
    var a: int, b: int, c: int := s[i], 0, 0;
    if i + 1 < |s| { b := s[i + 1]; }
    if i + 2 < |s| { c := s[i + 2]; }
    var val := a * 65536 + b * 256 + c;
    FieldOne(a, b, c, val);
    FieldTwo(a, b, c, val, a * 16 + b / 16);
    FieldTwoLow(a, b, a * 16 + b / 16);
    FieldThree(a, b, c, val, a * 1024 + b * 4 + c / 64);
    FieldThreeLow(a, b, c, a * 1024 + b * 4 + c / 64);
    g := [Symbol(val / 262144 % 64), Symbol(val / 4096 % 64),
          if i + 1 < |s| then Symbol(val / 64 % 64) else EQUALS,
          if i + 2 < |s| then Symbol(val % 64) else EQUALS];
  }

  method Base64UrlEncode(data: seq<octet>) returns (result: seq<octet>)
    ensures result == Encoded(data)
  {
    result := [];
    var i: nat := 0;
    ghost var left := data;
    while i < |data|
      invariant left == if i <= |data| then data[i..] else []
      invariant result + Padded(left) == Padded(data)
    {
      var g := EncodeGroup(data, i);
      assert result + Padded(left) == (result + g) + Padded(Rest(left));
      result := result + g;
      i := i + 3;
      left := Rest(left);
    }
    assert result == Padded(data);
    result := Rewrite(result);
    ghost var full := result;
    while result != [] && result[|result| - 1] == EQUALS
      invariant Stripped(result) == Stripped(full)
    {
      result := result[..|result| - 1];
    }
    StrippedIsEncoded(data);
  }

  method Rewrite(s: seq<octet>) returns (t: seq<octet>)
    ensures t == Mapped(s, UrlChar)
  {
    t := s;
    for k := 0 to |s|
      invariant |t| == |s|
      invariant forall j :: 0 <= j < k ==> t[j] == UrlChar(s[j])
      invariant forall j :: k <= j < |s| ==> t[j] == s[j]
    {
      if t[k] == PLUS { t := t[k := MINUS]; }
      else if t[k] == SLASH { t := t[k := UNDERSCORE]; }
    }
  }

  // ----- the decoder -----

  method RewriteBack(s: seq<octet>) returns (t: seq<octet>)
    ensures t == Mapped(s, StdChar)
  {
    t := s;
    for k := 0 to |s|
      invariant |t| == |s|
      invariant forall j :: 0 <= j < k ==> t[j] == StdChar(s[j])
      invariant forall j :: k <= j < |s| ==> t[j] == s[j]
    {
      if t[k] == MINUS { t := t[k := PLUS]; }
      else if t[k] == UNDERSCORE { t := t[k := SLASH]; }
    }
  }

  method Fill(s: seq<octet>) returns (t: seq<octet>)
    ensures t == Filled(s)
  {
    t := s;
    while |t| % 4 != 0
      invariant Filled(t) == Filled(s)
      decreases (4 - |t| % 4) % 4
    {
      t := t + [EQUALS];
    }
  }

  /** One turn of the decoding loop; not ok where it stops. */
  method DecodeGroup(s: seq<octet>, i: nat) returns (ok: bool, g: seq<octet>)
    requires i + 3 < |s|
    ensures ok ==> DecodedGroups(s[i..]) == g + DecodedGroups(s[i + 4..])
    ensures !ok ==> DecodedGroups(s[i..]) == [] && g == []
  {
    var v0, v1, v2, v3 := Value(s[i]), Value(s[i + 1]), Value(s[i + 2]), Value(s[i + 3]);
    g := [];
    if v0 < 0 || v1 < 0 { return false, []; }
    g := [v0 * 4 + v1 / 16];
    if v2 >= 0 { g := g + [v1 % 16 * 16 + v2 / 4]; }
    if v3 >= 0 { g := g + [v2 % 4 * 64 + v3]; }
    assert s[i..][4..] == s[i + 4..];
    ok := true;
  }

  /** Defined on any input; on an encoding it gives back what was encoded. */
  method Base64UrlDecode(input: seq<octet>) returns (result: seq<octet>)
    ensures result == Decoded(input)
    ensures forall data :: input == Encoded(data) ==> result == data
  {
    var s := RewriteBack(input);
    s := Fill(s);
    result := [];
    var i := 0;
    assert s[0..] == s;
    while i + 3 < |s|
      invariant 0 <= i <= |s|
      invariant result + DecodedGroups(s[i..]) == DecodedGroups(s)
    {
      var ok, g := DecodeGroup(s, i);
      if !ok { break; }
      assert result + (g + DecodedGroups(s[i + 4..])) == (result + g) + DecodedGroups(s[i + 4..]);
      result := result + g;
      i := i + 4;
    }
    forall data | input == Encoded(data) ensures result == data { RoundTrip(data); }
  }
}
