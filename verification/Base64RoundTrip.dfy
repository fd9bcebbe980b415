/**
 `Encode` and `Decode` against each other, through the strings of bits that both sides
 stand for.
 */
module Base64RoundTrip {
  import opened Base64
  import opened Base64Decoding

  predicate Readable(s: string) {
    forall k :: 0 <= k < |s| ==> IsSymbol(s[k]) || s[k] == '='
  }

  // ----- Decoding keeps the bits -----

  lemma TripleBytes(a: bv8, b: bv8, c: bv8, d: bv8)
    requires a < 64 && b < 64 && c < 64 && d < 64
    ensures var t := Triple(a as bv32, b as bv32, c as bv32, d as bv32);
      && Octet(t, 0) == (a << 2) | (b >> 4)
      && Octet(t, 1) == (b << 4) | (c >> 2)
      && Octet(t, 2) == (c << 6) | d
  {
  }

  lemma FirstByteBits(a: bv8, b: bv8)
    requires a < 64 && b < 64
    ensures Bits((a << 2) | (b >> 4)) == SixBits(a) + SixBits(b)[..2]
  {
  }

  lemma SecondByteBits(b: bv8, c: bv8)
    requires b < 64 && c < 64
    ensures Bits((b << 4) | (c >> 2)) == SixBits(b)[2..] + SixBits(c)[..4]
  {
  }

  lemma ThirdByteBits(c: bv8, d: bv8)
    requires c < 64 && d < 64
    ensures Bits((c << 6) | d) == SixBits(c)[4..] + SixBits(d)
  {
  }

  lemma Resplit4(a: seq<bool>, b: seq<bool>, c: seq<bool>, d: seq<bool>)
    requires |a| == |b| == |c| == |d| == 6
    ensures (a + b[..2]) + (b[2..] + c[..4]) + (c[4..] + d) == a + (b + (c + d))
  {
  }

  lemma DigitIsSmall(c: char)
    requires IsSymbol(c) || c == '='
    ensures Digit(c) < 64
    ensures IsSymbol(c) ==> Digit(c) as int == Value(c)
  {
    if IsSymbol(c) {
      NarrowAndBack(Value(c));
    }
  }

  lemma DigitsOfFour(g: string)
    requires |g| == 4
    ensures DigitBits(g) == SixBits(Digit(g[0])) + (SixBits(Digit(g[1])) +
      (SixBits(Digit(g[2])) + SixBits(Digit(g[3]))))
  {
    var g1, g2, g3 := g[1..], g[2..], g[3..];
    assert g1[1..] == g2 && g2[1..] == g3 && g3[1..] == "";
    assert DigitBits(g3) == SixBits(Digit(g3[0]));
    assert DigitBits(g2) == SixBits(Digit(g2[0])) + DigitBits(g3);
    assert DigitBits(g1) == SixBits(Digit(g1[0])) + DigitBits(g2);
  }

  lemma GroupKeepsBits(g: string)
    requires |g| == 4 && Readable(g)
    ensures BitString(Three(g)) == DigitBits(g)
  {
    DigitIsSmall(g[0]);
    DigitIsSmall(g[1]);
    DigitIsSmall(g[2]);
    DigitIsSmall(g[3]);
    TripleBytes(Digit(g[0]), Digit(g[1]), Digit(g[2]), Digit(g[3]));
    DigitsOfFour(g);
    BitsOfFour(Digit(g[0]), Digit(g[1]), Digit(g[2]), Digit(g[3]));
  }

  lemma BitsOfFour(a: bv8, b: bv8, c: bv8, d: bv8)
    requires a < 64 && b < 64 && c < 64 && d < 64
    ensures BitString([(a << 2) | (b >> 4), (b << 4) | (c >> 2), (c << 6) | d]) ==
      SixBits(a) + (SixBits(b) + (SixBits(c) + SixBits(d)))
  {
    BitsOfBytes((a << 2) | (b >> 4), (b << 4) | (c >> 2), (c << 6) | d);
    FirstByteBits(a, b);
    SecondByteBits(b, c);
    ThirdByteBits(c, d);
    Resplit4(SixBits(a), SixBits(b), SixBits(c), SixBits(d));
  }

  lemma BitsOfBytes(x: bv8, y: bv8, z: bv8)
    ensures BitString([x, y, z]) == Bits(x) + Bits(y) + Bits(z)
  {
    BitsOfThree([x, y, z]);
    assert [x, y, z][3..] == [];
  }

  lemma {:induction false} BitStringAppend(x: seq<bv8>, y: seq<bv8>)
    ensures BitString(x + y) == BitString(x) + BitString(y)
  {
    if x == [] {
      assert x + y == y;
    } else {
      assert (x + y)[1..] == x[1..] + y;
      BitStringAppend(x[1..], y);
      Regroup3(Bits(x[0]), BitString(x[1..]), BitString(y));
    }
  }

  lemma Regroup3(a: seq<bool>, b: seq<bool>, c: seq<bool>)
    ensures a + (b + c) == a + b + c
  {
  }

  lemma {:induction false} DigitBitsAppend(s: string, t: string)
    ensures DigitBits(s + t) == DigitBits(s) + DigitBits(t)
  {
    if s == "" {
      assert s + t == t;
    } else {
      assert (s + t)[1..] == s[1..] + t;
      DigitBitsAppend(s[1..], t);
      Regroup3(SixBits(Digit(s[0])), DigitBits(s[1..]), DigitBits(t));
    }
  }

  /** Decoding keeps the bits: what `Decode` stores, before it is cut to length, is the
      string of bits that the characters stand for. */
  lemma {:induction false} OctetsKeepBits(s: string)
    requires |s| % 4 == 0 && Readable(s)
    ensures BitString(Octets(s)) == DigitBits(s)
  {
    if s != "" {
      assert s == s[..4] + s[4..];
      GroupKeepsBits(s[..4]);
      OctetsKeepBits(s[4..]);
      BitStringAppend(Three(s[..4]), Octets(s[4..]));
      DigitBitsAppend(s[..4], s[4..]);
    }
  }

  // ----- Strings of bits read back -----

  lemma SameByte(b: bv8, c: bv8)
    requires Bits(b) == Bits(c)
    ensures b == c
  {
    assert forall k :: 0 <= k < 8 ==> Bits(b)[k] == BitAt(b, k);
    assert forall k :: 0 <= k < 8 ==> Bits(c)[k] == BitAt(c, k);
    SameBitsSameByte(b, c);
  }

  lemma SameBitsSameByte(b: bv8, c: bv8)
    requires BitAt(b, 0) == BitAt(c, 0) && BitAt(b, 1) == BitAt(c, 1) && BitAt(b, 2) == BitAt(c, 2)
    requires BitAt(b, 3) == BitAt(c, 3) && BitAt(b, 4) == BitAt(c, 4) && BitAt(b, 5) == BitAt(c, 5)
    requires BitAt(b, 6) == BitAt(c, 6) && BitAt(b, 7) == BitAt(c, 7)
    ensures b == c
  {
  }

  lemma {:induction false} SameBitsSameBytes(x: seq<bv8>, y: seq<bv8>)
    requires BitString(x) == BitString(y)
    ensures x == y
  {
    if x != [] {
      assert BitString(x)[..8] == Bits(x[0]) && BitString(y)[..8] == Bits(y[0]);
      SameByte(x[0], y[0]);
      assert BitString(x)[8..] == BitString(x[1..]) && BitString(y)[8..] == BitString(y[1..]);
      SameBitsSameBytes(x[1..], y[1..]);
    }
  }

  lemma BitsOfPrefix(x: seq<bv8>, n: nat)
    requires n <= |x|
    ensures BitString(x[..n]) == BitString(x)[..8 * n]
  {
    assert x == x[..n] + x[n..];
    BitStringAppend(x[..n], x[n..]);
  }

  predicate AllSymbols(s: string) {
    forall k :: 0 <= k < |s| ==> IsSymbol(s[k])
  }

  /** Writing bits in the alphabet and reading them back. */
  lemma {:induction false} DigitsReadBack(bits: seq<bool>)
    requires |bits| % 6 == 0
    ensures AllSymbols(Digits(bits)) && DigitBits(Digits(bits)) == bits
  {
    if bits != [] {
      var v := Sextet(bits[..6]);
      DigitsReadBack(bits[6..]);
      TablesInvert(v, Symbol(v));
      SixBitsOfSextet(bits[..6]);
      assert Digits(bits)[1..] == Digits(bits[6..]);
      assert bits == bits[..6] + bits[6..];
    }
  }

  /** Reading characters of the alphabet and writing them back. */
  lemma {:induction false} SymbolsWrittenBack(s: string)
    requires AllSymbols(s)
    ensures Digits(DigitBits(s)) == s
  {
    if s != "" {
      TablesInvert(0, s[0]);
      DigitIsSmall(s[0]);
      SextetOfSixBits(Digit(s[0]));
      SymbolsWrittenBack(s[1..]);
      DigitsHead(SixBits(Digit(s[0])), DigitBits(s[1..]));
    }
  }

  // ----- The round trips -----

  /** How many `=` end the string. */
  function Pads(s: string): (p: nat)
    ensures p <= |s| && p <= 2
  {
    if |s| >= 2 && s[|s| - 1] == '=' && s[|s| - 2] == '=' then 2
    else if |s| >= 1 && s[|s| - 1] == '=' then 1
    else 0
  }

  lemma PadsOf(core: string, p: nat)
    requires AllSymbols(core) && core != "" && p <= 2
    ensures var s := core + Padding(p);
      Pads(s) == p && s[..|s| - p] == core && Readable(s)
  {
    var s := core + Padding(p);
    assert s[|core| - 1] == core[|core| - 1] != '=';
    assert forall k :: |core| <= k < |s| ==> s[k] == '=';
    assert forall k :: 0 <= k < |core| ==> s[k] == core[k];
  }

  lemma OutLenByPads(s: string)
    requires |s| > 0 && |s| % 4 == 0 && AllSymbols(s[..|s| - Pads(s)])
    ensures OutLen(s) == |s| / 4 * 3 - Pads(s)
  {
    if Pads(s) == 0 {
      assert s[..|s|] == s;
      assert IsSymbol(s[|s| - 1]) && IsSymbol(s[|s| - 2]);
    }
  }

  lemma PaddingLength(n: nat, d: nat, p: nat)
    requires 6 * d == 8 * n + (6 - 8 * n % 6) % 6 && p == (4 - d % 4) % 4 && n > 0
    ensures (d + p) / 4 * 3 - p == n && p <= 2 && d > 0 && (d + p) % 4 == 0
  {
  }

  /** An encoding is its bits in the alphabet, filled up to six, and at most two `=`. */
  lemma Shape(x: seq<bv8>) returns (core: string, p: nat)
    requires x != []
    ensures Rfc4648(x) == core + Padding(p) && AllSymbols(core) && core != "" && p <= 2
    ensures DigitBits(core) == FillTo6(BitString(x))
    ensures (|core| + p) / 4 * 3 - p == |x| && (|core| + p) % 4 == 0
  {
    core := Digits(FillTo6(BitString(x)));
    p := (4 - |core| % 4) % 4;
    PaddingLength(|x|, |core|, p);
    DigitsReadBack(FillTo6(BitString(x)));
  }

  /** An encoding names the number of bytes it holds by its padding. */
  lemma EncodingTellsLength(x: seq<bv8>)
    requires x != []
    ensures Rfc4648(x) != "" && OutLen(Rfc4648(x)) == |x|
  {
    var core, p := Shape(x);
    PadsOf(core, p);
    OutLenByPads(core + Padding(p));
  }

  lemma EncodingBits(x: seq<bv8>)
    requires x != []
    ensures Readable(Rfc4648(x)) && BitString(x) <= DigitBits(Rfc4648(x))
  {
    var core, p := Shape(x);
    PadsOf(core, p);
    DigitBitsAppend(core, Padding(p));
  }

  /** Round trip: decoding an encoding gives the bytes back, for every byte string but the
      empty one, whose encoding `Decode` cannot be given. */
  lemma DecodeOfEncode(x: seq<bv8>)
    requires x != []
    ensures Rfc4648(x) != "" && Decoded(Rfc4648(x)) == x
  {
    var s := Rfc4648(x);
    EncodingTellsLength(x);
    EncodingBits(x);
    OctetsKeepBits(s);
    BitsOfPrefix(Octets(s), |x|);
    assert BitString(Octets(s)[..|x|]) == BitString(x);
    SameBitsSameBytes(Octets(s)[..|x|], x);
  }

  /** Section 3.5 of RFC 4648: groups of four from the alphabet, at most two `=` and only at
      the end, and no bit set that belongs to no byte. */
  predicate Canonical(s: string) {
    && s != "" && |s| % 4 == 0
    && var core := s[..|s| - Pads(s)];
      AllSymbols(core)
      && forall k :: 8 * (|s| / 4 * 3 - Pads(s)) <= k < 6 * |core| ==> !DigitBits(core)[k]
  }

  lemma EncodingIsCanonical(x: seq<bv8>)
    requires x != []
    ensures Canonical(Rfc4648(x))
  {
    var core, p := Shape(x);
    PadsOf(core, p);
  }

  lemma FillUndoesCut(bits: seq<bool>, n: nat)
    requires |bits| % 6 == 0 && n <= |bits| < n + 6
    requires forall k :: n <= k < |bits| ==> !bits[k]
    ensures FillTo6(bits[..n]) == bits
  {
  }

  lemma CutLength(len: nat, p: nat)
    requires len % 4 == 0 && len > 0 && p <= 2
    ensures var n := len / 4 * 3 - p;
      0 <= 8 * n <= 6 * (len - p) < 8 * n + 6 && (4 - (len - p) % 4) % 4 == p
  {
  }

  lemma DecodedBits(core: string, p: nat, n: nat)
    requires AllSymbols(core) && (|core| + p) % 4 == 0 && n <= (|core| + p) / 4 * 3 && 8 * n <= 6 * |core|
    ensures BitString(Octets(core + Padding(p))[..n]) == DigitBits(core)[..8 * n]
  {
    var s := core + Padding(p);
    assert Readable(s);
    OctetsKeepBits(s);
    BitsOfPrefix(Octets(s), n);
    DigitBitsAppend(core, Padding(p));
    PrefixOfFirst(DigitBits(core), DigitBits(Padding(p)), 8 * n);
  }

  lemma PrefixOfFirst(a: seq<bool>, b: seq<bool>, m: nat)
    requires m <= |a|
    ensures (a + b)[..m] == a[..m]
  {
  }

  lemma CoreRefills(core: string, p: nat, n: nat, m: nat)
    requires AllSymbols(core) && (|core| + p) % 4 == 0 && n <= (|core| + p) / 4 * 3
    requires m == 8 * n <= |DigitBits(core)| < m + 6
    requires forall k :: m <= k < |DigitBits(core)| ==> !DigitBits(core)[k]
    ensures FillTo6(BitString(Octets(core + Padding(p))[..n])) == DigitBits(core)
  {
    WholeSextets(|core|);
    FillUndoesCut(DigitBits(core), m);
    DecodedBits(core, p, n);
  }

  lemma PaddedIs(core: string, p: nat)
    requires p == (4 - |core| % 4) % 4
    ensures Padded(core) == core + Padding(p)
  {
  }

  lemma CoreEncodes(core: string, p: nat, n: nat)
    requires AllSymbols(core) && (|core| + p) % 4 == 0 && n <= (|core| + p) / 4 * 3
    requires 8 * n <= 6 * |core| < 8 * n + 6 && p == (4 - |core| % 4) % 4
    requires forall k :: 8 * n <= k < 6 * |core| ==> !DigitBits(core)[k]
    ensures Rfc4648(Octets(core + Padding(p))[..n]) == core + Padding(p)
  {
    CoreRefills(core, p, n, 8 * n);
    SymbolsWrittenBack(core);
    PaddedIs(core, p);
  }

  lemma WholeSextets(n: nat)
    ensures (6 * n) % 6 == 0
  {
  }

  lemma CanonicalEncodes(s: string)
    requires Canonical(s)
    ensures Rfc4648(Decoded(s)) == s
  {
    var p := Pads(s);
    var core, n := s[..|s| - p], |s| / 4 * 3 - p;
    CutLength(|s|, p);
    assert s == core + Padding(p);
    CoreEncodes(core, p, n);
    OutLenByPads(s);
  }

  /** Round trip the other way, and exactly when: encoding what `Decode` makes of a string
      gives the string back if and only if it is canonical. */
  lemma EncodeOfDecodeIff(s: string)
    requires s != ""
    ensures Rfc4648(Decoded(s)) == s <==> Canonical(s)
  {
    if Canonical(s) {
      CanonicalEncodes(s);
    }
    if Rfc4648(Decoded(s)) == s {
      Tail([]);
      EncodingIsCanonical(Decoded(s));
    }
  }

  /** So no two canonical strings decode alike. */
  lemma CanonicalIsUnique(s: string, t: string)
    requires Canonical(s) && Canonical(t) && Decoded(s) == Decoded(t)
    ensures s == t
  {
    CanonicalEncodes(s);
    CanonicalEncodes(t);
  }

  // ----- What is not reported, and what must be asked of callers -----

  /** The empty answer means a wrong length and nothing else: characters outside the
      alphabet and misplaced `=` go unreported. */
  lemma OnlyLengthIsReported(s: string)
    requires s != ""
    ensures Decoded(s) == [] <==> |s| % 4 != 0
  {
  }

  const SIZE_RANGE: nat := 0x1_0000_0000_0000_0000

  /** The guard of the loop of `Encode`, in the unsigned arithmetic of `size_t`. */
  predicate LoopGuard(i: int, len: int) {
    i < (len - 2) % SIZE_RANGE
  }

  /** The loop stays inside its input exactly when there are at least two bytes: with none
      or one the bound wraps around and the first turn reads past the end. */
  lemma EncodeStaysInsideIff(len: nat)
    requires len < SIZE_RANGE
    ensures (forall i: nat :: LoopGuard(i, len) ==> i + 2 < len) <==> len >= 2
  {
    if len < 2 {
      assert LoopGuard(0, len);
    }
  }
}
