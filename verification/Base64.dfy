/**
 `Base64::Encode` and `Base64::Decode`, with the shifts and masks of the code on bit
 vectors. The reference they are held against is section 4 of RFC 4648 read literally: the
 bytes as one string of bits, cut into groups of six, zero bits to fill the last group,
 and `=` up to a multiple of four characters.
 */
module Base64 {

  const UPPER := "ABCDEFGHIJKLMNOPQRSTUVWXYZ"
  const LOWER := "abcdefghijklmnopqrstuvwxyz"
  const REST := "0123456789+/"

  /** The encoding table, by its ranges. */
  function Symbol(v: nat): char
    requires v < 64
  {
    if v < 26 then ('A' as int + v) as char
    else if v < 52 then ('a' as int + v - 26) as char
    else if v < 62 then ('0' as int + v - 52) as char
    else if v == 62 then '+' else '/'
  }

  /** The entry of the decoding table: 64 marks a character outside the alphabet. */
  function Value(c: char): (v: nat)
    ensures v <= 64
  {
    if 'A' <= c <= 'Z' then c as int - 'A' as int
    else if 'a' <= c <= 'z' then c as int - 'a' as int + 26
    else if '0' <= c <= '9' then c as int - '0' as int + 52
    else if c == '+' then 62 else if c == '/' then 63 else 64
  }

  predicate IsSymbol(c: char) {
    Value(c) < 64
  }

  /** What a character stands for in `Decode`: `=` stands for zero bits. */
  function Digit(c: char): bv8 {
    if c == '=' then 0 else Value(c) as bv8
  }

  /** The ranges are the table of the source, character by character. */
  lemma SymbolsAreTheTable(k: nat)
    ensures k < 26 ==> UPPER[k] == Symbol(k) && LOWER[k] == Symbol(26 + k)
    ensures k < 12 ==> REST[k] == Symbol(52 + k)
  {
  }

  /** The two tables are inverse to each other, and `=` is in neither. */
  lemma TablesInvert(v: nat, c: char)
    ensures v < 64 ==> IsSymbol(Symbol(v)) && Value(Symbol(v)) == v && Symbol(v) != '='
    ensures IsSymbol(c) ==> Symbol(Value(c)) == c && c != '='
  {
  }

  // ----- Strings of bits -----

  /** Bit `k` of a byte, the most significant first. */
  predicate BitAt(b: bv8, k: nat)
    requires k < 8
  {
    if k == 0 then b & 128 != 0 else if k == 1 then b & 64 != 0
    else if k == 2 then b & 32 != 0 else if k == 3 then b & 16 != 0
    else if k == 4 then b & 8 != 0 else if k == 5 then b & 4 != 0
    else if k == 6 then b & 2 != 0 else b & 1 != 0
  }

  function Bits(b: bv8): (r: seq<bool>)
    ensures |r| == 8
  {
    seq(8, k requires 0 <= k < 8 => BitAt(b, k))
  }

  /** The low six bits. */
  function SixBits(v: bv8): (r: seq<bool>)
    ensures |r| == 6
  {
    seq(6, k requires 0 <= k < 6 => BitAt(v, k + 2))
  }

  function Bit(b: bool): nat {
    if b then 1 else 0
  }

  function Sextet(s: seq<bool>): (v: nat)
    requires |s| == 6
    ensures v < 64
  {
    32 * Bit(s[0]) + 16 * Bit(s[1]) + 8 * Bit(s[2]) + 4 * Bit(s[3]) + 2 * Bit(s[4]) + Bit(s[5])
  }

  function Zeros(n: nat): (r: seq<bool>)
    ensures |r| == n && forall k :: 0 <= k < n ==> !r[k]
  {
    seq(n, _ => false)
  }

  function BitString(x: seq<bv8>): (r: seq<bool>)
    ensures |r| == 8 * |x|
  {
    if x == [] then [] else Bits(x[0]) + BitString(x[1..])
  }

  function DigitBits(s: string): (r: seq<bool>)
    ensures |r| == 6 * |s|
  {
    if s == [] then [] else SixBits(Digit(s[0])) + DigitBits(s[1..])
  }

  // ----- The reference encoding -----

  function FillTo6(bits: seq<bool>): (r: seq<bool>)
    ensures |r| % 6 == 0 && bits <= r && |r| - |bits| < 6
  {
    bits + Zeros((6 - |bits| % 6) % 6)
  }

  function Digits(bits: seq<bool>): (s: string)
    requires |bits| % 6 == 0
    ensures 6 * |s| == |bits|
  {
    if bits == [] then [] else [Symbol(Sextet(bits[..6]))] + Digits(bits[6..])
  }

  function Padding(n: nat): (s: string)
    ensures |s| == n && forall k :: 0 <= k < n ==> s[k] == '='
  {
    seq(n, _ => '=')
  }

  function Padded(d: string): (s: string)
    ensures |s| % 4 == 0 && d <= s && |s| - |d| < 4
  {
    d + Padding((4 - |d| % 4) % 4)
  }

  /** Section 4 of RFC 4648. */
  function Rfc4648(x: seq<bv8>): string {
    Padded(Digits(FillTo6(BitString(x))))
  }

  lemma LengthOfEncoding(x: seq<bv8>)
    ensures |Rfc4648(x)| == 4 * ((|x| + 2) / 3)
  {
  }

  // ----- Encode -----

  /** The four index expressions of the loop body. */
  function First(b0: bv8): bv8 { (b0 >> 2) & 0x3F }
  function Second(b0: bv8, b1: bv8): bv8 { ((b0 & 0x3) << 4) | ((b1 & 0xF0) >> 4) }
  function Third(b1: bv8, b2: bv8): bv8 { ((b1 & 0xF) << 2) | ((b2 & 0xC0) >> 6) }
  function Fourth(b2: bv8): bv8 { b2 & 0x3F }

  lemma IndexesAreSmall(b0: bv8, b1: bv8)
    ensures First(b0) < 64 && Second(b0, b1) < 64 && Third(b0, b1) < 64 && Fourth(b0) < 64
  {
  }

  lemma SextetOfSixBits(v: bv8)
    requires v < 64
    ensures Sextet(SixBits(v)) == v as int < 64
  {
  }

  lemma NarrowAndBack(v: nat)
    requires v < 64
    ensures (v as bv8) < 64 && (v as bv8) as int == v
  {
  }

  lemma SextetInjective(s: seq<bool>, t: seq<bool>)
    requires |s| == |t| == 6 && Sextet(s) == Sextet(t)
    ensures s == t
  {
    assert s[0] == t[0] && s[1] == t[1] && s[2] == t[2];
  }

  lemma SixBitsOfSextet(s: seq<bool>)
    requires |s| == 6
    ensures SixBits(Sextet(s) as bv8) == s
  {
    NarrowAndBack(Sextet(s));
    SextetOfSixBits(Sextet(s) as bv8);
    SextetInjective(s, SixBits(Sextet(s) as bv8));
  }

  lemma FirstBits(b0: bv8)
    ensures SixBits(First(b0)) == Bits(b0)[..6]
  {
  }

  lemma SecondBits(b0: bv8, b1: bv8)
    ensures SixBits(Second(b0, b1)) == Bits(b0)[6..] + Bits(b1)[..4]
  {
  }

  lemma ThirdBits(b1: bv8, b2: bv8)
    ensures SixBits(Third(b1, b2)) == Bits(b1)[4..] + Bits(b2)[..2]
  {
  }

  lemma FourthBits(b2: bv8)
    ensures SixBits(Fourth(b2)) == Bits(b2)[2..]
  {
  }

  /** Three bytes and the four indexes taken from them are the same 24 bits. */
  lemma SameBits(b0: bv8, b1: bv8, b2: bv8)
    ensures Bits(b0) + Bits(b1) + Bits(b2) ==
      SixBits(First(b0)) + SixBits(Second(b0, b1)) + SixBits(Third(b1, b2)) + SixBits(Fourth(b2))
  {
    FirstBits(b0);
    SecondBits(b0, b1);
    ThirdBits(b1, b2);
    FourthBits(b2);
    Resplit(Bits(b0), Bits(b1), Bits(b2));
  }

  lemma Resplit(a: seq<bool>, b: seq<bool>, c: seq<bool>)
    requires |a| == |b| == |c| == 8
    ensures a + b + c == a[..6] + (a[6..] + b[..4]) + (b[4..] + c[..2]) + c[2..]
  {
  }

  lemma DigitsHead(six: seq<bool>, bits: seq<bool>)
    requires |six| == 6 && |bits| % 6 == 0
    ensures Digits(six + bits) == [Symbol(Sextet(six))] + Digits(bits)
  {
    assert (six + bits)[..6] == six;
    assert (six + bits)[6..] == bits;
  }

  lemma Prepend(c: char, rest: string, d: char, t: string)
    requires rest == [d] + t
    ensures [c] + rest == [c, d] + t
  {
  }

  lemma OneMoreSextet(n: nat)
    requires n % 6 == 0
    ensures (6 + n) % 6 == 0
  {
  }

  lemma TwoHeads(s0: seq<bool>, s1: seq<bool>, bits: seq<bool>)
    requires |s0| == |s1| == 6 && |bits| % 6 == 0
    ensures Digits(s0 + (s1 + bits)) == [Symbol(Sextet(s0)), Symbol(Sextet(s1))] + Digits(bits)
  {
    OneMoreSextet(|bits|);
    var rest := s1 + bits;
    DigitsHead(s0, rest);
    DigitsHead(s1, bits);
    Prepend(Symbol(Sextet(s0)), Digits(rest), Symbol(Sextet(s1)), Digits(bits));
  }

  lemma Prepend2(a: char, b: char, rest: string, c: char, d: char, t: string)
    requires rest == [c, d] + t
    ensures [a, b] + rest == [a, b, c, d] + t
  {
  }

  lemma TwoMoreSextets(n: nat)
    requires n % 6 == 0
    ensures (6 + (6 + n)) % 6 == 0
  {
  }

  lemma FourHeads(s0: seq<bool>, s1: seq<bool>, s2: seq<bool>, s3: seq<bool>, bits: seq<bool>)
    requires |s0| == |s1| == |s2| == |s3| == 6 && |bits| % 6 == 0
    ensures Digits(s0 + (s1 + (s2 + (s3 + bits)))) ==
      [Symbol(Sextet(s0)), Symbol(Sextet(s1)), Symbol(Sextet(s2)), Symbol(Sextet(s3))] + Digits(bits)
  {
    var rest := s2 + (s3 + bits);
    TwoMoreSextets(|bits|);
    TwoHeads(s2, s3, bits);
    TwoHeads(s0, s1, rest);
    Prepend2(Symbol(Sextet(s0)), Symbol(Sextet(s1)), Digits(rest),
             Symbol(Sextet(s2)), Symbol(Sextet(s3)), Digits(bits));
  }

  lemma Regroup(s0: seq<bool>, s1: seq<bool>, s2: seq<bool>, s3: seq<bool>, bits: seq<bool>)
    ensures s0 + s1 + s2 + s3 + bits == s0 + (s1 + (s2 + (s3 + bits)))
  {
  }

  function SymbolOf(v: bv8): char
    requires v < 64
  {
    Symbol(v as int)
  }

  function Group(b0: bv8, b1: bv8, b2: bv8): (s: string)
    ensures |s| == 4
  {
    IndexesAreSmall(b0, b1);
    IndexesAreSmall(b1, b2);
    IndexesAreSmall(b2, b2);
    [SymbolOf(First(b0)), SymbolOf(Second(b0, b1)), SymbolOf(Third(b1, b2)), SymbolOf(Fourth(b2))]
  }

  /** The bits of a group of three come first, and their four symbols too. */
  lemma PeelBits(b0: bv8, b1: bv8, b2: bv8, bits: seq<bool>)
    requires |bits| % 6 == 0
    ensures Digits(Bits(b0) + Bits(b1) + Bits(b2) + bits) == Group(b0, b1, b2) + Digits(bits)
  {
    IndexesAreSmall(b0, b1);
    IndexesAreSmall(b1, b2);
    IndexesAreSmall(b2, b2);
    SextetOfSixBits(First(b0));
    SextetOfSixBits(Second(b0, b1));
    SextetOfSixBits(Third(b1, b2));
    SextetOfSixBits(Fourth(b2));
    SameBits(b0, b1, b2);
    Regroup(SixBits(First(b0)), SixBits(Second(b0, b1)), SixBits(Third(b1, b2)), SixBits(Fourth(b2)), bits);
    FourHeads(SixBits(First(b0)), SixBits(Second(b0, b1)), SixBits(Third(b1, b2)), SixBits(Fourth(b2)), bits);
  }

  lemma Chain(b0: seq<bool>, b1: seq<bool>, b2: seq<bool>, r1: seq<bool>, r2: seq<bool>, r3: seq<bool>)
    requires r1 == b1 + r2 && r2 == b2 + r3
    ensures b0 + r1 == b0 + b1 + b2 + r3
  {
  }

  lemma FillAfter(bits: seq<bool>, rest: seq<bool>)
    requires |bits| % 6 == 0
    ensures FillTo6(bits + rest) == bits + FillTo6(rest)
  {
    SameRemainder(|bits|, |rest|);
    assert bits + rest + Zeros((6 - |rest| % 6) % 6) == bits + (rest + Zeros((6 - |rest| % 6) % 6));
  }

  lemma SameRemainder(n: nat, m: nat)
    requires n % 6 == 0
    ensures (n + m) % 6 == m % 6
  {
    WholeGroups(n / 6, m);
  }

  lemma WholeGroups(k: nat, m: nat)
    ensures (6 * k + m) % 6 == m % 6
  {
  }

  lemma BitsOfThree(x: seq<bv8>)
    requires |x| >= 3
    ensures BitString(x) == Bits(x[0]) + Bits(x[1]) + Bits(x[2]) + BitString(x[3..])
  {
    assert x[1..][1..] == x[2..] && x[2..][1..] == x[3..];
    Chain(Bits(x[0]), Bits(x[1]), Bits(x[2]), BitString(x[1..]), BitString(x[2..]), BitString(x[3..]));
  }

  /** One turn of the loop encodes one group and leaves the rest to be encoded. */
  lemma Peel(x: seq<bv8>)
    requires |x| >= 3
    ensures Rfc4648(x) == Group(x[0], x[1], x[2]) + Rfc4648(x[3..])
  {
    var rest := BitString(x[3..]);
    BitsOfThree(x);
    FillAfter(Bits(x[0]) + Bits(x[1]) + Bits(x[2]), rest);
    PeelBits(x[0], x[1], x[2], FillTo6(rest));
    PadAfter(Group(x[0], x[1], x[2]), Digits(FillTo6(rest)));
  }

  lemma PadAfter(group: string, d: string)
    requires |group| == 4
    ensures Padded(group + d) == group + Padded(d)
  {
  }

  lemma OneByte(b0: bv8)
    ensures Digits(FillTo6(BitString([b0]))) == Group(b0, 0, 0)[..2]
  {
    IndexesAreSmall(b0, 0);
    SextetOfSixBits(First(b0));
    SextetOfSixBits(Second(b0, 0));
    FirstBits(b0);
    SecondBits(b0, 0);
    assert BitString([b0]) == Bits(b0);
    assert Bits(0)[..4] == Zeros(4);
    FillOne(Bits(b0));
    TwoHeads(SixBits(First(b0)), SixBits(Second(b0, 0)), []);
  }

  lemma FillOne(bits: seq<bool>)
    requires |bits| == 8
    ensures FillTo6(bits) == bits[..6] + (bits[6..] + Zeros(4) + [])
  {
  }

  lemma TwoBytes(b0: bv8, b1: bv8)
    ensures Digits(FillTo6(BitString([b0, b1]))) == Group(b0, b1, 0)[..3]
  {
    IndexesAreSmall(b0, b1);
    IndexesAreSmall(b1, 0);
    SextetOfSixBits(First(b0));
    SextetOfSixBits(Second(b0, b1));
    SextetOfSixBits(Third(b1, 0));
    TwoBytesFilled(b0, b1);
    ThreeHeads(SixBits(First(b0)), SixBits(Second(b0, b1)), SixBits(Third(b1, 0)));
  }

  lemma ThreeHeads(s0: seq<bool>, s1: seq<bool>, s2: seq<bool>)
    requires |s0| == |s1| == |s2| == 6
    ensures Digits(s0 + (s1 + (s2 + []))) == [Symbol(Sextet(s0)), Symbol(Sextet(s1)), Symbol(Sextet(s2))]
  {
    TwoHeads(s1, s2, []);
    DigitsHead(s0, s1 + (s2 + []));
  }

  lemma TwoBytesFilled(b0: bv8, b1: bv8)
    ensures FillTo6(BitString([b0, b1])) ==
      SixBits(First(b0)) + (SixBits(Second(b0, b1)) + (SixBits(Third(b1, 0)) + []))
  {
    FirstBits(b0);
    SecondBits(b0, b1);
    ThirdBits(b1, 0);
    assert [b0, b1][1..] == [b1] && BitString([b1]) == Bits(b1);
    assert Bits(0)[..2] == Zeros(2);
    FillTwo(Bits(b0), Bits(b1));
  }

  lemma FillTwo(a: seq<bool>, b: seq<bool>)
    requires |a| == |b| == 8
    ensures FillTo6(a + b) == a[..6] + (a[6..] + b[..4] + (b[4..] + Zeros(2) + []))
  {
  }

  /** The end of the input: one byte or two, with zero bits in place of the missing ones. */
  lemma Tail(x: seq<bv8>)
    requires |x| <= 2
    ensures Rfc4648(x) ==
      if x == [] then ""
      else if |x| == 1 then Group(x[0], 0, 0)[..2] + "=="
      else Group(x[0], x[1], 0)[..3] + "="
  {
    if |x| == 1 {
      assert x == [x[0]];
      OneByte(x[0]);
      PadTwo(Group(x[0], 0, 0)[..2]);
    } else if |x| == 2 {
      assert x == [x[0], x[1]];
      TwoBytes(x[0], x[1]);
      PadOne(Group(x[0], x[1], 0)[..3]);
    }
  }

  lemma PadTwo(d: string)
    requires |d| == 2
    ensures Padded(d) == d + "=="
  {
    assert Padding(2) == "==";
  }

  lemma PadOne(d: string)
    requires |d| == 3
    ensures Padded(d) == d + "="
  {
    assert Padding(1) == "=";
  }

  /** With no second or third byte the code masks and shifts only the first one or two. */
  lemma MissingBytes(b: bv8)
    ensures (b & 0x3) << 4 == Second(b, 0) < 64
    ensures (b & 0xF) << 2 == Third(b, 0) < 64
  {
  }

  lemma Advance(all: string, before: string, group: string, rest: string, after: string)
    requires all == before + (group + rest) && after == before + group
    ensures all == after + rest
  {
  }

  /** The body of the loop. */
  method EncodeGroup(b0: bv8, b1: bv8, b2: bv8, ret: array<char>, outIdx: nat)
    requires outIdx + 4 <= ret.Length
    modifies ret
    ensures ret[..outIdx + 4] == old(ret[..outIdx]) + Group(b0, b1, b2)
  {
    IndexesAreSmall(b0, b1);
    IndexesAreSmall(b1, b2);
    IndexesAreSmall(b2, b2);
    ret[outIdx] := SymbolOf((b0 >> 2) & 0x3F);
    ret[outIdx + 1] := SymbolOf(((b0 & 0x3) << 4) | ((b1 & 0xF0) >> 4));
    ret[outIdx + 2] := SymbolOf(((b1 & 0xF) << 2) | ((b2 & 0xC0) >> 6));
    ret[outIdx + 3] := SymbolOf(b2 & 0x3F);
  }

  /** What follows the loop: the last byte or the last two. */
  method EncodeTail(last: seq<bv8>, ret: array<char>, outIdx: nat)
    requires 1 <= |last| <= 2 && outIdx + 4 == ret.Length
    modifies ret
    ensures ret[..] == old(ret[..outIdx]) + Rfc4648(last)
  {
    Tail(last);
    MissingBytes(last[0]);
    IndexesAreSmall(last[0], 0);
    ret[outIdx] := SymbolOf((last[0] >> 2) & 0x3F);
    if |last| == 1 {
      ret[outIdx + 1] := SymbolOf((last[0] & 0x3) << 4);
      ret[outIdx + 2] := '=';
    } else {
      MissingBytes(last[1]);
      IndexesAreSmall(last[0], last[1]);
      ret[outIdx + 1] := SymbolOf(((last[0] & 0x3) << 4) | ((last[1] & 0xF0) >> 4));
      ret[outIdx + 2] := SymbolOf((last[1] & 0xF) << 2);
    }
    ret[outIdx + 3] := '=';
    assert ret[..] == ret[..outIdx] + [ret[outIdx], ret[outIdx + 1], ret[outIdx + 2], ret[outIdx + 3]];
  }

  /** `Encode`, for at least two bytes. */
  method Encode(bin: seq<bv8>) returns (r: string)
    requires |bin| >= 2
    ensures r == Rfc4648(bin)
  {
    var ret := new char[4 * ((|bin| + 2) / 3)](_ => '\0');
    var i, outIdx := 0, 0;
    LengthOfEncoding(bin);
    assert bin[0..] == bin;
    while i < |bin| - 2
      invariant 0 <= i <= |bin| && i % 3 == 0 && outIdx == i / 3 * 4
      invariant outIdx <= ret.Length && Rfc4648(bin) == ret[..outIdx] + Rfc4648(bin[i..])
    {
      ghost var before, rest := ret[..outIdx], bin[i..];
      Peel(rest);
      EncodeGroup(bin[i], bin[i + 1], bin[i + 2], ret, outIdx);
      Advance(Rfc4648(bin), before, Group(bin[i], bin[i + 1], bin[i + 2]), Rfc4648(rest[3..]), ret[..outIdx + 4]);
      assert rest[3..] == bin[i + 3..];
      i, outIdx := i + 3, outIdx + 4;
    }
    Tail(bin[i..]);
    if i < |bin| {
      LengthOfEncoding(bin[i..]);
      EncodeTail(bin[i..], ret, outIdx);
    }
    r := ret[..];
  }
}
