/** `Base64::Decode`: four characters at a time into three octets, cut at the padding. */
module Base64Decoding {
  import opened Base64

  function Triple(a: bv32, b: bv32, c: bv32, d: bv32): bv32 {
    (a << 18) + (b << 12) + (c << 6) + d
  }

  /** The three bytes stored for a group of four characters. */
  function Octet(t: bv32, k: nat): bv8
    requires k < 3
  {
    if k == 0 then ((t >> 16) & 0xFF) as bv8 else if k == 1 then ((t >> 8) & 0xFF) as bv8 else (t & 0xFF) as bv8
  }

  function TripleOf(s: string): bv32
    requires |s| == 4
  {
    Triple(Digit(s[0]) as bv32, Digit(s[1]) as bv32, Digit(s[2]) as bv32, Digit(s[3]) as bv32)
  }

  function Three(group: string): (x: seq<bv8>)
    requires |group| == 4
    ensures |x| == 3
  {
    var t := TripleOf(group);
    [Octet(t, 0), Octet(t, 1), Octet(t, 2)]
  }

  function Octets(s: string): (x: seq<bv8>)
    requires |s| % 4 == 0
    ensures |x| == |s| / 4 * 3
  {
    if s == [] then [] else Three(s[..4]) + Octets(s[4..])
  }

  /** The length of the answer: one less for each `=` in the last two places. */
  function OutLen(s: string): (n: nat)
    requires |s| > 0 && |s| % 4 == 0
    ensures |s| / 4 * 3 - 2 <= n <= |s| / 4 * 3
  {
    |s| / 4 * 3 - (if s[|s| - 1] == '=' then 1 else 0) - (if s[|s| - 2] == '=' then 1 else 0)
  }

  function Decoded(s: string): seq<bv8>
    requires |s| > 0
  {
    if |s| % 4 != 0 then [] else Octets(s)[..OutLen(s)]
  }

  /** The table is indexed by the signed value of a `char`: only these are in range. */
  predicate InTable(c: char) {
    c as int < 128
  }

  /** One turn of the loop: four characters read, up to three bytes stored. */
  method DecodeGroup(group: string, out: array<bv8>, start: nat) returns (j: nat)
    requires |group| == 4 && start <= out.Length
    modifies out
    ensures j == if start + 3 <= out.Length then start + 3 else out.Length
    ensures out[..j] == (old(out[..start]) + Octets(group))[..j]
  {
    var t := Triple(Digit(group[0]) as bv32, Digit(group[1]) as bv32, Digit(group[2]) as bv32, Digit(group[3]) as bv32);
    OneGroup(group);
    j := StoreThree(((t >> 16) & 0xFF) as bv8, ((t >> 8) & 0xFF) as bv8, (t & 0xFF) as bv8, out, start);
  }

  /** Three stores, none of them past the end of the output. */
  method StoreThree(b0: bv8, b1: bv8, b2: bv8, out: array<bv8>, start: nat) returns (j: nat)
    requires start <= out.Length
    modifies out
    ensures j == if start + 3 <= out.Length then start + 3 else out.Length
    ensures out[..j] == (old(out[..start]) + [b0, b1, b2])[..j]
  {
    j := start;
    if j < out.Length {
      out[j] := b0;
      j := j + 1;
    }
    if j < out.Length {
      out[j] := b1;
      j := j + 1;
    }
    if j < out.Length {
      out[j] := b2;
      j := j + 1;
    }
  }

  lemma OneGroup(group: string)
    requires |group| == 4
    ensures Octets(group) == Three(group)
  {
    assert group[..4] == group && group[4..] == "";
  }

  lemma {:induction false} OctetsAppend(s: string, t: string)
    requires |s| % 4 == 0 && |t| % 4 == 0
    ensures Octets(s + t) == Octets(s) + Octets(t)
  {
    if s == "" {
      assert s + t == t;
    } else {
      assert (s + t)[..4] == s[..4] && (s + t)[4..] == s[4..] + t;
      OctetsAppend(s[4..], t);
      Regroup3(Three(s[..4]), Octets(s[4..]), Octets(t));
    }
  }

  lemma Regroup3(a: seq<bv8>, b: seq<bv8>, c: seq<bv8>)
    ensures a + (b + c) == a + b + c
  {
  }

  lemma NextGroup(input: string, i: nat)
    requires i + 4 <= |input| && i % 4 == 0
    ensures Octets(input[..i + 4]) == Octets(input[..i]) + Octets(input[i..i + 4])
  {
    assert input[..i + 4] == input[..i] + input[i..i + 4];
    OctetsAppend(input[..i], input[i..i + 4]);
  }

  lemma GroupFits(i: nat, n: nat)
    requires i % 4 == 0 && n % 4 == 0 && i < n
    ensures i + 4 <= n && (i + 4) % 4 == 0 && (i + 4) / 4 == i / 4 + 1
  {
  }

  /** Once the output is full nothing more is stored. */
  lemma TakeMore(a: seq<bv8>, g: seq<bv8>, before: nat, after: nat)
    requires (before == |a| && after <= |a| + |g|) || after == before <= |a|
    ensures (a[..before] + g)[..after] == (a + g)[..after]
  {
  }

  /** `Decode`: `i` runs over the input, `j` over the output. */
  method Decode(input: string) returns (r: seq<bv8>)
    requires |input| > 0 && forall k :: 0 <= k < |input| ==> InTable(input[k])
    ensures r == Decoded(input)
  {
    if |input| % 4 != 0 {
      return [];
    }
    var outLen := |input| / 4 * 3;
    if input[|input| - 1] == '=' {
      outLen := outLen - 1;
    }
    if input[|input| - 2] == '=' {
      outLen := outLen - 1;
    }
    var out := new bv8[outLen](_ => 0);
    r := DecodeGroups(input, out);
  }

  /** The loop of `Decode`, which fills the output however long it is. */
  method DecodeGroups(input: string, out: array<bv8>) returns (r: seq<bv8>)
    requires |input| % 4 == 0 && out.Length <= |input| / 4 * 3
    modifies out
    ensures r == Octets(input)[..out.Length]
  {
    var i, j := 0, 0;
    while i < |input|
      invariant 0 <= i <= |input| && i % 4 == 0
      invariant j == if i / 4 * 3 < out.Length then i / 4 * 3 else out.Length
      invariant out[..j] == Octets(input[..i])[..j]
    {
      GroupFits(i, |input|);
      NextGroup(input, i);
      ghost var before := j;
      j := DecodeGroup(input[i..i + 4], out, j);
      TakeMore(Octets(input[..i]), Octets(input[i..i + 4]), before, j);
      i := i + 4;
    }
    assert input[..i] == input;
    r := out[..];
  }
}
