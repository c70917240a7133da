/** src/tools.cpp: adlerChecksum, against the definition of section 8.2 of RFC 1950. */
module Adler {
  import opened Words

  const BASE := 65521
  const MAX_SIZE := 16384

  // ----- the definition: both sums reduced after every byte -----

  function Sum1(s: seq<U8>): (a: nat)
    ensures a < BASE
  {
    if s == [] then 1 else (Sum1(s[..|s| - 1]) + s[|s| - 1]) % BASE
  }

  function Sum2(s: seq<U8>): (b: nat)
    ensures b < BASE
  {
    if s == [] then 0 else (Sum2(s[..|s| - 1]) + Sum1(s)) % BASE
  }

  function Adler32(s: seq<U8>): (c: U32) { Sum2(s) * 0x1_0000 + Sum1(s) }

  // What the repository's function makes of it: empty and overlong input gives 0.
  function Checksum(s: seq<U8>): U32 {
    if 0 < |s| <= MAX_SIZE then Adler32(s) else 0
  }

  // ----- the blocked loop -----

  const BLOCK := 5552
  const LIMIT := 0x1_0000_0000

  // Twice the most b can be after k bytes of a block
  function Bound(k: nat): nat { 131040 * (k + 1) + 255 * (k * (k + 1)) }

  lemma BoundStep(k: nat)
    ensures Bound(k + 1) == Bound(k) + 131040 + 510 * (k + 1)
  {
    assert (k + 1) * (k + 2) == k * (k + 1) + 2 * (k + 1);
  }

  lemma ProductGrows(x: nat, y: nat, z: nat, w: nat)
    requires x <= y && z <= w
    ensures x * z <= y * w
  {
    assert x * z <= y * z && y * z <= y * w;
  }

  lemma BoundFits(k: nat)
    requires k <= BLOCK
    ensures Bound(k) < 2 * LIMIT
  {
    ProductGrows(k, BLOCK, k + 1, BLOCK + 1);
  }

  lemma ModAdd(x: nat, r: nat, y: nat)
    requires x % BASE == r
    ensures (x + y) % BASE == (r + y) % BASE
  {
  }

  lemma ModAddBoth(x: nat, r: nat, y: nat, t: nat)
    requires x % BASE == r && y % BASE == t
    ensures (x + y) % BASE == (r + t) % BASE
  {
    ModAdd(x, r, y);
    ModAdd(y, t, r);
  }

  // One byte more: the deferred sums stay congruent to the reduced ones.
  lemma SumStep(s: seq<U8>, n: nat, a: nat, b: nat)
    requires n < |s| && a % BASE == Sum1(s[..n]) && b % BASE == Sum2(s[..n])
    ensures (a + s[n]) % BASE == Sum1(s[..n + 1])
    ensures (b + (a + s[n])) % BASE == Sum2(s[..n + 1])
  {
    assert s[..n + 1][..n] == s[..n];
    ModAdd(a, Sum1(s[..n]), s[n]);
    ModAddBoth(b, Sum2(s[..n]), a + s[n], Sum1(s[..n + 1]));
  }

  // The inner loop, over one block of at most 5552 bytes. Both accumulators stay below 2^32, so that
  // the 32-bit additions of the source do not wrap around.
  method AddBlock(data: array<U8>, from: nat, n: nat, tmp0: nat, a0: nat, b0: nat, ghost s: seq<U8>)
    returns (a: nat, b: nat)
    requires 0 < tmp0 <= BLOCK && n + tmp0 <= |s| && from + |s| <= data.Length && s == data[from..from + |s|]
    requires a0 < BASE && b0 < BASE && a0 == Sum1(s[..n]) && b0 == Sum2(s[..n])
    ensures a < LIMIT && b < LIMIT
    ensures a % BASE == Sum1(s[..n + tmp0]) && b % BASE == Sum2(s[..n + tmp0])
  {
    hide Sum1, Sum2;
    var tmp, i := tmp0, n;
    a, b := a0, b0;
    while tmp > 0
      invariant tmp <= tmp0 && i == n + (tmp0 - tmp)
      invariant a % BASE == Sum1(s[..i]) && b % BASE == Sum2(s[..i])
      invariant a < BASE + 255 * (tmp0 - tmp) && 2 * b <= Bound(tmp0 - tmp)
    {
      hide Bound;
      BoundStep(tmp0 - tmp);
      BoundFits(tmp0 - tmp + 1);
      SumStep(s, i, a, b);
      a := a + data[from + i];
      b := b + a;
      assert a < LIMIT && b < LIMIT;
      i, tmp := i + 1, tmp - 1;
    }
    BoundFits(tmp0);
  }

  method AdlerChecksum(data: array<U8>, from: nat, length: nat) returns (r: U32)
    requires from + length <= data.Length
    ensures r == Checksum(data[from..from + length])
  {
    if length > MAX_SIZE || length == 0 {
      return 0;
    }
    ghost var s := data[from..from + length];
    var a, b, left := 1, 0, length;
    while left > 0
      invariant 0 <= left <= length == |s|
      invariant a < BASE && b < BASE && a == Sum1(s[..length - left]) && b == Sum2(s[..length - left])
    {
      hide Sum1, Sum2;
      var tmp := if left > BLOCK then BLOCK else left;
      var i := length - left;
      left := left - tmp;
      a, b := AddBlock(data, from, i, tmp, a, b, s);
      a, b := a % BASE, b % BASE;
    }
    assert s[..length] == s;
    return b * 0x1_0000 + a;
  }

  // ----- what the checksum detects -----

  // The sums without reduction
  function Total(s: seq<U8>): nat {
    if s == [] then 0 else Total(s[..|s| - 1]) + s[|s| - 1]
  }

  function Weighted(s: seq<U8>): nat {
    if s == [] then 0 else Weighted(s[..|s| - 1]) + 1 + Total(s)
  }

  lemma {:induction false} SumsAreReduced(s: seq<U8>)
    ensures Sum1(s) == (1 + Total(s)) % BASE && Sum2(s) == Weighted(s) % BASE
  {
    if s != [] {
      var less := s[..|s| - 1];
      SumsAreReduced(less);
      ModAdd(1 + Total(less), Sum1(less), s[|s| - 1]);
      ModAddBoth(Weighted(less), Sum2(less), 1 + Total(s), Sum1(s));
    }
  }

  // The checksum holds the plain sum in its low half and the weighted sum in its high half.
  lemma Halves(s: seq<U8>)
    requires 0 < |s| <= 16384
    ensures Checksum(s) % 0x1_0000 == (1 + Total(s)) % 65521
    ensures Checksum(s) / 0x1_0000 == Weighted(s) % 65521
  {
    hide Sum1, Sum2;
    SumsAreReduced(s);
    Halved(Sum1(s), Sum2(s));
  }

  lemma Halved(a: nat, b: nat)
    requires a < 0x1_0000
    ensures (b * 0x1_0000 + a) % 0x1_0000 == a && (b * 0x1_0000 + a) / 0x1_0000 == b
  {
  }

  lemma NextSums(s: seq<U8>, v: U8, a: nat, b: nat)
    requires Sum1(s) == a && Sum2(s) == b
    ensures Sum1(s + [v]) == (a + v) % 65521 && Sum2(s + [v]) == (b + (a + v) % 65521) % 65521
  {
    assert (s + [v])[..|s|] == s;
  }

  // The nine bytes of the ASCII text "Wikipedia"
  lemma KnownChecksum()
    ensures Checksum([0x57, 0x69, 0x6B, 0x69, 0x70, 0x65, 0x64, 0x69, 0x61]) == 0x11E6_0398
  {
    hide Sum1, Sum2;
    var s: seq<U8> := [0x57, 0x69, 0x6B, 0x69, 0x70, 0x65, 0x64, 0x69, 0x61];
    NoSums();
    assert s[..0] == [];
    assert s[..1] == s[..0] + [s[0]];
    NextSums(s[..0], s[0], 1, 0);
    assert s[..2] == s[..1] + [s[1]];
    NextSums(s[..1], s[1], 88, 88);
    assert s[..3] == s[..2] + [s[2]];
    NextSums(s[..2], s[2], 193, 281);
    assert s[..4] == s[..3] + [s[3]];
    NextSums(s[..3], s[3], 300, 581);
    assert s[..5] == s[..4] + [s[4]];
    NextSums(s[..4], s[4], 405, 986);
    assert s[..6] == s[..5] + [s[5]];
    NextSums(s[..5], s[5], 517, 1503);
    assert s[..7] == s[..6] + [s[6]];
    NextSums(s[..6], s[6], 618, 2121);
    assert s[..8] == s[..7] + [s[7]];
    NextSums(s[..7], s[7], 718, 2839);
    assert s[..9] == s[..8] + [s[8]];
    NextSums(s[..8], s[8], 823, 3662);
    assert s[..9] == s;
  }

  lemma NoSums()
    ensures Sum1([]) == 1 && Sum2([]) == 0
  {
  }

  // Replacing byte i changes the total by the difference, from there on.
  lemma {:induction false} ReplacedTotal(s: seq<U8>, i: nat, v: U8, k: nat)
    requires i < |s| && k <= |s|
    ensures Total(s[i := v][..k]) == Total(s[..k]) + if i < k then v - s[i] else 0
  {
    if k > 0 {
      ReplacedTotal(s, i, v, k - 1);
      assert s[i := v][..k][..k - 1] == s[i := v][..k - 1] && s[..k][..k - 1] == s[..k - 1];
    }
  }

  function Swapped(s: seq<U8>, i: nat, j: nat): (r: seq<U8>)
    requires i < j < |s|
    ensures |r| == |s|
  {
    s[i := s[j]][j := s[i]]
  }

  function Gap(s: seq<U8>, i: nat, j: nat): (d: int)
    requires i < j < |s|
  {
    (s[j] as int) - (s[i] as int)
  }

  lemma SwappedTotal(s: seq<U8>, i: nat, j: nat, k: nat)
    requires i < j < |s| && k <= |s|
    ensures Total(Swapped(s, i, j)[..k]) == Total(s[..k]) + if i < k <= j then Gap(s, i, j) else 0
  {
    ReplacedTotal(s, i, s[j], k);
    ReplacedTotal(s[i := s[j]], j, s[i], k);
  }

  // How many of the first k prefixes hold byte i but not byte j
  function Between(i: nat, j: nat, k: nat): nat
    requires i < j
  {
    if k <= i then 0 else if k <= j then k - i else j - i
  }

  lemma BetweenStep(d: int, i: nat, j: nat, k: nat)
    requires i < j && k > 0
    ensures d * Between(i, j, k) == d * Between(i, j, k - 1) + if i < k <= j then d else 0
  {
    if i < k <= j {
      assert Between(i, j, k) == Between(i, j, k - 1) + 1;
    } else {
      assert Between(i, j, k) == Between(i, j, k - 1);
    }
  }

  lemma WeightedStep(s: seq<U8>, k: nat)
    requires 0 < k <= |s|
    ensures Weighted(s[..k]) == Weighted(s[..k - 1]) + 1 + Total(s[..k])
  {
    assert s[..k][..k - 1] == s[..k - 1];
  }

  lemma {:induction false} SwappedWeighted(s: seq<U8>, i: nat, j: nat, k: nat)
    requires i < j < |s| && k <= |s|
    ensures Weighted(Swapped(s, i, j)[..k]) == Weighted(s[..k]) + Gap(s, i, j) * Between(i, j, k)
  {
    if k > 0 {
      hide Weighted, Total, Swapped, Gap, Between;
      SwappedWeighted(s, i, j, k - 1);
      SwappedTotal(s, i, j, k);
      WeightedStep(s, k);
      WeightedStep(Swapped(s, i, j), k);
      BetweenStep(Gap(s, i, j), i, j, k);
    }
  }

  lemma NoByteDivides(d: nat)
    requires 2 <= d <= 255
    ensures BASE % d != 0
  {
  }

  // 65521 is prime as far as needed: it divides no product of a positive number below it and a
  // byte. The remainder of 65521 by d is a smaller counterexample.
  lemma {:induction false} NoMultiple(g: nat, d: nat)
    requires 0 < g < BASE && 0 < d <= 255
    ensures (g * d) % BASE != 0
    decreases d
  {
    if d > 1 && (g * d) % BASE == 0 {
      NoByteDivides(d);
      var q, r := BASE / d, BASE % d;
      Descend(g, d, q, r);
      NoMultiple(g, r);
    }
  }

  lemma Descend(g: nat, d: nat, q: nat, r: nat)
    requires (g * d) % BASE == 0 && BASE == q * d + r
    ensures (g * r) % BASE == 0
  {
    var m := (g * d) / BASE;
    assert g * d == m * BASE;
    calc {
      g * r;
      g * (BASE - q * d);
      g * BASE - g * (q * d);
      { assert g * (q * d) == q * (g * d); }
      g * BASE - q * (m * BASE);
      { assert q * (m * BASE) == (q * m) * BASE; }
      (g - q * m) * BASE;
    }
    MultipleOfBase(g - q * m);
  }

  lemma MultipleOfBase(k: int)
    ensures (k * BASE) % BASE == 0
  {
  }

  lemma SameRemainder(x: nat, y: nat)
    requires x % BASE == y % BASE
    ensures (x - y) % BASE == 0 && (y - x) % BASE == 0
  {
  }

  // Sums that differ by less than 65521 have different remainders.
  lemma NearRemainders(x: nat, y: nat)
    requires x != y && -BASE < x - y < BASE
    ensures x % BASE != y % BASE
  {
  }

  // Any change of one byte changes the checksum.
  lemma OneByteDetected(s: seq<U8>, i: nat, v: U8)
    requires |s| <= MAX_SIZE && i < |s| && v != s[i]
    ensures Checksum(s[i := v]) != Checksum(s)
  {
    hide Total, Sum1, Sum2, Weighted;
    var t := s[i := v];
    ReplacedTotal(s, i, v, |s|);
    assert t[..|s|] == t && s[..|s|] == s;
    SumsAreReduced(s);
    SumsAreReduced(t);
    NearRemainders(1 + Total(s), 1 + Total(t));
    LowHalf(s, t);
  }

  lemma LowHalf(s: seq<U8>, t: seq<U8>)
    requires 0 < |s| <= MAX_SIZE && |t| == |s| && (Sum1(s) != Sum1(t) || Sum2(s) != Sum2(t))
    ensures Checksum(s) != Checksum(t)
  {
    hide Sum1, Sum2;
  }

  // The weighted sum changes by the product of the distance and the gap, no multiple of 65521.
  lemma SwapRemainder(x: nat, y: nat, g: nat, d: int)
    requires x == y + d * g && 0 < g < BASE && d != 0 && -255 <= d <= 255
    ensures x % BASE != y % BASE
  {
    if x % BASE == y % BASE {
      SameRemainder(x, y);
      if d > 0 {
        assert x - y == g * d;
        NoMultiple(g, d);
      } else {
        assert y - x == g * (-d);
        NoMultiple(g, -d);
      }
    }
  }

  // So does swapping any two unequal bytes.
  lemma SwapDetected(s: seq<U8>, i: nat, j: nat)
    requires |s| <= MAX_SIZE && i < j < |s| && s[i] != s[j]
    ensures Checksum(Swapped(s, i, j)) != Checksum(s)
  {
    hide Total, Sum1, Sum2, Weighted, Swapped, Checksum;
    var t := Swapped(s, i, j);
    SwappedWeighted(s, i, j, |s|);
    assert t[..|s|] == t && s[..|s|] == s;
    SumsAreReduced(s);
    SumsAreReduced(t);
    SwapRemainder(Weighted(t), Weighted(s), j - i, Gap(s, i, j));
    LowHalf(s, t);
  }
}
