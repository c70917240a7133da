/** Machine words, their little-endian bytes, and overwriting a part of a buffer. */
module Words {

  type U8 = x: int | 0 <= x < 0x100
  type U16 = x: int | 0 <= x < 0x1_0000
  type U32 = x: int | 0 <= x < 0x1_0000_0000

  function Wrap16(x: int): U16 { x % 0x1_0000 }

  function Wrap32(x: int): U32 { x % 0x1_0000_0000 }

  function Pow256(w: nat): (p: nat)
    ensures p > 0
  {
    if w == 0 then 1 else 0x100 * Pow256(w - 1)
  }

  function Encode(v: nat, w: nat): (bytes: seq<U8>)
    ensures |bytes| == w
  {
    if w == 0 then [] else [v % 0x100] + Encode(v / 0x100, w - 1)
  }

  function Decode(bytes: seq<U8>): (v: nat)
    ensures v < Pow256(|bytes|)
  {
    if bytes == [] then 0 else bytes[0] + 0x100 * Decode(bytes[1..])
  }

  lemma {:induction false} DecodeEncode(v: nat, w: nat)
    requires v < Pow256(w)
    ensures Decode(Encode(v, w)) == v
  {
    if w > 0 {
      DecodeEncode(v / 0x100, w - 1);
      assert Encode(v, w)[1..] == Encode(v / 0x100, w - 1);
    }
  }

  lemma {:induction false} EncodeDecode(bytes: seq<U8>)
    ensures Encode(Decode(bytes), |bytes|) == bytes
  {
    if bytes != [] {
      EncodeDecode(bytes[1..]);
      NextByte(bytes[0], Decode(bytes[1..]), |bytes|);
      hide Encode;
      assert bytes == [bytes[0]] + bytes[1..];
    }
  }

  lemma WordSizes()
    ensures Pow256(1) == 0x100 && Pow256(2) == 0x1_0000 && Pow256(4) == 0x1_0000_0000
  {
    assert Pow256(3) == 0x100_0000;
  }

  // Two bytes, as decodeHeader puts them together
  lemma DecodePair(bytes: seq<U8>)
    requires |bytes| == 2
    ensures Decode(bytes) == (bytes[0] as int) + 0x100 * (bytes[1] as int)
  {
    assert Decode(bytes[1..]) == bytes[1] + 0x100 * Decode(bytes[2..]);
  }

  // The little-endian layout, byte by byte
  lemma EncodedShort(a: U8, b: U8)
    ensures Encode((a as int) + 0x100 * b, 2) == [a, b]
  {
    NextByte(a, b, 2);
    NextByte(b, 0, 1);
  }

  lemma EncodedLong(a: U8, b: U8, c: U8, d: U8)
    ensures Encode((a as int) + 0x100 * b + 0x1_0000 * c + 0x100_0000 * d, 4) == [a, b, c, d]
  {
    hide Encode;
    NextByte(a, b + 0x100 * c + 0x1_0000 * d, 4);
    NextByte(b, c + 0x100 * d, 3);
    EncodedShort(c, d);
  }

  lemma NextByte(a: U8, rest: nat, w: nat)
    requires w > 0
    ensures Encode(a + 0x100 * rest, w) == [a] + Encode(rest, w - 1)
    ensures Encode(rest, 0) == []
  {
    SplitByte(a, rest);
  }

  lemma SplitByte(a: U8, rest: nat)
    ensures (a + 0x100 * rest) % 0x100 == a && (a + 0x100 * rest) / 0x100 == rest
  {
  }

  lemma ShortBytes(v: U16)
    ensures Encode(v, 2) == [v % 0x100, v / 0x100]
  {
    EncodedShort(v % 0x100, v / 0x100);
  }

  lemma LongBytes(v: U32)
    ensures Encode(v, 4) == [v % 0x100, v / 0x100 % 0x100, v / 0x100 / 0x100 % 0x100, v / 0x100 / 0x100 / 0x100]
  {
    var w := v / 0x100;
    var x := w / 0x100;
    OneByte(v, 4);
    OneByte(w, 3);
    hide Encode;
    ShortBytes(x);
  }

  lemma OneByte(v: nat, w: nat)
    requires w > 0
    ensures Encode(v, w) == [v % 0x100] + Encode(v / 0x100, w - 1)
  {
  }

  // s with the bytes from p on replaced
  function Splice(s: seq<U8>, p: nat, bytes: seq<U8>): (r: seq<U8>)
    requires p + |bytes| <= |s|
    ensures |r| == |s|
    ensures r[p..p + |bytes|] == bytes && r[..p] == s[..p] && r[p + |bytes|..] == s[p + |bytes|..]
  {
    s[..p] + bytes + s[p + |bytes|..]
  }

  // Ranges on either side of a splice are kept.
  lemma SpliceKeeps(s: seq<U8>, p: nat, bytes: seq<U8>, i: nat, j: nat)
    requires p + |bytes| <= |s| && i <= j <= |s| && (j <= p || p + |bytes| <= i)
    ensures Splice(s, p, bytes)[i..j] == s[i..j]
  {
    var r := Splice(s, p, bytes);
    if j <= p {
      assert r[i..j] == r[..p][i..j] && s[i..j] == s[..p][i..j];
    } else {
      var q := p + |bytes|;
      assert r[i..j] == r[q..][i - q..j - q] && s[i..j] == s[q..][i - q..j - q];
    }
  }
}
