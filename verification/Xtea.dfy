/** src/protocol/protocol.cpp: the XTEA loops of Protocol, and that one undoes the other. */
module Xtea {
  import opened Words

  const DELTA: bv32 := 0x61C8_8647
  const LAST_SUM: bv32 := 0xC6EF_3720
  const ROUNDS: nat := 32

  type Key = k: seq<bv32> | |k| == 4 witness [0, 0, 0, 0]

  datatype Block = Block(v0: bv32, v1: bv32, sum: bv32)

  // The words of the key that a sum chooses
  function Key0(key: Key, sum: bv32): bv32 { key[(sum & 3) as int] }

  function Key1(key: Key, sum: bv32): bv32 { key[((sum >> 11) & 3) as int] }

  // The four assignments of the rounds, and how the sum goes on
  function Add0(v0: bv32, v1: bv32, sum: bv32, key: Key): bv32 {
    v0 + ((((v1 << 4) ^ (v1 >> 5)) + v1) ^ (sum + Key0(key, sum)))
  }

  function Add1(v1: bv32, v0: bv32, sum: bv32, key: Key): bv32 {
    v1 + ((((v0 << 4) ^ (v0 >> 5)) + v0) ^ (sum + Key1(key, sum)))
  }

  function Subtract1(v1: bv32, v0: bv32, sum: bv32, key: Key): bv32 {
    v1 - ((((v0 << 4) ^ (v0 >> 5)) + v0) ^ (sum + Key1(key, sum)))
  }

  function Subtract0(v0: bv32, v1: bv32, sum: bv32, key: Key): bv32 {
    v0 - ((((v1 << 4) ^ (v1 >> 5)) + v1) ^ (sum + Key0(key, sum)))
  }

  function NextSum(sum: bv32): bv32 { sum - DELTA }

  function LastSum(sum: bv32): bv32 { sum + DELTA }

  function EncryptRound(b: Block, key: Key): Block {
    var v0 := Add0(b.v0, b.v1, b.sum, key);
    var sum := NextSum(b.sum);
    Block(v0, Add1(b.v1, v0, sum, key), sum)
  }

  function DecryptRound(b: Block, key: Key): Block {
    var v1 := Subtract1(b.v1, b.v0, b.sum, key);
    var sum := LastSum(b.sum);
    Block(Subtract0(b.v0, v1, sum, key), v1, sum)
  }

  function EncryptRounds(n: nat, b: Block, key: Key): Block {
    if n == 0 then b else EncryptRound(EncryptRounds(n - 1, b, key), key)
  }

  function DecryptRounds(n: nat, b: Block, key: Key): Block {
    if n == 0 then b else DecryptRound(DecryptRounds(n - 1, b, key), key)
  }

  lemma AddThenSubtract(x: bv32, y: bv32)
    ensures (x + y) - y == x && (x - y) + y == x
  {
  }

  lemma AddsUndone(v0: bv32, v1: bv32, sum: bv32, key: Key)
    ensures Subtract0(Add0(v0, v1, sum, key), v1, sum, key) == v0
    ensures Subtract1(Add1(v1, v0, sum, key), v0, sum, key) == v1
    ensures LastSum(NextSum(sum)) == sum
  {
    hide Key0, Key1;
    AddThenSubtract(v0, (((v1 << 4) ^ (v1 >> 5)) + v1) ^ (sum + Key0(key, sum)));
    AddThenSubtract(v1, (((v0 << 4) ^ (v0 >> 5)) + v0) ^ (sum + Key1(key, sum)));
  }

  lemma RoundInverse(b: Block, key: Key)
    ensures DecryptRound(EncryptRound(b, key), key) == b
  {
    hide Add0, Add1, Subtract0, Subtract1, NextSum, LastSum;
    var e := EncryptRound(b, key);
    AddsUndone(b.v0, b.v1, b.sum, key);
    AddsUndone(e.v0, b.v1, e.sum, key);
  }

  // The first round of a decryption may be taken apart instead of the last.
  lemma {:induction false} FirstRound(n: nat, b: Block, key: Key)
    ensures DecryptRounds(n + 1, b, key) == DecryptRounds(n, DecryptRound(b, key), key)
  {
    hide DecryptRound;
    if n > 0 {
      FirstRound(n - 1, b, key);
    }
  }

  lemma {:induction false} RoundsInverse(n: nat, b: Block, key: Key)
    ensures DecryptRounds(n, EncryptRounds(n, b, key), key) == b
  {
    hide DecryptRound, EncryptRound;
    if n > 0 {
      var e := EncryptRounds(n - 1, b, key);
      FirstRound(n - 1, EncryptRound(e, key), key);
      RoundInverse(e, key);
      RoundsInverse(n - 1, b, key);
    }
  }

  // The sum after n rounds
  function SumAt(n: nat): bv32 {
    if n == 0 then 0 else NextSum(SumAt(n - 1))
  }

  lemma {:induction false} SumAfter(n: nat, b: Block, key: Key)
    requires b.sum == 0
    ensures EncryptRounds(n, b, key).sum == SumAt(n)
  {
    hide Add0, Add1, NextSum;
    if n > 0 {
      SumAfter(n - 1, b, key);
    }
  }

  lemma SumsAt()
    ensures SumAt(32) == 0xC6EF_3720
  {
    assert SumAt(6) == 0xB54C_DA56;
    assert SumAt(12) == 0x6A99_B4AC;
    assert SumAt(18) == 0x1FE6_8F02;
    assert SumAt(24) == 0xD533_6958;
    assert SumAt(30) == 0x8A80_43AE;
  }

  // 32 * 0x9E3779B9 is 0xC6EF3720 modulo 2^32: a decryption starts with the sum the encryption ends with.
  lemma SumMeets(n: nat, v0: bv32, v1: bv32, key: Key)
    requires n == ROUNDS
    ensures EncryptRounds(n, Block(v0, v1, 0), key).sum == LAST_SUM
    ensures LAST_SUM == 32 * 0x9E37_79B9 && 0 - DELTA == 0x9E37_79B9
  {
    hide EncryptRounds;
    SumAfter(n, Block(v0, v1, 0), key);
    SumsAt();
  }

  // ----- the words of the cipher, as section "The code" of Needham and Wheeler's paper has them -----

  lemma Assignment0(v0: bv32, v1: bv32, sum: bv32, key: Key)
    ensures Add0(v0, v1, sum, key) == v0 + ((((v1 << 4) ^ (v1 >> 5)) + v1) ^ (sum + Key0(key, sum)))
  {
    hide Key0;
  }

  lemma Assignment1(v1: bv32, v0: bv32, sum: bv32, key: Key)
    ensures Add1(v1, v0, sum, key) == v1 + ((((v0 << 4) ^ (v0 >> 5)) + v0) ^ (sum + Key1(key, sum)))
  {
    hide Key1;
  }

  lemma Reversal1(v1: bv32, v0: bv32, sum: bv32, key: Key)
    ensures Subtract1(v1, v0, sum, key) == v1 - ((((v0 << 4) ^ (v0 >> 5)) + v0) ^ (sum + Key1(key, sum)))
  {
    hide Key1;
  }

  lemma Reversal0(v0: bv32, v1: bv32, sum: bv32, key: Key)
    ensures Subtract0(v0, v1, sum, key) == v0 - ((((v1 << 4) ^ (v1 >> 5)) + v1) ^ (sum + Key0(key, sum)))
  {
    hide Key0;
  }

  // ----- eight bytes -----

  // Reading an integer as a machine word and back, four bits at a time
  lemma DigitAndBack(x: nat) returns (w: bv8)
    requires x < 0x10
    ensures w as int == x && w < 0x10
  {
    w := if x == 0 then 0 else if x == 1 then 1 else if x == 2 then 2 else if x == 3 then 3
         else if x == 4 then 4 else if x == 5 then 5 else if x == 6 then 6 else if x == 7 then 7
         else if x == 8 then 8 else if x == 9 then 9 else if x == 10 then 10 else if x == 11 then 11
         else if x == 12 then 12 else if x == 13 then 13 else if x == 14 then 14 else 15;
  }

  lemma JoinDigits(low: bv8, high: bv8)
    requires low < 0x10 && high < 0x10
    ensures ((high << 4) | low) as int == (low as int) + 0x10 * (high as int)
  {
  }

  lemma ByteIsWord(x: nat) returns (w: bv8)
    requires x < 0x100
    ensures w as int == x
  {
    var low := DigitAndBack(x % 0x10);
    var high := DigitAndBack(x / 0x10);
    JoinDigits(low, high);
    w := (high << 4) | low;
  }

  lemma WordAndBack(x: bv32)
    ensures (x as int) as bv32 == x
  {
  }

  lemma JoinBytes(low: bv8, high: bv8)
    ensures (((high as bv16) << 8) | (low as bv16)) as int == (low as int) + 0x100 * (high as int)
  {
  }

  lemma JoinHalves(low: bv16, high: bv16)
    ensures (((high as bv32) << 16) | (low as bv32)) as int == (low as int) + 0x1_0000 * (high as int)
  {
  }

  lemma ShortIsWord(x: nat) returns (w: bv16)
    requires x < 0x1_0000
    ensures w as int == x
  {
    var low := ByteIsWord(x % 0x100);
    var high := ByteIsWord(x / 0x100);
    JoinBytes(low, high);
    w := ((high as bv16) << 8) | (low as bv16);
  }

  lemma LongIsWord(x: nat)
    requires x < 0x1_0000_0000
    ensures (x as bv32) as int == x
  {
    var low := ShortIsWord(x % 0x1_0000);
    var high := ShortIsWord(x / 0x1_0000);
    JoinHalves(low, high);
    WordAndBack(((high as bv32) << 16) | (low as bv32));
  }

  function Word(bytes: seq<U8>): (w: bv32)
    requires |bytes| == 4
    ensures Encode(w as int, 4) == bytes
  {
    WordSizes();
    EncodeDecode(bytes);
    LongIsWord(Decode(bytes));
    Decode(bytes) as bv32
  }

  lemma WordEncoded(w: bv32)
    ensures Word(Encode(w as int, 4)) == w
  {
    WordSizes();
    DecodeEncode(w as int, 4);
    WordAndBack(w);
  }

  function Pair(v0: bv32, v1: bv32): (bytes: seq<U8>)
    ensures |bytes| == 8 && Word(bytes[..4]) == v0 && Word(bytes[4..]) == v1
  {
    hide Word;
    WordEncoded(v0);
    WordEncoded(v1);
    var bytes := Encode(v0 as int, 4) + Encode(v1 as int, 4);
    assert bytes[..4] == Encode(v0 as int, 4) && bytes[4..] == Encode(v1 as int, 4);
    bytes
  }

  function EncryptBlock(bytes: seq<U8>, key: Key): (r: seq<U8>)
    requires |bytes| == 8
    ensures |r| == 8
  {
    var e := EncryptRounds(ROUNDS, Block(Word(bytes[..4]), Word(bytes[4..]), 0), key);
    Pair(e.v0, e.v1)
  }

  function DecryptBlock(bytes: seq<U8>, key: Key): (r: seq<U8>)
    requires |bytes| == 8
    ensures |r| == 8
  {
    var e := DecryptRounds(ROUNDS, Block(Word(bytes[..4]), Word(bytes[4..]), LAST_SUM), key);
    Pair(e.v0, e.v1)
  }

  lemma PairOfWords(bytes: seq<U8>)
    requires |bytes| == 8
    ensures Pair(Word(bytes[..4]), Word(bytes[4..])) == bytes
  {
    assert bytes == bytes[..4] + bytes[4..];
  }

  lemma BlockInverse(bytes: seq<U8>, key: Key)
    requires |bytes| == 8
    ensures DecryptBlock(EncryptBlock(bytes, key), key) == bytes
  {
    hide EncryptRounds, DecryptRounds, Word, Pair;
    var v0, v1 := Word(bytes[..4]), Word(bytes[4..]);
    SumMeets(ROUNDS, v0, v1, key);
    RoundsInverse(ROUNDS, Block(v0, v1, 0), key);
    PairOfWords(bytes);
  }

  // ----- a known answer -----

  const KEY: Key := [0x0001_0203, 0x0405_0607, 0x0809_0A0B, 0x0C0D_0E0F]
  const PLAIN: Block := Block(0x4142_4344, 0x4546_4748, 0)

  lemma OneRound(n: nat, b: Block, e: Block)
    requires EncryptRounds(n, PLAIN, KEY) == b && EncryptRound(b, KEY) == e
    ensures EncryptRounds(n + 1, PLAIN, KEY) == e
  {
    hide EncryptRound;
  }

  lemma KnownRounds8()
    ensures EncryptRounds(8, PLAIN, KEY) == Block(0x8F65_016F, 0xCE36_8FE5, 0xF1BB_CDC8)
  {
    hide EncryptRounds;
    NoRounds();
    OneRound(0, Block(0x4142_4344, 0x4546_4748, 0x0000_0000),
      Block(0xDCD7_CF45, 0x477C_E5EF, 0x9E37_79B9));
    OneRound(1, Block(0xDCD7_CF45, 0x477C_E5EF, 0x9E37_79B9),
      Block(0xFC26_AF53, 0xCD42_78CF, 0x3C6E_F372));
    OneRound(2, Block(0xFC26_AF53, 0xCD42_78CF, 0x3C6E_F372),
      Block(0xD80E_94CB, 0x4DDF_38A2, 0xDAA6_6D2B));
    OneRound(3, Block(0xD80E_94CB, 0x4DDF_38A2, 0xDAA6_6D2B),
      Block(0xA3DE_6C88, 0xF1E7_792D, 0x78DD_E6E4));
    OneRound(4, Block(0xA3DE_6C88, 0xF1E7_792D, 0x78DD_E6E4),
      Block(0x171D_3729, 0x9186_2A1F, 0x1715_609D));
    OneRound(5, Block(0x171D_3729, 0x9186_2A1F, 0x1715_609D),
      Block(0xCC8C_1344, 0xEBEE_AA9A, 0xB54C_DA56));
    OneRound(6, Block(0xCC8C_1344, 0xEBEE_AA9A, 0xB54C_DA56),
      Block(0xE57D_7733, 0x59E5_FC40, 0x5384_540F));
    OneRound(7, Block(0xE57D_7733, 0x59E5_FC40, 0x5384_540F),
      Block(0x8F65_016F, 0xCE36_8FE5, 0xF1BB_CDC8));
  }

  lemma KnownRounds16()
    ensures EncryptRounds(16, PLAIN, KEY) == Block(0xDEA0_B0B4, 0x0966_B066, 0xE377_9B90)
  {
    hide EncryptRounds;
    KnownRounds8();
    OneRound(8, Block(0x8F65_016F, 0xCE36_8FE5, 0xF1BB_CDC8),
      Block(0xD258_174E, 0x48D6_1211, 0x8FF3_4781));
    OneRound(9, Block(0xD258_174E, 0x48D6_1211, 0x8FF3_4781),
      Block(0x165E_0567, 0x9E71_7B10, 0x2E2A_C13A));
    OneRound(10, Block(0x165E_0567, 0x9E71_7B10, 0x2E2A_C13A),
      Block(0xCAC4_8414, 0x4AFF_1B86, 0xCC62_3AF3));
    OneRound(11, Block(0xCAC4_8414, 0x4AFF_1B86, 0xCC62_3AF3),
      Block(0xEB8E_9954, 0x24E5_DFEF, 0x6A99_B4AC));
    OneRound(12, Block(0xEB8E_9954, 0x24E5_DFEF, 0x6A99_B4AC),
      Block(0x0A88_B2A5, 0xE4A3_F5F5, 0x08D1_2E65));
    OneRound(13, Block(0x0A88_B2A5, 0xE4A3_F5F5, 0x08D1_2E65),
      Block(0x47F0_B53D, 0x52CC_1B88, 0xA708_A81E));
    OneRound(14, Block(0x47F0_B53D, 0x52CC_1B88, 0xA708_A81E),
      Block(0x7622_F70A, 0xE54C_9980, 0x4540_21D7));
    OneRound(15, Block(0x7622_F70A, 0xE54C_9980, 0x4540_21D7),
      Block(0xDEA0_B0B4, 0x0966_B066, 0xE377_9B90));
  }

  lemma KnownRounds24()
    ensures EncryptRounds(24, PLAIN, KEY) == Block(0xC1CD_CCFE, 0x6F59_3666, 0xD533_6958)
  {
    hide EncryptRounds;
    KnownRounds16();
    OneRound(16, Block(0xDEA0_B0B4, 0x0966_B066, 0xE377_9B90),
      Block(0x5B9F_2A8E, 0xA8DC_137C, 0x81AF_1549));
    OneRound(17, Block(0x5B9F_2A8E, 0xA8DC_137C, 0x81AF_1549),
      Block(0x1077_1C15, 0xE45E_1448, 0x1FE6_8F02));
    OneRound(18, Block(0x1077_1C15, 0xE45E_1448, 0x1FE6_8F02),
      Block(0x1145_6D7C, 0xC85F_792D, 0xBE1E_08BB));
    OneRound(19, Block(0x1145_6D7C, 0xC85F_792D, 0xBE1E_08BB),
      Block(0x9785_6208, 0x1099_631C, 0x5C55_8274));
    OneRound(20, Block(0x9785_6208, 0x1099_631C, 0x5C55_8274),
      Block(0xDD80_3B8B, 0xCB8F_61E7, 0xFA8C_FC2D));
    OneRound(21, Block(0xDD80_3B8B, 0xCB8F_61E7, 0xFA8C_FC2D),
      Block(0x522C_00DD, 0x9E3F_7329, 0x98C4_75E6));
    OneRound(22, Block(0x522C_00DD, 0x9E3F_7329, 0x98C4_75E6),
      Block(0x77B7_44A0, 0x69C1_348C, 0x36FB_EF9F));
    OneRound(23, Block(0x77B7_44A0, 0x69C1_348C, 0x36FB_EF9F),
      Block(0xC1CD_CCFE, 0x6F59_3666, 0xD533_6958));
  }

  lemma KnownRounds32()
    ensures EncryptRounds(32, PLAIN, KEY) == Block(0x497D_F3D0, 0x7261_2CB5, 0xC6EF_3720)
  {
    hide EncryptRounds;
    KnownRounds24();
    OneRound(24, Block(0xC1CD_CCFE, 0x6F59_3666, 0xD533_6958),
      Block(0x7544_5A60, 0x2DB1_708D, 0x736A_E311));
    OneRound(25, Block(0x7544_5A60, 0x2DB1_708D, 0x736A_E311),
      Block(0xF488_7559, 0x8BB6_51D7, 0x11A2_5CCA));
    OneRound(26, Block(0xF488_7559, 0x8BB6_51D7, 0x11A2_5CCA),
      Block(0x47CC_DC59, 0xFCD8_F11C, 0xAFD9_D683));
    OneRound(27, Block(0x47CC_DC59, 0xFCD8_F11C, 0xAFD9_D683),
      Block(0xC471_004F, 0x5097_C822, 0x4E11_503C));
    OneRound(28, Block(0xC471_004F, 0x5097_C822, 0x4E11_503C),
      Block(0xD6F3_570B, 0x00D3_5711, 0xEC48_C9F5));
    OneRound(29, Block(0xD6F3_570B, 0x00D3_5711, 0xEC48_C9F5),
      Block(0xD53D_E450, 0xA108_22D4, 0x8A80_43AE));
    OneRound(30, Block(0xD53D_E450, 0xA108_22D4, 0x8A80_43AE),
      Block(0xF959_A6E3, 0x6076_A570, 0x28B7_BD67));
    OneRound(31, Block(0xF959_A6E3, 0x6076_A570, 0x28B7_BD67),
      Block(0x497D_F3D0, 0x7261_2CB5, 0xC6EF_3720));
  }

  lemma NoRounds()
    ensures EncryptRounds(0, PLAIN, KEY) == PLAIN
  {
  }

  lemma EncodedWord(w: bv32, a: U8, b: U8, c: U8, d: U8)
    requires w as int == a + 0x100 * b + 0x1_0000 * c + 0x100_0000 * d
    ensures Encode(w as int, 4) == [a, b, c, d] && Word([a, b, c, d]) == w
  {
    hide Word;
    EncodedLong(a, b, c, d);
    WordEncoded(w);
  }

  // A block in the byte order of the buffer, under a key, and what becomes of it
  lemma KnownBlock()
    ensures EncryptBlock([0x44, 0x43, 0x42, 0x41, 0x48, 0x47, 0x46, 0x45],
                         [0x0001_0203, 0x0405_0607, 0x0809_0A0B, 0x0C0D_0E0F]) ==
      [0xD0, 0xF3, 0x7D, 0x49, 0xB5, 0x2C, 0x61, 0x72]
  {
    hide EncryptRounds, Word, Encode;
    var bytes: seq<U8> := [0x44, 0x43, 0x42, 0x41, 0x48, 0x47, 0x46, 0x45];
    assert bytes[..4] == [0x44, 0x43, 0x42, 0x41] && bytes[4..] == [0x48, 0x47, 0x46, 0x45];
    EncodedWord(0x4142_4344, 0x44, 0x43, 0x42, 0x41);
    EncodedWord(0x4546_4748, 0x48, 0x47, 0x46, 0x45);
    EncodedWord(0x497D_F3D0, 0xD0, 0xF3, 0x7D, 0x49);
    EncodedWord(0x7261_2CB5, 0xB5, 0x2C, 0x61, 0x72);
    KnownRounds32();
  }

  // ----- any number of blocks -----

  function EncryptBytes(s: seq<U8>, key: Key): (r: seq<U8>)
    requires |s| % 8 == 0
    ensures |r| == |s|
  {
    if s == [] then [] else EncryptBytes(s[..|s| - 8], key) + EncryptBlock(s[|s| - 8..], key)
  }

  function DecryptBytes(s: seq<U8>, key: Key): (r: seq<U8>)
    requires |s| % 8 == 0
    ensures |r| == |s|
  {
    if s == [] then [] else DecryptBytes(s[..|s| - 8], key) + DecryptBlock(s[|s| - 8..], key)
  }

  lemma {:induction false} BytesInverse(s: seq<U8>, key: Key)
    requires |s| % 8 == 0
    ensures DecryptBytes(EncryptBytes(s, key), key) == s
  {
    hide EncryptBlock, DecryptBlock;
    if s != [] {
      var e := EncryptBytes(s, key);
      assert e[..|s| - 8] == EncryptBytes(s[..|s| - 8], key) && e[|s| - 8..] == EncryptBlock(s[|s| - 8..], key);
      BytesInverse(s[..|s| - 8], key);
      BlockInverse(s[|s| - 8..], key);
    }
  }

  // ----- the loops -----

  method EncryptWords(w0: bv32, w1: bv32, key: Key) returns (v0: bv32, v1: bv32)
    ensures (v0, v1) == (var e := EncryptRounds(ROUNDS, Block(w0, w1, 0), key); (e.v0, e.v1))
  {
    hide Add0, Add1, Key0, Key1;
    var sum: bv32 := 0;
    v0, v1 := w0, w1;
    for i := 0 to ROUNDS
      invariant Block(v0, v1, sum) == EncryptRounds(i, Block(w0, w1, 0), key)
    {
      Assignment0(v0, v1, sum, key);
      v0 := v0 + ((((v1 << 4) ^ (v1 >> 5)) + v1) ^ (sum + Key0(key, sum)));
      sum := sum - DELTA;
      Assignment1(v1, v0, sum, key);
      v1 := v1 + ((((v0 << 4) ^ (v0 >> 5)) + v0) ^ (sum + Key1(key, sum)));
    }
  }

  method DecryptWords(w0: bv32, w1: bv32, key: Key) returns (v0: bv32, v1: bv32)
    ensures (v0, v1) == (var e := DecryptRounds(ROUNDS, Block(w0, w1, LAST_SUM), key); (e.v0, e.v1))
  {
    hide Subtract0, Subtract1, Key0, Key1;
    var sum: bv32 := LAST_SUM;
    v0, v1 := w0, w1;
    for i := 0 to ROUNDS
      invariant Block(v0, v1, sum) == DecryptRounds(i, Block(w0, w1, LAST_SUM), key)
    {
      Reversal1(v1, v0, sum, key);
      v1 := v1 - ((((v0 << 4) ^ (v0 >> 5)) + v0) ^ (sum + Key1(key, sum)));
      sum := sum + DELTA;
      Reversal0(v0, v1, sum, key);
      v0 := v0 - ((((v1 << 4) ^ (v1 >> 5)) + v1) ^ (sum + Key0(key, sum)));
    }
  }

  // One store of a value, or one memcpy
  method Store(buffer: array<U8>, p: nat, bytes: seq<U8>)
    requires p + |bytes| <= buffer.Length
    modifies buffer
    ensures buffer[..] == Splice(old(buffer[..]), p, bytes)
  {
    forall k | 0 <= k < |bytes| {
      buffer[p + k] := bytes[k];
    }
  }

  lemma SpliceTwice(s: seq<U8>, p: nat, a: seq<U8>, b: seq<U8>)
    requires p + |a| + |b| <= |s|
    ensures Splice(Splice(s, p, a), p + |a|, b) == Splice(s, p, a + b)
  {
  }

  // A buffer with the n bytes from p on encrypted
  function Encrypted(s: seq<U8>, p: nat, n: nat, key: Key): (r: seq<U8>)
    requires n % 8 == 0 && p + n <= |s|
    ensures |r| == |s|
  {
    Splice(s, p, EncryptBytes(s[p..p + n], key))
  }

  lemma EncryptNone(s: seq<U8>, p: nat, key: Key)
    requires p <= |s|
    ensures Encrypted(s, p, 0, key) == s
  {
  }

  // One block more: the block at p + n is still as it was.
  lemma EncryptMore(s: seq<U8>, p: nat, n: nat, m: nat, key: Key)
    requires n % 8 == 0 && m % 8 == 0 && m == n + 8 && p + m <= |s|
    ensures var t := Encrypted(s, p, n, key);
      Splice(t, p + n, EncryptBlock(t[p + n..p + m], key)) == Encrypted(s, p, m, key)
  {
    hide Splice, EncryptBlock;
    var done, u := EncryptBytes(s[p..p + n], key), s[p..p + m];
    SpliceKeeps(s, p, done, p + n, p + m);
    assert u[..n] == s[p..p + n] && u[n..] == s[p + n..p + m];
    SpliceTwice(s, p, done, EncryptBlock(s[p + n..p + m], key));
  }

  method EncryptAt(buffer: array<U8>, q: nat, key: Key)
    requires q + 8 <= buffer.Length
    modifies buffer
    ensures buffer[..] == Splice(old(buffer[..]), q, EncryptBlock(old(buffer[..])[q..q + 8], key))
  {
    hide EncryptRounds, Word, Pair, Splice;
    ghost var b := buffer[..][q..q + 8];
    assert buffer[q..q + 4] == b[..4] && buffer[q + 4..q + 8] == b[4..];
    var v0, v1 := EncryptWords(Word(buffer[q..q + 4]), Word(buffer[q + 4..q + 8]), key);
    Store(buffer, q, Pair(v0, v1));
  }

  // The word loops take whole blocks: while words are left, so are eight bytes.
  lemma BlockLeft(readPos: nat, n: nat, messageLength: nat)
    requires n == 4 * readPos && n % 8 == 0 && messageLength % 8 == 0 && n <= messageLength
    ensures if readPos < messageLength / 4 then n + 8 <= messageLength && (n + 8) % 8 == 0 else n == messageLength
  {
  }

  // The in-place loop of XTEA_encrypt over the words from p on
  method Encrypt(buffer: array<U8>, p: nat, messageLength: nat, key: Key)
    requires messageLength % 8 == 0 && p + messageLength <= buffer.Length
    modifies buffer
    ensures buffer[..] == Encrypted(old(buffer[..]), p, messageLength, key)
  {
    hide EncryptBlock, Encrypted, Splice;
    ghost var s := buffer[..];
    EncryptNone(s, p, key);
    var readPos := 0;
    ghost var n := 0;
    while readPos < messageLength / 4
      invariant n == 4 * readPos && n % 8 == 0 && n <= messageLength
      invariant buffer[..] == Encrypted(s, p, n, key)
    {
      BlockLeft(readPos, n, messageLength);
      EncryptMore(s, p, n, n + 8, key);
      EncryptAt(buffer, p + 4 * readPos, key);
      readPos, n := readPos + 2, n + 8;
    }
    BlockLeft(readPos, n, messageLength);
  }

  // A buffer with the n bytes from p on decrypted
  function Decrypted(s: seq<U8>, p: nat, n: nat, key: Key): (r: seq<U8>)
    requires n % 8 == 0 && p + n <= |s|
    ensures |r| == |s|
  {
    Splice(s, p, DecryptBytes(s[p..p + n], key))
  }

  lemma DecryptNone(s: seq<U8>, p: nat, key: Key)
    requires p <= |s|
    ensures Decrypted(s, p, 0, key) == s
  {
  }

  // One block more: the block at p + n is still as it was.
  lemma DecryptMore(s: seq<U8>, p: nat, n: nat, m: nat, key: Key)
    requires n % 8 == 0 && m % 8 == 0 && m == n + 8 && p + m <= |s|
    ensures var t := Decrypted(s, p, n, key);
      Splice(t, p + n, DecryptBlock(t[p + n..p + m], key)) == Decrypted(s, p, m, key)
  {
    hide Splice, DecryptBlock;
    var done, u := DecryptBytes(s[p..p + n], key), s[p..p + m];
    SpliceKeeps(s, p, done, p + n, p + m);
    assert u[..n] == s[p..p + n] && u[n..] == s[p + n..p + m];
    SpliceTwice(s, p, done, DecryptBlock(s[p + n..p + m], key));
  }

  method DecryptAt(buffer: array<U8>, q: nat, key: Key)
    requires q + 8 <= buffer.Length
    modifies buffer
    ensures buffer[..] == Splice(old(buffer[..]), q, DecryptBlock(old(buffer[..])[q..q + 8], key))
  {
    hide DecryptRounds, Word, Pair, Splice;
    ghost var b := buffer[..][q..q + 8];
    assert buffer[q..q + 4] == b[..4] && buffer[q + 4..q + 8] == b[4..];
    var v0, v1 := DecryptWords(Word(buffer[q..q + 4]), Word(buffer[q + 4..q + 8]), key);
    Store(buffer, q, Pair(v0, v1));
  }

  // The in-place loop of XTEA_decrypt over the words from p on
  method Decrypt(buffer: array<U8>, p: nat, messageLength: nat, key: Key)
    requires messageLength % 8 == 0 && p + messageLength <= buffer.Length
    modifies buffer
    ensures buffer[..] == Decrypted(old(buffer[..]), p, messageLength, key)
  {
    hide DecryptBlock, Decrypted, Splice;
    ghost var s := buffer[..];
    DecryptNone(s, p, key);
    var readPos := 0;
    ghost var n := 0;
    while readPos < messageLength / 4
      invariant n == 4 * readPos && n % 8 == 0 && n <= messageLength
      invariant buffer[..] == Decrypted(s, p, n, key)
    {
      BlockLeft(readPos, n, messageLength);
      DecryptMore(s, p, n, n + 8, key);
      DecryptAt(buffer, p + 4 * readPos, key);
      readPos, n := readPos + 2, n + 8;
    }
    BlockLeft(readPos, n, messageLength);
  }

  // Decrypting, in any buffer that holds them at the same place, bytes that were encrypted gives
  // them back.
  lemma DecryptedIsOriginal(s: seq<U8>, t: seq<U8>, p: nat, n: nat, key: Key)
    requires n % 8 == 0 && p + n <= |s| && p + n <= |t|
    requires t[p..p + n] == Encrypted(s, p, n, key)[p..p + n]
    ensures Decrypted(t, p, n, key)[p..p + n] == s[p..p + n]
  {
    hide EncryptBytes, DecryptBytes;
    BytesInverse(s[p..p + n], key);
  }
}
