/** What is framed, encrypted and checksummed on one side is what the other side gets to see. */
module WireRoundTrip {
  import opened Wrappers
  import opened Words
  import opened Adler
  import opened Xtea
  import opened Messages
  import opened TypedFields
  import opened Wire

  const LONGEST := 16361       // what the typed writers can put into a body
  const LONGEST_SECURE := 16358

  // A message as the writers leave it, with a body of the given length
  predicate HasBody(m: Message, length: nat) {
    m.position == CRYPTO + length && m.size == length && m.start == CRYPTO && length <= LONGEST
  }

  // The length of the encrypted part on the wire: padding that does not fit is left out.
  function CipherSize(length: nat): nat
    requires length <= LONGEST
  {
    var n := Padded(length + 2);
    if n - (length + 2) + CRYPTO + length < BODY then n else length + 2
  }

  lemma CipherSizes(length: nat)
    requires length <= LONGEST
    ensures CipherSize(length) % 8 == 0 <==> length <= LONGEST_SECURE
    ensures length + 2 <= CipherSize(length) <= Padded(length + 2) <= 16368
    ensures CipherSize(length) <= 16363
    ensures length <= LONGEST_SECURE ==> CipherSize(length) == Padded(length + 2)
  {
  }

  // ----- the sender -----

  // The buffer before encryption: the length, the body and what padding there is
  function Plain(m: Message, length: nat): seq<U8>
    requires HasBody(m, length)
  {
    var h := Splice(m.buffer, 6, Encode(length, 2));
    var n := Padded(length + 2) - (length + 2);
    if CRYPTO + length + n < BODY then Splice(h, CRYPTO + length, Padding(n)) else h
  }

  lemma PlainHolds(m: Message, length: nat)
    requires HasBody(m, length)
    ensures |Plain(m, length)| == CAPACITY
    ensures Plain(m, length)[6..8] == Encode(length, 2)
    ensures Plain(m, length)[CRYPTO..CRYPTO + length] == m.buffer[CRYPTO..CRYPTO + length]
  {
    hide Encode, Splice;
    var h := Splice(m.buffer, 6, Encode(length, 2));
    SpliceKeeps(m.buffer, 6, Encode(length, 2), CRYPTO, CRYPTO + length);
    var n := Padded(length + 2) - (length + 2);
    if CRYPTO + length + n < BODY {
      SpliceKeeps(h, CRYPTO + length, Padding(n), 6, 8);
      SpliceKeeps(h, CRYPTO + length, Padding(n), CRYPTO, CRYPTO + length);
    }
  }

  lemma SplicedNothing(s: seq<U8>, p: nat)
    requires p <= |s|
    ensures Splice(s, p, []) == s
  {
  }

  lemma Enciphered(m: Message, length: nat, key: Key)
    requires HasBody(m, length)
    ensures Padded(length + 2) <= CAPACITY - 6 && Sendable(m)
    ensures AddHeader(m).start == 6 && AddHeader(m).size == length + 2
    ensures XteaEncrypt(AddHeader(m), key) ==
      Fields(Encrypted(Plain(m, length), 6, Padded(length + 2), key), CipherSize(length), CRYPTO + length, 6)
  {
    hide Encode, Splice, Encrypted;
    CipherSizes(length);
    SplicedNothing(Splice(m.buffer, 6, Encode(length, 2)), CRYPTO + length);
    assert Padding(0) == [];
  }

  // The checksum and the outer length go in front, up to the very start of the buffer.
  lemma CryptoHeader(m: Message)
    requires m.start == 6 && m.size <= 16363
    ensures var s := AddCryptoHeader(m, true);
      && s.start == 0 && s.size == m.size + 6
      && Framed(s) == Encode(m.size + 4, 2) + Encode(Checksum(Framed(m)), 4) + Framed(m)
  {
    hide Encode, Splice, Checksum;
    var sum := Encode(Checksum(Framed(m)), 4);
    var h := PutHeader(m, sum);
    assert h == m.(buffer := Splice(m.buffer, 2, sum), start := 2, size := m.size + 4);
    var outer := Encode(h.size, 2);
    var s := PutHeader(h, outer);
    assert s == h.(buffer := Splice(h.buffer, 0, outer), start := 0, size := m.size + 6);
    SpliceKeeps(h.buffer, 0, outer, 2, 6);
    SpliceKeeps(h.buffer, 0, outer, 6, m.size + 6);
    SpliceKeeps(m.buffer, 2, sum, 6, m.size + 6);
    ThreeParts(s.buffer, m.size + 6);
  }

  lemma ThreeParts(b: seq<U8>, n: nat)
    requires 6 <= n <= |b|
    ensures b[0..n] == b[0..2] + b[2..6] + b[6..n]
  {
  }

  function Cipher(m: Message, length: nat, key: Key): (c: seq<U8>)
    requires HasBody(m, length)
    ensures |c| == CipherSize(length)
  {
    CipherSizes(length);
    hide Encrypted, Plain;
    PlainHolds(m, length);
    Encrypted(Plain(m, length), 6, Padded(length + 2), key)[6..6 + CipherSize(length)]
  }

  function Frame(c: seq<U8>): seq<U8> { Encode(|c| + 4, 2) + Encode(Checksum(c), 4) + c }

  function Secure(key: Key): Options { Options(false, true, true, key) }

  lemma SecureSteps(m: Message, key: Key)
    requires Sendable(m)
    ensures var e := XteaEncrypt(AddHeader(m), key);
      e.start + e.size <= CAPACITY && OnSend(m, Secure(key)) == AddCryptoHeader(e, true)
  {
    hide XteaEncrypt, AddHeader, AddCryptoHeader;
    HeaderFits(m, key);
  }

  // Framing takes m_outputBufferStart from 8 to 0 and no further: no header is refused.
  lemma SentFrame(m: Message, length: nat, key: Key)
    requires HasBody(m, length)
    ensures Sendable(m)
    ensures var s := OnSend(m, Secure(key));
      s.start == 0 && s.size == CipherSize(length) + 6 && Framed(s) == Frame(Cipher(m, length, key))
  {
    hide XteaEncrypt, AddHeader, AddCryptoHeader, Encrypted, Plain, OnSend, Encode, Checksum, Secure, Padded, Sendable;
    Enciphered(m, length, key);
    CipherSizes(length);
    SecureSteps(m, key);
    CryptoHeader(XteaEncrypt(AddHeader(m), key));
  }

  // The other settings: nothing at all, the length alone, with the checksum, or with the encryption
  lemma OtherSettings(m: Message, length: nat, key: Key)
    requires HasBody(m, length)
    ensures Sendable(m) && forall e, c :: OnSend(m, Options(true, e, c, key)) == m
    ensures var s := OnSend(m, Options(false, false, false, key));
      s.start == 6 && s.size == length + 2 && Framed(s) == Sized(m, length)
    ensures var s := OnSend(m, Options(false, false, true, key));
      s.start == 0 && s.size == length + 8 && Framed(s) == Frame(Sized(m, length))
    ensures var s := OnSend(m, Options(false, true, false, key));
      s.start == 6 && s.size == CipherSize(length) && Framed(s) == Cipher(m, length, key)
  {
    hide Encode, Checksum, Encrypted, Plain, AddCryptoHeader, XteaEncrypt;
    CipherSizes(length);
    Enciphered(m, length, key);
    SizedFrame(m, length);
    CryptoHeader(AddHeader(m));
  }

  // The length in front of the body
  function Sized(m: Message, length: nat): (b: seq<U8>)
    requires HasBody(m, length)
    ensures |b| == length + 2
  {
    Encode(length, 2) + m.buffer[CRYPTO..CRYPTO + length]
  }

  lemma SizedFrame(m: Message, length: nat)
    requires HasBody(m, length)
    ensures AddHeader(m).start == 6 && AddHeader(m).size == length + 2 && Framed(AddHeader(m)) == Sized(m, length)
  {
    hide Encode;
    var b := AddHeader(m).buffer;
    SpliceKeeps(m.buffer, 6, Encode(length, 2), CRYPTO, CRYPTO + length);
    assert b[6..8 + length] == b[6..8] + b[8..8 + length];
  }

  // ----- the receiver -----

  lemma FrameParts(c: seq<U8>)
    ensures Frame(c)[..2] == Encode(|c| + 4, 2) && Frame(c)[2..6] == Encode(Checksum(c), 4) && Frame(c)[6..] == c
  {
    hide Encode, Checksum;
  }

  lemma HeaderRead(r: Message, size: nat)
    requires 0 < size < 16368
    ensures Announced(r.(buffer := Splice(r.buffer, 0, Encode(size, 2)))) ==
      Some(Fields(Splice(r.buffer, 0, Encode(size, 2)), size + 2, 2, r.start))
  {
    hide Encode, Decode;
    var b := Splice(r.buffer, 0, Encode(size, 2));
    WordSizes();
    DecodeEncode(size, 2);
    DecodePair(Encode(size, 2));
    assert b[0] == b[0..2][0] && b[1] == b[0..2][1];
  }

  // The buffer after a frame has been read into it
  function Arrived(r: Message, frame: seq<U8>): (b: seq<U8>)
    requires |frame| <= CAPACITY
    ensures |b| == CAPACITY
  {
    Splice(r.buffer, 0, frame)
  }

  lemma ArrivedParts(r: Message, c: seq<U8>)
    requires 0 < |c| <= 16363
    ensures var b := Arrived(r, Frame(c));
      b[2..6] == Encode(Checksum(c), 4) && b[6..6 + |c|] == c
  {
    hide Encode, Checksum;
    var b := Arrived(r, Frame(c));
    assert b[0..6 + |c|] == Frame(c);
    FrameParts(c);
    assert b[2..6] == b[0..6 + |c|][2..6] && b[6..6 + |c|] == b[0..6 + |c|][6..];
  }

  // A well-made frame passes the header and the checksum, and is left to the decryption.
  lemma FrameIsRead(r: Message, c: seq<U8>, key: Key)
    requires 0 < |c| <= 16363
    ensures |Frame(c)| == |c| + 6
    ensures Received(r, Frame(c), key) == XteaDecrypt(Fields(Arrived(r, Frame(c)), |c| + 6, 6, r.start), key)
  {
    hide Encode, Checksum, XteaDecrypt, Announced, Frame, Splice, Decode;
    FrameParts(c);
    FrameSize(c);
    HeaderRead(r, |c| + 4);
    var f := Frame(c);
    SpliceTwice(r.buffer, 0, f[..2], f[2..]);
    assert f == f[..2] + f[2..];
    var m := Fields(Arrived(r, f), |c| + 6, 2, r.start);
    ArrivedParts(r, c);
    ChecksumAgrees(m, c);
  }

  lemma FrameSize(c: seq<U8>)
    ensures |Frame(c)| == |c| + 6
  {
  }

  lemma ChecksumAgrees(m: Message, c: seq<U8>)
    requires 0 < |c| <= 16363 && m.position == 2 && m.size == |c| + 6
    requires m.buffer[2..6] == Encode(Checksum(c), 4) && m.buffer[6..6 + |c|] == c
    ensures ChecksumMatches(m) && Checked(m) == m.(position := 6)
  {
    hide Encode, Checksum, Decode;
    WordSizes();
    DecodeEncode(Checksum(c), 4);
  }

  lemma SameParts(b: seq<U8>, s: seq<U8>, n: nat, length: nat)
    requires 6 + n <= |b| && 6 + n <= |s| && length + 2 <= n && b[6..6 + n] == s[6..6 + n]
    ensures b[6..8] == s[6..8] && b[8..8 + length] == s[8..8 + length]
  {
    forall k | 6 <= k < 6 + n ensures b[k] == s[k] {
      assert b[k] == b[6..6 + n][k - 6] && s[k] == s[6..6 + n][k - 6];
    }
  }

  // Decryption accepts exactly whole blocks, and then gives back length and body.
  lemma Deciphered(x: Message, s: seq<U8>, length: nat, n: nat, size: nat, key: Key)
    requires length <= LONGEST && n == Padded(length + 2) && n <= 16368 && |s| == CAPACITY && length + 2 <= size <= n
    requires x.position == 6 && x.size == size + 6 && s[6..8] == Encode(length, 2)
    requires x.buffer[6..6 + size] == Encrypted(s, 6, n, key)[6..6 + size]
    ensures x.position + x.size - 6 <= CAPACITY
    ensures size % 8 != 0 ==> XteaDecrypt(x, key) == None
    ensures size % 8 == 0 ==>
      var d := XteaDecrypt(x, key);
      d.Some? && d.value.position == CRYPTO && d.value.size == length
      && d.value.buffer[CRYPTO..CRYPTO + length] == s[CRYPTO..CRYPTO + length]
  {
    hide Encrypted, Decrypted, Encode, Decode;
    if size % 8 == 0 {
      assert size == n;
      DecryptedIsOriginal(s, x.buffer, 6, n, key);
      var b := Decrypted(x.buffer, 6, n, key);
      SameParts(b, s, n, length);
      WordSizes();
      DecodeEncode(length, 2);
    }
  }

  // For every key, every body and every state of the receiver: the body arrives, exactly, at its
  // place and with its size, if and only if it is at most 16358 bytes long; longer ones, whose
  // padding is refused, are rejected by the decryption.
  lemma FrameRoundTrip(m: Message, length: nat, key: Key, r: Message)
    requires HasBody(m, length)
    ensures Sendable(m)
    ensures var s := OnSend(m, Secure(key));
      && s.start == 0 && HEADER <= s.size <= CAPACITY
      && (Received(r, Framed(s), key).Some? <==> length <= LONGEST_SECURE)
    ensures length <= LONGEST_SECURE ==>
      var d := Received(r, Framed(OnSend(m, Secure(key))), key);
      d.Some? && d.value.position == CRYPTO && d.value.size == length
      && d.value.buffer[CRYPTO..CRYPTO + length] == m.buffer[CRYPTO..CRYPTO + length]
  {
    hide OnSend, Received, XteaDecrypt, Encrypted, Plain, Frame, Encode;
    CipherSizes(length);
    SentFrame(m, length, key);
    PlainHolds(m, length);
    var c := Cipher(m, length, key);
    FrameIsRead(r, c, key);
    ArrivedParts(r, c);
    Deciphered(Fields(Arrived(r, Frame(c)), |c| + 6, 6, r.start), Plain(m, length), length,
      Padded(length + 2), CipherSize(length), key);
  }

  // From one end to the other: the fields stored in a message that is not too long are the fields
  // that the receiver reads, whatever they are.
  lemma FieldsArrive(m: Message, fs: seq<Field>, key: Key, r: Message)
    requires m.position == CRYPTO && m.size == 0 && m.start == CRYPTO
    ensures var w := WriteAll(m, fs);
      HasBody(w, w.size) && Sendable(w) && OnSend(w, Secure(key)).start == 0
      && HEADER <= OnSend(w, Secure(key)).size <= CAPACITY
    ensures var w := WriteAll(m, fs);
      w.size <= LONGEST_SECURE ==>
        var d := Received(r, Framed(OnSend(w, Secure(key))), key);
        d.Some? && d.value.position == CRYPTO && ReadAll(d.value, Kinds(Stored(m, fs))).0 == Stored(m, fs)
  {
    hide WriteAll, Stored, ReadAll, OnSend, Received, Images;
    BodyIsStored(m, fs);
    var w := WriteAll(m, fs);
    FrameRoundTrip(w, w.size, key, r);
    if w.size <= LONGEST_SECURE {
      var d := Received(r, Framed(OnSend(w, Secure(key))), key);
      StoredFieldsReadBack(m, fs, d.value);
    }
  }
}
