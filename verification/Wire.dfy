/** src/protocol/protocol.cpp: framing on the way out and decryption on the way in;
    src/net/connection.cpp: the header and checksum of a received packet. */
module Wire {
  import opened Wrappers
  import opened Words
  import opened Adler
  import opened Xtea
  import opened Messages

  // ----- sending -----

  // The size after padding to a multiple of 8
  function Padded(size: U16): (n: nat)
    ensures n % 8 == 0 && size <= n < size + 8
  {
    (size + 7) / 8 * 8
  }

  // XTEA_encrypt(): where the padding is refused, the bytes after the message are encrypted with it,
  // though the size does not include them.
  function XteaEncrypt(m: Message, key: Key): Message
    requires m.start + Padded(m.size) <= CAPACITY
  {
    var n := Padded(m.size);
    var p := if n > m.size then PutPadding(m, n - m.size) else m;
    p.(buffer := Encrypted(p.buffer, m.start, n, key))
  }

  datatype Options = Options(raw: bool, encryption: bool, checksum: bool, key: Key)

  // What onSendMessage needs so as not to leave the buffer
  predicate Sendable(m: Message) { m.size <= CAPACITY - CRYPTO - 8 }

  lemma HeaderFits(m: Message, key: Key)
    requires Sendable(m)
    ensures var m1 := AddHeader(m);
      m1.start + Padded(m1.size) <= CAPACITY && m1.start + m1.size <= CAPACITY
    ensures var m1 := AddHeader(m);
      m1.start + Padded(m1.size) <= CAPACITY ==>
        XteaEncrypt(m1, key).start + XteaEncrypt(m1, key).size <= CAPACITY
  {
    hide Splice, Encrypted;
  }

  function OnSend(m: Message, o: Options): Message
    requires Sendable(m)
  {
    hide XteaEncrypt, AddHeader;
    if o.raw then m
    else
      HeaderFits(m, o.key);
      var m1 := AddHeader(m);
      var m2 := if o.encryption then XteaEncrypt(m1, o.key) else m1;
      if o.checksum then AddCryptoHeader(m2, true) else m2
  }

  class Protocol {
    var m_rawMessages: bool
    var m_encryptionEnabled: bool
    var m_checksumEnabled: bool
    var m_key: Key

    ghost function Value(): Options
      reads this
    {
      Options(m_rawMessages, m_encryptionEnabled, m_checksumEnabled, m_key)
    }

    constructor ()
      ensures Value() == Options(false, false, false, [0, 0, 0, 0])
    {
      m_rawMessages, m_encryptionEnabled, m_checksumEnabled := false, false, false;
      m_key := [0, 0, 0, 0];
    }

    method Encrypt(msg: NetworkMessage)
      requires msg.Valid() && msg.m_outputBufferStart + Padded(msg.m_size) <= CAPACITY
      modifies msg`m_size, msg.m_buffer
      ensures msg.Valid() && msg.Value() == XteaEncrypt(old(msg.Value()), m_key)
    {
      hide Encrypted, PutPadding;
      var messageLength := msg.m_size;
      if messageLength % 8 != 0 {
        var n := 8 - messageLength % 8;
        msg.PutPaddingBytes(n);
        messageLength := messageLength + n;
      }
      Xtea.Encrypt(msg.m_buffer, msg.m_outputBufferStart, messageLength, m_key);
    }

    method OnSendMessage(msg: NetworkMessage)
      requires msg.Valid() && Sendable(msg.Value())
      modifies msg, msg.m_buffer
      ensures msg.Valid() && msg.Value() == OnSend(old(msg.Value()), Value())
    {
      if !m_rawMessages {
        HeaderFits(msg.Value(), m_key);
        hide XteaEncrypt, AddHeader, AddCryptoHeader;
        msg.PutSizeHeader();
        if m_encryptionEnabled {
          Encrypt(msg);
        }
        if m_checksumEnabled {
          msg.PutCryptoHeader(true);
        }
      }
    }

    // XTEA_decrypt(); the encrypted bytes must lie in the buffer.
    method Decrypt(msg: NetworkMessage) returns (ok: bool)
      requires msg.Valid() && msg.m_position <= CAPACITY && msg.m_position + msg.m_size - 6 <= CAPACITY
      modifies msg`m_size, msg`m_position, msg.m_buffer
      ensures msg.Valid()
      ensures ok <==> XteaDecrypt(old(msg.Value()), m_key).Some?
      ensures ok ==> msg.Value() == XteaDecrypt(old(msg.Value()), m_key).value
    {
      hide Decrypted;
      if (msg.m_size - 6) % 8 != 0 {
        return false;
      }
      var messageLength := msg.m_size - 6;
      Xtea.Decrypt(msg.m_buffer, msg.m_position, messageLength, m_key);
      WordSizes();
      var tmp := msg.GetValue(2, false);
      if tmp > msg.m_size - 8 {
        return false;
      }
      msg.m_size := tmp;
      return true;
    }
  }

  // ----- receiving -----

  // parseHeader() refuses sizes of 0 and of 16368 and more.
  function Announced(m: Message): Option<Message> {
    var size := DecodedHeader(m);
    if size <= 0 || size >= CAPACITY - 16 then None else Some(m.(size := size + HEADER, position := HEADER))
  }

  // parsePacket(): the checksum is compared with the four bytes in front of the payload. Where they
  // agree they are skipped, else they stay part of the message.
  predicate ChecksumMatches(m: Message)
    requires m.position <= CAPACITY && m.size <= CAPACITY
  {
    var length := m.size - m.position - 4;
    Get(m, 4) == if length > 0 then Checksum(m.buffer[m.position + 4..m.size]) else 0
  }

  function Checked(m: Message): Message
    requires m.position <= CAPACITY && m.size <= CAPACITY
  {
    if ChecksumMatches(m) then m.(position := Wrap16(m.position + 4)) else m
  }

  function XteaDecrypt(m: Message, key: Key): Option<Message>
    requires m.position <= CAPACITY && m.position + m.size - 6 <= CAPACITY
  {
    if (m.size - 6) % 8 != 0 then None
    else
      WordSizes();
      var d := m.(buffer := Decrypted(m.buffer, m.position, m.size - 6, key));
      var tmp := Get(d, 2);
      if tmp > m.size - 8 then None else Some(Got(d, 2).(size := tmp))
  }

  // Which announced sizes are taken
  lemma WhichSizes(m: Message)
    ensures var size := (m.buffer[0] as int) + 0x100 * (m.buffer[1] as int);
      Announced(m) == if 0 < size < 16368 then Some(Fields(m.buffer, size + 2, 2, m.start)) else None
  {
  }

  // Without payload the checksum has to be 0, otherwise that of the bytes behind it.
  lemma WhichChecksum(m: Message)
    requires m.position <= 16384 && m.size <= 16384
    ensures m.size <= m.position + 4 ==> (ChecksumMatches(m) <==> Get(m, 4) == 0)
    ensures m.size > m.position + 4 ==>
      (ChecksumMatches(m) <==> Get(m, 4) == Checksum(m.buffer[m.position + 4..m.size]))
    ensures Checked(m) == if ChecksumMatches(m) then m.(position := m.position + 4) else m
  {
    hide Get, Checksum;
  }

  // Which messages are decrypted: whole blocks, and an inner length that fits into them.
  lemma WhichDecrypted(m: Message, key: Key)
    requires m.position < 16382 && m.position + m.size - 6 <= 16384
    ensures m.size % 8 != 6 ==> XteaDecrypt(m, key) == None
    ensures m.size % 8 == 6 ==>
      var b := Decrypted(m.buffer, m.position, m.size - 6, key);
      var inner := Decode(b[m.position..m.position + 2]);
      XteaDecrypt(m, key) == if inner <= m.size - 8 then Some(Fields(b, inner, m.position + 2, m.start)) else None
  {
    hide Decrypted, Decode;
    EightAndSix(m.size);
  }

  lemma EightAndSix(n: nat)
    ensures (n - 6) % 8 == 0 <==> n % 8 == 6
    ensures n % 8 == 6 ==> n >= 6
  {
  }

  // The reading side of a connection: the two handlers up to the protocol's turn
  class PacketReader {
    // parseHeader(): how many bytes to read next, None if the connection is to be closed
    static method ParseHeader(msg: NetworkMessage) returns (wanted: Option<nat>)
      requires msg.Valid()
      modifies msg`m_size, msg`m_position
      ensures msg.Valid()
      ensures wanted.Some? <==> Announced(old(msg.Value())).Some?
      ensures wanted.Some? ==> msg.Value() == Announced(old(msg.Value())).value
      // the read stays inside the buffer, and so do the checksum and the decryption
      ensures wanted.Some? ==> HEADER + wanted.value == msg.m_size && msg.m_position + 4 + msg.m_size - 6 <= CAPACITY
    {
      var size := msg.DecodeHeader();
      if size <= 0 || size >= CAPACITY - 16 {
        return None;
      }
      msg.Expect(size + HEADER);
      return Some(size);
    }

    static method ParsePacket(msg: NetworkMessage) returns (checksumEnabled: bool)
      requires msg.Valid() && msg.m_position <= CAPACITY && msg.m_size <= CAPACITY
      modifies msg`m_position
      ensures msg.Valid() && checksumEnabled == ChecksumMatches(old(msg.Value()))
      ensures msg.Value() == Checked(old(msg.Value()))
    {
      hide Checksum, Get;
      var length := msg.m_size - msg.m_position - 4;
      var checksumReceived := msg.GetValue(4, true);
      var checksum := 0;
      if length > 0 {
        msg.SameBytes(msg.m_position + 4, length);
        checksum := AdlerChecksum(msg.m_buffer, msg.m_position + 4, length);
      }
      checksumEnabled := false;
      if checksumReceived == checksum {
        msg.Skip(4);
        checksumEnabled := true;
      }
    }
  }

  // ----- the round trip -----

  // What has become of a frame in a receiver with a key: it reads the header into its buffer, then
  // as many bytes as announced, and hands the message to a protocol that decrypts.
  function Received(r: Message, frame: seq<U8>, key: Key): Option<Message>
    requires HEADER <= |frame| <= CAPACITY
  {
    var header := Announced(r.(buffer := Splice(r.buffer, 0, frame[..HEADER])));
    if header.None? || header.value.size != |frame| then None
    else
      var m := header.value.(buffer := Splice(header.value.buffer, HEADER, frame[HEADER..]));
      if ChecksumMatches(m) then XteaDecrypt(Checked(m), key) else None
  }
}
