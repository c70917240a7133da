/** src/net/networkmessage.{h,cpp}, src/net/outputmessage.h: a message and its 16384-byte buffer. */
module Messages {
  import opened Words
  import opened Adler
  import opened Xtea

  const CAPACITY := 16384
  const HEADER := 2
  const CRYPTO := 8
  const BODY := 16370
  const LONGEST_TEXT := 8192

  // A message's fields; `start` is m_outputBufferStart, which never exceeds its initial value.
  datatype Fields = Fields(buffer: seq<U8>, size: U16, position: U16, start: nat)

  type Message = m: Fields | |m.buffer| == CAPACITY && m.start <= CRYPTO
    witness Fields(seq(CAPACITY, _ => 0), 0, CRYPTO, CRYPTO)

  predicate HasSpace(m: Message, n: int) { n + m.position < BODY }

  // Writing at the position, which moves behind what is written
  function Append(m: Message, bytes: seq<U8>): Message
    requires m.position + |bytes| <= CAPACITY
  {
    Fields(Splice(m.buffer, m.position, bytes), Wrap16(m.size + |bytes|), m.position + |bytes|, m.start)
  }

  function Put(m: Message, bytes: seq<U8>): Message {
    if HasSpace(m, |bytes|) then Append(m, bytes) else m
  }

  lemma AppendMoves(m: Message, bytes: seq<U8>)
    requires m.position + |bytes| <= CAPACITY
    ensures Append(m, bytes).position == m.position + |bytes|
  {
  }

  lemma AppendTwice(m: Message, a: seq<U8>, b: seq<U8>)
    requires m.position + |a| + |b| <= CAPACITY
    ensures Append(m, a).position == m.position + |a|
    ensures Append(Append(m, a), b) == Append(m, a + b)
  {
    hide Splice;
    SpliceTwice(m.buffer, m.position, a, b);
  }

  // putString(): text too long for the room left or for its length prefix is dropped.
  predicate Refused(m: Message, text: seq<U8>, addSize: bool) {
    !HasSpace(m, |text| + if addSize then 2 else 0) || |text| > if addSize then LONGEST_TEXT else BODY
  }

  function Prefixed(text: seq<U8>): seq<U8> { Encode(|text|, 2) + text }

  function PutString(m: Message, text: seq<U8>, addSize: bool): Message {
    if Refused(m, text, addSize) then m else Put(m, if addSize then Prefixed(text) else text)
  }

  function Padding(n: nat): (p: seq<U8>)
    ensures |p| == n
  {
    seq(n, _ => 0x33)
  }

  // putPadding() does not move the position.
  function PutPadding(m: Message, n: nat): Message {
    if HasSpace(m, n) then m.(buffer := Splice(m.buffer, m.position, Padding(n)), size := Wrap16(m.size + n)) else m
  }

  // get<T>() of w bytes; the position must lie in the buffer.
  function Get(m: Message, w: nat): (v: nat)
    requires m.position <= CAPACITY
    ensures v < Pow256(w)
  {
    if w >= CAPACITY - m.position then 0 else Decode(m.buffer[m.position..m.position + w])
  }

  function Got(m: Message, w: nat): (r: Message)
    requires m.position <= CAPACITY
    ensures r == m.(position := r.position) && r.position <= CAPACITY
  {
    if w >= CAPACITY - m.position then m else m.(position := m.position + w)
  }

  // getString(): without a size it reads the length first; peeking it skips two bytes for the length
  // whether or not it has read one.
  function TextSize(m: Message, size: U16): (n: nat)
    requires size == 0 ==> m.position <= CAPACITY
    ensures n < 0x1_0000
  {
    WordSizes();
    if size == 0 then Get(m, 2) else size
  }

  function AfterSize(m: Message, peek: bool, size: U16): Message
    requires size == 0 ==> m.position <= CAPACITY
  {
    if size == 0 && !peek then Got(m, 2) else m
  }

  function TextStart(m: Message, peek: bool, size: U16): U16
    requires size == 0 ==> m.position <= CAPACITY
  {
    var r := AfterSize(m, peek, size);
    if peek then Wrap16(r.position + 2) else r.position
  }

  function TextRead(m: Message, peek: bool, size: U16): seq<U8>
    requires size == 0 ==> m.position <= CAPACITY
  {
    var n, p := TextSize(m, size), TextStart(m, peek, size);
    if n >= CAPACITY - p then [] else m.buffer[p..p + n]
  }

  function AfterText(m: Message, peek: bool, size: U16): Message
    requires size == 0 ==> m.position <= CAPACITY
  {
    var n, p, r := TextSize(m, size), TextStart(m, peek, size), AfterSize(m, peek, size);
    if n >= CAPACITY - p || peek then r else r.(position := p + n)
  }

  // A value is read exactly where it ends before the last byte of the buffer.
  lemma NearTheEnd(m: Message, w: nat)
    requires m.position <= 16384
    ensures m.position + w < 16384 ==>
      Get(m, w) == Decode(m.buffer[m.position..m.position + w]) && Got(m, w) == m.(position := m.position + w)
    ensures m.position + w >= 16384 ==> Get(m, w) == 0 && Got(m, w) == m
  {
  }

  // Peeking at a text gives what reading it gives, and leaves the message alone.
  lemma PeekIsRead(m: Message)
    requires m.position <= 16384
    ensures TextRead(m, true, 0) == TextRead(m, false, 0) && AfterText(m, true, 0) == m
  {
    hide Decode;
  }

  // A text of a given size is read from the position, or, peeking, from two bytes behind it.
  lemma SizedText(m: Message, size: U16, peek: bool)
    requires 0 < size && m.position < 0xFFFE
    ensures var p := m.position + if peek then 2 else 0;
      && (p + size < 16384 ==>
            && TextRead(m, peek, size) == m.buffer[p..p + size]
            && AfterText(m, peek, size) == if peek then m else m.(position := p + size))
      && (p + size >= 16384 ==> TextRead(m, peek, size) == [] && AfterText(m, peek, size) == m)
  {
  }

  // What the writers refuse or do, in numbers
  lemma TextsExactly(m: Message, text: seq<U8>)
    ensures PutString(m, text, true) ==
      if |text| <= 8192 && m.position + |text| < 16368 then Append(m, Encode(|text|, 2) + text) else m
    ensures PutString(m, text, false) == if m.position + |text| < 16370 then Append(m, text) else m
  {
    hide Encode, Append;
  }

  lemma PaddingExactly(m: Message, n: nat)
    ensures m.position + n >= 16370 ==> PutPadding(m, n) == m
    ensures m.position + n < 16370 ==>
      var r := PutPadding(m, n);
      && r.position == m.position && r.size == (m.size + n) % 0x1_0000 && r.start == m.start
      && r.buffer[..m.position] == m.buffer[..m.position] && r.buffer[m.position + n..] == m.buffer[m.position + n..]
      && r.buffer[m.position..m.position + n] == seq(n, _ => 0x33)
  {
    hide Splice;
  }

  // The form the protocols use
  function GetText(m: Message): seq<U8>
    requires m.position <= CAPACITY
  {
    TextRead(m, false, 0)
  }

  function GotText(m: Message): Message
    requires m.position <= CAPACITY
  {
    AfterText(m, false, 0)
  }

  // header<T>(): the value goes in front of what is there, if there is room.
  function PutHeader(m: Message, bytes: seq<U8>): Message {
    if m.start - |bytes| < 0 then m
    else m.(buffer := Splice(m.buffer, m.start - |bytes|, bytes),
            start := m.start - |bytes|,
            size := Wrap16(m.size + |bytes|))
  }

  function AddHeader(m: Message): Message { PutHeader(m, Encode(m.size, 2)) }

  // The bytes from m_outputBufferStart on, as they are sent
  function Framed(m: Message): seq<U8>
    requires m.start + m.size <= CAPACITY
  {
    m.buffer[m.start..m.start + m.size]
  }

  function AddCryptoHeader(m: Message, addChecksum: bool): Message
    requires m.start + m.size <= CAPACITY
  {
    AddHeader(if addChecksum then PutHeader(m, Encode(Checksum(Framed(m)), 4)) else m)
  }

  function DecodedHeader(m: Message): U16 {
    (m.buffer[0] as int) + 0x100 * (m.buffer[1] as int)
  }

  class NetworkMessage {
    const m_buffer: array<U8>
    var m_size: U16
    var m_position: U16
    var m_outputBufferStart: nat

    ghost predicate Valid()
      reads this
    {
      m_buffer.Length == CAPACITY && m_outputBufferStart <= CRYPTO
    }

    ghost function Value(): Message
      reads this, m_buffer
      requires Valid()
    {
      Fields(m_buffer[..], m_size, m_position, m_outputBufferStart)
    }

    constructor ()
      ensures Valid() && fresh(m_buffer)
      ensures Value().size == 0 && Value().position == CRYPTO && Value().start == CRYPTO
    {
      m_buffer := new U8[CAPACITY](_ => 0);
      m_size, m_position, m_outputBufferStart := 0, CRYPTO, CRYPTO;
    }

    method Reset(size: U16)
      requires Valid()
      modifies this`m_size, this`m_position
      ensures Valid() && Value() == old(Value()).(size := 0, position := size)
    {
      m_size := 0;
      m_position := size;
    }

    method PutValue(value: nat, width: nat)
      requires Valid() && value < Pow256(width)
      modifies this`m_size, this`m_position, m_buffer
      ensures Valid() && Value() == Put(old(Value()), Encode(value, width))
    {
      if !(width + m_position < BODY) {
        return;
      }
      Store(m_buffer, m_position, Encode(value, width));
      m_position := m_position + width;
      m_size := Wrap16(m_size + width);
    }

    // The memcpy of putString
    method Copy(bytes: seq<U8>)
      requires Valid() && m_position + |bytes| <= CAPACITY
      modifies this`m_size, this`m_position, m_buffer
      ensures Valid() && Value() == Append(old(Value()), bytes)
    {
      Store(m_buffer, m_position, bytes);
      m_position := m_position + |bytes|;
      m_size := Wrap16(m_size + |bytes|);
    }

    method PutText(text: seq<U8>, addSize: bool)
      requires Valid()
      modifies this`m_size, this`m_position, m_buffer
      ensures Valid() && Value() == PutString(old(Value()), text, addSize)
    {
      if !(|text| + (if addSize then 2 else 0) + m_position < BODY)
        || |text| > (if addSize then LONGEST_TEXT else BODY) {
        return;
      }
      hide Append, Encode;
      WordSizes();
      AppendMoves(Value(), Encode(|text|, 2));
      if addSize {
        AppendTwice(Value(), Encode(|text|, 2), text);
        PutValue(|text|, 2);
      }
      Copy(text);
    }

    method PutPaddingBytes(amount: nat)
      requires Valid()
      modifies this`m_size, m_buffer
      ensures Valid() && Value() == PutPadding(old(Value()), amount)
    {
      if !(amount + m_position < BODY) {
        return;
      }
      Store(m_buffer, m_position, Padding(amount));
      m_size := Wrap16(m_size + amount);
    }

    method GetValue(width: nat, peek: bool) returns (value: nat)
      requires Valid() && m_position <= CAPACITY
      modifies this`m_position
      ensures Valid() && value == Get(old(Value()), width)
      ensures Value() == if peek then old(Value()) else Got(old(Value()), width)
    {
      if width >= CAPACITY - m_position {
        return 0;
      }
      SameBytes(m_position, width);
      value := Decode(m_buffer[m_position..m_position + width]);
      if !peek {
        m_position := m_position + width;
      }
    }

    lemma SameBytes(p: nat, n: nat)
      requires p + n <= m_buffer.Length
      ensures m_buffer[p..p + n] == m_buffer[..][p..p + n]
    {
    }

    method GetString(peek: bool, size0: U16) returns (text: seq<U8>)
      requires Valid() && (size0 == 0 ==> m_position <= CAPACITY)
      modifies this`m_position
      ensures Valid()
      ensures text == TextRead(old(Value()), peek, size0) && Value() == AfterText(old(Value()), peek, size0)
    {
      hide Decode, Get, Got, Wrap16;
      WordSizes();
      var size: nat := size0;
      if size == 0 {
        size := GetValue(2, peek);
      }
      var position := m_position;
      if peek {
        position := Wrap16(position + 2);
      }
      if size >= CAPACITY - position {
        return [];
      }
      SameBytes(position, size);
      text := m_buffer[position..position + size];
      if !peek {
        m_position := m_position + size;
      }
    }

    // getRaw(): the rest of the message; where nothing is left it reads a length, as getString does.
    method GetRaw(peek: bool) returns (text: seq<U8>)
      requires Valid() && (m_size == m_position ==> m_position <= CAPACITY)
      modifies this`m_position
      ensures Valid()
      ensures var size := Wrap16(old(m_size) - old(m_position));
        text == TextRead(old(Value()), peek, size) && Value() == AfterText(old(Value()), peek, size)
    {
      text := GetString(peek, Wrap16(m_size - m_position));
    }

    method Skip(count: int)
      requires Valid()
      modifies this`m_position
      ensures Valid() && Value() == old(Value()).(position := Wrap16(old(m_position) + count))
    {
      m_position := Wrap16(m_position + count);
    }

    method DecodeHeader() returns (size: U16)
      requires Valid()
      modifies this`m_size
      ensures Valid() && size == DecodedHeader(old(Value())) && Value() == old(Value()).(size := size)
    {
      size := (m_buffer[0] as int) + 0x100 * (m_buffer[1] as int);
      m_size := size;
    }

    // writeBuffer() and setSize(), as the reader of a packet uses them
    method Expect(size: U16)
      requires Valid()
      modifies this`m_size, this`m_position
      ensures Valid() && Value() == old(Value()).(size := size, position := HEADER)
    {
      m_size := size;
      m_position := HEADER;
    }

    method Header(value: nat, width: nat)
      requires Valid() && value < Pow256(width)
      modifies this`m_size, this`m_outputBufferStart, m_buffer
      ensures Valid() && Value() == PutHeader(old(Value()), Encode(value, width))
    {
      if m_outputBufferStart - width < 0 {
        return;
      }
      m_outputBufferStart := m_outputBufferStart - width;
      Store(m_buffer, m_outputBufferStart, Encode(value, width));
      m_size := Wrap16(m_size + width);
    }

    method PutSizeHeader()
      requires Valid()
      modifies this`m_size, this`m_outputBufferStart, m_buffer
      ensures Valid() && Value() == AddHeader(old(Value()))
    {
      hide PutHeader;
      WordSizes();
      Header(m_size, 2);
    }

    method PutCryptoHeader(addChecksum: bool)
      requires Valid() && m_outputBufferStart + m_size <= CAPACITY
      modifies this`m_size, this`m_outputBufferStart, m_buffer
      ensures Valid() && Value() == AddCryptoHeader(old(Value()), addChecksum)
    {
      hide PutHeader, Checksum;
      WordSizes();
      if addChecksum {
        SameBytes(m_outputBufferStart, m_size);
        var checksum := AdlerChecksum(m_buffer, m_outputBufferStart, m_size);
        Header(checksum, 4);
      }
      PutSizeHeader();
    }
  }
}
