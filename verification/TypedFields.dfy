/** What a list of put and putString calls stores, and that get and getString give it back. */
module TypedFields {
  import opened Words
  import opened Messages

  datatype Kind = Byte | Short | Long | Text

  // A value to write: put<uint8_t>, put<uint16_t>, put<uint32_t>, or putString
  datatype Field =
    | U8Field(byte: U8)
    | U16Field(short: U16)
    | U32Field(long: U32)
    | TextField(text: seq<U8>)

  function KindOf(f: Field): Kind {
    match f
    case U8Field(_) => Byte
    case U16Field(_) => Short
    case U32Field(_) => Long
    case TextField(_) => Text
  }

  function Write(m: Message, f: Field): Message {
    match f
    case U8Field(v) => Put(m, Encode(v, 1))
    case U16Field(v) => Put(m, Encode(v, 2))
    case U32Field(v) => Put(m, Encode(v, 4))
    case TextField(s) => PutString(m, s, true)
  }

  function Read(m: Message, k: Kind): (Field, Message)
    requires m.position <= CAPACITY
  {
    WordSizes();
    match k
    case Byte => (U8Field(Get(m, 1)), Got(m, 1))
    case Short => (U16Field(Get(m, 2)), Got(m, 2))
    case Long => (U32Field(Get(m, 4)), Got(m, 4))
    case Text => (TextField(GetText(m)), GotText(m))
  }

  // The wire form of a field
  function Image(f: Field): seq<U8> {
    match f
    case U8Field(v) => Encode(v, 1)
    case U16Field(v) => Encode(v, 2)
    case U32Field(v) => Encode(v, 4)
    case TextField(s) => Prefixed(s)
  }

  function Images(fs: seq<Field>): seq<U8> {
    if fs == [] then [] else Images(fs[..|fs| - 1]) + Image(fs[|fs| - 1])
  }

  predicate Fits(m: Message, f: Field) {
    HasSpace(m, |Image(f)|) && (f.TextField? ==> |f.text| <= LONGEST_TEXT)
  }

  function WriteAll(m: Message, fs: seq<Field>): Message {
    if fs == [] then m else Write(WriteAll(m, fs[..|fs| - 1]), fs[|fs| - 1])
  }

  // The fields that are not dropped
  function Stored(m: Message, fs: seq<Field>): seq<Field> {
    if fs == [] then []
    else
      var done := fs[..|fs| - 1];
      Stored(m, done) + if Fits(WriteAll(m, done), fs[|fs| - 1]) then [fs[|fs| - 1]] else []
  }

  // A message as it is written by a protocol: the body starts at 8, and size is its length.
  predicate Composing(m: Message) {
    CRYPTO <= m.position < BODY && m.size == m.position - CRYPTO
  }

  // The bytes of a field: the low byte first, and the length of a text in front of it
  lemma ImageBytes(f: Field)
    ensures match f
      case U8Field(v) => Image(f) == [v]
      case U16Field(v) => Image(f) == [v % 0x100, v / 0x100]
      case U32Field(v) => Image(f) == 
        [v % 0x100, v / 0x100 % 0x100, v / 0x100 / 0x100 % 0x100, v / 0x100 / 0x100 / 0x100]
      case TextField(s) => |s| < 0x1_0000 ==> Image(f) == [|s| % 0x100, |s| / 0x100] + s
  {
    hide Encode;
    match f {
      case U8Field(v) => NextByte(v, 0, 1);
      case U16Field(v) => ShortBytes(v);
      case U32Field(v) => LongBytes(v);
      case TextField(s) => if |s| < 0x1_0000 { ShortBytes(|s|); }
    }
  }

  // Which fields are stored: those that end before 16370, and no text of more than 8192 bytes
  lemma FitsExactly(m: Message, f: Field)
    ensures Fits(m, f) <==> match f
      case U8Field(_) => m.position < 16369
      case U16Field(_) => m.position < 16368
      case U32Field(_) => m.position < 16366
      case TextField(s) => |s| <= 8192 && m.position + |s| < 16368
  {
    hide Encode;
  }

  // A field that fits is stored whole, behind what is there; one that does not leaves no trace.
  lemma WritesWhole(m: Message, f: Field)
    requires Composing(m)
    ensures var w := Write(m, f);
      && Composing(w)
      && (!Fits(m, f) ==> w == m)
      && w.start == m.start
      && (Fits(m, f) ==> w.position == m.position + |Image(f)|)
      && (Fits(m, f) ==> w.buffer[CRYPTO..w.position] == m.buffer[CRYPTO..m.position] + Image(f))
  {
    hide Encode;
    if Fits(m, f) {
      var w := Append(m, Image(f));
      assert w.buffer[CRYPTO..w.position] == m.buffer[CRYPTO..m.position] + Image(f) by {
        hide Image;
        AppendsAt(m, Image(f));
      }
    }
  }

  lemma AppendsAt(m: Message, bytes: seq<U8>)
    requires CRYPTO <= m.position && m.position + |bytes| <= CAPACITY
    ensures Append(m, bytes).buffer[CRYPTO..m.position + |bytes|] == m.buffer[CRYPTO..m.position] + bytes
  {
    var b, q := Append(m, bytes).buffer, m.position + |bytes|;
    assert b[CRYPTO..q] == b[..m.position][CRYPTO..] + b[m.position..q];
    assert m.buffer[..m.position][CRYPTO..] == m.buffer[CRYPTO..m.position];
  }

  // Over any list of fields the body holds exactly the images of the stored fields, its length is
  // the size, and the position never passes 16369.
  lemma {:induction false} BodyIsStored(m: Message, fs: seq<Field>)
    requires Composing(m) && m.position == CRYPTO
    ensures var w := WriteAll(m, fs);
      && w.size == w.position - CRYPTO && w.position <= 16369 && w.position >= CRYPTO
      && w.start == m.start
      && w.buffer[CRYPTO..w.position] == Images(Stored(m, fs))
  {
    hide Fits, Image, Write;
    if fs != [] {
      var done, f := fs[..|fs| - 1], fs[|fs| - 1];
      BodyIsStored(m, done);
      WritesWhole(WriteAll(m, done), f);
      ImagesAppend(Stored(m, done), f);
    }
  }

  lemma ImagesAppend(fs: seq<Field>, f: Field)
    ensures Images(fs + [f]) == Images(fs) + Image(f)
    ensures fs + [] == fs
  {
    assert (fs + [f])[..|fs|] == fs;
  }

  // ----- reading back -----

  function ReadAll(m: Message, kinds: seq<Kind>): (seq<Field>, Message)
    requires m.position <= CAPACITY
    ensures ReadAll(m, kinds).1.position <= CAPACITY
  {
    if kinds == [] then ([], m)
    else
      var r := ReadAll(m, kinds[..|kinds| - 1]);
      var (f, n) := Read(r.1, kinds[|kinds| - 1]);
      (r.0 + [f], n)
  }

  function Kinds(fs: seq<Field>): (ks: seq<Kind>)
    ensures |ks| == |fs|
  {
    seq(|fs|, i requires 0 <= i < |fs| => KindOf(fs[i]))
  }

  predicate Readable(fs: seq<Field>) {
    forall f :: f in fs && f.TextField? ==> |f.text| <= LONGEST_TEXT
  }

  lemma {:induction false} StoredIsReadable(m: Message, fs: seq<Field>)
    ensures Readable(Stored(m, fs))
  {
    if fs != [] {
      StoredIsReadable(m, fs[..|fs| - 1]);
    }
  }

  lemma PrefixAndText(buffer: seq<U8>, p: nat, a: seq<U8>, b: seq<U8>)
    requires p + |a| + |b| <= |buffer| && buffer[p..p + (|a| + |b|)] == a + b
    ensures buffer[p..p + |a|] == a && buffer[p + |a|..p + |a| + |b|] == b
  {
    var both := buffer[p..p + (|a| + |b|)];
    assert buffer[p..p + |a|] == both[..|a|];
    assert buffer[p + |a|..p + |a| + |b|] == both[|a|..];
  }

  // Where the image of a field lies at the position, reading its kind gives the field.
  lemma ReadsImage(r: Message, f: Field)
    requires r.position + |Image(f)| < BODY && (f.TextField? ==> |f.text| <= LONGEST_TEXT)
    requires r.buffer[r.position..r.position + |Image(f)|] == Image(f)
    ensures Read(r, KindOf(f)) == (f, r.(position := r.position + |Image(f)|))
  {
    hide Encode, Decode, Pow256;
    WordSizes();
    match f {
      case U8Field(v) => DecodeEncode(v, 1);
      case U16Field(v) => DecodeEncode(v, 2);
      case U32Field(v) => DecodeEncode(v, 4);
      case TextField(s) =>
        DecodeEncode(|s|, 2);
        PrefixAndText(r.buffer, r.position, Encode(|s|, 2), s);
    }
  }

  // Reading the kinds of fields whose images lie at 8 gives exactly those fields.
  lemma {:induction false} ReadsImages(r: Message, fs: seq<Field>)
    requires r.position == CRYPTO && CRYPTO + |Images(fs)| < BODY && Readable(fs)
    requires r.buffer[CRYPTO..CRYPTO + |Images(fs)|] == Images(fs)
    ensures ReadAll(r, Kinds(fs)) == (fs, r.(position := CRYPTO + |Images(fs)|))
  {
    hide Image, KindOf, Read;
    if fs != [] {
      var less, f := fs[..|fs| - 1], fs[|fs| - 1];
      var n := CRYPTO + |Images(less)|;
      Segments(r.buffer, Images(less), Image(f));
      ReadsImages(r, less);
      ReadsImage(r.(position := n), f);
      ReadOneMore(r, fs);
    }
  }

  lemma Segments(buffer: seq<U8>, a: seq<U8>, b: seq<U8>)
    requires CRYPTO + |a| + |b| <= |buffer| && buffer[CRYPTO..CRYPTO + |a| + |b|] == a + b
    ensures buffer[CRYPTO..CRYPTO + |a|] == a && buffer[CRYPTO + |a|..CRYPTO + |a| + |b|] == b
  {
    var all := buffer[CRYPTO..CRYPTO + |a| + |b|];
    assert buffer[CRYPTO..CRYPTO + |a|] == all[..|a|];
    assert buffer[CRYPTO + |a|..CRYPTO + |a| + |b|] == all[|a|..];
  }

  lemma ReadOneMore(r: Message, fs: seq<Field>)
    requires r.position <= CAPACITY && fs != []
    ensures var less := ReadAll(r, Kinds(fs[..|fs| - 1]));
      var last := Read(less.1, KindOf(fs[|fs| - 1]));
      ReadAll(r, Kinds(fs)) == (less.0 + [last.0], last.1) && fs[..|fs| - 1] + [fs[|fs| - 1]] == fs
  {
    hide Read;
    assert Kinds(fs)[..|fs| - 1] == Kinds(fs[..|fs| - 1]);
  }

  // Whatever list of fields is written into an empty message, a reader whose buffer holds the body
  // gets back exactly the stored ones, and ends at the end of the body.
  lemma StoredFieldsReadBack(m: Message, fs: seq<Field>, r: Message)
    requires m.position == CRYPTO && m.size == 0 && r.position == CRYPTO
    requires var w := WriteAll(m, fs);
      CRYPTO <= w.position <= CAPACITY ==> r.buffer[CRYPTO..w.position] == w.buffer[CRYPTO..w.position]
    ensures var w := WriteAll(m, fs);
      var back := ReadAll(r, Kinds(Stored(m, fs)));
      back.0 == Stored(m, fs) && back.1.position == w.position == CRYPTO + w.size
  {
    hide Stored, WriteAll, ReadAll, Readable, Images;
    BodyIsStored(m, fs);
    StoredIsReadable(m, fs);
    ReadsImages(r, Stored(m, fs));
  }
}
