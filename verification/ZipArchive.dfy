/** Little-endian records of 16- and 32-bit fields: the byte layout of every ZIP header. */
module LittleEndian {
  import opened Wrappers

  newtype Byte = x: int | 0 <= x < 256

  type Bytes = seq<Byte>

  const U16_MAX: nat := 0xffff
  const U32_MAX: nat := 0xffff_ffff

  function ToByte(value: nat): Byte { (value % 256) as Byte }

  /** The two low-order bytes of `value`. */
  function U16Bytes(value: nat): (bytes: Bytes)
    ensures |bytes| == 2
  {
    [ToByte(value), ToByte(value / 256)]
  }

  function U32Bytes(value: nat): (bytes: Bytes)
    ensures |bytes| == 4
  {
    U16Bytes(value) + U16Bytes(value / 0x1_0000)
  }

  function U16Value(bytes: Bytes): (value: nat)
    requires |bytes| == 2
    ensures value <= U16_MAX
  {
    bytes[0] as nat + 256 * (bytes[1] as nat)
  }

  function U32Value(bytes: Bytes): (value: nat)
    requires |bytes| == 4
    ensures value <= U32_MAX
  {
    U16Value(bytes[..2]) + 0x1_0000 * U16Value(bytes[2..])
  }

  lemma U16RoundTrip(value: nat)
    ensures U16Value(U16Bytes(value)) == value % 0x1_0000
  {
    var q := value / 256;
    assert value == 256 * q + value % 256 && q == 256 * (q / 256) + q % 256;
    assert value == 0x1_0000 * (q / 256) + (256 * (q % 256) + value % 256);
  }

  lemma U32RoundTrip(value: nat)
    requires value <= U32_MAX
    ensures U32Value(U32Bytes(value)) == value
  {
    U16RoundTrip(value);
    U16RoundTrip(value / 0x1_0000);
    assert U32Bytes(value)[..2] == U16Bytes(value);
    assert U32Bytes(value)[2..] == U16Bytes(value / 0x1_0000);
  }

  /** Consecutive fields, first one outermost. */
  datatype Record = End | Half(half: nat, next: Record) | Word(word: nat, next: Record)

  datatype Layout = Stop | TakeHalf(next: Layout) | TakeWord(next: Layout)

  function LayoutOf(r: Record): Layout {
    match r
    case End => Stop
    case Half(_, next) => TakeHalf(LayoutOf(next))
    case Word(_, next) => TakeWord(LayoutOf(next))
  }

  predicate InRange(r: Record) {
    match r
    case End => true
    case Half(value, next) => value <= U16_MAX && InRange(next)
    case Word(value, next) => value <= U32_MAX && InRange(next)
  }

  function Size(layout: Layout): nat {
    match layout
    case Stop => 0
    case TakeHalf(next) => 2 + Size(next)
    case TakeWord(next) => 4 + Size(next)
  }

  /** The two constructors, with what they add to the layout and the range. */
  function H(value: nat, next: Record): (r: Record)
    ensures LayoutOf(r) == TakeHalf(LayoutOf(next))
    ensures InRange(r) <==> value <= U16_MAX && InRange(next)
  {
    Half(value, next)
  }

  function W(value: nat, next: Record): (r: Record)
    ensures LayoutOf(r) == TakeWord(LayoutOf(next))
    ensures InRange(r) <==> value <= U32_MAX && InRange(next)
  {
    Word(value, next)
  }

  function Encode(r: Record): Bytes {
    match r
    case End => []
    case Half(value, next) => U16Bytes(value) + Encode(next)
    case Word(value, next) => U32Bytes(value) + Encode(next)
  }

  lemma {:induction false} EncodeSize(r: Record)
    ensures |Encode(r)| == Size(LayoutOf(r))
  {
    if r != End { EncodeSize(r.next); }
  }

  /** Reads the fields of `layout` from the front of `bytes`, ignoring what follows. */
  function Decode(layout: Layout, bytes: Bytes): (r: Option<Record>)
    ensures r.Some? ==> Size(layout) <= |bytes|
    decreases layout, |bytes|
  {
    match layout
    case Stop => Some(End)
    case TakeHalf(rest) =>
      if |bytes| < 2 then None else
        var next :- Decode(rest, bytes[2..]);
        Some(Half(U16Value(bytes[..2]), next))
    case TakeWord(rest) =>
      if |bytes| < 4 then None else
        var next :- Decode(rest, bytes[4..]);
        Some(Word(U32Value(bytes[..4]), next))
  }

  lemma DecodeHalf(value: nat, layout: Layout, tail: Bytes, next: Record)
    requires value <= U16_MAX && Decode(layout, tail) == Some(next)
    ensures Decode(TakeHalf(layout), U16Bytes(value) + tail) == Some(Half(value, next))
  {
    var bytes := U16Bytes(value) + tail;
    assert bytes[..2] == U16Bytes(value) && bytes[2..] == tail;
    U16RoundTrip(value);
  }

  lemma DecodeWord(value: nat, layout: Layout, tail: Bytes, next: Record)
    requires value <= U32_MAX && Decode(layout, tail) == Some(next)
    ensures Decode(TakeWord(layout), U32Bytes(value) + tail) == Some(Word(value, next))
  {
    var bytes := U32Bytes(value) + tail;
    assert bytes[..4] == U32Bytes(value) && bytes[4..] == tail;
    U32RoundTrip(value);
  }

  lemma {:induction false} DecodeEncode(r: Record, rest: Bytes)
    requires InRange(r)
    ensures Decode(LayoutOf(r), Encode(r) + rest) == Some(r)
  {
    match r {
      case End =>
      case Half(value, next) =>
        DecodeEncode(next, rest);
        DecodeHalf(value, LayoutOf(next), Encode(next) + rest, next);
        assert Encode(r) + rest == U16Bytes(value) + (Encode(next) + rest);
      case Word(value, next) =>
        DecodeEncode(next, rest);
        DecodeWord(value, LayoutOf(next), Encode(next) + rest, next);
        assert Encode(r) + rest == U32Bytes(value) + (Encode(next) + rest);
    }
  }

  /** Where a piece sits in a longer file. */
  ghost predicate At(f: Bytes, pos: nat, piece: Bytes) {
    pos + |piece| <= |f| && f[pos..pos + |piece|] == piece
  }

  lemma DecodeAt(f: Bytes, pos: nat, r: Record)
    requires InRange(r) && At(f, pos, Encode(r))
    ensures Decode(LayoutOf(r), f[pos..]) == Some(r)
  {
    var bytes := Encode(r);
    assert f[pos..] == bytes + f[pos + |bytes|..];
    DecodeEncode(r, f[pos + |bytes|..]);
  }

  lemma AtSplit(f: Bytes, pos: nat, a: Bytes, b: Bytes)
    requires At(f, pos, a + b)
    ensures At(f, pos, a) && At(f, pos + |a|, b)
  {
    assert f[pos..pos + |a|] == (a + b)[..|a|];
    assert f[pos + |a|..pos + |a| + |b|] == (a + b)[|a|..];
  }

  lemma AtPrefix(f: Bytes, suffix: Bytes, pos: nat, piece: Bytes)
    requires At(f, pos, piece)
    ensures At(f + suffix, pos, piece)
  {
    assert (f + suffix)[pos..pos + |piece|] == f[pos..pos + |piece|];
  }

  lemma AtEnd(f: Bytes, piece: Bytes)
    ensures At(f + piece, |f|, piece)
  {}

  lemma AtBehind(prefix: Bytes, f: Bytes, pos: nat, piece: Bytes)
    requires At(f, pos, piece)
    ensures At(prefix + f, |prefix| + pos, piece)
  {
    assert (prefix + f)[|prefix| + pos..|prefix| + pos + |piece|] == f[pos..pos + |piece|];
  }
}

/** Archives of records behind one another, a directory of headers and an end record, for any
    encoding of the three. */
module ArchiveLayout {
  import opened Wrappers
  import opened LittleEndian

  /** How a member's record, its directory header and the end record are written. */
  datatype Format<!M> = Format(local: M -> Bytes, central: (M, nat) -> Bytes, end: (nat, nat, nat) -> Bytes)

  function Locals<M>(fmt: Format<M>, members: seq<M>): Bytes {
    if members == [] then []
    else Locals(fmt, members[..|members| - 1]) + fmt.local(members[|members| - 1])
  }

  function LocalOffset<M>(fmt: Format<M>, members: seq<M>, i: nat): nat
    requires i <= |members|
  {
    |Locals(fmt, members[..i])|
  }

  /** The directory headers of the first `count` members, each with its true local offset. */
  function Directory<M>(fmt: Format<M>, members: seq<M>, count: nat): Bytes
    requires count <= |members|
  {
    if count == 0 then []
    else Directory(fmt, members, count - 1)
         + fmt.central(members[count - 1], LocalOffset(fmt, members, count - 1))
  }

  function Body<M>(fmt: Format<M>, members: seq<M>): Bytes {
    Locals(fmt, members) + Directory(fmt, members, |members|)
  }

  function Image<M>(fmt: Format<M>, members: seq<M>): Bytes {
    Body(fmt, members)
    + fmt.end(|members|, |Directory(fmt, members, |members|)|, |Locals(fmt, members)|)
  }

  lemma LocalsGrow<M>(fmt: Format<M>, members: seq<M>, i: nat)
    requires i < |members|
    ensures Locals(fmt, members[..i + 1]) == Locals(fmt, members[..i]) + fmt.local(members[i])
  {
    assert members[..i + 1][..i] == members[..i];
  }

  /** Writing the header of member `i` behind `start` and the directory so far. */
  lemma DirectoryGrows<M>(fmt: Format<M>, members: seq<M>, i: nat, start: Bytes, before: Bytes, after: Bytes)
    requires i < |members| && before == start + Directory(fmt, members, i)
    requires after == before + fmt.central(members[i], LocalOffset(fmt, members, i))
    ensures after == start + Directory(fmt, members, i + 1)
  {}

  lemma BodyParts<M>(fmt: Format<M>, members: seq<M>)
    ensures LocalOffset(fmt, members, |members|) == EntryPosition(fmt, members, 0) == |Locals(fmt, members)|
    ensures EntryPosition(fmt, members, |members|) == |Body(fmt, members)|
    ensures |Body(fmt, members)| == |Locals(fmt, members)| + |Directory(fmt, members, |members|)|
  {
    assert members[..|members|] == members;
  }

  /** Reads `count` items one behind the other, which must end exactly at `end`. */
  function ReadMany<T>(read: nat -> Option<(T, nat)>, pos: nat, count: nat, end: nat): Option<seq<T>>
    decreases count
  {
    if count == 0 then (if pos == end then Some([]) else None)
    else
      var (item, next) :- read(pos);
      var rest :- ReadMany(read, next, count - 1, end);
      Some([item] + rest)
  }

  lemma {:induction false} ReadManyFrom<T>(read: nat -> Option<(T, nat)>, positions: seq<nat>, items: seq<T>, i: nat)
    requires |positions| == |items| + 1 && i <= |items|
    requires forall j :: 0 <= j < |items| ==> read(positions[j]) == Some((items[j], positions[j + 1]))
    ensures ReadMany(read, positions[i], |items| - i, positions[|items|]) == Some(items[i..])
    decreases |items| - i
  {
    if i < |items| {
      ReadManyFrom(read, positions, items, i + 1);
      assert items[i..] == [items[i]] + items[i + 1..];
    }
  }

  lemma {:induction false} LocalAt<M>(fmt: Format<M>, members: seq<M>, i: nat)
    requires i < |members|
    ensures At(Locals(fmt, members), LocalOffset(fmt, members, i), fmt.local(members[i]))
    decreases |members|
  {
    var n := |members| - 1;
    if i < n {
      LocalAt(fmt, members[..n], i);
      assert members[..n][..i] == members[..i];
      AtPrefix(Locals(fmt, members[..n]), fmt.local(members[n]),
               LocalOffset(fmt, members, i), fmt.local(members[i]));
    } else {
      AtEnd(Locals(fmt, members[..n]), fmt.local(members[n]));
    }
  }

  lemma {:induction false} CentralAt<M>(fmt: Format<M>, members: seq<M>, count: nat, i: nat)
    requires i < count <= |members|
    ensures At(Directory(fmt, members, count), |Directory(fmt, members, i)|,
               fmt.central(members[i], LocalOffset(fmt, members, i)))
    decreases count
  {
    var last := fmt.central(members[count - 1], LocalOffset(fmt, members, count - 1));
    if i < count - 1 {
      CentralAt(fmt, members, count - 1, i);
      AtPrefix(Directory(fmt, members, count - 1), last, |Directory(fmt, members, i)|,
               fmt.central(members[i], LocalOffset(fmt, members, i)));
    } else {
      AtEnd(Directory(fmt, members, count - 1), last);
    }
  }

  function EntryPosition<M>(fmt: Format<M>, members: seq<M>, i: nat): nat
    requires i <= |members|
  {
    |Locals(fmt, members)| + |Directory(fmt, members, i)|
  }

  lemma EntryStep<M>(fmt: Format<M>, members: seq<M>, i: nat)
    requires i < |members|
    ensures EntryPosition(fmt, members, i + 1)
            == EntryPosition(fmt, members, i) + |fmt.central(members[i], LocalOffset(fmt, members, i))|
  {}

  /** Both records of member `i` sit in the body where the directory says. */
  lemma RecordsInBody<M>(fmt: Format<M>, members: seq<M>, i: nat, tail: Bytes)
    requires i < |members|
    ensures At(Body(fmt, members) + tail, LocalOffset(fmt, members, i), fmt.local(members[i]))
    ensures At(Body(fmt, members) + tail, EntryPosition(fmt, members, i),
               fmt.central(members[i], LocalOffset(fmt, members, i)))
  {
    var locals, directory := Locals(fmt, members), Directory(fmt, members, |members|);
    var local, offset := fmt.local(members[i]), LocalOffset(fmt, members, i);
    LocalAt(fmt, members, i);
    AtPrefix(locals, directory, offset, local);
    AtPrefix(locals + directory, tail, offset, local);
    CentralAt(fmt, members, |members|, i);
    AtBehind(locals, directory, |Directory(fmt, members, i)|, fmt.central(members[i], offset));
    AtPrefix(locals + directory, tail, EntryPosition(fmt, members, i), fmt.central(members[i], offset));
  }

  /** Both records of every member sit in `f` where the directory says. */
  ghost predicate Holds<M>(fmt: Format<M>, f: Bytes, members: seq<M>) {
    forall i :: 0 <= i < |members| ==> HoldsRecord(fmt, f, members, i)
  }

  ghost predicate HoldsRecord<M>(fmt: Format<M>, f: Bytes, members: seq<M>, i: nat)
    requires i < |members|
  {
    && At(f, LocalOffset(fmt, members, i), fmt.local(members[i]))
    && At(f, EntryPosition(fmt, members, i), fmt.central(members[i], LocalOffset(fmt, members, i)))
  }

  lemma BodyHolds<M>(fmt: Format<M>, members: seq<M>, tail: Bytes)
    ensures Holds(fmt, Body(fmt, members) + tail, members)
  {
    forall i | 0 <= i < |members| ensures HoldsRecord(fmt, Body(fmt, members) + tail, members, i) {
      RecordsInBody(fmt, members, i, tail);
    }
  }

  function EntryPositions<M>(fmt: Format<M>, members: seq<M>): (positions: seq<nat>)
    ensures |positions| == |members| + 1
    ensures forall i :: 0 <= i <= |members| ==> positions[i] == EntryPosition(fmt, members, i)
  {
    seq(|members| + 1, i requires 0 <= i <= |members| => EntryPosition(fmt, members, i))
  }
}

/** The stored ZIP writer of src/cli/skills.rs and a reader for sections 4.3.7, 4.3.12 and 4.3.16
    of PKWARE's APPNOTE. */
module ZipArchive {
  import opened Wrappers
  import opened LittleEndian
  import opened ArchiveLayout

  const LOCAL_SIGNATURE: nat := 0x0403_4b50
  const CENTRAL_SIGNATURE: nat := 0x0201_4b50
  const END_SIGNATURE: nat := 0x0605_4b50

  const LOCAL_SIZE: nat := 30
  const CENTRAL_SIZE: nat := 46
  const END_SIZE: nat := 22

  /** One archived file: its name (UTF-8 bytes), contents and recorded CRC-32. */
  datatype Member = Member(name: Bytes, data: Bytes, crc: nat)

  /** A member with the offset recorded for its directory header. */
  datatype Entry = Entry(member: Member, localOffset: nat)

  /** The `exceeds ZIP32 limit` failures, by label. */
  datatype Limit = ZipOffset | ZipSize | EntryCount | FileSize | FileNameLength

  // ---------------------------------------------------------------- what is written

  const LOCAL_LAYOUT: Layout :=
    TakeWord(TakeHalf(TakeHalf(TakeHalf(TakeHalf(TakeHalf(TakeWord(TakeWord(TakeWord(TakeHalf(TakeHalf(
    Stop)))))))))))

  const CENTRAL_LAYOUT: Layout :=
    TakeWord(TakeHalf(TakeHalf(TakeHalf(TakeHalf(TakeHalf(TakeHalf(TakeWord(TakeWord(TakeWord(
    CENTRAL_TAIL))))))))))

  const CENTRAL_TAIL: Layout :=
    TakeHalf(TakeHalf(TakeHalf(TakeHalf(TakeHalf(TakeWord(TakeWord(Stop)))))))

  const END_LAYOUT: Layout :=
    TakeWord(TakeHalf(TakeHalf(TakeHalf(TakeHalf(TakeWord(TakeWord(TakeHalf(Stop))))))))

  function LocalHeader(nameLength: nat, crc: nat, size: nat): Record {
    Word(LOCAL_SIGNATURE, Half(20, Half(0, Half(0, Half(0, Half(0, Word(crc, Word(size, Word(size,
    Half(nameLength, Half(0, End)))))))))))
  }

  function CentralHeader(nameLength: nat, crc: nat, size: nat, localOffset: nat): Record {
    Word(CENTRAL_SIGNATURE, Half(20, Half(20, Half(0, Half(0, Half(0, Half(0, Word(crc, Word(size,
    Word(size, Half(nameLength, Half(0, Half(0, Half(0, Half(0, Word(0, Word(localOffset, End)))))))))))))))))
  }

  function EndRecord(count: nat, size: nat, offset: nat): Record {
    Word(END_SIGNATURE, Half(0, Half(0, Half(count, Half(count, Word(size, Word(offset, Half(0, End))))))))
  }

  lemma LocalHeaderShape(nameLength: nat, crc: nat, size: nat)
    ensures
      var r := LocalHeader(nameLength, crc, size);
      && LayoutOf(r) == LOCAL_LAYOUT && |Encode(r)| == LOCAL_SIZE
      && (InRange(r) <==> nameLength <= U16_MAX && crc <= U32_MAX && size <= U32_MAX)
  {
    var r := W(LOCAL_SIGNATURE, H(20, H(0, H(0, H(0, H(0, W(crc, W(size, W(size, H(nameLength,
             H(0, End)))))))))));
    EncodeSize(r);
    LayoutSizes();
  }

  lemma CentralHeaderShape(nameLength: nat, crc: nat, size: nat, localOffset: nat)
    ensures
      var r := CentralHeader(nameLength, crc, size, localOffset);
      && LayoutOf(r) == CENTRAL_LAYOUT && |Encode(r)| == CENTRAL_SIZE
      && (InRange(r) <==>
            nameLength <= U16_MAX && crc <= U32_MAX && size <= U32_MAX && localOffset <= U32_MAX)
  {
    var r := W(CENTRAL_SIGNATURE, H(20, H(20, H(0, H(0, H(0, H(0, W(crc, W(size, W(size,
             H(nameLength, H(0, H(0, H(0, H(0, W(0, W(localOffset, End)))))))))))))))));
    EncodeSize(r);
    LayoutSizes();
  }

  lemma EndRecordShape(count: nat, size: nat, offset: nat)
    ensures
      var r := EndRecord(count, size, offset);
      && LayoutOf(r) == END_LAYOUT && |Encode(r)| == END_SIZE
      && (InRange(r) <==> count <= U16_MAX && size <= U32_MAX && offset <= U32_MAX)
  {
    var r := W(END_SIGNATURE, H(0, H(0, H(count, H(count, W(size, W(offset, H(0, End))))))));
    EncodeSize(r);
    LayoutSizes();
  }

  lemma LayoutSizes()
    ensures Size(LOCAL_LAYOUT) == LOCAL_SIZE
    ensures Size(CENTRAL_LAYOUT) == CENTRAL_SIZE
    ensures Size(END_LAYOUT) == END_SIZE
  {
    assert Size(CENTRAL_TAIL) == 18;
  }

  function LocalBytes(m: Member): Bytes {
    Encode(LocalHeader(|m.name|, m.crc, |m.data|)) + m.name + m.data
  }

  function CentralBytes(m: Member, localOffset: nat): Bytes {
    Encode(CentralHeader(|m.name|, m.crc, |m.data|, localOffset)) + m.name
  }

  function EndBytes(count: nat, size: nat, offset: nat): Bytes {
    Encode(EndRecord(count, size, offset))
  }

  const ZIP: Format<Member> := Format(LocalBytes, CentralBytes, EndBytes)

  /** Every name, size, offset and count fits its ZIP32 field. */
  ghost predicate Fits(members: seq<Member>) {
    && LocalsFit(members, |members|)
    && |Locals(ZIP, members)| <= U32_MAX
    && |Directory(ZIP, members, |members|)| <= U32_MAX
    && |members| <= U16_MAX
  }

  predicate MemberFits(m: Member) {
    |m.name| <= U16_MAX && |m.data| <= U32_MAX && m.crc <= U32_MAX
  }

  // ---------------------------------------------------------------- the reader

  /** The fields a reader needs from a header: where its name ends, how long the data is, and
      what the data must match. */
  datatype Header = Header(crc: nat, packed: nat, size: nat, nameLength: nat, skip: nat, localOffset: nat)

  /** Section 4.3.7: the fields of a local header for stored data. */
  function LocalFields(r: Record): Option<Header> {
    match r
    case Word(signature, Half(_, Half(flags, Half(compression, Half(_, Half(_, Word(crc, Word(packed,
              Word(size, Half(nameLength, Half(extraLength, End))))))))))) =>
      if signature != LOCAL_SIGNATURE || flags != 0 || compression != 0 then None
      else Some(Header(crc, packed, size, nameLength, extraLength, 0))
    case _ => None
  }

  /** Section 4.3.12: the fields of a directory header. */
  function CentralFields(r: Record): Option<Header> {
    match r
    case Word(signature, Half(_, Half(_, Half(_, Half(_, Half(_, Half(_, Word(crc, Word(packed,
              Word(size, Half(nameLength, Half(extraLength, Half(commentLength, Half(_, Half(_,
              Word(_, Word(localOffset, End))))))))))))))))) =>
      if signature != CENTRAL_SIGNATURE then None
      else Some(Header(crc, packed, size, nameLength, extraLength + commentLength, localOffset))
    case _ => None
  }

  function LocalHeaderAt(f: Bytes, pos: nat): Option<Header> {
    if pos > |f| then None else
      var r :- Decode(LOCAL_LAYOUT, f[pos..]);
      LocalFields(r)
  }

  function CentralHeaderAt(f: Bytes, pos: nat): Option<Header> {
    if pos > |f| then None else
      var r :- Decode(CENTRAL_LAYOUT, f[pos..]);
      CentralFields(r)
  }

  /** Section 4.3.7: the local header at `offset` and the stored data behind it. */
  function ReadLocal(f: Bytes, offset: nat): Option<Member> {
    var h :- LocalHeaderAt(f, offset);
    var start := offset + LOCAL_SIZE;
    var dataStart := start + h.nameLength + h.skip;
    if h.packed != h.size || dataStart + h.size > |f| then None
    else Some(Member(f[start..start + h.nameLength], f[dataStart..dataStart + h.size], h.crc))
  }

  /** Section 4.3.12: the directory header at `pos`, followed to its local header and checked
      against it, with the position behind it. */
  function ReadEntry(f: Bytes, pos: nat): Option<(Member, nat)> {
    var h :- CentralHeaderAt(f, pos);
    var nameStart := pos + CENTRAL_SIZE;
    if nameStart + h.nameLength > |f| then None
    else
      var local :- ReadLocal(f, h.localOffset);
      var agrees :=
        && local.name == f[nameStart..nameStart + h.nameLength]
        && local.crc == h.crc
        && |local.data| == h.packed == h.size;
      if agrees then Some((local, nameStart + h.nameLength + h.skip)) else None
  }

  function EntryReader(f: Bytes): nat -> Option<(Member, nat)> {
    (pos: nat) => ReadEntry(f, pos)
  }

  /** Section 4.3.16: the end record without a comment, then the directory it locates. */
  function ReadArchive(f: Bytes): Option<seq<Member>> {
    if |f| < END_SIZE then None else
      match Decode(END_LAYOUT, f[|f| - END_SIZE..])
      case Some(Word(signature, Half(disk, Half(startDisk, Half(diskCount, Half(count,
                Word(size, Word(offset, Half(commentLength, End))))))))) =>
        if signature != END_SIGNATURE || disk != 0 || startDisk != 0 || diskCount != count
           || commentLength != 0 || offset + size != |f| - END_SIZE then None
        else ReadMany(EntryReader(f), offset, count, offset + size)
      case _ => None
  }

  // ---------------------------------------------------------------- the reader inverts the writer

  lemma LocalHeaderRead(f: Bytes, pos: nat, m: Member)
    requires MemberFits(m) && At(f, pos, LocalBytes(m))
    ensures LocalHeaderAt(f, pos) == Some(Header(m.crc, |m.data|, |m.data|, |m.name|, 0, 0))
    ensures At(f, pos + LOCAL_SIZE, m.name) && At(f, pos + LOCAL_SIZE + |m.name|, m.data)
  {
    var header := LocalHeader(|m.name|, m.crc, |m.data|);
    LocalHeaderShape(|m.name|, m.crc, |m.data|);
    AtSplit(f, pos, Encode(header) + m.name, m.data);
    AtSplit(f, pos, Encode(header), m.name);
    DecodeAt(f, pos, header);
  }

  lemma ReadLocalAt(f: Bytes, pos: nat, m: Member)
    requires MemberFits(m) && At(f, pos, LocalBytes(m))
    ensures ReadLocal(f, pos) == Some(m)
  {
    LocalHeaderRead(f, pos, m);
  }

  lemma CentralHeaderRead(f: Bytes, pos: nat, m: Member, localOffset: nat)
    requires MemberFits(m) && localOffset <= U32_MAX && At(f, pos, CentralBytes(m, localOffset))
    ensures CentralHeaderAt(f, pos) == Some(Header(m.crc, |m.data|, |m.data|, |m.name|, 0, localOffset))
    ensures At(f, pos + CENTRAL_SIZE, m.name)
    ensures |CentralBytes(m, localOffset)| == CENTRAL_SIZE + |m.name|
  {
    var header := CentralHeader(|m.name|, m.crc, |m.data|, localOffset);
    CentralHeaderShape(|m.name|, m.crc, |m.data|, localOffset);
    AtSplit(f, pos, Encode(header), m.name);
    DecodeAt(f, pos, header);
  }

  lemma ReadEntryFields(f: Bytes, pos: nat, m: Member, localOffset: nat)
    requires CentralHeaderAt(f, pos) == Some(Header(m.crc, |m.data|, |m.data|, |m.name|, 0, localOffset))
    requires At(f, pos + CENTRAL_SIZE, m.name) && ReadLocal(f, localOffset) == Some(m)
    ensures ReadEntry(f, pos) == Some((m, pos + CENTRAL_SIZE + |m.name|))
  {}

  lemma ReadRecords(f: Bytes, pos: nat, m: Member, offset: nat)
    requires MemberFits(m) && offset <= U32_MAX
    requires At(f, offset, LocalBytes(m)) && At(f, pos, CentralBytes(m, offset))
    ensures ReadEntry(f, pos) == Some((m, pos + |CentralBytes(m, offset)|))
  {
    CentralHeaderRead(f, pos, m, offset);
    ReadLocalAt(f, offset, m);
    ReadEntryFields(f, pos, m, offset);
  }

  lemma ReadFormattedRecords(f: Bytes, pos: nat, next: nat, m: Member, offset: nat)
    requires MemberFits(m) && offset <= U32_MAX
    requires At(f, offset, ZIP.local(m)) && At(f, pos, ZIP.central(m, offset))
    requires next == pos + |ZIP.central(m, offset)|
    ensures EntryReader(f)(pos) == Some((m, next))
  {
    ReadRecords(f, pos, m, offset);
  }

  /** In a file that holds the records, directory header `i` reads as member `i`. */
  lemma ReadHeldEntry(f: Bytes, members: seq<Member>, i: nat)
    requires i < |members| && LocalsFit(members, |members|) && HoldsRecord(ZIP, f, members, i)
    ensures EntryReader(f)(EntryPosition(ZIP, members, i))
            == Some((members[i], EntryPosition(ZIP, members, i + 1)))
  {
    var pos, next := EntryPosition(ZIP, members, i), EntryPosition(ZIP, members, i + 1);
    EntryStep(ZIP, members, i);
    ReadFormattedRecords(f, pos, next, members[i], LocalOffset(ZIP, members, i));
  }

  lemma ReadHeldEntries(f: Bytes, members: seq<Member>)
    requires LocalsFit(members, |members|) && Holds(ZIP, f, members)
    ensures ReadMany(EntryReader(f), EntryPosition(ZIP, members, 0), |members|,
                     EntryPosition(ZIP, members, |members|)) == Some(members)
  {
    var positions := EntryPositions(ZIP, members);
    forall j | 0 <= j < |members|
      ensures EntryReader(f)(positions[j]) == Some((members[j], positions[j + 1]))
    {
      ReadHeldEntry(f, members, j);
    }
    ReadManyFrom(EntryReader(f), positions, members, 0);
    assert members[0..] == members;
  }

  lemma DecodeEnd(f: Bytes, body: Bytes, count: nat, size: nat, offset: nat)
    requires f == body + EndBytes(count, size, offset)
    requires count <= U16_MAX && size <= U32_MAX && offset <= U32_MAX
    ensures |f| == |body| + END_SIZE
    ensures Decode(END_LAYOUT, f[|body|..]) == Some(EndRecord(count, size, offset))
  {
    EndRecordShape(count, size, offset);
    AtEnd(body, EndBytes(count, size, offset));
    DecodeAt(f, |body|, EndRecord(count, size, offset));
  }

  lemma ReadArchiveAtEnd(f: Bytes, count: nat, size: nat, offset: nat)
    requires |f| == offset + size + END_SIZE
    requires Decode(END_LAYOUT, f[|f| - END_SIZE..]) == Some(EndRecord(count, size, offset))
    ensures ReadArchive(f) == ReadMany(EntryReader(f), offset, count, offset + size)
  {}

  lemma ReadParts(body: Bytes, count: nat, size: nat, offset: nat, f: Bytes)
    requires f == body + EndBytes(count, size, offset) && |body| == offset + size
    requires count <= U16_MAX && size <= U32_MAX && offset <= U32_MAX
    ensures ReadArchive(f) == ReadMany(EntryReader(f), offset, count, offset + size)
  {
    DecodeEnd(f, body, count, size, offset);
    ReadArchiveAtEnd(f, count, size, offset);
  }

  /** Main result: a reader recovers every name, its bytes and its recorded CRC-32, in order. */
  lemma ReadImage(members: seq<Member>)
    requires Fits(members)
    ensures ReadArchive(Image(ZIP, members)) == Some(members)
  {
    var size, offset := |Directory(ZIP, members, |members|)|, |Locals(ZIP, members)|;
    var f, tail := Image(ZIP, members), EndBytes(|members|, size, offset);
    BodyParts(ZIP, members);
    ReadParts(Body(ZIP, members), |members|, size, offset, f);
    BodyHolds(ZIP, members, tail);
    ReadHeldEntries(f, members);
  }

  // ---------------------------------------------------------------- the writer

  function CheckedU16(value: nat, limit: Limit): Result<nat, Limit> {
    if value <= U16_MAX then Ok(value) else Err(limit)
  }

  function CheckedU32(value: nat, limit: Limit): Result<nat, Limit> {
    if value <= U32_MAX then Ok(value) else Err(limit)
  }

  /** The first `count` members can be written, each at an offset that fits. */
  ghost predicate LocalsFit(members: seq<Member>, count: nat)
    requires count <= |members|
  {
    forall i :: 0 <= i < count ==> MemberFits(members[i]) && LocalOffset(ZIP, members, i) <= U32_MAX
  }

  /** How long the local headers, names and contents are. */
  function LocalsLength(members: seq<Member>): nat {
    if members == [] then 0
    else
      var last := members[|members| - 1];
      LocalsLength(members[..|members| - 1]) + LOCAL_SIZE + |last.name| + |last.data|
  }

  /** How long the directory is. */
  function DirectoryLength(members: seq<Member>): nat {
    if members == [] then 0
    else DirectoryLength(members[..|members| - 1]) + CENTRAL_SIZE + |members[|members| - 1].name|
  }

  lemma {:induction false} LengthsAre(members: seq<Member>, count: nat)
    requires count <= |members|
    ensures LocalOffset(ZIP, members, count) == LocalsLength(members[..count])
    ensures |Directory(ZIP, members, count)| == DirectoryLength(members[..count])
  {
    if count > 0 {
      var m, offset := members[count - 1], LocalOffset(ZIP, members, count - 1);
      LengthsAre(members, count - 1);
      assert members[..count][..count - 1] == members[..count - 1];
      LocalHeaderShape(|m.name|, m.crc, |m.data|);
      CentralHeaderShape(|m.name|, m.crc, |m.data|, offset);
    }
  }

  lemma {:induction false} LocalsLengthGrows(members: seq<Member>, i: nat)
    requires i <= |members|
    ensures LocalsLength(members[..i]) <= LocalsLength(members)
    decreases |members|
  {
    if i == |members| {
      assert members[..i] == members;
    } else {
      assert members[..|members| - 1][..i] == members[..i];
      LocalsLengthGrows(members[..|members| - 1], i);
    }
  }

  /** Main result: what can be archived, by the lengths of names and contents alone. */
  lemma FitsByLengths(members: seq<Member>)
    ensures Fits(members) <==>
              && (forall m :: m in members ==> MemberFits(m))
              && LocalsLength(members) <= U32_MAX && DirectoryLength(members) <= U32_MAX && |members| <= U16_MAX
  {
    assert members[..|members|] == members;
    LengthsAre(members, |members|);
    forall i | 0 <= i < |members| ensures LocalOffset(ZIP, members, i) <= LocalsLength(members) {
      LengthsAre(members, i);
      LocalsLengthGrows(members, i);
    }
    if Fits(members) {
      forall m | m in members ensures MemberFits(m) {
        var i :| 0 <= i < |members| && members[i] == m;
      }
    }
  }

  ghost predicate EntriesOf(entries: seq<Entry>, members: seq<Member>, count: nat)
    requires count <= |members|
  {
    && |entries| == count
    && forall i :: 0 <= i < count ==> entries[i] == Entry(members[i], LocalOffset(ZIP, members, i))
  }

  lemma EntriesGrow(entries: seq<Entry>, members: seq<Member>, i: nat)
    requires i < |members| && EntriesOf(entries, members, i) && LocalsFit(members, i)
    requires MemberFits(members[i]) && LocalOffset(ZIP, members, i) <= U32_MAX
    ensures EntriesOf(entries + [Entry(members[i], LocalOffset(ZIP, members, i))], members, i + 1)
    ensures LocalsFit(members, i + 1)
  {}

  /** The archive file being appended to. */
  class ArchiveFile {
    var contents: Bytes

    constructor ()
      ensures contents == []
    {
      contents := [];
    }

    /** Writes a header field by field. */
    method WriteRecord(header: Record)
      modifies this
      ensures contents == old(contents) + Encode(header)
    {
      var r := header;
      while r != End
        invariant contents + Encode(r) == old(contents) + Encode(header)
        decreases r
      {
        match r {
          case Half(value, next) =>
            assert contents + (U16Bytes(value) + Encode(next)) == (contents + U16Bytes(value)) + Encode(next);
            contents := contents + U16Bytes(value);
            r := next;
          case Word(value, next) =>
            assert contents + (U32Bytes(value) + Encode(next)) == (contents + U32Bytes(value)) + Encode(next);
            contents := contents + U32Bytes(value);
            r := next;
        }
      }
      assert contents + Encode(End) == contents;
    }

    method WriteLocalHeader(name: Bytes, crc: nat, size: nat) returns (r: Result<(), Limit>)
      modifies this
      ensures r.Ok? <==> size <= U32_MAX && |name| <= U16_MAX
      ensures r.Ok? ==> contents == old(contents) + Encode(LocalHeader(|name|, crc, size)) + name
      ensures r.Err? ==> r.error == if size > U32_MAX then FileSize else FileNameLength
    {
      var checkedSize :- CheckedU32(size, FileSize);
      var nameLength :- CheckedU16(|name|, FileNameLength);
      WriteRecord(LocalHeader(nameLength, crc, checkedSize));
      contents := contents + name;
      return Ok(());
    }

    method WriteCentralHeader(m: Member, localOffset: nat)
      modifies this
      ensures contents == old(contents) + ZIP.central(m, localOffset)
    {
      WriteRecord(CentralHeader(|m.name|, m.crc, |m.data|, localOffset));
      contents := contents + m.name;
    }

    method WriteEnd(count: nat, size: nat, offset: nat)
      modifies this
      ensures contents == old(contents) + ZIP.end(count, size, offset)
    {
      WriteRecord(EndRecord(count, size, offset));
    }

    /** Writes the local record of one file and returns its directory entry. */
    method WriteMember(m: Member) returns (r: Result<Entry, Limit>)
      requires m.crc <= U32_MAX
      modifies this
      ensures r.Ok? <==> |old(contents)| <= U32_MAX && MemberFits(m)
      ensures r.Ok? ==> r.value == Entry(m, |old(contents)|)
      ensures r.Ok? ==> contents == old(contents) + ZIP.local(m)
    {
      var offset :- CheckedU32(|contents|, ZipOffset);
      var header := WriteLocalHeader(m.name, m.crc, |m.data|);
      if header.Err? { return Err(header.error); }
      contents := contents + m.data;
      return Ok(Entry(m, offset));
    }

    /** Writes every local record; the entries keep their true offsets. */
    method WriteMembers(members: seq<Member>) returns (r: Result<seq<Entry>, Limit>)
      requires contents == [] && forall i :: 0 <= i < |members| ==> members[i].crc <= U32_MAX
      modifies this
      ensures r.Ok? <==> LocalsFit(members, |members|)
      ensures r.Ok? ==> EntriesOf(r.value, members, |members|) && contents == Locals(ZIP, members)
    {
      var entries: seq<Entry> := [];
      var i := 0;
      while i < |members|
        invariant 0 <= i <= |members|
        invariant contents == Locals(ZIP, members[..i])
        invariant LocalsFit(members, i) && EntriesOf(entries, members, i)
      {
        var m := members[i];
        var entry := WriteMember(m);
        if entry.Err? { return Err(entry.error); }
        LocalsGrow(ZIP, members, i);
        EntriesGrow(entries, members, i);
        entries := entries + [entry.value];
        i := i + 1;
      }
      assert members[..i] == members;
      return Ok(entries);
    }

    /** Writes the directory headers of `entries`. */
    method WriteCentralHeaders(entries: seq<Entry>, ghost members: seq<Member>)
      requires EntriesOf(entries, members, |members|)
      modifies this
      ensures contents == old(contents) + Directory(ZIP, members, |members|)
    {
      var i := 0;
      while i < |entries|
        invariant 0 <= i <= |entries|
        invariant contents == old(contents) + Directory(ZIP, members, i)
      {
        var entry := entries[i];
        ghost var before := contents;
        WriteCentralHeader(entry.member, entry.localOffset);
        DirectoryGrows(ZIP, members, i, old(contents), before, contents);
        i := i + 1;
      }
    }

    /** Writes the directory for `entries` and the end record. */
    method WriteDirectory(entries: seq<Entry>, ghost members: seq<Member>) returns (r: Result<(), Limit>)
      requires EntriesOf(entries, members, |members|) && contents == Locals(ZIP, members)
      modifies this
      ensures r.Ok? <==> |Locals(ZIP, members)| <= U32_MAX
                         && |Directory(ZIP, members, |members|)| <= U32_MAX && |members| <= U16_MAX
      ensures r.Ok? ==> contents == Image(ZIP, members)
    {
      var directoryOffset :- CheckedU32(|contents|, ZipOffset);
      WriteCentralHeaders(entries, members);
      var directorySize :- CheckedU32(|contents| - directoryOffset, ZipSize);
      var count :- CheckedU16(|entries|, EntryCount);
      WriteEnd(count, directorySize, directoryOffset);
      return Ok(());
    }

    /** Writes the whole archive. It succeeds exactly when every field fits, and what it then
        wrote is read back in full. */
    method WriteArchive(members: seq<Member>) returns (r: Result<(), Limit>)
      requires contents == [] && forall i :: 0 <= i < |members| ==> members[i].crc <= U32_MAX
      modifies this
      ensures r.Ok? <==> Fits(members)
      ensures r.Ok? ==> contents == Image(ZIP, members) && ReadArchive(contents) == Some(members)
    {
      var entries := WriteMembers(members);
      BodyParts(ZIP, members);
      if entries.Err? { return Err(entries.error); }
      r := WriteDirectory(entries.value, members);
      if r.Ok? { ReadImage(members); }
    }
  }
}

/** Exporting a skill package: names and checksums of the packaged files, then the archive. */
module SkillExport {
  import opened Wrappers
  import opened LittleEndian
  import Zip = ZipArchive
  import Crc32

  /** One file under the packaged directory. */
  datatype SourceFile = SourceFile(relativePath: Bytes, data: Bytes)

  const BACKSLASH: Byte := 0x5c
  const SLASH: Byte := 0x2f

  function ForwardSlashes(path: Bytes): Bytes {
    seq(|path|, i requires 0 <= i < |path| => if path[i] == BACKSLASH then SLASH else path[i])
  }

  function Bits(data: Bytes): Crc32.Bytes {
    seq(|data|, i requires 0 <= i < |data| => data[i] as bv8)
  }

  /** The CRC-32 of `data` as the number its header field holds. */
  function CrcOf(data: Bytes): nat {
    Crc32.Checksum(Bits(data)) as nat
  }

  function Packed(file: SourceFile): Zip.Member {
    Zip.Member(ForwardSlashes(file.relativePath), file.data, CrcOf(file.data))
  }

  method Pack(file: SourceFile) returns (m: Zip.Member)
    ensures m == Packed(file) && m.crc <= U32_MAX
  {
    var crc := Crc32.ComputeChecksum(Bits(file.data));
    m := Zip.Member(ForwardSlashes(file.relativePath), file.data, crc as nat);
  }

  method PackAll(files: seq<SourceFile>) returns (members: seq<Zip.Member>)
    ensures |members| == |files|
    ensures forall i :: 0 <= i < |files| ==> members[i] == Packed(files[i]) && members[i].crc <= U32_MAX
  {
    members := [];
    for i := 0 to |files|
      invariant |members| == i
      invariant forall j :: 0 <= j < i ==> members[j] == Packed(files[j]) && members[j].crc <= U32_MAX
    {
      var m := Pack(files[i]);
      members := members + [m];
    }
  }

  /** The exported archive reads back as the packaged files with true names, data and CRC-32. */
  method Export(files: seq<SourceFile>) returns (r: Result<Bytes, Zip.Limit>, members: seq<Zip.Member>)
    ensures |members| == |files| && forall i :: 0 <= i < |files| ==> members[i] == Packed(files[i])
    ensures r.Ok? <==> Zip.Fits(members)
    ensures r.Ok? ==> Zip.ReadArchive(r.value) == Some(members)
  {
    members := PackAll(files);
    var archive := new Zip.ArchiveFile();
    var written := archive.WriteArchive(members);
    if written.Err? { return Err(written.error), members; }
    return Ok(archive.contents), members;
  }
}
