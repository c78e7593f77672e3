/** The Intel HEX writer, and a reader of its text that follows Intel's Hexadecimal Object File Format
    Specification, Revision A. */
module Hex {
  import opened Common

  const SEGMENT: nat := 0x1_0000
  const SPACE: nat := 0x1_0000_0000
  const CHUNK: nat := 16

  const DATA: Byte := 0
  const END_OF_FILE: Byte := 1
  const EXTENDED_LINEAR: Byte := 4

  type Byte = b: nat | b < 256

  /** A record, without its length and its checksum. */
  datatype Record = Record(kind: Byte, offset: nat, data: seq<Byte>) {
    predicate Valid() {
      offset < SEGMENT && |data| < 256
    }
  }

  function Sum(bytes: seq<Byte>): nat {
    if bytes == [] then 0 else bytes[0] + Sum(bytes[1..])
  }

  lemma {:induction false} SumAppend(a: seq<Byte>, b: seq<Byte>)
    ensures Sum(a + b) == Sum(a) + Sum(b)
  {
    if a == [] {
      assert a + b == b;
    } else {
      SumAppend(a[1..], b);
      assert (a + b)[1..] == a[1..] + b;
    }
  }

  /** The bytes of a record up to its checksum. */
  function Payload(r: Record): seq<Byte>
    requires r.Valid()
  {
    [|r.data|, r.offset / 256, r.offset % 256, r.kind] + r.data
  }

  /** The byte that completes a sum to a multiple of 256. */
  function Complement(sum: nat): Byte {
    (256 - sum % 256) % 256
  }

  lemma ComplementCompletes(sum: nat)
    ensures (sum + Complement(sum)) % 256 == 0
  {
    var q, r := sum / 256, sum % 256;
    if r == 0 {
      assert sum + Complement(sum) == 256 * q;
    } else {
      assert sum + Complement(sum) == 256 * (q + 1);
    }
  }

  function Frame(r: Record): seq<Byte>
    requires r.Valid()
  {
    Payload(r) + [Complement(Sum(Payload(r)))]
  }

  // ---------------------------------------------------------------- text

  type Nibble = n: nat | n < 16

  function Digit(n: Nibble): char {
    "0123456789ABCDEF"[n]
  }

  function DigitValue(c: char): Option<Nibble> {
    if '0' <= c <= '9' then Some(c as int - '0' as int)
    else if 'A' <= c <= 'F' then Some(c as int - 'A' as int + 10)
    else None
  }

  lemma DigitReadsBack(n: Nibble)
    ensures DigitValue(Digit(n)) == Some(n) && Digit(n) != '\n'
  {
  }

  function Hex2(b: Byte): string {
    [Digit(b / 16), Digit(b % 16)]
  }

  function Hex4(n: nat): string
    requires n < SEGMENT
  {
    [Digit(n / 4096), Digit(n / 256 % 16), Digit(n / 16 % 16), Digit(n % 16)]
  }

  function HexText(bytes: seq<Byte>): string {
    if bytes == [] then "" else Hex2(bytes[0]) + HexText(bytes[1..])
  }

  lemma {:induction false} HexTextAppend(a: seq<Byte>, b: seq<Byte>)
    ensures HexText(a + b) == HexText(a) + HexText(b)
  {
    if a == [] {
      assert a + b == b;
    } else {
      hide Hex2;
      assert (a + b)[0] == a[0] && (a + b)[1..] == a[1..] + b;
      assert HexText(a + b) == Hex2(a[0]) + HexText(a[1..] + b);
      assert HexText(a) == Hex2(a[0]) + HexText(a[1..]);
      HexTextAppend(a[1..], b);
      hide HexText;
      assert Hex2(a[0]) + (HexText(a[1..]) + HexText(b)) == Hex2(a[0]) + HexText(a[1..]) + HexText(b);
    }
  }

  function Line(r: Record): string
    requires r.Valid()
  {
    ":" + HexText(Frame(r))
  }

  // ---------------------------------------------------------------- the reader

  /** The bytes that pairs of hexadecimal digits stand for. */
  function ReadBytes(s: string): Option<seq<Byte>> {
    if s == "" then Some([])
    else if |s| == 1 then None
    else
      match (DigitValue(s[0]), DigitValue(s[1]), ReadBytes(s[2..]))
      case (Some(hi), Some(lo), Some(rest)) => Some([hi as int * 16 + lo as int] + rest)
      case _ => None
  }

  /** A record: its mark, its length, its load offset, its type, its data, and the checksum, which
      makes all the bytes add up to a multiple of 256. */
  function ReadRecord(line: string): Option<Record> {
    if line == "" || line[0] != ':' then None
    else
      match ReadBytes(line[1..])
      case None => None
      case Some(bs) =>
        if |bs| < 5 || bs[0] != |bs| - 5 || Sum(bs) % 256 != 0 then None
        else Some(Record(bs[3], bs[1] as int * 256 + bs[2] as int, bs[4..|bs| - 1]))
  }

  /** What has been read: the linear base address, the bytes loaded, whether the end has been seen. */
  datatype Loader = Loader(base: nat, memory: map<int, Byte>, done: bool)

  /** Byte i of a data record goes to (base + offset + i) mod 4G. */
  function Load(memory: map<int, Byte>, at: int, data: seq<Byte>): map<int, Byte>
    decreases data
  {
    if data == [] then memory else Load(memory[at % SPACE := data[0]], at + 1, data[1..])
  }

  function LoadRecord(l: Loader, r: Record): Option<Loader> {
    if l.done then None
    else if r.kind == DATA then Some(l.(memory := Load(l.memory, l.base + r.offset, r.data)))
    else if r.kind == END_OF_FILE && r.data == [] then Some(l.(done := true))
    else if r.kind == EXTENDED_LINEAR && |r.data| == 2 then Some(l.(base := (r.data[0] as int * 256 + r.data[1] as int) * SEGMENT))
    else None
  }

  function LoadRecords(l: Loader, rs: seq<Record>): Option<Loader>
    decreases rs
  {
    if rs == [] then Some(l)
    else
      match LoadRecord(l, rs[0])
      case None => None
      case Some(l') => LoadRecords(l', rs[1..])
  }

  /** The records of a text, one to a line. line is what has been read of the current one. */
  function ReadText(text: string, line: string): Option<seq<Record>>
    decreases |text|
  {
    if text == "" then (if line == "" then Some([]) else None)
    else if text[0] != '\n' then ReadText(text[1..], line + [text[0]])
    else
      match (ReadRecord(line), ReadText(text[1..], ""))
      case (Some(r), Some(rest)) => Some([r] + rest)
      case _ => None
  }

  /** The memory image of a complete text. */
  function Decode(text: string): Option<map<int, Byte>> {
    match ReadText(text, "")
    case None => None
    case Some(rs) =>
      match LoadRecords(Loader(0, map[], false), rs)
      case Some(l) => if l.done then Some(l.memory) else None
      case None => None
  }

  // ---------------------------------------------------------------- text round trip

  lemma {:induction false} BytesReadBack(bytes: seq<Byte>)
    ensures ReadBytes(HexText(bytes)) == Some(bytes)
    ensures '\n' !in HexText(bytes)
  {
    if bytes != [] {
      var b, rest := bytes[0], bytes[1..];
      BytesReadBack(rest);
      assert HexText(bytes) == Hex2(b) + HexText(rest);
      hide Hex2, HexText, ReadBytes;
      ByteReadsBack(b);
      ReadPair(b, HexText(rest));
      assert [b] + rest == bytes;
    }
  }

  lemma ReadPair(b: Byte, more: string)
    requires ReadBytes(more).Some?
    ensures ReadBytes(Hex2(b) + more) == Some([b] + ReadBytes(more).value)
  {
    ByteReadsBack(b);
    hide Digit, DigitValue;
    var s := Hex2(b) + more;
    assert s[..2] == Hex2(b) && s[2..] == more;
    ReadStep(s, b / 16, b % 16);
  }

  lemma ReadStep(s: string, hi: Nibble, lo: Nibble)
    requires |s| >= 2 && DigitValue(s[0]) == Some(hi) && DigitValue(s[1]) == Some(lo) && ReadBytes(s[2..]).Some?
    ensures ReadBytes(s) == Some([hi as int * 16 + lo as int] + ReadBytes(s[2..]).value)
  {
    hide DigitValue;
  }

  lemma ByteReadsBack(b: Byte)
    ensures DigitValue(Hex2(b)[0]) == Some(b / 16) && DigitValue(Hex2(b)[1]) == Some(b % 16)
    ensures '\n' !in Hex2(b) && b / 16 * 16 + b % 16 == b
  {
    DigitReadsBack(b / 16);
    DigitReadsBack(b % 16);
    hide Digit, DigitValue;
  }

  lemma FrameSums(r: Record)
    requires r.Valid()
    ensures Sum(Frame(r)) % 256 == 0
  {
    var c := Complement(Sum(Payload(r)));
    SumAppend(Payload(r), [c]);
    ComplementCompletes(Sum(Payload(r)));
    assert Sum([c]) == c;
  }

  /** Every record reads back as itself, and its bytes add up to a multiple of 256. */
  lemma LineReadsBack(r: Record)
    requires r.Valid()
    ensures ReadRecord(Line(r)) == Some(r)
    ensures Sum(Frame(r)) % 256 == 0 && ReadBytes(Line(r)[1..]) == Some(Frame(r))
    ensures '\n' !in Line(r)
  {
    hide Sum, HexText, ReadBytes, Complement, Payload, Frame;
    BytesReadBack(Frame(r));
    FrameSums(r);
    FrameFields(r);
    assert Line(r)[1..] == HexText(Frame(r));
  }

  lemma FrameFields(r: Record)
    requires r.Valid()
    ensures var f := Frame(r);
      && |f| == |r.data| + 5 && f[0] == |r.data| && f[3] == r.kind && f[4..|f| - 1] == r.data
      && f[1] as int * 256 + f[2] as int == r.offset
  {
    hide Sum, Complement;
  }

  ghost predicate AllValid(rs: seq<Record>) {
    forall r :: r in rs ==> r.Valid()
  }

  /** The text of a sequence of records. */
  function Text(rs: seq<Record>): string
    requires AllValid(rs)
  {
    if rs == [] then "" else Line(rs[0]) + "\n" + Text(rs[1..])
  }

  lemma {:induction false} TextAppend(a: seq<Record>, b: seq<Record>)
    requires AllValid(a) && AllValid(b)
    ensures AllValid(a + b) && Text(a + b) == Text(a) + Text(b)
  {
    hide Line;
    if a == [] {
      assert a + b == b;
    } else {
      TextAppend(a[1..], b);
      assert (a + b)[1..] == a[1..] + b;
    }
  }

  lemma {:induction false} ReadLine(line: string, more: string, seen: string)
    requires '\n' !in line
    ensures ReadText(line + "\n" + more, seen) == ReadText("\n" + more, seen + line)
    decreases line
  {
    var text := line + "\n" + more;
    if line == "" {
      assert text == "\n" + more && seen + line == seen;
    } else {
      ReadLine(line[1..], more, seen + [line[0]]);
      assert text[1..] == line[1..] + "\n" + more;
      assert seen + [line[0]] + line[1..] == seen + line;
    }
  }

  lemma {:induction false} TextReadsBack(rs: seq<Record>)
    requires AllValid(rs)
    ensures ReadText(Text(rs), "") == Some(rs)
  {
    if rs != [] {
      var line, more := Line(rs[0]), Text(rs[1..]);
      LineReadsBack(rs[0]);
      TextReadsBack(rs[1..]);
      ReadLine(line, more, "");
      hide Line, ReadRecord;
      assert "" + line == line && ("\n" + more)[1..] == more;
      assert [rs[0]] + rs[1..] == rs;
    }
  }

  // ---------------------------------------------------------------- the writer

  /** The records with which data goes to address at, ext being the upper half last announced. */
  function WriteRecords(ext: int, at: int, data: seq<Byte>): (rs: seq<Record>)
    requires |data| < 256
    ensures AllValid(rs)
  {
    var upper := at / SEGMENT;
    (if upper != ext then [Record(EXTENDED_LINEAR, 0, [upper / 256 % 256, upper % 256])] else [])
    + [Record(DATA, at % SEGMENT, data)]
  }

  /** The records of an image, CHUNK bytes at a time. */
  function ImageRecords(ext: int, at: int, image: seq<Byte>): (rs: seq<Record>)
    ensures AllValid(rs)
    decreases |image|
  {
    if image == [] then [Record(END_OF_FILE, 0, [])]
    else
      var n := if |image| < CHUNK then |image| else CHUNK;
      WriteRecords(ext, at, image[..n]) + ImageRecords(at / SEGMENT, at + n, image[n..])
  }

  class HexLine {
    /** The upper half of the address last announced. */
    var ext: int
    var output: string

    constructor ()
      ensures ext == 0 && output == ""
    {
      ext, output := 0, "";
    }

    /** _write: one line; the sum is kept while the text grows. */
    method WriteLine(cmd: Byte, addr: nat, data: seq<Byte>)
      requires addr < SEGMENT && |data| <= CHUNK
      modifies this`output
      ensures output == old(output) + Line(Record(cmd, addr, data)) + "\n"
    {
      hide Sum, HexText, Hex2, Hex4, Complement;
      var res := ":";
      var sum: nat := |data|;
      res := res + Hex2(|data|);
      sum := sum + addr / 256;
      sum := sum + addr % 256;
      res := res + Hex4(addr);
      sum := sum + cmd;
      res := res + Hex2(cmd);
      ghost var head := [|data|, addr / 256, addr % 256, cmd];
      HeadText(|data|, addr, cmd);
      var i := 0;
      assert head + data[..0] == head;
      while i < |data|
        invariant 0 <= i <= |data| && output == old(output)
        invariant sum == Sum(head + data[..i])
        invariant res == ":" + HexText(head + data[..i])
      {
        OneMore(head + data[..i], data[i]);
        assert head + data[..i + 1] == head + data[..i] + [data[i]];
        sum := sum + data[i];
        res := res + Hex2(data[i]);
        i := i + 1;
      }
      assert data[..i] == data;
      assert Payload(Record(cmd, addr, data)) == head + data;
      hide Line, Payload;
      LineEnds(Record(cmd, addr, data), res, sum);
      sum := sum % 256;
      sum := 256 - sum;
      sum := sum % 256;
      res := res + Hex2(sum);
      output := output + res + "\n";
    }

    /** write. */
    method Write(addr: int, data: seq<Byte>)
      requires |data| <= CHUNK
      modifies this
      ensures ext == addr / SEGMENT
      ensures output == old(output) + Text(WriteRecords(old(ext), addr, data))
    {
      ghost var rs := WriteRecords(ext, addr, data);
      if addr / SEGMENT != ext {
        var upper := addr / SEGMENT;
        WriteLine(EXTENDED_LINEAR, 0, [upper / 256 % 256, upper % 256]);
        ext := upper;
      }
      WriteLine(DATA, addr % SEGMENT, data);
      TextOfFew(rs);
      hide Line, Text;
      assert output == old(output) + Text(rs);
    }

    /** end. */
    method End()
      modifies this`output
      ensures output == old(output) + Text([Record(END_OF_FILE, 0, [])])
    {
      WriteLine(END_OF_FILE, 0, []);
      TextOfFew([Record(END_OF_FILE, 0, [])]);
      hide Line, Text;
    }
  }

  lemma OneMore(bytes: seq<Byte>, b: Byte)
    ensures Sum(bytes + [b]) == Sum(bytes) + b
    ensures HexText(bytes + [b]) == HexText(bytes) + Hex2(b)
  {
    SumAppend(bytes, [b]);
    HexTextAppend(bytes, [b]);
    assert HexText([b]) == Hex2(b) + "";
  }

  lemma LineEnds(r: Record, text: string, sum: nat)
    requires r.Valid() && sum == Sum(Payload(r)) && text == ":" + HexText(Payload(r))
    ensures text + Hex2((256 - sum % 256) % 256) == Line(r)
  {
    OneMore(Payload(r), Complement(sum));
    hide HexText, Hex2, Payload, Sum;
  }

  lemma Hex4Is(n: nat)
    requires n < SEGMENT
    ensures Hex4(n) == Hex2(n / 256) + Hex2(n % 256)
  {
    Halves(n);
    hide Digit;
    assert Hex2(n / 256) + Hex2(n % 256) ==
      [Digit(n / 256 / 16), Digit(n / 256 % 16), Digit(n % 256 / 16), Digit(n % 256 % 16)];
  }

  lemma Halves(n: nat)
    ensures n / 256 / 16 == n / 4096 && n % 256 / 16 == n / 16 % 16 && n % 256 % 16 == n % 16
  {
    var upper, lower := n / 256, n % 256;
    Divided(n, 4096, upper / 16, upper % 16 * 256 + lower);
    Divided(n, 16, upper * 16 + lower / 16, lower % 16);
    Divided(upper * 16 + lower / 16, 16, upper, lower / 16);
  }

  lemma HeadText(n: Byte, addr: nat, cmd: Byte)
    requires addr < SEGMENT
    ensures Sum([n, addr / 256, addr % 256, cmd]) == n + addr / 256 + addr % 256 + cmd
    ensures HexText([n, addr / 256, addr % 256, cmd]) == Hex2(n) + Hex4(addr) + Hex2(cmd)
  {
    Hex4Is(addr);
    hide Hex2, Hex4, HexText, Sum;
    OneMore([], n);
    OneMore([n], addr / 256);
    OneMore([n, addr / 256], addr % 256);
    OneMore([n, addr / 256, addr % 256], cmd);
    assert [] + [n] == [n] && [n] + [addr / 256] == [n, addr / 256];
    assert [n, addr / 256] + [addr % 256] == [n, addr / 256, addr % 256];
    assert [n, addr / 256, addr % 256] + [cmd] == [n, addr / 256, addr % 256, cmd];
  }

  lemma TextOfFew(rs: seq<Record>)
    requires AllValid(rs)
    ensures |rs| == 1 ==> Text(rs) == Line(rs[0]) + "\n"
    ensures |rs| == 2 ==> Text(rs) == Line(rs[0]) + "\n" + (Line(rs[1]) + "\n")
  {
    hide Line;
    if |rs| == 2 {
      assert rs[1..] == [rs[1]];
      assert Text(rs[1..]) == Line(rs[1]) + "\n" + "";
    } else if |rs| == 1 {
      assert Text(rs) == Line(rs[0]) + "\n" + "";
    }
  }

  // ---------------------------------------------------------------- round trip

  /** Only the address modulo 4G matters. */
  lemma {:induction false} LoadMod(memory: map<int, Byte>, a: int, b: int, data: seq<Byte>)
    requires a % SPACE == b % SPACE
    ensures Load(memory, a, data) == Load(memory, b, data)
    decreases data
  {
    if data != [] {
      assert (a + 1) % SPACE == (b + 1) % SPACE;
      LoadMod(memory[a % SPACE := data[0]], a + 1, b + 1, data[1..]);
    }
  }

  lemma {:induction false} LoadAppend(memory: map<int, Byte>, at: int, a: seq<Byte>, b: seq<Byte>)
    ensures Load(memory, at, a + b) == Load(Load(memory, at, a), at + |a|, b)
    decreases a
  {
    if a == [] {
      assert a + b == b;
    } else {
      LoadAppend(memory[at % SPACE := a[0]], at + 1, a[1..], b);
      assert (a + b)[1..] == a[1..] + b;
    }
  }

  /** The base address a reader holds after the upper half ext has been announced. */
  function Base(ext: int): nat {
    ext % SEGMENT * SEGMENT
  }

  lemma UpperHalf(ext: int)
    ensures (ext / 256 % 256 * 256 + ext % 256) * SEGMENT == Base(ext)
  {
    var upper := ext / 256;
    Divided(ext, SEGMENT, upper / 256, upper % 256 * 256 + ext % 256);
  }

  lemma BaseAndOffset(at: int)
    ensures (Base(at / SEGMENT) + at % SEGMENT) % SPACE == at % SPACE
  {
    var upper := at / SEGMENT;
    var turn := upper / SEGMENT;
    assert upper == turn * SEGMENT + upper % SEGMENT;
    assert at == upper * SEGMENT + at % SEGMENT;
    assert at == turn * SPACE + (upper % SEGMENT * SEGMENT + at % SEGMENT);
  }

  lemma {:induction false} LoadRecordsAppend(l: Loader, a: seq<Record>, b: seq<Record>)
    requires LoadRecords(l, a).Some?
    ensures LoadRecords(l, a + b) == LoadRecords(LoadRecords(l, a).value, b)
    decreases a
  {
    hide LoadRecord;
    if a == [] {
      assert a + b == b;
    } else {
      LoadRecordsAppend(LoadRecord(l, a[0]).value, a[1..], b);
      assert (a + b)[1..] == a[1..] + b;
    }
  }

  lemma WriteLoads(l: Loader, ext: int, at: int, data: seq<Byte>)
    requires |data| < 256 && !l.done && l.base == Base(ext)
    ensures LoadRecords(l, WriteRecords(ext, at, data)) == Some(Loader(Base(at / SEGMENT), Load(l.memory, at, data), false))
  {
    var upper := at / SEGMENT;
    var write := Record(DATA, at % SEGMENT, data);
    var last := Loader(Base(upper), l.memory, false);
    DataLoads(last, at, data);
    OneRecord(last, write);
    if upper != ext {
      var announce := Record(EXTENDED_LINEAR, 0, [upper / 256 % 256, upper % 256]);
      AnnouncementLoads(l, upper);
      OneRecord(l, announce);
      hide LoadRecord, LoadRecords, Base, Load;
      LoadRecordsAppend(l, [announce], [write]);
    } else {
      assert WriteRecords(ext, at, data) == [write] && l == last;
    }
  }

  lemma AnnouncementLoads(l: Loader, upper: int)
    requires !l.done
    ensures LoadRecord(l, Record(EXTENDED_LINEAR, 0, [upper / 256 % 256, upper % 256])) == Some(l.(base := Base(upper)))
  {
    UpperHalf(upper);
    hide Base, Load;
  }

  lemma DataLoads(l: Loader, at: int, data: seq<Byte>)
    requires !l.done && l.base == Base(at / SEGMENT)
    ensures LoadRecord(l, Record(DATA, at % SEGMENT, data)) == Some(l.(memory := Load(l.memory, at, data)))
  {
    BaseAndOffset(at);
    LoadMod(l.memory, l.base + at % SEGMENT, at, data);
    hide Base, Load;
  }

  lemma OneRecord(l: Loader, r: Record)
    ensures LoadRecords(l, [r]) == LoadRecord(l, r)
  {
    hide LoadRecord;
    match LoadRecord(l, r)
    case Some(l') => assert LoadRecords(l', []) == Some(l');
    case None =>
  }

  lemma {:induction false} ImageLoads(l: Loader, ext: int, at: int, image: seq<Byte>)
    requires !l.done && l.base == Base(ext)
    ensures LoadRecords(l, ImageRecords(ext, at, image)).Some?
    ensures LoadRecords(l, ImageRecords(ext, at, image)).value.done
    ensures LoadRecords(l, ImageRecords(ext, at, image)).value.memory == Load(l.memory, at, image)
    decreases |image|
  {
    if image == [] {
      assert LoadRecords(l.(done := true), []) == Some(l.(done := true));
    } else {
      var n := if |image| < CHUNK then |image| else CHUNK;
      var rs := WriteRecords(ext, at, image[..n]);
      var rest := ImageRecords(at / SEGMENT, at + n, image[n..]);
      WriteLoads(l, ext, at, image[..n]);
      var l' := LoadRecords(l, rs).value;
      assert image[..n] + image[n..] == image;
      assert ImageRecords(ext, at, image) == rs + rest;
      hide Base, Load, WriteRecords, LoadRecords, ImageRecords;
      ImageLoads(l', at / SEGMENT, at + n, image[n..]);
      LoadRecordsAppend(l, rs, rest);
      LoadAppend(l.memory, at, image[..n], image[n..]);
    }
  }

  /** Whatever the offset and the length, the text of an image decodes to the image loaded from the
      offset on, modulo 4G. */
  lemma TextDecodes(at: int, image: seq<Byte>)
    ensures Decode(Text(ImageRecords(0, at, image))) == Some(Load(map[], at, image))
  {
    var rs := ImageRecords(0, at, image);
    TextReadsBack(rs);
    ImageLoads(Loader(0, map[], false), 0, at, image);
  }

  /** The memory holds the image from an address on, and nothing else. */
  ghost predicate Holds(memory: map<int, Byte>, at: nat, image: seq<Byte>) {
    && (forall i :: 0 <= i < |image| ==> at + i in memory && memory[at + i] == image[i])
    && (forall a :: a in memory ==> at <= a < at + |image|)
  }

  lemma {:induction false} LoadPlaces(memory: map<int, Byte>, at: nat, image: seq<Byte>)
    requires at + |image| <= SPACE
    ensures forall a :: a in Load(memory, at, image) <==> a in memory || at <= a < at + |image|
    ensures forall a :: a in Load(memory, at, image) ==>
      Load(memory, at, image)[a] == if at <= a < at + |image| then image[a - at] else memory[a]
    decreases image
  {
    if image != [] {
      LoadPlaces(memory[at := image[0]], at + 1, image[1..]);
    }
  }

  lemma NextChunk(ext: int, at: int, image: seq<Byte>, d: seq<Byte>)
    requires image != [] && d == image[..if |image| < CHUNK then |image| else CHUNK]
    ensures Text(ImageRecords(ext, at, image)) ==
      Text(WriteRecords(ext, at, d)) + Text(ImageRecords(at / SEGMENT, at + |d|, image[|d|..]))
  {
    hide Text, WriteRecords;
    TextAppend(WriteRecords(ext, at, d), ImageRecords(at / SEGMENT, at + |d|, image[|d|..]));
  }

  lemma ImageDecodes(offset: int, image: seq<Byte>)
    ensures Decode(Text(ImageRecords(0, offset, image))) == Some(Load(map[], offset, image))
    ensures 0 <= offset && offset + |image| <= SPACE ==> Holds(Load(map[], offset, image), offset, image)
  {
    TextDecodes(offset, image);
    if 0 <= offset && offset + |image| <= SPACE {
      LoadPlaces(map[], offset, image);
    }
  }

  /** The driving loop. The text decodes to exactly the image at its offset. */
  method MakeHex(image: seq<Byte>, offset: int) returns (text: string)
    ensures text == Text(ImageRecords(0, offset, image))
    ensures Decode(text) == Some(Load(map[], offset, image))
    ensures 0 <= offset && offset + |image| <= SPACE ==>
      (Decode(text).Some? && Holds(Decode(text).value, offset, image))
  {
    hide Decode, Load, Text, ImageRecords, Holds;
    ImageDecodes(offset, image);
    ghost var all := Text(ImageRecords(0, offset, image));
    var addr := offset;
    var rest := image;
    var line := new HexLine();
    assert all == line.output + all;
    while rest != []
      invariant fresh(line)
      invariant all == line.output + Text(ImageRecords(line.ext, addr, rest))
      decreases |rest|
    {
      var d := if |rest| < CHUNK then rest else rest[..CHUNK];
      NextChunk(line.ext, addr, rest, d);
      line.Write(addr, d);
      addr := addr + |d|;
      rest := rest[|d|..];
    }
    EndOnly(line.ext, addr);
    line.End();
    text := line.output;
  }

  lemma EndOnly(ext: int, at: int)
    ensures ImageRecords(ext, at, []) == [Record(END_OF_FILE, 0, [])]
  {
  }

  // ---------------------------------------------------------------- in numbers

  /** No record is longer than sixteen bytes, which is what the writer asserts. */
  lemma {:induction false} AtMostSixteen(ext: int, at: int, image: seq<Byte>, i: nat)
    requires i < |ImageRecords(ext, at, image)|
    ensures |ImageRecords(ext, at, image)[i].data| <= 16
    decreases |image|
  {
    if image != [] {
      var n := if |image| < CHUNK then |image| else CHUNK;
      var rs := WriteRecords(ext, at, image[..n]);
      if i >= |rs| {
        AtMostSixteen(at / SEGMENT, at + n, image[n..], i - |rs|);
      }
    }
  }

  /** While sixteen bytes are left, the next record holds just those. */
  lemma SixteenEach(ext: int, at: int, image: seq<Byte>)
    requires |image| >= 16
    ensures Record(0, at % 0x1_0000, image[..16]) in ImageRecords(ext, at, image)
  {
    var rs, rest := WriteRecords(ext, at, image[..16]), ImageRecords(at / SEGMENT, at + 16, image[16..]);
    assert rs[|rs| - 1] == Record(0, at % 0x1_0000, image[..16]);
    assert (rs + rest)[|rs| - 1] == rs[|rs| - 1];
  }

  /** A line, field by field. */
  lemma LineIs(r: Record, sum: nat)
    requires r.Valid() && sum == |r.data| + r.offset / 256 + r.offset % 256 + r.kind + Sum(r.data)
    ensures Line(r) == ":" + (Hex2(|r.data|) + Hex4(r.offset) + Hex2(r.kind) + HexText(r.data)) + Hex2((256 - sum % 256) % 256)
  {
    var head := [|r.data|, r.offset / 256, r.offset % 256, r.kind];
    assert Payload(r) == head + r.data;
    hide Sum, HexText, Hex2, Hex4, Line, Payload;
    HeadText(|r.data|, r.offset, r.kind);
    SumAppend(head, r.data);
    HexTextAppend(head, r.data);
    LineEnds(r, ":" + HexText(Payload(r)), sum);
  }

  lemma FewBytes(a: Byte, b: Byte, c: Byte)
    ensures Sum([]) == 0 && HexText([]) == ""
    ensures Sum([a, b]) == a + b && HexText([a, b]) == Hex2(a) + Hex2(b)
    ensures Sum([a, b, c]) == a + b + c && HexText([a, b, c]) == Hex2(a) + Hex2(b) + Hex2(c)
  {
    hide Hex2;
    OneMore([], a);
    OneMore([a], b);
    OneMore([a, b], c);
    assert [] + [a] == [a] && [a] + [b] == [a, b] && [a, b] + [c] == [a, b, c];
  }

  /** Digits written out. */
  lemma Pairs(b: Byte)
    ensures b == 0 ==> Hex2(b) == "00"
    ensures b == 1 ==> Hex2(b) == "01"
    ensures b == 2 ==> Hex2(b) == "02"
    ensures b == 3 ==> Hex2(b) == "03"
    ensures b == 4 ==> Hex2(b) == "04"
    ensures b == 0x1E ==> Hex2(b) == "1E"
    ensures b == 0x20 ==> Hex2(b) == "20"
    ensures b == 0x33 ==> Hex2(b) == "33"
    ensures b == 0x7A ==> Hex2(b) == "7A"
    ensures b == 0xDA ==> Hex2(b) == "DA"
    ensures b == 0xFC ==> Hex2(b) == "FC"
    ensures b == 0xFE ==> Hex2(b) == "FE"
    ensures b == 0xFF ==> Hex2(b) == "FF"
  {
  }

  lemma Quads(n: nat)
    requires n < SEGMENT
    ensures n == 0 ==> Hex4(n) == "0000"
    ensures n == 0x30 ==> Hex4(n) == "0030"
  {
  }

  /** Lines as the format's specification writes them: an End of File Record, an Extended Linear Address
      Record for the base 0xFFFF0000, and a data record. */
  lemma KnownLines(r: Record)
    requires r.Valid()
    ensures r == Record(1, 0, []) ==> Line(r) == ":00000001FF"
    ensures r == Record(4, 0, [0xFF, 0xFF]) ==> Line(r) == ":02000004FFFFFC"
    ensures r == Record(0, 0x30, [0x02, 0x33, 0x7A]) ==> Line(r) == ":0300300002337A1E"
  {
    hide Line, HexText, Sum, Hex2, Hex4;
    if r == Record(4, 0, [0xFF, 0xFF]) {
      HighBase(r);
    }
    Quads(r.offset);
    Pairs(|r.data|);
    Pairs(r.kind);
    if r == Record(1, 0, []) {
      FewBytes(0, 0, 0);
      Pairs(0xFF);
      LineIs(r, 1);
    } else if r == Record(0, 0x30, [0x02, 0x33, 0x7A]) {
      FewBytes(0x02, 0x33, 0x7A);
      Pairs(0x02);
      Pairs(0x33);
      Pairs(0x7A);
      Pairs(0x1E);
      LineIs(r, 226);
    }
  }

  lemma HighBase(r: Record)
    requires r == Record(4, 0, [0xFF, 0xFF])
    ensures Line(r) == ":02000004FFFFFC"
  {
    hide Line, HexText, Sum, Hex2, Hex4;
    Quads(r.offset);
    Pairs(|r.data|);
    Pairs(r.kind);
    FewBytes(0xFF, 0xFF, 0);
    Pairs(0xFF);
    Pairs(0xFC);
    LineIs(r, 516);
  }

  /** The whole text of a one-byte image at 2 MiB, the default offset. */
  lemma KnownText(at: int, image: seq<Byte>)
    requires at == 0x20_0000 && image == [1]
    ensures Text(ImageRecords(0, at, image)) == ":020000040020DA\n:0100000001FE\n:00000001FF\n"
  {
    hide Line, Text, ImageRecords, WriteRecords;
    var base, data, end := KnownRecords(at, image);
    ThreeLines(base, data, end);
    BaseLine(base);
    ByteLine(data);
    KnownLines(end);
  }

  lemma KnownRecords(at: int, image: seq<Byte>) returns (base: Record, data: Record, end: Record)
    requires at == 0x20_0000 && image == [1]
    ensures base == Record(4, 0, [0, 0x20]) && data == Record(0, 0, image) && end == Record(1, 0, [])
    ensures ImageRecords(0, at, image) == [base] + [data] + [end]
  {
    base, data, end := Record(4, 0, [0, 0x20]), Record(0, 0, image), Record(1, 0, []);
    assert ImageRecords(at / SEGMENT, at + 1, []) == [end];
    assert image[..1] == image && image[1..] == [];
    assert WriteRecords(0, at, image) == [base] + [data];
  }

  lemma BaseLine(r: Record)
    requires r == Record(4, 0, [0, 0x20])
    ensures Line(r) == ":020000040020DA"
  {
    hide Line, HexText, Sum, Hex2, Hex4;
    Quads(r.offset);
    Pairs(|r.data|);
    Pairs(r.kind);
    FewBytes(0, 0x20, 0);
    Pairs(0);
    Pairs(0x20);
    Pairs(0xDA);
    LineIs(r, 38);
  }

  lemma ByteLine(r: Record)
    requires r == Record(0, 0, [1])
    ensures Line(r) == ":0100000001FE"
  {
    hide Line, HexText, Sum, Hex2, Hex4;
    Quads(r.offset);
    Pairs(|r.data|);
    Pairs(r.kind);
    OneMore([], 1);
    FewBytes(0, 0, 0);
    assert [] + [1] == r.data;
    Pairs(1);
    Pairs(0xFE);
    LineIs(r, 2);
  }

  lemma ThreeLines(a: Record, b: Record, c: Record)
    requires a.Valid() && b.Valid() && c.Valid()
    ensures Text([a] + [b] + [c]) == Line(a) + "\n" + Line(b) + "\n" + Line(c) + "\n"
  {
    hide Line, Text;
    TextAppend([a] + [b], [c]);
    TextAppend([a], [b]);
    TextOfFew([a]);
    TextOfFew([b]);
    TextOfFew([c]);
  }
}
