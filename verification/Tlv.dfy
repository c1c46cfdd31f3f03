/** The type-length-value framing of batch files (tlv.cpp), at the level of bytes. */
module Tlv {
  import opened Options

  type Byte = x: int | 0 <= x < 256
  type Bytes = seq<Byte>

  const HEADER_SIZE: nat := 6
  const LENGTH_LIMIT: nat := 0x1_0000_0000

  datatype BlockType = Event | Metadata

  datatype Block = Block(kind: BlockType, data: Bytes)

  datatype Header = Header(kind: BlockType, size: nat)

  /** A block the format can carry: empty blocks are rejected on decoding, and the length
      field has 32 bits. */
  predicate Storable(b: Block) {
    0 < |b.data| < LENGTH_LIMIT
  }

  function TypeCode(kind: BlockType): Byte {
    match kind
    case Event => 0
    case Metadata => 1
  }

  /** Big-endian type and length; the length is truncated to 32 bits as the cast in the
      source truncates it. */
  function EncodeHeader(kind: BlockType, size: nat): (h: Bytes)
    ensures |h| == HEADER_SIZE
  {
    var n := size % LENGTH_LIMIT;
    [0, TypeCode(kind), n / 0x100_0000, n / 0x1_0000 % 256, n / 0x100 % 256, n % 256]
  }

  function DecodeHeader(h: Bytes): Option<Header>
    requires |h| == HEADER_SIZE
  {
    var size := ((h[2] as int * 256 + h[3] as int) * 256 + h[4] as int) * 256 + h[5] as int;
    var code := h[0] as int * 256 + h[1] as int;
    if size == 0 then None
    else if code == 0 then Some(Header(Event, size))
    else if code == 1 then Some(Header(Metadata, size))
    else None
  }

  function Encode(b: Block): Bytes {
    EncodeHeader(b.kind, |b.data|) + b.data
  }

  function EncodeAll(bs: seq<Block>): Bytes {
    if bs == [] then [] else Encode(bs[0]) + EncodeAll(bs[1..])
  }

  lemma SizeDigits(n: nat)
    requires n < LENGTH_LIMIT
    ensures ((n / 0x100_0000 * 256 + n / 0x1_0000 % 256) * 256 + n / 0x100 % 256) * 256 + n % 256 == n
  {
  }

  /** The header round trip holds exactly for the lengths that survive the truncation to a
      non-zero 32-bit value. */
  lemma HeaderRoundTripsExactlyInRange(kind: BlockType, size: nat)
    ensures DecodeHeader(EncodeHeader(kind, size)) == Some(Header(kind, size)) <==> 0 < size < LENGTH_LIMIT
  {
    SizeDigits(size % LENGTH_LIMIT);
  }

  method WriteBigEndian16(dst: array<Byte>, at: nat, value: nat)
    requires at + 2 <= dst.Length && value < 0x1_0000
    modifies dst
    ensures dst[at] == value / 256 && dst[at + 1] == value % 256
    ensures forall i | 0 <= i < dst.Length && !(at <= i < at + 2) :: dst[i] == old(dst[i])
  {
    dst[at] := value / 256;
    dst[at + 1] := value % 256;
  }

  method WriteBigEndian32(dst: array<Byte>, at: nat, value: nat)
    requires at + 4 <= dst.Length && value < LENGTH_LIMIT
    modifies dst
    ensures dst[at] == value / 0x100_0000 && dst[at + 1] == value / 0x1_0000 % 256
    ensures dst[at + 2] == value / 0x100 % 256 && dst[at + 3] == value % 256
    ensures forall i | 0 <= i < dst.Length && !(at <= i < at + 4) :: dst[i] == old(dst[i])
  {
    dst[at] := value / 0x100_0000;
    dst[at + 1] := value / 0x1_0000 % 256;
    dst[at + 2] := value / 0x100 % 256;
    dst[at + 3] := value % 256;
  }

  method WriteHeader(dst: array<Byte>, at: nat, kind: BlockType, size: nat)
    requires at + HEADER_SIZE <= dst.Length
    modifies dst
    ensures dst[..] == old(dst[..at]) + EncodeHeader(kind, size) + old(dst[at + HEADER_SIZE..])
  {
    WriteBigEndian16(dst, at, TypeCode(kind));
    WriteBigEndian32(dst, at + 2, size % LENGTH_LIMIT);
  }

  method CopyBytes(dst: array<Byte>, at: nat, data: Bytes)
    requires at + |data| <= dst.Length
    modifies dst
    ensures dst[..] == old(dst[..at]) + data + old(dst[at + |data|..])
  {
    var i := 0;
    while i < |data|
      invariant 0 <= i <= |data|
      invariant dst[..at] == old(dst[..at]) && dst[at..at + i] == data[..i]
      invariant dst[at + |data|..] == old(dst[at + |data|..])
    {
      dst[at + i] := data[i];
      i := i + 1;
    }
    assert dst[..] == dst[..at] + dst[at..at + |data|] + dst[at + |data|..];
  }

  /** Bytes that the bounds check of EncodeTLVBlock counts: it looks at the truncated length. */
  function CheckedSize(b: Block): nat {
    HEADER_SIZE + |b.data| % LENGTH_LIMIT
  }

  /** EncodeTLVBlock: writes header and payload at `at`, or nothing at all when the region
      from `at` to the end of the buffer is found too small. The whole payload is copied, so
      callers must see to it that a region found large enough is. */
  method EncodeTLVBlock(dst: array<Byte>, at: nat, b: Block) returns (written: nat)
    requires at < dst.Length
    requires CheckedSize(b) <= dst.Length - at ==> HEADER_SIZE + |b.data| <= dst.Length - at
    modifies dst
    ensures
      var n := 6 + |b.data| % 0x1_0000_0000;
      written == if n <= dst.Length - at then n else 0
    ensures written > 0 ==> dst[..] == old(dst[..at]) + Encode(b) + old(dst[at + HEADER_SIZE + |b.data|..])
    ensures written == 0 ==> dst[..] == old(dst[..])
  {
    if CheckedSize(b) > dst.Length - at {
      return 0;
    }
    ghost var before := dst[..];
    WriteHeader(dst, at, b.kind, |b.data|);
    ghost var header := dst[..at + HEADER_SIZE];
    assert header == before[..at] + EncodeHeader(b.kind, |b.data|);
    CopyBytes(dst, at + HEADER_SIZE, b.data);
    ConcatIsAssociative(before[..at], EncodeHeader(b.kind, |b.data|), b.data);
    written := CheckedSize(b);
  }

  // ---- whole writes ----

  /** One call to the writer: an event, preceded by metadata unless that is empty. */
  datatype Write = Write(metadata: Bytes, event: Bytes)

  function Blocks(w: Write): (bs: seq<Block>)
    ensures 1 <= |bs| <= 2
  {
    (if w.metadata == [] then [] else [Block(Metadata, w.metadata)]) + [Block(Event, w.event)]
  }

  function EncodedSize(w: Write): nat {
    HEADER_SIZE + |w.event| + if w.metadata == [] then 0 else HEADER_SIZE + |w.metadata|
  }

  predicate StorableWrite(w: Write) {
    0 < |w.event| < LENGTH_LIMIT && |w.metadata| < LENGTH_LIMIT
  }

  function AllBlocks(ws: seq<Write>): seq<Block> {
    if ws == [] then [] else Blocks(ws[0]) + AllBlocks(ws[1..])
  }

  function EncodedMetadata(w: Write): Bytes {
    if w.metadata == [] then [] else Encode(Block(Metadata, w.metadata))
  }

  lemma EncodedWrite(w: Write)
    ensures EncodeAll(Blocks(w)) == EncodedMetadata(w) + Encode(Block(Event, w.event))
  {
    var event := Block(Event, w.event);
    assert EncodeAll([event]) == Encode(event) + [];
    if w.metadata != [] {
      assert Blocks(w)[1..] == [event];
    }
  }

  lemma EncodedWriteSize(w: Write)
    ensures |EncodeAll(Blocks(w))| == EncodedSize(w)
  {
    EncodedWrite(w);
  }

  function BigEndian32(n: nat): Bytes
    requires n < 0x1_0000_0000
  {
    [n / 256 / 256 / 256, n / 256 / 256 % 256, n / 256 % 256, n % 256]
  }

  /** Byte by byte: type 1 and the metadata, if there is any, then type 0 and the event, each after
      its length. */
  lemma WriteLayout(w: Write)
    requires |w.event| < 0x1_0000_0000 && |w.metadata| < 0x1_0000_0000
    ensures EncodeAll(Blocks(w)) ==
      (if w.metadata == [] then [] else [0, 1] + BigEndian32(|w.metadata|) + w.metadata)
      + [0, 0] + BigEndian32(|w.event|) + w.event
  {
    EncodedWrite(w);
    HeaderLayout(Metadata, |w.metadata|);
    HeaderLayout(Event, |w.event|);
    var head := EncodedMetadata(w);
    assert head + (([0, 0] + BigEndian32(|w.event|)) + w.event) == head + [0, 0] + BigEndian32(|w.event|) + w.event;
  }

  lemma HeaderLayout(kind: BlockType, n: nat)
    requires n < 0x1_0000_0000
    ensures EncodeHeader(kind, n) == [0, if kind.Metadata? then 1 else 0] + BigEndian32(n)
  {
    assert n / 256 / 256 / 256 == n / 0x100_0000 && n / 256 / 256 == n / 0x1_0000;
  }

  /** The intermediate buffer of FlushEvent: the whole write is laid out contiguously before
      a single call hands it to the file. */
  method AssembleWrite(w: Write) returns (buffer: array<Byte>)
    requires StorableWrite(w)
    ensures fresh(buffer) && buffer[..] == EncodeAll(Blocks(w))
  {
    buffer := new Byte[EncodedSize(w)](_ => 0);
    var at := 0;
    if w.metadata != [] {
      assert CheckedSize(Block(Metadata, w.metadata)) == HEADER_SIZE + |w.metadata|;
      at := EncodeTLVBlock(buffer, 0, Block(Metadata, w.metadata));
    }
    ghost var head := buffer[..at];
    assert head == EncodedMetadata(w);
    assert CheckedSize(Block(Event, w.event)) == HEADER_SIZE + |w.event| == buffer.Length - at;
    var n := EncodeTLVBlock(buffer, at, Block(Event, w.event));
    assert buffer[..] == head + Encode(Block(Event, w.event));
    EncodedWrite(w);
  }

  // ---- reading ----

  /** Outcome of reading one block from the front of `s`, and how many bytes that consumed. */
  datatype ReadResult = Success(block: Block) | EndOfFile | Error

  function ReadBlock(s: Bytes): (r: (ReadResult, nat))
    ensures r.1 <= |s| && (r.0.Success? ==> r.1 >= HEADER_SIZE)
  {
    if |s| == 0 then (EndOfFile, 0)
    else if |s| < HEADER_SIZE then (Error, |s|)
    else
      match DecodeHeader(s[..HEADER_SIZE])
      case None => (Error, HEADER_SIZE)
      case Some(h) =>
        if |s| < HEADER_SIZE + h.size then (Error, |s|)
        else (Success(Block(h.kind, s[HEADER_SIZE..HEADER_SIZE + h.size])), HEADER_SIZE + h.size)
  }

  /** All blocks up to the first one that cannot be read, and what stopped the reading. */
  function ReadAll(s: Bytes): (seq<Block>, ReadResult)
    decreases |s|
  {
    var (r, n) := ReadBlock(s);
    if r.Success? then
      var (bs, last) := ReadAll(s[n..]);
      ([r.block] + bs, last)
    else ([], r)
  }

  lemma ReadsBackBlock(b: Block, rest: Bytes)
    requires Storable(b)
    ensures ReadBlock(Encode(b) + rest) == (Success(b), |Encode(b)|)
  {
    HeaderRoundTripsExactlyInRange(b.kind, |b.data|);
    var s := Encode(b) + rest;
    assert s[..HEADER_SIZE] == EncodeHeader(b.kind, |b.data|);
    assert s[HEADER_SIZE..HEADER_SIZE + |b.data|] == b.data;
  }

  lemma ReadsOnAfterBlock(b: Block, rest: Bytes)
    requires Storable(b)
    ensures ReadAll(Encode(b) + rest) == ([b] + ReadAll(rest).0, ReadAll(rest).1)
  {
    ReadsBackBlock(b, rest);
    assert (Encode(b) + rest)[|Encode(b)|..] == rest;
  }

  /** A proper non-empty prefix of one encoded block is never mistaken for a block. */
  lemma RejectsTornBlock(b: Block, k: nat)
    requires Storable(b) && 0 < k < |Encode(b)|
    ensures ReadBlock(Encode(b)[..k]).0 == Error
  {
    HeaderRoundTripsExactlyInRange(b.kind, |b.data|);
    if k >= HEADER_SIZE {
      assert Encode(b)[..k][..HEADER_SIZE] == EncodeHeader(b.kind, |b.data|);
    }
  }

  /** How many of the blocks lie entirely within the first `k` bytes of their encoding. */
  function WholeBlocks(bs: seq<Block>, k: nat): (n: nat)
    ensures n <= |bs|
  {
    if bs == [] || k < |Encode(bs[0])| then 0 else 1 + WholeBlocks(bs[1..], k - |Encode(bs[0])|)
  }

  /** What the reader makes of the first `k` bytes of an encoding. */
  ghost predicate ReadsWholeBlocks(bs: seq<Block>, k: nat)
    requires k <= |EncodeAll(bs)|
  {
    var n := WholeBlocks(bs, k);
    && ReadAll(EncodeAll(bs)[..k]).0 == bs[..n]
    && ReadAll(EncodeAll(bs)[..k]).1 == if k == |EncodeAll(bs[..n])| then EndOfFile else Error
  }

  lemma ConcatIsAssociative<T>(a: seq<T>, b: seq<T>, c: seq<T>)
    ensures (a + b) + c == a + (b + c)
  {
  }

  lemma TakeOfConcat<T>(a: seq<T>, b: seq<T>, k: nat)
    requires |a| <= k <= |a| + |b|
    ensures (a + b)[..k] == a + b[..k - |a|]
  {
  }

  lemma ReadsWholeBlocksStep(bs: seq<Block>, k: nat)
    requires bs != [] && Storable(bs[0]) && |Encode(bs[0])| <= k <= |EncodeAll(bs)|
    requires ReadsWholeBlocks(bs[1..], k - |Encode(bs[0])|)
    ensures ReadsWholeBlocks(bs, k)
  {
    var e := Encode(bs[0]);
    var n := WholeBlocks(bs[1..], k - |e|);
    var tail := EncodeAll(bs[1..])[..k - |e|];
    TakeOfConcat(e, EncodeAll(bs[1..]), k);
    ReadsOnAfterBlock(bs[0], tail);
    FirstBlockOfPrefix(bs, n);
  }

  lemma FirstBlockOfPrefix(bs: seq<Block>, n: nat)
    requires n < |bs|
    ensures bs[..n + 1] == [bs[0]] + bs[1..][..n]
    ensures |EncodeAll(bs[..n + 1])| == |Encode(bs[0])| + |EncodeAll(bs[1..][..n])|
  {
    EncodingUnfolds(bs[0], bs[1..][..n]);
    assert bs[..n + 1] == [bs[0]] + bs[1..][..n];
  }

  lemma EncodingUnfolds(b: Block, bs: seq<Block>)
    ensures EncodeAll([b] + bs) == Encode(b) + EncodeAll(bs)
  {
    assert ([b] + bs)[1..] == bs;
  }

  /** Cutting a file anywhere loses only the blocks that are not entirely there, and the
      reader tells a clean cut from a torn one. */
  lemma {:induction false} CutFileReadsWholeBlocks(bs: seq<Block>, k: nat)
    requires forall b <- bs :: Storable(b)
    requires k <= |EncodeAll(bs)|
    ensures ReadsWholeBlocks(bs, k)
  {
    if bs != [] {
      assert Storable(bs[0]);
      if k >= |Encode(bs[0])| {
        CutFileReadsWholeBlocks(bs[1..], k - |Encode(bs[0])|);
        ReadsWholeBlocksStep(bs, k);
      } else {
        assert EncodeAll(bs)[..k] == Encode(bs[0])[..k];
        if k > 0 {
          RejectsTornBlock(bs[0], k);
        }
      }
    }
  }

  lemma {:induction false} WholeFileHasAllBlocks(bs: seq<Block>)
    ensures WholeBlocks(bs, |EncodeAll(bs)|) == |bs|
  {
    if bs != [] {
      WholeFileHasAllBlocks(bs[1..]);
    }
  }

  lemma {:induction false} AllBlocksStorable(ws: seq<Write>)
    requires forall w <- ws :: StorableWrite(w)
    ensures forall b <- AllBlocks(ws) :: Storable(b)
  {
    if ws != [] {
      AllBlocksStorable(ws[1..]);
      assert StorableWrite(ws[0]);
    }
  }

  lemma BlocksReadBack(bs: seq<Block>)
    requires forall b <- bs :: Storable(b)
    ensures ReadAll(EncodeAll(bs)) == (bs, EndOfFile)
  {
    WholeFileHasAllBlocks(bs);
    CutFileReadsWholeBlocks(bs, |EncodeAll(bs)|);
    assert EncodeAll(bs)[..|EncodeAll(bs)|] == EncodeAll(bs);
    assert bs[..|bs|] == bs;
  }

  /** Any series of successful writes is read back block for block, then a clean end. */
  lemma WritesReadBack(ws: seq<Write>)
    requires forall w <- ws :: StorableWrite(w)
    ensures ReadAll(EncodeAll(AllBlocks(ws))) == (AllBlocks(ws), EndOfFile)
  {
    AllBlocksStorable(ws);
    BlocksReadBack(AllBlocks(ws));
  }

  lemma {:induction false} EncodingConcatenates(bs: seq<Block>, cs: seq<Block>)
    ensures EncodeAll(bs + cs) == EncodeAll(bs) + EncodeAll(cs)
  {
    if bs == [] {
      assert bs + cs == cs;
    } else {
      EncodingConcatenates(bs[1..], cs);
      assert bs + cs == [bs[0]] + (bs[1..] + cs);
      EncodingUnfolds(bs[0], bs[1..] + cs);
      ConcatIsAssociative(Encode(bs[0]), EncodeAll(bs[1..]), EncodeAll(cs));
    }
  }

  // ---- what failed writes do to a file ----

  lemma DigitsOf(a: Byte, b: Byte, c: Byte, d: Byte)
    ensures
      var n := ((a as int * 256 + b as int) * 256 + c as int) * 256 + d as int;
      && n / 0x100_0000 == a && n / 0x1_0000 % 256 == b && n / 0x100 % 256 == c && n % 256 == d
      && n < LENGTH_LIMIT && n % LENGTH_LIMIT == n
  {
    var high := a as int * 256 + b as int;
    var n := (high * 256 + c as int) * 256 + d as int;
    assert n / 0x100 == high * 256 + c as int;
    assert n / 0x1_0000 == high;
    assert n / 0x100_0000 == a as int;
  }

  lemma DecodedHeaderEncodes(h: Bytes)
    requires |h| == HEADER_SIZE && DecodeHeader(h).Some?
    ensures EncodeHeader(DecodeHeader(h).value.kind, DecodeHeader(h).value.size) == h
  {
    var n := DecodeHeader(h).value.size;
    DigitsOf(h[2], h[3], h[4], h[5]);
    assert h[0] == 0 && h[1] == TypeCode(DecodeHeader(h).value.kind);
    assert EncodeHeader(DecodeHeader(h).value.kind, n)[2..] == [h[2], h[3], h[4], h[5]];
  }

  lemma DecodedBlockEncodes(s: Bytes)
    requires ReadBlock(s).0.Success?
    ensures Encode(ReadBlock(s).0.block) == s[..ReadBlock(s).1]
  {
    DecodedHeaderEncodes(s[..HEADER_SIZE]);
    var n := ReadBlock(s).1;
    assert s[..n] == s[..HEADER_SIZE] + s[HEADER_SIZE..n];
  }

  /** A file that is read to a clean end is exactly the encoding of the blocks it yields. */
  lemma {:induction false} CleanEndMeansEncoded(s: Bytes)
    requires ReadAll(s).1 == EndOfFile
    ensures EncodeAll(ReadAll(s).0) == s
    decreases |s|
  {
    var (r, n) := ReadBlock(s);
    if r.Success? {
      CleanEndMeansEncoded(s[n..]);
      DecodedBlockEncodes(s);
      EncodingUnfolds(r.block, ReadAll(s[n..]).0);
      assert s == s[..n] + s[n..];
    }
  }

  lemma {:induction false} WholeBlocksFit(bs: seq<Block>, k: nat)
    ensures |EncodeAll(bs[..WholeBlocks(bs, k)])| <= k
  {
    if WholeBlocks(bs, k) > 0 {
      var n := WholeBlocks(bs[1..], k - |Encode(bs[0])|);
      WholeBlocksFit(bs[1..], k - |Encode(bs[0])|);
      FirstBlockOfPrefix(bs, n);
    }
  }

  /** A cut between blocks leaves the encoding of the blocks before it. */
  lemma CleanCut(bs: seq<Block>, n: nat)
    requires n <= |bs|
    ensures |EncodeAll(bs[..n])| <= |EncodeAll(bs)|
    ensures EncodeAll(bs)[..|EncodeAll(bs[..n])|] == EncodeAll(bs[..n])
  {
    EncodingConcatenates(bs[..n], bs[n..]);
    assert bs == bs[..n] + bs[n..];
  }

  /** A write that fails after `k` bytes, in a file to which later writes succeed: everything that
      was written whole is read back if and only if the failure fell between two blocks. */
  lemma LaterWritesReadableExactly(before: seq<Block>, torn: seq<Block>, later: seq<Block>, k: nat)
    requires forall b <- before :: Storable(b)
    requires forall b <- torn :: Storable(b)
    requires forall b <- later :: Storable(b)
    requires k <= |EncodeAll(torn)|
    ensures
      var n := WholeBlocks(torn, k);
      ReadAll(EncodeAll(before) + EncodeAll(torn)[..k] + EncodeAll(later)) == (before + torn[..n] + later, EndOfFile)
      <==> k == |EncodeAll(torn[..n])|
  {
    var n := WholeBlocks(torn, k);
    var bs := before + torn[..n] + later;
    var s := EncodeAll(before) + EncodeAll(torn)[..k] + EncodeAll(later);
    EncodingConcatenates(before, torn[..n]);
    EncodingConcatenates(before + torn[..n], later);
    if ReadAll(s) == (bs, EndOfFile) {
      CleanEndMeansEncoded(s);
    }
    if k == |EncodeAll(torn[..n])| {
      CleanCut(torn, n);
      BlocksReadBack(bs);
    }
  }

  /** For instance, after a failure inside a payload a later event is taken for the rest of it. */
  lemma TornWriteHidesLaterWrite()
    ensures
      var torn := Block(Event, [7, 7]);
      var later := Block(Event, [9]);
      var (read, last) := ReadAll(Encode(torn)[..HEADER_SIZE] + Encode(later));
      read == [Block(Event, [0, 0])] && last == Error
  {
    var s := Encode(Block(Event, [7, 7]))[..HEADER_SIZE] + Encode(Block(Event, [9]));
    assert s == [0, 0, 0, 0, 0, 2, 0, 0, 0, 0, 0, 1, 9];
    assert s[..HEADER_SIZE] == [0, 0, 0, 0, 0, 2];
    assert s[HEADER_SIZE..8] == [0, 0];
    assert s[8..] == [0, 0, 0, 1, 9];
    assert ReadBlock(s) == (Success(Block(Event, [0, 0])), 8);
    assert ReadBlock(s[8..]).0 == Error;
    assert ReadAll(s[8..]) == ([], Error);
  }

  // ---- the file and the reader as objects ----

  /** `fails` says which of the platform calls on the file fail. */
  class File {
    const content: Bytes
    const fails: nat -> bool
    var position: nat
    var calls: nat

    constructor (content: Bytes, fails: nat -> bool)
      ensures this.content == content && this.fails == fails && position == 0 && calls == 0
    {
      this.content, this.fails := content, fails;
      position, calls := 0, 0;
    }

    ghost predicate Valid()
      reads this
    {
      position <= |content|
    }

    /** Reads up to `n` bytes; short only at the end of the file. `ok` is false when the
        platform call fails, in which case nothing is read. */
    method Read(n: nat) returns (ok: bool, bytes: Bytes)
      requires Valid()
      modifies this
      ensures Valid() && calls == old(calls) + 1 && ok == !fails(old(calls))
      ensures ok ==>
        && bytes == content[old(position)..][..if n <= |content| - old(position) then n else |content| - old(position)]
        && position == old(position) + |bytes|
      ensures !ok ==> bytes == [] && position == old(position)
    {
      ok, bytes, calls := !fails(calls), [], calls + 1;
      if ok {
        var end := if n <= |content| - position then position + n else |content|;
        bytes := content[position..end];
        assert bytes == content[position..][..end - position];
        position := end;
      }
    }
  }

  /** A call from `i` to before `j` fails. */
  ghost predicate SomeFails(fails: nat -> bool, i: nat, j: nat) {
    exists k :: i <= k < j && fails(k)
  }

  class BatchReader {
    const file: File
    var blockDataBuffer: Bytes

    constructor (file: File)
      ensures this.file == file
    {
      this.file := file;
      blockDataBuffer := [];
    }

    ghost function Remaining(): Bytes
      reads file
      requires file.Valid()
    {
      file.content[file.position..]
    }

    /** `failed` reports that a platform read failed; otherwise the result is what the bytes
        at the file position say. No more is read than a header and, if that is good, a payload. */
    method ReadNext() returns (r: ReadResult, failed: bool)
      requires file.Valid()
      modifies this, file
      ensures file.Valid() && old(file.calls) < file.calls <= old(file.calls) + 2
      ensures failed == SomeFails(file.fails, old(file.calls), file.calls)
      ensures failed ==> r == Error
      ensures !failed ==>
        var (expected, n) := ReadBlock(old(Remaining()));
        r == expected && n <= |old(Remaining())| && Remaining() == old(Remaining())[n..]
      ensures r.Success? ==> r.block.data == blockDataBuffer && file.position > old(file.position)
    {
      var ok, header := file.Read(HEADER_SIZE);
      if ok && |header| == 0 {
        return EndOfFile, false;
      }
      if !ok || |header| < HEADER_SIZE {
        return Error, !ok;
      }
      match DecodeHeader(header)
      case None =>
        return Error, false;
      case Some(h) =>
        var ok', data := file.Read(h.size);
        blockDataBuffer := data;
        if !ok' || |data| != h.size {
          return Error, !ok';
        }
        return Success(Block(h.kind, blockDataBuffer)), false;
    }

    /** Reads until something other than a block comes back. */
    method Drain() returns (bs: seq<Block>, last: ReadResult, failed: bool)
      requires file.Valid()
      modifies this, file
      ensures file.Valid() && failed == SomeFails(file.fails, old(file.calls), file.calls)
      ensures !failed ==> bs == ReadAll(old(Remaining())).0 && last == ReadAll(old(Remaining())).1
      ensures failed ==> bs <= ReadAll(old(Remaining())).0 && last == Error
    {
      bs := [];
      while true
        invariant file.Valid() && old(file.calls) <= file.calls
        invariant !SomeFails(file.fails, old(file.calls), file.calls)
        invariant ReadSoFar(old(Remaining()), bs, Remaining())
        decreases |Remaining()|
      {
        ghost var rest := Remaining();
        last, failed := ReadNext();
        if failed || !last.Success? {
          return;
        }
        ReadsOn(old(Remaining()), bs, rest);
        bs := bs + [last.block];
      }
    }
  }

  /** After reading `bs` from `s`, `rest` is left. */
  ghost predicate ReadSoFar(s: Bytes, bs: seq<Block>, rest: Bytes) {
    ReadAll(s).0 == bs + ReadAll(rest).0 && ReadAll(s).1 == ReadAll(rest).1
  }

  lemma ReadsOn(s: Bytes, bs: seq<Block>, rest: Bytes)
    requires ReadSoFar(s, bs, rest) && ReadBlock(rest).0.Success?
    ensures ReadSoFar(s, bs + [ReadBlock(rest).0.block], rest[ReadBlock(rest).1..])
  {
    ConcatIsAssociative(bs, [ReadBlock(rest).0.block], ReadAll(rest[ReadBlock(rest).1..]).0);
  }
}
