/** The pack container of pack.rs: compressed chunks, a trailing JSON index, the length of that
    index and a magic. The index is printed and read back byte by byte, so that the size of a
    finished pack counts what is really written. */
module PackFile {
  import opened Options
  import opened Text

  const MAX_PACK_BYTES: nat := 64 * 1024 * 1024
  const TRAILER_LEN: nat := 16
  const INDEX_ENTRY_ESTIMATE: nat := 160

  /** `SLCP0001` */
  const PACK_MAGIC: Bytes := [83, 76, 67, 80, 48, 48, 48, 49]

  /** An index entry; the hash is its 64 hex digits, as printed. */
  datatype IndexEntry = IndexEntry(hash: Bytes, offset: nat, length: nat, size: nat)

  /** A chunk as a pack holds it. */
  datatype Chunk = Chunk(id: Bytes, compressed: Bytes, size: nat)

  // ----- The index length ---------------------------------------------------------------------

  function LittleEndian(n: nat, k: nat): (b: Bytes)
    ensures |b| == k
  {
    if k == 0 then [] else [n % 256] + LittleEndian(n / 256, k - 1)
  }

  function FromLittleEndian(b: Bytes): nat {
    if b == [] then 0 else b[0] + 256 * FromLittleEndian(b[1..])
  }

  lemma {:induction false} LittleEndianRoundTrip(n: nat, k: nat)
    requires n < Pow(256, k)
    ensures FromLittleEndian(LittleEndian(n, k)) == n
  {
    if k > 0 {
      assert Pow(256, k) == 256 * Pow(256, k - 1);
      LittleEndianRoundTrip(n / 256, k - 1);
      assert LittleEndian(n, k)[1..] == LittleEndian(n / 256, k - 1);
    }
  }

  lemma Pow256Of8()
    ensures Pow(256, 8) == U64_LIMIT
  {
  }

  lemma Pow10Of8()
    ensures Pow(10, 8) == 100_000_000
    ensures Pow(10, 20) == 100_000_000_000_000_000_000
  {
  }

  // ----- The printed index ---------------------------------------------------------------------

  /** `{"hash":"` */
  const HASH: Bytes := [123, 34, 104, 97, 115, 104, 34, 58, 34]

  /** `","offset":` */
  const OFFSET: Bytes := [34, 44, 34, 111, 102, 102, 115, 101, 116, 34, 58]

  /** `,"length":` */
  const LENGTH: Bytes := [44, 34, 108, 101, 110, 103, 116, 104, 34, 58]

  /** `,"size":` */
  const SIZE: Bytes := [44, 34, 115, 105, 122, 101, 34, 58]

  /** `}` */
  const CLOSE: Bytes := [125]

  const OPEN_LIST: byte := 91
  const CLOSE_LIST: byte := 93
  const COMMA: byte := 44

  /** What is printed is followed by `rest`. */
  function PrintField(name: Bytes, n: nat, rest: Bytes): Bytes {
    name + (Decimal(n) + rest)
  }

  function PrintEntry(e: IndexEntry, rest: Bytes): Bytes {
    HASH + (e.hash + PrintField(OFFSET, e.offset,
                                PrintField(LENGTH, e.length, PrintField(SIZE, e.size, CLOSE + rest))))
  }

  /** The entries and the bracket that closes them. */
  function PrintRest(es: seq<IndexEntry>): Bytes {
    if es == [] then [CLOSE_LIST]
    else PrintEntry(es[0], if |es| == 1 then [CLOSE_LIST] else [COMMA] + PrintRest(es[1..]))
  }

  function PrintIndex(es: seq<IndexEntry>): Bytes {
    [OPEN_LIST] + PrintRest(es)
  }

  datatype Parsed<+T> = Bad | Good(value: T, rest: Bytes)

  function Literal(b: Bytes, literal: Bytes): (p: Parsed<()>)
    ensures p.Good? ==> |p.rest| <= |b|
  {
    if literal <= b then Good((), b[|literal|..]) else Bad
  }

  function Number(b: Bytes): (p: Parsed<nat>)
    ensures p.Good? ==> |p.rest| < |b|
  {
    var n := Digits(b);
    if n == 0 then Bad else Good(Value(b[..n]), b[n..])
  }

  function Field(b: Bytes, name: Bytes): (p: Parsed<nat>)
    ensures p.Good? ==> |p.rest| < |b|
  {
    var l := Literal(b, name);
    if l.Bad? then Bad else Number(l.rest)
  }

  function ParseEntry(b: Bytes): (p: Parsed<IndexEntry>)
    ensures p.Good? ==> |p.rest| < |b|
  {
    var open := Literal(b, HASH);
    if open.Bad? || |open.rest| < 64 then Bad
    else
      var offset := Field(open.rest[64..], OFFSET);
      if offset.Bad? then Bad
      else
        var length := Field(offset.rest, LENGTH);
        if length.Bad? then Bad
        else
          var size := Field(length.rest, SIZE);
          if size.Bad? then Bad
          else
            var close := Literal(size.rest, CLOSE);
            if close.Bad? then Bad
            else Good(IndexEntry(open.rest[..64], offset.value, length.value, size.value), close.rest)
  }

  function ParseRest(b: Bytes): Option<seq<IndexEntry>>
    decreases |b|
  {
    var first := ParseEntry(b);
    if first.Bad? then None
    else if first.rest == [CLOSE_LIST] then Some([first.value])
    else if first.rest == [] || first.rest[0] != COMMA then None
    else
      var others := ParseRest(first.rest[1..]);
      if others.None? then None else Some([first.value] + others.value)
  }

  function ParseList(b: Bytes): Option<seq<IndexEntry>> {
    if b == [OPEN_LIST, CLOSE_LIST] then Some([])
    else if b == [] || b[0] != OPEN_LIST then None
    else ParseRest(b[1..])
  }

  lemma LiteralRoundTrip(literal: Bytes, rest: Bytes)
    ensures Literal(literal + rest, literal) == Good((), rest)
  {
  }

  lemma NumberRoundTrip(n: nat, rest: Bytes)
    requires rest != [] && !IsDigit(rest[0])
    ensures Number(Decimal(n) + rest) == Good(n, rest)
  {
    var digits := Decimal(n);
    DecimalValue(n);
    DigitsOf(digits, rest);
    assert (digits + rest)[..|digits|] == digits && (digits + rest)[|digits|..] == rest;
  }

  lemma FieldRoundTrip(name: Bytes, n: nat, rest: Bytes)
    requires rest != [] && !IsDigit(rest[0])
    ensures Field(PrintField(name, n, rest), name) == Good(n, rest)
  {
    hide Number;
    LiteralRoundTrip(name, Decimal(n) + rest);
    NumberRoundTrip(n, rest);
  }

  lemma FieldStart(name: Bytes, n: nat, rest: Bytes)
    requires name != [] && !IsDigit(name[0])
    ensures PrintField(name, n, rest) != [] && !IsDigit(PrintField(name, n, rest)[0])
  {
  }

  lemma EntryRoundTrip(e: IndexEntry, rest: Bytes)
    requires |e.hash| == 64
    ensures ParseEntry(PrintEntry(e, rest)) == Good(e, rest)
  {
    hide PrintField;
    hide Field;
    var size := PrintField(SIZE, e.size, CLOSE + rest);
    var length := PrintField(LENGTH, e.length, size);
    var offset := PrintField(OFFSET, e.offset, length);
    LiteralRoundTrip(HASH, e.hash + offset);
    assert (e.hash + offset)[64..] == offset && (e.hash + offset)[..64] == e.hash;
    FieldStart(SIZE, e.size, CLOSE + rest);
    FieldStart(LENGTH, e.length, size);
    FieldRoundTrip(OFFSET, e.offset, length);
    FieldRoundTrip(LENGTH, e.length, size);
    FieldRoundTrip(SIZE, e.size, CLOSE + rest);
    LiteralRoundTrip(CLOSE, rest);
  }

  predicate Hashed(es: seq<IndexEntry>) {
    forall i :: 0 <= i < |es| ==> |es[i].hash| == 64
  }

  lemma {:induction false} RestRoundTrip(es: seq<IndexEntry>)
    requires es != [] && Hashed(es)
    ensures ParseRest(PrintRest(es)) == Some(es)
    decreases |es|
  {
    hide PrintEntry;
    hide ParseEntry;
    if |es| == 1 {
      EntryRoundTrip(es[0], [CLOSE_LIST]);
      assert PrintRest(es) == PrintEntry(es[0], [CLOSE_LIST]);
      assert es == [es[0]];
    } else {
      var rest: Bytes := [COMMA] + PrintRest(es[1..]);
      EntryRoundTrip(es[0], rest);
      RestRoundTrip(es[1..]);
      assert rest[0] == COMMA && rest[1..] == PrintRest(es[1..]);
      assert PrintRest(es) == PrintEntry(es[0], rest);
      assert es == [es[0]] + es[1..];
    }
  }

  /** Reading the printed index gives its entries. */
  lemma IndexRoundTrip(es: seq<IndexEntry>)
    requires Hashed(es)
    ensures ParseList(PrintIndex(es)) == Some(es)
  {
    if es != [] {
      hide PrintEntry;
      hide ParseRest;
      RestRoundTrip(es);
      assert PrintIndex(es)[1..] == PrintRest(es);
      EntryLength(es[0], if |es| == 1 then [CLOSE_LIST] else [COMMA] + PrintRest(es[1..]));
    }
  }

  lemma EntryLength(e: IndexEntry, rest: Bytes)
    ensures |PrintEntry(e, rest)| == 39 + |e.hash| + |Decimal(e.offset)| + |Decimal(e.length)| + |Decimal(e.size)| + |rest|
  {
  }

  predicate Small(e: IndexEntry) {
    |e.hash| == 64 && e.offset <= MAX_PACK_BYTES && e.length <= MAX_PACK_BYTES && e.size < U64_LIMIT
  }

  lemma EntrySize(e: IndexEntry, rest: Bytes)
    requires Small(e)
    ensures |PrintEntry(e, rest)| + 2 <= INDEX_ENTRY_ESTIMATE + |rest|
  {
    EntryLength(e, rest);
    Pow10Of8();
    DecimalLength(e.offset, 8);
    DecimalLength(e.length, 8);
    DecimalLength(e.size, 20);
  }

  /** The 160-byte estimate dominates the printed index of any non-empty pack. */
  lemma {:induction false} IndexSize(es: seq<IndexEntry>)
    requires es != [] && forall i :: 0 <= i < |es| ==> Small(es[i])
    ensures |PrintRest(es)| < INDEX_ENTRY_ESTIMATE * |es|
    decreases |es|
  {
    if |es| == 1 {
      EntrySize(es[0], [CLOSE_LIST]);
    } else {
      EntrySize(es[0], [COMMA] + PrintRest(es[1..]));
      IndexSize(es[1..]);
    }
  }

  // ----- A finished pack -----------------------------------------------------------------------

  /** A pack's bytes: the chunks, the index, its length and the magic. */
  function Sealed(file: Bytes, es: seq<IndexEntry>): Bytes {
    file + (PrintIndex(es) + (LittleEndian(|PrintIndex(es)|, 8) + PACK_MAGIC))
  }

  datatype PackError = BadMagic | BadIndexLength | BadIndex | ChunkMismatch | ChunkTooLarge

  datatype Result<+T> = Ok(value: T) | Err(error: PackError)

  /** Where the index starts and how long it is, from the last bytes of a pack of `total` bytes. */
  function ParseTrailer(tail: Bytes, total: nat): Result<(nat, nat)> {
    if |tail| < TRAILER_LEN || total < TRAILER_LEN then Err(BadMagic)
    else
      var t := tail[|tail| - TRAILER_LEN..];
      if t[8..16] != PACK_MAGIC then Err(BadMagic)
      else
        var len := FromLittleEndian(t[0..8]);
        if len > total - TRAILER_LEN then Err(BadIndexLength)
        else Ok((total - TRAILER_LEN - len, len))
  }

  function ParseIndex(pack: Bytes): Result<seq<IndexEntry>> {
    match ParseTrailer(pack, |pack|)
    case Err(e) => Err(e)
    case Ok((start, len)) =>
      if start + len > |pack| then Err(BadIndexLength)
      else
        match ParseList(pack[start..start + len])
        case None => Err(BadIndex)
        case Some(es) => Ok(es)
  }

  /** Parsing a sealed pack gives the entries it was sealed with. */
  lemma ParseSealed(file: Bytes, es: seq<IndexEntry>)
    requires Hashed(es) && |PrintIndex(es)| < U64_LIMIT
    ensures ParseIndex(Sealed(file, es)) == Ok(es)
  {
    hide PrintIndex;
    hide ParseList;
    var pack, index := Sealed(file, es), PrintIndex(es);
    var len := LittleEndian(|index|, 8);
    var t := pack[|pack| - TRAILER_LEN..];
    assert t == len + PACK_MAGIC;
    assert t[0..8] == len && t[8..16] == PACK_MAGIC;
    Pow256Of8();
    LittleEndianRoundTrip(|index|, 8);
    assert pack[|file|..|file| + |index|] == index;
    IndexRoundTrip(es);
  }

  /** Each chunk lies right after the one before it, and the last ends the file. */
  predicate Laid(es: seq<IndexEntry>, end: nat) {
    if es == [] then end == 0
    else
      var last := es[|es| - 1];
      last.offset + last.length == end && Laid(es[..|es| - 1], last.offset)
  }

  predicate Within(es: seq<IndexEntry>, end: nat) {
    forall i :: 0 <= i < |es| ==> es[i].offset + es[i].length <= end
  }

  /** The chunks that entries name in a file. */
  function Chunks(file: Bytes, es: seq<IndexEntry>): (cs: seq<Chunk>)
    requires Within(es, |file|)
  {
    seq(|es|, i requires 0 <= i < |es| =>
      Chunk(es[i].hash, file[es[i].offset..es[i].offset + es[i].length], es[i].size))
  }

  /** What a pack holds, read through its trailer. */
  function Contents(pack: Bytes): Option<seq<Chunk>> {
    match ParseIndex(pack)
    case Err(_) => None
    case Ok(es) => if Within(es, |pack|) then Some(Chunks(pack, es)) else None
  }

  lemma SealedContents(file: Bytes, es: seq<IndexEntry>)
    requires Hashed(es) && |PrintIndex(es)| < U64_LIMIT && Within(es, |file|)
    ensures Contents(Sealed(file, es)) == Some(Chunks(file, es))
  {
    hide ParseIndex;
    ParseSealed(file, es);
    var pack := Sealed(file, es);
    assert file <= pack;
    assert Within(es, |pack|);
    forall i | 0 <= i < |es|
      ensures Chunks(pack, es)[i] == Chunks(file, es)[i]
    {
      assert pack[es[i].offset..es[i].offset + es[i].length] == file[es[i].offset..es[i].offset + es[i].length];
    }
    assert Chunks(pack, es) == Chunks(file, es);
  }

  // ----- Reading a chunk -----------------------------------------------------------------------

  /** The hash and the compression a pack is made with. */
  datatype Codec = Codec(hash: Bytes -> Bytes, compress: Bytes -> Bytes, decompress: (Bytes, nat) -> Option<Bytes>)

  /** The hash has 64 digits and no collision; decompression inverts compression. */
  ghost predicate Sound(c: Codec) {
    && (forall d :: |c.hash(d)| == 64 && c.decompress(c.compress(d), |d|) == Some(d))
    && (forall d, e :: c.hash(d) == c.hash(e) ==> d == e)
  }

  /** The entry a map filled in order holds for an id: the last one. */
  function EntryOf(es: seq<IndexEntry>, id: Bytes): Option<IndexEntry> {
    if es == [] then None
    else if es[|es| - 1].hash == id then Some(es[|es| - 1])
    else EntryOf(es[..|es| - 1], id)
  }

  function ReadChunk(c: Codec, pack: Bytes, id: Bytes): Result<Option<Bytes>> {
    match ParseIndex(pack)
    case Err(e) => Err(e)
    case Ok(es) =>
      match EntryOf(es, id)
      case None => Ok(None)
      case Some(e) =>
        if e.offset + e.length > |pack| then Err(BadIndexLength)
        else
          match c.decompress(pack[e.offset..e.offset + e.length], e.size)
          case None => Err(BadIndex)
          case Some(data) => if c.hash(data) != id then Err(ChunkMismatch) else Ok(Some(data))
  }

  predicate Distinct(cs: seq<Chunk>) {
    forall i, j :: 0 <= i < j < |cs| ==> cs[i].id != cs[j].id
  }

  lemma {:induction false} EntryFound(es: seq<IndexEntry>, id: Bytes)
    requires forall i, j :: 0 <= i < j < |es| ==> es[i].hash != es[j].hash
    ensures forall i :: 0 <= i < |es| && es[i].hash == id ==> EntryOf(es, id) == Some(es[i])
    decreases |es|
  {
    if es != [] && es[|es| - 1].hash != id {
      EntryFound(es[..|es| - 1], id);
    }
  }

  /** A pack reads back every chunk it holds. */
  lemma HeldIsRead(c: Codec, pack: Bytes, i: nat, data: Bytes)
    requires c.decompress(c.compress(data), |data|) == Some(data)
    requires Contents(pack).Some? && Distinct(Contents(pack).value) && i < |Contents(pack).value|
    requires Contents(pack).value[i] == Chunk(c.hash(data), c.compress(data), |data|)
    ensures ReadChunk(c, pack, c.hash(data)) == Ok(Some(data))
  {
    hide ParseIndex;
    var es := ParseIndex(pack).value;
    var cs := Contents(pack).value;
    assert forall j :: 0 <= j < |es| ==> es[j].hash == cs[j].id;
    EntryFound(es, c.hash(data));
    assert EntryOf(es, c.hash(data)) == Some(es[i]);
  }

  /** A pack answers nothing for a chunk it does not hold. */
  lemma OtherIsAbsent(c: Codec, pack: Bytes, id: Bytes)
    requires Contents(pack).Some? && forall i :: 0 <= i < |Contents(pack).value| ==> Contents(pack).value[i].id != id
    ensures ReadChunk(c, pack, id) == Ok(None)
  {
    hide ParseIndex;
    var es := ParseIndex(pack).value;
    var cs := Contents(pack).value;
    assert forall j :: 0 <= j < |es| ==> es[j].hash == cs[j].id;
    NoEntry(es, id);
  }

  lemma {:induction false} NoEntry(es: seq<IndexEntry>, id: Bytes)
    requires forall i :: 0 <= i < |es| ==> es[i].hash != id
    ensures EntryOf(es, id) == None
    decreases |es|
  {
    if es != [] {
      NoEntry(es[..|es| - 1], id);
    }
  }
}
