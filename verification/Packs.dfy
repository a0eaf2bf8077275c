/** Writing packs: a writer appends chunks under a byte cap, a builder rotates writers and skips the
    chunks it has seen (pack.rs, `PackWriter` and `PackBuilder`). */
module Packs {
  import opened Options
  import opened PackFile
  import opened Text

  /** The most a lone chunk may take, beside its index estimate and the trailer. */
  predicate FitsAlone(cap: nat, len: nat) {
    len + INDEX_ENTRY_ESTIMATE + TRAILER_LEN <= cap
  }

  /** The chunks lie end to end, and they leave room for the estimated index and the trailer. */
  predicate Written(cap: nat, file: Bytes, entries: seq<IndexEntry>) {
    && cap <= MAX_PACK_BYTES
    && Laid(entries, |file|)
    && Within(entries, |file|)
    && (forall i :: 0 <= i < |entries| ==> Small(entries[i]))
    && (entries != [] ==> |file| + |entries| * INDEX_ENTRY_ESTIMATE + TRAILER_LEN <= cap)
  }

  class PackWriter {
    const cap: nat
    var file: Bytes
    var offset: nat
    var entries: seq<IndexEntry>

    predicate Valid()
      reads this
    {
      offset == |file| && Written(cap, file, entries)
    }

    /** The chunks appended so far. */
    function Held(): seq<Chunk>
      requires Valid()
      reads this
    {
      assert Within(entries, |file|);
      Chunks(file, entries)
    }

    constructor (cap: nat)
      requires cap <= MAX_PACK_BYTES
      ensures Valid() && this.cap == cap && Held() == [] && entries == [] && offset == 0
    {
      this.cap := cap;
      file, offset, entries := [], 0, [];
    }

    predicate Fits(len: nat)
      reads this
    {
      offset + len + (|entries| + 1) * INDEX_ENTRY_ESTIMATE + TRAILER_LEN <= cap
    }

    method Append(id: Bytes, compressed: Bytes, size: nat)
      requires Valid() && Fits(|compressed|) && |id| == 64 && size < U64_LIMIT
      modifies this
      ensures Valid() && entries != []
      ensures Held() == old(Held()) + [Chunk(id, compressed, size)]
    {
      hide Chunks;
      hide Written;
      var entry := IndexEntry(id, offset, |compressed|, size);
      AppendKeeps(cap, file, entries, compressed, entry);
      file := file + compressed;
      entries := entries + [entry];
      offset := offset + |compressed|;
    }

    /** Seal the pack: what it holds is what was appended, and it is no longer than the cap. */
    method Finish() returns (pack: Bytes)
      requires Valid() && entries != []
      ensures Contents(pack) == Some(Held())
      ensures |pack| <= cap
    {
      var index := PrintIndex(entries);
      pack := file + (index + (LittleEndian(|index|, 8) + PACK_MAGIC));
      IndexSize(entries);
      SealedContents(file, entries);
    }
  }

  lemma AppendKeeps(cap: nat, file: Bytes, es: seq<IndexEntry>, compressed: Bytes, e: IndexEntry)
    requires Written(cap, file, es) && |e.hash| == 64 && e.size < U64_LIMIT
    requires e.offset == |file| && e.length == |compressed|
    requires |file| + |compressed| + (|es| + 1) * INDEX_ENTRY_ESTIMATE + TRAILER_LEN <= cap
    ensures Written(cap, file + compressed, es + [e])
    ensures Chunks(file + compressed, es + [e]) == Chunks(file, es) + [Chunk(e.hash, compressed, e.size)]
  {
    var all := file + compressed;
    assert (es + [e])[..|es|] == es;
    forall i | 0 <= i < |es|
      ensures all[es[i].offset..es[i].offset + es[i].length] == file[es[i].offset..es[i].offset + es[i].length]
    {
    }
    assert all[|file|..|file| + |compressed|] == compressed;
  }

  // ----- Several packs -------------------------------------------------------------------------

  ghost predicate Readable(packs: seq<Bytes>, cap: nat) {
    forall k :: 0 <= k < |packs| ==> Contents(packs[k]).Some? && |packs[k]| <= cap
  }

  /** Every chunk of the packs, in order. */
  ghost function Flat(packs: seq<Bytes>): seq<Chunk>
    requires forall k :: 0 <= k < |packs| ==> Contents(packs[k]).Some?
  {
    if packs == [] then [] else Flat(packs[..|packs| - 1]) + Contents(packs[|packs| - 1]).value
  }

  lemma FlatSnoc(packs: seq<Bytes>, pack: Bytes)
    requires forall k :: 0 <= k < |packs| ==> Contents(packs[k]).Some?
    requires Contents(pack).Some?
    ensures Flat(packs + [pack]) == Flat(packs) + Contents(pack).value
  {
    assert (packs + [pack])[..|packs|] == packs;
  }

  function Ids(cs: seq<Chunk>): set<Bytes> {
    set i | 0 <= i < |cs| :: cs[i].id
  }

  lemma IdsSnoc(cs: seq<Chunk>, c: Chunk)
    ensures Ids(cs + [c]) == Ids(cs) + {c.id}
    ensures Distinct(cs) && c.id !in Ids(cs) ==> Distinct(cs + [c])
  {
    var all := cs + [c];
    forall id | id in Ids(cs) + {c.id}
      ensures id in Ids(all)
    {
      if id in Ids(cs) {
        var i :| 0 <= i < |cs| && cs[i].id == id;
        assert all[i].id == id;
      } else {
        assert all[|cs|].id == id;
      }
    }
  }

  class PackBuilder {
    const cap: nat
    var current: PackWriter?
    var finished: seq<Bytes>
    var seen: set<Bytes>

    /** Every chunk added so far, in order. */
    ghost function Log(): seq<Chunk>
      requires current != null ==> current.Valid()
      requires forall k :: 0 <= k < |finished| ==> Contents(finished[k]).Some?
      reads this, current
    {
      Flat(finished) + if current == null then [] else current.Held()
    }

    ghost predicate Valid()
      reads this, current
    {
      && cap <= MAX_PACK_BYTES
      && Readable(finished, cap)
      && (current != null ==> current.Valid() && current.cap == cap && current.entries != [])
      && Distinct(Log())
      && seen == Ids(Log())
    }

    constructor (cap: nat)
      requires cap <= MAX_PACK_BYTES
      ensures Valid() && this.cap == cap && Log() == [] && fresh(this) && current == null
    {
      this.cap := cap;
      current, finished, seen := null, [], {};
    }

    /** Close the open pack. */
    method Rotate()
      requires Valid()
      modifies this
      ensures Valid() && current == null && Log() == old(Log()) && seen == old(seen)
      ensures old(current) == null ==> finished == old(finished)
      ensures old(current) != null ==>
        exists p :: finished == old(finished) + [p] && Contents(p) == Some(old(current.Held()))
    {
      hide Chunks;
      hide Contents;
      hide Flat;
      if current != null {
        var pack := current.Finish();
        FlatSnoc(finished, pack);
        finished := finished + [pack];
        current := null;
        assert Log() == old(Log());
      }
    }

    /** Add a compressed chunk. A chunk already seen changes nothing; one too large for a pack of its
        own is refused; any other becomes the last of the log. A pack is closed only when the chunk
        does not fit it. */
    method AddPacked(id: Bytes, size: nat, compressed: Bytes) returns (r: Result<()>)
      requires Valid() && |id| == 64 && size < U64_LIMIT
      modifies this, current
      ensures Valid() && (current != null ==> current == old(current) || fresh(current))
      ensures r == if id in old(seen) || FitsAlone(cap, |compressed|) then Ok(()) else Err(ChunkTooLarge)
      ensures Log() == old(Log()) + if id !in old(seen) && r.Ok? then [Chunk(id, compressed, size)] else []
      ensures finished != old(finished) ==> old(current) != null && !old(current.Fits(|compressed|))
    {
      hide Chunks;
      hide Contents;
      hide Written;
      hide Flat;
      hide Ids;
      hide Distinct;
      if id in seen {
        return Ok(());
      }
      if current != null && current.entries != [] && !current.Fits(|compressed|) {
        Rotate();
      }
      if current == null {
        var writer := new PackWriter(cap);
        if !writer.Fits(|compressed|) {
          return Err(ChunkTooLarge);
        }
        current := writer;
      }
      ghost var log := Log();
      assert log == old(Log());
      current.Append(id, compressed, size);
      assert Log() == log + [Chunk(id, compressed, size)];
      IdsSnoc(log, Chunk(id, compressed, size));
      seen := seen + {id};
      return Ok(());
    }

    method Add(c: Codec, data: Bytes) returns (r: Result<()>)
      requires Valid() && |c.hash(data)| == 64 && |data| < U64_LIMIT
      modifies this, current
      ensures Valid() && (current != null ==> current == old(current) || fresh(current))
      ensures r == if c.hash(data) in old(seen) || FitsAlone(cap, |c.compress(data)|) then Ok(()) else Err(ChunkTooLarge)
      ensures Log() == old(Log()) + if c.hash(data) !in old(seen) && r.Ok?
                                   then [Chunk(c.hash(data), c.compress(data), |data|)] else []
    {
      var id := c.hash(data);
      if id in seen {
        return Ok(());
      }
      r := AddPacked(id, |data|, c.compress(data));
    }

    /** Close the open pack and hand out every pack: each within the cap, and together the log. */
    method Finish() returns (packs: seq<Bytes>)
      requires Valid()
      modifies this
      ensures Readable(packs, cap) && Flat(packs) == old(Log())
    {
      Rotate();
      packs := finished;
    }
  }

  // ----- Reading a build back ------------------------------------------------------------------

  /** Where a pack's chunks lie in the log. */
  lemma {:induction false} FlatAt(packs: seq<Bytes>, k: nat, i: nat)
    requires forall j :: 0 <= j < |packs| ==> Contents(packs[j]).Some?
    requires k < |packs| && i < |Contents(packs[k]).value|
    ensures |Flat(packs[..k])| + |Contents(packs[k]).value| == |Flat(packs[..k + 1])| <= |Flat(packs)|
    ensures Flat(packs)[|Flat(packs[..k])| + i] == Contents(packs[k]).value[i]
    decreases |packs|
  {
    hide Contents;
    var front := packs[..|packs| - 1];
    assert packs[..k + 1][..k] == packs[..k];
    if k < |packs| - 1 {
      FlatAt(front, k, i);
      assert front[..k] == packs[..k] && front[..k + 1] == packs[..k + 1];
    } else {
      assert packs[..k + 1] == packs;
    }
  }

  lemma {:induction false} FlatFind(packs: seq<Bytes>, at: nat) returns (k: nat, i: nat)
    requires forall j :: 0 <= j < |packs| ==> Contents(packs[j]).Some?
    requires at < |Flat(packs)|
    ensures k < |packs| && i < |Contents(packs[k]).value|
    ensures Contents(packs[k]).value[i] == Flat(packs)[at]
    decreases |packs|
  {
    var front := packs[..|packs| - 1];
    if at < |Flat(front)| {
      k, i := FlatFind(front, at);
    } else {
      k, i := |packs| - 1, at - |Flat(front)|;
    }
  }

  lemma {:induction false} FlatGrows(packs: seq<Bytes>, j: nat, k: nat)
    requires forall j :: 0 <= j < |packs| ==> Contents(packs[j]).Some?
    requires j <= k <= |packs|
    ensures |Flat(packs[..j])| <= |Flat(packs[..k])|
    decreases k
  {
    if j < k {
      FlatGrows(packs, j, k - 1);
      assert packs[..k][..k - 1] == packs[..k - 1];
    }
  }

  /** Packs whose log has no duplicate share no chunk, with each other or within one. */
  lemma NoneShared(packs: seq<Bytes>, j: nat, i: nat, k: nat, l: nat)
    requires forall j :: 0 <= j < |packs| ==> Contents(packs[j]).Some?
    requires Distinct(Flat(packs)) && j < |packs| && k < |packs|
    requires i < |Contents(packs[j]).value| && l < |Contents(packs[k]).value|
    requires Contents(packs[j]).value[i].id == Contents(packs[k]).value[l].id
    ensures j == k && i == l
  {
    FlatAt(packs, j, i);
    FlatAt(packs, k, l);
    if j < k {
      FlatGrows(packs, j + 1, k);
    } else if k < j {
      FlatGrows(packs, k + 1, j);
    }
  }

  /** Exactly one pack answers for a chunk, and it answers the data. */
  ghost predicate ReadsBack(c: Codec, packs: seq<Bytes>, data: Bytes) {
    exists k :: 0 <= k < |packs| && ReadChunk(c, packs[k], c.hash(data)) == Ok(Some(data)) &&
      forall j :: 0 <= j < |packs| && j != k ==> ReadChunk(c, packs[j], c.hash(data)) == Ok(None)
  }

  lemma LoggedReadsBack(c: Codec, packs: seq<Bytes>, cap: nat, at: nat, data: Bytes)
    requires Readable(packs, cap) && Distinct(Flat(packs)) && at < |Flat(packs)|
    requires c.decompress(c.compress(data), |data|) == Some(data)
    requires Flat(packs)[at] == Chunk(c.hash(data), c.compress(data), |data|)
    ensures ReadsBack(c, packs, data)
  {
    hide ReadChunk;
    hide Contents;
    var k, i := FlatFind(packs, at);
    var cs := Contents(packs[k]).value;
    forall x, y | 0 <= x < y < |cs|
      ensures cs[x].id != cs[y].id
    {
      if cs[x].id == cs[y].id {
        NoneShared(packs, k, x, k, y);
      }
    }
    HeldIsRead(c, packs[k], i, data);
    forall j | 0 <= j < |packs| && j != k
      ensures ReadChunk(c, packs[j], c.hash(data)) == Ok(None)
    {
      var others := Contents(packs[j]).value;
      forall l | 0 <= l < |others|
        ensures others[l].id != c.hash(data)
      {
        if others[l].id == c.hash(data) {
          NoneShared(packs, j, l, k, i);
        }
      }
      OtherIsAbsent(c, packs[j], c.hash(data));
    }
  }

  function ChunkOf(c: Codec, data: Bytes): Chunk {
    Chunk(c.hash(data), c.compress(data), |data|)
  }

  ghost predicate Logged(c: Codec, log: seq<Chunk>, data: Bytes) {
    exists at :: 0 <= at < |log| && log[at] == ChunkOf(c, data)
  }

  /** The log holds the first `n` chunks of the stream, all of which fit, and no other. */
  ghost predicate Logs(c: Codec, cap: nat, log: seq<Chunk>, stream: seq<Bytes>, n: nat)
    requires n <= |stream|
  {
    && (forall i :: 0 <= i < n ==> FitsAlone(cap, |c.compress(stream[i])|) && Logged(c, log, stream[i]))
    && (forall id :: id in Ids(log) ==> Streamed(c, stream[..n], id))
  }

  ghost predicate Streamed(c: Codec, stream: seq<Bytes>, id: Bytes) {
    exists i :: 0 <= i < |stream| && c.hash(stream[i]) == id
  }

  /** A chunk already seen is one of the stream's earlier chunks. */
  lemma SeenIsLogged(c: Codec, cap: nat, log: seq<Chunk>, stream: seq<Bytes>, n: nat)
    requires Sound(c) && n < |stream| && Logs(c, cap, log, stream, n) && c.hash(stream[n]) in Ids(log)
    ensures Logs(c, cap, log, stream, n + 1)
  {
  }

  lemma NewIsLogged(c: Codec, cap: nat, log: seq<Chunk>, stream: seq<Bytes>, n: nat)
    requires n < |stream| && Logs(c, cap, log, stream, n) && FitsAlone(cap, |c.compress(stream[n])|)
    ensures Logs(c, cap, log + [ChunkOf(c, stream[n])], stream, n + 1)
  {
    var all := log + [ChunkOf(c, stream[n])];
    assert all[|log|] == ChunkOf(c, stream[n]);
    forall i | 0 <= i < n
      ensures Logged(c, all, stream[i])
    {
      var at :| 0 <= at < |log| && log[at] == ChunkOf(c, stream[i]);
      assert all[at] == ChunkOf(c, stream[i]);
    }
    IdsSnoc(log, ChunkOf(c, stream[n]));
    StreamGrows(c, log, stream, n);
    assert stream[..n + 1][n] == stream[n];
  }

  lemma StreamGrows(c: Codec, log: seq<Chunk>, stream: seq<Bytes>, n: nat)
    requires n < |stream| && forall id :: id in Ids(log) ==> Streamed(c, stream[..n], id)
    ensures forall id :: id in Ids(log) ==> Streamed(c, stream[..n + 1], id)
  {
  }

  /** Packs built from a stream of chunks: every pack is within the cap, and every chunk of the stream
      is read back from exactly one of them. The build fails just when a chunk fits no pack. */
  method PackAll(c: Codec, cap: nat, stream: seq<Bytes>) returns (r: Result<seq<Bytes>>)
    requires Sound(c) && cap <= MAX_PACK_BYTES
    requires forall i :: 0 <= i < |stream| ==> |stream[i]| < U64_LIMIT
    ensures r.Err? <==> exists i :: 0 <= i < |stream| && !FitsAlone(cap, |c.compress(stream[i])|)
    ensures r.Ok? ==> forall k :: 0 <= k < |r.value| ==> |r.value[k]| <= cap
    ensures r.Ok? ==> forall i :: 0 <= i < |stream| ==> ReadsBack(c, r.value, stream[i])
  {
    hide Contents;
    hide Logs;
    hide Sound;
    hide Logged;
    hide Flat;
    hide Distinct;
    hide Ids;
    hide ReadsBack;
    var builder := new PackBuilder(cap);
    assert Logs(c, cap, builder.Log(), stream, 0) by { NothingLogged(c, cap, stream); }
    for n := 0 to |stream|
      invariant builder.Valid() && builder.cap == cap && fresh(builder)
      invariant builder.current != null ==> fresh(builder.current)
      invariant Logs(c, cap, builder.Log(), stream, n)
    {
      ghost var log := builder.Log();
      SoundHash(c, stream[n]);
      var added := builder.Add(c, stream[n]);
      if added.Err? {
        return Err(added.error);
      }
      if c.hash(stream[n]) in Ids(log) {
        SeenIsLogged(c, cap, log, stream, n);
        assert builder.Log() == log;
      } else {
        NewIsLogged(c, cap, log, stream, n);
      }
    }
    ghost var log := builder.Log();
    var packs := builder.Finish();
    forall i | 0 <= i < |stream|
      ensures FitsAlone(cap, |c.compress(stream[i])|) && ReadsBack(c, packs, stream[i])
    {
      var at := LoggedAt(c, cap, log, stream, i);
      SoundHash(c, stream[i]);
      LoggedReadsBack(c, packs, cap, at, stream[i]);
    }
    return Ok(packs);
  }

  lemma NothingLogged(c: Codec, cap: nat, stream: seq<Bytes>)
    ensures Logs(c, cap, [], stream, 0)
  {
  }

  lemma SoundHash(c: Codec, data: Bytes)
    requires Sound(c)
    ensures |c.hash(data)| == 64 && c.decompress(c.compress(data), |data|) == Some(data)
  {
  }

  lemma LoggedAt(c: Codec, cap: nat, log: seq<Chunk>, stream: seq<Bytes>, i: nat) returns (at: nat)
    requires i < |stream| && Logs(c, cap, log, stream, |stream|)
    ensures FitsAlone(cap, |c.compress(stream[i])|) && at < |log| && log[at] == ChunkOf(c, stream[i])
  {
    assert Logged(c, log, stream[i]);
    at :| 0 <= at < |log| && log[at] == ChunkOf(c, stream[i]);
  }
}
