/** A class built and committed: what a build read goes into packs, the packs into the chunk map, and the
    section lists the packs its tree needs. What the chain is told of a build (module Store) is what
    the build did (engine.rs, `build_class` and `pack_dirs`). */
module ClassBuild {
  import opened Options
  import opened Captures
  import opened Reading
  import Git
  import Store

  /** What packs hold, in order. */
  function Flat(packs: seq<Key>): seq<string> {
    if packs == [] then []
    else
      var last := packs[|packs| - 1].object_;
      Flat(packs[..|packs| - 1]) + if last.Pack? then last.ids else []
  }

  /** What a finished pack is: not empty, under the prefix. */
  predicate Written(packs: seq<Key>, prefix: KeyPrefix) {
    forall k :: k in packs ==> k.prefix == prefix && k.object_.Pack? && k.object_.ids != []
  }

  /** Everything added so far, in packs, cut where the size limit falls. */
  method FinishPacks(added: seq<string>, prefix: KeyPrefix) returns (packs: seq<Key>)
    ensures Flat(packs) == added && Written(packs, prefix)
  {
    packs := [];
    var rest := added;
    while rest != []
      invariant Flat(packs) + rest == added && Written(packs, prefix)
      decreases |rest|
    {
      var size: int := *;
      var cut := if 0 < size <= |rest| then size else 1;
      var pack := Key(prefix, Pack(rest[..cut]));
      assert (packs + [pack])[..|packs|] == packs;
      packs, rest := packs + [pack], rest[cut..];
    }
  }

  /** Everything a map locates is in the pack it names. */
  predicate Holding(at: map<string, Key>) {
    forall id :: id in at ==> PackHolds(at[id], id)
  }

  /** `more` says where everything `added` is, each in one of the packs that holds it, and the rest as
      `at` does. */
  predicate Placed(at: map<string, Key>, added: seq<string>, packs: seq<Key>, more: map<string, Key>) {
    && more.Keys == at.Keys + Set(added)
    && (forall id :: id in added ==> more[id] in packs && PackHolds(more[id], id))
    && (forall id :: id in at && id !in added ==> more[id] == at[id])
  }

  /** Put the packs' contents in a map. */
  method AddPacks(at: map<string, Key>, packs: seq<Key>) returns (more: map<string, Key>)
    requires forall k :: k in packs ==> k.object_.Pack?
    ensures Placed(at, Flat(packs), packs, more)
  {
    more := at;
    SetOfNone<string>();
    for n := 0 to |packs|
      invariant Placed(at, Flat(packs[..n]), packs[..n], more)
    {
      ghost var before := more;
      var pack := packs[n];
      more := AddPack(more, pack);
      assert packs[..n + 1][..n] == packs[..n] && packs[..n + 1] == packs[..n] + [pack];
      PlacedMore(at, Flat(packs[..n]), packs[..n], before, pack, more);
    }
    assert packs[..|packs|] == packs;
  }

  method AddPack(at: map<string, Key>, pack: Key) returns (more: map<string, Key>)
    requires pack.object_.Pack?
    ensures more == at + map id | id in pack.object_.ids :: pack
  {
    more := at;
    var ids := pack.object_.ids;
    for i := 0 to |ids|
      invariant more == at + map id | id in ids[..i] :: pack
    {
      assert ids[..i + 1] == ids[..i] + [ids[i]];
      more := more[ids[i] := pack];
    }
    assert ids[..|ids|] == ids;
  }

  lemma PlacedMore(at: map<string, Key>, added: seq<string>, keys: seq<Key>, before: map<string, Key>, pack: Key,
                   more: map<string, Key>)
    requires Placed(at, added, keys, before) && pack.object_.Pack?
    requires more == before + map id | id in pack.object_.ids :: pack
    ensures Placed(at, added + pack.object_.ids, keys + [pack], more)
  {
    var ids := pack.object_.ids;
    assert Set(added + ids) == Set(added) + Set(ids);
    forall id | id in added + ids ensures more[id] in keys + [pack] && PackHolds(more[id], id) {
      if id !in ids {
        assert more[id] == before[id];
      }
    }
  }

  /** The packs of what has one. */
  function PacksOf(at: map<string, Key>, some: set<string>): set<Key> {
    set id | id in some && id in at :: at[id]
  }

  lemma PacksOfMore(at: map<string, Key>, some: set<string>, id: string)
    ensures PacksOf(at, some + {id}) == PacksOf(at, some) + if id in at then {at[id]} else {}
    ensures PacksOf(at, {}) == {}
  {
    assert id in at ==> at[id] in PacksOf(at, some + {id});
  }

  /** Each of them is in one of the packs. */
  ghost predicate FoundIn(packs: set<Key>, some: set<string>) {
    forall id :: id in some ==> exists k :: k in packs && PackHolds(k, id)
  }

  lemma LookedUpIsFound(at: map<string, Key>, some: set<string>)
    requires Holding(at)
    ensures FoundIn(PacksOf(at, some), some - (some - at.Keys))
  {
    forall id | id in some - (some - at.Keys) ensures exists k :: k in PacksOf(at, some) && PackHolds(k, id) {
      assert at[id] in PacksOf(at, some) && PackHolds(at[id], id);
    }
  }

  /** Look up everything a tree references; what has no pack is reported. */
  method LookUp(at: map<string, Key>, referenced: set<string>) returns (needed: set<Key>, inNoPack: set<string>)
    ensures needed == PacksOf(at, referenced)
    ensures inNoPack == referenced - at.Keys
  {
    hide PacksOf;
    needed, inNoPack := {}, {};
    PacksOfMore(at, {}, "");
    var done, todo: set<string> := {}, referenced;
    while todo != {}
      invariant done + todo == referenced
      invariant needed == PacksOf(at, done) && inNoPack == done - at.Keys
      decreases todo
    {
      var id :| id in todo;
      PacksOfMore(at, done, id);
      done, todo := done + {id}, todo - {id};
      if id in at {
        needed := needed + {at[id]};
      } else {
        inNoPack := inNoPack + {id};
      }
    }
  }

  // ----- Dir objects ---------------------------------------------------------------------------

  const MAX_DIR_PACKS := 16

  /** The packs a tree of `dirs` needs: where each dir object was packed before, the rest in new packs,
      or, when that takes too many, the whole tree in new packs. A section lists more than the limit
      only as one tree's new packs do. */
  method PackDirs(known: map<string, Key>, dirs: set<string>, prefix: KeyPrefix)
      returns (more: map<string, Key>, needed: set<Key>, uploads: seq<Key>, packed: map<string, Key>)
    ensures more == known + packed && dirs <= more.Keys
    ensures needed == PacksOf(more, dirs)
    ensures Holding(known) ==> Holding(more) && FoundIn(needed, dirs)
    ensures InThem(packed, uploads)
    ensures forall k :: k in uploads ==> k.prefix == prefix && k.object_.Pack?
    ensures |needed| <= MAX_DIR_PACKS || |needed| < MAX_DIR_PACKS + |uploads|
    ensures dirs <= known.Keys && |PacksOf(known, dirs)| <= MAX_DIR_PACKS ==> more == known && uploads == []
  {
    hide PacksOf;
    hide Placed;
    hide Holding;
    hide FoundIn;
    hide InThem;
    var toPack, kept := ChooseDirs(known, dirs);
    var packs := FinishPacks(toPack, prefix);
    more := AddPacks(known, packs);
    uploads := packs;
    packed := map id | id in toPack && id in more :: more[id];
    var missing;
    needed, missing := LookUp(more, dirs);
    NothingPacked(toPack, packs);
    DirsPlaced(known, dirs, toPack, kept, packs, more, packed);
    FewPacks(known, dirs, toPack, kept, uploads, more);
  }

  lemma NothingPacked(added: seq<string>, packs: seq<Key>)
    requires Flat(packs) == added && (forall k :: k in packs ==> k.object_.Pack? && k.object_.ids != [])
    ensures added == [] ==> packs == []
  {
  }

  /** Every dir object of the tree has a pack then, that holds it. */
  lemma DirsPlaced(known: map<string, Key>, dirs: set<string>, toPack: seq<string>, kept: set<string>, packs: seq<Key>,
                   more: map<string, Key>, packed: map<string, Key>)
    requires Placed(known, toPack, packs, more) && kept == dirs - Set(toPack) && kept <= known.Keys
    requires packed == map id | id in toPack && id in more :: more[id]
    ensures more == known + packed && dirs <= more.Keys && InThem(packed, packs)
    ensures Holding(known) ==> Holding(more) && FoundIn(PacksOf(more, dirs), dirs)
    ensures toPack == [] ==> more == known
  {
    assert more == known + packed;
    if Holding(known) {
      HoldingMore(known, packed, packs);
      LookedUpIsFound(more, dirs);
      assert dirs - (dirs - more.Keys) == dirs;
    }
  }

  /** What is kept of the known packs, and at most one new one for each uploaded. */
  lemma FewPacks(known: map<string, Key>, dirs: set<string>, toPack: seq<string>, kept: set<string>, uploads: seq<Key>,
                 more: map<string, Key>)
    requires kept == dirs - Set(toPack) && kept <= known.Keys && Placed(known, toPack, uploads, more)
    ensures |PacksOf(more, dirs)| <= |PacksOf(known, kept)| + |uploads|
  {
    forall k | k in PacksOf(more, dirs) ensures k in PacksOf(known, kept) + Set(uploads) {
      var id :| id in dirs && id in more && more[id] == k;
      if id !in toPack {
        assert id in kept && known[id] == k;
      }
    }
    assert PacksOf(more, dirs) <= PacksOf(known, kept) + Set(uploads);
    Smaller(PacksOf(more, dirs), PacksOf(known, kept) + Set(uploads));
    SetIsSmaller(uploads);
  }

  lemma Smaller<T>(a: set<T>, b: set<T>)
    requires a <= b
    ensures |a| <= |b|
  {
    assert b == a + (b - a);
  }

  lemma {:induction false} SetIsSmaller<T>(s: seq<T>)
    ensures |Set(s)| <= |s|
  {
    if s != [] {
      var front := s[..|s| - 1];
      SetIsSmaller(front);
      SetSnoc(front, s[|s| - 1]);
      assert s == front + [s[|s| - 1]];
    }
  }

  /** What to pack: what was never packed, or everything when the packs known are too many. */
  method ChooseDirs(known: map<string, Key>, dirs: set<string>) returns (toPack: seq<string>, kept: set<string>)
    ensures Set(toPack) <= dirs && kept == dirs - Set(toPack) && kept <= known.Keys
    ensures |PacksOf(known, kept)| + (if toPack == [] then 0 else 1) <= MAX_DIR_PACKS
    ensures toPack != [] && kept != {} ==> Set(toPack) == dirs - known.Keys
    ensures dirs <= known.Keys && |PacksOf(known, dirs)| <= MAX_DIR_PACKS ==> toPack == []
  {
    hide PacksOf;
    var needed, unknown := LookUp(known, dirs);
    var whole := |needed| + (if unknown == {} then 0 else 1) > MAX_DIR_PACKS;
    KnownOnly(known, dirs);
    if whole {
      toPack := InSomeOrder(dirs);
      kept := {};
    } else {
      toPack := InSomeOrder(unknown);
      kept := dirs - unknown;
      assert toPack != [] ==> toPack[0] in Set(toPack);
    }
  }

  lemma KnownOnly(known: map<string, Key>, dirs: set<string>)
    ensures PacksOf(known, dirs - (dirs - known.Keys)) == PacksOf(known, dirs)
    ensures PacksOf(known, {}) == {}
  {
  }

  method InSomeOrder(ids: set<string>) returns (order: seq<string>)
    ensures Set(order) == ids
  {
    order := [];
    var todo := ids;
    while todo != {}
      invariant Set(order) + todo == ids
      decreases todo
    {
      var id :| id in todo;
      SetSnoc(order, id);
      order, todo := order + [id], todo - {id};
    }
  }

  // ----- A class build -------------------------------------------------------------------------

  /** Everything the index names. */
  function Referenced(files: map<Path, IndexedFile>): set<Chunk> {
    set p, c | p in files && c in files[p].chunks :: c
  }

  /** What paths that could not be read still name. */
  function Unread(g: Progress): set<Chunk> {
    set p, c | p in g.carried && p in g.files && c in g.files[p].chunks :: c
  }

  predicate AllIn(files: map<Path, IndexedFile>, stored: set<Chunk>) {
    forall p :: p in files ==> Set(files[p].chunks) <= stored
  }

  /** How often a build yielded inside a file. */
  function MidFile(ends: seq<End>): nat {
    if ends == [] then 0
    else MidFile(ends[..|ends| - 1]) + if ends[|ends| - 1] == Preempted(true) then 1 else 0
  }

  /** Everything read, and what was carried only if nothing was, has a place. */
  lemma ReadIsStored(g: Progress, index: map<Path, IndexedFile>, from: Disk, stored: set<Chunk>)
    requires Honest(g, from, stored) && Recorded(g, index)
    ensures Referenced(g.files) - stored == Unread(g) - stored
    ensures AllIn(Contents(g.outcomes), stored)
  {
    forall c | c in Referenced(g.files) && c !in stored ensures c in Unread(g) {
      var p :| p in g.files && c in g.files[p].chunks;
      assert p in g.carried || c in Set(g.outcomes[p].chunks);
    }
  }

  /** Every file of the class is listed. */
  predicate Covers(paths: seq<Path>, disk: Disk) {
    forall p :: p in disk ==> p in paths
  }

  /** A build that read the whole disk names what the disk holds. */
  lemma ReferencesDisk(g: Progress, index: map<Path, IndexedFile>, disk: Disk, paths: seq<Path>)
    requires Recorded(g, index) && g.carried == {} && Contents(g.outcomes) == OnDisk(disk, paths) && Covers(paths, disk)
    ensures Referenced(g.files) == AllChunks(disk)
  {
    forall p ensures (p in g.files <==> p in disk) && (p in disk ==> g.files[p].chunks == disk[p].chunks) {
      assert p in Contents(g.outcomes) <==> p in OnDisk(disk, paths);
      if p in disk {
        assert Contents(g.outcomes)[p] == OnDisk(disk, paths)[p];
      }
    }
  }

  /** Everything a map locates is in one of these packs, which holds it. */
  predicate InThem(at: map<string, Key>, keys: seq<Key>) {
    forall id :: id in at ==> at[id] in keys && PackHolds(at[id], id)
  }

  /** The chunk map after a build of `chunks` that resumed `carried`: what was carried is where it was
      packed, what was known where it was, and the rest of the chunks somewhere. */
  predicate ChunksBuilt(known: map<Chunk, Key>, carried: map<Chunk, Key>, chunks: set<Chunk>, after: map<Chunk, Key>) {
    && after.Keys == known.Keys + carried.Keys + chunks
    && (forall c :: c in carried ==> after[c] == carried[c])
    && (forall c :: c in known && c !in carried ==> after[c] == known[c])
    && (forall c :: c in chunks && c !in known && c !in carried ==> PackHolds(after[c], c))
  }

  /** An attempt's packs, added to what earlier ones carried. */
  lemma CommitIsBuilt(known: map<Chunk, Key>, carried: map<Chunk, Key>, held: seq<Chunk>, packed: map<Chunk, Key>,
                      chunks: set<Chunk>)
    requires Apart(held, carried, known) && packed.Keys == carried.Keys + Set(held) && Holding(packed)
    requires forall c :: c in carried && c !in held ==> packed[c] == carried[c]
    requires chunks <= known.Keys + carried.Keys + Set(held) <= known.Keys + carried.Keys + chunks
    ensures ChunksBuilt(known, carried, chunks, known + packed)
  {
  }

  /** Everything of `at` is where it was. */
  predicate Keeps(at: map<string, Key>, more: map<string, Key>) {
    forall id :: id in at ==> id in more && more[id] == at[id]
  }

  datatype Outcome =
    | Committed(needed: set<Key>, uploads: seq<Key>, inNoPack: set<Chunk>)
    | Yielded
    | NotRead

  class ClassBuilder {
    const reading: TreeBuilder
    var prefix: KeyPrefix

    /** The packs this build's attempts finished so far, to upload. */
    var packs: seq<Key>

    constructor (reading: TreeBuilder, prefix: KeyPrefix)
      requires reading.Valid() && reading.held == [] && reading.carried == map[] && Holding(reading.known)
      ensures this.reading == reading && this.prefix == prefix && packs == [] && Valid()
    {
      this.reading, this.prefix, packs := reading, prefix, [];
    }

    /** Between attempts: what they packed is in the packs to upload. */
    ghost predicate Valid()
      reads this, reading
    {
      reading.Valid() && reading.held == [] && InThem(reading.carried, packs) && Holding(reading.known)
    }

    /** Write the packs of what this attempt held. */
    method Finish()
      requires InThem(reading.carried, packs)
      modifies reading`carried, reading`held, this`packs
      ensures reading.held == [] && InThem(reading.carried, packs)
      ensures reading.carried.Keys == old(reading.carried.Keys) + Set(old(reading.held))
      ensures forall c :: c in old(reading.carried) && c !in old(reading.held) ==>
                c in reading.carried && reading.carried[c] == old(reading.carried[c])
      ensures old(packs) <= packs
      ensures forall k :: k in packs ==> k in old(packs) || (k.prefix == prefix && k.object_.Pack?)
    {
      var finished := FinishPacks(reading.held, prefix);
      reading.carried := AddPacks(reading.carried, finished);
      packs := packs + finished;
      reading.held := [];
    }

    /** One attempt: read, and write the packs of what was read. Everything the tree names has a pack,
        but for what unreadable paths still name. */
    method ReadClass(paths: seq<Path>, extra: seq<Chunk>, strict: bool) returns (end: End, progress: Progress)
      requires Valid()
      modifies this`packs, reading
      ensures reading.known == old(reading.known) && reading.ends == old(reading.ends) + [end]
      ensures progress.carried * old(reading.racy) == {} ==> Valid()
      ensures reading.held == [] && InThem(reading.carried, packs)
      ensures strict || reading.quiet ==> progress.carried == {}
      ensures reading.quiet ==> reading.disk == old(reading.disk) && end != Failed
      ensures reading.quiet && end == Built ==> Contents(progress.outcomes) == OnDisk(reading.disk, paths)
      ensures reading.quiet ==> reading.Stored() <= old(reading.Stored()) + AllChunks(reading.disk) + Set(extra)
      ensures old(reading.Stored()) <= reading.Stored()
      ensures end == Preempted(true) && extra == [] ==> old(reading.Stored()) < reading.Stored()
      ensures Keeps(old(reading.carried), reading.carried)
      ensures old(packs) <= packs && forall k :: k in packs ==> k in old(packs) || k.prefix == prefix
      ensures end == Failed ==> strict
      ensures (Referenced(progress.files) + Set(extra)) - reading.Stored() == Unread(progress) - reading.Stored()
      ensures AllIn(Contents(progress.outcomes), reading.Stored())
      ensures reading.quiet && end == Built && Covers(paths, reading.disk) ==>
                && Referenced(progress.files) == AllChunks(reading.disk)
                && ChunksBuilt(reading.known, old(reading.carried), AllChunks(reading.disk) + Set(extra),
                               reading.known + reading.carried)
    {
      hide Honest;
      hide Recorded;
      hide Trusted;
      hide OnDiskStill;
      hide Referenced;
      hide Unread;
      hide Contents;
      hide OnDisk;
      hide AllChunks;
      hide AllIn;
      hide ChunksBuilt;
      hide Covers;
      SetOfNone<Chunk>();
      ghost var known, carried := reading.known, reading.carried;
      assert reading.Stored() == known.Keys + carried.Keys;
      reading.PutAll(extra);
      ghost var index := reading.files;
      end, progress := reading.Attempt(paths, strict);
      ghost var stored, held := reading.Stored(), reading.held;
      ReadIsStored(progress, index, old(reading.disk), stored);
      ghost var whole := reading.quiet && end == Built && Covers(paths, reading.disk);
      if whole {
        ReferencesDisk(progress, index, reading.disk, paths);
        NoneUnread(progress);
        AllOf(AllChunks(reading.disk), stored);
      }
      Finish();
      assert reading.Stored() == stored && Holding(reading.carried);
      hide InThem;
      hide Holding;
      if whole {
        ghost var chunks := AllChunks(reading.disk) + Set(extra);
        assert stored == known.Keys + carried.Keys + Set(held);
        CommitIsBuilt(known, carried, held, reading.carried, chunks);
      }
    }

    /** Attempts until one completes, over a disk no one writes; `ends` says how each ended. However often
        the build was preempted, what it reads in the end is the disk, every chunk of it in a pack.
        Each preemption inside a file stored a chunk of the disk that was not stored, so there are no
        more of those than such chunks; and it is not done only if every attempt was preempted. */
    method BuildResuming(paths: seq<Path>, attempts: nat)
        returns (done: bool, contents: map<Path, IndexedFile>, ghost ends: seq<End>)
      requires Valid() && reading.quiet
      modifies this`packs, reading
      ensures Valid() && reading.disk == old(reading.disk) && reading.ends == old(reading.ends) + ends
      ensures done ==> contents == OnDisk(reading.disk, paths)
      ensures done ==> AllIn(contents, reading.known.Keys + reading.carried.Keys)
      ensures done ==> 0 < |ends| <= attempts && ends[|ends| - 1] == Built
      ensures !done ==> |ends| == attempts && forall i :: 0 <= i < |ends| ==> ends[i].Preempted?
      ensures MidFile(ends) <= |AllChunks(reading.disk) - old(reading.Stored())|
    {
      hide Referenced;
      hide Unread;
      hide Contents;
      hide OnDisk;
      hide AllChunks;
      hide Trusted;
      hide OnDiskStill;
      hide AllIn;
      hide Set;
      hide InThem;
      hide Apart;
      hide TreeBuilder.Stored;
      done, contents, ends := false, map[], [];
      SetOfNone<Chunk>();
      for n := 0 to attempts
        invariant Valid() && reading.disk == old(reading.disk) && reading.ends == old(reading.ends) + ends
        invariant |ends| == n && forall i :: 0 <= i < |ends| ==> ends[i].Preempted?
        invariant old(reading.Stored()) <= reading.Stored() <= old(reading.Stored()) + AllChunks(reading.disk)
        invariant MidFile(ends) + |AllChunks(reading.disk) - reading.Stored()|
                  <= |AllChunks(reading.disk) - old(reading.Stored())|
      {
        ghost var before := reading.Stored();
        var end, progress := ReadClass(paths, [], false);
        CountEnd(ends, end, AllChunks(reading.disk), before, reading.Stored());
        ends := ends + [end];
        if end == Built {
          AllPacked(reading);
          return true, Contents(progress.outcomes), ends;
        }
      }
    }

    /** Build the class: an attempt, committed to the chunk map and the section; a bulk build that
        yields keeps its packs for the next call. Everything the tree reads is in some pack, so what
        is in none is what unreadable paths still name, and nothing of a strict build. */
    method BuildClass(paths: seq<Path>, extra: seq<Chunk>, strict: bool)
        returns (r: Outcome, progress: Progress, packed: map<Chunk, Key>)
      requires Valid()
      modifies this`packs, reading
      ensures progress.carried * old(reading.racy) == {} ==> Valid()
      ensures r.Yielded? ==>
                && reading.known == old(reading.known)
                && Keeps(old(reading.carried), reading.carried)
                && old(packs) <= packs
                && (forall k :: k in packs ==> k in old(packs) || k.prefix == prefix)
      ensures !r.Yielded? ==> reading.carried == map[] && packs == []
      ensures r.NotRead? ==> strict && reading.known == old(reading.known)
      ensures r.Committed? ==>
                && reading.known == old(reading.known) + packed && InThem(packed, r.uploads) && Holding(reading.known)
                && Keeps(old(reading.carried), packed)
                && old(packs) <= r.uploads
                && (forall k :: k in r.uploads ==> k in old(packs) || k.prefix == prefix)
                && r.needed == PacksOf(reading.known, Referenced(progress.files) + Set(extra))
                && FoundIn(r.needed, Referenced(progress.files) + Set(extra) - r.inNoPack)
                && r.inNoPack == Unread(progress) - reading.known.Keys
                && (strict || reading.quiet ==> r.inNoPack == {})
      ensures r.Committed? && reading.quiet && Covers(paths, reading.disk) ==>
                && reading.disk == old(reading.disk)
                && r.needed == PacksOf(reading.known, AllChunks(reading.disk) + Set(extra))
                && ChunksBuilt(old(reading.known), old(reading.carried), AllChunks(reading.disk) + Set(extra),
                               reading.known)
    {
      hide Referenced;
      hide Unread;
      hide PacksOf;
      hide Contents;
      hide OnDisk;
      hide AllChunks;
      hide Trusted;
      hide OnDiskStill;
      hide Covers;
      hide AllIn;
      hide ChunksBuilt;
      hide InThem;
      hide Holding;
      hide FoundIn;
      hide Apart;
      hide Set;
      hide TreeBuilder.Stored;
      var end;
      end, progress := ReadClass(paths, extra, strict);
      packed := reading.carried;
      AllPacked(reading);
      NothingLeft(reading.known, reading.known + packed);
      HoldingMore(reading.known, packed, packs);
      if end.Preempted? {
        return Yielded, progress, packed;
      }
      reading.carried := map[];
      if end == Failed {
        packs := [];
        return NotRead, progress, packed;
      }
      reading.known := reading.known + packed;
      LookedUpIsFound(reading.known, Referenced(progress.files) + Set(extra));
      var needed, inNoPack := LookUp(reading.known, Referenced(progress.files) + Set(extra));
      NoneUnread(progress);
      r := Committed(needed, packs, inNoPack);
      packs := [];
    }
  }

  lemma HoldingMore(known: map<string, Key>, packed: map<string, Key>, keys: seq<Key>)
    requires Holding(known) && InThem(packed, keys)
    ensures Holding(known + packed)
  {
  }

  lemma NothingLeft(known: map<Chunk, Key>, more: map<Chunk, Key>)
    ensures Apart([], map[], known) && Apart([], map[], more) && InThem(map[], [])
  {
  }

  /** An attempt that yields inside a file leaves fewer chunks to store. */
  lemma CountEnd(ends: seq<End>, end: End, all: set<Chunk>, before: set<Chunk>, after: set<Chunk>)
    requires before <= after <= before + all && (end == Preempted(true) ==> before < after)
    ensures MidFile(ends + [end]) + |all - after| <= MidFile(ends) + |all - before|
  {
    Fewer(all, before, after);
    assert (ends + [end])[..|ends|] == ends;
  }

  /** Between attempts, what the sink has is packed. */
  lemma AllPacked(reading: TreeBuilder)
    requires reading.held == []
    ensures reading.Stored() == reading.known.Keys + reading.carried.Keys
  {
  }

  lemma AllOf(some: set<Chunk>, all: set<Chunk>)
    requires some - all == {}
    ensures some <= all
  {
    forall c | c in some ensures c in all {
      assert c !in some - all;
    }
  }

  lemma NoneUnread(g: Progress)
    ensures g.carried == {} ==> Unread(g) == {}
  {
  }

  // ----- What the chain is told ----------------------------------------------------------------

  /** Chunks and dir objects of a class, as the chain's model lists them. */
  function Items(class_: Class, chunks: map<Chunk, Key>, dirs: map<string, Key>): Store.Locations {
    (map c | c in chunks :: Store.Chunk(c) := chunks[c]) + (map d | d in dirs :: Store.Dir(class_, d) := dirs[d])
  }

  /** The engine's maps are among the locations of the chain's model. */
  ghost predicate Agrees(s: Store.StoreState, class_: Class, chunks: map<Chunk, Key>, dirs: map<string, Key>) {
    forall item :: item in Items(class_, chunks, dirs) ==>
      item in s.locations && s.locations[item] == Items(class_, chunks, dirs)[item]
  }

  lemma ItemsAre(class_: Class, chunks: map<Chunk, Key>, dirs: map<string, Key>)
    ensures var all := Items(class_, chunks, dirs);
            forall c :: c in chunks ==> Store.Chunk(c) in all && all[Store.Chunk(c)] == chunks[c]
    ensures var all := Items(class_, chunks, dirs);
            forall d :: d in dirs ==> Store.Dir(class_, d) in all && all[Store.Dir(class_, d)] == dirs[d]
    ensures var all := Items(class_, chunks, dirs);
            forall item :: item in all ==>
              || (item.Chunk? && item.id in chunks && all[item] == chunks[item.id])
              || (item.Dir? && item.class_ == class_ && item.sha in dirs && all[item] == dirs[item.sha])
  {
  }

  /** A pack needed is one the engine knew or one just packed: a location of the model either way. */
  lemma NeededIsKnown(s: Store.StoreState, class_: Class, known: map<Chunk, Key>, dirs: map<string, Key>,
                      packed: map<Chunk, Key>, packedDirs: map<string, Key>)
    requires Agrees(s, class_, known, dirs)
    ensures (known + packed).Values <= (s.locations + Items(class_, packed, packedDirs)).Values
    ensures (dirs + packedDirs).Values <= (s.locations + Items(class_, packed, packedDirs)).Values
  {
    ChunkIsKnown(s, class_, known, dirs, packed, packedDirs);
    DirIsKnown(s, class_, known, dirs, packed, packedDirs);
  }

  lemma ChunkIsKnown(s: Store.StoreState, class_: Class, known: map<Chunk, Key>, dirs: map<string, Key>,
                     packed: map<Chunk, Key>, packedDirs: map<string, Key>)
    requires Agrees(s, class_, known, dirs)
    ensures (known + packed).Values <= (s.locations + Items(class_, packed, packedDirs)).Values
  {
    hide Items;
    ItemsAre(class_, known, dirs);
    ItemsAre(class_, packed, packedDirs);
    var all := s.locations + Items(class_, packed, packedDirs);
    forall k | k in (known + packed).Values ensures k in all.Values {
      var c :| c in known + packed && (known + packed)[c] == k;
      assert all[Store.Chunk(c)] == k;
    }
  }

  lemma DirIsKnown(s: Store.StoreState, class_: Class, known: map<Chunk, Key>, dirs: map<string, Key>,
                   packed: map<Chunk, Key>, packedDirs: map<string, Key>)
    requires Agrees(s, class_, known, dirs)
    ensures (dirs + packedDirs).Values <= (s.locations + Items(class_, packed, packedDirs)).Values
  {
    hide Items;
    ItemsAre(class_, known, dirs);
    ItemsAre(class_, packed, packedDirs);
    var all := s.locations + Items(class_, packed, packedDirs);
    forall k | k in (dirs + packedDirs).Values ensures k in all.Values {
      var d :| d in dirs + packedDirs && (dirs + packedDirs)[d] == k;
      assert all[Store.Dir(class_, d)] == k;
    }
  }

  /** What an earlier attempt left is as the model has it. */
  ghost predicate ResumedIs(s: Store.StoreState, class_: Class, carried: map<Chunk, Key>, packs: seq<Key>) {
    Store.Resumed(s, class_) == Store.Work(Items(class_, carried, map[]), packs)
  }

  /** A class's section: its root, the packs of its chunks and those of its dir objects. */
  datatype Section = Section(root: Key, packs: set<Key>, dirPacks: set<Key>)

  /** Where a tree's dir objects are: nowhere anew when all are known, in few enough packs. */
  predicate DirsBuilt(format: DirFormat, at: map<string, Key>, dirs: set<string>, after: map<string, Key>,
                      needed: set<Key>)
  {
    match format
    case Objects => after == at && needed == {}
    case Packs =>
      && dirs <= after.Keys && needed == PacksOf(after, dirs)
      && (dirs <= at.Keys && |PacksOf(at, dirs)| <= MAX_DIR_PACKS ==> after == at)
  }

  /** Stage the dir objects of a tree: in packs, or each under its own key when it is not stored yet. */
  method StageDirs(format: DirFormat, prefix: KeyPrefix, dirs: map<string, Key>, tree: set<string>, stored: set<Key>)
      returns (more: map<string, Key>, dirPacks: set<Key>, uploads: seq<Key>, packed: map<string, Key>)
    ensures more == dirs + packed && InThem(packed, uploads)
    ensures forall k :: k in uploads ==> k.prefix == prefix
    ensures DirsBuilt(format, dirs, tree, more, dirPacks)
    ensures Holding(dirs) ==> Holding(more) && (format.Packs? ==> FoundIn(dirPacks, tree))
    ensures format.Objects? ==> forall sha :: sha in tree ==>
              Key(prefix, Tree(sha)) in stored || Key(prefix, Tree(sha)) in uploads
  {
    if format.Packs? {
      more, dirPacks, uploads, packed := PackDirs(dirs, tree, prefix);
      return;
    }
    more, dirPacks, packed, uploads := dirs, {}, map[], [];
    var todo := tree;
    while todo != {}
      invariant forall k :: k in uploads ==> k.prefix == prefix
      invariant forall sha :: sha in tree - todo ==> Key(prefix, Tree(sha)) in stored || Key(prefix, Tree(sha)) in uploads
      decreases todo
    {
      var sha :| sha in todo;
      todo := todo - {sha};
      if Key(prefix, Tree(sha)) !in stored {
        uploads := uploads + [Key(prefix, Tree(sha))];
      }
    }
  }

  /** Build a class's section. What it names and uploads is what the chain's model says of a build, and
      the engine's maps go on agreeing with the model's locations. */
  method BuildSection(b: ClassBuilder, class_: Class, paths: seq<Path>, extra: seq<Chunk>, strict: bool, format: DirFormat,
                      dirs: map<string, Key>, tree: set<string>, root: string, stored: set<Key>, ghost s: Store.StoreState)
      returns (section: Option<Section>, uploads: seq<Key>, more: map<string, Key>, newChunks: map<Chunk, Key>,
               newDirs: map<string, Key>, inNoPack: set<Chunk>)
    requires b.Valid() && Store.Prefix(s) == b.prefix
    requires Agrees(s, class_, b.reading.known, dirs) && ResumedIs(s, class_, b.reading.carried, b.packs)
    modifies b`packs, b.reading
    ensures section.Some? ==>
              Store.SectionNames(s, class_, section.value.root, section.value.packs, section.value.dirPacks,
                                 Items(class_, newChunks, newDirs), uploads)
    ensures section.Some? ==> b.reading.known == old(b.reading.known) + newChunks && more == dirs + newDirs
    ensures section.Some? && strict ==> inNoPack == {}
    ensures section.Some? && Holding(dirs) ==>
              Holding(b.reading.known) && Holding(more) && (format.Packs? ==> FoundIn(section.value.dirPacks, tree))
    ensures section.Some? ==>
              && DirsBuilt(format, dirs, tree, more, section.value.dirPacks)
              && section.value.root == RootKey(format, b.prefix, root)
    ensures section.Some? && b.reading.quiet && Covers(paths, b.reading.disk) ==>
              && section.value.packs == PacksOf(b.reading.known, AllChunks(b.reading.disk) + Set(extra))
              && ChunksBuilt(old(b.reading.known), old(b.reading.carried), AllChunks(b.reading.disk) + Set(extra),
                             b.reading.known)
  {
    hide Referenced;
    hide Unread;
    hide PacksOf;
    hide InThem;
    hide Holding;
    hide FoundIn;
    hide Agrees;
    hide ResumedIs;
    hide Items;
    hide Set;
    hide Store.SectionNames;
    hide Trusted;
    hide OnDiskStill;
    hide DirsBuilt;
    hide ChunksBuilt;
    hide Covers;
    hide AllChunks;
    ghost var carried, packs, known := b.reading.carried, b.packs, b.reading.known;
    var r, progress;
    r, progress, newChunks := b.BuildClass(paths, extra, strict);
    if !r.Committed? {
      return None, [], dirs, newChunks, map[], {};
    }
    var dirPacks, dirUploads;
    more, dirPacks, dirUploads, newDirs := StageDirs(format, b.prefix, dirs, tree, stored);
    uploads, inNoPack := r.uploads + dirUploads, r.inNoPack;
    StillIn(newChunks, newDirs, r.uploads, dirUploads);
    PacksOfKnown(b.reading.known, Referenced(progress.files) + Set(extra));
    DirPacksKnown(format, dirs, tree, more, dirPacks);
    section := Some(Section(RootKey(format, b.prefix, root), r.needed, dirPacks));
    SectionFollows(s, class_, section.value, known, newChunks, dirs, newDirs, carried, packs, uploads);
  }

  lemma StillIn(a: map<string, Key>, b: map<string, Key>, first: seq<Key>, second: seq<Key>)
    requires InThem(a, first) && InThem(b, second)
    ensures InThem(a, first + second) && InThem(b, first + second)
  {
  }

  lemma SectionFollows(s: Store.StoreState, class_: Class, section: Section, known: map<Chunk, Key>,
                       newChunks: map<Chunk, Key>, dirs: map<string, Key>, newDirs: map<string, Key>,
                       carried: map<Chunk, Key>, packs: seq<Key>, uploads: seq<Key>)
    requires Agrees(s, class_, known, dirs) && ResumedIs(s, class_, carried, packs)
    requires InThem(newChunks, uploads) && InThem(newDirs, uploads)
    requires Keeps(carried, newChunks)
    requires forall k :: k in packs ==> k in uploads
    requires forall k :: k in uploads ==> k in packs || k.prefix == Store.Prefix(s)
    requires section.packs <= (known + newChunks).Values && section.dirPacks <= (dirs + newDirs).Values
    requires Store.IsRoot(s, section.root)
    ensures Store.SectionNames(s, class_, section.root, section.packs, section.dirPacks,
                               Items(class_, newChunks, newDirs), uploads)
  {
    hide Items;
    hide Agrees;
    hide InThem;
    NeededIsKnown(s, class_, known, dirs, newChunks, newDirs);
    ItemsInThem(class_, newChunks, newDirs, uploads);
    CarriedStay(class_, carried, newChunks, newDirs);
    var all := (s.locations + Items(class_, newChunks, newDirs)).Values;
    assert section.packs <= all && section.dirPacks <= all;
  }

  lemma ItemsInThem(class_: Class, chunks: map<Chunk, Key>, dirs: map<string, Key>, uploads: seq<Key>)
    requires InThem(chunks, uploads) && InThem(dirs, uploads)
    ensures forall item :: item in Items(class_, chunks, dirs) ==>
              Items(class_, chunks, dirs)[item] in uploads && Store.Holds(item, Items(class_, chunks, dirs)[item])
  {
    ItemsAre(class_, chunks, dirs);
    hide Items;
  }

  lemma CarriedStay(class_: Class, carried: map<Chunk, Key>, chunks: map<Chunk, Key>, dirs: map<string, Key>)
    requires Keeps(carried, chunks)
    ensures var some, all := Items(class_, carried, map[]), Items(class_, chunks, dirs);
            forall item :: item in some ==> item in all && all[item] == some[item]
  {
    ItemsAre(class_, carried, map[]);
    ItemsAre(class_, chunks, dirs);
    hide Items;
  }

  lemma DirPacksKnown(format: DirFormat, at: map<string, Key>, dirs: set<string>, after: map<string, Key>, needed: set<Key>)
    requires DirsBuilt(format, at, dirs, after, needed)
    ensures needed <= after.Values
  {
  }

  lemma PacksOfKnown(at: map<string, Key>, some: set<string>)
    ensures PacksOf(at, some) <= at.Values
  {
  }

  /** The git section a snap lists is what the chain's model says of it. */
  lemma GitSectionFollows(s: Store.StoreState, g: Git.GitState, a: Git.GitSnap, uploads: seq<Key>)
    requires g.repairGit == s.repairGit
    requires Store.PreviousPacks(s.chain) == (if g.previous.Some? then g.previous.value.packs else [])
    requires a.packed != {} ==> StagedGit(s, a.packedKey, uploads)
    requires a.borrowed != {} && a.joined != {} ==> StagedGit(s, a.joinedKey, uploads)
    ensures Store.GitNames(s, GitSection(Git.ListedPacks(g, a), a.named), uploads)
  {
  }

  predicate StagedGit(s: Store.StoreState, k: Key, uploads: seq<Key>) {
    k.prefix == Store.Prefix(s) && k.object_.GitPack? && k in uploads
  }
}
