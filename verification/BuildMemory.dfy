/** What a build of a class makes of the disk and of what the engine remembers: the packs of every chunk
    and dir object, the tips already packed. A class remembered as the newest capture names it, on a
    disk that stands still, is built again into the very same section (engine.rs, `build_class`,
    `pack_dirs` and the small snap's git section). */
module BuildMemory {
  import opened Options
  import opened Captures
  import opened Chain
  import opened ClassBuild
  import Git

  /** A class's tree: its root, and every chunk and dir object it names. */
  datatype ClassTree = ClassTree(root: string, chunks: set<string>, dirs: set<string>)

  /** What there is to capture: the repository's tips, those of them a section names, the ones nested
      repositories borrow, and the trees of the two classes. */
  datatype Disk = Disk(tips: set<string>, named: set<string>, borrowed: set<string>, small: ClassTree, bulk: ClassTree)

  datatype Memory = Memory(
    prefix: KeyPrefix,
    format: DirFormat,
    platform: Platform,
    chunks: map<string, Key>,
    smallDirs: map<string, Key>,
    bulkDirs: map<string, Key>,
    lastTips: set<string>,
    repairGit: Option<set<Key>>,
    paused: map<string, Key>)         // what a bulk build that yielded packed

  // ----- Builds --------------------------------------------------------------------------------

  function PreviousTips(mem: Memory, prev: Option<Sections>): set<string> {
    if mem.repairGit.Some? then {} else mem.lastTips + (if prev.Some? then prev.value.git.tips else {})
  }

  function KeptPacks(mem: Memory, prev: Option<Sections>): seq<Key> {
    Git.Kept(if prev.Some? then prev.value.git.packs else [], mem.repairGit)
  }

  /** The packs kept, and new ones unless every tip was one before. */
  predicate GitBuilt(mem: Memory, prev: Option<Sections>, d: Disk, git: GitSection) {
    && git.tips == d.named
    && KeptPacks(mem, prev) <= git.packs
    && (d.tips + d.borrowed <= PreviousTips(mem, prev) ==> git.packs == KeptPacks(mem, prev))
  }

  /** That is what a snap of the repository gives (module Git). */
  lemma GitSnapBuilds(g: Git.Graph, s: Git.GitState, a: Git.GitSnap, mem: Memory, prev: Option<Sections>, d: Disk)
    requires Git.CanSnapGit(g, s, a) && d.tips + d.borrowed <= a.existing
    requires a.tips == d.tips && a.named == d.named && a.borrowed == d.borrowed
    requires s.lastTips == mem.lastTips && s.repairGit == mem.repairGit
    requires s.previous == if prev.Some? then Some(prev.value.git) else None
    ensures GitBuilt(mem, prev, d, Git.SnapGit(s, a).previous.value)
    ensures Git.SnapGit(s, a).lastTips == d.tips + d.borrowed && Git.SnapGit(s, a).repairGit.None?
  {
    if d.tips + d.borrowed <= PreviousTips(mem, prev) {
      Git.CoveredTipsPackNothing(g, s, a);
    }
  }

  /** A build that read the class as it is on the disk (module ClassBuild). */
  predicate BuildsSmall(mem: Memory, prev: Option<Sections>, d: Disk, git: GitSection, w: WorkspaceSection, after: Memory) {
    && GitBuilt(mem, prev, d, git)
    && ChunksBuilt(mem.chunks, map[], d.small.chunks, after.chunks)
    && DirsBuilt(mem.format, mem.smallDirs, d.small.dirs, after.smallDirs, w.dirPacks)
    && w.root == RootKey(mem.format, mem.prefix, d.small.root)
    && w.packs == PacksOf(after.chunks, d.small.chunks)
    && after == mem.(chunks := after.chunks, smallDirs := after.smallDirs, lastTips := d.tips + d.borrowed,
                     repairGit := None)
  }

  predicate BuildsBulk(mem: Memory, d: Disk, b: BulkSection, after: Memory) {
    && ChunksBuilt(mem.chunks, mem.paused, d.bulk.chunks, after.chunks)
    && DirsBuilt(mem.format, mem.bulkDirs, d.bulk.dirs, after.bulkDirs, b.dirPacks)
    && b.root == RootKey(mem.format, mem.prefix, d.bulk.root)
    && b.packs == PacksOf(after.chunks, d.bulk.chunks)
    && b.platform == mem.platform
    && after == mem.(chunks := after.chunks, bulkDirs := after.bulkDirs, paused := map[])
  }

  predicate Builds(mem: Memory, prev: Option<Sections>, d: Disk, built: Built, after: Memory) {
    match built
    case SmallBuilt(git, w) => BuildsSmall(mem, prev, d, git, w, after)
    case BulkBuilt(b) => BuildsBulk(mem, d, b, after)
  }

  /** A bulk build that yields having read the disk as it is: what it packed no one knew. */
  predicate Yields(mem: Memory, d: Disk, after: Memory) {
    && after == mem.(paused := after.paused)
    && mem.paused.Keys <= after.paused.Keys
    && (forall c :: c in mem.paused ==> after.paused[c] == mem.paused[c])
    && (forall c :: c in after.paused && c !in mem.paused ==> c in d.bulk.chunks && c !in mem.chunks)
  }

  /** What a repair taken up leaves: a new key generation, nothing located at a key it forgets, no tips when
      a git pack is to be packed again, and no yielded build of a bulk class to rebuild. */
  function Forgotten(mem: Memory, forget: set<Key>, git: set<Key>, bulk: bool): Memory {
    mem.(prefix := mem.prefix.(generation := Some(if mem.prefix.generation.Some? then mem.prefix.generation.value + 1 else 1)),
         chunks := Without(mem.chunks, forget),
         smallDirs := Without(mem.smallDirs, forget),
         bulkDirs := Without(mem.bulkDirs, forget),
         lastTips := if git == {} then mem.lastTips else {},
         repairGit := if git == {} then mem.repairGit else Some(Git.WithIndexes(git)),
         paused := if bulk then map[] else mem.paused)
  }

  function Without(at: map<string, Key>, forget: set<Key>): map<string, Key> {
    map id | id in at && at[id] !in forget :: at[id]
  }

  // ----- What is remembered --------------------------------------------------------------------

  predicate DirsRemembered(format: DirFormat, at: map<string, Key>, dirs: set<string>, needed: set<Key>) {
    match format
    case Objects => needed == {}
    case Packs => dirs <= at.Keys && needed == PacksOf(at, dirs) && |needed| <= MAX_DIR_PACKS
  }

  predicate GitRemembered(mem: Memory, x: Sections, d: Disk) {
    && x.git.tips == d.named
    && x.git.packs == KeptPacks(mem, Some(x))
    && d.tips + d.borrowed <= PreviousTips(mem, Some(x))
  }

  predicate ChunksRemembered(at: map<string, Key>, chunks: set<string>, packs: set<Key>) {
    chunks <= at.Keys && packs == PacksOf(at, chunks)
  }

  /** Everything the small class of a capture names is what the engine would name of this disk. */
  predicate RemembersSmall(mem: Memory, x: Sections, d: Disk) {
    && GitRemembered(mem, x, d)
    && ChunksRemembered(mem.chunks, d.small.chunks, x.workspace.packs)
    && DirsRemembered(mem.format, mem.smallDirs, d.small.dirs, x.workspace.dirPacks)
    && x.workspace.root == RootKey(mem.format, mem.prefix, d.small.root)
  }

  /** Where a bulk build finds chunks: a yielded one's packs first. */
  function Merged(mem: Memory): map<string, Key> {
    mem.chunks + mem.paused
  }

  predicate RemembersBulk(mem: Memory, x: Sections, d: Disk) {
    && x.bulk.Ready? && x.bulk.section.platform == mem.platform && mem.platform !in x.otherBulk
    && ChunksRemembered(Merged(mem), d.bulk.chunks, x.bulk.section.packs)
    && DirsRemembered(mem.format, mem.bulkDirs, d.bulk.dirs, x.bulk.section.dirPacks)
    && x.bulk.section.root == RootKey(mem.format, mem.prefix, d.bulk.root)
  }

  predicate Remembers(mem: Memory, x: Sections, d: Disk, class_: Class) {
    if class_ == Small then RemembersSmall(mem, x, d) else RemembersBulk(mem, x, d)
  }

  /** Nothing to pack: the chunk map stays, but for what was carried. */
  lemma SameChunks(known: map<string, Key>, carried: map<string, Key>, chunks: set<string>, after: map<string, Key>)
    requires ChunksBuilt(known, carried, chunks, after) && chunks <= (known + carried).Keys
    ensures after == known + carried
  {
  }

  lemma SamePacks(at: map<string, Key>, chunks: set<string>, after: map<string, Key>)
    requires chunks <= at.Keys && forall c :: c in chunks ==> c in after && after[c] == at[c]
    ensures PacksOf(after, chunks) == PacksOf(at, chunks)
  {
  }

  /** A class remembered, built again over a disk that stands still, is the same section, and nothing
      new is packed. */
  lemma RebuiltIsTheSame(mem: Memory, x: Sections, d: Disk, built: Built, after: Memory)
    requires Builds(mem, Some(x), d, built, after) && Remembers(mem, x, d, ClassOf(built))
    ensures Apply(Some(x), built) == x
    ensures after.chunks == if built.SmallBuilt? then mem.chunks else Merged(mem)
    ensures after.smallDirs == mem.smallDirs && after.bulkDirs == mem.bulkDirs
  {
    match built {
      case SmallBuilt(git, w) =>
        assert (mem.chunks + map[]) == mem.chunks;
        SameChunks(mem.chunks, map[], d.small.chunks, after.chunks);
      case BulkBuilt(b) =>
        SameChunks(mem.chunks, mem.paused, d.bulk.chunks, after.chunks);
        assert OtherBulkAfter(x, Ready(b)) == x.otherBulk;
    }
  }

  // ----- Exactly then --------------------------------------------------------------------------

  /** A bound on what the packs of a set hold. */
  ghost function Longest(keys: set<Key>): (n: nat)
    ensures forall k :: k in keys && k.object_.Pack? ==> |k.object_.ids| <= n
  {
    if keys == {} then 0
    else
      var k :| k in keys;
      var rest := Longest(keys - {k});
      if k.object_.Pack? && |k.object_.ids| > rest then |k.object_.ids| else rest
  }

  /** A pack that holds `id` and is none of `keys`. */
  ghost function NewPack(prefix: KeyPrefix, id: string, keys: set<Key>): (k: Key)
    ensures k !in keys && PackHolds(k, id) && k.prefix == prefix
  {
    var ids := seq(Longest(keys) + 1, _ => id);
    assert ids[0] == id;
    Key(prefix, Pack(ids))
  }

  /** One way the chunks may be packed: each new one in a pack the section does not list. */
  ghost function SomeChunks(known: map<string, Key>, carried: map<string, Key>, chunks: set<string>, prefix: KeyPrefix,
                            packs: set<Key>): (after: map<string, Key>)
    ensures ChunksBuilt(known, carried, chunks, after)
    ensures PacksOf(after, chunks) == packs ==> ChunksRemembered(known + carried, chunks, packs)
  {
    var all := known + carried;
    var after := all + map c | c in chunks && c !in all :: NewPack(prefix, c, packs);
    assert PacksOf(after, chunks) == packs ==> ChunksRemembered(all, chunks, packs) by {
      if PacksOf(after, chunks) == packs {
        forall c | c in chunks ensures c in all {
          assert after[c] in PacksOf(after, chunks);
        }
        SamePacks(all, chunks, after);
      }
    }
    after
  }

  lemma SomeDir(at: map<string, Key>, dirs: set<string>)
    requires !(dirs <= at.Keys && |PacksOf(at, dirs)| <= MAX_DIR_PACKS)
    ensures dirs != {}
  {
    assert PacksOf(at, {}) == {};
  }

  /** One way the dir objects may be packed. */
  ghost function SomeDirs(format: DirFormat, at: map<string, Key>, dirs: set<string>, prefix: KeyPrefix, packs: set<Key>)
      : (r: (map<string, Key>, set<Key>))
    ensures DirsBuilt(format, at, dirs, r.0, r.1)
    ensures r.1 == packs ==> DirsRemembered(format, at, dirs, packs)
  {
    if format.Objects? then (at, {})
    else if dirs <= at.Keys && |PacksOf(at, dirs)| <= MAX_DIR_PACKS then (at, PacksOf(at, dirs))
    else
      var after := at + map id | id in dirs :: NewPack(prefix, id, packs);
      assert PacksOf(after, dirs) != packs by {
        SomeDir(at, dirs);
        var id :| id in dirs;
        assert after[id] in PacksOf(after, dirs);
      }
      (after, PacksOf(after, dirs))
  }

  /** One git section a build may give. */
  ghost function SomeGit(mem: Memory, x: Sections, d: Disk): (git: GitSection)
    ensures GitBuilt(mem, Some(x), d, git)
    ensures git == x.git ==> GitRemembered(mem, x, d)
  {
    var kept := KeptPacks(mem, Some(x));
    if d.tips + d.borrowed <= PreviousTips(mem, Some(x)) then GitSection(kept, d.named)
    else
      var a, b := kept + [Key(mem.prefix, GitPack("a"))], kept + [Key(mem.prefix, GitPack("b"))];
      assert a[|kept|] != b[|kept|];
      GitSection(if x.git.packs == a then b else a, d.named)
  }

  /** A build of a class that gives the capture's section only if the class is remembered. */
  lemma SomeBuild(mem: Memory, x: Sections, d: Disk, class_: Class) returns (built: Built, after: Memory)
    ensures ClassOf(built) == class_ && Builds(mem, Some(x), d, built, after)
    ensures Apply(Some(x), built) == x ==> Remembers(mem, x, d, class_)
  {
    if class_ == Small {
      assert mem.chunks + map[] == mem.chunks;
      var chunks := SomeChunks(mem.chunks, map[], d.small.chunks, mem.prefix, x.workspace.packs);
      var dirs := SomeDirs(mem.format, mem.smallDirs, d.small.dirs, mem.prefix, x.workspace.dirPacks);
      built := SmallBuilt(SomeGit(mem, x, d),
                          WorkspaceSection(RootKey(mem.format, mem.prefix, d.small.root),
                                           PacksOf(chunks, d.small.chunks), dirs.1));
      after := mem.(chunks := chunks, smallDirs := dirs.0, lastTips := d.tips + d.borrowed, repairGit := None);
    } else {
      var listed := if x.bulk.Ready? then x.bulk.section.packs else {};
      var listedDirs := if x.bulk.Ready? then x.bulk.section.dirPacks else {};
      var chunks := SomeChunks(mem.chunks, mem.paused, d.bulk.chunks, mem.prefix, listed);
      var dirs := SomeDirs(mem.format, mem.bulkDirs, d.bulk.dirs, mem.prefix, listedDirs);
      var b := BulkSection(RootKey(mem.format, mem.prefix, d.bulk.root), PacksOf(chunks, d.bulk.chunks), mem.platform, dirs.1);
      built := BulkBuilt(b);
      after := mem.(chunks := chunks, bulkDirs := dirs.0, paused := map[]);
      if Apply(Some(x), built) == x {
        assert mem.platform !in OtherBulkAfter(x, Ready(b));
      }
    }
  }

  /** Every build of a class over this disk gives the capture's section again if and only if the class is
      remembered as the capture names it. */
  lemma SameExactlyIfRemembered(mem: Memory, x: Sections, d: Disk, class_: Class)
    ensures (forall built, after :: ClassOf(built) == class_ && Builds(mem, Some(x), d, built, after) ==>
               Apply(Some(x), built) == x)
            <==> Remembers(mem, x, d, class_)
  {
    if Remembers(mem, x, d, class_) {
      forall built, after | ClassOf(built) == class_ && Builds(mem, Some(x), d, built, after)
        ensures Apply(Some(x), built) == x
      {
        RebuiltIsTheSame(mem, x, d, built, after);
      }
    } else {
      var built, after := SomeBuild(mem, x, d, class_);
      assert ClassOf(built) == class_ && Builds(mem, Some(x), d, built, after) && Apply(Some(x), built) != x;
    }
  }

  // ----- What a build leaves remembered --------------------------------------------------------

  /** A build leaves its class remembered, as long as its dir objects fill no more packs than one section
      is meant to list. */
  lemma BuiltIsRemembered(mem: Memory, prev: Option<Sections>, d: Disk, built: Built, after: Memory)
    requires Builds(mem, prev, d, built, after) && (built.BulkBuilt? ==> prev.Some?)
    ensures var x := Apply(prev, built);
            Remembers(after, x, d, ClassOf(built)) <==> |DirPacks(built)| <= MAX_DIR_PACKS
  {
    if mem.format.Objects? {
      assert DirPacks(built) == {};
    }
    if built.SmallBuilt? {
      Git.KeptAll(built.git.packs, None);
    } else {
      assert after.chunks + map[] == after.chunks;
    }
  }

  function DirPacks(built: Built): set<Key> {
    match built
    case SmallBuilt(_, w) => w.dirPacks
    case BulkBuilt(b) => b.dirPacks
  }

  /** A small build leaves the bulk class remembered. */
  lemma SmallKeepsBulk(mem: Memory, x: Sections, d: Disk, built: Built, after: Memory)
    requires built.SmallBuilt? && Builds(mem, Some(x), d, built, after) && RemembersBulk(mem, x, d)
    ensures RemembersBulk(after, Apply(Some(x), built), d)
  {
    SamePacks(Merged(mem), d.bulk.chunks, Merged(after));
  }

  /** A yielded bulk build holds some of these chunks in other packs than the engine knows them in. */
  predicate MovesPacks(mem: Memory, chunks: set<string>) {
    PacksOf(Merged(mem), chunks) != PacksOf(mem.chunks, chunks)
  }

  /** A bulk build leaves the small class remembered if and only if, resumed, it moves no pack that names. */
  lemma BulkKeepsSmall(mem: Memory, x: Sections, d: Disk, built: Built, after: Memory)
    requires built.BulkBuilt? && Builds(mem, Some(x), d, built, after) && RemembersSmall(mem, x, d)
    ensures RemembersSmall(after, Apply(Some(x), built), d) <==> !MovesPacks(mem, d.small.chunks)
  {
    SamePacks(Merged(mem), d.small.chunks, after.chunks);
  }

  /** One that yields leaves both remembered. */
  lemma YieldKeeps(mem: Memory, x: Sections, d: Disk, after: Memory, class_: Class)
    requires Yields(mem, d, after) && Remembers(mem, x, d, class_)
    ensures Remembers(after, x, d, class_)
    ensures class_ == Bulk && mem.paused == map[] ==> after.paused == map[]
  {
    if class_ == Bulk {
      assert after.paused.Keys == mem.paused.Keys;
      assert after.paused == mem.paused;
    }
  }

  /** A class whose root was stored under another generation is not built into the same section again:
      a repair of the other class moved the prefix on. */
  lemma MovedPrefixRebuilds(mem: Memory, x: Sections, d: Disk, built: Built, after: Memory)
    requires Builds(mem, Some(x), d, built, after) && mem.format.Objects?
    requires built.SmallBuilt? ==> x.workspace.root.prefix != mem.prefix
    requires built.BulkBuilt? && x.bulk.Ready? ==> x.bulk.section.root.prefix != mem.prefix
    ensures Apply(Some(x), built) != x
  {
  }

  /** Nor is the small class once a resumed bulk build moved packs its section lists. */
  lemma MovedPacksRebuild(mem: Memory, x: Sections, d: Disk, bulk: Built, between: Memory, built: Built, after: Memory)
    requires bulk.BulkBuilt? && Builds(mem, Some(x), d, bulk, between) && RemembersSmall(mem, x, d)
    requires MovesPacks(mem, d.small.chunks)
    requires built.SmallBuilt? && Builds(between, Some(Apply(Some(x), bulk)), d, built, after)
    ensures Apply(Some(Apply(Some(x), bulk)), built) != Apply(Some(x), bulk)
  {
    SamePacks(Merged(mem), d.small.chunks, between.chunks);
    SamePacks(between.chunks, d.small.chunks, after.chunks);
  }
}
