/** What a final flush shares with the engine, the shipper, the watcher and the disk's writers, as a value:
    how far it may move between two moments, and what of it a flush asked again finds as it left it
    (cadence.rs, engine.rs). */
module FlushWorld {
  import opened Options
  import opened Captures
  import opened Chain
  import opened ClassBuild
  import opened BuildMemory
  import opened Coherence

  /** `bulk`: the bulk class is captured at all. `watching`: the classes the watcher sees; a write of
      another is not signalled. The last six count what happened so far, and no code reads them: writes
      of captured classes, those not signalled, changes of what is watched, captures other threads
      staged, moves of what the engine remembers (a repair taken up, a yielded build resumed over
      packs known meanwhile), and captures the shipper took off the queue that were not the ones it
      registered. */
  datatype World = World(
    bulk: bool,
    watcher: bool,                      // there is a watcher
    chain: State,                       // the engine's captures, the queue, the shipper, the registrar
    mem: Memory,                        // what the engine remembers of its builds
    bulkPaused: bool,
    disk: Disk,
    watching: set<Class>,
    changes: nat,                       // change signals delivered
    undelivered: nat,                   // change signals on their way
    staged: nat,                        // captures counted as staged
    uncounted: nat,                     // captures other threads staged and have still to count
    writes: nat,
    unseen: nat,
    modes: nat,
    others: nat,
    spoils: nat,
    strays: nat)

  function Total(w: World): nat {
    w.changes + w.undelivered
  }

  /** The captures counted, or staged by another thread and still to count, that no other thread staged. */
  function Own(w: World): int {
    w.staged + w.uncounted - w.others
  }

  predicate HoldsSmall(x: Sections, d: Disk) {
    x.git.tips == d.named && x.workspace.root.object_ == Tree(d.small.root)
  }

  predicate HoldsBulk(x: Sections, d: Disk) {
    x.bulk.Ready? && x.bulk.section.root.object_ == Tree(d.bulk.root)
  }

  /** The newest capture holds a class as it is on the disk. */
  predicate CurrentIn(w: World, class_: Class) {
    && w.chain.previous.Some?
    && var x := w.chain.previous.value.manifest.sections;
       if class_ == Small then HoldsSmall(x, w.disk) else HoldsBulk(x, w.disk)
  }

  predicate RemembersIn(w: World, class_: Class) {
    && w.chain.previous.Some?
    && Remembers(w.mem, w.chain.previous.value.manifest.sections, w.disk, class_)
    && (class_ == Bulk ==> w.mem.paused == map[])
  }

  /** The newest capture holds the disk. */
  predicate Current(w: World) {
    CurrentIn(w, Small) && (w.bulk ==> CurrentIn(w, Bulk))
  }

  predicate Remembered(w: World) {
    RemembersIn(w, Small) && (w.bulk ==> RemembersIn(w, Bulk))
  }

  predicate EveryWatched(w: World) {
    Small in w.watching && (w.bulk ==> Bulk in w.watching)
  }

  predicate EndsFinal(w: World) {
    w.chain.previous.Some? && w.chain.previous.value.manifest.kind == Final
  }

  predicate Unsealed(w: World) {
    w.chain.previous.Some? && w.chain.previous.value.manifest.finalSeal.None?
  }

  /** Everything shipped, the chain ends in a final capture, and a build of this disk would name what
      that capture names. */
  predicate AtRest(w: World) {
    w.chain.queue == [] && EndsFinal(w) && Remembered(w)
  }

  /** What every thread keeps, a repair in progress aside. */
  predicate Steady(w: World) {
    Coherent(w.chain) && w.chain.repairing.None? && Wired(w)
  }

  predicate Wired(w: World) {
    !w.watcher ==> w.watching == {} && w.undelivered == 0
  }

  // ----- How far the world may move ------------------------------------------------------------

  predicate Later(v: World, w: World) {
    && w.bulk == v.bulk && w.watcher == v.watcher
    && v.writes <= w.writes && v.unseen <= w.unseen && v.modes <= w.modes
    && v.others <= w.others && v.spoils <= w.spoils && v.strays <= w.strays
    && v.staged <= w.staged && w.uncounted - v.uncounted <= w.others - v.others
    && Total(v) <= Total(w)
    && (v.chain.previous.Some? ==> w.chain.previous.Some?)
    && (Grounded(v.chain) && w.strays == v.strays ==> Grounded(w.chain))
  }

  /** Every write is signalled but those counted as unseen, and what is watched changes with a signal
      only; while every class is watched, nothing goes unseen. */
  predicate Signalled(v: World, w: World) {
    && w.unseen - v.unseen <= w.writes - v.writes
    && Total(v) + (w.writes - v.writes) - (w.unseen - v.unseen) <= Total(w)
    && (Total(w) == Total(v) ==> w.modes == v.modes)
    && (w.modes == v.modes ==> w.watching == v.watching && (EveryWatched(v) ==> w.unseen == v.unseen))
  }

  /** With no write since, the disk stands, what was current is, and what was remembered is too unless that
      was spoilt. */
  predicate Stands(v: World, w: World) {
    w.writes == v.writes ==>
      && w.disk == v.disk
      && (forall class_ :: CurrentIn(v, class_) ==> CurrentIn(w, class_))
      && (w.spoils == v.spoils ==> forall class_ :: RemembersIn(v, class_) ==> RemembersIn(w, class_))
  }

  predicate Moved(v: World, w: World) {
    Later(v, w) && Signalled(v, w) && Stands(v, w)
  }

  /** The chain under an empty queue is as it was. */
  predicate SameChain(v: World, w: World) {
    w.chain.queue == [] && w.chain.previous == v.chain.previous && w.chain.head == v.chain.head
  }

  /** What was at rest is at rest as it was, if no one wrote and no other thread staged. */
  predicate RestKept(v: World, w: World) {
    AtRest(v) && w.writes == v.writes && w.others == v.others ==> AtRest(w) && SameChain(v, w)
  }

  /** A chain all shipped that ends in a final capture is left as it was, if no other thread staged. */
  predicate LeftAlone(v: World, w: World) {
    v.chain.queue == [] && EndsFinal(v) && w.others == v.others ==> SameChain(v, w)
  }

  /** Only other threads acted: no seal was put on; if none staged, a final capture stays the newest; if
      one did, the newest capture carries no seal. */
  predicate Busy(v: World, w: World) {
    && (Unsealed(v) ==> Unsealed(w))
    && (w.others != v.others ==> Unsealed(w))
    && (w.others == v.others && EndsFinal(v) ==> EndsFinal(w))
  }

  /** And, from a moment the engine was free: if none staged, an empty queue and what is under it stand. */
  predicate Aside(v: World, w: World) {
    Busy(v, w) && (w.others == v.others && v.chain.queue == [] ==> SameChain(v, w)) && RestKept(v, w)
  }

  lemma SignalledOn(u: World, v: World, w: World)
    requires Later(u, v) && Later(v, w) && Signalled(u, v) && Signalled(v, w)
    ensures Signalled(u, w)
  {
  }

  lemma StandsOn(u: World, v: World, w: World)
    requires Later(u, v) && Later(v, w) && Stands(u, v) && Stands(v, w)
    ensures Stands(u, w)
  {
    hide CurrentIn;
    hide RemembersIn;
  }

  lemma MovedOn(u: World, v: World, w: World)
    requires Moved(u, v) && Moved(v, w)
    ensures Moved(u, w) && Later(u, v) && Later(v, w)
  {
    hide Signalled;
    hide Stands;
    SignalledOn(u, v, w);
    StandsOn(u, v, w);
  }

  lemma BusyOn(u: World, v: World, w: World)
    requires Later(u, v) && Later(v, w) && Busy(u, v) && Busy(v, w)
    ensures Busy(u, w)
  {
  }

  lemma RestStill(u: World, v: World, w: World)
    requires Later(u, v) && Later(v, w) && RestKept(u, v) && RestKept(v, w)
    ensures RestKept(u, w)
  {
    hide AtRest;
  }

  lemma AloneStill(u: World, v: World, w: World)
    requires Later(u, v) && Later(v, w) && LeftAlone(u, v) && LeftAlone(v, w)
    ensures LeftAlone(u, w)
  {
  }

  lemma AsideOn(u: World, v: World, w: World)
    requires Later(u, v) && Later(v, w) && Aside(u, v) && Aside(v, w)
    ensures Aside(u, w)
  {
    RestStill(u, v, w);
    BusyOn(u, v, w);
    hide RestKept;
    hide Busy;
  }

  /** Time passes twice, with only other threads acting. */
  lemma Onward(u: World, v: World, w: World)
    requires Moved(u, v) && Moved(v, w) && Aside(u, v) && Aside(v, w)
    ensures Moved(u, w) && Aside(u, w) && Later(u, v) && Later(v, w)
  {
    hide Signalled;
    hide Stands;
    hide Aside;
    MovedOn(u, v, w);
    AsideOn(u, v, w);
  }

  /** Time passes twice; whoever acts, rest is kept. */
  lemma Along(u: World, v: World, w: World)
    requires Moved(u, v) && Moved(v, w) && RestKept(u, v) && RestKept(v, w)
    ensures Moved(u, w) && RestKept(u, w) && Later(u, v) && Later(v, w)
  {
    hide Signalled;
    hide Stands;
    hide RestKept;
    MovedOn(u, v, w);
    RestStill(u, v, w);
  }

  /** What other threads leave, as the flush reads it. */
  lemma AsideRests(v: World, w: World)
    requires Aside(v, w)
    ensures RestKept(v, w) && LeftAlone(v, w) && Busy(v, w)
  {
    hide RestKept;
    hide Busy;
  }

  /** While something is queued, nothing is at rest to be kept. */
  lemma BusyIsAside(v: World, w: World)
    requires v.chain.queue != [] && Busy(v, w)
    ensures Aside(v, w)
  {
    hide Busy;
  }

  lemma Still(w: World)
    ensures Moved(w, w) && Aside(w, w) && RestKept(w, w) && LeftAlone(w, w) && Busy(w, w) && Later(w, w)
  {
  }

  /** Nothing staged, and what else changed is no matter to what is captured. */
  lemma SameEngine(v: World, w: World)
    requires Later(v, w) && Signalled(v, w) && w.chain == v.chain && w.mem == v.mem && w.others == v.others
    requires w.writes == v.writes ==> w.disk == v.disk
    ensures Moved(v, w) && Aside(v, w)
  {
    hide Signalled;
    hide Remembers;
  }

  // ----- Writers and the watcher ---------------------------------------------------------------

  /** A write of one class leaves the other as it is; the repository is the small class's. */
  predicate Touches(d: Disk, e: Disk, class_: Class) {
    if class_ == Small then e.bulk == d.bulk else e == d.(bulk := e.bulk)
  }

  function Written(w: World, class_: Class, d: Disk): World {
    if class_ in w.watching then w.(disk := d, writes := w.writes + 1, undelivered := w.undelivered + 1)
    else w.(disk := d, writes := w.writes + 1, unseen := w.unseen + 1)
  }

  lemma WrittenMoves(w: World, class_: Class, d: Disk)
    requires Wired(w) && (class_ == Bulk ==> w.bulk)
    ensures Wired(Written(w, class_, d)) && Moved(w, Written(w, class_, d)) && Aside(w, Written(w, class_, d))
  {
    hide CurrentIn;
    hide RemembersIn;
    var t := Written(w, class_, d);
    assert Signalled(w, t);
    SameEngine(w, t);
  }

  /** Exactly when a write leaves the newest capture current in a class it was current in. */
  lemma WriteLeavesCurrent(w: World, class_: Class, d: Disk, of: Class)
    requires Touches(w.disk, d, class_) && CurrentIn(w, of)
    ensures CurrentIn(Written(w, class_, d), of) <==>
              if of == Small then d.named == w.disk.named && d.small.root == w.disk.small.root
              else d.bulk.root == w.disk.bulk.root
  {
  }

  /** A signal, which may say that the watcher sees other classes from now on (a lost event, a directory it
      cannot watch, one it watches again). */
  function Signal(w: World, watching: set<Class>): World {
    w.(changes := w.changes + 1, watching := watching, modes := if watching == w.watching then w.modes else w.modes + 1)
  }

  lemma SignalMoves(w: World, watching: set<Class>)
    requires Wired(w) && w.watcher
    ensures Wired(Signal(w, watching)) && Moved(w, Signal(w, watching)) && Aside(w, Signal(w, watching))
  {
    SameEngine(w, Signal(w, watching));
  }

  /** Signals delivered. */
  function Delivered(w: World, n: nat): World
    requires n <= w.undelivered
  {
    w.(changes := w.changes + n, undelivered := w.undelivered - n)
  }

  lemma DeliveredMoves(w: World, n: nat)
    requires Wired(w) && n <= w.undelivered
    ensures Wired(Delivered(w, n)) && Moved(w, Delivered(w, n)) && Aside(w, Delivered(w, n))
  {
    SameEngine(w, Delivered(w, n));
  }

  /** A capture counted, another thread's or the flush's own. */
  function Counted(w: World, other: bool): World
    requires other ==> w.uncounted > 0
  {
    w.(staged := w.staged + 1, uncounted := if other then w.uncounted - 1 else w.uncounted)
  }

  lemma CountedMoves(w: World, other: bool)
    requires other ==> w.uncounted > 0
    ensures var t := Counted(w, other);
            Moved(w, t) && Aside(w, t) && (Steady(w) ==> Steady(t)) && Own(t) == if other then Own(w) else Own(w) + 1
  {
    SameEngine(w, Counted(w, other));
  }

  // ----- Staging a build -----------------------------------------------------------------------

  /** A build that leaves less remembered than it found: it moved packs the small class names, its dir
      objects fill too many packs, or it packed something and found nothing new. */
  predicate Spoils(w: World, a: SnapArgs, after: Memory)
    requires CanSnap(w.chain, a)
  {
    || (a.built.BulkBuilt? && MovesPacks(w.mem, w.disk.small.chunks))
    || |DirPacks(a.built)| > MAX_DIR_PACKS
    || (Unchanged(w.chain, a) && !SamePlaces(w.mem, after))
  }

  predicate SamePlaces(mem: Memory, after: Memory) {
    after.chunks == mem.chunks && after.smallDirs == mem.smallDirs && after.bulkDirs == mem.bulkDirs
  }

  /** What a build holds of the disk, the section it goes into holds; the other class's half stays. */
  lemma BuildHolds(mem: Memory, p: Option<Sections>, d: Disk, b: Built, after: Memory)
    requires Builds(mem, p, d, b, after) && (b.BulkBuilt? ==> p.Some?)
    ensures b.SmallBuilt? ==> HoldsSmall(Apply(p, b), d)
    ensures b.BulkBuilt? ==> HoldsBulk(Apply(p, b), d)
    ensures b.BulkBuilt? && HoldsSmall(p.value, d) ==> HoldsSmall(Apply(p, b), d)
    ensures b.SmallBuilt? && p.Some? && HoldsBulk(p.value, d) ==> HoldsBulk(Apply(p, b), d)
  {
  }

  lemma BuildRemembers(mem: Memory, p: Option<Sections>, d: Disk, b: Built, after: Memory)
    requires Builds(mem, p, d, b, after) && (b.BulkBuilt? ==> p.Some?)
    requires |DirPacks(b)| <= MAX_DIR_PACKS && (b.BulkBuilt? ==> !MovesPacks(mem, d.small.chunks))
    ensures Remembers(after, Apply(p, b), d, ClassOf(b))
    ensures p.Some? && Remembers(mem, p.value, d, Small) ==> Remembers(after, Apply(p, b), d, Small)
    ensures p.Some? && Remembers(mem, p.value, d, Bulk) ==> Remembers(after, Apply(p, b), d, Bulk)
    ensures after.paused == if b.BulkBuilt? then map[] else mem.paused
  {
    BuiltIsRemembered(mem, p, d, b, after);
    PausedAfter(mem, p, d, b, after);
    hide Builds;
    hide Remembers;
    hide Apply;
    if b.SmallBuilt? && p.Some? && Remembers(mem, p.value, d, Bulk) {
      SmallLeaves(mem, p.value, d, b, after);
    }
    if b.BulkBuilt? && Remembers(mem, p.value, d, Small) {
      BulkLeaves(mem, p.value, d, b, after);
    }
  }

  lemma PausedAfter(mem: Memory, p: Option<Sections>, d: Disk, b: Built, after: Memory)
    requires Builds(mem, p, d, b, after)
    ensures after.paused == if b.BulkBuilt? then map[] else mem.paused
  {
  }

  lemma SmallLeaves(mem: Memory, x: Sections, d: Disk, b: Built, after: Memory)
    requires Builds(mem, Some(x), d, b, after) && b.SmallBuilt? && Remembers(mem, x, d, Bulk)
    ensures Remembers(after, Apply(Some(x), b), d, Bulk)
  {
    SmallKeepsBulk(mem, x, d, b, after);
  }

  lemma BulkLeaves(mem: Memory, x: Sections, d: Disk, b: Built, after: Memory)
    requires Builds(mem, Some(x), d, b, after) && b.BulkBuilt? && Remembers(mem, x, d, Small)
    requires !MovesPacks(mem, d.small.chunks)
    ensures Remembers(after, Apply(Some(x), b), d, Small)
  {
    BulkKeepsSmall(mem, x, d, b, after);
  }

  predicate Stageable(w: World, a: SnapArgs) {
    && Steady(w) && CanSnap(w.chain, a) && (a.built.BulkBuilt? ==> w.bulk)
    && (Unchanged(w.chain, a) || Renews(w.chain, SnapManifest(w.chain, a)))
  }

  /** The world after a build was staged; one that finds nothing new drops what it packed. Another thread
      has still to count what it staged. */
  function Staged(w: World, a: SnapArgs, after: Memory, left: Memory, other: bool): World
    requires CanSnap(w.chain, a)
  {
    var same := Unchanged(w.chain, a);
    w.(chain := Snap(w.chain, a),
       mem := if same && !SamePlaces(w.mem, after) then left else after,
       bulkPaused := w.bulkPaused && a.built.SmallBuilt?,
       uncounted := if other && !same then w.uncounted + 1 else w.uncounted,
       others := if other && !same then w.others + 1 else w.others,
       spoils := if Spoils(w, a, after) then w.spoils + 1 else w.spoils)
  }

  lemma StagedHolds(w: World, a: SnapArgs, after: Memory, left: Memory, other: bool)
    requires Stageable(w, a) && Builds(w.mem, SectionsOf(w.chain.previous), w.disk, a.built, after)
    ensures var t := Staged(w, a, after, left, other);
            CurrentIn(t, ClassOf(a.built)) && forall class_ :: CurrentIn(w, class_) ==> CurrentIn(t, class_)
  {
    hide Coherent;
    hide Snap;
    hide Unchanged;
    hide SnapManifest;
    hide Apply;
    hide Builds;
    hide Spoils;
    hide HoldsSmall;
    hide HoldsBulk;
    SnapCoheres(w.chain, a);
    BuildHolds(w.mem, SectionsOf(w.chain.previous), w.disk, a.built, after);
  }

  lemma StagedRemembers(w: World, a: SnapArgs, after: Memory, left: Memory, other: bool)
    requires Stageable(w, a) && !Spoils(w, a, after)
    requires Builds(w.mem, SectionsOf(w.chain.previous), w.disk, a.built, after)
    ensures var t := Staged(w, a, after, left, other);
            RemembersIn(t, ClassOf(a.built)) && forall class_ :: RemembersIn(w, class_) ==> RemembersIn(t, class_)
  {
    hide Coherent;
    hide Snap;
    hide Unchanged;
    hide SnapManifest;
    hide Apply;
    hide Builds;
    hide Remembers;
    SnapCoheres(w.chain, a);
    BuildRemembers(w.mem, SectionsOf(w.chain.previous), w.disk, a.built, after);
    var t := Staged(w, a, after, left, other);
    forall class_ | RemembersIn(w, class_) ensures RemembersIn(t, class_) {
      if class_ == Small {
      } else {
      }
    }
  }

  lemma StagedMoves(w: World, a: SnapArgs, after: Memory, left: Memory, other: bool)
    requires Stageable(w, a) && Builds(w.mem, SectionsOf(w.chain.previous), w.disk, a.built, after)
    ensures var t := Staged(w, a, after, left, other);
            && Steady(t) && t.chain.previous.Some? && Moved(w, t) && CurrentIn(t, ClassOf(a.built))
            && (t.spoils == w.spoils ==> RemembersIn(t, ClassOf(a.built)))
  {
    hide Coherent;
    hide Snap;
    hide Unchanged;
    hide SnapManifest;
    hide Apply;
    hide Builds;
    hide Spoils;
    hide CurrentIn;
    hide RemembersIn;
    SnapCoheres(w.chain, a);
    StagedHolds(w, a, after, left, other);
    if !Spoils(w, a, after) {
      StagedRemembers(w, a, after, left, other);
    }
  }

  /** Which capture a snap makes the newest, and what kind it is of: a small snap staged under a queued bulk
      capture leaves that one the newest, as it was. */
  lemma SnapKind(c: State, a: SnapArgs)
    requires Coherent(c) && CanSnap(c, a)
    ensures var t := Snap(c, a);
            t.previous.Some? && (Unchanged(c, a) || Hoists(c, ClassOf(a.built)) ==>
                                   c.previous.Some? && t.previous.value.manifest.kind == c.previous.value.manifest.kind)
            && (!Unchanged(c, a) && !Hoists(c, ClassOf(a.built)) ==> t.previous.value.manifest.kind == a.kind)
  {
  }

  /** Over a final capture, a capture of another kind leaves the chain ending in a final one exactly when it
      finds nothing new or is staged under the queued bulk capture. */
  lemma IntruderEndsFinal(w: World, a: SnapArgs, after: Memory, left: Memory)
    requires Coherent(w.chain) && CanSnap(w.chain, a) && EndsFinal(w) && a.kind != Final
    ensures EndsFinal(Staged(w, a, after, left, true)) <==>
              Unchanged(w.chain, a) || Hoists(w.chain, ClassOf(a.built))
  {
    SnapKind(w.chain, a);
    hide Coherent;
    hide Snap;
    hide Unchanged;
    hide Hoists;
    hide Spoils;
  }

  /** A final snap, the flush's own, never ends a final chain otherwise. */
  lemma OwnEndsFinal(w: World, a: SnapArgs, after: Memory, left: Memory)
    requires Coherent(w.chain) && CanSnap(w.chain, a) && a.kind == Final
    ensures var t := Staged(w, a, after, left, false);
            (EndsFinal(w) ==> EndsFinal(t)) && t.others == w.others
  {
    SnapKind(w.chain, a);
    hide Coherent;
    hide Snap;
    hide Unchanged;
    hide Hoists;
    hide Spoils;
  }

  // ----- Staging at rest -----------------------------------------------------------------------

  /** A final snap of a class that read the disk as it is. */
  predicate FinalBuild(w: World, class_: Class, a: SnapArgs, after: Memory) {
    && a.kind == Final && ClassOf(a.built) == class_
    && Builds(w.mem, SectionsOf(w.chain.previous), w.disk, a.built, after)
  }

  /** Over a chain all shipped that ends in a final capture, every final snap of a class finds nothing to
      stage exactly when that class is remembered as the capture names it. */
  lemma ResnapStagesNothing(w: World, class_: Class)
    requires w.chain.queue == [] && EndsFinal(w) && w.chain.repairing.None?
    ensures (forall a, after :: FinalBuild(w, class_, a, after) ==> Snap(w.chain, a) == w.chain)
            <==> Remembers(w.mem, w.chain.previous.value.manifest.sections, w.disk, class_)
  {
    var x := w.chain.previous.value.manifest.sections;
    if Remembers(w.mem, x, w.disk, class_) {
      forall a, after | FinalBuild(w, class_, a, after)
        ensures Snap(w.chain, a) == w.chain
      {
        RebuiltIsTheSame(w.mem, x, w.disk, a.built, after);
        SnapIsSame(w.chain, a);
      }
    } else {
      var built, after := SomeBuild(w.mem, x, w.disk, class_);
      var a := SnapArgs(Final, 0, "", built, [], w.mem.prefix);
      SnapIsSame(w.chain, a);
      assert FinalBuild(w, class_, a, after) && Snap(w.chain, a) != w.chain;
    }
  }

  lemma SnapIsSame(c: State, a: SnapArgs)
    requires CanSnap(c, a) && c.queue == [] && c.previous.Some? && a.kind == Final
    requires c.previous.value.manifest.kind == Final
    ensures Snap(c, a) == c <==> Apply(SectionsOf(c.previous), a.built) == c.previous.value.manifest.sections
    ensures Snap(c, a) == c <==> Unchanged(c, a)
  {
    if !Unchanged(c, a) {
      assert |Snap(c, a).queue| == 1;
    }
  }

  /** Another thread's snap. */
  lemma OtherStagedAside(w: World, a: SnapArgs, after: Memory, left: Memory)
    requires Stageable(w, a) && Builds(w.mem, SectionsOf(w.chain.previous), w.disk, a.built, after)
    ensures Aside(w, Staged(w, a, after, left, true))
  {
    hide Coherent;
    hide Snap;
    hide Unchanged;
    hide SnapManifest;
    hide Apply;
    hide Builds;
    hide Spoils;
    hide RemembersIn;
    SnapCoheres(w.chain, a);
    if AtRest(w) {
      RestSpoilsNothing(w, a, after);
      StagedRemembers(w, a, after, left, true);
    }
  }

  /** A final snap of a class at rest finds nothing new, and leaves it at rest. */
  lemma FinalSnapRests(w: World, a: SnapArgs, after: Memory, left: Memory)
    requires Stageable(w, a) && AtRest(w) && a.kind == Final
    requires Builds(w.mem, SectionsOf(w.chain.previous), w.disk, a.built, after)
    ensures var t := Staged(w, a, after, left, false);
            t.chain == w.chain && AtRest(t)
  {
    RestSpoilsNothing(w, a, after);
    StagedRemembers(w, a, after, left, false);
    RebuiltIsTheSame(w.mem, w.chain.previous.value.manifest.sections, w.disk, a.built, after);
    SnapIsSame(w.chain, a);
    hide Coherent;
    hide Builds;
    hide Unchanged;
    hide SnapManifest;
    hide Apply;
    hide Spoils;
    hide RemembersIn;
  }

  lemma RestSpoilsNothing(w: World, a: SnapArgs, after: Memory)
    requires CanSnap(w.chain, a) && AtRest(w) && (a.built.BulkBuilt? ==> w.bulk)
    requires Builds(w.mem, SectionsOf(w.chain.previous), w.disk, a.built, after)
    ensures !Spoils(w, a, after)
  {
    hide Unchanged;
    hide Apply;
    hide Builds;
    hide Remembers;
    var x := w.chain.previous.value.manifest.sections;
    RebuiltIsTheSame(w.mem, x, w.disk, a.built, after);
    FewDirPacks(w.mem, x, w.disk, a.built, after);
    assert w.mem.chunks + map[] == w.mem.chunks;
  }

  lemma FewDirPacks(mem: Memory, x: Sections, d: Disk, built: Built, after: Memory)
    requires Builds(mem, Some(x), d, built, after) && Remembers(mem, x, d, ClassOf(built))
    ensures |DirPacks(built)| <= MAX_DIR_PACKS
  {
    RebuiltIsTheSame(mem, x, d, built, after);
  }

  /** A build torn by a write, staged all the same: nothing is said of a disk that moved. */
  lemma TornStaged(v: World, w: World, a: SnapArgs, after: Memory, left: Memory, other: bool)
    requires Stageable(w, a) && Moved(v, w) && v.writes < w.writes && w.chain == v.chain && w.others == v.others
    ensures var t := Staged(w, a, after, left, other);
            && Steady(t) && t.chain.previous.Some? && Moved(v, t) && RestKept(v, t) && (other ==> Aside(v, t))
  {
    hide Coherent;
    hide Snap;
    hide Unchanged;
    hide SnapManifest;
    hide Apply;
    hide Spoils;
    hide CurrentIn;
    hide RemembersIn;
    hide AtRest;
    SnapCoheres(w.chain, a);
  }

  /** A final snap of the flush's own. */
  lemma OwnStaged(w: World, a: SnapArgs, after: Memory, left: Memory)
    requires Stageable(w, a) && a.kind == Final
    requires Builds(w.mem, SectionsOf(w.chain.previous), w.disk, a.built, after)
    ensures RestKept(w, Staged(w, a, after, left, false))
  {
    if AtRest(w) {
      FinalSnapRests(w, a, after, left);
    }
    hide AtRest;
  }

  /** A final capture over the newest one holds what that one holds. */
  lemma SealMoves(w: World, a: SealArgs)
    requires Steady(w) && CanSeal(w.chain)
    ensures var t := w.(chain := Seal(w.chain, a));
            && Steady(t) && Moved(w, t) && EndsFinal(t) && t.chain.previous.value.manifest.finalSeal == a.seal
            && t.chain.queue != [] && !IsBulk(Last(t.chain.queue)) && t.chain.request == w.chain.request
            && SectionsOf(t.chain.previous) == SectionsOf(w.chain.previous)
  {
    SealLast(w.chain, a);
    hide Coherent;
    hide Seal;
    SealCoheres(w.chain, a);
  }

  lemma SealLast(c: State, a: SealArgs)
    requires CanSeal(c)
    ensures Seal(c, a).queue != [] && !IsBulk(Last(Seal(c, a).queue)) && Seal(c, a).request == c.request
  {
  }

  // ----- Other threads -------------------------------------------------------------------------

  function Shipped(w: World, step: Step): World
    requires Enabled(w.chain, step)
  {
    w.(chain := Next(w.chain, step), strays := if Strays(w.chain, step) then w.strays + 1 else w.strays)
  }

  /** The shipper and the registrar, whatever is answered, while the engine is free or repairs. */
  lemma ShippedMoves(w: World, step: Step)
    requires Coherent(w.chain) && IsShipperStep(step) && Enabled(w.chain, step)
    ensures var t := Shipped(w, step);
            Coherent(t.chain) && t.chain.repairing == w.chain.repairing && Moved(w, t) && Aside(w, t)
  {
    hide Coherent;
    hide Next;
    hide Enabled;
    hide Remembers;
    hide Strays;
    ShipperCoheres(w.chain, step);
    if Grounded(w.chain) {
      ShipperGrounds(w.chain, step);
    }
  }

  /** A bulk build yields: what it packed is kept for the next. */
  lemma YieldedMoves(w: World, after: Memory)
    requires Yields(w.mem, w.disk, after)
    ensures var t := w.(mem := after, bulkPaused := true);
            Moved(w, t) && Aside(w, t)
  {
    var t := w.(mem := after, bulkPaused := true);
    forall class_ | RemembersIn(w, class_) ensures RemembersIn(t, class_) {
      YieldKeeps(w.mem, w.chain.previous.value.manifest.sections, w.disk, after, class_);
    }
    hide RemembersIn;
  }

  /** The engine takes up a repair, or drops one whose capture is no longer queued. */
  function Begun(w: World, forget: set<Key>, git: set<Key>, bulk: bool): World
    requires w.chain.repairing.None? && w.chain.request.Some?
  {
    var c := RepairBegin(w.chain, forget);
    if c.repairing.None? then w.(chain := c)
    else w.(chain := c, mem := Forgotten(w.mem, forget, git, bulk), bulkPaused := w.bulkPaused && !bulk,
            spoils := w.spoils + 1)
  }

  /** A repair taken up moves what is remembered, and nothing of what is captured. */
  lemma BegunMoves(w: World, forget: set<Key>, git: set<Key>, bulk: bool)
    requires Coherent(w.chain) && w.chain.repairing.None? && w.chain.request.Some?
    ensures var t := Begun(w, forget, git, bulk);
            && Coherent(t.chain) && Moved(w, t) && Aside(w, t)
            && (t.chain.repairing.Some? ==> w.chain.queue != [])
  {
    hide Coherent;
    hide RepairBegin;
    hide Forgotten;
    hide Remembers;
    BeginCoheres(w.chain, forget);
  }

  predicate Rebuildable(w: World, a: SnapArgs) {
    Coherent(w.chain) && CanRepair(w.chain, a) && Renews(w.chain, RepairManifest(w.chain, a))
  }

  /** A class rebuilt since `v`, when what is remembered was last not spoilt: torn by a write or not, the
      rebuilt capture is final if what it replaces is, and holds the class if no one wrote. */
  lemma RebuiltMoves(v: World, w: World, a: SnapArgs, after: Memory)
    requires Rebuildable(w, a) && Moved(v, w) && v.spoils < w.spoils && Busy(v, w)
    requires w.writes == v.writes ==> Builds(w.mem, SectionsOf(w.chain.previous), w.disk, a.built, after)
    ensures var t := w.(chain := RepairClass(w.chain, a), mem := after);
            && Coherent(t.chain) && t.chain.repairing.Some? && Moved(v, t) && Busy(v, t)
  {
    hide Coherent;
    hide RepairClass;
    hide RepairEntry;
    hide Builds;
    hide Apply;
    hide HoldsSmall;
    hide HoldsBulk;
    hide RemembersIn;
    RebuildCoheres(w.chain, a);
    var t := w.(chain := RepairClass(w.chain, a), mem := after);
    if w.writes == v.writes {
      BuildHolds(w.mem, SectionsOf(w.chain.previous), w.disk, a.built, after);
    }
  }

  lemma EndedMoves(w: World, step: Step)
    requires Coherent(w.chain) && w.chain.repairing.Some? && (step.StepRepairEnd? || step.StepRepairFail?)
    ensures var t := w.(chain := Next(w.chain, step));
            Coherent(t.chain) && t.chain.repairing.None? && Moved(w, t) && Aside(w, t)
  {
    hide Coherent;
    hide Next;
    hide Remembers;
    EndCoheres(w.chain, step);
  }

  // ----- What the last final snaps vouch for ---------------------------------------------------

  /** The last final flush's snaps: where the change signals stood before them, and how many captures
      were counted as staged by their end. */
  datatype Seal_ = Seal_(changes: nat, staged: nat, completion: bool)

  /** A class read since `mark` is as the disk was then, and remembered so, unless something was written or
      spoilt since. */
  predicate ReadSince(mark: World, w: World, class_: Class) {
    w.writes == mark.writes ==> CurrentIn(w, class_) && (w.spoils == mark.spoils ==> RemembersIn(w, class_))
  }

  predicate AllRead(mark: World, w: World) {
    ReadSince(mark, w, Small) && (w.bulk ==> ReadSince(mark, w, Bulk))
  }

  /** `mark` is the world as those snaps began. */
  predicate Baseline(sealed: Option<Seal_>, mark: World, w: World) {
    sealed.Some? ==>
      w.chain.previous.Some? && sealed.value.changes <= Total(mark) && Moved(mark, w) && AllRead(mark, w)
  }

  lemma ReadStill(mark: World, v: World, w: World, class_: Class)
    requires Moved(mark, v) && Moved(v, w) && ReadSince(mark, v, class_)
    ensures ReadSince(mark, w, class_)
  {
    hide CurrentIn;
    hide RemembersIn;
    hide Signalled;
  }

  lemma ReadFrom(mark: World, v: World, w: World, class_: Class)
    requires Moved(mark, v) && Moved(v, w) && ReadSince(v, w, class_)
    ensures ReadSince(mark, w, class_)
  {
    hide CurrentIn;
    hide RemembersIn;
    hide Signalled;
    hide Stands;
  }

  /** It stands whatever happens next. */
  lemma BaselineStands(sealed: Option<Seal_>, mark: World, v: World, w: World)
    requires Baseline(sealed, mark, v) && Moved(v, w)
    ensures Baseline(sealed, mark, w)
  {
    if sealed.Some? {
      MovedOn(mark, v, w);
      ReadStill(mark, v, w, Small);
      if w.bulk {
        ReadStill(mark, v, w, Bulk);
      }
    }
    hide Signalled;
    hide Stands;
    hide ReadSince;
  }

  /** Every class was watched as those snaps began, or what is watched changed since. */
  predicate SeenWhole(mark: World, w: World) {
    EveryWatched(mark) || mark.modes < w.modes
  }

  lemma WatchedSince(mark: World, v: World, w: World)
    requires Moved(mark, v) && EveryWatched(v) && Moved(v, w)
    ensures SeenWhole(mark, w)
  {
    hide Stands;
  }

  /** No signal since those snaps began, and none on its way: every write since went unseen, and if every
      class was watched, there was none. */
  lemma SettledAccounts(sealed: Seal_, mark: World, w: World)
    requires Baseline(Some(sealed), mark, w) && Total(w) == sealed.changes
    ensures w.writes - mark.writes == w.unseen - mark.unseen
    ensures SeenWhole(mark, w) ==> w.writes == mark.writes
  {
    hide Stands;
    hide AllRead;
  }

  /** Nothing written since those snaps began: the newest capture holds the disk. */
  lemma UnwrittenIsCurrent(sealed: Seal_, mark: World, w: World)
    requires Baseline(Some(sealed), mark, w) && w.writes == mark.writes
    ensures Current(w) && (w.spoils == mark.spoils ==> Remembered(w))
  {
    hide Moved;
    hide CurrentIn;
    hide RemembersIn;
  }

  /** A class that polls: the straggler's write is not signalled, so the check of the snaps passes as it did,
      and the newest capture is what the disk was; it is what the disk is exactly when the write
      left the class as it was. */
  lemma StragglerGoesUnseen(sealed: Seal_, mark: World, w: World, class_: Class, d: Disk)
    requires Baseline(Some(sealed), mark, w) && Wired(w) && Total(w) == sealed.changes && Current(w)
    requires class_ !in w.watching && (class_ == Bulk ==> w.bulk) && Touches(w.disk, d, class_)
    ensures var t := Written(w, class_, d);
            && Baseline(Some(sealed), mark, t) && Total(t) == sealed.changes && t.chain == w.chain
            && (Current(t) <==> if class_ == Small then d.named == w.disk.named && d.small.root == w.disk.small.root
                                else d.bulk.root == w.disk.bulk.root)
  {
    var t := Written(w, class_, d);
    WrittenMoves(w, class_, d);
    BaselineStands(Some(sealed), mark, w, t);
    hide Baseline;
    hide Moved;
    hide Aside;
    WriteLeavesCurrent(w, class_, d, Small);
    if w.bulk {
      WriteLeavesCurrent(w, class_, d, Bulk);
    }
    hide CurrentIn;
  }

  // ----- Seals ---------------------------------------------------------------------------------

  /** The newest capture carries this executor's seal, or there is none to seal under. */
  predicate SealedFor(c: State, executor: Option<string>, epoch: nat) {
    executor.Some? ==>
      && c.previous.Some?
      && c.previous.value.manifest.finalSeal.Some?
      && SameExecutor(c.previous.value.manifest.finalSeal.value, FinalSeal(true, epoch, executor.value, None))
  }

  /** Once everything shipped and the newest capture is sealed, another thread's staging shows: the newest
      capture is sealed still exactly when no one staged. */
  lemma SealTellsStaging(v: World, w: World, executor: Option<string>, epoch: nat)
    requires Aside(v, w) && v.chain.queue == [] && executor.Some? && SealedFor(v.chain, executor, epoch)
    ensures SealedFor(w.chain, executor, epoch) <==> w.others == v.others
  {
    hide RestKept;
  }

  /** A seal found once other threads acted was there before they did. */
  lemma SealWasThere(v: World, w: World, executor: Option<string>, epoch: nat)
    requires Aside(v, w) && v.chain.queue == [] && executor.Some? && SealedFor(w.chain, executor, epoch)
    ensures SealedFor(v.chain, executor, epoch)
  {
    hide RestKept;
  }
}
