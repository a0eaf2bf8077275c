/** Runs of the whole world from an opened engine, and what a final flush finds at their end: a repair of one
    class that makes the other be staged again, a resumed bulk build that moved packs of the small
    class, a straggler no one saw, a turn staged over a sealed chain (engine.rs, cadence.rs). */
module FlushRuns {
  import opened Options
  import opened Captures
  import opened Chain
  import opened ChainSafety
  import ClassBuild
  import opened BuildMemory
  import opened Coherence
  import opened FlushWorld
  import opened RepairRaces

  datatype Act =
    | Build(a: SnapArgs, after: Memory)                        // a snap that read the disk as it is
    | Other(a: SnapArgs, after: Memory)                        // another thread's
    | Cap(seal: SealArgs)                                      // a final capture over the newest
    | Yield(after: Memory)                                     // a bulk build yields
    | Write(class_: Class, disk: Disk)
    | Take(forget: set<Key>, git: set<Key>, bulk: bool)        // a repair is taken up
    | Rebuild(a: SnapArgs, after: Memory)                      // one class of it
    | End                                                      // and over
    | Ship(step: Step)

  predicate CanBuild(w: World, a: SnapArgs, after: Memory) {
    && CanSnap(w.chain, a) && Builds(w.mem, SectionsOf(w.chain.previous), w.disk, a.built, after)
    && (Unchanged(w.chain, a) || Renews(w.chain, SnapManifest(w.chain, a)))
  }

  predicate CanAct(w: World, act: Act) {
    match act
    case Build(a, after) => CanBuild(w, a, after)
    case Other(a, after) => CanBuild(w, a, after)
    case Cap(_) => CanSeal(w.chain)
    case Yield(after) => Yields(w.mem, w.disk, after)
    case Write(class_, d) => Touches(w.disk, d, class_)
    case Take(_, _, _) => w.chain.repairing.None? && w.chain.request.Some?
    case Rebuild(a, after) =>
      && CanRepair(w.chain, a) && Builds(w.mem, SectionsOf(w.chain.previous), w.disk, a.built, after)
      && Renews(w.chain, RepairManifest(w.chain, a))
    case End => w.chain.repairing.Some?
    case Ship(step) => IsShipperStep(step) && Enabled(w.chain, step)
  }

  function Acted(w: World, act: Act): World
    requires CanAct(w, act)
  {
    match act
    case Build(a, after) => Staged(w, a, after, after, false)
    case Other(a, after) => Staged(w, a, after, after, true)
    case Cap(a) => w.(chain := Seal(w.chain, a))
    case Yield(after) => w.(mem := after, bulkPaused := true)
    case Write(class_, d) => Written(w, class_, d)
    case Take(forget, git, bulk) => Begun(w, forget, git, bulk)
    case Rebuild(a, after) => w.(chain := RepairClass(w.chain, a), mem := after)
    case End => w.(chain := Next(w.chain, StepRepairEnd))
    case Ship(step) => Shipped(w, step)
  }

  predicate CanRun(w: World, acts: seq<Act>)
    decreases |acts|
  {
    acts != [] ==> CanAct(w, acts[0]) && CanRun(Acted(w, acts[0]), acts[1..])
  }

  function Ran(w: World, acts: seq<Act>): World
    requires CanRun(w, acts)
    decreases |acts|
  {
    if acts == [] then w else Ran(Acted(w, acts[0]), acts[1..])
  }

  ghost predicate Reaches(u: World, w: World) {
    exists acts :: CanRun(u, acts) && Ran(u, acts) == w
  }

  lemma {:induction false} RunOn(u: World, acts: seq<Act>, act: Act)
    requires CanRun(u, acts) && CanAct(Ran(u, acts), act)
    ensures CanRun(u, acts + [act]) && Ran(u, acts + [act]) == Acted(Ran(u, acts), act)
    decreases |acts|
  {
    hide CanAct;
    hide Acted;
    if acts == [] {
      assert [act][1..] == [] && acts + [act] == [act];
      assert CanRun(Acted(u, act), []);
    } else {
      assert (acts + [act])[1..] == acts[1..] + [act];
      RunOn(Acted(u, acts[0]), acts[1..], act);
    }
  }

  lemma ReachOn(u: World, v: World, act: Act)
    requires Reaches(u, v) && CanAct(v, act)
    ensures Reaches(u, Acted(v, act))
  {
    hide CanAct;
    hide Acted;
    var acts :| CanRun(u, acts) && Ran(u, acts) == v;
    RunOn(u, acts, act);
  }

  lemma ActCoheres(w: World, act: Act)
    requires Coherent(w.chain) && CanAct(w, act)
    ensures Coherent(Acted(w, act).chain)
  {
    hide Coherent;
    hide Builds;
    hide Spoils;
    match act {
      case Build(a, _) => SnapCoheres(w.chain, a);
      case Other(a, _) => SnapCoheres(w.chain, a);
      case Cap(a) => SealCoheres(w.chain, a);
      case Take(forget, _, _) => BeginCoheres(w.chain, forget);
      case Rebuild(a, _) => RebuildCoheres(w.chain, a);
      case End => EndCoheres(w.chain, StepRepairEnd);
      case Ship(step) => ShipperCoheres(w.chain, step);
      case _ =>
    }
  }

  lemma {:induction false} RunCoheres(w: World, acts: seq<Act>)
    requires Coherent(w.chain) && CanRun(w, acts)
    ensures Coherent(Ran(w, acts).chain)
    decreases |acts|
  {
    hide Coherent;
    hide CanAct;
    hide Acted;
    if acts != [] {
      ActCoheres(w, acts[0]);
      RunCoheres(Acted(w, acts[0]), acts[1..]);
    }
  }

  /** Whatever an opened engine reaches is a state a flush may begin in. */
  lemma ReachedCoheres(u: World, w: World)
    requires u.chain == Opened() && Reaches(u, w)
    ensures Coherent(w.chain)
  {
    var acts :| CanRun(u, acts) && Ran(u, acts) == w;
    assert Coherent(Opened());
    hide Coherent;
    RunCoheres(u, acts);
  }

  lemma ReachShip(u: World, v: World, step: Step, c: State)
    requires Reaches(u, v) && IsShipperStep(step) && Enabled(v.chain, step) && !Strays(v.chain, step)
    requires Next(v.chain, step) == c
    ensures Reaches(u, v.(chain := c))
  {
    hide Reaches;
    hide Enabled;
    hide Next;
    hide Strays;
    ReachOn(u, v, Ship(step));
  }

  /** The one capture queued is shipped and registered. */
  lemma ReachShipped(u: World, v: World)
    requires Reaches(u, v) && v.chain.ship.Idle? && v.chain.request.None? && |v.chain.queue| == 1
    requires Registrable(v.chain.head, v.chain.queue[0].manifest)
    ensures Reaches(u, v.(chain := v.chain.(head := Some(v.chain.queue[0].manifest), queue := [])))
  {
    hide Reaches;
    var c := v.chain;
    var e := c.queue[0];
    var registered := c.(head := Some(e.manifest), ship := Registered(e));
    ReachShip(u, v, StepClaim, c.(ship := Claimed(e)));
    ReachShip(u, v.(chain := c.(ship := Claimed(e))), StepRegister(Answered), registered);
    ReachShip(u, v.(chain := registered), StepAck, registered.(ship := Acked(e), queue := []));
    ReachShip(u, v.(chain := registered.(ship := Acked(e), queue := [])), StepRelease,
              registered.(ship := Idle, queue := []));
  }

  /** The first capture queued is refused, and a repair of it asked for. */
  lemma ReachRefused(u: World, v: World)
    requires Reaches(u, v) && v.chain.ship.Idle? && v.chain.request.None? && v.chain.queue != [] && v.chain.head.None?
    ensures var e := v.chain.queue[0];
            Reaches(u, v.(chain := v.chain.(request := Some(RepairRequest(e.manifest.n, IdOf(e))))))
  {
    hide Reaches;
    var c := v.chain;
    var e := c.queue[0];
    ReachShip(u, v, StepClaim, c.(ship := Claimed(e)));
    ReachShip(u, v.(chain := c.(ship := Claimed(e))), StepRegister(RefusedIt), c.(ship := Refused(e)));
    ReachShip(u, v.(chain := c.(ship := Refused(e))), StepRelease, c.(ship := Asking(e)));
    ReachShip(u, v.(chain := c.(ship := Asking(e))), StepAskRepair,
              c.(request := Some(RepairRequest(e.manifest.n, IdOf(e)))));
  }

  /** The front is rebuilt alone, and the repair ends. */
  lemma ReachRebuilt(u: World, v: World, a: SnapArgs, after: Memory, e: QueueEntry)
    requires Reaches(u, v) && CanRepair(v.chain, a) && Renews(v.chain, RepairManifest(v.chain, a))
    requires Builds(v.mem, SectionsOf(v.chain.previous), v.disk, a.built, after) && e == RepairEntry(v.chain, a)
    requires IndexAt(v.chain.queue, e.manifest.n) == 0
    ensures Reaches(u, v.(chain := v.chain.(queue := [e], previous := Some(Encode(e.manifest)), below := None,
                                            request := None, repairing := None), mem := after))
  {
    hide Reaches;
    hide RepairEntry;
    ReachOn(u, v, Rebuild(a, after));
    var w := Acted(v, Rebuild(a, after));
    assert w.chain.repairing.Some? && w == v.(chain := w.chain, mem := after);
    assert w.chain == v.chain.(queue := [e], previous := Some(Encode(e.manifest)), below := None,
                               repairing := w.chain.repairing);
    hide RepairClass;
    hide CanAct;
    hide Acted;
    ReachEnded(u, w);
  }

  lemma ReachEnded(u: World, v: World)
    requires Reaches(u, v) && v.chain.repairing.Some?
    ensures Reaches(u, v.(chain := v.chain.(request := None, repairing := None)))
  {
    hide Reaches;
    ReachOn(u, v, End);
  }

  /** All shipped, the newest capture the registered head. */
  predicate Quiet(c: State) {
    && c.queue == [] && c.ship.Idle? && c.request.None? && c.repairing.None?
    && (if c.previous.None? then c.head.None?
        else c.head == Some(c.previous.value.manifest) && c.previous.value.id == Sha(c.head.value))
  }

  /** What a final snap stages over a quiet chain, and that it may register. */
  lemma QuietSnap(c: State, a: SnapArgs) returns (m: Manifest)
    requires Quiet(c) && a.kind == Final && CanSnap(c, a) && !Unchanged(c, a)
    ensures m == SnapManifest(c, a) && m.kind == Final && m.sections == Apply(SectionsOf(c.previous), a.built)
    ensures Registrable(c.head, m)
    ensures var t := Snap(c, a);
            && |t.queue| == 1 && t.queue[0].manifest == m && t.previous == Some(Encode(m)) && t.ship.Idle?
            && t.request.None? && t.repairing.None? && t.head == c.head
  {
    hide Apply;
    m := SnapManifest(c, a);
  }

  /** A final snap that found something new is staged, shipped and registered. */
  lemma ReachCaptured(u: World, v: World, a: SnapArgs, after: Memory) returns (w: World)
    requires Reaches(u, v) && Quiet(v.chain) && a.kind == Final && CanSnap(v.chain, a)
    requires Builds(v.mem, SectionsOf(v.chain.previous), v.disk, a.built, after) && !Unchanged(v.chain, a)
    ensures Reaches(u, w) && Quiet(w.chain) && EndsFinal(w)
    ensures w == v.(chain := w.chain, mem := after, bulkPaused := v.bulkPaused && a.built.SmallBuilt?, spoils := w.spoils)
    ensures SectionsOf(w.chain.previous) == Some(Apply(SectionsOf(v.chain.previous), a.built))
  {
    hide Reaches;
    hide Builds;
    hide Unchanged;
    hide SnapManifest;
    hide Snap;
    hide Spoils;
    hide Apply;
    var m := QuietSnap(v.chain, a);
    ReachOn(u, v, Build(a, after));
    var t := Acted(v, Build(a, after));
    ReachShipped(u, t);
    w := t.(chain := t.chain.(head := Some(m), queue := []));
  }

  /** An engine opened over a disk, watching both classes. */
  function Fresh(mem: Memory, disk: Disk): World {
    World(true, true, Opened(), mem, false, disk, {Small, Bulk}, 0, 0, 0, 0, 0, 0, 0, 0, 0, 0)
  }

  function Blank(p: KeyPrefix, platform: Platform): Memory {
    Memory(p, Objects, platform, map[], map[], map[], {}, None, map[])
  }

  lemma Starts(w: World)
    ensures Reaches(w, w)
  {
    assert CanRun(w, []) && Ran(w, []) == w;
  }

  // ----- A repair of one class moves the other's keys ------------------------------------------

  /** A disk of two empty directories. */
  const BARE := Disk({}, {}, {}, ClassTree("s", {}, {}), ClassTree("b", {}, {}))

  function SmallBare(p: KeyPrefix): SnapArgs {
    SnapArgs(Final, 1, "", SmallBuilt(GitSection([], {}), WorkspaceSection(Key(p, Tree("s")), {}, {})), [], p)
  }

  function BulkBare(p: KeyPrefix, platform: Platform): SnapArgs {
    SnapArgs(Final, 2, "", BulkBuilt(BulkSection(Key(p, Tree("b")), {}, platform, {})), [], p)
  }

  lemma BareBuilds(mem: Memory, prev: Option<Sections>)
    requires mem == Blank(mem.prefix, mem.platform) && (prev.Some? ==> prev.value.git == GitSection([], {}))
    ensures Builds(mem, prev, BARE, SmallBare(mem.prefix).built, mem)
    ensures Builds(mem, prev, BARE, BulkBare(mem.prefix, mem.platform).built, mem)
  {
    assert ClassBuild.PacksOf(map[], {}) == {};
  }

  /** Both classes captured and queued. */
  function BothStaged(p: KeyPrefix, platform: Platform): World {
    var w := Fresh(Blank(p, platform), BARE);
    var c := Snap(w.chain, SmallBare(p));
    w.(chain := Snap(c, BulkBare(p, platform)))
  }

  lemma BothAreStaged(p: KeyPrefix, platform: Platform)
    ensures Reaches(Fresh(Blank(p, platform), BARE), BothStaged(p, platform))
    ensures var c := BothStaged(p, platform).chain;
            && |c.queue| == 2 && c.queue[0] == SnapEntry(Opened(), SmallBare(p)) && c.ship.Idle? && c.head.None?
            && !c.conflict
            && c.request.None? && c.repairing.None? && c.previous == Some(Encode(c.queue[1].manifest))
            && c.queue[1].manifest.kind == Final && c.queue[1].manifest.finalSeal.None?
            && c.queue[1].manifest.sections
               == Apply(Some(c.queue[0].manifest.sections), BulkBare(p, platform).built)
  {
    hide Reaches;
    var w := Fresh(Blank(p, platform), BARE);
    Starts(w);
    var a, b := SmallBare(p), BulkBare(p, platform);
    BareBuilds(w.mem, None);
    var v := w.(chain := Snap(w.chain, a));
    assert v.chain.queue == [SnapEntry(Opened(), a)];
    assert Acted(w, Build(a, w.mem)) == v;
    ReachOn(w, w, Build(a, w.mem));
    BareBuilds(w.mem, SectionsOf(v.chain.previous));
    assert Acted(v, Build(b, w.mem)) == BothStaged(p, platform);
    ReachOn(w, v, Build(b, w.mem));
  }

  function NextPrefix(p: KeyPrefix): KeyPrefix {
    p.(generation := Some(if p.generation.Some? then p.generation.value + 1 else 1))
  }

  lemma ForgottenIsBlank(p: KeyPrefix, platform: Platform)
    ensures Forgotten(Blank(p, platform), {}, {}, false) == Blank(NextPrefix(p), platform)
  {
    assert BuildMemory.Without(map[], {}) == map[];
  }

  /** The small capture refused, and its repair taken up. */
  function TakenUpAgain(p: KeyPrefix, platform: Platform): World {
    var w := BothStaged(p, platform);
    var q := w.chain.queue;
    if |q| == 2 then
      w.(chain := w.chain.(request := Some(RepairRequest(q[0].manifest.n, IdOf(q[0]))),
                           repairing := Some(Repairing(q[0], [q[1]], {}))),
         mem := Blank(NextPrefix(p), platform), spoils := 1)
    else w
  }

  lemma RefusalIsTakenUp(p: KeyPrefix, platform: Platform)
    ensures Reaches(Fresh(Blank(p, platform), BARE), TakenUpAgain(p, platform))
  {
    hide Reaches;
    hide Snap;
    var u, w := Fresh(Blank(p, platform), BARE), BothStaged(p, platform);
    BothAreStaged(p, platform);
    assert w == u.(chain := w.chain);
    hide BothStaged;
    hide SnapEntry;
    var q := w.chain.queue;
    ReachRefused(u, w);
    var asked := w.(chain := w.chain.(request := Some(RepairRequest(q[0].manifest.n, IdOf(q[0])))));
    ForgottenIsBlank(p, platform);
    assert q[1..] == [q[1]];
    ReachOn(u, asked, Take({}, {}, false));
    assert Acted(asked, Take({}, {}, false)) == TakenUpAgain(p, platform);
  }

  /** Rebuilt and registered: one final capture, its small class under the new generation. */
  function Rebuilt(p: KeyPrefix, platform: Platform): World
    requires TakenUpAgain(p, platform).chain.repairing.Some? && TakenUpAgain(p, platform).chain.previous.Some?
  {
    var w := TakenUpAgain(p, platform);
    var m := RepairManifest(w.chain, SmallBare(NextPrefix(p)));
    w.(chain := State(Some(m), false, [], Idle, None, Some(Encode(m)), None, None))
  }

  lemma RebuildIsRegistered(p: KeyPrefix, platform: Platform)
    ensures TakenUpAgain(p, platform).chain.repairing.Some? && TakenUpAgain(p, platform).chain.previous.Some?
    ensures Reaches(Fresh(Blank(p, platform), BARE), Rebuilt(p, platform))
  {
    hide Reaches;
    hide Builds;
    hide BothStaged;
    hide Renews;
    var u, w, a := Fresh(Blank(p, platform), BARE), TakenUpAgain(p, platform), SmallBare(NextPrefix(p));
    RefusalIsTakenUp(p, platform);
    RebuildIsNew(p, platform);
    hide TakenUpAgain;
    hide RepairEntry;
    hide RepairManifest;
    hide IndexAt;
    var e := RepairEntry(w.chain, a);
    ReachRebuilt(u, w, a, w.mem, e);
    ReachShipped(u, w.(chain := w.chain.(queue := [e], previous := Some(Encode(e.manifest)), below := None,
                                         request := None, repairing := None)));
  }

  lemma RebuildIsNew(p: KeyPrefix, platform: Platform)
    ensures var w, a := TakenUpAgain(p, platform), SmallBare(NextPrefix(p));
            && CanRepair(w.chain, a) && Builds(w.mem, SectionsOf(w.chain.previous), w.disk, a.built, w.mem)
            && Renews(w.chain, RepairManifest(w.chain, a))
            && var e := RepairEntry(w.chain, a);
               && e.manifest == RepairManifest(w.chain, a) && e.manifest.n == 0 && e.manifest.parent.None?
               && IndexAt(w.chain.queue, e.manifest.n) == 0
               && w.chain == State(None, false, w.chain.queue, Idle, w.chain.request, w.chain.previous, w.chain.below,
                                   w.chain.repairing)
               && w.chain.repairing.value.forget == {}
  {
    BothAreStaged(p, platform);
    hide Snap;
    var w, a := TakenUpAgain(p, platform), SmallBare(NextPrefix(p));
    BareBuilds(w.mem, SectionsOf(w.chain.previous));
    assert RepairManifest(w.chain, a).sections.workspace.root != w.chain.queue[0].manifest.sections.workspace.root;
    hide Builds;
  }

  /** It happens: a final flush captured both classes, the small one was refused and rebuilt alone, and all
      is registered. The newest capture is final and holds the disk; every final snap of the bulk
      class stages it again, under the new generation. */
  lemma MovedPrefixIsReached(p: KeyPrefix, platform: Platform) returns (w: World)
    ensures Reaches(Fresh(Blank(p, platform), BARE), w)
    ensures w.chain.queue == [] && w.chain.repairing.None? && EndsFinal(w) && Current(w)
    ensures forall a, after :: FinalBuild(w, Bulk, a, after) ==> Snap(w.chain, a).queue != []
  {
    RebuildIsRegistered(p, platform);
    BothAreStaged(p, platform);
    w := Rebuilt(p, platform);
    var t := TakenUpAgain(p, platform).chain;
    assert Folded(t.repairing.value)[1].manifest.kind == Final;
    var x := w.chain.previous.value.manifest.sections;
    assert x.bulk == Ready(BulkBare(p, platform).built.bulk);
    forall a, after | FinalBuild(w, Bulk, a, after) ensures Snap(w.chain, a).queue != [] {
      MovedPrefixRebuilds(w.mem, x, w.disk, a.built, after);
      SnapIsSame(w.chain, a);
    }
  }

  // ----- A resumed bulk build moves packs of the small class -----------------------------------

  /** Before the write, the bulk class holds a chunk; after it, the small class holds it too. */
  const SHARED := Disk({}, {}, {}, ClassTree("s", {}, {}), ClassTree("b", {"c"}, {}))
  const COPIED := SHARED.(small := ClassTree("t", {"c", "e"}, {}))

  /** The chunk as the bulk build packed it, and as the small one did. */
  function Alone(p: KeyPrefix): Key {
    Key(p, Pack(["c"]))
  }

  function Together(p: KeyPrefix): Key {
    Key(p, Pack(["c", "e"]))
  }

  function SmallCopied(p: KeyPrefix): SnapArgs {
    SnapArgs(Final, 2, "", SmallBuilt(GitSection([], {}), WorkspaceSection(Key(p, Tree("t")), {Together(p)}, {})), [], p)
  }

  function BulkShared(p: KeyPrefix, platform: Platform): SnapArgs {
    SnapArgs(Final, 3, "", BulkBuilt(BulkSection(Key(p, Tree("b")), {Alone(p)}, platform, {})), [], p)
  }

  function Yielded(p: KeyPrefix, platform: Platform): Memory {
    Blank(p, platform).(paused := map["c" := Alone(p)])
  }

  function Copied(p: KeyPrefix, platform: Platform): Memory {
    Yielded(p, platform).(chunks := map["c" := Together(p), "e" := Together(p)])
  }

  function Resumed(p: KeyPrefix, platform: Platform): Memory {
    Blank(p, platform).(chunks := map["c" := Alone(p), "e" := Together(p)])
  }

  lemma FirstBuilds(p: KeyPrefix, platform: Platform)
    ensures Builds(Blank(p, platform), None, SHARED, SmallBare(p).built, Blank(p, platform))
    ensures Yields(Blank(p, platform), SHARED, Yielded(p, platform))
  {
    assert ClassBuild.PacksOf(map[], {}) == {};
  }

  lemma CopyBuilds(p: KeyPrefix, platform: Platform, x: Sections)
    requires x.git == GitSection([], {})
    ensures Builds(Yielded(p, platform), Some(x), COPIED, SmallCopied(p).built, Copied(p, platform))
  {
    assert ["c", "e"][0] == "c" && ["c", "e"][1] == "e";
    var chunks := Copied(p, platform).chunks;
    assert chunks["c"] in ClassBuild.PacksOf(chunks, {"c", "e"});
    assert ClassBuild.PacksOf(chunks, {"c", "e"}) == {Together(p)};
  }

  lemma ResumedBuilds(p: KeyPrefix, platform: Platform, x: Sections)
    ensures Builds(Copied(p, platform), Some(x), COPIED, BulkShared(p, platform).built, Resumed(p, platform))
  {
    assert ["c"][0] == "c";
    var after := Resumed(p, platform).chunks;
    assert after["c"] in ClassBuild.PacksOf(after, {"c"});
    assert ClassBuild.PacksOf(after, {"c"}) == {Alone(p)};
  }

  lemma PacksMoved(p: KeyPrefix, platform: Platform)
    ensures MovesPacks(Copied(p, platform), {"c", "e"})
  {
    var mem := Copied(p, platform);
    assert Merged(mem)["c"] == Alone(p) && Alone(p) in ClassBuild.PacksOf(Merged(mem), {"c", "e"});
    assert ["c"] != ["c", "e"];
    assert Alone(p) !in ClassBuild.PacksOf(mem.chunks, {"c", "e"});
  }

  /** The small class captured over the write, while the bulk build waits to resume. */
  lemma CopyIsCaptured(p: KeyPrefix, platform: Platform) returns (w: World)
    ensures Reaches(Fresh(Blank(p, platform), SHARED), w) && Quiet(w.chain) && EndsFinal(w)
    ensures w.mem == Copied(p, platform) && w.disk == COPIED
    ensures SectionsOf(w.chain.previous) == Some(Sections(SmallCopied(p).built.git, SmallCopied(p).built.workspace,
                                                          Pending, map[]))
  {
    hide Reaches;
    var u := Fresh(Blank(p, platform), SHARED);
    Starts(u);
    FirstBuilds(p, platform);
    hide Builds;
    hide Yields;
    var v := ReachCaptured(u, u, SmallBare(p), Blank(p, platform));
    var x := v.chain.previous.value.manifest.sections;
    ReachOn(u, v, Yield(Yielded(p, platform)));
    v := v.(mem := Yielded(p, platform), bulkPaused := true);
    ReachOn(u, v, Write(Small, COPIED));
    v := FlushWorld.Written(v, Small, COPIED);
    CopyBuilds(p, platform, x);
    hide Copied;
    hide Yielded;
    w := ReachCaptured(u, v, SmallCopied(p), Copied(p, platform));
  }

  lemma CopyIsRemembered(p: KeyPrefix, platform: Platform, x: Sections)
    requires x.git == SmallCopied(p).built.git && x.workspace == SmallCopied(p).built.workspace
    ensures RemembersSmall(Copied(p, platform), x, COPIED)
  {
    var chunks := Copied(p, platform).chunks;
    assert chunks["c"] in ClassBuild.PacksOf(chunks, {"c", "e"});
    assert ClassBuild.PacksOf(chunks, {"c", "e"}) == {Together(p)};
  }

  /** It happens: a bulk build yielded, a chunk it had packed was copied into the small class and captured
      there in another pack, and the bulk build resumed. All is registered, and the newest capture is
      final and holds the disk; every final snap of the small class stages it again, its chunk in
      the bulk build's pack. */
  lemma MovedPacksAreReached(p: KeyPrefix, platform: Platform) returns (w: World)
    ensures Reaches(Fresh(Blank(p, platform), SHARED), w)
    ensures w.chain.queue == [] && w.chain.repairing.None? && EndsFinal(w) && Current(w)
    ensures forall a, after :: FinalBuild(w, Small, a, after) ==> Snap(w.chain, a).queue != []
  {
    hide Reaches;
    var u, b := Fresh(Blank(p, platform), SHARED), BulkShared(p, platform);
    var v := CopyIsCaptured(p, platform);
    var x := v.chain.previous.value.manifest.sections;
    ResumedBuilds(p, platform, x);
    assert Apply(Some(x), b.built).bulk.Ready? && !Unchanged(v.chain, b);
    w := ReachCaptured(u, v, b, Resumed(p, platform));
    CopyIsRemembered(p, platform, x);
    PacksMoved(p, platform);
    var y := w.chain.previous.value.manifest.sections;
    assert y == Apply(Some(x), b.built);
    forall a, after | FinalBuild(w, Small, a, after) ensures Snap(w.chain, a).queue != [] {
      MovedPacksRebuild(v.mem, x, w.disk, b.built, w.mem, a.built, after);
      SnapIsSame(w.chain, a);
    }
  }

  // ----- A straggler no one sees ---------------------------------------------------------------

  /** An engine opened without a watcher. */
  function Polling(p: KeyPrefix, platform: Platform): World {
    Fresh(Blank(p, platform), BARE).(watcher := false, watching := {})
  }

  lemma BareIsCaptured(u: World, p: KeyPrefix, platform: Platform) returns (w: World)
    requires u.chain == Opened() && u.mem == Blank(p, platform) && u.disk == BARE
    ensures Reaches(u, w) && Quiet(w.chain) && EndsFinal(w)
    ensures w == u.(chain := w.chain, bulkPaused := false, spoils := w.spoils) && Current(w) && Remembered(w)
    ensures w.chain.previous.value.manifest.sections.git == GitSection([], {})
  {
    hide Reaches;
    Starts(u);
    var a, b := SmallBare(p), BulkBare(p, platform);
    BareBuilds(u.mem, None);
    var v := ReachCaptured(u, u, a, u.mem);
    var x := v.chain.previous.value.manifest.sections;
    BareBuilds(u.mem, Some(x));
    assert Apply(Some(x), b.built).bulk.Ready? && !Unchanged(v.chain, b);
    w := ReachCaptured(u, v, b, u.mem);
    var y := Apply(Some(x), b.built);
    assert w.chain.previous.value.manifest.sections == y;
    BareIsRemembered(u.mem, y);
  }

  lemma BareIsRemembered(mem: Memory, y: Sections)
    requires mem == Blank(mem.prefix, mem.platform)
    requires y.git == GitSection([], {}) && y.workspace == SmallBare(mem.prefix).built.workspace
    requires y.bulk == Ready(BulkBare(mem.prefix, mem.platform).built.bulk) && y.otherBulk == map[]
    ensures RemembersSmall(mem, y, BARE) && RemembersBulk(mem, y, BARE)
  {
    assert ClassBuild.PacksOf(map[], {}) == {} && Merged(mem) == map[];
  }

  /** It happens: every class polls, a final flush captured the disk, and a process writes before it exits.
      Every check of the flush's snaps still passes, nothing is on its way, and the newest capture is
      not the disk. */
  lemma StragglerIsReached(p: KeyPrefix, platform: Platform, root: string) returns (mark: World, w: World)
    requires root != "s"
    ensures Reaches(Polling(p, platform), mark) && Reaches(Polling(p, platform), w)
    ensures Quiet(mark.chain) && EndsFinal(mark) && Current(mark)
    ensures Baseline(Some(Seal_(mark.changes, mark.staged, false)), mark, w)
    ensures w.chain == mark.chain && w.changes == mark.changes && w.undelivered == 0 && !w.bulkPaused
    ensures w.unseen == mark.unseen + 1 && !Current(w)
  {
    hide Reaches;
    var u := Polling(p, platform);
    mark := BareIsCaptured(u, p, platform);
    Still(mark);
    var sealed := Seal_(mark.changes, mark.staged, false);
    assert Baseline(Some(sealed), mark, mark);
    var d := BARE.(small := ClassTree(root, {}, {}));
    w := FlushWorld.Written(mark, Small, d);
    ReachOn(u, mark, Write(Small, d));
    hide Baseline;
    hide Quiet;
    StragglerGoesUnseen(sealed, mark, mark, Small, d);
  }

  // ----- A turn over a sealed chain ------------------------------------------------------------

  /** A capture another thread stages over a sealed chain, all of it registered: the newest capture
      carries no seal, so the registrar is not asked, and it is neither registered nor recorded. */
  lemma IntrudingSnapHidesSeal(c: State, a: SnapArgs, executor: Option<string>, epoch: nat)
    requires Coherent(c) && Grounded(c) && c.queue == [] && executor.Some? && SealedFor(c, executor, epoch)
    requires CanSnap(c, a) && (a.kind == Turn || a.kind == Checkpoint) && Renews(c, SnapManifest(c, a))
    ensures var t := Snap(c, a);
            && !SealedFor(t, executor, epoch) && t.queue != [] && t.head == c.head && t.head.Some?
            && t.previous.Some? && t.previous.value.id != Sha(t.head.value)
  {
    SnapCoheres(c, a);
    hide Coherent;
  }

  /** It happens: a chain is sealed and all registered, which is what the flush's last look at it finds;
      then a turn's capture is staged before the registrar is asked. The newest capture carries no
      seal, so the flush asks nothing and says complete. */
  lemma IntrusionIsReached(p: KeyPrefix, platform: Platform, executor: string, epoch: nat, at: (nat, nat))
      returns (sealed: World, w: World)
    ensures var u := Fresh(Blank(p, platform), BARE);
            Reaches(u, sealed) && Reaches(u, w)
    ensures Quiet(sealed.chain) && SealedFor(sealed.chain, Some(executor), epoch)
    ensures sealed.chain.previous.value.manifest.finalSeal == Some(FinalSeal(true, epoch, executor, Some(at)))
    ensures w.others == sealed.others + 1 && !SealedFor(w.chain, Some(executor), epoch) && w.chain.queue != []
    ensures w.chain.head == sealed.chain.head && w.chain.head.Some? && w.chain.previous.Some?
    ensures w.chain.previous.value.id != Sha(w.chain.head.value)
  {
    hide Reaches;
    var u := Fresh(Blank(p, platform), BARE);
    var v := BareIsCaptured(u, p, platform);
    var s := SealArgs(4, "", Some(FinalSeal(true, epoch, executor, Some(at))), p);
    ReachOn(u, v, Cap(s));
    var t := v.(chain := Seal(v.chain, s));
    assert |t.chain.queue| == 1 && t.chain.queue[0].manifest == SealManifest(v.chain, s);
    ReachShipped(u, t);
    sealed := t.(chain := t.chain.(head := Some(SealManifest(v.chain, s)), queue := []));
    var a := SmallBare(p).(kind := Turn);
    BareBuilds(sealed.mem, SectionsOf(sealed.chain.previous));
    hide Builds;
    ReachOn(u, sealed, Other(a, sealed.mem));
    w := Staged(sealed, a, sealed.mem, sealed.mem, true);
  }

  /** A turn ends a chain a final flush left: the disk is as it was captured, by the watcher's word, and the
      next flush has the chain to end again. (There a turn more may slip in:
      FinalFlush.CadenceRunner.CountedIntruder.) */
  lemma TurnAfterFlushIsReached(p: KeyPrefix, platform: Platform) returns (mark: World, w: World, turn: SnapArgs)
    ensures var u := Fresh(Blank(p, platform), BARE);
            Reaches(u, mark) && Reaches(u, w)
    ensures Steady(w) && Baseline(Some(Seal_(mark.changes, mark.staged, false)), mark, w) && EndsFinal(mark)
    ensures EveryWatched(w) && w.changes == mark.changes && !w.bulkPaused && w.chain.request.None?
    ensures w.chain.previous.Some? && !EndsFinal(w) && mark.others < w.others
    ensures turn.kind == Turn && Builds(w.mem, SectionsOf(w.chain.previous), w.disk, turn.built, w.mem)
  {
    hide Reaches;
    var u := Fresh(Blank(p, platform), BARE);
    mark := BareIsCaptured(u, p, platform);
    ReachedCoheres(u, mark);
    Still(mark);
    var sealed := Seal_(mark.changes, mark.staged, false);
    turn := SmallBare(p).(kind := Turn);
    BareBuilds(mark.mem, SectionsOf(mark.chain.previous));
    ReachOn(u, mark, Other(turn, mark.mem));
    w := Staged(mark, turn, mark.mem, mark.mem, true);
    TurnIsNewest(mark, turn, mark.mem);
    StagedMoves(mark, turn, mark.mem, mark.mem, true);
    BaselineStands(Some(sealed), mark, mark, w);
    hide Baseline;
    hide Steady;
    BareBuilds(w.mem, SectionsOf(w.chain.previous));
  }

  lemma TurnIsNewest(w: World, a: SnapArgs, after: Memory)
    requires Quiet(w.chain) && a.kind == Turn && CanSnap(w.chain, a) && w.chain.previous.Some?
    ensures var t := Staged(w, a, after, after, true);
            && t.others == w.others + 1 && !EndsFinal(t) && t.chain.previous.Some? && t.mem == after
            && SectionsOf(t.chain.previous) == Some(Apply(SectionsOf(w.chain.previous), a.built))
            && t.chain.request.None? && t.changes == w.changes && t.watching == w.watching && t.bulk == w.bulk
            && t.disk == w.disk
  {
    hide Spoils;
  }
}
