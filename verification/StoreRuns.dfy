/** Runs of the store model from an engine just opened: what happens to keys when a repair fails, or
    finds a bulk build that yielded (engine.rs, ship.rs). */
module StoreRuns {
  import opened Options
  import opened Captures
  import opened Chain
  import opened ChainSafety
  import opened Named
  import opened Store

  function Fresh(base: KeyPrefix): StoreState {
    StoreState(Opened(), map[], None, None, {}, {}, {}, {}, base, 0)
  }

  lemma FreshHolds(base: KeyPrefix)
    ensures StoreInv(Fresh(base)) && Clean(Fresh(base))
  {
  }

  lemma {:induction false} StoreRunsCompose(s: StoreState, first: seq<StoreStep>, second: seq<StoreStep>)
    requires IsStoreRun(s, first) && IsStoreRun(StoreAfter(s, first), second)
    ensures IsStoreRun(s, first + second)
    ensures StoreAfter(s, first + second) == StoreAfter(StoreAfter(s, first), second)
    decreases |first|
  {
    hide StoreEnabled;
    hide StoreNext;
    hide StoreDisciplined;
    var all := first + second;
    if first == [] {
      assert all == second;
    } else {
      assert all[0] == first[0] && all[1..] == first[1..] + second;
      var t := StoreNext(s, first[0]);
      assert IsStoreRun(t, first[1..]) && StoreAfter(s, first) == StoreAfter(t, first[1..]);
      StoreRunsCompose(t, first[1..], second);
      assert IsStoreRun(s, all) && StoreAfter(s, all) == StoreAfter(t, all[1..]);
    }
  }

  lemma Extend(s: StoreState, run: seq<StoreStep>, step: StoreStep) returns (longer: seq<StoreStep>)
    requires IsStoreRun(s, run)
    requires StoreEnabled(StoreAfter(s, run), step) && StoreDisciplined(StoreAfter(s, run), step)
    ensures IsStoreRun(s, longer) && StoreAfter(s, longer) == StoreNext(StoreAfter(s, run), step)
  {
    hide StoreEnabled;
    hide StoreNext;
    hide StoreDisciplined;
    assert [step][1..] == [];
    StoreRunsCompose(s, run, [step]);
    longer := run + [step];
  }

  lemma ExtendChain(s: StoreState, run: seq<StoreStep>, step: Step) returns (longer: seq<StoreStep>)
    requires IsStoreRun(s, run)
    requires Enabled(StoreAfter(s, run).chain, step) && Disciplined(StoreAfter(s, run).chain, step)
    requires !step.StepSnap? && !step.StepRepairBegin? && !step.StepRepairClass? && !step.StepRestart?
    requires step.StepRegister? ==>
               forall k :: k in StoreAfter(s, run).chain.ship.entry.uploads ==> k in StoreAfter(s, run).uploaded
    ensures IsStoreRun(s, longer)
    ensures StoreAfter(s, longer) == StoreAfter(s, run).(chain := Next(StoreAfter(s, run).chain, step))
  {
    longer := Extend(s, run, ChainStep(step));
  }

  lemma ExtendSnap(s: StoreState, run: seq<StoreStep>, a: SnapArgs, packed: Locations) returns (longer: seq<StoreStep>)
    requires IsStoreRun(s, run)
    requires var t := StoreAfter(s, run);
             && CanSnap(t.chain, a) && !Unchanged(t.chain, a) && a.prefix == Prefix(t)
             && BuildNames(t, a.built, packed, a.uploads)
    ensures IsStoreRun(s, longer)
    ensures var t := StoreAfter(s, run);
            StoreAfter(s, longer) ==
              Spent(t, ClassOf(a.built)).(chain := Snap(t.chain, a), locations := t.locations + packed)
  {
    hide BuildNames;
    hide Unchanged;
    longer := Extend(s, run, SnapStep(a, packed));
  }

  function KeysOf(uploads: seq<Key>): set<Key> {
    set k | k in uploads
  }

  /** The shipper puts what the front of the queue lists, up to `count` of it. */
  lemma UploadAll(s: StoreState, count: nat) returns (run: seq<StoreStep>)
    requires s.chain.queue != [] && count <= |s.chain.queue[0].uploads|
    ensures IsStoreRun(s, run)
    ensures StoreAfter(s, run) == s.(uploaded := s.uploaded + KeysOf(s.chain.queue[0].uploads[..count]))
    decreases count
  {
    var uploads := s.chain.queue[0].uploads;
    if count == 0 {
      run := [];
      assert KeysOf(uploads[..0]) == {};
    } else {
      run := UploadAll(s, count - 1);
      assert Listed(s.chain.queue, uploads[count - 1]);
      run := Extend(s, run, UploadStep(uploads[count - 1]));
      assert uploads[..count] == uploads[..count - 1] + [uploads[count - 1]];
      assert KeysOf(uploads[..count]) == KeysOf(uploads[..count - 1]) + {uploads[count - 1]};
    }
  }

  /** The front of the queue put and refused, and its repair asked for. */
  function FrontRefused(s: StoreState): StoreState
    requires s.chain.queue != []
  {
    var e := s.chain.queue[0];
    s.(uploaded := s.uploaded + KeysOf(e.uploads),
       chain := s.chain.(request := Some(RepairRequest(e.manifest.n, IdOf(e)))))
  }

  /** Once the front is put, the shipper has it refused and asks for its repair. */
  lemma AskForRepair(s: StoreState) returns (run: seq<StoreStep>)
    requires s.chain.queue != [] && s.chain.ship.Idle? && s.chain.request.None? && s.chain.repairing.None?
    requires s.chain.head != Some(s.chain.queue[0].manifest)
    requires forall k :: k in s.chain.queue[0].uploads ==> k in s.uploaded
    ensures var e := s.chain.queue[0];
            && IsStoreRun(s, run)
            && StoreAfter(s, run) == s.(chain := s.chain.(request := Some(RepairRequest(e.manifest.n, IdOf(e)))))
  {
    var e := s.chain.queue[0];
    run := [];
    assert StoreAfter(s, run) == s;
    hide IsStoreRun;
    hide StoreAfter;
    run := ExtendChain(s, run, StepClaim);
    run := ExtendChain(s, run, StepRegister(RefusedIt));
    run := ExtendChain(s, run, StepRelease);
    run := ExtendChain(s, run, StepAskRepair);
  }

  lemma RefuseFront(s: StoreState) returns (run: seq<StoreStep>)
    requires s.chain.queue != [] && s.chain.ship.Idle? && s.chain.request.None? && s.chain.repairing.None?
    requires s.chain.head != Some(s.chain.queue[0].manifest)
    ensures IsStoreRun(s, run) && StoreAfter(s, run) == FrontRefused(s)
  {
    hide IsStoreRun;
    hide StoreAfter;
    var e := s.chain.queue[0];
    run := UploadAll(s, |e.uploads|);
    assert e.uploads[..|e.uploads|] == e.uploads;
    var asked := AskForRepair(s.(uploaded := s.uploaded + KeysOf(e.uploads)));
    StoreRunsCompose(s, run, asked);
    run := run + asked;
  }

  // ----- A key no one lists --------------------------------------------------------------------

  function Under(base: KeyPrefix, generation: nat): KeyPrefix {
    base.(generation := Some(generation))
  }

  /** One pack of one chunk, as each generation names it. */
  function PackOf(base: KeyPrefix, generation: nat): Key {
    Key(Under(base, generation), Pack(["c"]))
  }

  function At(base: KeyPrefix, generation: nat): Locations {
    map[Chunk("c") := PackOf(base, generation)]
  }

  function SmallArgs(base: KeyPrefix): SnapArgs {
    SnapArgs(Auto, 0, "2026-09-12T10:11:12Z",
             SmallBuilt(GitSection([], {}), WorkspaceSection(Key(NO_PREFIX, Tree("w")), {PackOf(base, 0)}, {})),
             [PackOf(base, 0)], Under(base, 0))
  }

  function BulkArgs(base: KeyPrefix, generation: nat, uploads: seq<Key>): SnapArgs {
    SnapArgs(Auto, 0, "2026-09-12T10:11:12Z", BulkBuilt(BulkSection(Key(NO_PREFIX, Tree("b")), {}, "linux", {})),
             uploads, Under(base, generation))
  }

  /** The small capture staged. */
  function SmallStaged(base: KeyPrefix): StoreState {
    Fresh(base).(chain := Snap(Opened(), SmallArgs(base)), locations := At(base, 0))
  }

  lemma SmallNames(s: StoreState)
    requires s.generation == 0 && s.repairGit.None? && PreviousPacks(s.chain) == []
    ensures BuildNames(s, SmallArgs(s.base).built, At(s.base, 0), SmallArgs(s.base).uploads)
  {
    var all := s.locations + At(s.base, 0);
    assert all[Chunk("c")] == PackOf(s.base, 0);
  }

  lemma SmallIsStaged(base: KeyPrefix) returns (run: seq<StoreStep>)
    ensures IsStoreRun(Fresh(base), run) && StoreAfter(Fresh(base), run) == SmallStaged(base)
    ensures SmallStaged(base).chain.queue == [SnapEntry(Opened(), SmallArgs(base))]
  {
    var s, a := Fresh(base), SmallArgs(base);
    SmallNames(s);
    hide BuildNames;
    assert s.locations + At(base, 0) == At(base, 0);
    run := Extend(s, [], SnapStep(a, At(base, 0)));
  }

  /** And a bulk one on it. */
  function BothStaged(base: KeyPrefix): StoreState {
    SmallStaged(base).(chain := Snap(SmallStaged(base).chain, BulkArgs(base, 0, [])))
  }

  lemma BulkNames(s: StoreState, packed: Locations, uploads: seq<Key>)
    requires s.paused.None?
    requires forall item :: item in packed ==> packed[item] in uploads && Holds(item, packed[item])
    requires forall k :: k in uploads ==> k.prefix == Prefix(s)
    ensures BuildNames(s, BulkArgs(s.base, s.generation, uploads).built, packed, uploads)
  {
  }

  /** The two captures of the queue. */
  lemma BothQueued(base: KeyPrefix)
    ensures var c, b := SmallStaged(base).chain, BulkArgs(base, 0, []);
            && CanSnap(c, b) && !Unchanged(c, b)
            && BothStaged(base).chain == c.(queue := [SnapEntry(Opened(), SmallArgs(base)), SnapEntry(c, b)],
                                            previous := Some(Encode(SnapManifest(c, b))), below := c.previous)
  {
    var c, b := SmallStaged(base).chain, BulkArgs(base, 0, []);
    assert c.queue == [SnapEntry(Opened(), SmallArgs(base))];
    assert c.queue + [SnapEntry(c, b)] == [SnapEntry(Opened(), SmallArgs(base)), SnapEntry(c, b)];
    assert c.previous.value.manifest.sections.bulk.Pending? && SnapSections(c, b).bulk.Ready?;
  }

  lemma BulkAfterSmall(base: KeyPrefix)
    ensures var s, b := SmallStaged(base), BulkArgs(base, 0, []);
            && CanSnap(s.chain, b) && !Unchanged(s.chain, b) && b.prefix == Prefix(s)
            && BuildNames(s, b.built, map[], b.uploads)
            && Spent(s, ClassOf(b.built)).(chain := Snap(s.chain, b), locations := s.locations + map[]) == BothStaged(base)
  {
    hide Snap;
    hide Unchanged;
    hide BuildNames;
    var s := SmallStaged(base);
    BothQueued(base);
    BulkNames(s, map[], []);
    assert s.locations + map[] == s.locations;
  }

  lemma BothAreStaged(base: KeyPrefix) returns (run: seq<StoreStep>)
    ensures IsStoreRun(Fresh(base), run) && StoreAfter(Fresh(base), run) == BothStaged(base)
  {
    run := SmallIsStaged(base);
    BulkAfterSmall(base);
    hide *;
    run := ExtendSnap(Fresh(base), run, BulkArgs(base, 0, []), map[]);
  }

  /** What a repair of the small capture alone, its pack missing, does. */
  lemma SmallPlan(base: KeyPrefix)
    ensures PlanRepair(SnapEntry(Opened(), SmallArgs(base)), {PackOf(base, 0)})
            == Plan({Small}, {PackOf(base, 0)}, {})
  {
    var x := SnapEntry(Opened(), SmallArgs(base)).manifest.sections;
    assert PackOf(base, 0) in {PackOf(base, 0)} * ClassKeys(x, Small);
  }

  /** The small capture at the front of the queue, and nothing repaired so far. */
  predicate SmallInFront(s: StoreState) {
    && s.generation == 0 && s.repairGit.None? && s.condemned == {} && s.rebuilt == {} && s.locations == At(s.base, 0)
    && s.chain.queue != [] && s.chain.queue[0] == SnapEntry(Opened(), SmallArgs(s.base))
    && s.chain.head.None? && s.chain.ship.Idle? && s.chain.request.None? && s.chain.repairing.None?
    && PreviousPacks(s.chain) == []
  }

  /** Its repair, its pack missing, may be taken up. */
  lemma SmallRefused(s: StoreState)
    requires SmallInFront(s)
    ensures var t, step := FrontRefused(s), BeginStep({PackOf(s.base, 0)});
            && StoreEnabled(t, step)
            && StoreNext(t, step) ==
                 t.(chain := RepairBegin(t.chain, {PackOf(s.base, 0)}), locations := map[],
                    paused := t.paused, rebuilds := {Small}, condemned := {PackOf(s.base, 0)}, generation := 1)
  {
    SmallPlan(s.base);
    var t := FrontRefused(s);
    assert Asks(t.chain.request.value, t.chain.queue[0]);
    assert RefusedAt(t.chain) == 0;
    hide PlanRepair;
    assert StoreNext(t, BeginStep({PackOf(s.base, 0)})).locations == map[];
  }

  /** The repair failed after it was taken up. */
  function RepairFailed(s: StoreState): StoreState
    requires SmallInFront(s)
  {
    FrontRefused(s).(locations := map[], rebuilds := {Small}, condemned := {PackOf(s.base, 0)}, generation := 1)
  }

  lemma RepairFails(s: StoreState) returns (run: seq<StoreStep>)
    requires SmallInFront(s)
    ensures IsStoreRun(s, run) && StoreAfter(s, run) == RepairFailed(s)
  {
    run := RefuseFront(s);
    SmallRefused(s);
    hide IsStoreRun;
    hide StoreAfter;
    hide StoreEnabled;
    hide StoreNext;
    run := Extend(s, run, BeginStep({PackOf(s.base, 0)}));
    run := ExtendChain(s, run, StepRepairFail);
  }

  lemma BothInFront(base: KeyPrefix)
    ensures SmallInFront(BothStaged(base))
  {
    BothQueued(base);
  }

  /** It happens: a pack is staged, refused and forgotten, the repair fails, and a bulk snap that finds
      nothing new reads the chunk again (a torn read its tree does not keep). Its pack is a file the
      queue lists under the old key, so the chunk map keeps the new one, which no one lists. */
  lemma UnlistedKeyIsReached(base: KeyPrefix) returns (run: seq<StoreStep>)
    ensures IsStoreRun(Fresh(base), run)
    ensures var s, a := StoreAfter(Fresh(base), run), BulkArgs(base, 1, [PackOf(base, 1)]);
            && StoreEnabled(s, SnapStep(a, At(base, 1))) && Unchanged(s.chain, a)
            && !KeysAgree(s, a, At(base, 1))
            && !Findable(StoreNext(s, SnapStep(a, At(base, 1))))
  {
    run := BothAreStaged(base);
    BothInFront(base);
    hide *;
    var fails := RepairFails(BothStaged(base));
    StoreRunsCompose(Fresh(base), run, fails);
    run := run + fails;
    KeyGoesUnlisted(base);
  }

  lemma KeyGoesUnlisted(base: KeyPrefix)
    requires SmallInFront(BothStaged(base))
    ensures var s, a := RepairFailed(BothStaged(base)), BulkArgs(base, 1, [PackOf(base, 1)]);
            && StoreEnabled(s, SnapStep(a, At(base, 1))) && Unchanged(s.chain, a)
            && !KeysAgree(s, a, At(base, 1))
            && !Findable(StoreNext(s, SnapStep(a, At(base, 1))))
  {
    var s, a := RepairFailed(BothStaged(base)), BulkArgs(base, 1, [PackOf(base, 1)]);
    hide BothStaged;
    BulkNames(s, At(base, 1), [PackOf(base, 1)]);
    hide BuildNames;
    NothingNew(base);
    KeyIsNew(base);
    hide Unchanged;
    hide KeysAgree;
    SnapKeepsFindable(s, a, At(base, 1));
  }

  lemma NothingNew(base: KeyPrefix)
    ensures SmallInFront(BothStaged(base))
    ensures var s, a := RepairFailed(BothStaged(base)), BulkArgs(base, 1, [PackOf(base, 1)]);
            CanSnap(s.chain, a) && Unchanged(s.chain, a)
  {
    BothInFront(base);
    BothQueued(base);
    var c, b := SmallStaged(base).chain, BulkArgs(base, 0, []);
    var s, a := RepairFailed(BothStaged(base)), BulkArgs(base, 1, [PackOf(base, 1)]);
    var x := s.chain.previous.value.manifest.sections;
    assert x == SnapSections(c, b);
    assert x.otherBulk == map[];
    assert OtherBulkAfter(x, Ready(a.built.bulk)) == map[];
  }

  lemma KeyIsNew(base: KeyPrefix)
    ensures SmallInFront(BothStaged(base))
    ensures var s, a := RepairFailed(BothStaged(base)), BulkArgs(base, 1, [PackOf(base, 1)]); !KeysAgree(s, a, At(base, 1))
  {
    BothInFront(base);
    BothQueued(base);
    var s := RepairFailed(BothStaged(base));
    var q := s.chain.queue;
    AddNewKeys([], [PackOf(base, 0)], PackOf(base, 0));
    AddNewKeys([], [PackOf(base, 0)], PackOf(base, 1));
    AddNewKeys([], [], PackOf(base, 1));
    assert PackOf(base, 0) in q[0].uploads && PackOf(base, 1) !in q[0].uploads && PackOf(base, 1) !in q[1].uploads;
    var j :| 0 <= j < |q[0].uploads| && q[0].uploads[j] == PackOf(base, 0);
    assert ObjectListed(q, Pack(["c"]));
    assert Chunk("c") in At(base, 1);
  }

  // ----- A condemned key brought back ----------------------------------------------------------

  /** A small snap of an empty workspace. */
  function EmptyArgs(base: KeyPrefix): SnapArgs {
    SmallArgs(base).(
      built := SmallBuilt(GitSection([], {}), WorkspaceSection(Key(NO_PREFIX, Tree("e")), {}, {})),
      uploads := [])
  }

  function Yielded(base: KeyPrefix): Option<Work> {
    Some(Work(At(base, 0), [PackOf(base, 0)]))
  }

  lemma EmptyIsStaged(base: KeyPrefix) returns (run: seq<StoreStep>)
    ensures IsStoreRun(Fresh(base), run)
    ensures StoreAfter(Fresh(base), run) == Fresh(base).(chain := Snap(Opened(), EmptyArgs(base)), paused := Yielded(base))
  {
    var s, a := Fresh(base), EmptyArgs(base);
    assert BuildNames(s, a.built, map[], a.uploads);
    hide BuildNames;
    run := ExtendSnap(s, [], a, map[]);
    var t := s.(chain := Snap(Opened(), a));
    assert t.locations + map[] == t.locations;
    assert t.chain.previous.Some? && t.chain.repairing.None?;
    hide Snap;
    run := Extend(s, run, PauseStep(At(base, 0), [PackOf(base, 0)]));
    assert (map[] + At(base, 0)) == At(base, 0) && [] + [PackOf(base, 0)] == [PackOf(base, 0)];
  }

  lemma NothingKept(keys: seq<Key>, keep: Key -> bool)
    requires forall k :: k in keys ==> !keep(k)
    ensures Keep(keys, keep) == []
  {
  }

  /** The empty capture alone in the queue. */
  lemma EmptyQueued(base: KeyPrefix)
    ensures var e := SnapEntry(Opened(), EmptyArgs(base));
            && Snap(Opened(), EmptyArgs(base)) == Opened().(queue := [e], previous := Some(Encode(e.manifest)))
            && KeptOnCoalesce(e, Small) == [] && e.class_ == Some(Small)
            && e.manifest.n == 0 && e.manifest.parent.None? && e.manifest.kind == Auto
            && e.manifest.sections.bulk.Pending? && e.manifest.sections.otherBulk == map[]
            && e.manifest.sections.workspace == EmptyArgs(base).built.workspace
  {
    var e := SnapEntry(Opened(), EmptyArgs(base));
    assert e.uploads == [ManifestKey(Under(base, 0), e.manifest)];
    NothingKept(e.uploads, (k: Key) => IsPackFile(k.object_) || (e.class_ != Some(Small) && k.object_.Tree?));
  }

  /** The small capture takes the empty one's place, as if that had never been staged. */
  lemma SmallTakesPlace(base: KeyPrefix)
    ensures var c := Snap(Opened(), EmptyArgs(base));
            && CanSnap(c, SmallArgs(base)) && !Unchanged(c, SmallArgs(base))
            && Snap(c, SmallArgs(base)) == SmallStaged(base).chain
  {
    var e, a := SnapEntry(Opened(), EmptyArgs(base)), SmallArgs(base);
    EmptyQueued(base);
    var c := Opened().(queue := [e], previous := Some(Encode(e.manifest)));
    hide EmptyArgs;
    assert Coalesced(c, a) == Some(e);
    assert c.queue[..0] + [SnapEntry(c, a)] == [SnapEntry(c, a)];
    assert SnapManifest(c, a) == SnapManifest(Opened(), a);
  }

  function WorkHeld(base: KeyPrefix): StoreState {
    Fresh(base).(chain := Snap(Opened(), EmptyArgs(base)), paused := Yielded(base))
  }

  lemma NoPacksBefore(base: KeyPrefix)
    ensures PreviousPacks(WorkHeld(base).chain) == []
  {
  }

  lemma SmallAfterWork(base: KeyPrefix)
    ensures var w, a := WorkHeld(base), SmallArgs(base);
            && CanSnap(w.chain, a) && !Unchanged(w.chain, a) && a.prefix == Prefix(w)
            && BuildNames(w, a.built, At(base, 0), a.uploads)
            && Spent(w, ClassOf(a.built)).(chain := Snap(w.chain, a), locations := w.locations + At(base, 0))
               == SmallStaged(base).(paused := Yielded(base))
  {
    hide Snap;
    hide Unchanged;
    hide BuildNames;
    hide PreviousPacks;
    var w := WorkHeld(base);
    NoPacksBefore(base);
    SmallTakesPlace(base);
    SmallNames(w);
    assert w.locations + At(base, 0) == At(base, 0);
  }

  lemma WorkIsHeld(base: KeyPrefix) returns (run: seq<StoreStep>)
    ensures IsStoreRun(Fresh(base), run) && StoreAfter(Fresh(base), run) == SmallStaged(base).(paused := Yielded(base))
  {
    run := EmptyIsStaged(base);
    SmallAfterWork(base);
    assert StoreAfter(Fresh(base), run) == WorkHeld(base);
    hide *;
    run := ExtendSnap(Fresh(base), run, SmallArgs(base), At(base, 0));
  }

  lemma SmallRevives(s: StoreState)
    requires SmallInFront(s) && s.paused == Yielded(s.base)
    ensures StoreEnabled(FrontRefused(s), BeginStep({PackOf(s.base, 0)}))
    ensures Revives(FrontRefused(s), BeginStep({PackOf(s.base, 0)}))
  {
    SmallRefused(s);
    SmallPlan(s.base);
    hide PlanRepair;
    var t := FrontRefused(s);
    assert Asks(t.chain.request.value, t.chain.queue[0]);
    assert RefusedAt(t.chain) == 0;
    assert PackOf(s.base, 0) in s.paused.value.packs;
  }

  /** It happens: a bulk build yields having packed a chunk, a small snap packs the same chunk to the
      same pack, and that pack is refused. The repair of the small class leaves the build's work. */
  lemma RevivalIsReached(base: KeyPrefix) returns (run: seq<StoreStep>)
    ensures IsStoreRun(Fresh(base), run)
    ensures var s, step := StoreAfter(Fresh(base), run), BeginStep({PackOf(base, 0)});
            && StoreEnabled(s, step) && Revives(s, step)
            && StoreNext(s, step).paused == Yielded(base) && PackOf(base, 0) in StoreNext(s, step).condemned
  {
    run := WorkIsHeld(base);
    var e := SmallIsStaged(base);
    var s := SmallStaged(base).(paused := Yielded(base));
    SmallRefused(s);
    SmallRevives(s);
    hide IsStoreRun;
    hide StoreAfter;
    hide Revives;
    hide StoreNext;
    hide StoreEnabled;
    var refused := RefuseFront(s);
    StoreRunsCompose(Fresh(base), run, refused);
    run := run + refused;
  }
}
