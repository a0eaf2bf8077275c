/** Where the engine believes each chunk and dir object is stored, and what the queue still has to
    upload: every believed location is in the store or listed by a queued capture, and a repair never
    names or uploads a condemned key again (engine.rs). */
module Store {
  import opened Options
  import opened Captures
  import opened Chain
  import opened ChainSafety
  import opened Named
  import Git

  /** Something a section refers to by content: a chunk, shared by both classes, or a dir object of
      one class. */
  datatype Item = Chunk(id: string) | Dir(class_: Class, sha: string)

  type Locations = map<Item, Key>

  /** The key is of a pack that holds the item. */
  predicate Holds(item: Item, k: Key) {
    PackHolds(k, match item case Chunk(id) => id case Dir(_, sha) => sha)
  }

  /** A bulk build that yielded: the packs its attempts finished, and what they hold. */
  datatype Work = Work(chunks: Locations, packs: seq<Key>)

  /** `uploaded` is what was ever put in the store, `condemned` what refusals named. `repairGit` and
      `paused` are the engine's, and go with its process. */
  datatype StoreState = StoreState(
    chain: State,
    locations: Locations,
    paused: Option<Work>,
    repairGit: Option<set<Key>>,      // the git packs the next small build lists no more
    rebuilds: set<Class>,             // the classes the repair under way rebuilds
    rebuilt: set<Class>,              // of those, the ones rebuilt so far
    uploaded: set<Key>,
    condemned: set<Key>,
    base: KeyPrefix,
    generation: nat)

  function Prefix(s: StoreState): KeyPrefix {
    s.base.(generation := Some(s.generation))
  }

  predicate Listed(q: seq<QueueEntry>, k: Key) {
    exists i :: 0 <= i < |q| && k in q[i].uploads
  }

  predicate ObjectListed(q: seq<QueueEntry>, o: Object) {
    exists i, j :: 0 <= i < |q| && 0 <= j < |q[i].uploads| && q[i].uploads[j].object_ == o
  }

  /** Every believed location is stored or will be uploaded. */
  predicate Findable(s: StoreState) {
    forall item :: item in s.locations ==>
      s.locations[item] in s.uploaded || Listed(s.chain.queue, s.locations[item])
  }

  // ----- What each staging step does to the keys listed ----------------------------------------

  lemma {:induction false} AddNewKeys(keys: seq<Key>, more: seq<Key>, k: Key)
    ensures k in AddNew(keys, more) <==> k in keys || k in more
    decreases |more|
  {
    if more != [] {
      var keys' := if more[0] in keys then keys else keys + [more[0]];
      AddNewKeys(keys', more[1..], k);
      assert more == [more[0]] + more[1..];
    }
  }

  lemma {:induction false} KeepKeys(keys: seq<Key>, keep: Key -> bool, k: Key)
    ensures k in Keep(keys, keep) <==> k in keys && keep(k)
  {
    if keys != [] {
      KeepKeys(keys[1..], keep, k);
      assert keys == [keys[0]] + keys[1..];
    }
  }

  lemma {:induction false} KeptOnRepairKeys(folded: seq<QueueEntry>, forget: set<Key>, k: Key)
    ensures k in KeptOnRepair(folded, forget) <==>
              !k.object_.ManifestObject? && k !in forget && Listed(folded, k)
  {
    if folded != [] {
      var front := folded[..|folded| - 1];
      var keep := (k: Key) => !k.object_.ManifestObject? && k !in forget;
      KeptOnRepairKeys(front, forget, k);
      KeepKeys(Last(folded).uploads, keep, k);
      AddNewKeys(KeptOnRepair(front, forget), Keep(Last(folded).uploads, keep), k);
      assert Listed(folded, k) <==> Listed(front, k) || k in Last(folded).uploads by {
        if Listed(folded, k) {
          var i :| 0 <= i < |folded| && k in folded[i].uploads;
          assert i < |front| ==> front[i] == folded[i];
        }
        if Listed(front, k) {
          var i :| 0 <= i < |front| && k in front[i].uploads;
          assert folded[i] == front[i];
        }
      }
    }
  }

  /** A queue cut and staged over lists what stayed below the cut and what is on top. */
  lemma ListedAfterCut(q: seq<QueueEntry>, cut: nat, top: seq<QueueEntry>, k: Key)
    requires cut <= |q|
    ensures Listed(q[..cut] + top, k) <==> Listed(q[..cut], k) || Listed(top, k)
    ensures Listed(q, k) <==> Listed(q[..cut], k) || Listed(q[cut..], k)
  {
    var t := q[..cut] + top;
    if Listed(t, k) {
      var i :| 0 <= i < |t| && k in t[i].uploads;
      assert i < cut ==> q[..cut][i] == t[i];
      assert i >= cut ==> top[i - cut] == t[i];
    }
    if Listed(q[..cut], k) {
      var i :| 0 <= i < cut && k in q[..cut][i].uploads;
      assert t[i] == q[..cut][i] == q[i];
    }
    if Listed(top, k) {
      var i :| 0 <= i < |top| && k in top[i].uploads;
      assert t[cut + i] == top[i];
    }
    if Listed(q, k) {
      var i :| 0 <= i < |q| && k in q[i].uploads;
      assert i < cut ==> q[..cut][i] == q[i];
      assert i >= cut ==> q[cut..][i - cut] == q[i];
    }
    if Listed(q[cut..], k) {
      var i :| 0 <= i < |q| - cut && k in q[cut..][i].uploads;
      assert q[cut + i] == q[cut..][i];
    }
  }

  lemma ListedOne(e: QueueEntry, k: Key)
    ensures Listed([e], k) <==> k in e.uploads
  {
    assert [e][0] == e;
  }

  lemma EntryLists(s: State, a: SnapArgs, k: Key)
    requires CanSnap(s, a)
    ensures k in a.uploads ==> k in SnapEntry(s, a).uploads
    ensures Coalesced(s, a).Some? && k in Coalesced(s, a).value.uploads && IsPackFile(k.object_) ==>
              k in SnapEntry(s, a).uploads
  {
    var class_ := ClassOf(a.built);
    match Coalesced(s, a) {
      case Some(replaced) =>
        KeepKeys(replaced.uploads,
                 (k: Key) => IsPackFile(k.object_) || (replaced.class_ != Some(class_) && k.object_.Tree?), k);
        AddNewKeys(KeptOnCoalesce(replaced, class_), a.uploads, k);
      case None =>
        AddNewKeys([], a.uploads, k);
    }
  }

  lemma MovedLists(bulk: QueueEntry, small: Manifest, prefix: KeyPrefix, k: Key)
    ensures k in bulk.uploads && IsPackFile(k.object_) ==> k in MovedEntry(bulk, small, prefix).uploads
  {
    KeepKeys(bulk.uploads, (k: Key) => k.object_ != ManifestObject(IdOf(bulk)), k);
  }

  /** What the new captures list: the snap's own uploads, and the packs of every one they replace. */
  lemma TopListsPacks(s: State, a: SnapArgs, k: Key)
    requires CanSnap(s, a)
    ensures k in a.uploads ==> Listed(SnapTop(s, a), k)
    ensures Listed(s.queue[Cut(s, a)..], k) && IsPackFile(k.object_) ==> Listed(SnapTop(s, a), k)
  {
    EntryLists(s, a, k);
    var cut, entry := Cut(s, a), SnapEntry(s, a);
    assert SnapTop(s, a)[0] == entry;
    hide SnapEntry;
    hide Cut;
    if Listed(s.queue[cut..], k) && IsPackFile(k.object_) {
      var j :| 0 <= j < |s.queue| - cut && k in s.queue[cut..][j].uploads;
      if Hoists(s, ClassOf(a.built)) && cut + j == |s.queue| - 1 {
        MovedLists(Last(s.queue), entry.manifest, a.prefix, k);
        assert SnapTop(s, a)[1] == MovedEntry(Last(s.queue), entry.manifest, a.prefix);
      } else {
        CutTakes(s, a, cut + j);
      }
    }
  }

  /** A snap that stages loses no pack: whatever pack the queue listed it still lists, and it lists
      the snap's own uploads. Coalescing, hoisting and moving keep them all. */
  lemma SnapListsPacks(s: State, a: SnapArgs, k: Key)
    requires CanSnap(s, a) && !Unchanged(s, a)
    ensures k in a.uploads ==> Listed(Snap(s, a).queue, k)
    ensures Listed(s.queue, k) && IsPackFile(k.object_) ==> Listed(Snap(s, a).queue, k)
  {
    hide Snap;
    hide SnapTop;
    hide Unchanged;
    SnapQueueIs(s, a);
    TopListsPacks(s, a, k);
    ListedAfterCut(s.queue, Cut(s, a), SnapTop(s, a), k);
  }

  /** What a snap puts on the queue: its capture, and the bulk capture it is staged ahead of. */
  function SnapTop(s: State, a: SnapArgs): seq<QueueEntry>
    requires CanSnap(s, a)
  {
    var entry := SnapEntry(s, a);
    if Hoists(s, ClassOf(a.built)) then [entry, MovedEntry(Last(s.queue), entry.manifest, a.prefix)] else [entry]
  }

  lemma SnapQueueIs(s: State, a: SnapArgs)
    requires CanSnap(s, a) && !Unchanged(s, a)
    ensures Snap(s, a).queue == s.queue[..Cut(s, a)] + SnapTop(s, a)
  {
  }

  /** What a snap replaces it coalesces with. */
  lemma CutTakes(s: State, a: SnapArgs, i: nat)
    requires Cut(s, a) <= i < |s.queue| && !(Hoists(s, ClassOf(a.built)) && i == |s.queue| - 1)
    ensures Coalesced(s, a) == Some(s.queue[i])
  {
  }

  // ----- Steps ---------------------------------------------------------------------------------

  function PreviousPacks(c: State): seq<Key> {
    if c.previous.Some? then c.previous.value.manifest.sections.git.packs else []
  }

  /** What the attempts before this build finished: a bulk build that yielded is resumed. */
  function Resumed(s: StoreState, class_: Class): Work {
    if class_ == Bulk && s.paused.Some? then s.paused.value else Work(map[], [])
  }

  /** What a class's build names and stages: its items are where they were or in the packs it uploads,
      and those are new or an earlier attempt's. Module ClassBuild has the build. */
  predicate SectionNames(s: StoreState, class_: Class, root: Key, packs: set<Key>, dirPacks: set<Key>, packed: Locations,
                         uploads: seq<Key>)
  {
    var work := Resumed(s, class_);
    var all := (s.locations + packed).Values;
    && (forall item :: item in packed ==> packed[item] in uploads && Holds(item, packed[item]))
    && (forall item :: item in work.chunks ==> item in packed && packed[item] == work.chunks[item])
    && (forall k :: k in work.packs ==> k in uploads)
    && (forall k :: k in uploads ==> k.prefix == Prefix(s) || k in work.packs)
    && packs <= all && dirPacks <= all && IsRoot(s, root)
  }

  predicate BuildNames(s: StoreState, built: Built, packed: Locations, uploads: seq<Key>) {
    match built
    case SmallBuilt(git, w) =>
      SectionNames(s, Small, w.root, w.packs, w.dirPacks, packed, uploads) && GitNames(s, git, uploads)
    case BulkBuilt(b) => SectionNames(s, Bulk, b.root, b.packs, b.dirPacks, packed, uploads)
  }

  predicate IsRoot(s: StoreState, root: Key) {
    root.object_.Tree? && (root.prefix == Prefix(s) || root.prefix == NO_PREFIX)
  }

  /** The packs of the capture before, but for the ones to repair, and this build's own. */
  predicate GitNames(s: StoreState, git: GitSection, uploads: seq<Key>) {
    var kept := Git.Kept(PreviousPacks(s.chain), s.repairGit);
    && kept <= git.packs
    && forall i :: |kept| <= i < |git.packs| ==>
         git.packs[i] in uploads && git.packs[i].prefix == Prefix(s) && git.packs[i].object_.GitPack?
  }

  datatype StoreStep =
    | SnapStep(snap: SnapArgs, packed: Locations)
    | PauseStep(packed: Locations, packs: seq<Key>)   // a bulk build yields, keeping its packs
    | AbandonStep                                     // a bulk build fails, and its packs with it
    | BeginStep(missing: set<Key>)                    // a repair is taken up
    | RebuildStep(rebuild: SnapArgs, packed: Locations)
    | UploadStep(key: Key)
    | ChainStep(step: Step)                           // everything else the chain does

  /** What taking up a repair decides: the classes to rebuild, the keys to forget, and the git packs
      among them. */
  datatype Plan = Plan(classes: set<Class>, forget: set<Key>, git: set<Key>)

  function PlanRepair(target: QueueEntry, missing: set<Key>): Plan {
    var x := target.manifest.sections;
    var git := Git.GitMissing(x.git.packs, missing);
    var small := git != {} || missing * ClassKeys(x, Small) != {};
    var bulk := missing * ClassKeys(x, Bulk) != {};
    var classes := if small || bulk then (if small then {Small} else {}) + (if bulk then {Bulk} else {})
                   else if IsBulk(target) then {Bulk} else {Small};
    var forget := if missing != {} then missing
                  else (if Small in classes then ClassKeys(x, Small) else {})
                       + (if Bulk in classes then ClassKeys(x, Bulk) else {});
    Plan(classes, forget, git)
  }

  /** A refusal names keys written so far, and no git pack that only a capture staged after the
      refused one lists: the registrar has not seen that one. */
  predicate Attributable(s: StoreState, target: QueueEntry, missing: set<Key>) {
    forall k :: k in missing ==>
      && Older(s.base, s.generation, k)
      && (k in PreviousPacks(s.chain) ==> k in target.manifest.sections.git.packs)
  }

  /** Where the capture to repair is queued; past the end when it is not. */
  function RefusedAt(c: State): nat
    requires c.request.Some?
  {
    Position(c.queue, c.request.value)
  }

  predicate StoreEnabled(s: StoreState, step: StoreStep) {
    match step
    case SnapStep(a, packed) => CanSnap(s.chain, a) && a.prefix == Prefix(s) && BuildNames(s, a.built, packed, a.uploads)
    case PauseStep(packed, packs) =>
      && s.chain.repairing.None? && s.chain.previous.Some?
      && (forall item :: item in packed ==> packed[item] in packs && Holds(item, packed[item]))
      && (forall k :: k in packs ==> k.prefix == Prefix(s) && k.object_.Pack?)
    case AbandonStep => true
    case BeginStep(missing) =>
      && s.chain.repairing.None? && s.chain.request.Some?
      && (RefusedAt(s.chain) < |s.chain.queue| ==> Attributable(s, s.chain.queue[RefusedAt(s.chain)], missing))
    case RebuildStep(a, packed) =>
      && CanRepair(s.chain, a) && a.prefix == Prefix(s) && ClassOf(a.built) in s.rebuilds
      && BuildNames(s, a.built, packed, a.uploads)
    case UploadStep(k) => Listed(s.chain.queue, k)
    case ChainStep(step) =>
      && !step.StepSnap? && !step.StepRepairBegin? && !step.StepRepairClass? && Enabled(s.chain, step)
      && (step.StepRegister? ==> forall k :: k in s.chain.ship.entry.uploads ==> k in s.uploaded)
  }

  /** The uploads of a snap that found nothing new whose files no queued capture lists: removed. */
  predicate Dropped(s: StoreState, a: SnapArgs, k: Key) {
    k in a.uploads && !ObjectListed(s.chain.queue, k.object_)
  }

  /** A build takes up what it resumed, and a small one the git packs to repair. */
  function Spent(s: StoreState, class_: Class): StoreState {
    if class_ == Bulk then s.(paused := None) else s.(repairGit := None)
  }

  function Begun(s: StoreState, plan: Plan): StoreState {
    s.(chain := s.chain,
       locations := map item | item in s.locations && s.locations[item] !in plan.forget :: s.locations[item],
       paused := if Bulk in plan.classes then None else s.paused,
       repairGit := if plan.git == {} then s.repairGit else Some(Git.WithIndexes(plan.git)),
       rebuilds := plan.classes,
       rebuilt := {},
       condemned := s.condemned + plan.forget,
       generation := s.generation + 1)
  }

  function StoreNext(s: StoreState, step: StoreStep): StoreState
    requires StoreEnabled(s, step)
  {
    match step
    case SnapStep(a, packed) =>
      var all := s.locations + packed;
      var t := Spent(s, ClassOf(a.built));
      if Unchanged(s.chain, a) then
        t.(locations := map item | item in all && !Dropped(s, a, all[item]) :: all[item])
      else t.(chain := Snap(s.chain, a), locations := all)
    case PauseStep(packed, packs) =>
      var work := Resumed(s, Bulk);
      s.(paused := Some(Work(work.chunks + packed, work.packs + packs)))
    case AbandonStep => s.(paused := None)
    case BeginStep(missing) =>
      var at := RefusedAt(s.chain);
      if at < |s.chain.queue| then
        var plan := PlanRepair(s.chain.queue[at], missing);
        Begun(s, plan).(chain := RepairBegin(s.chain, plan.forget))
      else s.(chain := RepairBegin(s.chain, {}))
    case RebuildStep(a, packed) =>
      Spent(s, ClassOf(a.built)).(chain := RepairClass(s.chain, a), locations := s.locations + packed,
                                  rebuilt := s.rebuilt + {ClassOf(a.built)})
    case UploadStep(k) => s.(uploaded := s.uploaded + {k})
    case ChainStep(step) =>
      var t := s.(chain := Next(s.chain, step));
      if step.StepRestart? then t.(paused := None, repairGit := None) else t
  }

  // ----- Invariants ----------------------------------------------------------------------------

  /** What a repair folds is the end of the queue, from the refused capture on. */
  predicate TailIsFolded(c: State) {
    c.repairing.Some? ==>
      var r := c.repairing.value;
      && |r.followers| < |c.queue|
      && c.queue[|c.queue| - 1 - |r.followers|..] == Folded(r)
      && IndexAt(c.queue, r.target.manifest.n) == |c.queue| - 1 - |r.followers|
  }

  /** A registered capture's objects were all put; what the shipper holds is the front of the queue. */
  predicate RegisteredUploaded(s: StoreState) {
    && (s.chain.ship.Claimed? || s.chain.ship.Registered? ==>
          s.chain.queue != [] && s.chain.queue[0] == s.chain.ship.entry)
    && (s.chain.ship.Registered? ==> forall k :: k in s.chain.ship.entry.uploads ==> k in s.uploaded)
  }

  /** Each item is in the pack its key names, of a generation so far. */
  predicate InPacks(s: StoreState, at: Locations) {
    forall item :: item in at ==> Holds(item, at[item]) && Older(s.base, s.generation, at[item])
  }

  /** What a bulk build that yielded holds is in the packs it will upload. */
  predicate PausedInPacks(s: StoreState) {
    s.paused.Some? ==>
      && InPacks(s, s.paused.value.chunks)
      && (forall item :: item in s.paused.value.chunks ==> s.paused.value.chunks[item] in s.paused.value.packs)
      && (forall k :: k in s.paused.value.packs ==> k.object_.Pack? && Older(s.base, s.generation, k))
  }

  /** While a repair runs: nothing the engine would name is what it forgot, a git pack it forgot is
      one the next small build lists no more, and nothing yielded is left of a class to rebuild. */
  predicate Forgetting(s: StoreState) {
    s.chain.repairing.Some? ==>
      var forget := s.chain.repairing.value.forget;
      && (forall item :: item in s.locations ==> s.locations[item] !in forget)
      && (forall k :: k in forget ==> k.prefix != Prefix(s))
      && (forall k :: k in PreviousPacks(s.chain) && k in forget ==> s.repairGit.Some? && k in s.repairGit.value)
      && (Bulk in s.rebuilds ==> s.paused.None?)
      && forget <= s.condemned
      && s.rebuilt <= s.rebuilds
      && (forall class_ :: class_ in s.rebuilt ==> NewestNames(s.chain, class_) !! forget)
      && (s.rebuilt != {} ==>
            && s.chain.repairing.value.followers == []
            && forall k :: k in s.chain.repairing.value.target.uploads ==> k !in forget)
  }

  /** The store keys a class's section names; a bare digest is none. */
  function NamedKeys(x: Sections, class_: Class): set<Key> {
    var git := if class_ == Small then (set k | k in x.git.packs) else {};
    set k | k in ClassKeys(x, class_) + git && k.prefix != NO_PREFIX
  }

  function NewestNames(c: State, class_: Class): set<Key> {
    if c.previous.Some? then NamedKeys(c.previous.value.manifest.sections, class_) else {}
  }

  /** What is kept of the keys. */
  predicate KeysInv(s: StoreState) {
    && Findable(s)
    && InPacks(s, s.locations)
    && PausedInPacks(s)
    && RegisteredUploaded(s)
    && Forgetting(s)
  }

  predicate StoreInv(s: StoreState) {
    && Guarded(s.chain)
    && TailIsFolded(s.chain)
    && AllSound(s.base, s.generation, s.chain)
    && KeysInv(s)
  }

  // ----- What a build names --------------------------------------------------------------------

  lemma {:induction false} KeptKeys(packs: seq<Key>, missing: Option<set<Key>>, k: Key)
    ensures k in Git.Kept(packs, missing) <==> k in packs && (missing.Some? ==> k !in missing.value)
  {
    if packs != [] {
      KeptKeys(packs[1..], missing, k);
      assert packs == [packs[0]] + packs[1..];
    }
  }

  /** A git pack listed is the previous capture's and not to be repaired, or this build's. */
  lemma GitListed(s: StoreState, git: GitSection, uploads: seq<Key>, k: Key)
    requires GitNames(s, git, uploads) && k in git.packs
    ensures || (k in PreviousPacks(s.chain) && (s.repairGit.Some? ==> k !in s.repairGit.value))
            || (k in uploads && k.prefix == Prefix(s) && k.object_.GitPack?)
  {
    var kept := Git.Kept(PreviousPacks(s.chain), s.repairGit);
    var i :| 0 <= i < |git.packs| && git.packs[i] == k;
    if i < |kept| {
      assert k == kept[i];
      KeptKeys(PreviousPacks(s.chain), s.repairGit, k);
    }
  }

  lemma PackedInPacks(s: StoreState, built: Built, packed: Locations, uploads: seq<Key>)
    requires InPacks(s, s.locations) && PausedInPacks(s) && BuildNames(s, built, packed, uploads)
    ensures InPacks(s, s.locations + packed)
  {
  }

  lemma BuildSound(s: StoreState, built: Built, packed: Locations, uploads: seq<Key>)
    requires InPacks(s, s.locations) && PausedInPacks(s) && BuildNames(s, built, packed, uploads)
    requires EncodedSound(s.base, s.generation, s.chain.previous)
    ensures BuiltSound(s.base, s.generation, built)
  {
    PackedInPacks(s, built, packed, uploads);
    var all := s.locations + packed;
    assert forall k :: k in all.Values ==> k.object_.Pack? && Older(s.base, s.generation, k);
    hide InPacks;
    hide PausedInPacks;
    if built.SmallBuilt? {
      forall k | k in built.git.packs ensures Older(s.base, s.generation, k) && k.object_.GitPack? {
        GitListed(s, built.git, uploads, k);
      }
    }
  }

  /** What a repair rebuilds it packs anew: none of it is under a key the refusal named. */
  lemma PackedIsNew(s: StoreState, built: Built, packed: Locations, uploads: seq<Key>)
    requires Forgetting(s) && s.chain.repairing.Some? && ClassOf(built) in s.rebuilds
    requires BuildNames(s, built, packed, uploads)
    ensures forall k :: k in uploads ==> k.prefix == Prefix(s)
    ensures forall item :: item in s.locations + packed ==> (s.locations + packed)[item] !in s.chain.repairing.value.forget
  {
  }

  // ----- Findable ------------------------------------------------------------------------------

  /** A snap that finds nothing new drops what it packed by file name; a file the queue still lists
      must be listed under the same key. */
  predicate KeysAgree(s: StoreState, a: SnapArgs, packed: Locations) {
    forall item :: item in packed && ObjectListed(s.chain.queue, packed[item].object_) ==>
      packed[item] in s.uploaded || Listed(s.chain.queue, packed[item])
  }

  /** A snap keeps every location findable; one that finds nothing new does so exactly when the
      file names it keeps are listed under its own keys. */
  lemma SnapKeepsFindable(s: StoreState, a: SnapArgs, packed: Locations)
    requires Findable(s) && InPacks(s, s.locations) && StoreEnabled(s, SnapStep(a, packed))
    ensures Findable(StoreNext(s, SnapStep(a, packed))) <==> (Unchanged(s.chain, a) ==> KeysAgree(s, a, packed))
  {
    var t := StoreNext(s, SnapStep(a, packed));
    if Unchanged(s.chain, a) {
      if Findable(t) {
        forall item | item in packed && ObjectListed(s.chain.queue, packed[item].object_)
          ensures packed[item] in s.uploaded || Listed(s.chain.queue, packed[item])
        {
          assert item in t.locations && t.locations[item] == packed[item];
        }
      }
    } else {
      forall item | item in t.locations
        ensures t.locations[item] in t.uploaded || Listed(t.chain.queue, t.locations[item])
      {
        SnapListsPacks(s.chain, a, t.locations[item]);
      }
    }
  }

  lemma RebuildKeepsFindable(s: StoreState, a: SnapArgs, packed: Locations)
    requires Findable(s) && InPacks(s, s.locations) && Forgetting(s) && TailIsFolded(s.chain)
    requires StoreEnabled(s, RebuildStep(a, packed))
    ensures Findable(StoreNext(s, RebuildStep(a, packed)))
  {
    var t := StoreNext(s, RebuildStep(a, packed));
    var r, q, entry := s.chain.repairing.value, s.chain.queue, RepairEntry(s.chain, a);
    var cut := IndexAt(q, entry.manifest.n);
    PackedIsNew(s, a.built, packed, a.uploads);
    forall item | item in t.locations
      ensures t.locations[item] in t.uploaded || Listed(t.chain.queue, t.locations[item])
    {
      var k := t.locations[item];
      KeptOnRepairKeys(Folded(r), r.forget, k);
      AddNewKeys(KeptOnRepair(Folded(r), r.forget), a.uploads, k);
      ListedAfterCut(q, cut, [entry], k);
      ListedOne(entry, k);
    }
  }

  /** It does as long as the queue lists nothing of an earlier generation. */
  lemma OneGenerationAgrees(s: StoreState, a: SnapArgs, packed: Locations)
    requires StoreEnabled(s, SnapStep(a, packed)) && Resumed(s, ClassOf(a.built)).packs == []
    requires forall i, j :: 0 <= i < |s.chain.queue| && 0 <= j < |s.chain.queue[i].uploads| ==>
               s.chain.queue[i].uploads[j].prefix == Prefix(s)
    ensures KeysAgree(s, a, packed)
  {
    forall item | item in packed && ObjectListed(s.chain.queue, packed[item].object_)
      ensures Listed(s.chain.queue, packed[item])
    {
      var i, j :| 0 <= i < |s.chain.queue| && 0 <= j < |s.chain.queue[i].uploads|
                  && s.chain.queue[i].uploads[j].object_ == packed[item].object_;
      assert s.chain.queue[i].uploads[j] == packed[item];
    }
  }

  predicate StoreDisciplined(s: StoreState, step: StoreStep) {
    match step
    case SnapStep(a, packed) => CanSnap(s.chain, a) && Unchanged(s.chain, a) ==> KeysAgree(s, a, packed)
    case ChainStep(step) => Disciplined(s.chain, step)
    case _ => true
  }

  /** A claimed or registered capture keeps its place, entry and all. */
  lemma SnapKeepsFront(s: State, a: SnapArgs)
    requires Guarded(s) && CanSnap(s, a) && (s.ship.Claimed? || s.ship.Registered?)
    ensures Snap(s, a).queue != [] && Snap(s, a).queue[0] == s.queue[0]
  {
    if !Unchanged(s, a) {
      ChainPositions(s.queue, |s.queue| - 1);
      assert Cut(s, a) > 0;
    }
  }

  /** In a chain, the first capture at or above a queued one's position is that one. */
  lemma IndexAtQueued(q: seq<QueueEntry>, i: nat)
    requires IsChain(q) && i < |q|
    ensures IndexAt(q, q[i].manifest.n) == i
  {
    var k := IndexAt(q, q[i].manifest.n);
    ChainPositions(q, i);
    if k < |q| {
      ChainPositions(q, k);
    }
  }

  lemma BeginFoldsTail(c: State, forget: set<Key>)
    requires IsChain(c.queue) && c.repairing.None? && c.request.Some?
    ensures TailIsFolded(RepairBegin(c, forget))
  {
    var at, q := Position(c.queue, c.request.value), c.queue;
    if at < |q| {
      IndexAtQueued(q, at);
      assert q[at..] == [q[at]] + q[at + 1..];
    }
  }

  lemma RebuildFoldsTail(c: State, a: SnapArgs)
    requires CanRepair(c, a) && IsChain(RepairClass(c, a).queue)
    ensures TailIsFolded(RepairClass(c, a))
  {
    var q := RepairClass(c, a).queue;
    IndexAtQueued(q, |q| - 1);
    assert q[|q| - 1..] == [q[|q| - 1]] + [];
  }

  /** A registered or claimed capture keeps its place while a class is rebuilt. */
  lemma RebuildKeepsFront(c: State, a: SnapArgs)
    requires Guarded(c) && CanRepair(c, a) && (c.ship.Claimed? || c.ship.Registered?)
    ensures c.queue != [] && RepairClass(c, a).queue[0] == c.queue[0]
  {
    var i :| 0 <= i < |c.queue| && c.queue[i].manifest == c.repairing.value.target.manifest;
    IndexAtQueued(c.queue, i);
  }

  lemma SealKeepsListed(c: State, a: SealArgs, k: Key)
    requires CanSeal(c) && Listed(c.queue, k)
    ensures Listed(Seal(c, a).queue, k)
  {
    var i :| 0 <= i < |c.queue| && k in c.queue[i].uploads;
    assert Seal(c, a).queue[i] == c.queue[i];
  }

  // ----- Each step, for the chain, for what it names and for the keys --------------------------

  lemma ChainPart(s: StoreState, step: StoreStep)
    requires Guarded(s.chain) && TailIsFolded(s.chain) && StoreEnabled(s, step) && StoreDisciplined(s, step)
    ensures Guarded(StoreNext(s, step).chain) && TailIsFolded(StoreNext(s, step).chain)
  {
    hide BuildNames;
    hide PlanRepair;
    match step {
      case SnapStep(a, packed) => GuardedSnap(s.chain, a);
      case BeginStep(missing) =>
        var forget := if RefusedAt(s.chain) < |s.chain.queue|
                      then PlanRepair(s.chain.queue[RefusedAt(s.chain)], missing).forget else {};
        GuardedBegin(s.chain, forget);
        BeginFoldsTail(s.chain, forget);
      case RebuildStep(a, packed) =>
        GuardedRepair(s.chain, a);
        RebuildFoldsTail(s.chain, a);
      case ChainStep(step) => ChainStepPart(s.chain, step);
      case _ =>
    }
  }

  /** Steps that stage and ack nothing leave the queue, and the shipper takes only its front. */
  lemma QueueLeft(c: State, step: Step)
    requires Enabled(c, step) && LeavesQueue(step) && !step.StepRepairBegin?
    ensures var t := Next(c, step);
            && t.queue == c.queue
            && (t.repairing == c.repairing || t.repairing.None?)
            && (t.repairing.Some? ==> t.previous == c.previous)
            && (t.ship.Claimed? ==> t.ship == c.ship || (c.queue != [] && t.ship.entry == c.queue[0]))
            && (t.ship.Registered? ==>
                  t.ship == c.ship || (step.StepRegister? && c.ship.Claimed? && t.ship.entry == c.ship.entry))
  {
  }

  lemma ChainStepPart(c: State, step: Step)
    requires Guarded(c) && TailIsFolded(c) && Enabled(c, step) && Disciplined(c, step)
    requires !step.StepSnap? && !step.StepRepairBegin? && !step.StepRepairClass?
    ensures Guarded(Next(c, step)) && TailIsFolded(Next(c, step))
  {
    hide Guarded;
    hide Disciplined;
    GuardedStep(c, step);
    if step.StepAck? {
      AckPart(c);
    } else if step.StepSeal? {
      assert Next(c, step).repairing.None?;
    } else {
      hide Next;
      QueueLeft(c, step);
    }
  }

  lemma AckPart(c: State)
    requires Guarded(c) && TailIsFolded(c) && c.ship.Registered?
    ensures TailIsFolded(Next(c, StepAck))
  {
  }

  lemma SnapSoundPart(s: StoreState, a: SnapArgs, packed: Locations)
    requires AllSound(s.base, s.generation, s.chain) && InPacks(s, s.locations) && PausedInPacks(s)
    requires CanSnap(s.chain, a) && BuildNames(s, a.built, packed, a.uploads)
    ensures AllSound(s.base, s.generation, Snap(s.chain, a))
  {
    BuildSound(s, a.built, packed, a.uploads);
    hide BuildNames;
    hide Sound;
    SnapSound(s.base, s.generation, s.chain, a);
  }

  lemma RebuildSoundPart(s: StoreState, a: SnapArgs, packed: Locations)
    requires AllSound(s.base, s.generation, s.chain) && InPacks(s, s.locations) && PausedInPacks(s)
    requires CanRepair(s.chain, a) && BuildNames(s, a.built, packed, a.uploads)
    ensures AllSound(s.base, s.generation, RepairClass(s.chain, a))
  {
    BuildSound(s, a.built, packed, a.uploads);
    hide BuildNames;
    hide Sound;
    RepairSound(s.base, s.generation, s.chain, a);
  }

  /** Every capture stays sound. */
  lemma SoundPart(s: StoreState, step: StoreStep)
    requires AllSound(s.base, s.generation, s.chain) && InPacks(s, s.locations) && PausedInPacks(s)
    requires StoreEnabled(s, step)
    ensures var t := StoreNext(s, step); t.base == s.base && AllSound(t.base, t.generation, t.chain)
  {
    hide Sound;
    hide BuildNames;
    hide PlanRepair;
    hide Attributable;
    hide InPacks;
    hide PausedInPacks;
    match step {
      case SnapStep(a, packed) =>
        SnapSoundPart(s, a, packed);
        SnapNext(s, a, packed);
      case RebuildStep(a, packed) => RebuildSoundPart(s, a, packed);
      case BeginStep(missing) => LaterSound(s.base, s.generation, s.generation + 1, s.chain);
      case ChainStep(step) => ChainSound(s.base, s.generation, s.chain, step);
      case _ =>
    }
  }

  lemma SnapNext(s: StoreState, a: SnapArgs, packed: Locations)
    requires StoreEnabled(s, SnapStep(a, packed))
    ensures var t := StoreNext(s, SnapStep(a, packed));
            && t == Spent(s, ClassOf(a.built)).(chain := Snap(s.chain, a), locations := t.locations)
            && t.chain.ship == s.chain.ship && t.chain.repairing.None?
            && (forall item :: item in t.locations ==>
                  item in s.locations + packed && t.locations[item] == (s.locations + packed)[item])
  {
  }

  /** A step that stages, under the generation there is, keeps what is kept of the keys when it keeps
      every location findable and in a pack. */
  lemma KeysStay(s: StoreState, t: StoreState)
    requires KeysInv(s) && Findable(t) && InPacks(t, t.locations) && Forgetting(t)
    requires t.base == s.base && t.generation == s.generation && t.uploaded == s.uploaded
    requires t.paused == s.paused || t.paused.None?
    requires t.chain.ship == s.chain.ship
    requires s.chain.ship.Claimed? || s.chain.ship.Registered? ==>
               s.chain.queue != [] && t.chain.queue != [] && t.chain.queue[0] == s.chain.queue[0]
    ensures KeysInv(t)
  {
    hide Findable;
    hide Forgetting;
  }

  lemma SnapKeys(s: StoreState, a: SnapArgs, packed: Locations)
    requires KeysInv(s) && StoreEnabled(s, SnapStep(a, packed)) && StoreDisciplined(s, SnapStep(a, packed))
    requires s.chain.ship.Claimed? || s.chain.ship.Registered? ==>
               s.chain.queue != [] && Snap(s.chain, a).queue != [] && Snap(s.chain, a).queue[0] == s.chain.queue[0]
    ensures KeysInv(StoreNext(s, SnapStep(a, packed)))
  {
    SnapKeepsFindable(s, a, packed);
    PackedInPacks(s, a.built, packed, a.uploads);
    SnapNext(s, a, packed);
    hide StoreNext;
    hide Snap;
    hide Findable;
    hide Unchanged;
    hide KeysAgree;
    hide KeysInv;
    hide BuildNames;
    KeysStay(s, StoreNext(s, SnapStep(a, packed)));
  }

  lemma RebuildNext(s: StoreState, a: SnapArgs, packed: Locations)
    requires Forgetting(s) && StoreEnabled(s, RebuildStep(a, packed))
    ensures var t := StoreNext(s, RebuildStep(a, packed));
            && t == Spent(s, ClassOf(a.built)).(chain := RepairClass(s.chain, a), locations := s.locations + packed,
                                                rebuilt := s.rebuilt + {ClassOf(a.built)})
            && t.chain.ship == s.chain.ship
            && t.chain.repairing == Some(Repairing(RepairEntry(s.chain, a), [], s.chain.repairing.value.forget))
            && t.chain.previous == Some(Encode(RepairManifest(s.chain, a)))
            && PreviousPacks(t.chain) == (if a.built.SmallBuilt? then a.built.git.packs else PreviousPacks(s.chain))
  {
  }

  /** A small class rebuilt lists no git pack its refusal named. */
  lemma RebuiltGit(s: StoreState, a: SnapArgs, packed: Locations)
    requires Forgetting(s) && StoreEnabled(s, RebuildStep(a, packed)) && a.built.SmallBuilt?
    ensures forall k :: k in a.built.git.packs ==> k !in s.chain.repairing.value.forget
  {
    forall k | k in a.built.git.packs ensures k !in s.chain.repairing.value.forget {
      GitListed(s, a.built.git, a.uploads, k);
    }
  }

  /** A class rebuilt names none of what its refusal named, and its entry uploads none of it. */
  lemma RebuiltIsNew(s: StoreState, a: SnapArgs, packed: Locations)
    requires Forgetting(s) && StoreEnabled(s, RebuildStep(a, packed))
    ensures var entry, forget := RepairEntry(s.chain, a), s.chain.repairing.value.forget;
            && (forall k :: k in entry.uploads ==> k !in forget)
            && NamedKeys(entry.manifest.sections, ClassOf(a.built)) !! forget
  {
    var entry, r := RepairEntry(s.chain, a), s.chain.repairing.value;
    PackedIsNew(s, a.built, packed, a.uploads);
    forall k | k in entry.uploads ensures k !in r.forget {
      KeptOnRepairKeys(Folded(r), r.forget, k);
      AddNewKeys(KeptOnRepair(Folded(r), r.forget), a.uploads, k);
    }
    var all := s.locations + packed;
    forall k | k in all.Values ensures k !in r.forget {
      var item :| item in all && all[item] == k;
    }
    if a.built.SmallBuilt? {
      RebuiltGit(s, a, packed);
    }
  }

  /** What the other class names is as it was. */
  lemma OtherNamesStay(c: State, a: SnapArgs, class_: Class)
    requires CanRepair(c, a) && class_ != ClassOf(a.built)
    ensures NamedKeys(RepairManifest(c, a).sections, class_) == NewestNames(c, class_)
  {
  }

  lemma RebuiltStayNew(s: StoreState, a: SnapArgs, packed: Locations)
    requires Forgetting(s) && StoreEnabled(s, RebuildStep(a, packed))
    ensures forall class_ :: class_ in s.rebuilt + {ClassOf(a.built)} ==>
              NamedKeys(RepairManifest(s.chain, a).sections, class_) !! s.chain.repairing.value.forget
  {
    RebuiltIsNew(s, a, packed);
    assert RepairEntry(s.chain, a).manifest == RepairManifest(s.chain, a);
    hide NamedKeys;
    hide RepairEntry;
    forall class_ | class_ in s.rebuilt + {ClassOf(a.built)}
      ensures NamedKeys(RepairManifest(s.chain, a).sections, class_) !! s.chain.repairing.value.forget
    {
      if class_ != ClassOf(a.built) {
        OtherNamesStay(s.chain, a, class_);
      }
    }
  }

  /** A repair goes on: what it forgot stays forgotten over a class rebuilt without it. */
  lemma ForgetsOn(s: StoreState, t: StoreState, e: QueueEntry)
    requires Forgetting(s) && s.chain.repairing.Some?
    requires t.chain.repairing == Some(Repairing(e, [], s.chain.repairing.value.forget))
    requires t.chain.previous == Some(Encode(e.manifest))
    requires t.base == s.base && t.generation == s.generation && t.condemned == s.condemned && t.rebuilds == s.rebuilds
    requires t.paused.None? || t.paused == s.paused
    requires t.rebuilt <= t.rebuilds
    requires var forget := s.chain.repairing.value.forget;
             && (forall item :: item in t.locations ==> t.locations[item] !in forget)
             && (forall k :: k in e.uploads ==> k !in forget)
             && (forall k :: k in e.manifest.sections.git.packs && k in forget ==> t.repairGit.Some? && k in t.repairGit.value)
             && (forall class_ :: class_ in t.rebuilt ==> NamedKeys(e.manifest.sections, class_) !! forget)
    ensures Forgetting(t)
  {
    hide NamedKeys;
  }

  lemma RebuildForgets(s: StoreState, a: SnapArgs, packed: Locations)
    requires Forgetting(s) && StoreEnabled(s, RebuildStep(a, packed))
    ensures Forgetting(StoreNext(s, RebuildStep(a, packed)))
  {
    PackedIsNew(s, a.built, packed, a.uploads);
    RebuildNext(s, a, packed);
    RebuiltIsNew(s, a, packed);
    RebuiltStayNew(s, a, packed);
    RebuiltLists(s, a, packed);
    var t, e := StoreNext(s, RebuildStep(a, packed)), RepairEntry(s.chain, a);
    assert e.manifest == RepairManifest(s.chain, a);
    assert ClassOf(a.built) in s.rebuilds && s.rebuilt <= s.rebuilds;
    hide StoreNext;
    hide StoreEnabled;
    hide RepairClass;
    hide NamedKeys;
    hide RepairEntry;
    hide RepairManifest;
    hide Forgetting;
    ForgetsOn(s, t, e);
  }

  /** The git packs a rebuilt capture lists that its refusal named are still to be replaced. */
  lemma RebuiltLists(s: StoreState, a: SnapArgs, packed: Locations)
    requires Forgetting(s) && StoreEnabled(s, RebuildStep(a, packed))
    ensures var m, forget := RepairManifest(s.chain, a), s.chain.repairing.value.forget;
            forall k :: k in m.sections.git.packs && k in forget ==>
              a.built.BulkBuilt? && s.repairGit.Some? && k in s.repairGit.value
  {
    if a.built.SmallBuilt? {
      RebuiltGit(s, a, packed);
    }
  }

  lemma RebuildKeys(s: StoreState, a: SnapArgs, packed: Locations)
    requires KeysInv(s) && TailIsFolded(s.chain) && StoreEnabled(s, RebuildStep(a, packed))
    requires s.chain.ship.Claimed? || s.chain.ship.Registered? ==>
               s.chain.queue != [] && RepairClass(s.chain, a).queue[0] == s.chain.queue[0]
    ensures KeysInv(StoreNext(s, RebuildStep(a, packed)))
  {
    RebuildKeepsFindable(s, a, packed);
    PackedInPacks(s, a.built, packed, a.uploads);
    RebuildForgets(s, a, packed);
    RebuildNext(s, a, packed);
    hide StoreNext;
    hide RepairClass;
    hide Findable;
    hide Forgetting;
    hide KeysInv;
    hide BuildNames;
    KeysStay(s, StoreNext(s, RebuildStep(a, packed)));
  }

  lemma AckKeys(s: StoreState)
    requires KeysInv(s) && s.chain.ship.Registered?
    ensures KeysInv(StoreNext(s, ChainStep(StepAck)))
  {
  }

  lemma SealKeys(s: StoreState, a: SealArgs)
    requires KeysInv(s) && CanSeal(s.chain)
    ensures KeysInv(StoreNext(s, ChainStep(StepSeal(a))))
  {
    var t := StoreNext(s, ChainStep(StepSeal(a)));
    forall item | item in t.locations
      ensures t.locations[item] in t.uploaded || Listed(t.chain.queue, t.locations[item])
    {
      if Listed(s.chain.queue, s.locations[item]) {
        SealKeepsListed(s.chain, a, s.locations[item]);
      }
    }
  }

  lemma QuietKeys(s: StoreState, step: Step)
    requires KeysInv(s) && StoreEnabled(s, ChainStep(step)) && LeavesQueue(step)
    ensures KeysInv(StoreNext(s, ChainStep(step)))
  {
    QueueLeft(s.chain, step);
    assert step.StepRestart? ==> Next(s.chain, step).repairing.None?;
    hide Next;
  }

  /** What a repair forgets is of a generation so far, and what of it the newest git section lists
      the next small build will not. */
  lemma PlanForgets(s: StoreState, target: QueueEntry, missing: set<Key>)
    requires Sound(s.base, s.generation, target.manifest.sections) && Attributable(s, target, missing)
    requires EncodedSound(s.base, s.generation, s.chain.previous)
    ensures var plan := PlanRepair(target, missing);
            && plan.classes != {}
            && (forall k :: k in plan.forget ==> Older(s.base, s.generation, k))
            && (forall k :: k in plan.forget && k in PreviousPacks(s.chain) ==> k in plan.git)
  {
    var plan := PlanRepair(target, missing);
    forall k | k in plan.forget && k in PreviousPacks(s.chain) ensures k in plan.git {
      assert k.object_.GitPack?;
    }
  }

  /** A repair planned that way keeps what is kept of the keys. */
  lemma BegunKeys(s: StoreState, plan: Plan)
    requires KeysInv(s) && s.chain.repairing.None? && s.chain.request.Some?
    requires forall k :: k in plan.forget ==> Older(s.base, s.generation, k)
    requires forall k :: k in plan.forget && k in PreviousPacks(s.chain) ==> k in plan.git
    ensures KeysInv(Begun(s, plan).(chain := RepairBegin(s.chain, plan.forget)))
  {
    var t := Begun(s, plan).(chain := RepairBegin(s.chain, plan.forget));
    assert t.chain.queue == s.chain.queue && t.chain.ship == s.chain.ship && t.chain.previous == s.chain.previous;
    assert t.chain.repairing.Some? ==> t.chain.repairing.value.forget == plan.forget;
    hide RepairBegin;
    assert Forgetting(t);
    assert Findable(t);
  }

  lemma BeginKeys(s: StoreState, missing: set<Key>)
    requires KeysInv(s) && StoreEnabled(s, BeginStep(missing)) && AllSound(s.base, s.generation, s.chain)
    ensures KeysInv(StoreNext(s, BeginStep(missing)))
  {
    hide KeysInv;
    var at := RefusedAt(s.chain);
    if at < |s.chain.queue| {
      var target := s.chain.queue[at];
      PlanForgets(s, target, missing);
      BegunKeys(s, PlanRepair(target, missing));
    } else {
      NothingToRepair(s);
    }
    hide PlanRepair;
    hide Sound;
    hide Attributable;
  }

  lemma NothingToRepair(s: StoreState)
    requires KeysInv(s) && s.chain.repairing.None? && s.chain.request.Some? && RefusedAt(s.chain) == |s.chain.queue|
    ensures KeysInv(s.(chain := RepairBegin(s.chain, {})))
  {
  }

  lemma PausedStays(s: StoreState, packed: Locations, packs: seq<Key>)
    requires PausedInPacks(s) && StoreEnabled(s, PauseStep(packed, packs))
    ensures PausedInPacks(StoreNext(s, PauseStep(packed, packs)))
  {
    hide Holds;
    assert forall k :: k in packs ==> Older(s.base, s.generation, k);
    hide Older;
  }

  lemma PauseKeys(s: StoreState, packed: Locations, packs: seq<Key>)
    requires KeysInv(s) && StoreEnabled(s, PauseStep(packed, packs))
    ensures KeysInv(StoreNext(s, PauseStep(packed, packs)))
  {
    var t := StoreNext(s, PauseStep(packed, packs));
    hide Holds;
    hide Older;
    PausedStays(s, packed, packs);
    assert Findable(t);
    hide PausedInPacks;
  }

  lemma UploadKeys(s: StoreState, k: Key)
    requires KeysInv(s)
    ensures KeysInv(s.(uploaded := s.uploaded + {k}))
  {
  }

  lemma KeysPart(s: StoreState, step: StoreStep)
    requires StoreInv(s) && StoreEnabled(s, step) && StoreDisciplined(s, step)
    ensures KeysInv(StoreNext(s, step))
  {
    hide Guarded;
    hide AllSound;
    hide TailIsFolded;
    hide BuildNames;
    hide Attributable;
    var shipping := s.chain.ship.Claimed? || s.chain.ship.Registered?;
    match step {
      case SnapStep(a, packed) =>
        if shipping {
          SnapKeepsFront(s.chain, a);
        }
        SnapKeys(s, a, packed);
      case RebuildStep(a, packed) =>
        if shipping {
          RebuildKeepsFront(s.chain, a);
        }
        RebuildKeys(s, a, packed);
      case ChainStep(StepAck) => AckKeys(s);
      case ChainStep(StepSeal(a)) => SealKeys(s, a);
      case ChainStep(step) => QuietKeys(s, step);
      case BeginStep(missing) => BeginKeys(s, missing);
      case PauseStep(packed, packs) => PauseKeys(s, packed, packs);
      case AbandonStep => KeysStay(s, s.(paused := None));
      case UploadStep(k) => UploadKeys(s, k);
    }
  }

  predicate IsStoreRun(s: StoreState, steps: seq<StoreStep>)
    decreases |steps|
  {
    steps != [] ==>
      StoreEnabled(s, steps[0]) && StoreDisciplined(s, steps[0]) && IsStoreRun(StoreNext(s, steps[0]), steps[1..])
  }

  function StoreAfter(s: StoreState, steps: seq<StoreStep>): StoreState
    requires IsStoreRun(s, steps)
    decreases |steps|
  {
    if steps == [] then s else StoreAfter(StoreNext(s, steps[0]), steps[1..])
  }

  lemma StoreStepKeeps(s: StoreState, step: StoreStep)
    requires StoreInv(s) && StoreEnabled(s, step) && StoreDisciplined(s, step)
    ensures StoreInv(StoreNext(s, step))
  {
    hide StoreEnabled;
    hide StoreNext;
    hide KeysInv;
    assert InPacks(s, s.locations) && PausedInPacks(s) by { KeysSay(s); }
    ChainPart(s, step);
    SoundPart(s, step);
    KeysPart(s, step);
  }

  lemma KeysSay(s: StoreState)
    requires KeysInv(s)
    ensures InPacks(s, s.locations) && PausedInPacks(s)
  {
  }

  /** Over every run, bulk builds that yield and resume across repairs included, each chunk and dir
      object the engine believes stored is stored or listed by a queued capture. */
  lemma {:induction false} LocationsStayFindable(s: StoreState, steps: seq<StoreStep>)
    requires StoreInv(s) && IsStoreRun(s, steps)
    ensures StoreInv(StoreAfter(s, steps))
    decreases |steps|
  {
    hide StoreInv;
    hide StoreEnabled;
    hide StoreNext;
    if steps != [] {
      StoreStepKeeps(s, steps[0]);
      LocationsStayFindable(StoreNext(s, steps[0]), steps[1..]);
    }
  }

  /** So a staged capture's own section names only packs that are stored or listed. */
  lemma NamedIsFindable(s: StoreState, a: SnapArgs, packed: Locations)
    requires Findable(s) && InPacks(s, s.locations) && StoreEnabled(s, SnapStep(a, packed)) && !Unchanged(s.chain, a)
    ensures var x := SnapManifest(s.chain, a).sections;
            var packs := if a.built.SmallBuilt? then x.workspace.packs + x.workspace.dirPacks
                         else BulkKeys(a.built.bulk) - {a.built.bulk.root};
            forall k :: k in packs ==> k in s.uploaded || Listed(Snap(s.chain, a).queue, k)
  {
    SnapKeepsFindable(s, a, packed);
    var t := StoreNext(s, SnapStep(a, packed));
    assert t.locations == s.locations + packed && t.chain == Snap(s.chain, a);
    hide Snap;
  }

  // ----- Repairs and the keys refusals named ---------------------------------------------------

  /** Over every run, a rebuilt capture neither uploads nor, in the class rebuilt, names a key its
      refusal named. */
  lemma RebuiltNamesNoCondemnedKey(s: StoreState, a: SnapArgs, packed: Locations)
    requires StoreInv(s) && StoreEnabled(s, RebuildStep(a, packed))
    ensures var entry, forget := RepairEntry(s.chain, a), s.chain.repairing.value.forget;
            && (forall k :: k in entry.uploads ==> k !in forget)
            && NamedKeys(entry.manifest.sections, ClassOf(a.built)) !! forget
  {
    RebuiltIsNew(s, a, packed);
  }

  /** So once a repair rebuilt every class it set out to, the newest queued capture, the one that takes the
      refused one's place, names in none of them a key the refusal named, and uploads none. */
  lemma RepairedNamesNoCondemnedKey(s: StoreState)
    requires StoreInv(s) && s.chain.repairing.Some? && s.rebuilt == s.rebuilds != {}
    ensures var forget, q := s.chain.repairing.value.forget, s.chain.queue;
            && q != [] && Last(q).manifest.n == s.chain.repairing.value.target.manifest.n
            && (forall k :: k in Last(q).uploads ==> k !in forget)
            && forall class_ :: class_ in s.rebuilds ==> NamedKeys(Last(q).manifest.sections, class_) !! forget
  {
    var c := s.chain;
    assert c.queue[|c.queue| - 1..] == [c.repairing.value.target];
    assert Last(c.queue) == c.queue[|c.queue| - 1..][0];
    assert PreviousIsNewest(c);
    hide Guarded;
  }

  /** No item the engine would name is where any refusal ever looked in vain, and neither is a pack
      a bulk build that yielded will upload. */
  predicate Clean(s: StoreState) {
    && (forall item :: item in s.locations ==> s.locations[item] !in s.condemned)
    && (s.paused.Some? ==> forall k :: k in s.paused.value.packs ==> k !in s.condemned)
    && (forall k :: k in s.condemned ==> Older(s.base, s.generation, k) && k.prefix != Prefix(s))
  }

  /** A repair of the small class alone that forgets a pack a bulk build that yielded holds. */
  predicate Revives(s: StoreState, step: StoreStep)
    requires StoreEnabled(s, step)
  {
    && step.BeginStep?
    && RefusedAt(s.chain) < |s.chain.queue|
    && var plan := PlanRepair(s.chain.queue[RefusedAt(s.chain)], step.missing);
       && Bulk !in plan.classes
       && s.paused.Some?
       && exists k :: k in s.paused.value.packs && k in plan.forget
  }

  lemma BuildIsClean(s: StoreState, built: Built, packed: Locations, uploads: seq<Key>)
    requires Clean(s) && BuildNames(s, built, packed, uploads)
    ensures forall item :: item in s.locations + packed ==> (s.locations + packed)[item] !in s.condemned
  {
  }

  lemma BeginClean(s: StoreState, missing: set<Key>)
    requires Clean(s) && AllSound(s.base, s.generation, s.chain) && StoreEnabled(s, BeginStep(missing))
    ensures Clean(StoreNext(s, BeginStep(missing))) <==> !Revives(s, BeginStep(missing))
  {
    if RefusedAt(s.chain) < |s.chain.queue| {
      var target := s.chain.queue[RefusedAt(s.chain)];
      PlanForgets(s, target, missing);
      hide PlanRepair;
      hide Attributable;
      hide Sound;
    }
  }

  lemma SnapClean(s: StoreState, a: SnapArgs, packed: Locations)
    requires Clean(s) && StoreEnabled(s, SnapStep(a, packed))
    ensures Clean(StoreNext(s, SnapStep(a, packed)))
  {
    BuildIsClean(s, a.built, packed, a.uploads);
    SnapNext(s, a, packed);
    hide StoreNext;
    hide BuildNames;
    hide Snap;
  }

  /** One step keeps that exactly when it is no such repair. */
  lemma StepKeepsClean(s: StoreState, step: StoreStep)
    requires StoreInv(s) && Clean(s) && StoreEnabled(s, step)
    ensures Clean(StoreNext(s, step)) <==> !Revives(s, step)
  {
    hide Guarded;
    hide TailIsFolded;
    hide KeysInv;
    match step {
      case BeginStep(missing) => BeginClean(s, missing);
      case SnapStep(a, packed) => SnapClean(s, a, packed);
      case RebuildStep(a, packed) => BuildIsClean(s, a.built, packed, a.uploads);
      case _ =>
    }
  }

  predicate NeverRevives(s: StoreState, steps: seq<StoreStep>)
    requires IsStoreRun(s, steps)
    decreases |steps|
  {
    steps != [] ==> !Revives(s, steps[0]) && NeverRevives(StoreNext(s, steps[0]), steps[1..])
  }

  /** Over every run without one, no item is ever where a refusal looked in vain. */
  lemma {:induction false} RunsStayClean(s: StoreState, steps: seq<StoreStep>)
    requires StoreInv(s) && Clean(s) && IsStoreRun(s, steps) && NeverRevives(s, steps)
    ensures Clean(StoreAfter(s, steps))
    decreases |steps|
  {
    hide StoreInv;
    hide Clean;
    hide StoreEnabled;
    hide StoreNext;
    hide Revives;
    if steps != [] {
      StepKeepsClean(s, steps[0]);
      StoreStepKeeps(s, steps[0]);
      RunsStayClean(StoreNext(s, steps[0]), steps[1..]);
    }
  }

  /** What such a repair leads to: the bulk build, resumed, puts the chunk back where the refusal
      looked in vain, and uploads that key again. */
  lemma ResumedBuildNamesIt(s: StoreState, a: SnapArgs, packed: Locations, item: Item)
    requires StoreEnabled(s, SnapStep(a, packed)) && a.built.BulkBuilt? && !Unchanged(s.chain, a)
    requires s.paused.Some? && item in s.paused.value.chunks && s.paused.value.chunks[item] in s.condemned
    requires PausedInPacks(s)
    ensures var t := StoreNext(s, SnapStep(a, packed));
            item in t.locations && t.locations[item] in t.condemned && Listed(t.chain.queue, t.locations[item])
  {
    SnapListsPacks(s.chain, a, packed[item]);
  }

  /** With none, the one way a rebuilt class names a key some earlier refusal named is a git pack the
      newest section lists and this repair does not replace. */
  lemma RebuiltNamesEarlierGit(s: StoreState, a: SnapArgs, packed: Locations)
    requires StoreInv(s) && Clean(s) && StoreEnabled(s, RebuildStep(a, packed))
    ensures NamedKeys(RepairEntry(s.chain, a).manifest.sections, ClassOf(a.built)) !! s.condemned <==>
            (a.built.SmallBuilt? ==>
               forall k :: k in PreviousPacks(s.chain) && k in s.condemned && k.prefix != NO_PREFIX ==>
                 s.repairGit.Some? && k in s.repairGit.value)
  {
    hide Guarded;
    hide KeysInv;
    hide AllSound;
    BuildIsClean(s, a.built, packed, a.uploads);
    var all := s.locations + packed;
    forall k | k in all.Values ensures k !in s.condemned {
      var item :| item in all && all[item] == k;
    }
    if a.built.SmallBuilt? {
      EarlierGit(s, a.built.git, a.uploads);
    }
  }

  lemma EarlierGit(s: StoreState, git: GitSection, uploads: seq<Key>)
    requires Clean(s) && GitNames(s, git, uploads)
    ensures forall k :: k in git.packs && k in s.condemned <==>
              k in PreviousPacks(s.chain) && k in s.condemned && !(s.repairGit.Some? && k in s.repairGit.value)
  {
    forall k ensures k in git.packs && k in s.condemned <==>
                     k in PreviousPacks(s.chain) && k in s.condemned && !(s.repairGit.Some? && k in s.repairGit.value) {
      if k in git.packs {
        GitListed(s, git, uploads, k);
      }
      KeptKeys(PreviousPacks(s.chain), s.repairGit, k);
    }
  }
}
