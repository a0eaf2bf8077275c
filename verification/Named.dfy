/** What a capture names: the store keys of its sections, git packs apart from packs of chunks and dir
    objects, and none of a key generation to come. Every capture of a chain stays so (manifest.rs,
    keys.rs, engine.rs). */
module Named {
  import opened Options
  import opened Captures
  import opened Chain

  /** A key some prefix so far may have written: nothing is under a later generation of ours. */
  predicate Older(base: KeyPrefix, generation: nat, k: Key) {
    k.prefix.(generation := None) == base.(generation := None) && k.prefix.generation.Some? ==>
      k.prefix.generation.value <= generation
  }

  function BulkKeys(b: BulkSection): set<Key> {
    {b.root} + b.packs + b.dirPacks
  }

  /** The keys of a class's own section: what a refusal that names none forgets. */
  function ClassKeys(x: Sections, class_: Class): set<Key> {
    match class_
    case Small => {x.workspace.root} + x.workspace.packs + x.workspace.dirPacks
    case Bulk => if x.bulk.Ready? then BulkKeys(x.bulk.section) else {}
  }

  predicate AllOlder(base: KeyPrefix, generation: nat, keys: set<Key>) {
    forall k :: k in keys ==> Older(base, generation, k) && !k.object_.GitPack?
  }

  /** Git packs where git packs go and nowhere else, and no key of a generation to come. */
  predicate Sound(base: KeyPrefix, generation: nat, x: Sections) {
    && (forall k :: k in x.git.packs ==> Older(base, generation, k) && k.object_.GitPack?)
    && AllOlder(base, generation, ClassKeys(x, Small))
    && AllOlder(base, generation, ClassKeys(x, Bulk))
    && (forall p :: p in x.otherBulk ==> AllOlder(base, generation, BulkKeys(x.otherBulk[p])))
  }

  predicate BuiltSound(base: KeyPrefix, generation: nat, b: Built) {
    match b
    case SmallBuilt(git, workspace) =>
      && (forall k :: k in git.packs ==> Older(base, generation, k) && k.object_.GitPack?)
      && AllOlder(base, generation, {workspace.root} + workspace.packs + workspace.dirPacks)
    case BulkBuilt(bulk) => AllOlder(base, generation, BulkKeys(bulk))
  }

  predicate EncodedSound(base: KeyPrefix, generation: nat, e: Option<Encoded>) {
    e.Some? ==> Sound(base, generation, e.value.manifest.sections)
  }

  predicate QueueSound(base: KeyPrefix, generation: nat, q: seq<QueueEntry>) {
    forall i :: 0 <= i < |q| ==> Sound(base, generation, q[i].manifest.sections)
  }

  predicate AllSound(base: KeyPrefix, generation: nat, c: State) {
    && QueueSound(base, generation, c.queue)
    && EncodedSound(base, generation, c.previous)
    && EncodedSound(base, generation, c.below)
    && (c.head.Some? ==> Sound(base, generation, c.head.value.sections))
    && ((c.ship.Claimed? || c.ship.Registered?) ==> Sound(base, generation, c.ship.entry.manifest.sections))
  }

  lemma LaterSound(base: KeyPrefix, generation: nat, later: nat, c: State)
    requires AllSound(base, generation, c) && generation <= later
    ensures AllSound(base, later, c)
  {
    forall x: Sections | Sound(base, generation, x) ensures Sound(base, later, x) {
    }
  }

  lemma ApplySound(base: KeyPrefix, generation: nat, previous: Option<Sections>, built: Built)
    requires built.BulkBuilt? ==> previous.Some?
    requires previous.Some? ==> Sound(base, generation, previous.value)
    requires BuiltSound(base, generation, built)
    ensures Sound(base, generation, Apply(previous, built))
  {
    var x := Apply(previous, built);
    forall p | p in x.otherBulk ensures AllOlder(base, generation, BulkKeys(x.otherBulk[p])) {
      assert built.BulkBuilt? ==> x.otherBulk[p] == BulkByPlatform(previous.value)[p];
    }
  }

  /** Sections put together of sound ones are sound. */
  lemma MixedSound(base: KeyPrefix, generation: nat, x: Sections, y: Sections)
    requires Sound(base, generation, x) && Sound(base, generation, y)
    ensures Sound(base, generation, Sections(x.git, x.workspace, y.bulk, y.otherBulk))
  {
  }

  lemma SnapSectionsSound(base: KeyPrefix, generation: nat, c: State, a: SnapArgs)
    requires AllSound(base, generation, c) && CanSnap(c, a) && BuiltSound(base, generation, a.built)
    ensures Sound(base, generation, SnapSections(c, a))
    ensures Hoists(c, ClassOf(a.built)) ==>
              Sound(base, generation, MovedManifest(Last(c.queue).manifest, SnapManifest(c, a)).sections)
  {
    var x := Apply(SectionsOf(c.previous), a.built);
    ApplySound(base, generation, SectionsOf(c.previous), a.built);
    hide Sound;
    hide Apply;
    if Hoists(c, ClassOf(a.built)) {
      MixedSound(base, generation, x, c.below.value.manifest.sections);
      MixedSound(base, generation, SnapSections(c, a), Last(c.queue).manifest.sections);
    }
  }

  lemma SnapSound(base: KeyPrefix, generation: nat, c: State, a: SnapArgs)
    requires AllSound(base, generation, c) && CanSnap(c, a) && BuiltSound(base, generation, a.built)
    ensures AllSound(base, generation, Snap(c, a))
  {
    SnapSectionsSound(base, generation, c, a);
    hide Sound;
    hide SnapSections;
    hide MovedManifest;
    hide Unchanged;
    hide Hoists;
    hide Cut;
  }

  lemma RepairSound(base: KeyPrefix, generation: nat, c: State, a: SnapArgs)
    requires AllSound(base, generation, c) && CanRepair(c, a) && BuiltSound(base, generation, a.built)
    ensures AllSound(base, generation, RepairClass(c, a))
  {
    ApplySound(base, generation, SectionsOf(c.previous), a.built);
    hide Sound;
    hide Apply;
  }

  lemma PlanSound(base: KeyPrefix, generation: nat, head: Option<Manifest>, answered: BulkState)
    requires head.Some? ==> Sound(base, generation, head.value.sections)
    ensures EncodedSound(base, generation, PlanHead(head, answered))
  {
    if head.Some? {
      var x := head.value.sections;
      var y := WithBulkAnswer(x, answered);
      forall p | p in y.otherBulk ensures AllOlder(base, generation, BulkKeys(y.otherBulk[p])) {
        assert y.otherBulk[p] == BulkByPlatform(x)[p];
      }
    }
  }

  lemma RestartSound(base: KeyPrefix, generation: nat, c: State, answered: BulkState)
    requires AllSound(base, generation, c)
    ensures AllSound(base, generation, Restart(c, answered))
  {
    hide Sound;
    PlanSound(base, generation, c.head, answered);
    hide PlanHead;
    if c.queue != [] && IsBulk(Last(c.queue)) && Last(c.queue).manifest.parent.Some? {
      FoundSound(base, generation, c.queue, Last(c.queue).manifest.parent.value);
    }
  }

  lemma {:induction false} FoundSound(base: KeyPrefix, generation: nat, q: seq<QueueEntry>, id: CaptureId)
    requires QueueSound(base, generation, q)
    ensures EncodedSound(base, generation, FindId(q, id))
  {
    if q != [] && IdOf(q[0]) != id {
      FoundSound(base, generation, q[1..], id);
    }
  }

  lemma {:induction false} WithoutSound(base: KeyPrefix, generation: nat, q: seq<QueueEntry>, n: nat)
    requires QueueSound(base, generation, q)
    ensures QueueSound(base, generation, Without(q, n))
  {
    if q != [] && q[0].manifest.n != n {
      WithoutSound(base, generation, q[1..], n);
    }
  }

  lemma SealSound(base: KeyPrefix, generation: nat, c: State, a: SealArgs)
    requires AllSound(base, generation, c) && CanSeal(c)
    ensures AllSound(base, generation, Seal(c, a))
  {
    hide Sound;
  }

  lemma AckSound(base: KeyPrefix, generation: nat, c: State)
    requires AllSound(base, generation, c) && c.ship.Registered?
    ensures AllSound(base, generation, Next(c, StepAck))
  {
    hide Sound;
    WithoutSound(base, generation, c.queue, c.ship.entry.manifest.n);
    hide QueueSound;
  }

  /** Steps of the chain that build nothing leave everything named as it was. */
  lemma ChainSound(base: KeyPrefix, generation: nat, c: State, step: Step)
    requires AllSound(base, generation, c) && Enabled(c, step) && !step.StepSnap? && !step.StepRepairClass?
    ensures AllSound(base, generation, Next(c, step))
  {
    hide Sound;
    match step {
      case StepRestart(answered) => RestartSound(base, generation, c, answered);
      case StepSeal(a) => SealSound(base, generation, c, a);
      case StepAck => AckSound(base, generation, c);
      case StepClaim =>
      case _ =>
        hide QueueSound;
        hide EncodedSound;
    }
  }
}
