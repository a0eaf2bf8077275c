/** What every interleaving of engine, shipper and registrar keeps: the queue is a chain on the
    registrar's head, and no register of a lone executor is answered "wrong parent". */
module ChainSafety {
  import opened Options
  import opened Captures
  import opened Chain

  /** Consecutive positions, each capture's parent the one before it. */
  predicate IsChain(q: seq<QueueEntry>) {
    forall i :: 0 < i < |q| ==> Succeeds(q[i].manifest, Some(q[i - 1].manifest))
  }

  /** `m` is the capture right after `head`. */
  predicate Succeeds(m: Manifest, head: Option<Manifest>) {
    match head
    case None => m.n == 0 && m.parent == None
    case Some(h) => m.n == h.n + 1 && m.parent == Some(Sha(h))
  }

  /** The queue starts right after the registrar's head, or with the head itself (not yet acked). */
  predicate Anchored(s: State) {
    s.queue != [] ==> Succeeds(s.queue[0].manifest, s.head) || s.head == Some(s.queue[0].manifest)
  }

  /** The engine's newest capture is the newest queued one, or the registered head. */
  predicate PreviousIsNewest(s: State) {
    if s.queue != [] then s.previous == Some(Encode(Last(s.queue).manifest))
    else if s.head.Some? then
      s.previous.Some? && s.previous.value.id == Sha(s.head.value) && s.previous.value.manifest.n == s.head.value.n
    else s.previous.None?
  }

  /** What the shipper holds is the front of the queue, and only what it claimed is registered. */
  predicate ShipperInStep(s: State) {
    match s.ship
    case Claimed(e) =>
      s.queue != [] && s.queue[0].manifest == e.manifest && (s.request.Some? ==> s.request.value.id != IdOf(e))
    case Registered(e) =>
      s.queue != [] && s.queue[0].manifest == e.manifest && s.head == Some(e.manifest)
      && (s.request.Some? ==> s.request.value.id != IdOf(e))
    case Refused(e) => s.head != Some(e.manifest)
    case Asking(e) => s.head != Some(e.manifest)
    case _ => true
  }

  /** A capture a repair is asked for is not registered. */
  predicate RequestUnregistered(s: State) {
    s.request.Some? ==>
      && s.request.value.n == s.request.value.id.manifest.n
      && s.head != Some(s.request.value.id.manifest)
  }

  predicate TargetQueued(s: State) {
    s.repairing.Some? &&
    exists i :: 0 <= i < |s.queue| && s.queue[i].manifest == s.repairing.value.target.manifest
  }

  /** The capture a repair is replacing is queued, unless the shipper registered it meanwhile. */
  predicate TargetKnown(s: State) {
    s.repairing.Some? ==>
      TargetQueued(s) || (s.head.Some? && s.repairing.value.target.manifest.n <= s.head.value.n)
  }

  predicate Inv(s: State) {
    && IsChain(s.queue)
    && Anchored(s)
    && PreviousIsNewest(s)
    && ShipperInStep(s)
    && RequestUnregistered(s)
    && TargetKnown(s)
  }

  /** A queued capture the registrar holds, or the shipper is registering. */
  predicate Held(s: State, e: QueueEntry) {
    || s.head == Some(e.manifest)
    || ((s.ship.Claimed? || s.ship.Registered?) && s.ship.entry.manifest == e.manifest)
  }

  /** Staging `m` over the first `cut` queued captures takes the place of a capture the registrar
      holds or the shipper is registering. Only the front of the queue can be one. */
  predicate Supersedes(s: State, cut: nat, m: Manifest) {
    cut == 0 && s.queue != [] && Held(s, s.queue[0]) && m != s.queue[0].manifest
  }

  lemma ChainPositions(q: seq<QueueEntry>, i: nat)
    requires IsChain(q) && i < |q|
    ensures q[i].manifest.n == q[0].manifest.n + i
  {
    if i > 0 {
      ChainPositions(q, i - 1);
      assert Succeeds(q[i].manifest, Some(q[i - 1].manifest));
    }
  }

  /** Staging in the place of the lowest replaced capture keeps the chain; it stays on the
      registrar's head exactly when no held capture lost its place. */
  lemma CutAndPlace(s: State, t: State, cut: nat, entry: QueueEntry, top: seq<QueueEntry>)
    requires Inv(s)
    requires cut <= |s.queue|
    requires entry.manifest.n == PlaceN(s, cut) && entry.manifest.parent == PlaceParent(s, cut)
    requires IsChain([entry] + top)
    requires t.queue == s.queue[..cut] + [entry] + top
    requires t.head == s.head && t.ship == s.ship && t.request == s.request
    requires t.previous == Some(Encode(Last(t.queue).manifest))
    requires TargetKnown(t)
    ensures Inv(t) <==> !Supersedes(s, cut, entry.manifest)
  {
    var q := t.queue;
    forall i | 0 < i < |q| ensures Succeeds(q[i].manifest, Some(q[i - 1].manifest)) {
      if i < cut {
        assert q[i] == s.queue[i] && q[i - 1] == s.queue[i - 1];
      } else if i == cut {
        if cut < |s.queue| {
          assert Succeeds(s.queue[cut].manifest, Some(s.queue[cut - 1].manifest));
        }
      } else {
        var j := i - cut;
        assert q[i] == ([entry] + top)[j] && q[i - 1] == ([entry] + top)[j - 1];
      }
    }
    if cut > 0 {
      assert q[0] == s.queue[0];
    }
  }

  /** A snap keeps the invariant exactly when it does not take the place of a held capture. */
  lemma SnapKeepsInvariant(s: State, a: SnapArgs)
    requires Inv(s) && CanSnap(s, a)
    ensures Inv(Snap(s, a)) <==> Unchanged(s, a) || !Supersedes(s, Cut(s, a), SnapManifest(s, a))
  {
    if !Unchanged(s, a) {
      var entry := SnapEntry(s, a);
      var t := Snap(s, a);
      if Hoists(s, ClassOf(a.built)) {
        var moved := MovedEntry(Last(s.queue), entry.manifest, a.prefix);
        assert t.queue == s.queue[..Cut(s, a)] + [entry] + [moved];
        assert IsChain([entry] + [moved]);
        CutAndPlace(s, t, Cut(s, a), entry, [moved]);
      } else {
        assert t.queue == s.queue[..Cut(s, a)] + [entry] + [];
        CutAndPlace(s, t, Cut(s, a), entry, []);
      }
    }
  }

  lemma SealKeepsInvariant(s: State, a: SealArgs)
    requires Inv(s) && CanSeal(s)
    ensures Inv(Seal(s, a))
  {
  }

  /** A class rebuild takes the place of a held capture, or of one registered since. */
  predicate RepairSupersedes(s: State, m: Manifest) {
    || Supersedes(s, IndexAt(s.queue, m.n), m)
    || (!TargetQueued(s) && s.head != Some(m))
  }

  /** A class rebuild keeps the invariant exactly when the capture it replaces is still the
      engine's to replace. */
  lemma RepairKeepsInvariant(s: State, a: SnapArgs)
    requires Inv(s) && CanRepair(s, a)
    ensures Inv(RepairClass(s, a)) <==> !RepairSupersedes(s, RepairManifest(s, a))
  {
    var entry := RepairEntry(s, a);
    var t := RepairClass(s, a);
    var at := IndexAt(s.queue, entry.manifest.n);
    assert t.queue == s.queue[..at] + [entry] + [];
    assert t.queue[|t.queue| - 1].manifest == t.repairing.value.target.manifest;
    if TargetQueued(s) {
      var i :| 0 <= i < |s.queue| && s.queue[i].manifest == s.repairing.value.target.manifest;
      ChainPositions(s.queue, i);
      ChainPositions(s.queue, at);
      CutAndPlace(s, t, at, entry, []);
    }
  }

  lemma AckKeepsInvariant(s: State)
    requires Inv(s) && s.ship.Registered?
    ensures Inv(Next(s, StepAck))
  {
  }

  /** The registrar accepts what the shipper claimed, whatever becomes of its answer. */
  lemma RegisterKeepsInvariant(s: State, answer: Answer)
    requires Inv(s) && CanRegister(s, answer)
    ensures Registrable(s.head, s.ship.entry.manifest)
    ensures Inv(Register(s, answer)) && Register(s, answer).conflict == s.conflict
  {
  }

  lemma RequestKeepsInvariant(s: State, step: Step)
    requires Inv(s) && Enabled(s, step)
    requires step.StepRepairBegin? || step.StepRepairEnd? || step.StepRepairFail? || step.StepClearRequest?
             || step.StepAskRepair? || step.StepRelease? || step.StepClaim?
    ensures Inv(Next(s, step)) && Next(s, step).conflict == s.conflict
  {
    if step.StepRepairBegin? {
      var at := Position(s.queue, s.request.value);
      assert at < |s.queue| ==> s.queue[at].manifest == Next(s, step).repairing.value.target.manifest;
    }
  }

  lemma RestartKeepsInvariant(s: State, answered: BulkState)
    requires Inv(s)
    ensures Inv(Restart(s, answered)) && Restart(s, answered).conflict == s.conflict
  {
  }

  // ----- Runs ----------------------------------------------------------------------------------

  /** A step that takes the place of a capture the registrar holds or the shipper is registering. */
  predicate TakesHeldPlace(s: State, step: Step)
    requires Enabled(s, step)
  {
    match step
    case StepSnap(a) => !Unchanged(s, a) && Supersedes(s, Cut(s, a), SnapManifest(s, a))
    case StepRepairClass(a) => RepairSupersedes(s, RepairManifest(s, a))
    case _ => false
  }

  /** One step keeps the invariant exactly when it takes no held capture's place, and while the
      invariant holds no register conflicts. */
  lemma StepKeepsInvariant(s: State, step: Step)
    requires Inv(s) && Enabled(s, step)
    ensures Inv(Next(s, step)) <==> !TakesHeldPlace(s, step)
    ensures Next(s, step).conflict == s.conflict
  {
    match step {
      case StepSnap(a) => SnapKeepsInvariant(s, a);
      case StepSeal(a) => SealKeepsInvariant(s, a);
      case StepRepairClass(a) => RepairKeepsInvariant(s, a);
      case StepRegister(answer) => RegisterKeepsInvariant(s, answer);
      case StepAck => AckKeepsInvariant(s);
      case StepRestart(answered) => RestartKeepsInvariant(s, answered);
      case _ => RequestKeepsInvariant(s, step);
    }
  }

  predicate NeverTakesHeldPlace(s: State, steps: seq<Step>)
    requires IsRun(s, steps)
    decreases |steps|
  {
    steps != [] ==> !TakesHeldPlace(s, steps[0]) && NeverTakesHeldPlace(Next(s, steps[0]), steps[1..])
  }

  /** Safety over every run: while no held capture loses its place, the queue stays a chain on the
      registrar's head and no register conflicts. */
  lemma {:induction false} RunsAreSafe(s: State, steps: seq<Step>)
    requires Inv(s) && IsRun(s, steps) && NeverTakesHeldPlace(s, steps)
    ensures Inv(After(s, steps)) && After(s, steps).conflict == s.conflict
    decreases |steps|
  {
    if steps != [] {
      StepKeepsInvariant(s, steps[0]);
      RunsAreSafe(Next(s, steps[0]), steps[1..]);
    }
  }

  // ----- What keeps held captures in their place -----------------------------------------------

  /** A registered capture still queued is the shipper's, and so is nothing a repair will replace. */
  predicate Guarded(s: State) {
    && Inv(s)
    && (s.queue != [] && s.head == Some(s.queue[0].manifest) ==> s.ship.Claimed? || s.ship.Registered?)
    && (s.repairing.Some? ==> TargetQueued(s) && !Held(s, s.repairing.value.target))
  }

  /** Every answer reaches the shipper before it lets go, nothing is claimed between the two class
      rebuilds of one repair, and a daemon does not stop between a register and its ack. */
  predicate Disciplined(s: State, step: Step) {
    match step
    case StepRegister(answer) =>
      answer != Lost && (answer == Unreached && s.ship.Claimed? ==> s.head != Some(s.ship.entry.manifest))
    case StepClaim => s.repairing.None?
    case StepRestart(_) => s.queue != [] ==> s.head != Some(s.queue[0].manifest)
    case _ => true
  }

  lemma GuardedAck(s: State)
    requires Guarded(s) && s.ship.Registered?
    ensures Guarded(Next(s, StepAck))
  {
  }

  lemma GuardedRepair(s: State, a: SnapArgs)
    requires Guarded(s) && CanRepair(s, a)
    ensures !TakesHeldPlace(s, StepRepairClass(a)) && Guarded(RepairClass(s, a))
  {
    var i :| 0 <= i < |s.queue| && s.queue[i].manifest == s.repairing.value.target.manifest;
    var m := RepairManifest(s, a);
    var at := IndexAt(s.queue, m.n);
    ChainPositions(s.queue, i);
    ChainPositions(s.queue, at);
    RepairKeepsInvariant(s, a);
    var t := RepairClass(s, a);
    assert t.queue[|t.queue| - 1].manifest == m;
    ChainPositions(t.queue, |t.queue| - 1);
  }

  lemma GuardedSnap(s: State, a: SnapArgs)
    requires Guarded(s) && CanSnap(s, a)
    ensures !TakesHeldPlace(s, StepSnap(a)) && Guarded(Snap(s, a))
  {
    SnapKeepsInvariant(s, a);
    if !Unchanged(s, a) && Cut(s, a) == 0 && s.queue != [] {
      ChainPositions(s.queue, |s.queue| - 1);
      assert !Held(s, s.queue[0]);
    }
  }

  lemma GuardedBegin(s: State, forget: set<Key>)
    requires Guarded(s) && Enabled(s, StepRepairBegin(forget))
    ensures Guarded(RepairBegin(s, forget))
  {
  }

  lemma GuardedSeal(s: State, a: SealArgs)
    requires Guarded(s) && CanSeal(s)
    ensures Guarded(Seal(s, a))
  {
  }

  lemma GuardedRegister(s: State, answer: Answer)
    requires Guarded(s) && CanRegister(s, answer) && Disciplined(s, StepRegister(answer))
    ensures Guarded(Register(s, answer))
  {
  }

  lemma GuardedRestart(s: State, answered: BulkState)
    requires Guarded(s) && Disciplined(s, StepRestart(answered))
    ensures Guarded(Restart(s, answered))
  {
  }

  lemma GuardedRequest(s: State, step: Step)
    requires Guarded(s) && Enabled(s, step) && Disciplined(s, step)
    requires step.StepRepairEnd? || step.StepRepairFail? || step.StepClearRequest? || step.StepAskRepair?
             || step.StepRelease? || step.StepClaim?
    ensures Guarded(Next(s, step))
  {
    RequestKeepsInvariant(s, step);
  }

  lemma GuardedStep(s: State, step: Step)
    requires Guarded(s) && Enabled(s, step) && Disciplined(s, step)
    ensures !TakesHeldPlace(s, step) && Guarded(Next(s, step))
  {
    hide Guarded;
    hide Disciplined;
    match step {
      case StepSnap(a) => GuardedSnap(s, a);
      case StepSeal(a) => GuardedSeal(s, a);
      case StepRepairClass(a) => GuardedRepair(s, a);
      case StepRepairBegin(forget) => GuardedBegin(s, forget);
      case StepRegister(answer) => GuardedRegister(s, answer);
      case StepAck => GuardedAck(s);
      case StepRestart(answered) => GuardedRestart(s, answered);
      case _ => GuardedRequest(s, step);
    }
  }

  predicate IsDisciplined(s: State, steps: seq<Step>)
    requires IsRun(s, steps)
    decreases |steps|
  {
    steps != [] ==> Disciplined(s, steps[0]) && IsDisciplined(Next(s, steps[0]), steps[1..])
  }

  /** The chain's safety property: from a guarded state, no disciplined run ever conflicts. */
  lemma {:induction false} DisciplinedRunsNeverConflict(s: State, steps: seq<Step>)
    requires Guarded(s) && IsRun(s, steps) && IsDisciplined(s, steps)
    ensures Guarded(After(s, steps)) && NeverTakesHeldPlace(s, steps)
    ensures After(s, steps).conflict == s.conflict
    decreases |steps|
  {
    if steps != [] {
      GuardedStep(s, steps[0]);
      StepKeepsInvariant(s, steps[0]);
      DisciplinedRunsNeverConflict(Next(s, steps[0]), steps[1..]);
    }
  }

  // ----- What goes wrong otherwise -------------------------------------------------------------

  /** The shipper takes up the front of the queue and is answered. */
  const ShipOne: seq<Step> := [StepClaim, StepRegister(Answered)]

  lemma WrongParentConflicts(t: State)
    requires CanClaim(t) && !Registrable(t.head, t.queue[0].manifest)
    ensures IsRun(t, ShipOne) && After(t, ShipOne).conflict
  {
  }

  /** A snap that takes the registered head's place is refused at its own register. */
  lemma SupersededHeadConflicts(s: State, a: SnapArgs)
    requires Inv(s) && s.ship.Idle? && s.request.None?
    requires CanSnap(s, a) && TakesHeldPlace(s, StepSnap(a))
    ensures IsRun(Snap(s, a), ShipOne) && After(Snap(s, a), ShipOne).conflict
  {
    var t := Snap(s, a);
    assert t.queue[0].manifest == SnapManifest(s, a);
    WrongParentConflicts(t);
  }

  /** So is a class rebuild whose capture the shipper registered after the class before it. */
  lemma SupersededRepairConflicts(s: State, a: SnapArgs)
    requires Inv(s) && s.ship.Idle? && s.queue == []
    requires CanRepair(s, a) && TakesHeldPlace(s, StepRepairClass(a))
    requires s.request.Some? ==> !Asks(s.request.value, RepairEntry(s, a))
    ensures IsRun(RepairClass(s, a), ShipOne) && After(RepairClass(s, a), ShipOne).conflict
  {
    WrongParentConflicts(RepairClass(s, a));
  }

  function Opened(): State {
    State(None, false, [], Idle, None, None, None, None)
  }

  /** An automatic small snap whose git section lists `packs`. */
  function ExampleSnap(packs: seq<Key>): SnapArgs {
    SnapArgs(Auto, |packs|, "2026-09-12T10:11:12Z",
             SmallBuilt(GitSection(packs, {}), WorkspaceSection(Key(KeyPrefix([119, 116], 1, Some(0)), Tree("t")), {}, {})),
             [], KeyPrefix([119, 116], 1, Some(0)))
  }

  lemma {:induction false} RunsCompose(s: State, first: seq<Step>, second: seq<Step>)
    requires IsRun(s, first) && IsRun(After(s, first), second)
    ensures IsRun(s, first + second) && After(s, first + second) == After(After(s, first), second)
    decreases |first|
  {
    var all := first + second;
    if first == [] {
      assert all == second;
    } else {
      assert all[0] == first[0] && all[1..] == first[1..] + second;
      var t := Next(s, first[0]);
      assert IsRun(t, first[1..]) && After(s, first) == After(t, first[1..]);
      RunsCompose(t, first[1..], second);
      assert IsRun(s, all) && After(s, all) == After(t, all[1..]);
    }
  }

  /** The first capture registered, its answer lost and the shipper letting go. */
  function LetGo(a: SnapArgs): State
    requires a.built.SmallBuilt?
  {
    var e := SnapEntry(Opened(), a);
    State(Some(e.manifest), false, [e], Idle, None, Some(Encode(e.manifest)), None, None)
  }

  lemma LetGoIsReached(a: SnapArgs) returns (run: seq<Step>)
    requires a.built.SmallBuilt?
    ensures IsRun(Opened(), run) && After(Opened(), run) == LetGo(a)
  {
    var s := Snap(Opened(), a);
    assert s.queue == [SnapEntry(Opened(), a)];
    hide SnapEntry;
    run := Append(Opened(), [], StepSnap(a));
    hide Snap;
    run := Append(Opened(), run, StepClaim);
    run := Append(Opened(), run, StepRegister(Lost));
    run := Append(Opened(), run, StepRelease);
  }

  lemma LetGoIsTaken(a: SnapArgs, b: SnapArgs)
    requires a.built.SmallBuilt? && b.built.SmallBuilt? && a.kind == Auto && b.kind == Auto && a.built != b.built
    ensures Inv(LetGo(a)) && CanSnap(LetGo(a), b) && TakesHeldPlace(LetGo(a), StepSnap(b))
  {
  }

  /** It happens: the answer to the first register is lost, the shipper lets go, the next automatic
      snap coalesces with the capture the registrar already holds, and the chain conflicts. */
  lemma LostAnswerConflicts() returns (run: seq<Step>)
    ensures Guarded(Opened()) && IsRun(Opened(), run) && After(Opened(), run).conflict
    ensures !IsDisciplined(Opened(), run)
  {
    var a, b := ExampleSnap([]), ExampleSnap([Key(KeyPrefix([119, 116], 1, Some(0)), GitPack("p"))]);
    assert |a.built.git.packs| != |b.built.git.packs|;
    LetGoIsTaken(a, b);
    SupersededHeadConflicts(LetGo(a), b);
    run := LetGoIsReached(a);
    hide Snap;
    run := Append(Opened(), run, StepSnap(b));
    RunsCompose(Opened(), run, ShipOne);
    run := run + ShipOne;
    if IsDisciplined(Opened(), run) {
      DisciplinedRunsNeverConflict(Opened(), run);
    }
  }

  lemma Append(s: State, run: seq<Step>, step: Step) returns (longer: seq<Step>)
    requires IsRun(s, run) && Enabled(After(s, run), step)
    ensures IsRun(s, longer) && After(s, longer) == Next(After(s, run), step)
  {
    assert [step][1..] == [];
    RunsCompose(s, run, [step]);
    longer := run + [step];
  }
}
