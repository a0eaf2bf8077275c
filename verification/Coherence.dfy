/** What every thread of the daemon keeps of the chain, whatever the shipper hears: a lost answer, a register
    that conflicts, a capture taken up between the two classes of a repair. The queue stays a chain that
    ends in the engine's newest capture, and the newest capture reads as the latest builds, even where
    the registrar's head is no longer under it (engine.rs, ship.rs). */
module Coherence {
  import opened Options
  import opened Captures
  import opened Chain
  import opened ChainSafety
  import opened ChainRegisters

  predicate Shipping(c: State) {
    c.ship.Claimed? || c.ship.Registered?
  }

  /** A position the newest capture and the queue are not behind. */
  predicate NotBehind(c: State, n: nat) {
    c.previous.Some? && n <= c.previous.value.manifest.n && (c.queue != [] ==> n <= c.queue[0].manifest.n)
  }

  /** What the shipper holds is at the front or gone, and it holds nothing while the front waits for a repair. */
  predicate ShipperBehind(c: State) {
    && (c.request.Some? ==> NotBehind(c, c.request.value.n))
    && (!c.ship.Idle? ==>
          && NotBehind(c, c.ship.entry.manifest.n)
          && (c.request.Some? && c.queue != [] ==> !Asks(c.request.value, c.queue[0])))
    && (Shipping(c) ==> c.queue != [] && c.queue[0].manifest.n == c.ship.entry.manifest.n)
  }

  /** What a repair replaces is the whole queue, until what it rebuilt first was taken off it. */
  predicate RepairWhole(c: State) {
    c.repairing.Some? ==>
      var r := c.repairing.value;
      && (c.queue == Folded(r)
          || (c.queue == [] && r.followers == [] && c.previous.Some? && r.target.manifest == c.previous.value.manifest))
      && (r.followers != [] ==> c.request.Some? && Asks(c.request.value, r.target))
  }

  predicate Coherent(c: State) {
    && IsChain(c.queue)
    && NewestStaged(c)
    && BelowAgrees(c)
    && ShipperBehind(c)
    && RepairWhole(c)
    && (c.previous.Some? && c.previous.value.manifest.finalSeal.Some? ==> c.previous.value.manifest.kind == Final)
  }

  /** The capture staged is not the refused one again, manifest and all. */
  predicate Renews(c: State, m: Manifest) {
    c.request.Some? ==> c.request.value.id != Sha(m)
  }

  predicate IsShipperStep(step: Step) {
    step.StepClaim? || step.StepRegister? || step.StepAck? || step.StepRelease? || step.StepAskRepair?
    || step.StepClearRequest?
  }

  // ----- The shipper ---------------------------------------------------------------------------

  lemma AckTakesFront(c: State)
    requires Coherent(c) && c.ship.Registered?
    ensures Next(c, StepAck) == c.(queue := c.queue[1..], ship := Acked(c.ship.entry))
  {
  }

  lemma AckCoheres(c: State)
    requires Coherent(c) && c.ship.Registered?
    ensures Coherent(Next(c, StepAck))
  {
    AckTakesFront(c);
    var t := Next(c, StepAck);
    assert forall i :: 0 <= i < |t.queue| ==> t.queue[i] == c.queue[i + 1];
    if |c.queue| > 1 {
      assert Succeeds(c.queue[1].manifest, Some(c.queue[0].manifest));
    }
    hide BelowAgrees;
    assert BelowAgrees(t) by { BelowStays(c, t); }
  }

  lemma BelowStays(c: State, t: State)
    requires BelowAgrees(c) && t.below == c.below && (t.queue != [] ==> c.queue != [] && Last(t.queue) == Last(c.queue))
    ensures BelowAgrees(t)
  {
  }

  lemma ClaimCoheres(c: State)
    requires Coherent(c) && CanClaim(c)
    ensures Coherent(Next(c, StepClaim))
  {
    ChainPositions(c.queue, |c.queue| - 1);
    hide BelowAgrees;
    BelowStays(c, Next(c, StepClaim));
  }

  lemma RegisterCoheres(c: State, answer: Answer)
    requires Coherent(c) && CanRegister(c, answer)
    ensures Coherent(Register(c, answer)) && c.queue != []
    ensures Register(c, answer).previous == c.previous && Register(c, answer).repairing == c.repairing
  {
    var t := Register(c, answer);
    assert t.queue == c.queue && t.previous == c.previous && t.below == c.below && t.request == c.request
           && t.repairing == c.repairing && t.ship.entry == c.ship.entry;
    BelowStays(c, t);
    hide Register;
    hide BelowAgrees;
    hide IsChain;
  }

  lemma ReleaseCoheres(c: State, step: Step)
    requires Coherent(c) && Enabled(c, step) && (step.StepRelease? || step.StepAskRepair? || step.StepClearRequest?)
    ensures Coherent(Next(c, step))
  {
    var t := Next(c, step);
    BelowStays(c, t);
    hide BelowAgrees;
    hide IsChain;
  }

  /** The shipper and the registrar, whatever is answered, change neither the newest capture nor an empty
      queue and what is under it. */
  lemma ShipperCoheres(c: State, step: Step)
    requires Coherent(c) && IsShipperStep(step) && Enabled(c, step)
    ensures Coherent(Next(c, step))
    ensures Next(c, step).previous == c.previous && Next(c, step).repairing == c.repairing
    ensures c.queue == [] ==> Next(c, step).queue == [] && Next(c, step).head == c.head
  {
    match step {
      case StepAck =>
        AckCoheres(c);
        AckTakesFront(c);
        assert c.queue != [];
      case StepClaim => ClaimCoheres(c);
      case StepRegister(answer) => RegisterCoheres(c, answer);
      case _ => ReleaseCoheres(c, step);
    }
    hide Coherent;
  }

  // ----- Staging -------------------------------------------------------------------------------

  /** A queue staged over stays a chain. */
  lemma CutStaysChain(c: State, cut: nat, entry: QueueEntry, top: seq<QueueEntry>)
    requires IsChain(c.queue) && NewestStaged(c) && cut <= |c.queue|
    requires entry.manifest.n == PlaceN(c, cut) && entry.manifest.parent == PlaceParent(c, cut)
    requires IsChain([entry] + top)
    ensures IsChain(c.queue[..cut] + [entry] + top)
  {
    var q := c.queue[..cut] + [entry] + top;
    forall i | 0 < i < |q| ensures Succeeds(q[i].manifest, Some(q[i - 1].manifest)) {
      if i < cut {
        assert q[i] == c.queue[i] && q[i - 1] == c.queue[i - 1];
      } else if i == cut {
        if cut < |c.queue| {
          assert Succeeds(c.queue[cut].manifest, Some(c.queue[cut - 1].manifest));
        }
      } else {
        var j := i - cut;
        assert q[i] == ([entry] + top)[j] && q[i - 1] == ([entry] + top)[j - 1];
      }
    }
  }

  /** A snap leaves the front to the shipper that holds it, and never moves it back. */
  lemma SnapFront(c: State, a: SnapArgs)
    requires Coherent(c) && CanSnap(c, a) && !Unchanged(c, a)
    ensures Shipping(c) ==> Cut(c, a) > 0
    ensures c.queue != [] ==> PlaceN(c, 0) == c.queue[0].manifest.n
  {
    if Shipping(c) && c.queue != [] {
      ChainPositions(c.queue, |c.queue| - 1);
    }
  }

  lemma SnapQueue(c: State, a: SnapArgs)
    requires Coherent(c) && CanSnap(c, a) && !Unchanged(c, a)
    ensures var t := Snap(c, a);
            && t.queue != [] && IsChain(t.queue) && NewestStaged(t)
            && (if Cut(c, a) > 0 then t.queue[0] == c.queue[0]
                else t.queue[0].manifest == SnapManifest(c, a) && SnapManifest(c, a).n == PlaceN(c, 0))
  {
    var entry := SnapEntry(c, a);
    var t := Snap(c, a);
    if Hoists(c, ClassOf(a.built)) {
      var moved := MovedEntry(Last(c.queue), entry.manifest, a.prefix);
      assert t.queue == c.queue[..Cut(c, a)] + [entry] + [moved];
      assert IsChain([entry] + [moved]);
      CutStaysChain(c, Cut(c, a), entry, [moved]);
    } else {
      assert t.queue == c.queue[..Cut(c, a)] + [entry] + [];
      CutStaysChain(c, Cut(c, a), entry, []);
    }
  }

  lemma SnapBehind(c: State, a: SnapArgs)
    requires Coherent(c) && CanSnap(c, a) && !Unchanged(c, a) && Renews(c, SnapManifest(c, a))
    ensures ShipperBehind(Snap(c, a))
  {
    SnapFront(c, a);
    SnapQueue(c, a);
    var t := Snap(c, a);
    ChainPositions(t.queue, |t.queue| - 1);
    assert t.ship == c.ship && t.request == c.request;
    hide Snap;
    hide SnapManifest;
    hide Unchanged;
    hide Cut;
    hide BelowAgrees;
  }

  /** A snap of any thread: the newest capture holds its build, and what the capture before had. */
  lemma SnapCoheres(c: State, a: SnapArgs)
    requires Coherent(c) && CanSnap(c, a) && (Unchanged(c, a) || Renews(c, SnapManifest(c, a)))
    ensures var t := Snap(c, a);
            && Coherent(t) && t.repairing.None?
            && SectionsOf(t.previous) == Some(Apply(SectionsOf(c.previous), a.built))
            && (!Unchanged(c, a) ==> t.previous.value.manifest.finalSeal.None? && t.queue != [])
            && (Unchanged(c, a) ==> t == c)
  {
    SnapRefinesRegisters(c, a);
    if !Unchanged(c, a) {
      SnapQueue(c, a);
      SnapBehind(c, a);
      SnapUnsealed(c, a);
    }
    hide Snap;
    hide Unchanged;
    hide Apply;
    hide BelowAgrees;
    hide IsChain;
    hide ShipperBehind;
  }

  lemma SnapUnsealed(c: State, a: SnapArgs)
    requires CanSnap(c, a) && !Unchanged(c, a)
    ensures Snap(c, a).previous.Some? && Snap(c, a).previous.value.manifest.finalSeal.None? && Snap(c, a).repairing.None?
  {
  }

  lemma SealCoheres(c: State, a: SealArgs)
    requires Coherent(c) && CanSeal(c)
    ensures Coherent(Seal(c, a)) && Seal(c, a).repairing.None? && Seal(c, a).queue != []
    ensures Seal(c, a).previous == Some(Encode(SealManifest(c, a)))
    ensures SectionsOf(Seal(c, a).previous) == SectionsOf(c.previous)
  {
    var t := Seal(c, a);
    SealRefinesRegisters(c, a);
    CutStaysChain(c, |c.queue|, t.queue[|c.queue|], []);
    assert t.queue == c.queue[..|c.queue|] + [t.queue[|c.queue|]] + [];
    hide BelowAgrees;
  }

  // ----- Repairs -------------------------------------------------------------------------------

  lemma BeginCoheres(c: State, forget: set<Key>)
    requires Coherent(c) && c.repairing.None? && c.request.Some?
    ensures var t := RepairBegin(c, forget);
            && Coherent(t) && t.previous == c.previous && t.queue == c.queue && t.head == c.head
            && (t.repairing.Some? ==> c.queue != [])
  {
    var at := Position(c.queue, c.request.value);
    if at < |c.queue| {
      ChainPositions(c.queue, at);
      assert at == 0 && c.queue == [c.queue[0]] + c.queue[1..];
    }
    hide BelowAgrees;
    BelowStays(c, RepairBegin(c, forget));
  }

  /** What a repair replaces ends with the newest capture, so a final one stays final. */
  lemma RepairStaysFinal(c: State, a: SnapArgs)
    requires Coherent(c) && CanRepair(c, a)
    ensures c.previous.value.manifest.kind == Final ==> RepairManifest(c, a).kind == Final
  {
    var folded := Folded(c.repairing.value);
    assert folded[|folded| - 1].manifest == c.previous.value.manifest;
  }

  lemma RebuildBehind(c: State, a: SnapArgs)
    requires Coherent(c) && CanRepair(c, a) && Renews(c, RepairManifest(c, a))
    ensures RepairClass(c, a).queue == [RepairEntry(c, a)]
    ensures ShipperBehind(RepairClass(c, a))
  {
    var t, e := RepairClass(c, a), RepairEntry(c, a);
    var n := c.repairing.value.target.manifest.n;
    assert e.manifest.n == n && e.manifest == RepairManifest(c, a);
    assert IndexAt(c.queue, n) == 0;
    assert t.queue == [e] && t.previous == Some(Encode(e.manifest)) && t.ship == c.ship && t.request == c.request;
    hide RepairClass;
    hide RepairEntry;
    hide RepairManifest;
    hide BelowAgrees;
    hide IsChain;
  }

  /** A class rebuilt, whether or not the shipper took up what was rebuilt before it. */
  lemma RebuildCoheres(c: State, a: SnapArgs)
    requires Coherent(c) && CanRepair(c, a) && Renews(c, RepairManifest(c, a))
    ensures var t := RepairClass(c, a);
            && Coherent(t) && t.repairing.Some? && t.queue == [RepairEntry(c, a)]
            && SectionsOf(t.previous) == Some(Apply(SectionsOf(c.previous), a.built))
            && t.previous.value.manifest.finalSeal.None?
            && (c.previous.value.manifest.kind == Final ==> t.previous.value.manifest.kind == Final)
  {
    RepairStaysFinal(c, a);
    RebuildBehind(c, a);
    hide Coherent;
    hide ShipperBehind;
    hide IndexAt;
    var t := RepairClass(c, a);
    assert RepairWhole(t) && NewestStaged(t) && BelowAgrees(t) && IsChain(t.queue);
    MakesCoherent(t);
  }

  lemma MakesCoherent(c: State)
    requires IsChain(c.queue) && NewestStaged(c) && BelowAgrees(c) && ShipperBehind(c) && RepairWhole(c)
    requires c.previous.Some? && c.previous.value.manifest.finalSeal.Some? ==> c.previous.value.manifest.kind == Final
    ensures Coherent(c)
  {
  }

  lemma EndCoheres(c: State, step: Step)
    requires Coherent(c) && c.repairing.Some? && (step.StepRepairEnd? || step.StepRepairFail?)
    ensures var t := Next(c, step);
            Coherent(t) && t.previous == c.previous && t.queue == c.queue && t.head == c.head && t.repairing.None?
  {
    BelowStays(c, Next(c, step));
    hide BelowAgrees;
  }

  // ----- Runs ----------------------------------------------------------------------------------

  /** No step stages the very capture a repair is asked for, and the process is not started again. */
  predicate Renewing(c: State, step: Step)
    requires Enabled(c, step)
  {
    match step
    case StepSnap(a) => Unchanged(c, a) || Renews(c, SnapManifest(c, a))
    case StepRepairClass(a) => Renews(c, RepairManifest(c, a))
    case StepRestart(_) => false
    case _ => true
  }

  lemma StepCoheres(c: State, step: Step)
    requires Coherent(c) && Enabled(c, step) && Renewing(c, step)
    ensures Coherent(Next(c, step))
  {
    hide Coherent;
    match step {
      case StepSnap(a) => SnapCoheres(c, a);
      case StepSeal(a) => SealCoheres(c, a);
      case StepRepairBegin(forget) => BeginCoheres(c, forget);
      case StepRepairClass(a) => RebuildCoheres(c, a);
      case StepRepairEnd => EndCoheres(c, step);
      case StepRepairFail => EndCoheres(c, step);
      case _ => ShipperCoheres(c, step);
    }
  }

  predicate AllRenewing(c: State, steps: seq<Step>)
    requires IsRun(c, steps)
    decreases |steps|
  {
    steps != [] ==> Renewing(c, steps[0]) && AllRenewing(Next(c, steps[0]), steps[1..])
  }

  /** Over every run of one process, answers lost and registers conflicting included, the queue is a chain
      that ends in the engine's newest capture. */
  lemma {:induction false} RunsStayCoherent(c: State, steps: seq<Step>)
    requires Coherent(c) && IsRun(c, steps) && AllRenewing(c, steps)
    ensures Coherent(After(c, steps))
    decreases |steps|
  {
    hide Coherent;
    hide Enabled;
    hide Next;
    hide Renewing;
    if steps != [] {
      StepCoheres(c, steps[0]);
      RunsStayCoherent(Next(c, steps[0]), steps[1..]);
    }
  }

  // ----- What it says of the registrar ---------------------------------------------------------

  /** With nothing left queued, the newest capture is the registered head. */
  predicate Grounded(c: State) {
    c.queue == [] && c.previous.Some? ==> c.head.Some? && c.previous.value.id == Sha(c.head.value)
  }

  /** The shipper takes the last capture off the queue, and it is not the one that was registered. */
  predicate Strays(c: State, step: Step) {
    step.StepAck? && |c.queue| == 1 && (c.head.Some? ==> Sha(c.head.value) != IdOf(c.queue[0]))
  }

  /** Exactly so a shipper leaves the engine on a capture no one registered. */
  lemma ShipperGrounds(c: State, step: Step)
    requires Coherent(c) && Grounded(c) && IsShipperStep(step) && Enabled(c, step)
    ensures Grounded(Next(c, step)) <==> !Strays(c, step)
  {
    if step.StepAck? {
      AckTakesFront(c);
    } else {
      ShipperCoheres(c, step);
      assert c.queue != [] ==> Next(c, step).queue != [];
    }
    hide BelowAgrees;
    hide ShipperBehind;
    hide IsChain;
    hide Register;
  }

  /** An opened chain, and every state a disciplined run keeps, is so grounded. */
  lemma DisciplinedIsGrounded(c: State)
    requires Inv(c)
    ensures Grounded(c)
  {
  }
}
