/** A repair that rebuilds both classes stages them one after the other, and the shipper may take up
    the first before the second is staged (engine.rs, `repair_one`; ship.rs, `ack`). What becomes of
    the chain then, for every such state, and runs from an opened chain that reach one. */
module RepairRaces {
  import opened Options
  import opened Captures
  import opened Chain
  import opened ChainSafety
  import opened Coherence
  import opened Restage

  /** Nothing staged, and the engine follows a capture that is not the registrar's head. */
  predicate Astray(s: State) {
    && s.queue == []
    && s.ship.Idle?
    && s.request.None?
    && s.repairing.None?
    && s.head.Some?
    && s.previous.Some?
    && s.previous.value.id != Sha(s.head.value)
    && s.previous.value.manifest.n == s.head.value.n
  }

  /** An engine astray stays so: whatever it stages next is refused as a wrong parent. */
  lemma AstrayConflicts(s: State, a: SnapArgs)
    requires Astray(s) && CanSnap(s, a) && !Unchanged(s, a)
    ensures IsRun(s, [StepSnap(a)] + ShipOne) && After(s, [StepSnap(a)] + ShipOne).conflict
  {
    var t := Snap(s, a);
    assert t.queue == [SnapEntry(s, a)];
    WrongParentConflicts(t);
    assert ([StepSnap(a)] + ShipOne)[1..] == ShipOne;
  }

  /** Nor is its next seal registered: a flush with an executor to seal under does not complete over it. */
  lemma AstraySealConflicts(s: State, a: SealArgs)
    requires Astray(s)
    ensures IsRun(s, [StepSeal(a)] + ShipOne) && After(s, [StepSeal(a)] + ShipOne).conflict
  {
    var t := Seal(s, a);
    assert |t.queue| == 1;
    WrongParentConflicts(t);
    assert ([StepSeal(a)] + ShipOne)[1..] == ShipOne;
  }

  /** The shipper acks what it registered and the repair ends. */
  const LetRepairEnd: seq<Step> := [StepAck, StepRelease, StepRepairEnd]

  lemma AckTakesTheRebuilt(t: State)
    requires t.ship.Registered? && t.head == Some(t.ship.entry.manifest) && t.repairing.Some?
    requires |t.queue| == 1 && t.queue[0].manifest.n == t.head.value.n && t.queue[0].manifest != t.head.value
    requires t.previous == Some(Encode(t.queue[0].manifest))
    ensures IsRun(t, LetRepairEnd) && Astray(After(t, LetRepairEnd))
    ensures After(t, LetRepairEnd) == t.(queue := [], ship := Idle, request := None, repairing := None)
  {
    var u := t.(queue := [], ship := Acked(t.ship.entry));
    assert Next(t, StepAck) == u;
    assert LetRepairEnd[1..] == [StepRelease, StepRepairEnd] && LetRepairEnd[1..][1..] == [StepRepairEnd];
  }

  /** A class rebuilt while the capture it replaces is registered and not yet acked is lost: it
      takes the queue file the ack removes, and leaves the engine astray once the repair ends. */
  lemma RebuildUnderRegisterIsLost(s: State, a: SnapArgs)
    requires Inv(s) && s.ship.Registered?
    requires CanRepair(s, a) && TargetQueued(s) && TakesHeldPlace(s, StepRepairClass(a))
    ensures IsRun(RepairClass(s, a), LetRepairEnd)
    ensures Astray(After(RepairClass(s, a), LetRepairEnd)) && Coherent(After(RepairClass(s, a), LetRepairEnd))
    ensures After(RepairClass(s, a), LetRepairEnd).head == s.head
  {
    var i :| 0 <= i < |s.queue| && s.queue[i].manifest == s.repairing.value.target.manifest;
    ChainPositions(s.queue, i);
    var t := RepairClass(s, a);
    assert t.queue == [RepairEntry(s, a)];
    AckTakesTheRebuilt(t);
  }

  // ----- Runs that get there -------------------------------------------------------------------

  /** The refused first capture taken up for repair. */
  function TakenUp(a: SnapArgs): State
    requires a.built.SmallBuilt?
  {
    var e := SnapEntry(Opened(), a);
    State(None, false, [e], Idle, Some(RepairRequest(e.manifest.n, IdOf(e))), Some(Encode(e.manifest)), None,
          Some(Repairing(e, [], {})))
  }

  lemma RefusalIsReached(a: SnapArgs) returns (run: seq<Step>)
    requires a.built.SmallBuilt?
    ensures IsRun(Opened(), run)
    ensures After(Opened(), run) == TakenUp(a).(ship := Asking(SnapEntry(Opened(), a)), request := None, repairing := None)
  {
    var s := Snap(Opened(), a);
    assert s.queue == [SnapEntry(Opened(), a)];
    hide SnapEntry;
    run := Append(Opened(), [], StepSnap(a));
    hide Snap;
    run := Append(Opened(), run, StepClaim);
    run := Append(Opened(), run, StepRegister(RefusedIt));
    run := Append(Opened(), run, StepRelease);
  }

  lemma TakenUpIsReached(a: SnapArgs) returns (run: seq<Step>)
    requires a.built.SmallBuilt?
    ensures IsRun(Opened(), run) && After(Opened(), run) == TakenUp(a)
  {
    run := RefusalIsReached(a);
    hide SnapEntry;
    run := Append(Opened(), run, StepAskRepair);
    var t := After(Opened(), run);
    assert t.queue[1..] == [];
    run := Append(Opened(), run, StepRepairBegin({}));
  }

  /** Its small class rebuilt, and the rebuilt capture registered. */
  function Registering(a: SnapArgs, b: SnapArgs): State
    requires a.built.SmallBuilt?
  {
    var e := RepairEntry(TakenUp(a), b);
    TakenUp(a).(queue := [e], previous := Some(Encode(e.manifest)), repairing := Some(Repairing(e, [], {})),
                head := Some(e.manifest), ship := Registered(e))
  }

  lemma RegisteringIsReached(a: SnapArgs, b: SnapArgs) returns (run: seq<Step>)
    requires a.built.SmallBuilt? && a.built != b.built
    ensures IsRun(Opened(), run) && After(Opened(), run) == Registering(a, b)
  {
    run := TakenUpIsReached(a);
    var s := TakenUp(a);
    var e := RepairEntry(s, b);
    assert s.queue[..0] + [e] == [e];
    assert !Asks(s.request.value, e) && e.manifest.n == 0 && e.manifest.parent.None?;
    hide SnapEntry;
    hide RepairEntry;
    run := Append(Opened(), run, StepRepairClass(b));
    hide RepairClass;
    run := Append(Opened(), run, StepClaim);
    run := Append(Opened(), run, StepRegister(Answered));
  }

  lemma RegisteringIsHeld(a: SnapArgs, b: SnapArgs, c: SnapArgs)
    requires a.built.SmallBuilt? && b.built.SmallBuilt? && c.built.BulkBuilt?
    requires a.built != b.built
    ensures var s := Registering(a, b);
            Inv(s) && CanRepair(s, c) && TargetQueued(s) && TakesHeldPlace(s, StepRepairClass(c))
    ensures RepairManifest(Registering(a, b), c) != Registering(a, b).head.value
  {
    var s := Registering(a, b);
    assert s.queue[0].manifest == s.repairing.value.target.manifest;
    assert s.head.value.sections.bulk.Pending? && RepairManifest(s, c).sections.bulk.Ready?;
  }

  lemma LostRebuildIsReached(a: SnapArgs, b: SnapArgs, c: SnapArgs) returns (run: seq<Step>)
    requires a.built.SmallBuilt? && b.built.SmallBuilt? && c.built.BulkBuilt?
    requires a.built != b.built
    ensures IsRun(Opened(), run) && Astray(After(Opened(), run)) && Coherent(After(Opened(), run))
  {
    run := RegisteringIsReached(a, b);
    RegisteringIsHeld(a, b, c);
    RebuildUnderRegisterIsLost(Registering(a, b), c);
    hide Registering;
    run := Append(Opened(), run, StepRepairClass(c));
    hide RepairClass;
    RunsCompose(Opened(), run, LetRepairEnd);
    run := run + LetRepairEnd;
  }

  /** It happens with the rebuild registered and not yet acked: the bulk class is rebuilt in its
      place, the ack removes it, and the next turn's capture is refused as a wrong parent. */
  lemma LostRebuildConflicts(a: SnapArgs, b: SnapArgs, c: SnapArgs, d: SnapArgs) returns (run: seq<Step>)
    requires a.built.SmallBuilt? && b.built.SmallBuilt? && c.built.BulkBuilt? && d.kind == Turn
    requires a.built != b.built
    ensures IsRun(Opened(), run) && After(Opened(), run).conflict
  {
    run := LostRebuildIsReached(a, b, c);
    var s := After(Opened(), run);
    hide IsRun;
    hide After;
    AstrayConflicts(s, d);
    RunsCompose(Opened(), run, [StepSnap(d)] + ShipOne);
    run := run + ([StepSnap(d)] + ShipOne);
  }

  /** The rebuilt capture acked and released, the repair still to rebuild the other class. */
  lemma ShippedIsReached(a: SnapArgs, b: SnapArgs) returns (run: seq<Step>)
    requires a.built.SmallBuilt? && a.built != b.built
    ensures IsRun(Opened(), run) && After(Opened(), run) == Registering(a, b).(queue := [], ship := Idle)
  {
    run := RegisteringIsReached(a, b);
    hide RepairEntry;
    run := Append(Opened(), run, StepAck);
    run := Append(Opened(), run, StepRelease);
  }

  lemma ShippedIsTaken(a: SnapArgs, b: SnapArgs, c: SnapArgs)
    requires a.built.SmallBuilt? && b.built.SmallBuilt? && c.built.BulkBuilt?
    requires a.built != b.built
    ensures var s := Registering(a, b).(queue := [], ship := Idle);
            && Inv(s) && CanRepair(s, c) && TakesHeldPlace(s, StepRepairClass(c))
            && (s.request.Some? ==> !Asks(s.request.value, RepairEntry(s, c)))
  {
    var s := Registering(a, b).(queue := [], ship := Idle);
    assert s.head.value.sections.bulk.Pending? && RepairManifest(s, c).sections.bulk.Ready?;
  }

  /** It happens with the rebuild acked: the bulk class is rebuilt in the place of the registered
      head, and is itself refused as a wrong parent. */
  lemma ShippedRebuildConflicts(a: SnapArgs, b: SnapArgs, c: SnapArgs) returns (run: seq<Step>)
    requires a.built.SmallBuilt? && b.built.SmallBuilt? && c.built.BulkBuilt?
    requires a.built != b.built
    ensures IsRun(Opened(), run) && After(Opened(), run).conflict
  {
    run := ShippedIsReached(a, b);
    ShippedIsTaken(a, b, c);
    var s := Registering(a, b).(queue := [], ship := Idle);
    SupersededRepairConflicts(s, c);
    hide Registering;
    hide RepairClass;
    run := Append(Opened(), run, StepRepairClass(c));
    hide IsRun;
    hide After;
    RunsCompose(Opened(), run, ShipOne);
    run := run + ShipOne;
  }

  // ----- A repair interrupted after its journal was committed ----------------------------------

  /** The shipper takes up the front of the queue, is answered and lets go of it. */
  const ShipAndRelease: seq<Step> := [StepClaim, StepRegister(Answered), StepAck, StepRelease]

  /** The state a capture staged after an interrupted repair is in: the rebuilt capture, and the
      new one still on the capture it superseded. */
  lemma ShipRebuilt(t: State)
    requires t.ship.Idle? && t.request.None? && |t.queue| == 2 && t.repairing.None?
    requires Registrable(t.head, t.queue[0].manifest)
    requires t.queue[1].manifest.parent != Some(IdOf(t.queue[0])) && t.queue[1].manifest.n > t.queue[0].manifest.n
    ensures IsRun(t, ShipAndRelease) && CanClaim(After(t, ShipAndRelease))
    ensures var u := After(t, ShipAndRelease); !Registrable(u.head, u.queue[0].manifest)
  {
    var u := t.(head := Some(t.queue[0].manifest), ship := Registered(t.queue[0]));
    var run := ShipAndRelease;
    assert run[1..] == [StepRegister(Answered), StepAck, StepRelease] && run[1..][1..] == [StepAck, StepRelease];
    assert run[1..][1..][1..] == [StepRelease];
    assert Next(Next(t, StepClaim), StepRegister(Answered)) == u;
    assert Next(u, StepAck).queue == t.queue[1..];
  }

  /** The rebuilt capture alone in the queue, and the engine still on the capture it superseded. */
  predicate Stranded(i: State) {
    && i.ship.Idle?
    && i.repairing.None?
    && |i.queue| == 1
    && Registrable(i.head, i.queue[0].manifest)
    && i.previous.Some?
    && i.previous.value.id != IdOf(i.queue[0])
    && i.previous.value.manifest.n >= i.queue[0].manifest.n
    && i.request.Some?
    && !Asks(i.request.value, i.queue[0])
  }

  lemma InterruptedIsStranded(s: State, a: SnapArgs)
    requires Inv(s) && CanRepair(s, a) && s.ship.Idle? && s.queue != []
    requires s.queue[0].manifest == s.repairing.value.target.manifest && s.head != Some(s.queue[0].manifest)
    requires s.request.Some? && !Asks(s.request.value, RepairEntry(s, a))
    ensures Stranded(InterruptedRepair(s, a)) <==> !PreviousIsNewest(InterruptedRepair(s, a))
  {
    InterruptedRepairIsNotFollowed(s, a);
    OneEntryTellsNothing(s, a);
    ChainPositions(s.queue, |s.queue| - 1);
    assert Succeeds(s.queue[0].manifest, s.head);
    var e := RepairEntry(s, a);
    assert e.manifest.n == s.queue[0].manifest.n && e.manifest.parent == s.queue[0].manifest.parent;
    assert RepairClass(s, a).queue == [e];
    assert s.previous == Some(Encode(Last(s.queue).manifest));
    hide Inv;
    hide RepairEntry;
    hide RepairClass;
    hide InterruptedRepair;
  }

  /** The engine drops the request it finds no capture for and stages a turn's capture. */
  lemma TurnWhenStranded(i: State, d: SnapArgs) returns (t: State)
    requires Stranded(i) && d.kind == Turn
    ensures IsRun(i, [StepClearRequest, StepSnap(d)]) && t == After(i, [StepClearRequest, StepSnap(d)])
    ensures t.ship.Idle? && t.request.None? && |t.queue| == 2 && t.repairing.None?
    ensures Registrable(t.head, t.queue[0].manifest)
    ensures t.queue[1].manifest.parent != Some(IdOf(t.queue[0])) && t.queue[1].manifest.n > t.queue[0].manifest.n
  {
    assert i.queue[1..] == [];
    assert Position(i.queue, i.request.value) == 1 + Position(i.queue[1..], i.request.value) == 1;
    var u := i.(request := None);
    assert Next(i, StepClearRequest) == u;
    t := Snap(u, d);
    assert t.queue == i.queue + [SnapEntry(u, d)];
    var steps := [StepClearRequest, StepSnap(d)];
    assert steps[1..] == [StepSnap(d)] && [StepSnap(d)][1..] == [];
    assert IsRun(u, [StepSnap(d)]) && After(u, [StepSnap(d)]) == t;
  }

  /** What follows an interrupted repair that was not followed: the request is dropped, the next
      turn's capture is staged on the superseded one, and once the rebuilt capture is registered
      the register of that turn is refused as a wrong parent. */
  lemma InterruptedRepairConflicts(s: State, a: SnapArgs, d: SnapArgs) returns (run: seq<Step>)
    requires Inv(s) && CanRepair(s, a) && s.ship.Idle? && s.queue != []
    requires s.queue[0].manifest == s.repairing.value.target.manifest && s.head != Some(s.queue[0].manifest)
    requires s.request.Some? && !Asks(s.request.value, RepairEntry(s, a))
    requires !PreviousIsNewest(InterruptedRepair(s, a)) && d.kind == Turn
    ensures run == [StepClearRequest, StepSnap(d)] + ShipAndRelease + ShipOne
    ensures IsRun(InterruptedRepair(s, a), run) && After(InterruptedRepair(s, a), run).conflict
  {
    InterruptedIsStranded(s, a);
    var i := InterruptedRepair(s, a);
    hide InterruptedRepair;
    var t := TurnWhenStranded(i, d);
    ShipRebuilt(t);
    hide IsRun;
    hide After;
    run := [StepClearRequest, StepSnap(d)];
    RunsCompose(i, run, ShipAndRelease);
    run := run + ShipAndRelease;
    WrongParentConflicts(After(t, ShipAndRelease));
    RunsCompose(i, run, ShipOne);
    run := run + ShipOne;
  }

  /** It happens: the first capture is refused, its rebuild is interrupted, and the chain conflicts. */
  lemma InterruptionIsReached(a: SnapArgs, b: SnapArgs, d: SnapArgs) returns (before: seq<Step>, after: seq<Step>)
    requires a.built.SmallBuilt? && b.built.SmallBuilt? && a.built != b.built && d.kind == Turn
    ensures IsRun(Opened(), before) && CanRepair(After(Opened(), before), b)
    ensures var i := InterruptedRepair(After(Opened(), before), b); IsRun(i, after) && After(i, after).conflict
  {
    before := TakenUpIsReached(a);
    var s := TakenUp(a);
    assert s.queue[0].manifest == s.repairing.value.target.manifest;
    assert RepairManifest(s, b).sections != s.queue[0].manifest.sections;
    InterruptedRepairIsNotFollowed(s, b);
    after := InterruptedRepairConflicts(s, b, d);
  }
}
