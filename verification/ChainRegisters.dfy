/** However captures are hoisted, coalesced or folded, the newest one reads as if the chain were two
    registers, one per class, each holding its class's latest build; and no capture ever loses
    another platform's bulk section. */
module ChainRegisters {
  import opened Options
  import opened Captures
  import opened Chain
  import opened ChainSafety

  /** The two registers: a snap or a class rebuild overwrites its own class, nothing else writes. */
  function RegisterStep(r: Option<Sections>, step: Step): Option<Sections> {
    match step
    case StepSnap(a) => if a.built.SmallBuilt? || r.Some? then Some(Apply(r, a.built)) else r
    case StepRepairClass(a) => if a.built.SmallBuilt? || r.Some? then Some(Apply(r, a.built)) else r
    case _ => r
  }

  function RegistersAfter(r: Option<Sections>, steps: seq<Step>): Option<Sections>
    decreases |steps|
  {
    if steps == [] then r else RegistersAfter(RegisterStep(r, steps[0]), steps[1..])
  }

  /** While anything is queued, the engine's newest capture is the newest queued one. */
  predicate NewestStaged(s: State) {
    s.queue != [] ==> s.previous == Some(Encode(Last(s.queue).manifest))
  }

  /** A bulk capture a small snap may be staged ahead of has the git and workspace of `below`. */
  predicate BelowAgrees(s: State) {
    s.below.Some? && s.queue != [] && IsBulk(Last(s.queue))
    && Last(s.queue).manifest.parent == Some(s.below.value.id) ==>
      && s.below.value.manifest.sections.git == Last(s.queue).manifest.sections.git
      && s.below.value.manifest.sections.workspace == Last(s.queue).manifest.sections.workspace
  }

  lemma QueueIsLeft(s: State, step: Step)
    requires Enabled(s, step) && LeavesQueue(step) && !step.StepRestart?
    ensures Next(s, step).queue == s.queue && Next(s, step).previous == s.previous && Next(s, step).below == s.below
    ensures !step.StepRegister? ==> Next(s, step).head == s.head
  {
  }

  /** One step of the chain is one step of the registers. */
  lemma StepRefinesRegisters(s: State, step: Step)
    requires Inv(s) && BelowAgrees(s) && Enabled(s, step) && !step.StepRestart?
    ensures SectionsOf(Next(s, step).previous) == RegisterStep(SectionsOf(s.previous), step)
    ensures BelowAgrees(Next(s, step))
  {
    match step {
      case StepAck => AckRefinesRegisters(s);
      case StepSnap(a) => SnapRefinesRegisters(s, a);
      case StepSeal(a) => SealRefinesRegisters(s, a);
      case StepRepairClass(_) =>
      case _ =>
        QueueIsLeft(s, step);
        hide Next;
    }
  }

  lemma AckRefinesRegisters(s: State)
    requires ShipperInStep(s) && BelowAgrees(s) && s.ship.Registered?
    ensures BelowAgrees(Next(s, StepAck)) && Next(s, StepAck).previous == s.previous
  {
  }

  lemma SealRefinesRegisters(s: State, a: SealArgs)
    requires CanSeal(s)
    ensures BelowAgrees(Seal(s, a)) && SectionsOf(Seal(s, a).previous) == SectionsOf(s.previous)
  {
  }

  lemma SnapRefinesRegisters(s: State, a: SnapArgs)
    requires NewestStaged(s) && BelowAgrees(s) && CanSnap(s, a)
    ensures SectionsOf(Snap(s, a).previous) == Some(Apply(SectionsOf(s.previous), a.built))
    ensures BelowAgrees(Snap(s, a))
  {
    var t := Snap(s, a);
    if Hoists(s, ClassOf(a.built)) {
      assert s.previous.value.manifest == Last(s.queue).manifest;
    }
    if !Unchanged(s, a) {
      assert t.previous == Some(Encode(Last(t.queue).manifest));
    }
  }

  predicate NoRestart(steps: seq<Step>) {
    forall i :: 0 <= i < |steps| ==> !steps[i].StepRestart?
  }

  /** Refinement over every run of one process. */
  lemma {:induction false} RunRefinesRegisters(s: State, steps: seq<Step>)
    requires Inv(s) && BelowAgrees(s) && IsRun(s, steps) && NoRestart(steps) && NeverTakesHeldPlace(s, steps)
    ensures SectionsOf(After(s, steps).previous) == RegistersAfter(SectionsOf(s.previous), steps)
    decreases |steps|
  {
    if steps != [] {
      StepKeepsInvariant(s, steps[0]);
      StepRefinesRegisters(s, steps[0]);
      RunRefinesRegisters(Next(s, steps[0]), steps[1..]);
    }
  }

  function BuiltBy(step: Step): Option<Built> {
    match step
    case StepSnap(a) => Some(a.built)
    case StepRepairClass(a) => Some(a.built)
    case _ => None
  }

  /** The last build of a class in a run. */
  function Latest(steps: seq<Step>, class_: Class): (b: Option<Built>)
    ensures b.Some? ==> ClassOf(b.value) == class_
  {
    if steps == [] then None
    else if Latest(steps[1..], class_).Some? then Latest(steps[1..], class_)
    else if BuiltBy(steps[0]).Some? && ClassOf(BuiltBy(steps[0]).value) == class_ then BuiltBy(steps[0])
    else None
  }

  /** `t` is what a run makes of `was`: the latest small build's git and workspace, the latest bulk build's
      section, and what was there before where a class was not built. */
  predicate HoldsLatest(was: Option<Sections>, t: Option<Sections>, steps: seq<Step>) {
    && (t.Some? <==> was.Some? || Latest(steps, Small).Some?)
    && (match Latest(steps, Small)
        case Some(b) => t.value.git == b.git && t.value.workspace == b.workspace
        case None => was.Some? ==> t.value.git == was.value.git && t.value.workspace == was.value.workspace)
    && (match Latest(steps, Bulk)
        case Some(b) => t.Some? && t.value.bulk == Ready(b.bulk)
        case None =>
          t.Some? ==>
            && t.value.bulk == (if was.Some? then was.value.bulk else Pending)
            && t.value.otherBulk == (if was.Some? then was.value.otherBulk else map[]))
  }

  lemma HoldsLatestStep(was: Option<Sections>, t: Option<Sections>, steps: seq<Step>)
    requires steps != [] && HoldsLatest(RegisterStep(was, steps[0]), t, steps[1..])
    requires was.None? && BuiltBy(steps[0]).Some? ==> BuiltBy(steps[0]).value.SmallBuilt?
    ensures HoldsLatest(was, t, steps)
  {
  }

  /** A bulk capture is never the first. */
  lemma FirstIsSmall(s: State, step: Step)
    requires Enabled(s, step) && s.previous.None? && BuiltBy(step).Some?
    ensures BuiltBy(step).value.SmallBuilt?
  {
  }

  /** The newest capture after any run, from an empty chain too. */
  lemma {:induction false} NewestHoldsLatestBuilds(s: State, steps: seq<Step>)
    requires Inv(s) && BelowAgrees(s)
    requires IsRun(s, steps) && NoRestart(steps) && NeverTakesHeldPlace(s, steps)
    ensures HoldsLatest(SectionsOf(s.previous), SectionsOf(After(s, steps).previous), steps)
    decreases |steps|
  {
    hide HoldsLatest;
    if steps == [] {
      NothingLatest(SectionsOf(s.previous));
    } else {
      StepKeepsInvariant(s, steps[0]);
      StepRefinesRegisters(s, steps[0]);
      NewestHoldsLatestBuilds(Next(s, steps[0]), steps[1..]);
      if s.previous.None? && BuiltBy(steps[0]).Some? {
        FirstIsSmall(s, steps[0]);
      }
      HoldsLatestStep(SectionsOf(s.previous), SectionsOf(After(s, steps).previous), steps);
    }
  }

  lemma NothingLatest(was: Option<Sections>)
    ensures HoldsLatest(was, was, [])
  {
  }

  // ----- Other platforms -----------------------------------------------------------------------

  function OtherPlatforms(s: Sections, platform: Platform): map<Platform, BulkSection> {
    BulkByPlatform(s) - {platform}
  }

  /** Every capture in sight holds exactly `others` for the platforms that are not this executor's. */
  predicate OthersKept(s: State, platform: Platform, others: map<Platform, BulkSection>) {
    && (forall i :: 0 <= i < |s.queue| ==> OtherPlatforms(s.queue[i].manifest.sections, platform) == others)
    && (s.head.Some? ==> OtherPlatforms(s.head.value.sections, platform) == others)
    && (s.below.Some? ==> OtherPlatforms(s.below.value.manifest.sections, platform) == others)
    && (if s.previous.Some? then OtherPlatforms(s.previous.value.manifest.sections, platform) == others
        else others == map[])
  }

  /** The executor's builds stamp its own platform. */
  predicate OwnPlatform(step: Step, platform: Platform) {
    BuiltBy(step).Some? && BuiltBy(step).value.BulkBuilt? ==> BuiltBy(step).value.bulk.platform == platform
  }

  lemma SnapSectionsKeepOthers(s: State, a: SnapArgs, platform: Platform, others: map<Platform, BulkSection>)
    requires OthersKept(s, platform, others) && CanSnap(s, a) && OwnPlatform(StepSnap(a), platform)
    ensures OtherPlatforms(SnapSections(s, a), platform) == others
  {
  }

  lemma SnapKeepsOthers(s: State, a: SnapArgs, platform: Platform, others: map<Platform, BulkSection>)
    requires OthersKept(s, platform, others) && CanSnap(s, a) && OwnPlatform(StepSnap(a), platform)
    ensures OthersKept(Snap(s, a), platform, others)
  {
    SnapSectionsKeepOthers(s, a, platform, others);
    if !Unchanged(s, a) {
      var t, m := Snap(s, a), SnapManifest(s, a);
      assert OtherPlatforms(m.sections, platform) == others;
      if Hoists(s, ClassOf(a.built)) {
        var moved := MovedManifest(Last(s.queue).manifest, m);
        assert BulkByPlatform(moved.sections) == BulkByPlatform(Last(s.queue).manifest.sections);
        HoldsAfterCut(s.queue, Cut(s, a), [SnapEntry(s, a), Last(t.queue)], platform, others);
      } else {
        HoldsAfterCut(s.queue, Cut(s, a), [SnapEntry(s, a)], platform, others);
      }
    }
  }

  lemma HoldsAfterCut(q: seq<QueueEntry>, cut: nat, top: seq<QueueEntry>, platform: Platform,
                      others: map<Platform, BulkSection>)
    requires cut <= |q|
    requires forall i :: 0 <= i < |q| ==> OtherPlatforms(q[i].manifest.sections, platform) == others
    requires forall i :: 0 <= i < |top| ==> OtherPlatforms(top[i].manifest.sections, platform) == others
    ensures forall i :: 0 <= i < |q[..cut] + top| ==>
              OtherPlatforms((q[..cut] + top)[i].manifest.sections, platform) == others
  {
  }

  lemma RepairKeepsOthers(s: State, a: SnapArgs, platform: Platform, others: map<Platform, BulkSection>)
    requires OthersKept(s, platform, others) && CanRepair(s, a) && OwnPlatform(StepRepairClass(a), platform)
    ensures OthersKept(RepairClass(s, a), platform, others)
  {
  }

  lemma AckKeepsOthers(s: State, platform: Platform, others: map<Platform, BulkSection>)
    requires ShipperInStep(s) && OthersKept(s, platform, others) && s.ship.Registered?
    ensures OthersKept(Next(s, StepAck), platform, others)
  {
  }

  lemma RegisterKeepsOthers(s: State, answer: Answer, platform: Platform, others: map<Platform, BulkSection>)
    requires ShipperInStep(s) && OthersKept(s, platform, others) && CanRegister(s, answer)
    ensures OthersKept(Register(s, answer), platform, others)
  {
  }

  lemma SealKeepsOthers(s: State, a: SealArgs, platform: Platform, others: map<Platform, BulkSection>)
    requires OthersKept(s, platform, others) && CanSeal(s)
    ensures OthersKept(Seal(s, a), platform, others)
  {
  }

  lemma StepKeepsOthers(s: State, step: Step, platform: Platform, others: map<Platform, BulkSection>)
    requires Inv(s) && OthersKept(s, platform, others) && Enabled(s, step) && OwnPlatform(step, platform)
    ensures OthersKept(Next(s, step), platform, others)
  {
    hide OtherPlatforms;
    hide OwnPlatform;
    match step {
      case StepSnap(a) => SnapKeepsOthers(s, a, platform, others);
      case StepRepairClass(a) => RepairKeepsOthers(s, a, platform, others);
      case StepSeal(a) => SealKeepsOthers(s, a, platform, others);
      case StepRestart(answered) => RestartKeepsOthers(s, answered, platform, others);
      case StepAck => AckKeepsOthers(s, platform, others);
      case StepRegister(answer) => RegisterKeepsOthers(s, answer, platform, others);
      case _ =>
        QueueIsLeft(s, step);
        hide Next;
    }
  }

  lemma FoundIsQueued(q: seq<QueueEntry>, id: CaptureId)
    ensures FindId(q, id).Some? ==> exists i :: 0 <= i < |q| && FindId(q, id) == Some(Encode(q[i].manifest))
  {
    if q != [] && IdOf(q[0]) != id {
      FoundIsQueued(q[1..], id);
      if FindId(q, id).Some? {
        var i :| 0 <= i < |q[1..]| && FindId(q[1..], id) == Some(Encode(q[1..][i].manifest));
        assert q[1..][i] == q[i + 1];
      }
    }
  }

  lemma QueueDescends(s: State, answered: BulkState)
    requires Inv(s) && s.queue != []
    ensures var plan := PlanHead(s.head, answered);
      Descends(s.queue, if plan.Some? then Some(plan.value.id) else None)
  {
  }

  lemma PlanKeepsOthers(head: Option<Manifest>, answered: BulkState, platform: Platform)
    requires head.Some?
    ensures OtherPlatforms(PlanHead(head, answered).value.manifest.sections, platform) ==
            OtherPlatforms(head.value.sections, platform)
  {
  }

  lemma RestartKeepsOthers(s: State, answered: BulkState, platform: Platform, others: map<Platform, BulkSection>)
    requires Inv(s) && OthersKept(s, platform, others)
    ensures OthersKept(Restart(s, answered), platform, others)
  {
    if s.queue != [] {
      QueueDescends(s, answered);
    } else {
      assert s.head.None? ==> s.previous.None?;
    }
    hide Inv;
    hide Descends;
    hide OtherPlatforms;
    if s.head.Some? {
      PlanKeepsOthers(s.head, answered, platform);
    }
    if s.queue != [] {
      BelowKeepsOthers(s.queue, PlanHead(s.head, answered), platform, others);
    }
    hide PlanHead;
    hide ResumedBelow;
  }

  lemma BelowKeepsOthers(q: seq<QueueEntry>, plan: Option<Encoded>, platform: Platform, others: map<Platform, BulkSection>)
    requires q != [] && forall i :: 0 <= i < |q| ==> OtherPlatforms(q[i].manifest.sections, platform) == others
    requires plan.Some? ==> OtherPlatforms(plan.value.manifest.sections, platform) == others
    ensures ResumedBelow(q, plan).Some? ==> OtherPlatforms(ResumedBelow(q, plan).value.manifest.sections, platform) == others
  {
    hide OtherPlatforms;
    if Last(q).manifest.parent.Some? {
      FoundIsQueued(q, Last(q).manifest.parent.value);
    }
    hide FindId;
  }

  /** Every other platform's bulk section survives every run, restarts and repairs included: each
      capture that can register holds it as the chain held it at the start. */
  lemma {:induction false} OtherPlatformsSurvive(s: State, steps: seq<Step>, platform: Platform,
                                                 others: map<Platform, BulkSection>)
    requires Inv(s) && OthersKept(s, platform, others)
    requires IsRun(s, steps) && NeverTakesHeldPlace(s, steps)
    requires forall i :: 0 <= i < |steps| ==> OwnPlatform(steps[i], platform)
    ensures OthersKept(After(s, steps), platform, others)
    decreases |steps|
  {
    if steps != [] {
      StepKeepsInvariant(s, steps[0]);
      StepKeepsOthers(s, steps[0], platform, others);
      OtherPlatformsSurvive(Next(s, steps[0]), steps[1..], platform, others);
    }
  }
}
