/** The capture chain: an engine that stages captures in a queue, a shipper that registers them in
    order, and the registrar that accepts a capture only on its chain head (engine.rs, the staging
    queue and shipping pass of ship.rs, the register call of registrar.rs).

    A state holds what the three share; a step is one critical section of one of them, so a run is
    any interleaving. */
module Chain {
  import opened Options
  import opened Captures

  /** Where the shipper stands with the entry it took from the front of the queue. */
  datatype Shipper =
    | Idle
    | Claimed(entry: QueueEntry)      // uploading and registering
    | Registered(entry: QueueEntry)   // the registrar answered; to be acked
    | Acked(entry: QueueEntry)        // off the queue; to be released
    | Failed(entry: QueueEntry)       // gave up on it; to be released
    | Refused(entry: QueueEntry)      // the registrar refused it; to be released
    | Asking(entry: QueueEntry)       // released; a repair is to be asked for

  datatype RepairRequest = RepairRequest(n: nat, id: CaptureId)

  /** A repair between two of its class rebuilds: the capture to replace, the captures staged
      after it, and the keys no upload may name again. */
  datatype Repairing = Repairing(target: QueueEntry, followers: seq<QueueEntry>, forget: set<Key>)

  datatype State = State(
    head: Option<Manifest>,           // the registrar: the newest registered capture
    conflict: bool,                   // a register was answered "wrong parent"
    queue: seq<QueueEntry>,           // staged, oldest first
    ship: Shipper,
    request: Option<RepairRequest>,
    previous: Option<Encoded>,        // the engine: the capture staged last
    below: Option<Encoded>,           // the engine: what the queued bulk capture was staged on
    repairing: Option<Repairing>)

  /** What one class's build contributes to a manifest. */
  datatype Built =
    | SmallBuilt(git: GitSection, workspace: WorkspaceSection)
    | BulkBuilt(bulk: BulkSection)

  datatype SnapArgs = SnapArgs(kind: CaptureKind, seqNo: nat, createdAt: string, built: Built,
                               uploads: seq<Key>, prefix: KeyPrefix)

  function ClassOf(b: Built): Class {
    if b.SmallBuilt? then Small else Bulk
  }

  /** The chain position the shipper keeps snaps away from (`in_flight`). */
  function InFlight(ship: Shipper): Option<nat> {
    match ship
    case Idle => None
    case Asking(_) => None
    case _ => Some(ship.entry.manifest.n)
  }

  function Last(q: seq<QueueEntry>): QueueEntry
    requires q != []
  {
    q[|q| - 1]
  }

  predicate Asks(r: RepairRequest, e: QueueEntry) {
    r == RepairRequest(e.manifest.n, IdOf(e))
  }

  /** Where the capture a repair asks for is queued; `|q|` when it is not. */
  function Position(q: seq<QueueEntry>, r: RepairRequest): (i: nat)
    ensures i <= |q|
    ensures i < |q| ==> Asks(r, q[i])
    ensures forall j :: 0 <= j < i ==> !Asks(r, q[j])
  {
    if q == [] || Asks(r, q[0]) then 0 else 1 + Position(q[1..], r)
  }

  // ----- Staging a snap ------------------------------------------------------------------------

  /** A capture's sections: the class just built, the rest as the capture before had it. */
  function Apply(previous: Option<Sections>, built: Built): Sections
    requires built.BulkBuilt? ==> previous.Some?
  {
    match built
    case SmallBuilt(git, workspace) =>
      (match previous
       case Some(p) => Sections(git, workspace, p.bulk, p.otherBulk)
       case None => Sections(git, workspace, Pending, map[]))
    case BulkBuilt(b) =>
      previous.value.(bulk := Ready(b), otherBulk := OtherBulkAfter(previous.value, Ready(b)))
  }

  function SectionsOf(e: Option<Encoded>): Option<Sections> {
    match e
    case Some(p) => Some(p.manifest.sections)
    case None => None
  }

  /** Whether a small snap is staged ahead of the newest queued capture: it is a bulk one the
      shipper is not registering, the engine staged it last, and it stands on `below`. */
  predicate Hoists(s: State, class_: Class) {
    && class_ == Small
    && s.below.Some?
    && s.queue != []
    && IsBulk(Last(s.queue))
    && InFlight(s.ship) != Some(Last(s.queue).manifest.n)
    && s.previous.Some?
    && s.previous.value.id == IdOf(Last(s.queue))
    && Last(s.queue).manifest.parent == Some(s.below.value.id)
  }

  predicate MayCoalesce(s: State, e: QueueEntry) {
    e.manifest.kind == Auto && InFlight(s.ship) != Some(e.manifest.n)
  }

  /** How many queued captures stay below the new one. */
  function Cut(s: State, a: SnapArgs): (cut: nat)
    ensures cut <= |s.queue|
    ensures Hoists(s, ClassOf(a.built)) ==> cut < |s.queue|
  {
    var k := |s.queue|;
    if Hoists(s, ClassOf(a.built)) then
      if a.kind == Auto && k >= 2 && MayCoalesce(s, s.queue[k - 2]) && !IsBulk(s.queue[k - 2]) then k - 2 else k - 1
    else if a.kind == Auto && k > 0 && MayCoalesce(s, Last(s.queue))
            && IsBulk(Last(s.queue)) == (ClassOf(a.built) == Bulk) then k - 1
    else k
  }

  function Follows(s: State, class_: Class): Option<Encoded> {
    if Hoists(s, class_) then s.below else s.previous
  }

  predicate CanSnap(s: State, a: SnapArgs) {
    s.repairing.None? && (a.built.BulkBuilt? ==> s.previous.Some?)
  }

  function SnapSections(s: State, a: SnapArgs): Sections
    requires CanSnap(s, a)
  {
    var built := Apply(SectionsOf(s.previous), a.built);
    if Hoists(s, ClassOf(a.built)) then
      built.(bulk := s.below.value.manifest.sections.bulk, otherBulk := s.below.value.manifest.sections.otherBulk)
    else built
  }

  /** Nothing changed: the snap stages nothing. */
  predicate Unchanged(s: State, a: SnapArgs)
    requires CanSnap(s, a)
  {
    var follows := Follows(s, ClassOf(a.built));
    && follows.Some?
    && (var overFinal := follows.value.manifest.kind == Final;
        || a.kind == Auto
        || (a.kind == Final && (a.built.BulkBuilt? || overFinal))
        || (a.kind == Suspend && overFinal))
    && follows.value.manifest.sections == SnapSections(s, a)
  }

  /** Where a capture staged over the first `cut` queued ones stands: in the place of the lowest
      capture it replaces, or after the newest one. */
  function PlaceN(s: State, cut: nat): nat
    requires cut <= |s.queue|
  {
    if cut < |s.queue| then s.queue[cut].manifest.n
    else if s.previous.Some? then s.previous.value.manifest.n + 1
    else 0
  }

  function PlaceParent(s: State, cut: nat): Option<CaptureId>
    requires cut <= |s.queue|
  {
    if cut < |s.queue| then s.queue[cut].manifest.parent
    else if s.previous.Some? then Some(s.previous.value.id)
    else None
  }

  function SnapManifest(s: State, a: SnapArgs): Manifest
    requires CanSnap(s, a)
  {
    var cut := Cut(s, a);
    Manifest(PlaceN(s, cut), PlaceParent(s, cut), a.seqNo, a.kind, a.createdAt, SnapSections(s, a), None)
  }

  /** The bulk capture again, on top of the small one that takes its place: its own bulk sections,
      the small capture's git and workspace. */
  function MovedManifest(bulk: Manifest, small: Manifest): Manifest {
    Manifest(small.n + 1, Some(Sha(small)), bulk.seqNo, bulk.kind, bulk.createdAt,
             Sections(small.sections.git, small.sections.workspace, bulk.sections.bulk, bulk.sections.otherBulk),
             None)
  }

  // ----- Uploads -------------------------------------------------------------------------------

  /** `more` after `keys`, a key listed once. */
  function AddNew(keys: seq<Key>, more: seq<Key>): seq<Key>
    decreases |more|
  {
    if more == [] then keys
    else AddNew(if more[0] in keys then keys else keys + [more[0]], more[1..])
  }

  function Keep(keys: seq<Key>, keep: Key -> bool): seq<Key> {
    if keys == [] then []
    else (if keep(keys[0]) then [keys[0]] else []) + Keep(keys[1..], keep)
  }

  predicate IsPackFile(o: Object) {
    o.Pack? || o.GitPack? || o.PackIndex?
  }

  /** What a coalescing snap keeps of the capture it replaces: its packs, and its dir objects when
      the snap did not rebuild their class. */
  function KeptOnCoalesce(replaced: QueueEntry, class_: Class): seq<Key> {
    Keep(replaced.uploads,
         (k: Key) => IsPackFile(k.object_) || (replaced.class_ != Some(class_) && k.object_.Tree?))
  }

  /** What a repair keeps of the captures it folds: everything but their manifests and the keys the
      refusal named. */
  function KeptOnRepair(folded: seq<QueueEntry>, forget: set<Key>): seq<Key> {
    if folded == [] then []
    else AddNew(KeptOnRepair(folded[..|folded| - 1], forget),
                Keep(Last(folded).uploads, (k: Key) => !k.object_.ManifestObject? && k !in forget))
  }

  function ManifestKey(prefix: KeyPrefix, m: Manifest): Key {
    Key(prefix, ManifestObject(Sha(m)))
  }

  function MovedUploads(bulk: QueueEntry, manifestKey: Key): seq<Key> {
    Keep(bulk.uploads, (k: Key) => k.object_ != ManifestObject(IdOf(bulk))) + [manifestKey]
  }

  /** The capture a snap coalesces with: the lowest one it replaces, unless that one is only moved. */
  function Coalesced(s: State, a: SnapArgs): Option<QueueEntry> {
    var cut := Cut(s, a);
    if cut + (if Hoists(s, ClassOf(a.built)) then 1 else 0) < |s.queue| then Some(s.queue[cut]) else None
  }

  function SnapEntry(s: State, a: SnapArgs): QueueEntry
    requires CanSnap(s, a)
  {
    var m := SnapManifest(s, a);
    var kept := match Coalesced(s, a) case Some(replaced) => KeptOnCoalesce(replaced, ClassOf(a.built)) case None => [];
    QueueEntry(m, Some(ClassOf(a.built)), AddNew(kept, a.uploads) + [ManifestKey(a.prefix, m)])
  }

  function MovedEntry(bulk: QueueEntry, small: Manifest, prefix: KeyPrefix): QueueEntry {
    var m := MovedManifest(bulk.manifest, small);
    QueueEntry(m, Some(Bulk), MovedUploads(bulk, ManifestKey(prefix, m)))
  }

  function BelowAfter(s: State, a: SnapArgs): Option<Encoded>
    requires CanSnap(s, a)
  {
    var cut := Cut(s, a);
    if Hoists(s, ClassOf(a.built)) then Some(Encode(SnapManifest(s, a)))
    else if a.built.SmallBuilt? then s.below
    else if cut == |s.queue| then s.previous
    else if s.below.Some? && s.queue[cut].manifest.parent == Some(s.below.value.id) then s.below
    else None
  }

  /** One snap, from its chain position to the queue. */
  function Snap(s: State, a: SnapArgs): State
    requires CanSnap(s, a)
  {
    if Unchanged(s, a) then s else
      var entry := SnapEntry(s, a);
      var kept := s.queue[..Cut(s, a)];
      if Hoists(s, ClassOf(a.built)) then
        var moved := MovedEntry(Last(s.queue), entry.manifest, a.prefix);
        s.(queue := kept + [entry, moved], previous := Some(Encode(moved.manifest)), below := BelowAfter(s, a))
      else
        s.(queue := kept + [entry], previous := Some(Encode(entry.manifest)), below := BelowAfter(s, a))
  }

  // ----- Sealing and repairing -----------------------------------------------------------------

  datatype SealArgs = SealArgs(seqNo: nat, createdAt: string, seal: Option<FinalSeal>, prefix: KeyPrefix)

  predicate CanSeal(s: State) {
    s.repairing.None? && s.previous.Some?
  }

  function SealManifest(s: State, a: SealArgs): Manifest
    requires CanSeal(s)
  {
    var prev := s.previous.value;
    Manifest(prev.manifest.n + 1, Some(prev.id), a.seqNo, Final, a.createdAt, prev.manifest.sections, a.seal)
  }

  /** A final capture over the newest one, with its sections. */
  function Seal(s: State, a: SealArgs): State
    requires CanSeal(s)
  {
    var m := SealManifest(s, a);
    s.(queue := s.queue + [QueueEntry(m, Some(Small), [ManifestKey(a.prefix, m)])],
       previous := Some(Encode(m)))
  }

  /** The first queued capture at or above chain position `n`. */
  function IndexAt(q: seq<QueueEntry>, n: nat): (i: nat)
    ensures i <= |q|
    ensures forall j :: 0 <= j < i ==> q[j].manifest.n < n
    ensures i < |q| ==> n <= q[i].manifest.n
  {
    if q == [] || n <= q[0].manifest.n then 0 else 1 + IndexAt(q[1..], n)
  }

  /** The engine takes up a repair request, or drops one whose capture is no longer queued. */
  function RepairBegin(s: State, forget: set<Key>): State
    requires s.repairing.None? && s.request.Some?
  {
    var at := Position(s.queue, s.request.value);
    if at < |s.queue| then s.(repairing := Some(Repairing(s.queue[at], s.queue[at + 1..], forget)))
    else s.(request := None)
  }

  predicate CanRepair(s: State, a: SnapArgs) {
    s.repairing.Some? && s.previous.Some?
  }

  /** The captures a repair replaces, oldest first. */
  function Folded(r: Repairing): (es: seq<QueueEntry>)
    ensures es != []
  {
    [r.target] + r.followers
  }

  /** A final capture among those replaced makes the rebuilt one final. */
  function RepairKind(r: Repairing): CaptureKind {
    if exists i :: 0 <= i < |Folded(r)| && Folded(r)[i].manifest.kind == Final then Final else r.target.manifest.kind
  }

  function LatestSeq(es: seq<QueueEntry>): nat {
    if es == [] then 0
    else
      var rest := LatestSeq(es[1..]);
      if rest > es[0].manifest.seqNo then rest else es[0].manifest.seqNo
  }

  /** The rebuilt capture: its place, kind and observation are those of the captures it replaces. */
  function RepairManifest(s: State, a: SnapArgs): Manifest
    requires CanRepair(s, a)
  {
    var r := s.repairing.value;
    Manifest(r.target.manifest.n, r.target.manifest.parent, LatestSeq(Folded(r)), RepairKind(r), a.createdAt,
             Apply(SectionsOf(s.previous), a.built), None)
  }

  function RepairEntry(s: State, a: SnapArgs): QueueEntry
    requires CanRepair(s, a)
  {
    var m := RepairManifest(s, a);
    var r := s.repairing.value;
    QueueEntry(m, Some(ClassOf(a.built)),
               AddNew(KeptOnRepair(Folded(r), r.forget), a.uploads) + [ManifestKey(a.prefix, m)])
  }

  /** One class rebuilt in the refused capture's place; the captures after it are folded in. */
  function RepairClass(s: State, a: SnapArgs): State
    requires CanRepair(s, a)
  {
    var entry := RepairEntry(s, a);
    s.(queue := s.queue[..IndexAt(s.queue, entry.manifest.n)] + [entry],
       previous := Some(Encode(entry.manifest)),
       below := None,
       repairing := Some(Repairing(entry, [], s.repairing.value.forget)))
  }

  // ----- The shipper and the registrar ---------------------------------------------------------

  datatype Answer =
    | Answered        // the registrar's answer reached the shipper
    | LostRetry       // it acted, the answer was lost, the shipper asks again
    | Lost            // it acted, the answer was lost, the shipper's attempts are spent
    | Unreached       // it was not reached, the shipper's attempts are spent
    | RefusedIt       // it refused the capture: an object it names is missing

  /** The registrar's check: on its head, or the head again (a lost ack). */
  predicate Registrable(head: Option<Manifest>, m: Manifest) {
    || head == Some(m)
    || (head.None? && m.parent.None? && m.n == 0)
    || (head.Some? && m.parent == Some(Sha(head.value)) && m.n == head.value.n + 1)
  }

  predicate CanRegister(s: State, answer: Answer) {
    s.ship.Claimed? && (answer == RefusedIt ==> s.head != Some(s.ship.entry.manifest))
  }

  function Register(s: State, answer: Answer): State
    requires CanRegister(s, answer)
  {
    var e := s.ship.entry;
    match answer
    case RefusedIt => s.(ship := Refused(e))
    case Unreached => s.(ship := Failed(e))
    case _ =>
      if !Registrable(s.head, e.manifest) then s.(conflict := true, ship := Failed(e))
      else s.(head := Some(e.manifest),
              ship := match answer case Answered => Registered(e) case LostRetry => Claimed(e) case _ => Failed(e))
  }

  predicate CanClaim(s: State) {
    && s.ship.Idle?
    && s.queue != []
    && (s.request.Some? ==> !Asks(s.request.value, s.queue[0]))
  }

  /** Without the entry at chain position `n` (its queue file removed). */
  function Without(q: seq<QueueEntry>, n: nat): seq<QueueEntry> {
    if q == [] then []
    else if q[0].manifest.n == n then q[1..]
    else [q[0]] + Without(q[1..], n)
  }

  // ----- A restart on the same disk ------------------------------------------------------------

  /** The registered head as a starting executor continues it: the registrar's answer says which
      bulk section is this platform's. */
  function PlanHead(head: Option<Manifest>, answered: BulkState): Option<Encoded> {
    match head
    case None => None
    case Some(h) => Some(Encoded(h.(sections := WithBulkAnswer(h.sections, answered)), Sha(h)))
  }

  predicate Descends(q: seq<QueueEntry>, from: Option<CaptureId>) {
    exists i :: 0 <= i < |q| && (q[i].manifest.parent == from || Some(IdOf(q[i])) == from)
  }

  function FindId(q: seq<QueueEntry>, id: CaptureId): Option<Encoded> {
    if q == [] then None
    else if IdOf(q[0]) == id then Some(Encode(q[0].manifest))
    else FindId(q[1..], id)
  }

  /** What the engine takes a queued bulk capture to stand on: its parent in the queue, or the head. */
  function ResumedBelow(q: seq<QueueEntry>, plan: Option<Encoded>): Option<Encoded>
    requires q != []
  {
    if !IsBulk(Last(q)) || Last(q).manifest.parent.None? then None
    else
      var parent := Last(q).manifest.parent.value;
      match FindId(q, parent)
      case Some(e) => Some(e)
      case None => if plan.Some? && plan.value.id == parent then plan else None
  }

  /** The daemon starts again over its staging directory: the shipper holds nothing, a repair in
      progress is asked for again, and the engine continues from the captures still queued. */
  function Restart(s: State, answered: BulkState): State {
    var plan := PlanHead(s.head, answered);
    var from := if plan.Some? then Some(plan.value.id) else None;
    var t := s.(ship := Idle, repairing := None, previous := plan, below := None);
    if s.queue == [] || !Descends(s.queue, from) then t
    else t.(previous := Some(Encode(Last(s.queue).manifest)), below := ResumedBelow(s.queue, plan))
  }

  // ----- Runs ----------------------------------------------------------------------------------

  datatype Step =
    | StepSnap(snap: SnapArgs)
    | StepSeal(seal: SealArgs)
    | StepRepairBegin(forget: set<Key>)
    | StepRepairClass(rebuild: SnapArgs)
    | StepRepairEnd
    | StepRepairFail
    | StepClaim
    | StepRegister(answer: Answer)
    | StepAck
    | StepRelease
    | StepAskRepair
    | StepClearRequest
    | StepRestart(answered: BulkState)

  predicate Enabled(s: State, step: Step) {
    match step
    case StepSnap(a) => CanSnap(s, a)
    case StepSeal(a) => CanSeal(s)
    case StepRepairBegin(_) => s.repairing.None? && s.request.Some?
    case StepRepairClass(a) => CanRepair(s, a)
    case StepRepairEnd => s.repairing.Some?
    case StepRepairFail => s.repairing.Some?
    case StepClaim => CanClaim(s)
    case StepRegister(answer) => CanRegister(s, answer)
    case StepAck => s.ship.Registered?
    case StepRelease => s.ship.Acked? || s.ship.Failed? || s.ship.Refused?
    case StepAskRepair => s.ship.Asking?
    case StepRestart(_) => true
    case StepClearRequest => s.request.Some? && Position(s.queue, s.request.value) == |s.queue|
  }

  function Next(s: State, step: Step): State
    requires Enabled(s, step)
  {
    match step
    case StepSnap(a) => Snap(s, a)
    case StepSeal(a) => Seal(s, a)
    case StepRepairBegin(forget) => RepairBegin(s, forget)
    case StepRepairClass(a) => RepairClass(s, a)
    case StepRepairEnd => s.(request := None, repairing := None)
    case StepRepairFail => s.(repairing := None)
    case StepClaim => s.(ship := Claimed(s.queue[0]))
    case StepRegister(answer) => Register(s, answer)
    case StepAck => s.(queue := Without(s.queue, s.ship.entry.manifest.n), ship := Acked(s.ship.entry))
    case StepRelease => s.(ship := if s.ship.Refused? then Asking(s.ship.entry) else Idle)
    case StepAskRepair =>
      s.(request := Some(RepairRequest(s.ship.entry.manifest.n, IdOf(s.ship.entry))), ship := Idle)
    case StepClearRequest => s.(request := None)
    case StepRestart(answered) => Restart(s, answered)
  }

  /** A step that stages nothing and takes nothing off the queue. */
  predicate LeavesQueue(step: Step) {
    !step.StepSnap? && !step.StepSeal? && !step.StepRepairClass? && !step.StepAck?
  }

  /** `steps` is a run from `s`: each step is enabled where it is taken. */
  predicate IsRun(s: State, steps: seq<Step>)
    decreases |steps|
  {
    steps != [] ==> Enabled(s, steps[0]) && IsRun(Next(s, steps[0]), steps[1..])
  }

  function After(s: State, steps: seq<Step>): State
    requires IsRun(s, steps)
    decreases |steps|
  {
    if steps == [] then s else After(Next(s, steps[0]), steps[1..])
  }
}
