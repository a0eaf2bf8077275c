/** The engine's staging code as it runs: fields updated in place under the staging's guard, proved
    against the chain steps of module Chain (engine.rs; the queue of ship.rs). */
module Engine {
  import opened Options
  import opened Captures
  import opened Chain
  import opened ChainSafety

  class Staging {
    var queue: seq<QueueEntry>
    var inFlight: Option<nat>
    var request: Option<RepairRequest>

    constructor ()
      ensures queue == [] && inFlight == None && request == None
    {
      queue, inFlight, request := [], None, None;
    }

    /** The newest queued capture, if it is an automatic one not being shipped. */
    method Coalescible() returns (e: Option<QueueEntry>)
      ensures e.Some? <==> queue != [] && Last(queue).manifest.kind == Auto && inFlight != Some(Last(queue).manifest.n)
      ensures e.Some? ==> e.value == Last(queue)
    {
      if queue == [] {
        return None;
      }
      var last := queue[|queue| - 1];
      if last.manifest.kind == Auto && inFlight != Some(last.manifest.n) {
        return Some(last);
      }
      return None;
    }

    /** The capture right below `top`, if it is an automatic small one not being shipped. */
    method CoalescibleBelow(top: QueueEntry) returns (e: Option<QueueEntry>)
      requires IsChain(queue) && queue != [] && top == Last(queue)
      ensures e.Some? <==>
                |queue| >= 2
                && queue[|queue| - 2].manifest.kind == Auto
                && !IsBulk(queue[|queue| - 2])
                && inFlight != Some(queue[|queue| - 2].manifest.n)
      ensures e.Some? ==> e.value == queue[|queue| - 2]
    {
      assert |queue| >= 2 ==> Succeeds(top.manifest, Some(queue[|queue| - 2].manifest));
      var i := |queue|;
      while 0 < i && top.manifest.n <= queue[i - 1].manifest.n
        invariant i <= |queue|
        invariant i < |queue| ==> i == |queue| - 1
      {
        i := i - 1;
      }
      if i == 0 {
        return None;
      }
      var below := queue[i - 1];
      if below.manifest.kind == Auto && !IsBulk(below) && inFlight != Some(below.manifest.n) {
        return Some(below);
      }
      return None;
    }

    /** The bulk capture a small snap may be staged ahead of. */
    method Hoistable() returns (e: Option<QueueEntry>)
      ensures e.Some? <==> queue != [] && IsBulk(Last(queue)) && inFlight != Some(Last(queue).manifest.n)
      ensures e.Some? ==> e.value == Last(queue)
    {
      if queue != [] && IsBulk(queue[|queue| - 1]) && inFlight != Some(queue[|queue| - 1].manifest.n) {
        return Some(queue[|queue| - 1]);
      }
      return None;
    }

    /** Write the entries and drop the superseded ones: one step (module Restage has the journal
        that makes it one). The superseded entries are the queue from `cut` on. */
    method Restage(write: seq<QueueEntry>, cut: nat)
      requires cut <= |queue|
      modifies this`queue
      ensures queue == old(queue)[..cut] + write
    {
      queue := queue[..cut] + write;
    }
  }

  /** `keys` without the ones `keep` refuses, in order. */
  method Filter(keys: seq<Key>, keep: Key -> bool) returns (kept: seq<Key>)
    ensures kept == Keep(keys, keep)
  {
    kept := [];
    for i := 0 to |keys|
      invariant kept + Keep(keys[i..], keep) == Keep(keys, keep)
    {
      assert keys[i..][1..] == keys[i + 1..];
      if keep(keys[i]) {
        kept := kept + [keys[i]];
      }
    }
  }

  /** `more` pushed after `keys`, each key once. */
  method PushNew(keys: seq<Key>, more: seq<Key>) returns (all: seq<Key>)
    ensures all == AddNew(keys, more)
  {
    all := keys;
    for i := 0 to |more|
      invariant AddNew(all, more[i..]) == AddNew(keys, more)
    {
      assert more[i..][1..] == more[i + 1..];
      if more[i] !in all {
        all := all + [more[i]];
      }
    }
  }

  class CaptureEngine {
    const staging: Staging
    const executor: Option<string>
    const epoch: nat
    var prefix: KeyPrefix
    var previous: Option<Encoded>
    var below: Option<Encoded>
    var repairTarget: Option<Repairing>

    constructor (staging: Staging, prefix: KeyPrefix, executor: Option<string>, previous: Option<Encoded>)
      ensures this.staging == staging && this.previous == previous && below == None && repairTarget == None
      ensures this.prefix == prefix && this.executor == executor && epoch == prefix.epoch
    {
      this.staging, this.prefix, this.executor, this.epoch := staging, prefix, executor, prefix.epoch;
      this.previous, below, repairTarget := previous, None, None;
    }

    /** The chain state this engine and its staging are part of; the registrar's head and where the
        shipper stands are not the engine's to see. */
    ghost function View(head: Option<Manifest>, ship: Shipper): State
      reads this, staging
    {
      State(head, false, staging.queue, ship, staging.request, previous, below, repairTarget)
    }

    /** The queued bulk capture a small snap is staged ahead of, with what it was staged on. */
    method HoistTarget(ghost head: Option<Manifest>, ghost ship: Shipper)
        returns (hoist: Option<(QueueEntry, Encoded)>)
      requires InFlight(ship) == staging.inFlight
      ensures hoist.Some? <==> Hoists(View(head, ship), Small)
      ensures hoist.Some? ==> hoist.value == (Last(staging.queue), below.value)
    {
      if below.None? {
        return None;
      }
      var bulk := staging.Hoistable();
      if bulk.None? {
        return None;
      }
      var stagedLast := previous.Some? && previous.value.id == IdOf(bulk.value);
      var onBelow := bulk.value.manifest.parent == Some(below.value.id);
      if stagedLast && onBelow {
        return Some((bulk.value, below.value));
      }
      return None;
    }

    /** `bulk` staged again on top of `small`. */
    method RestageBulk(bulk: QueueEntry, small: Manifest) returns (moved: QueueEntry)
      ensures moved == MovedEntry(bulk, small, prefix)
    {
      var m := Manifest(small.n + 1, Some(Sha(small)), bulk.manifest.seqNo, bulk.manifest.kind, bulk.manifest.createdAt,
                        Sections(small.sections.git, small.sections.workspace,
                                 bulk.manifest.sections.bulk, bulk.manifest.sections.otherBulk), None);
      var own := ManifestObject(IdOf(bulk));
      var uploads := Filter(bulk.uploads, (k: Key) => k.object_ != own);
      uploads := uploads + [Key(prefix, ManifestObject(Sha(m)))];
      moved := QueueEntry(m, Some(Bulk), uploads);
    }

    /** The class built, the rest as the newest capture has it. */
    method BuiltSections(built: Built) returns (sections: Sections)
      requires built.BulkBuilt? ==> previous.Some?
      ensures sections == Apply(SectionsOf(previous), built)
    {
      match built {
        case SmallBuilt(git, workspace) =>
          if previous.Some? {
            var prev := previous.value.manifest.sections;
            return Sections(git, workspace, prev.bulk, prev.otherBulk);
          }
          return Sections(git, workspace, Pending, map[]);
        case BulkBuilt(b) =>
          var prev := previous.value.manifest.sections;
          return Sections(prev.git, prev.workspace, Ready(b), OtherBulkAfter(prev, Ready(b)));
      }
    }

    /** The queued automatic capture of the same class a snap takes the place of. */
    method CoalesceTarget(a: SnapArgs, hoist: Option<(QueueEntry, Encoded)>,
                          ghost head: Option<Manifest>, ghost ship: Shipper)
        returns (coalesce: Option<QueueEntry>)
      requires InFlight(ship) == staging.inFlight && IsChain(staging.queue)
      requires hoist.Some? <==> Hoists(View(head, ship), ClassOf(a.built))
      requires hoist.Some? ==> hoist.value.0 == Last(staging.queue)
      ensures coalesce == Coalesced(View(head, ship), a)
      ensures Cut(View(head, ship), a)
              == |staging.queue| - (if hoist.Some? then 1 else 0) - (if coalesce.Some? then 1 else 0)
    {
      if a.kind != Auto {
        return None;
      }
      if hoist.Some? {
        coalesce := staging.CoalescibleBelow(hoist.value.0);
      } else {
        coalesce := staging.Coalescible();
        if coalesce.Some? && IsBulk(coalesce.value) != a.built.BulkBuilt? {
          coalesce := None;
        }
      }
    }

    /** The queue entry of a snap that stages `sections`. */
    method MakeEntry(a: SnapArgs, sections: Sections, hoist: Option<(QueueEntry, Encoded)>,
                     coalesce: Option<QueueEntry>, ghost head: Option<Manifest>, ghost ship: Shipper)
        returns (entry: QueueEntry)
      requires a.prefix == prefix && CanSnap(View(head, ship), a) && sections == SnapSections(View(head, ship), a)
      requires hoist.Some? <==> Hoists(View(head, ship), ClassOf(a.built))
      requires hoist.Some? ==> hoist.value.0 == Last(staging.queue)
      requires coalesce == Coalesced(View(head, ship), a)
      requires Cut(View(head, ship), a)
               == |staging.queue| - (if hoist.Some? then 1 else 0) - (if coalesce.Some? then 1 else 0)
      ensures entry == SnapEntry(View(head, ship), a)
    {
      var n, parent;
      if coalesce.Some? {
        n, parent := coalesce.value.manifest.n, coalesce.value.manifest.parent;
      } else if hoist.Some? {
        n, parent := hoist.value.0.manifest.n, hoist.value.0.manifest.parent;
      } else if previous.Some? {
        n, parent := previous.value.manifest.n + 1, Some(previous.value.id);
      } else {
        n, parent := 0, None;
      }
      var m := Manifest(n, parent, a.seqNo, a.kind, a.createdAt, sections, None);
      var class_ := if a.built.SmallBuilt? then Small else Bulk;
      var kept := [];
      if coalesce.Some? {
        kept := KeepPacks(coalesce.value, class_);
      }
      var uploads := PushNew(kept, a.uploads);
      entry := QueueEntry(m, Some(class_), uploads + [Key(prefix, ManifestObject(Sha(m)))]);
    }

    /** What a snap would stage, the bulk capture it would be staged ahead of, and whether it found
        nothing new. */
    method Compare(a: SnapArgs, ghost head: Option<Manifest>, ghost ship: Shipper)
        returns (sections: Sections, hoist: Option<(QueueEntry, Encoded)>, same: Option<nat>)
      requires InFlight(ship) == staging.inFlight && CanSnap(View(head, ship), a)
      ensures sections == SnapSections(View(head, ship), a)
      ensures hoist.Some? <==> Hoists(View(head, ship), ClassOf(a.built))
      ensures hoist.Some? ==> hoist.value == (Last(staging.queue), below.value)
      ensures same.Some? <==> Unchanged(View(head, ship), a)
    {
      sections := BuiltSections(a.built);
      hoist := None;
      if a.built.SmallBuilt? {
        hoist := HoistTarget(head, ship);
      }
      if hoist.Some? {
        sections := sections.(bulk := hoist.value.1.manifest.sections.bulk,
                              otherBulk := hoist.value.1.manifest.sections.otherBulk);
      }
      var follows := if hoist.Some? then Some(hoist.value.1) else previous;
      var overFinal := follows.Some? && follows.value.manifest.kind == Final;
      if (a.kind == Auto
          || (a.kind == Final && (a.built.BulkBuilt? || overFinal))
          || (a.kind == Suspend && overFinal))
         && follows.Some? && follows.value.manifest.sections == sections {
        same := Some(follows.value.manifest.n);
      } else {
        same := None;
      }
    }

    /** A snap from its build to the queue, decided under the coalesce guard. The result says where
        it stands and whether it found nothing new. */
    method StageSnap(a: SnapArgs, ghost head: Option<Manifest>, ghost ship: Shipper)
        returns (n: nat, nothingNew: bool)
      requires InFlight(ship) == staging.inFlight && IsChain(staging.queue)
      requires a.prefix == prefix && CanSnap(View(head, ship), a)
      modifies this`previous, this`below, staging`queue
      ensures View(head, ship) == Snap(old(View(head, ship)), a)
      ensures nothingNew == Unchanged(old(View(head, ship)), a)
      ensures !nothingNew ==> n == SnapManifest(old(View(head, ship)), a).n
    {
      var sections, hoist, same := Compare(a, head, ship);
      if same.Some? {
        return same.value, true;
      }
      var coalesce := CoalesceTarget(a, hoist, head, ship);
      var entry := MakeEntry(a, sections, hoist, coalesce, head, ship);
      Place(a, entry, hoist, coalesce, head, ship);
      return entry.manifest.n, false;
    }

    /** Queue `entry`, move the bulk capture on top of it when it was staged ahead of one, and note
        the newest capture and what a queued bulk capture stands on. */
    method Place(a: SnapArgs, entry: QueueEntry, hoist: Option<(QueueEntry, Encoded)>, coalesce: Option<QueueEntry>,
                 ghost head: Option<Manifest>, ghost ship: Shipper)
      requires a.prefix == prefix && CanSnap(View(head, ship), a) && !Unchanged(View(head, ship), a)
      requires entry == SnapEntry(View(head, ship), a)
      requires hoist.Some? <==> Hoists(View(head, ship), ClassOf(a.built))
      requires hoist.Some? ==> hoist.value.0 == Last(staging.queue)
      requires coalesce == Coalesced(View(head, ship), a)
      requires Cut(View(head, ship), a)
               == |staging.queue| - (if hoist.Some? then 1 else 0) - (if coalesce.Some? then 1 else 0)
      modifies this`previous, this`below, staging`queue
      ensures View(head, ship) == Snap(old(View(head, ship)), a)
    {
      var cut := |staging.queue| - (if hoist.Some? then 1 else 0) - (if coalesce.Some? then 1 else 0);
      if a.built.BulkBuilt? {
        if coalesce.None? {
          below := previous;
        } else if below.Some? && Some(below.value.id) != coalesce.value.manifest.parent {
          below := None;
        }
      }
      if hoist.Some? {
        var moved := RestageBulk(hoist.value.0, entry.manifest);
        staging.Restage([entry, moved], cut);
        below := Some(Encode(entry.manifest));
        previous := Some(Encode(moved.manifest));
      } else {
        staging.Restage([entry], cut);
        previous := Some(Encode(entry.manifest));
      }
    }

    method KeepPacks(replaced: QueueEntry, class_: Class) returns (kept: seq<Key>)
      ensures kept == KeptOnCoalesce(replaced, class_)
    {
      kept := Filter(replaced.uploads,
                     (k: Key) => IsPackFile(k.object_) || (replaced.class_ != Some(class_) && k.object_.Tree?));
    }

    // ----- Sealing -----------------------------------------------------------------------------

    /** The seal this engine writes; none without an executor. */
    function FinalSeal_(): Option<FinalSeal> {
      match executor
      case None => None
      case Some(e) => Some(FinalSeal(true, epoch, e, None))
    }

    /** Whether the newest capture carries this engine's seal, or there is nothing to seal under. */
    predicate CompletionSealed()
      reads this
    {
      match FinalSeal_()
      case None => true
      case Some(seal) =>
        previous.Some? && previous.value.manifest.finalSeal.Some?
        && SameExecutor(previous.value.manifest.finalSeal.value, seal)
    }

    /** A final capture over the newest one, with its sections. */
    method StageOverPrevious(seqNo: nat, createdAt: string, seal: Option<FinalSeal>,
                             ghost head: Option<Manifest>, ghost ship: Shipper)
      requires CanSeal(View(head, ship))
      modifies this`previous, staging`queue
      ensures View(head, ship) == Seal(old(View(head, ship)), SealArgs(seqNo, createdAt, seal, prefix))
    {
      var prev := previous.value;
      var m := Manifest(prev.manifest.n + 1, Some(prev.id), seqNo, Final, createdAt, prev.manifest.sections, seal);
      staging.Restage([QueueEntry(m, Some(Small), [Key(prefix, ManifestObject(Sha(m)))])], |staging.queue|);
      previous := Some(Encode(m));
    }

    /** End the chain in a final capture, when its newest one is of another kind. */
    method SealFinal(seqNo: nat, createdAt: string, ghost head: Option<Manifest>, ghost ship: Shipper)
        returns (staged: bool)
      requires repairTarget.None?
      modifies this`previous, staging`queue
      ensures staged <==> old(previous).Some? && old(previous).value.manifest.kind != Final
      ensures staged ==> View(head, ship) == Seal(old(View(head, ship)), SealArgs(seqNo, createdAt, None, prefix))
      ensures !staged ==> View(head, ship) == old(View(head, ship))
      ensures previous.Some? ==> previous.value.manifest.kind == Final
    {
      if previous.None? || previous.value.manifest.kind == Final {
        return false;
      }
      StageOverPrevious(seqNo, createdAt, None, head, ship);
      return true;
    }

    /** Seal a completed final flush: one more capture carrying this engine's seal, where the
        observer places it. Afterwards the newest capture is sealed, or there is none to seal. */
    method SealComplete(seqNo: nat, createdAt: string, position: (nat, nat),
                        ghost head: Option<Manifest>, ghost ship: Shipper)
        returns (staged: bool)
      requires repairTarget.None?
      modifies this`previous, staging`queue
      ensures staged <==> executor.Some? && old(previous).Some? && !old(CompletionSealed())
      ensures staged ==>
                View(head, ship) == Seal(old(View(head, ship)),
                                         SealArgs(seqNo, createdAt, Some(FinalSeal(true, epoch, executor.value, Some(position))),
                                                  prefix))
      ensures !staged ==> View(head, ship) == old(View(head, ship))
      ensures previous.Some? ==> CompletionSealed()
    {
      if executor.None? || previous.None? || CompletionSealed() {
        return false;
      }
      StageOverPrevious(seqNo, createdAt, Some(FinalSeal(true, epoch, executor.value, Some(position))), head, ship);
      return true;
    }

    // ----- Repairing ---------------------------------------------------------------------------

    /** What the folded captures staged, but their manifests and the keys the refusal named. */
    method FoldUploads(folded: seq<QueueEntry>, forget: set<Key>) returns (kept: seq<Key>)
      ensures kept == KeptOnRepair(folded, forget)
    {
      kept := [];
      for i := 0 to |folded|
        invariant kept == KeptOnRepair(folded[..i], forget)
      {
        assert folded[..i + 1][..i] == folded[..i];
        var more := Filter(folded[i].uploads, (k: Key) => !k.object_.ManifestObject? && k !in forget);
        kept := PushNew(kept, more);
      }
      assert folded[..|folded|] == folded;
    }

    /** The kind and observation of a rebuilt capture: final when one it replaces is, and the latest
        observation among them. */
    method FoldKind(r: Repairing) returns (kind: CaptureKind, seqNo: nat)
      ensures kind == RepairKind(r) && seqNo == LatestSeq(Folded(r))
    {
      var folded := Folded(r);
      kind, seqNo := r.target.manifest.kind, 0;
      var i := |folded|;
      while i > 0
        invariant 0 <= i <= |folded| && seqNo == LatestSeq(folded[i..])
        invariant kind == if exists k :: i <= k < |folded| && folded[k].manifest.kind == Final then Final
                          else r.target.manifest.kind
      {
        i := i - 1;
        assert folded[i..][1..] == folded[i + 1..];
        if folded[i].manifest.kind == Final {
          kind := Final;
        }
        if seqNo <= folded[i].manifest.seqNo {
          seqNo := folded[i].manifest.seqNo;
        }
      }
      assert folded[0..] == folded;
    }

    /** One class of a refused capture rebuilt in its place. */
    method StageRepair(a: SnapArgs, ghost head: Option<Manifest>, ghost ship: Shipper)
      requires a.prefix == prefix && CanRepair(View(head, ship), a)
      modifies this`previous, this`below, this`repairTarget, staging`queue
      ensures View(head, ship) == RepairClass(old(View(head, ship)), a)
    {
      var sections := BuiltSections(a.built);
      var target := repairTarget.value;
      var kind, seqNo := FoldKind(target);
      var m := Manifest(target.target.manifest.n, target.target.manifest.parent, seqNo, kind, a.createdAt, sections, None);
      var kept := FoldUploads(Folded(target), target.forget);
      var uploads := PushNew(kept, a.uploads);
      var class_ := if a.built.SmallBuilt? then Small else Bulk;
      var entry := QueueEntry(m, Some(class_), uploads + [Key(prefix, ManifestObject(Sha(m)))]);
      below := None;
      staging.Restage([entry], IndexAt(staging.queue, m.n));
      previous := Some(Encode(m));
      repairTarget := Some(Repairing(entry, [], target.forget));
    }
  }
}
