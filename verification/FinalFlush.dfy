/** The final flush: bounded rounds of snaps, shipping, census, settling and checking, then bounded
    seal attempts (cadence.rs). The other threads of the daemon run between any two of its actions:
    stray processes write to the disk, the watcher delivers changes late or not at all, the shipper
    registers and loses answers, a refused capture is rebuilt, and class loops and callers stage
    captures of their own and count them later. */
module FinalFlush {
  import opened Options
  import opened Captures
  import opened Chain
  import opened ChainSafety
  import opened BuildMemory
  import opened Coherence
  import opened FlushWorld
  import opened RepairRaces

  datatype Incomplete =
    | SnapshotFailed
    | ShipFailed
    | StoreFidelity
    | ProcessesRemain
    | Changed
    | Sealing

  const FINAL_ROUNDS := 3
  const SEAL_ATTEMPTS := 3

  class CadenceRunner {
    const executor: Option<string>
    const epoch: nat

    var shared: World                   // what the other threads change too
    var recorded: set<CaptureId>        // the seals the registrar recorded
    var seqNo: nat
    var sealed: Option<Seal_>

    // Never read: where the flush was last at some points of its own.
    ghost var mark: World               // as its last final snaps began
    ghost var finalSnaps: nat           // how often it took final snaps
    ghost var ended: Option<nat>        // others' captures when it last ended the chain in a final one
    ghost var expected: nat             // the count then, once everything staged by then is counted
    ghost var looked: World             // when it last took the chain for ended by the count
    ghost var drained: World            // when it last found everything shipped
    ghost var clear: World              // when its census last found no process alive

    ghost predicate Valid()
      reads this
    {
      Sound() && (sealed.Some? ==> Tallied(0))
    }

    /** What the flush keeps while it has still to count a capture of its own. */
    ghost predicate Sound()
      reads this
    {
      Steady(shared) && Baseline(sealed, mark, shared) && Ended()
    }

    /** Nothing staged by another thread since the flush ended the chain, it ends in a final capture. */
    ghost predicate Ended()
      reads `shared, `sealed, `ended
    {
      && (sealed.Some? ==> ended.Some?)
      && (ended.Some? ==> ended.value <= shared.others && (ended.value == shared.others ==> EndsFinal(shared)))
    }

    /** What other threads staged since is what the count will show over what was expected of it. */
    ghost predicate Tallied(owed: nat)
      reads `shared, `ended, `expected
    {
      ended.Some? && shared.others - ended.value == shared.staged + shared.uncounted + owed - expected
    }

    // ----- The other threads -------------------------------------------------------------------

    /** A write of a captured class. */
    method Write() returns (wrote: bool)
      requires Wired(shared)
      modifies `shared
      ensures Wired(shared) && Moved(old(shared), shared) && Aside(old(shared), shared)
      ensures if wrote then shared.writes == old(shared).writes + 1 else shared == old(shared)
      ensures shared.chain == old(shared).chain && shared.mem == old(shared).mem
      ensures shared.others == old(shared).others && shared.spoils == old(shared).spoils
      ensures Own(shared) == Own(old(shared))
    {
      Still(shared);
      var class_: Class, written: Disk := *, *;
      wrote := (class_ == Bulk ==> shared.bulk) && Touches(shared.disk, written, class_);
      if wrote {
        WrittenMoves(shared, class_, written);
        shared := Written(shared, class_, written);
      }
    }

    /** A class is read from the disk. A write that races the read may tear it, and is a write. */
    method Read(class_: Class, mayWrite: bool) returns (read: Option<(Built, Memory)>)
      requires Wired(shared)
      modifies `shared
      ensures Wired(shared) && Moved(old(shared), shared) && Aside(old(shared), shared)
      ensures !mayWrite ==> shared.writes == old(shared).writes
      ensures shared.writes == old(shared).writes ==> shared == old(shared)
      ensures shared.chain == old(shared).chain && shared.others == old(shared).others
      ensures shared.spoils == old(shared).spoils
      ensures read.Some? ==> ClassOf(read.value.0) == class_
      ensures read.Some? && shared.writes == old(shared).writes ==>
                Builds(shared.mem, SectionsOf(shared.chain.previous), shared.disk, read.value.0, read.value.1)
      ensures Own(shared) == Own(old(shared))
    {
      hide Moved;
      hide Aside;
      Still(shared);
      var built: Built, after: Memory := *, *;
      if ClassOf(built) != class_ {
        return None;
      }
      if Builds(shared.mem, SectionsOf(shared.chain.previous), shared.disk, built, after) {
        return Some((built, after));
      }
      if !mayWrite {
        return None;
      }
      var wrote := Write();
      return if wrote then Some((built, after)) else None;
    }

    /** Stage a build. A snap that finds nothing new drops what it packed. */
    method Stage(a: SnapArgs, after: Memory, other: bool) returns (left: Memory)
      requires CanSnap(shared.chain, a)
      modifies `shared
      ensures shared == Staged(old(shared), a, after, left, other)
    {
      left := *;
      shared := Staged(shared, a, after, left, other);
    }

    /** A snap of another thread: a class loop's, a turn boundary, a checkpoint. It lets go of the engine
        before it counts what it staged. */
    method OtherSnap(mayWrite: bool)
      requires Steady(shared)
      modifies `shared
      ensures Steady(shared) && Moved(old(shared), shared) && Aside(old(shared), shared)
      ensures !mayWrite ==> shared.writes == old(shared).writes
      ensures Own(shared) == Own(old(shared))
    {
      hide Coherent;
      hide Moved;
      hide Aside;
      hide Spoils;
      hide Unchanged;
      hide SnapManifest;
      hide Builds;
      hide Staged;
      ghost var v := shared;
      Still(v);
      var class_: Class, a: SnapArgs := *, *;
      var read := Read(class_, mayWrite);
      if read.None? {
        return;
      }
      a := a.(built := read.value.0);
      if !Stageable(shared, a) {
        return;
      }
      ghost var w := shared;
      var left := Stage(a, read.value.1, true);
      if w.writes == v.writes {
        StagedMoves(v, a, read.value.1, left, true);
        OtherStagedAside(v, a, read.value.1, left);
      } else {
        LaterStands(v, w);
        TornStaged(v, w, a, read.value.1, left, true);
      }
      StagedWrites(w, a, read.value.1, left, true);
    }

    /** A bulk build yields at a chunk boundary. */
    method Yield(mayWrite: bool)
      requires Wired(shared)
      modifies `shared
      ensures Wired(shared) && Moved(old(shared), shared) && Aside(old(shared), shared)
      ensures shared.chain == old(shared).chain && (!mayWrite ==> shared.writes == old(shared).writes)
      ensures Own(shared) == Own(old(shared))
    {
      hide Moved;
      hide Aside;
      Still(shared);
      var after: Memory := *;
      if Yields(shared.mem, shared.disk, after) {
        YieldedMoves(shared, after);
        shared := shared.(mem := after, bulkPaused := true);
      } else if mayWrite {
        ghost var v := shared;
        var wrote := Write();
        if wrote {
          TornMemory(v, shared, after);
          shared := shared.(mem := after, bulkPaused := true);
        }
      }
    }

    /** One class of the capture being rebuilt, from the disk. The repair began after `v`, spoiling what was
        remembered then. */
    method RebuildClass(class_: Class, mayWrite: bool, ghost v: World) returns (done: bool)
      requires Rebuilding(v, shared)
      modifies `shared
      ensures Rebuilding(v, shared) && (!mayWrite ==> shared.writes == old(shared).writes)
    {
      hide Coherent;
      hide Moved;
      hide Aside;
      hide Busy;
      hide Builds;
      hide RepairClass;
      hide RepairManifest;
      ghost var u := shared;
      var a: SnapArgs := *;
      var read := Read(class_, mayWrite);
      RebuildsOn(v, u, shared);
      if read.None? {
        return false;
      }
      a := a.(built := read.value.0);
      if !Rebuildable(shared, a) {
        return false;
      }
      LaterStands(u, shared);
      LaterStands(v, u);
      RebuiltMoves(v, shared, a, read.value.1);
      shared := shared.(chain := RepairClass(shared.chain, a), mem := read.value.1);
      return true;
    }

    /** While a repair holds the engine: writes, signals, counting and shipping go on. */
    method Beside(mayWrite: bool, ghost v: World)
      requires Rebuilding(v, shared)
      modifies `shared
      ensures Rebuilding(v, shared) && (!mayWrite ==> shared.writes == old(shared).writes)
    {
      hide Rebuilding;
      var left: nat := *;
      while left > 0
        invariant Rebuilding(v, shared) && (!mayWrite ==> shared.writes == old(shared).writes)
      {
        BesideOnce(mayWrite, v);
        left := left - 1;
      }
    }

    method BesideOnce(mayWrite: bool, ghost v: World)
      requires Rebuilding(v, shared)
      modifies `shared
      ensures Rebuilding(v, shared) && (!mayWrite ==> shared.writes == old(shared).writes)
    {
      hide Coherent;
      hide Moved;
      hide Aside;
      hide Busy;
      ghost var u := shared;
      Still(u);
      SmallAction(mayWrite);
      RebuildsOn(v, u, shared);
    }

    /** The engine rebuilds the refused capture a repair is asked for, final if what it replaces is. */
    method Rebuild(mayWrite: bool)
      requires Steady(shared) && shared.chain.request.Some?
      modifies `shared
      ensures Steady(shared) && Moved(old(shared), shared) && Aside(old(shared), shared)
      ensures !mayWrite ==> shared.writes == old(shared).writes
      ensures Own(shared) == Own(old(shared))
    {
      hide Coherent;
      hide Moved;
      hide Aside;
      hide Busy;
      hide Next;
      hide Begun;
      ghost var v := shared;
      var forget: set<Key>, git: set<Key>, small: bool, bulk: bool := *, *, *, *;
      BegunMoves(v, forget, git, bulk);
      BegunSpoils(v, forget, git, bulk);
      shared := Begun(shared, forget, git, bulk);
      if shared.chain.repairing.None? {
        return;
      }
      AsideRests(v, shared);
      Beside(mayWrite, v);
      var done := true;
      if small {
        done := RebuildClass(Small, mayWrite, v);
        Beside(mayWrite, v);
        done := done && shared.chain.queue != [];
      }
      if done && bulk {
        done := RebuildClass(Bulk, mayWrite, v);
        Beside(mayWrite, v);
        done := done && shared.chain.queue != [];
      }
      ghost var w := shared;
      var step := if done then StepRepairEnd else StepRepairFail;
      EndedMoves(w, step);
      shared := shared.(chain := Next(shared.chain, step));
      RebuildsOn(v, w, shared);
      BusyIsAside(v, shared);
    }

    /** One step of the ship worker or the registrar, whatever it is answered. */
    method ShipStep()
      requires Coherent(shared.chain)
      modifies `shared
      ensures Coherent(shared.chain) && shared.chain.repairing == old(shared).chain.repairing
      ensures Moved(old(shared), shared) && Aside(old(shared), shared)
      ensures shared == old(shared).(chain := shared.chain, strays := shared.strays)
      ensures Own(shared) == Own(old(shared))
    {
      hide Coherent;
      hide Moved;
      hide Aside;
      Still(shared);
      var step: Step := *;
      if IsShipperStep(step) && Enabled(shared.chain, step) {
        ShippedMoves(shared, step);
        shared := FlushWorld.Shipped(shared, step);
      }
    }

    /** One action that needs no engine. */
    method SmallAction(mayWrite: bool)
      requires Coherent(shared.chain) && Wired(shared)
      modifies `shared
      ensures Coherent(shared.chain) && Wired(shared) && shared.chain.repairing == old(shared).chain.repairing
      ensures Moved(old(shared), shared) && Aside(old(shared), shared)
      ensures !mayWrite ==> shared.writes == old(shared).writes
      ensures Own(shared) == Own(old(shared))
    {
      hide Coherent;
      hide Moved;
      hide Aside;
      Still(shared);
      var which: nat := *;
      if which == 0 && mayWrite {
        var wrote := Write();
      } else if which == 1 && shared.undelivered > 0 {
        DeliveredMoves(shared, 1);
        shared := Delivered(shared, 1);
      } else if which == 2 && shared.watcher {
        var watching: set<Class> := *;
        SignalMoves(shared, watching);
        shared := Signal(shared, watching);
      } else if which == 3 && shared.uncounted > 0 {
        CountedMoves(shared, true);
        shared := Counted(shared, true);
      } else if which == 4 {
        ShipStep();
      }
    }

    /** One action of another thread. */
    method OtherAction(mayWrite: bool)
      requires Steady(shared)
      modifies `shared
      ensures Steady(shared) && Moved(old(shared), shared) && Aside(old(shared), shared)
      ensures !mayWrite ==> shared.writes == old(shared).writes
      ensures Own(shared) == Own(old(shared))
    {
      hide Coherent;
      hide Moved;
      hide Aside;
      Still(shared);
      var which: nat := *;
      if which == 0 {
        SmallAction(mayWrite);
      } else if which == 1 && shared.chain.request.Some? {
        Rebuild(mayWrite);
      } else if which == 2 {
        OtherSnap(mayWrite);
      } else if which == 3 && shared.bulk {
        Yield(mayWrite);
      }
    }

    /** Any number of actions of other threads. */
    method Meanwhile(mayWrite: bool)
      requires Sound()
      modifies `shared
      ensures Sound() && (old(Valid()) ==> Valid()) && Moved(old(shared), shared) && Aside(old(shared), shared)
      ensures !mayWrite ==> shared.writes == old(shared).writes
      ensures Own(shared) == Own(old(shared))
    {
      hide Coherent;
      hide Moved;
      hide Aside;
      hide Baseline;
      ghost var v := shared;
      Still(v);
      var left: nat := *;
      while left > 0
        invariant Steady(shared) && Moved(v, shared) && Aside(v, shared)
        invariant (!mayWrite ==> shared.writes == v.writes) && Own(shared) == Own(v)
      {
        ghost var w := shared;
        OtherAction(mayWrite);
        Onward(v, w, shared);
        left := left - 1;
      }
      BaselineStands(sealed, mark, v, shared);
      EndedStands(ended, v, shared);
    }

    // ----- Snaps -------------------------------------------------------------------------------

    /** Read a class and stage it. `added` says there was something to stage, and so to count. */
    method SnapNow(class_: Class) returns (done: bool, added: bool)
      requires Steady(shared)
      modifies `shared
      ensures Steady(shared) && Moved(old(shared), shared) && RestKept(old(shared), shared)
      ensures shared.others == old(shared).others && (EndsFinal(old(shared)) ==> EndsFinal(shared))
      ensures done ==> shared.chain.previous.Some? && ReadSince(old(shared), shared, class_)
    {
      hide Coherent;
      hide Moved;
      hide Aside;
      hide RestKept;
      hide Spoils;
      hide Unchanged;
      hide SnapManifest;
      hide Builds;
      hide Staged;
      hide CurrentIn;
      hide RemembersIn;
      ghost var v := shared;
      var read := Read(class_, true);
      ghost var w := shared;
      AsideRests(v, w);
      if read.None? {
        return false, false;
      }
      var a: SnapArgs := *;
      a := a.(kind := Final, seqNo := seqNo, built := read.value.0);
      if !Stageable(shared, a) {
        return false, false;
      }
      added := !Unchanged(shared.chain, a);
      var left := Stage(a, read.value.1, false);
      StagedWrites(w, a, read.value.1, left, false);
      OwnEndsFinal(w, a, read.value.1, left);
      if w.writes == v.writes {
        StagedMoves(v, a, read.value.1, left, false);
        OwnStaged(v, a, read.value.1, left);
      } else {
        LaterStands(v, w);
        TornStaged(v, w, a, read.value.1, left, false);
      }
      done := true;
    }

    /** What the flush staged is counted once it let go of the engine. */
    method Count(added: bool, mayWrite: bool)
      requires Sound()
      modifies `shared
      ensures Sound() && Moved(old(shared), shared) && Aside(old(shared), shared)
      ensures Own(shared) == if added then Own(old(shared)) + 1 else Own(old(shared))
      ensures !mayWrite ==> shared.writes == old(shared).writes
    {
      hide Steady;
      hide Moved;
      hide Aside;
      hide Baseline;
      ghost var v := shared;
      Meanwhile(mayWrite);
      ghost var w := shared;
      if added {
        CountedMoves(w, false);
        BaselineStands(sealed, mark, w, Counted(w, false));
        shared := Counted(shared, false);
        Onward(v, w, shared);
      }
      w := shared;
      Meanwhile(mayWrite);
      Onward(v, w, shared);
    }

    /** A forced final snap of a class, once the engine is free. Done, with no write from its start to
        its end, the newest capture holds the class as it is on the disk, and is remembered so. */
    method FinalSnap(class_: Class) returns (done: bool)
      requires Valid() && sealed.None?
      modifies `shared, `seqNo
      ensures Valid() && Moved(old(shared), shared) && RestKept(old(shared), shared)
      ensures done ==> shared.chain.previous.Some? && ReadSince(old(shared), shared, class_)
    {
      hide Steady;
      hide Moved;
      hide Aside;
      hide RestKept;
      hide ReadSince;
      seqNo := seqNo + 1;
      ghost var u := shared;
      Meanwhile(true);
      ghost var v := shared;
      var added;
      done, added := SnapNow(class_);
      ghost var w := shared;
      Count(added, true);
      AsideRests(u, v);
      AsideRests(w, shared);
      LaterStands(w, shared);
      Along(u, v, w);
      Along(u, w, shared);
      if done {
        ReadFrom(u, v, w, class_);
        ReadStill(u, w, shared, class_);
      }
    }

    /** Whether nothing moved since the last final flush's snaps. */
    predicate SnapsStillCurrent()
      reads `shared, `sealed
    {
      sealed.Some? && !shared.bulkPaused && shared.changes == sealed.value.changes && shared.chain.request.None?
    }

    /** `allowed`: the daemon's hook allows scheduled snaps. */
    predicate FinalIsCurrent(allowed: bool)
      reads `shared, `sealed
    {
      EveryWatched(shared) && !allowed && SnapsStillCurrent()
    }

    predicate ChainSealed()
      reads `shared, `sealed
    {
      sealed.Some? && sealed.value.staged == shared.staged
    }

    /** End the chain in a final capture, if it does not end in one. */
    method EndChain() returns (added: bool)
      requires Sound()
      modifies `shared, `seqNo, `ended, `expected
      ensures Sound() && Moved(old(shared), shared) && RestKept(old(shared), shared) && LeftAlone(old(shared), shared)
      ensures shared == old(shared).(chain := shared.chain)
      ensures shared.chain.previous.Some? ==> ended == Some(shared.others) && Tallied(if added then 1 else 0)
      ensures shared.chain.previous.None? ==> ended == old(ended)
      ensures added <==> old(shared).chain.previous.Some? && !EndsFinal(old(shared))
      ensures if added then shared.chain.queue != [] && !IsBulk(Last(shared.chain.queue)) else shared == old(shared)
      ensures SectionsOf(shared.chain.previous) == SectionsOf(old(shared).chain.previous)
      ensures shared.chain.request == old(shared).chain.request
    {
      hide Coherent;
      hide Moved;
      hide Baseline;
      ghost var v := shared;
      Still(v);
      seqNo := seqNo + 1;
      added := shared.chain.previous.Some? && shared.chain.previous.value.manifest.kind != Final;
      if added {
        var a: SealArgs := *;
        a := a.(seqNo := seqNo, seal := None);
        SealMoves(v, a);
        hide Seal;
        shared := shared.(chain := Seal(shared.chain, a));
        BaselineStands(sealed, mark, v, shared);
      }
      if shared.chain.previous.Some? {
        ended, expected := Some(shared.others), shared.staged + shared.uncounted + if added then 1 else 0;
      }
    }

    /** End the chain, and count. */
    method EndFinal() returns (done: bool)
      requires Sound()
      modifies `shared, `seqNo, `ended, `expected
      ensures Sound() && Moved(old(shared), shared) && RestKept(old(shared), shared) && LeftAlone(old(shared), shared)
      ensures done && old(shared).chain.previous.Some? ==>
                ended.Some? && old(shared).others <= ended.value && Tallied(0)
      ensures !done ==> ended == old(ended) && expected == old(expected) && Own(shared) == Own(old(shared))
    {
      hide Steady;
      hide Moved;
      hide Aside;
      hide RestKept;
      hide LeftAlone;
      ghost var u := shared;
      Meanwhile(true);
      AsideRests(u, shared);
      LaterStands(u, shared);
      var failed: bool := *;
      if failed {
        return false;
      }
      ghost var v := shared;
      var added := EndChain();
      Along(u, v, shared);
      AloneStill(u, v, shared);
      ghost var w := shared;
      Count(added, true);
      AsideRests(w, shared);
      Along(u, w, shared);
      AloneStill(u, w, shared);
      return true;
    }

    /** The snaps of a round over a disk that may have moved: the small class, the bulk class, and the
        small class again when it depends on the bulk one. */
    method SnapClasses() returns (done: bool)
      requires Valid() && sealed.None? && shared == mark
      modifies `shared, `seqNo
      ensures Valid() && Moved(mark, shared) && RestKept(mark, shared)
      ensures done ==> shared.chain.previous.Some? && AllRead(mark, shared)
    {
      hide Steady;
      hide Moved;
      hide RestKept;
      hide ReadSince;
      Still(mark);
      done := FinalSnap(Small);
      ghost var v := shared;
      LaterStands(mark, v);
      if !done || !shared.bulk {
        return;
      }
      done := FinalSnap(Bulk);
      ghost var w := shared;
      Along(mark, v, w);
      if !done {
        return;
      }
      ReadStill(mark, v, w, Small);
      ReadFrom(mark, v, w, Bulk);
      var dependsOnBulk: bool := *;
      if dependsOnBulk {
        done := FinalSnap(Small);
        Along(mark, w, shared);
        ReadStill(mark, w, shared, Small);
        ReadStill(mark, w, shared, Bulk);
      }
    }

    /** Both classes snapped, and the chain ended in a final capture. */
    method SnapAgain() returns (incomplete: Option<Incomplete>)
      requires Valid() && sealed.None? && shared == mark
      modifies `shared, `seqNo, `sealed, `ended, `expected
      ensures Valid() && Moved(mark, shared) && RestKept(mark, shared)
      ensures incomplete.None? ==> ChainSealed() && ended.Some? && mark.others <= ended.value
    {
      hide Steady;
      hide Moved;
      hide RestKept;
      hide ReadSince;
      hide LeftAlone;
      var baseline := shared.changes;
      var done := SnapClasses();
      LaterStands(mark, shared);
      if !done {
        return Some(SnapshotFailed);
      }
      var linksDeferred: bool := *;
      if linksDeferred {
        return Some(SnapshotFailed);
      }
      ghost var w := shared;
      done := EndFinal();
      Along(mark, w, shared);
      if !done {
        return Some(SnapshotFailed);
      }
      ReadStill(mark, w, shared, Small);
      if shared.bulk {
        ReadStill(mark, w, shared, Bulk);
      }
      sealed := Some(Seal_(baseline, shared.staged, false));
      return None;
    }

    /** The chain was ended since. Or no final snaps were taken, and it was taken for ended as it was, the count
        standing where the last final snaps, or the last seal, left it: then other threads had staged
        since it was ended just what that count, with what was still to count, shows over the
        expected one. */
    twostate predicate EndedOn()
      reads `shared, `sealed, `finalSnaps, `ended, `expected, `looked
    {
      || (ended.Some? && old(shared).others <= ended.value)
      || (&& finalSnaps == old(finalSnaps) && old(sealed).Some?
          && ended == old(ended) && expected == old(expected) && ended.Some?
          && sealed.Some? && sealed.value.staged == old(sealed).value.staged
          && Later(old(shared), looked) && looked.staged == old(sealed).value.staged
          && looked.others - ended.value == looked.staged + looked.uncounted - expected)
    }

    twostate predicate EndedKept()
      reads `sealed, `ended, `expected
    {
      || (ended == old(ended) && expected == old(expected) && sealed == old(sealed))
      || (ended.Some? && old(shared).others <= ended.value)
    }

    /** Final snaps were taken since, or none: then the last ones were, and nothing else of them moved. */
    twostate predicate MarkedOn()
      reads `mark, `finalSnaps
    {
      || (finalSnaps == old(finalSnaps) && mark == old(mark) && old(sealed).Some?)
      || (finalSnaps > old(finalSnaps) && Later(old(shared), mark))
    }

    /** One round of a final flush's snaps: none when the disk is as the last final flush captured it,
        by the watcher's word. Why the flush cannot complete, when it cannot. */
    method FinalSnaps() returns (incomplete: Option<Incomplete>)
      requires Valid()
      modifies `shared, `seqNo, `sealed, `mark, `finalSnaps, `ended, `expected, `looked
      ensures Valid() && Moved(old(shared), shared) && RestKept(old(shared), shared) && MarkedOn()
      ensures finalSnaps == old(finalSnaps) ==> LeftAlone(old(shared), shared) && SeenWhole(mark, shared)
      ensures incomplete.None? ==> ChainSealed() && EndedOn()
    {
      hide Steady;
      hide Moved;
      hide RestKept;
      hide ReadSince;
      ghost var v := shared;
      Still(v);
      var allowed: bool := *;
      if FinalIsCurrent(allowed) {
        WatchedSince(mark, v, v);
        if ChainSealed() {
          looked := shared;
          return None;
        }
        var done := EndFinal();
        WatchedSince(mark, v, shared);
        if !done {
          return Some(SnapshotFailed);
        }
        BaselineStands(sealed, mark, v, shared);
        sealed := Some(sealed.value.(staged := shared.staged));
        return None;
      }
      sealed, mark, finalSnaps := None, shared, finalSnaps + 1;
      incomplete := SnapAgain();
    }

    // ----- Shipping, settling, sealing ---------------------------------------------------------

    /** Ship and register everything staged, rebuilding what the registrar refuses. Done only once
        the queue is empty. */
    method ShipFinal(mayWrite: bool) returns (done: bool)
      requires Valid()
      modifies `shared, `drained
      ensures Valid() && Moved(old(shared), shared) && Aside(old(shared), shared)
      ensures !mayWrite ==> shared.writes == old(shared).writes
      ensures if done then shared.chain.queue == [] && drained == shared else drained == old(drained)
    {
      Meanwhile(mayWrite);
      var finished: bool := *;
      done := finished && shared.chain.queue == [];
      if done {
        drained := shared;
      }
    }

    /** Wait until the watcher delivered every change it saw made before now; there is nothing to wait for
        without one. */
    method SettleWatcher(mayWrite: bool) returns (settled: bool)
      requires Valid()
      modifies `shared
      ensures Valid() && Moved(old(shared), shared) && Aside(old(shared), shared)
      ensures !mayWrite ==> shared.writes == old(shared).writes
      ensures settled ==> shared.undelivered == 0
      ensures !shared.watcher ==> settled
    {
      hide Coherent;
      hide Moved;
      hide Aside;
      hide Baseline;
      ghost var v := shared;
      Meanwhile(mayWrite);
      settled := *;
      settled := settled || !shared.watcher;
      if settled && shared.watcher {
        ghost var w := shared;
        DeliveredMoves(w, w.undelivered);
        shared := Delivered(shared, shared.undelivered);
        BaselineStands(sealed, mark, w, shared);
        Onward(v, w, shared);
      }
    }

    predicate CompletionSealed()
      reads `shared
    {
      SealedFor(shared.chain, executor, epoch)
    }

    /** Everything was found shipped, and only other threads acted since. */
    ghost predicate Shipped()
      reads `shared, `drained
    {
      drained.chain.queue == [] && Moved(drained, shared) && Aside(drained, shared)
    }

    /** Nothing was written since a census after `u`, and every write since the last final snaps began went
        unseen; if they began before `u`, or with every class watched, there was none. */
    ghost predicate Accounted(u: World)
      reads `shared, `sealed, `mark, `clear
    {
      && sealed.Some? && Later(u, clear) && shared.writes == clear.writes
      && (|| shared.writes == mark.writes
          || (&& Later(u, mark) && !EveryWatched(mark)
              && shared.writes - mark.writes == shared.unseen - mark.unseen))
    }

    /** A round up to its census: settling, snaps, shipping, fidelity. */
    method SnapAndShip() returns (incomplete: Option<Incomplete>)
      requires Valid()
      modifies `shared, `seqNo, `sealed, `mark, `finalSnaps, `ended, `expected, `looked, `drained
      ensures Valid() && Moved(old(shared), shared) && RestKept(old(shared), shared) && MarkedOn()
      ensures finalSnaps == old(finalSnaps) ==> LeftAlone(old(shared), shared) && SeenWhole(mark, shared)
      ensures incomplete.None? ==> EndedOn() && sealed.Some? && drained == shared && shared.chain.queue == []
    {
      hide Steady;
      hide Moved;
      hide Aside;
      hide RestKept;
      hide LeftAlone;
      hide Baseline;
      hide Later;
      ghost var u := shared;
      var settled := SettleWatcher(true);
      ghost var v := shared;
      AsideRests(u, v);
      incomplete := FinalSnaps();
      ghost var s := shared;
      Along(u, v, s);
      LaterFrom(u, v, mark);
      LaterFrom(u, v, looked);
      var shipped := ShipFinal(true);
      AsideRests(s, shared);
      Along(u, s, shared);
      LaterFrom(s, shared, shared);
      if finalSnaps == old(finalSnaps) {
        AloneStill(u, v, s);
        AloneStill(u, s, shared);
      }
      if !shipped && incomplete.None? {
        incomplete := Some(ShipFailed);
      }
      var gap: bool := *;
      if incomplete.None? && gap {
        incomplete := Some(StoreFidelity);
      }
    }

    /** One round: snaps, shipping, fidelity, census, settling, checking. `again` asks for another. */
    method Round(last: bool, writersStopped: bool) returns (again: bool, incomplete: Option<Incomplete>)
      requires Valid()
      modifies `shared, `seqNo, `sealed, `mark, `finalSnaps, `ended, `expected, `looked, `drained, `clear
      ensures Valid() && Moved(old(shared), shared) && RestKept(old(shared), shared) && MarkedOn()
      ensures finalSnaps == old(finalSnaps) ==> LeftAlone(old(shared), shared)
      ensures again ==> !last && incomplete.None?
      ensures incomplete.None? ==> EndedOn()
      ensures !again && incomplete.None? ==> sealed.Some? && Shipped() && Later(old(shared), drained)
      ensures !again && incomplete.None? && writersStopped ==> Accounted(old(shared))
    {
      hide Steady;
      hide Moved;
      hide Aside;
      hide RestKept;
      hide LeftAlone;
      hide AllRead;
      hide Signalled;
      ghost var u := shared;
      incomplete := SnapAndShip();
      LaterStands(u, shared);
      Still(shared);
      if incomplete.Some? || !writersStopped {
        return false, incomplete;
      }
      var timeLeft: bool, alive: bool := *, *;
      if alive {
        if !last && timeLeft {
          return true, None;
        }
        return false, Some(ProcessesRemain);
      }
      // No process is left to write from here on.
      clear := shared;
      ghost var d := shared;
      var settled := SettleWatcher(false);
      AsideRests(d, shared);
      Along(u, d, shared);
      if finalSnaps == old(finalSnaps) {
        AloneStill(u, d, shared);
      }
      if !(settled && SnapsStillCurrent()) {
        if !last && timeLeft {
          return true, None;
        }
        return false, Some(Changed);
      }
      SettledAccounts(sealed.value, mark, shared);
      return false, None;
    }

    /** The rounds of a final flush. */
    method Rounds(writersStopped: bool) returns (incomplete: Option<Incomplete>, rounds: nat)
      requires Valid()
      modifies `shared, `seqNo, `sealed, `mark, `finalSnaps, `ended, `expected, `looked, `drained, `clear
      ensures Valid() && Moved(old(shared), shared) && RestKept(old(shared), shared) && MarkedOn()
      ensures finalSnaps == old(finalSnaps) ==> LeftAlone(old(shared), shared)
      ensures incomplete.None? ==> EndedOn()
      ensures 1 <= rounds <= FINAL_ROUNDS
      ensures incomplete.None? ==> sealed.Some? && Shipped() && Later(old(shared), drained)
      ensures incomplete.None? && writersStopped ==> Accounted(old(shared))
    {
      hide Steady;
      hide Moved;
      hide Aside;
      hide RestKept;
      hide LeftAlone;
      hide Baseline;
      hide Ended;
      hide Shipped;
      hide Later;
      ghost var u := shared;
      var again;
      rounds := 1;
      again, incomplete := Round(false, writersStopped);
      LaterStands(u, shared);
      while again
        invariant Valid() && Moved(u, shared) && RestKept(u, shared) && MarkedOn()
        invariant (again ==> incomplete.None?) && (incomplete.None? ==> EndedOn())
        invariant finalSnaps == old(finalSnaps) ==> LeftAlone(u, shared)
        invariant 1 <= rounds <= FINAL_ROUNDS && (again ==> rounds < FINAL_ROUNDS)
        invariant !again && incomplete.None? ==> sealed.Some? && Shipped() && Later(u, drained)
        invariant !again && incomplete.None? && writersStopped ==> Accounted(u)
        decreases FINAL_ROUNDS - rounds
      {
        ghost var v := shared;
        rounds := rounds + 1;
        again, incomplete := Round(rounds == FINAL_ROUNDS, writersStopped);
        Along(u, v, shared);
        LaterFrom(u, v, mark);
        LaterFrom(u, v, clear);
        LaterFrom(u, v, drained);
        LaterFrom(u, v, looked);
        if finalSnaps == old(finalSnaps) {
          AloneStill(u, v, shared);
        }
      }
    }

    /** Stage the sealing capture, if the newest one does not carry the seal. */
    method SealNow() returns (sealing: bool)
      requires Sound()
      modifies `shared, `seqNo, `ended, `expected
      ensures Sound() && Moved(old(shared), shared)
      ensures sealing <==> executor.Some? && old(shared).chain.previous.Some? && !old(CompletionSealed())
      ensures shared == old(shared).(chain := shared.chain) && (!sealing ==> shared == old(shared))
      ensures !sealing ==> ended == old(ended) && expected == old(expected)
      ensures sealing ==> CompletionSealed() && EndsFinal(shared) && ended == Some(shared.others) && Tallied(1)
    {
      hide Coherent;
      hide Moved;
      hide Baseline;
      ghost var v := shared;
      Still(v);
      seqNo := seqNo + 1;
      sealing := executor.Some? && shared.chain.previous.Some? && !CompletionSealed();
      if sealing {
        var a: SealArgs := *;
        var at: (nat, nat) := *;
        a := a.(seqNo := seqNo, seal := Some(FinalSeal(true, epoch, executor.value, Some(at))));
        SealMoves(v, a);
        hide Seal;
        shared := shared.(chain := Seal(shared.chain, a));
        BaselineStands(sealed, mark, v, shared);
        ended, expected := Some(shared.others), shared.staged + shared.uncounted + 1;
      }
    }

    /** Stage it, count it, and note the count. */
    method SealComplete() returns (sealing: bool)
      requires Valid()
      modifies `shared, `seqNo, `sealed, `ended, `expected
      ensures Valid() && Moved(old(shared), shared) && shared.writes == old(shared).writes && EndedKept()
      ensures sealing <==> executor.Some? && old(shared).chain.previous.Some? && !old(CompletionSealed())
      ensures !sealing ==> shared == old(shared)
      ensures (sealed.Some? <==> old(sealed).Some?) && (sealing && sealed.Some? ==> ChainSealed())
    {
      hide Steady;
      hide Moved;
      hide Aside;
      hide AllRead;
      hide SealedFor;
      ghost var v := shared;
      sealing := SealNow();
      LaterStands(v, shared);
      if sealing {
        ghost var w := shared;
        Count(true, false);
        MovedOn(v, w, shared);
        if sealed.Some? {
          sealed := Some(sealed.value.(staged := shared.staged));
        }
      }
    }

    /** Seal what everything shipped, ship the seal, and again while it is lost to a repair or another
        thread stages over it; no one writes. */
    method SealLoop() returns (incomplete: Option<Incomplete>, seals: nat)
      requires Valid() && sealed.Some? && Shipped()
      modifies `shared, `seqNo, `sealed, `ended, `expected, `drained
      ensures Valid() && sealed.Some? && Moved(old(shared), shared) && EndedKept() && seals <= SEAL_ATTEMPTS
      ensures shared.writes == old(shared).writes
      ensures incomplete.None? ==> Shipped() && CompletionSealed()
      ensures drained == old(drained) || Later(old(shared), drained)
      ensures old(CompletionSealed()) ==> seals == 0 && shared == old(shared)
    {
      hide Steady;
      hide Moved;
      hide Aside;
      hide AllRead;
      hide SealedFor;
      ghost var u := shared;
      Still(u);
      incomplete, seals := None, 0;
      while incomplete.None? && !CompletionSealed()
        invariant Valid() && sealed.Some? && Moved(u, shared) && EndedKept() && seals <= SEAL_ATTEMPTS
        invariant shared.writes == u.writes
        invariant incomplete.None? ==> Shipped()
        invariant drained == old(drained) || Later(u, drained)
        invariant old(CompletionSealed()) ==> seals == 0 && shared == u
        decreases if incomplete.None? then SEAL_ATTEMPTS - seals + 1 else 0
      {
        if seals == SEAL_ATTEMPTS {
          incomplete := Some(Sealing);
          break;
        }
        seals := seals + 1;
        ghost var w := shared;
        Meanwhile(false);
        MovedOn(u, w, shared);
        Onward(drained, w, shared);
        var stagingFailed: bool := *;
        if stagingFailed {
          incomplete := Some(Sealing);
          break;
        }
        w := shared;
        NoExecutor(shared.chain, executor, epoch);
        var sealing := SealComplete();
        MovedOn(u, w, shared);
        if !sealing {
          break;
        }
        w := shared;
        var shipped := ShipFinal(false);
        MovedOn(u, w, shared);
        w := shared;
        Still(w);
        if !shipped {
          incomplete := Some(ShipFailed);
        }
        Meanwhile(false);
        MovedOn(u, w, shared);
      }
    }

    /** Ask the registrar whether the seal of a capture stands. It records one only for the head of its
        chain, sealed for this executor. */
    method SealStanding(asked: Encoded) returns (stands: bool)
      modifies `recorded
      ensures stands ==> asked.id in recorded && shared.chain.head.Some? && asked.id == Sha(shared.chain.head.value)
      ensures recorded <= old(recorded) + {asked.id}
      ensures recorded != old(recorded) ==> shared.chain.head.Some? && asked.id == Sha(shared.chain.head.value)
    {
      var answer: bool := *;
      stands := answer && shared.chain.head.Some? && asked.id == Sha(shared.chain.head.value);
      if stands {
        recorded := recorded + {asked.id};
      }
    }

    /** The newest capture carries the seal, is the registered head with nothing queued behind it, and the
        registrar recorded its seal. */
    ghost predicate SealStands()
      reads this
    {
      && shared.chain.queue == [] && EndsFinal(shared) && CompletionSealed()
      && shared.chain.head.Some? && shared.chain.previous.value.id == Sha(shared.chain.head.value)
      && shared.chain.previous.value.id in recorded
    }

    /** Ask where the seal stands, if the newest capture carries it still; another thread may have staged
        since it was found there, and may while the registrar is asked. */
    method AskSeal() returns (incomplete: Option<Incomplete>)
      requires Valid() && Shipped() && CompletionSealed()
      modifies `shared, `recorded
      ensures Valid() && Shipped() && Moved(old(shared), shared) && Aside(old(shared), shared)
      ensures shared.writes == old(shared).writes
      ensures incomplete.None? && executor.Some? ==> (SealStands() <==> shared.others == drained.others)
    {
      hide Coherent;
      hide Moved;
      hide Aside;
      hide SealedFor;
      hide AllRead;
      ghost var u := shared;
      if executor.Some? {
        SealWasThere(drained, u, executor, epoch);
      }
      Meanwhile(false);
      ghost var v := shared;
      Onward(drained, u, v);
      incomplete := None;
      if executor.Some? && CompletionSealed() {
        SealedIsThere(v.chain, executor, epoch);
        var asked := shared.chain.previous.value;
        Meanwhile(false);
        ghost var w := shared;
        Onward(drained, v, w);
        Onward(u, v, w);
        var stands := SealStanding(asked);
        if !stands {
          incomplete := Some(Sealing);
        }
        Meanwhile(false);
        Onward(drained, w, shared);
        Onward(u, w, shared);
        if shared.others == drained.others {
          QueueStands(drained, v);
          QueueStands(drained, w);
          QueueStands(drained, shared);
        }
      }
      if executor.Some? {
        SealTellsStaging(drained, v, executor, epoch);
        SealTellsStaging(drained, shared, executor, epoch);
        if CompletionSealed() {
          SealedIsThere(shared.chain, executor, epoch);
          SealedEndsFinal(shared.chain, executor, epoch);
        }
      }
    }

    /** Seal, and ask where the seal stands. */
    method SealAndAsk() returns (incomplete: Option<Incomplete>, seals: nat)
      requires Valid() && sealed.Some? && Shipped()
      modifies `shared, `recorded, `seqNo, `sealed, `ended, `expected, `drained
      ensures Valid() && sealed.Some? && Moved(old(shared), shared) && EndedKept() && seals <= SEAL_ATTEMPTS
      ensures shared.writes == old(shared).writes
      ensures incomplete.None? ==> Shipped() && (drained == old(drained) || Later(old(shared), drained))
      ensures incomplete.None? && executor.Some? ==> (SealStands() <==> shared.others == drained.others)
      ensures old(CompletionSealed()) ==> seals == 0 && Aside(old(shared), shared)
    {
      hide Steady;
      hide Moved;
      hide Aside;
      hide AllRead;
      hide SealedFor;
      ghost var u := shared;
      Still(u);
      incomplete, seals := SealLoop();
      if incomplete.None? {
        ghost var v := shared;
        incomplete := AskSeal();
        MovedOn(u, v, shared);
      }
    }

    /** Note whether this flush completed and sealed the chain, if there is an executor to seal under. */
    method NoteCompletion(complete: bool)
      requires Valid()
      modifies `sealed
      ensures Valid()
      ensures sealed.Some? <==> old(sealed).Some?
      ensures sealed.Some? ==>
                sealed.value == old(sealed).value.(completion := executor.None? || (complete && CompletionSealed()))
    {
      if sealed.Some? {
        sealed := Some(sealed.value.(completion := executor.None? || (complete && CompletionSealed())));
      }
    }

    /** A chain all shipped, ended and sealed is left as it was, if no other thread staged; when the flush
        snaps again, if what it ended in was remembered and no one wrote. */
    twostate predicate LeftAsItWas(seals: nat)
      reads `shared, `finalSnaps
    {
      FoundSealed() ==> SameChain(old(shared), shared) && seals == 0
    }

    twostate predicate FoundSealed()
      reads `shared, `finalSnaps
    {
      && old(shared.chain.queue == [] && EndsFinal(shared) && CompletionSealed())
      && shared.others == old(shared).others
      && (finalSnaps == old(finalSnaps) || (old(Remembered(shared)) && shared.writes == old(shared).writes))
    }

    /** No other thread staged, nothing went unseen, and what is remembered was not spoilt, since this began
        or since the last final snaps. Unless there is an executor to seal under, no other thread's
        capture came between the chain's end and the count noted for it, and none is still to count. */
    twostate predicate Undisturbed()
      reads `shared
    {
      && shared.others == old(shared).others && shared.unseen == old(shared).unseen
      && shared.spoils == old(shared).spoils
      && (old(sealed).Some? ==>
            && old(shared.spoils == mark.spoils)
            && (executor.Some? || old(sealed.value.staged == expected && shared.uncounted == 0)))
    }

    /** The engine was not on a capture no one registered, and the shipper left it on none since. */
    twostate predicate GroundedOn()
      reads `shared
    {
      old(Grounded(shared.chain)) && shared.strays == old(shared).strays
    }

    ghost predicate HeadIsNewest()
      reads `shared
    {
      && shared.chain.queue == [] && shared.chain.previous.Some? && shared.chain.head.Some?
      && shared.chain.previous.value.id == Sha(shared.chain.head.value)
    }

    /** As a flush that was not disturbed leaves it. */
    ghost predicate Complete()
      reads this
    {
      && AtRest(shared) && Current(shared) && CompletionSealed() && (executor.Some? ==> SealStands())
      && sealed.Some? && shared.spoils == mark.spoils
    }

    /** The rounds, and the seal. */
    method RoundsAndSeal(writersStopped: bool) returns (incomplete: Option<Incomplete>, rounds: nat, seals: nat)
      requires Valid()
      modifies this
      ensures Valid() && Moved(old(shared), shared) && MarkedOn() && LeftAsItWas(seals)
      ensures 1 <= rounds <= FINAL_ROUNDS && seals <= SEAL_ATTEMPTS
      ensures incomplete.None? ==> sealed.Some? && EndedOn() && Shipped() && Later(old(shared), drained)
      ensures incomplete.None? && writersStopped ==> Accounted(old(shared))
      ensures incomplete.None? && writersStopped && executor.Some? ==>
                (SealStands() <==> shared.others == drained.others)
    {
      hide Steady;
      hide Moved;
      hide Aside;
      hide RestKept;
      hide LeftAlone;
      hide Baseline;
      hide Ended;
      hide SealedFor;
      hide Remembered;
      hide Grounded;
      hide SealStands;
      ghost var u := shared;
      incomplete, rounds := Rounds(writersStopped);
      ghost var v := shared;
      Still(v);
      seals := 0;
      if incomplete.None? && writersStopped {
        incomplete, seals := SealAndAsk();
        NothingSeen(v, shared);
      }
      MovedOn(u, v, shared);
      if FoundSealed() {
        LeftSealed(u, v, shared, executor, epoch, finalSnaps == old(finalSnaps));
      }
    }

    /** The final flush. Once it says complete, everything was found shipped since it began. With the writers
        stopped, every write since its last final snaps began went unseen, and there was none if the
        watcher saw every class then; unwritten, the newest capture holds the disk (module FlushWorld,
        `Baseline`). With an executor, the newest capture is sealed, registered and recorded exactly
        when no other thread staged since everything was found shipped.

        Whatever it says, a chain sealed and all shipped is left as it was. */
    method FlushFinalSealing(writersStopped: bool) returns (incomplete: Option<Incomplete>, rounds: nat, seals: nat)
      requires Valid()
      modifies this
      ensures Valid() && Moved(old(shared), shared) && MarkedOn() && LeftAsItWas(seals)
      ensures 1 <= rounds <= FINAL_ROUNDS && seals <= SEAL_ATTEMPTS
      ensures incomplete.None? ==> sealed.Some? && EndedOn() && Later(old(shared), drained) && Shipped()
      ensures incomplete.None? && shared.others == drained.others ==> SameChain(drained, shared)
      ensures incomplete.None? && shared.others == drained.others && GroundedOn() ==> HeadIsNewest()
      ensures incomplete.None? && writersStopped ==> Accounted(old(shared))
      ensures incomplete.None? && writersStopped && executor.Some? ==>
                (SealStands() <==> shared.others == drained.others)
      ensures incomplete.None? && writersStopped && Undisturbed() ==> Complete()
      ensures sealed.Some? ==>
                (sealed.value.completion <==>
                 executor.None? || (incomplete.None? && writersStopped && CompletionSealed()))
    {
      hide Steady;
      hide Moved;
      hide Aside;
      hide AllRead;
      hide SealedFor;
      hide Remembered;
      hide Current;
      hide Grounded;
      hide LeftAsItWas;
      incomplete, rounds, seals := RoundsAndSeal(writersStopped);
      NoteCompletion(incomplete.None? && writersStopped);
      if incomplete.None? {
        QueueWasEmpty(drained, shared);
        LaterStands(drained, shared);
        LaterStands(mark, shared);
        NoExecutor(shared.chain, executor, epoch);
        if GroundedOn() && shared.others == drained.others {
          GroundedStays(old(shared), shared);
        }
        if shared.writes == mark.writes {
          UnwrittenIsCurrent(sealed.value, mark, shared);
        }
      }
    }

    /** A final flush asked twice. If the first says complete, undisturbed, and from then on no one writes or
        stages, the second leaves the newest capture as the first did: all shipped, final, sealed,
        the disk as it is. */
    method FlushTwice() returns (first: Option<Incomplete>, second: Option<Incomplete>, left: Option<Encoded>)
      requires Valid()
      modifies this
      ensures Valid()
      ensures first.None? && Undisturbed() && shared.writes == old(shared).writes ==>
                shared.chain.previous == left && AtRest(shared) && Current(shared) && CompletionSealed()
    {
      hide Steady;
      hide Moved;
      hide Aside;
      hide Baseline;
      hide SealedFor;
      hide Grounded;
      hide CurrentIn;
      hide RemembersIn;
      var rounds, seals;
      first, rounds, seals := FlushFinalSealing(true);
      left := shared.chain.previous;
      ghost var v := shared;
      LaterStands(old(shared), v);
      Meanwhile(true);
      AsideRests(v, shared);
      LaterStands(v, shared);
      ghost var w := shared;
      second, rounds, seals := FlushFinalSealing(true);
      MovedOn(v, w, shared);
      SealGoesWith(v, w, executor, epoch);
      SealGoesWith(w, shared, executor, epoch);
      if shared.writes == v.writes && shared.spoils == v.spoils {
        StillCurrent(v, shared);
      }
    }

    /** What the count does not tell. The flush ends the chain over a turn's capture and lets go of the engine;
        another turn is staged and counted before the flush counts its own and reads the count. The
        chain ends in a turn, and a flush asked next, by the watcher's word, takes it for ended. */
    method CountedIntruder(turn: SnapArgs, after: Memory)
      requires Valid() && FinalIsCurrent(false) && shared.chain.previous.Some? && !EndsFinal(shared)
      requires turn.kind == Turn && turn.built.SmallBuilt?
      requires Builds(shared.mem, SectionsOf(shared.chain.previous), shared.disk, turn.built, after)
      modifies `shared, `seqNo, `sealed, `ended, `expected
      ensures Valid() && FinalIsCurrent(false) && ChainSealed() && !EndsFinal(shared)
      ensures shared.others == old(shared).others + 1 && ended == Some(old(shared).others)
      ensures shared.uncounted == old(shared).uncounted && sealed.value.staged + shared.uncounted == expected + 1
    {
      hide Coherent;
      hide Moved;
      hide Aside;
      hide AllRead;
      hide Builds;
      hide Unchanged;
      hide SnapManifest;
      hide Spoils;
      var added := EndChain();
      ghost var v := shared;
      var left := Stage(turn, after, true);
      TurnIsStaged(v, turn, after, left);
      StagedMoves(v, turn, after, left, true);
      BaselineStands(sealed, mark, v, shared);
      CountedMoves(shared, true);
      BaselineStands(sealed, mark, shared, Counted(shared, true));
      shared := Counted(shared, true);
      CountedMoves(shared, false);
      BaselineStands(sealed, mark, shared, Counted(shared, false));
      shared := Counted(shared, false);
      sealed := Some(sealed.value.(staged := shared.staged));
    }
  }

  /** A repair goes on that began after `v`. */
  predicate Rebuilding(v: World, w: World) {
    && Coherent(w.chain) && w.chain.repairing.Some? && Wired(w)
    && v.spoils < w.spoils && Moved(v, w) && Busy(v, w) && Own(w) == Own(v)
  }

  lemma RebuildsOn(v: World, u: World, w: World)
    requires v.spoils < u.spoils && Moved(v, u) && Busy(v, u) && Moved(u, w) && Aside(u, w)
    ensures v.spoils < w.spoils && Moved(v, w) && Busy(v, w)
  {
    hide Signalled;
    hide Stands;
    hide Busy;
    MovedOn(v, u, w);
    AsideRests(u, w);
    BusyOn(v, u, w);
  }

  lemma LaterStands(v: World, w: World)
    requires Moved(v, w)
    ensures Later(v, w) && (w.writes == v.writes ==> w.disk == v.disk)
  {
    hide CurrentIn;
    hide RemembersIn;
  }

  lemma BegunSpoils(w: World, forget: set<Key>, git: set<Key>, bulk: bool)
    requires w.chain.repairing.None? && w.chain.request.Some?
    ensures var t := Begun(w, forget, git, bulk);
            && t.writes == w.writes && Own(t) == Own(w) && (Wired(w) ==> Wired(t))
            && (t.chain.repairing.Some? ==> w.spoils < t.spoils)
  {
  }

  lemma StagedWrites(w: World, a: SnapArgs, after: Memory, left: Memory, other: bool)
    requires CanSnap(w.chain, a)
    ensures var t := Staged(w, a, after, left, other);
            t.writes == w.writes && (if other then Own(t) == Own(w) else t.others == w.others)
  {
    hide Snap;
    hide Unchanged;
    hide Spoils;
  }

  /** A bulk build torn by a write yields. */
  lemma TornMemory(v: World, w: World, after: Memory)
    requires Moved(v, w) && v.writes < w.writes && w.chain == v.chain && w.others == v.others
    ensures var t := w.(mem := after, bulkPaused := true);
            Moved(v, t) && Aside(v, t)
  {
    hide CurrentIn;
    hide RemembersIn;
  }

  lemma EndedStands(ended: Option<nat>, v: World, w: World)
    requires Moved(v, w) && Aside(v, w)
    requires ended.Some? ==> ended.value <= v.others && (ended.value == v.others ==> EndsFinal(v))
    ensures ended.Some? ==> ended.value <= w.others && (ended.value == w.others ==> EndsFinal(w))
  {
    hide Signalled;
    hide Stands;
    hide RestKept;
  }

  /** There is an executor to seal under whenever the newest capture is not sealed. */
  lemma NoExecutor(c: State, executor: Option<string>, epoch: nat)
    ensures executor.None? ==> SealedFor(c, executor, epoch)
  {
  }

  lemma QueueStands(v: World, w: World)
    requires Aside(v, w) && v.chain.queue == [] && w.others == v.others
    ensures SameChain(v, w)
  {
  }

  lemma SealedIsThere(c: State, executor: Option<string>, epoch: nat)
    requires executor.Some? && SealedFor(c, executor, epoch)
    ensures c.previous.Some?
  {
  }

  lemma SealedEndsFinal(c: State, executor: Option<string>, epoch: nat)
    requires Coherent(c) && executor.Some? && SealedFor(c, executor, epoch)
    ensures c.previous.value.manifest.kind == Final
  {
  }

  lemma NothingSeen(v: World, w: World)
    requires Moved(v, w) && w.writes == v.writes
    ensures w.unseen == v.unseen && Later(v, w)
  {
    hide Stands;
  }

  lemma QueueWasEmpty(v: World, w: World)
    requires Aside(v, w) && v.chain.queue == []
    ensures w.others == v.others ==> SameChain(v, w)
  {
    hide RestKept;
  }

  /** A chain sealed and all shipped, found so after the rounds, is found so at the end. */
  lemma LeftSealed(u: World, v: World, w: World, executor: Option<string>, epoch: nat, alone: bool)
    requires Later(u, v) && Later(v, w) && RestKept(u, v) && (alone ==> LeftAlone(u, v))
    requires SealedFor(v.chain, executor, epoch) ==> Aside(v, w)
    requires u.chain.queue == [] && EndsFinal(u) && SealedFor(u.chain, executor, epoch) && w.others == u.others
    requires alone || (Remembered(u) && w.writes == u.writes)
    ensures SameChain(u, w) && SealedFor(v.chain, executor, epoch)
  {
    hide Remembered;
  }

  lemma GroundedStays(v: World, w: World)
    requires Later(v, w) && Grounded(v.chain) && w.strays == v.strays && w.chain.queue == [] && w.chain.previous.Some?
    ensures w.chain.head.Some? && w.chain.previous.value.id == Sha(w.chain.head.value)
  {
  }

  lemma StillCurrent(v: World, w: World)
    requires Moved(v, w) && w.writes == v.writes && w.spoils == v.spoils
    ensures (Current(v) ==> Current(w)) && (Remembered(v) ==> Remembered(w))
  {
    hide Signalled;
    hide CurrentIn;
    hide RemembersIn;
  }

  lemma SealGoesWith(v: World, w: World, executor: Option<string>, epoch: nat)
    ensures w.chain.previous == v.chain.previous ==>
              (SealedFor(w.chain, executor, epoch) <==> SealedFor(v.chain, executor, epoch))
  {
  }

  lemma LaterFrom(u: World, v: World, w: World)
    requires Later(u, v)
    ensures (Later(v, w) ==> Later(u, w)) && u.others <= v.others && u.modes <= v.modes
  {
  }

  /** A turn staged over the flush's own final capture is the newest. */
  lemma TurnIsStaged(w: World, a: SnapArgs, after: Memory, left: Memory)
    requires Coherent(w.chain) && CanSnap(w.chain, a) && a.kind == Turn && EndsFinal(w)
    requires w.chain.queue != [] && !IsBulk(Last(w.chain.queue))
    ensures var t := Staged(w, a, after, left, true);
            && !Unchanged(w.chain, a) && !EndsFinal(t) && t.others == w.others + 1 && t.uncounted == w.uncounted + 1
            && t.chain.request == w.chain.request && t.staged == w.staged
  {
    SnapKind(w.chain, a);
    hide Coherent;
    hide Spoils;
  }
}
