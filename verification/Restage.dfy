/** The journal that makes several queue writes one step: a process may die at any point of a
    restage, or of a recovery, and the queue directory still ends as it was or as the restage makes
    it (ship.rs). Queue files are keyed by chain position; objects are the staged object files. */
module Restage {
  import opened Options
  import opened Captures
  import opened Chain
  import opened ChainSafety

  datatype Journal = Journal(write: seq<QueueEntry>, superseded: seq<QueueEntry>)

  type Files = map<nat, QueueEntry>

  function Positions(es: seq<QueueEntry>): set<nat> {
    set i | 0 <= i < |es| :: es[i].manifest.n
  }

  /** The queue files after writing `es` in order. */
  function Written(files: Files, es: seq<QueueEntry>): Files
    decreases |es|
  {
    if es == [] then files else Written(files[es[0].manifest.n := es[0]], es[1..])
  }

  /** What a restage makes of the queue: the entries written, the superseded ones whose position
      none of them takes removed. */
  function Target(files: Files, j: Journal): Files {
    Written(files, j.write) - (Positions(j.superseded) - Positions(j.write))
  }

  /** Written in order, the last entry at a position is the one that stays. */
  lemma {:induction false} WrittenAt(files: Files, es: seq<QueueEntry>, n: nat)
    ensures n !in Positions(es) ==> (n in Written(files, es) <==> n in files)
    ensures n !in Positions(es) && n in files ==> Written(files, es)[n] == files[n]
    ensures n in Positions(es) ==>
              n in Written(files, es) && Written(files, es)[n] in es && Written(files, es)[n].manifest.n == n
    ensures n in Positions(es) ==> forall other: Files :: n in Written(other, es) && Written(other, es)[n] == Written(files, es)[n]
    decreases |es|
  {
    if es != [] {
      var rest := es[1..];
      assert forall i :: 0 <= i < |rest| ==> rest[i] == es[i + 1];
      assert forall i :: 0 < i < |es| ==> rest[i - 1] == es[i];
      WrittenAt(files[es[0].manifest.n := es[0]], rest, n);
      if n in Positions(es) {
        forall other: Files ensures n in Written(other, es) && Written(other, es)[n] == Written(files, es)[n] {
          if n in Positions(rest) {
            WrittenAt(other[es[0].manifest.n := es[0]], rest, n);
          } else {
            WrittenAt(other[es[0].manifest.n := es[0]], rest, n);
            assert n == es[0].manifest.n;
          }
        }
      }
    }
  }

  /** Two queue directories agree outside the positions a journal touches. */
  ghost predicate AgreeOutside(files: Files, mid: Files, j: Journal) {
    forall n :: n !in Positions(j.write) && n !in Positions(j.superseded) ==>
      (n in mid <==> n in files) && (n in files ==> mid[n] == files[n])
  }

  /** A queue directory part-way through a restage ends at the same target. */
  lemma PartialTarget(files: Files, mid: Files, j: Journal)
    requires AgreeOutside(files, mid, j)
    ensures Target(mid, j) == Target(files, j)
  {
    forall n ensures (n in Target(mid, j) <==> n in Target(files, j))
                     && (n in Target(files, j) ==> Target(mid, j)[n] == Target(files, j)[n])
    {
      WrittenAt(files, j.write, n);
      WrittenAt(mid, j.write, n);
    }
  }

  /** Every object an entry lists is on the disk. */
  predicate Holds(objects: set<Object>, e: QueueEntry) {
    forall i :: 0 <= i < |e.uploads| ==> e.uploads[i].object_ in objects
  }

  predicate HoldsAll(objects: set<Object>, files: Files) {
    forall n :: n in files ==> Holds(objects, files[n])
  }

  /** A journal that may be committed: each entry at a position of its own, its objects staged. */
  predicate Committable(objects: set<Object>, j: Journal) {
    && (forall i, k :: 0 <= i < k < |j.write| ==> j.write[i].manifest.n != j.write[k].manifest.n)
    && (forall i :: 0 <= i < |j.write| ==> Holds(objects, j.write[i]))
  }

  /** The object files an entry lists. */
  function ObjectsOf(e: QueueEntry): set<Object> {
    set k | k in e.uploads :: k.object_
  }

  /** A queued entry lists the object. */
  predicate Lists(files: Files, o: Object) {
    exists n :: n in files && o in ObjectsOf(files[n])
  }

  /** Nothing of a removed entry is left but what a queued one lists. */
  predicate Swept(objects: set<Object>, files: Files, removed: QueueEntry) {
    forall j :: 0 <= j < |removed.uploads| && removed.uploads[j].object_ in objects ==>
      Lists(files, removed.uploads[j].object_)
  }

  predicate AllSwept(objects: set<Object>, files: Files, superseded: seq<QueueEntry>) {
    forall i :: 0 <= i < |superseded| ==> Swept(objects, files, superseded[i])
  }

  /** An object no queued entry lists may go. */
  lemma UnlistedIsFree(objects: set<Object>, files: Files, o: Object)
    requires HoldsAll(objects, files) && !Lists(files, o)
    ensures HoldsAll(objects - {o}, files)
  {
    forall n | n in files ensures Holds(objects - {o}, files[n]) {
      forall k | 0 <= k < |files[n].uploads| ensures files[n].uploads[k].object_ in objects - {o} {
        assert files[n].uploads[k] in files[n].uploads;
        assert o !in ObjectsOf(files[n]);
      }
    }
  }

  function UploadsOf(es: seq<QueueEntry>): nat {
    if es == [] then 0 else |es[0].uploads| + UploadsOf(es[1..])
  }

  /** The file operations of one restage, its journal aside. */
  function AllSteps(j: Journal): nat {
    |j.write| + |j.superseded| + UploadsOf(j.superseded)
  }

  lemma UploadsSplit(es: seq<QueueEntry>, i: nat)
    requires 0 < i <= |es|
    ensures UploadsOf(es[..i]) == UploadsOf(es[..i - 1]) + |es[i - 1].uploads|
    decreases i
  {
    if i == 1 {
      assert es[..1][1..] == [] && es[..0] == [];
    } else {
      UploadsSplit(es[1..], i - 1);
      assert es[..i][1..] == es[1..][..i - 1] && es[..i - 1][1..] == es[1..][..i - 2];
    }
  }

  /** The staging directory: the queue files, the committed journal and the staged objects. */
  class QueueDir {
    var files: Files
    var journal: Option<Journal>
    var objects: set<Object>

    constructor ()
      ensures files == map[] && journal == None && objects == {}
    {
      files, journal, objects := map[], None, {};
    }

    /** What survives a crash: a committed journal's entries have their objects too. */
    ghost predicate Valid()
      reads this
    {
      && HoldsAll(objects, files)
      && (journal.Some? ==> Committable(objects, journal.value))
    }

    /** Remove the objects of `removed` that no queued entry lists, dying after `steps` of them. */
    method Sweep(removed: QueueEntry, steps: nat) returns (died: bool, left: nat)
      requires HoldsAll(objects, files)
      modifies this`objects
      ensures HoldsAll(objects, files)
      ensures objects <= old(objects)
      ensures forall o :: o in old(objects) && o !in objects ==> o in ObjectsOf(removed)
      ensures !died ==> Swept(objects, files, removed)
      ensures steps >= |removed.uploads| ==> !died && left >= steps - |removed.uploads|
    {
      left := steps;
      for i := 0 to |removed.uploads|
        invariant HoldsAll(objects, files) && objects <= old(objects) && left >= steps - i
        invariant forall j :: 0 <= j < i && removed.uploads[j].object_ in objects ==> Lists(files, removed.uploads[j].object_)
        invariant forall o :: o in old(objects) && o !in objects ==> o in ObjectsOf(removed)
      {
        var o := removed.uploads[i].object_;
        if !Lists(files, o) {
          if left == 0 {
            return true, 0;
          }
          left := left - 1;
          UnlistedIsFree(objects, files, o);
          assert removed.uploads[i] in removed.uploads;
          objects := objects - {o};
        }
      }
      died := false;
    }

    /** Sweep every superseded entry. */
    method SweepAll(superseded: seq<QueueEntry>, steps: nat) returns (died: bool, left: nat)
      requires HoldsAll(objects, files)
      modifies this`objects
      ensures HoldsAll(objects, files) && objects <= old(objects)
      ensures !died ==> AllSwept(objects, files, superseded)
      ensures steps >= UploadsOf(superseded) ==> !died && left >= steps - UploadsOf(superseded)
    {
      left := steps;
      died := false;
      for i := 0 to |superseded|
        invariant HoldsAll(objects, files) && objects <= old(objects) && !died
        invariant forall j :: 0 <= j < i ==> Swept(objects, files, superseded[j])
        invariant steps >= UploadsOf(superseded[..i]) ==> left >= steps - UploadsOf(superseded[..i])
        invariant UploadsOf(superseded[..i]) + UploadsOf(superseded[i..]) == UploadsOf(superseded)
      {
        assert superseded[..i + 1][..i] == superseded[..i] && superseded[i..][1..] == superseded[i + 1..];
        UploadsSplit(superseded, i + 1);
        ghost var before := objects;
        died, left := Sweep(superseded[i], left);
        assert forall j :: 0 <= j < i ==> Swept(before, files, superseded[j]);
        if died {
          return;
        }
      }
      assert superseded[..|superseded|] == superseded;
    }

    /** Write the journal's entries, dying after `steps` of them. */
    method WriteFiles(j: Journal, steps: nat) returns (died: bool, left: nat)
      requires Valid() && journal == Some(j)
      modifies this`files
      ensures Valid() && AgreeOutside(old(files), files, j)
      ensures !died ==> files == Written(old(files), j.write)
      ensures steps >= |j.write| ==> !died && left >= steps - |j.write|
    {
      left := steps;
      for i := 0 to |j.write|
        invariant Valid()
        invariant files == Written(old(files), j.write[..i]) && left == steps - i
        invariant AgreeOutside(old(files), files, j)
      {
        if left == 0 {
          return true, 0;
        }
        left := left - 1;
        WrittenSnoc(old(files), j.write, i);
        assert j.write[i].manifest.n in Positions(j.write);
        files := files[j.write[i].manifest.n := j.write[i]];
      }
      assert j.write[..|j.write|] == j.write;
      died := false;
    }

    /** Remove the superseded entries whose position no written one takes. */
    method RemoveFiles(j: Journal, steps: nat) returns (died: bool, left: nat)
      requires Valid() && journal == Some(j)
      modifies this`files
      ensures Valid() && AgreeOutside(old(files), files, j)
      ensures !died ==> files == old(files) - (Positions(j.superseded) - Positions(j.write))
      ensures steps >= |j.superseded| ==> !died && left >= steps - |j.superseded|
    {
      left := steps;
      var written := Positions(j.write);
      for i := 0 to |j.superseded|
        invariant Valid()
        invariant files == old(files) - (Positions(j.superseded[..i]) - written) && left >= steps - i
        invariant AgreeOutside(old(files), files, j)
      {
        var n := j.superseded[i].manifest.n;
        assert j.superseded[..i + 1] == j.superseded[..i] + [j.superseded[i]];
        assert Positions(j.superseded[..i + 1]) == Positions(j.superseded[..i]) + {n};
        assert n in Positions(j.superseded);
        if n !in written {
          if left == 0 {
            return true, 0;
          }
          left := left - 1;
          files := files - {n};
        }
      }
      assert j.superseded[..|j.superseded|] == j.superseded;
      died := false;
    }

    /** Apply the committed journal, dying after `steps` of its steps. Whether or not it dies, the
        target stays the same; when it does not, the target is reached and the journal is gone. */
    method Apply(j: Journal, steps: nat) returns (died: bool)
      requires Valid() && journal == Some(j)
      modifies this
      ensures Valid()
      ensures AgreeOutside(old(files), files, j)
      ensures died ==> journal == Some(j)
      ensures !died ==> journal == None && files == Target(old(files), j)
      ensures !died ==> AllSwept(objects, files, j.superseded)
      ensures steps > AllSteps(j) ==> !died
    {
      var left;
      died, left := WriteFiles(j, steps);
      if died {
        return;
      }
      died, left := RemoveFiles(j, left);
      if died {
        return;
      }
      died, left := SweepAll(j.superseded, left);
      WrittenHolds(objects, old(files), j);
      if died || left == 0 {
        return true;
      }
      journal := None;
      return false;
    }

    /** Stage several queue changes as one step, dying after `steps` of its steps (the journal
        written, the journal committed, then those of Apply). */
    method Restage(j: Journal, steps: nat) returns (died: bool)
      requires Valid() && journal == None && Committable(objects, j)
      modifies this
      ensures Valid()
      ensures journal == None || journal == Some(j)
      ensures journal == Some(j) ==> died && AgreeOutside(old(files), files, j)
      ensures steps == 0 ==> journal == None && files == old(files)
      ensures steps > 0 && journal == None ==>
                files == Target(old(files), j) && AllSwept(objects, files, j.superseded)
    {
      if steps == 0 {
        return true;
      }
      journal := Some(j);
      if steps == 1 {
        return true;
      }
      died := Apply(j, steps - 2);
    }

    /** Finish the restage the journal holds, if one does, dying after `steps` of its steps. */
    method Recover(steps: nat) returns (died: bool)
      requires Valid()
      modifies this
      ensures Valid()
      ensures old(journal).None? ==> !died && files == old(files) && objects == old(objects) && journal == None
      ensures old(journal).Some? ==> AgreeOutside(old(files), files, old(journal).value)
      ensures old(journal).Some? && died ==> journal == old(journal)
      ensures old(journal).Some? && !died ==> journal == None && files == Target(old(files), old(journal).value)
      ensures old(journal).Some? && !died ==> AllSwept(objects, files, old(journal).value.superseded)
      ensures old(journal).Some? && steps > AllSteps(old(journal).value) ==> !died
    {
      if journal.None? {
        return false;
      }
      died := Apply(journal.value, steps);
    }

    /** A restage over any number of crashes: it dies at step `first`, each recovery dies where
        `crashes` says, and the last one runs to its end. The queue is as it was or as the restage
        makes it, never between, and every object a queued entry lists is still there. */
    method RestageThroughCrashes(j: Journal, first: nat, crashes: seq<nat>) returns (done: bool)
      requires Valid() && journal == None && Committable(objects, j)
      modifies this
      ensures Valid() && journal == None
      ensures files == if done then Target(old(files), j) else old(files)
      ensures done ==> AllSwept(objects, files, j.superseded)
      ensures done <==> first > 0
    {
      var died := Restage(j, first);
      done := first > 0;
      for i := 0 to |crashes|
        invariant Valid() && (journal == None || journal == Some(j))
        invariant journal == Some(j) ==> done && AgreeOutside(old(files), files, j)
        invariant journal == None ==> files == if done then Target(old(files), j) else old(files)
        invariant journal == None && done ==> AllSwept(objects, files, j.superseded)
      {
        if journal.Some? {
          PartialTarget(old(files), files, j);
        }
        var again := Recover(crashes[i]);
      }
      if journal.Some? {
        PartialTarget(old(files), files, j);
      }
      var last := Recover(AllSteps(j) + 1);
    }
  }

  /** After the sweep the journal's entries still have their objects: they are queued. */
  lemma WrittenHolds(objects: set<Object>, files: Files, j: Journal)
    requires forall i, k :: 0 <= i < k < |j.write| ==> j.write[i].manifest.n != j.write[k].manifest.n
    requires HoldsAll(objects, Target(files, j))
    ensures forall i :: 0 <= i < |j.write| ==> Holds(objects, j.write[i])
  {
    forall i | 0 <= i < |j.write| ensures Holds(objects, j.write[i]) {
      WrittenAt(files, j.write, j.write[i].manifest.n);
      assert j.write[i].manifest.n in Positions(j.write);
      assert Target(files, j)[j.write[i].manifest.n] == j.write[i];
    }
  }

  lemma WrittenSnoc(files: Files, es: seq<QueueEntry>, i: nat)
    requires i < |es|
    ensures Written(files, es[..i + 1]) == Written(files, es[..i])[es[i].manifest.n := es[i]]
    decreases i
  {
    if i == 0 {
      assert es[..1][1..] == [];
    } else {
      var f := files[es[0].manifest.n := es[0]];
      WrittenSnoc(f, es[1..], i - 1);
      assert es[..i + 1][1..] == es[1..][..i] && es[..i][1..] == es[1..][..i - 1];
    }
  }

  // ----- The directory and the chain -----------------------------------------------------------

  /** The queue directory of a queue. */
  function FilesOf(q: seq<QueueEntry>): Files {
    Written(map[], q)
  }

  /** A chain has one file per capture. */
  lemma FilesOfChain(q: seq<QueueEntry>, n: nat)
    requires IsChain(q)
    ensures n in FilesOf(q) <==> n in Positions(q)
    ensures forall i :: 0 <= i < |q| && q[i].manifest.n == n ==> n in FilesOf(q) && FilesOf(q)[n] == q[i]
  {
    WrittenAt(map[], q, n);
    forall i | 0 <= i < |q| && q[i].manifest.n == n ensures n in FilesOf(q) && FilesOf(q)[n] == q[i] {
      var k :| 0 <= k < |q| && q[k] == FilesOf(q)[n];
      ChainPositions(q, i);
      ChainPositions(q, k);
    }
  }

  /** Restaging the directory restages the queue: writing `top` over the superseded tail of a chain,
      in any order, is the queue cut there with `top` on it. */
  lemma RestageIsCutAndPlace(q: seq<QueueEntry>, cut: nat, top: seq<QueueEntry>, j: Journal)
    requires IsChain(q) && cut < |q| && IsChain(q[..cut] + top)
    requires top != [] && top[0].manifest.n == q[cut].manifest.n
    requires Positions(j.superseded) == Positions(q[cut..])
    requires forall e :: e in j.write <==> e in top
    ensures Target(FilesOf(q), j) == FilesOf(q[..cut] + top)
  {
    var t := q[..cut] + top;
    forall n ensures (n in Target(FilesOf(q), j) <==> n in FilesOf(t))
                     && (n in FilesOf(t) ==> Target(FilesOf(q), j)[n] == FilesOf(t)[n])
    {
      FilesOfChain(q, n);
      FilesOfChain(t, n);
      WrittenAt(FilesOf(q), j.write, n);
      if n in Positions(j.write) {
        var e := Written(FilesOf(q), j.write)[n];
        var i :| 0 <= i < |top| && top[i] == e;
        assert t[cut + i] == e;
      } else {
        AtCut(q, cut, top, n);
        assert forall i :: 0 <= i < |top| ==> top[i] in j.write;
        assert forall e :: e in top && e.manifest.n == n ==> n in Positions(j.write);
      }
    }
  }

  /** Outside the new captures' positions, what stays queued is exactly what is not superseded. */
  lemma AtCut(q: seq<QueueEntry>, cut: nat, top: seq<QueueEntry>, n: nat)
    requires IsChain(q) && cut <= |q|
    ensures n in Positions(q[..cut]) <==> n in Positions(q) && n !in Positions(q[cut..])
    ensures forall i :: 0 <= i < |q| && q[i].manifest.n == n && n !in Positions(q[cut..]) ==> i < cut
    ensures n in Positions(q[..cut] + top) <==> n in Positions(q[..cut]) || n in Positions(top)
  {
    assert forall i :: 0 <= i < cut ==> q[..cut][i] == q[i];
    assert forall i :: cut <= i < |q| ==> q[cut..][i - cut] == q[i];
    var t := q[..cut] + top;
    assert forall i :: 0 <= i < cut ==> t[i] == q[..cut][i];
    assert forall i :: 0 <= i < |top| ==> t[cut + i] == top[i];
    if n in Positions(q[..cut]) && n in Positions(q[cut..]) {
      var i :| 0 <= i < cut && q[i].manifest.n == n;
      var k :| 0 <= k < |q| - cut && q[cut..][k].manifest.n == n;
      ChainPositions(q, i);
      ChainPositions(q, cut + k);
    }
  }

  // ----- What the engine makes of a journal it finds -------------------------------------------

  function First(es: seq<QueueEntry>, bulk: bool): Option<QueueEntry> {
    if es == [] then None else if IsBulk(es[0]) == bulk then Some(es[0]) else First(es[1..], bulk)
  }

  /** The engine's newest capture and what it stands on, after finishing an interrupted restage. */
  function FollowRestage(s: State, j: Journal): State {
    match (First(j.write, true), First(j.write, false))
    case (Some(bulk), Some(small)) =>
      s.(previous := Some(Encode(bulk.manifest)), below := Some(Encode(small.manifest)))
    case _ => s
  }

  /** An interrupted hoist is followed: the engine goes on as if it had not been interrupted. */
  lemma InterruptedHoistIsFollowed(s: State, a: SnapArgs, j: Journal)
    requires Inv(s) && CanSnap(s, a) && !Unchanged(s, a) && Hoists(s, ClassOf(a.built))
    requires j.write == [MovedEntry(Last(s.queue), SnapManifest(s, a), a.prefix), SnapEntry(s, a)]
    ensures FollowRestage(s.(queue := Snap(s, a).queue), j) == Snap(s, a)
  {
    assert j.write[1..] == [SnapEntry(s, a)];
    assert First(j.write, true) == Some(j.write[0]);
    assert First(j.write, false) == First(j.write[1..], false) == Some(SnapEntry(s, a));
  }

  /** A class rebuild whose journal was committed and then interrupted, once the journal is
      finished: the repair has failed, what a bulk capture stood on is cleared (it is before the restage),
      and the journal's single entry tells the engine nothing. */
  function InterruptedRepair(s: State, a: SnapArgs): State
    requires CanRepair(s, a)
  {
    var tail := s.queue[IndexAt(s.queue, RepairManifest(s, a).n)..];
    FollowRestage(s.(queue := RepairClass(s, a).queue, repairing := None, below := None), Journal([RepairEntry(s, a)], tail))
  }

  lemma OneEntryTellsNothing(s: State, a: SnapArgs)
    requires CanRepair(s, a)
    ensures InterruptedRepair(s, a) == s.(queue := RepairClass(s, a).queue, repairing := None, below := None)
    ensures RepairClass(s, a).queue != [] && Last(RepairClass(s, a).queue) == RepairEntry(s, a)
  {
    var e := RepairEntry(s, a);
    assert [e][1..] == [];
    assert First([e][1..], true) == None == First([e][1..], false);
  }

  /** An interrupted repair is not followed: the engine's newest capture is still the one it had
      staged last, so it is the newest queued one only if the capture refused was the newest one and
      was rebuilt into itself, manifest and all. */
  lemma InterruptedRepairIsNotFollowed(s: State, a: SnapArgs)
    requires Inv(s) && CanRepair(s, a) && TargetQueued(s)
    ensures var target := s.repairing.value.target.manifest;
            PreviousIsNewest(InterruptedRepair(s, a)) <==>
            Last(s.queue).manifest == target && RepairManifest(s, a) == target
    ensures InterruptedRepair(s, a).previous == s.previous
  {
    OneEntryTellsNothing(s, a);
    var t, m := InterruptedRepair(s, a), RepairManifest(s, a);
    assert t.previous == s.previous && t.queue != [] && Last(t.queue).manifest == m;
    assert PreviousIsNewest(t) <==> m == Last(s.queue).manifest;
    TargetByPosition(s, Last(s.queue).manifest);
  }

  /** Among queued captures, the one at a queued repair target's position is the target. */
  lemma TargetByPosition(s: State, m: Manifest)
    requires IsChain(s.queue) && TargetQueued(s) && exists i :: 0 <= i < |s.queue| && s.queue[i].manifest == m
    ensures m.n == s.repairing.value.target.manifest.n ==> m == s.repairing.value.target.manifest
  {
    var i :| 0 <= i < |s.queue| && s.queue[i].manifest == s.repairing.value.target.manifest;
    var k :| 0 <= k < |s.queue| && s.queue[k].manifest == m;
    ChainPositions(s.queue, i);
    ChainPositions(s.queue, k);
  }
}
