/** Where an answer stands in an executor's own order: boots counted on disk, answers counted within a
    boot, and the comparison consumers make (position.rs). Boot ids are random: no two boots share one. */
module Position {

  const U64_MAX: nat := 0xffff_ffff_ffff_ffff

  datatype Position = Position(epoch: nat, launch: nat, bootId: nat, generation: nat, observation: nat)

  /** An answer, and the version of the state it describes. */
  datatype Issued = Issued(position: Position, version: nat)

  /** The order consumers use: within a boot by observation, between two counted boots by generation, and
      nothing else is comparable. */
  predicate Precedes(p: Position, q: Position) {
    && p.epoch == q.epoch && p.launch == q.launch
    && if p.bootId == q.bootId then p.observation < q.observation
       else p.generation > 0 && q.generation > 0 && p.generation < q.generation
  }

  /** What one disk issues, in turn: versions never go back; a boot has one generation and counts up; a
      counted boot has a higher generation than every boot before it. */
  predicate InTurn(log: seq<Issued>) {
    forall i, j :: 0 <= i < j < |log| ==> Follows(log[i], log[j])
  }

  predicate Follows(a: Issued, b: Issued) {
    && a.version <= b.version
    && if a.position.bootId == b.position.bootId
       then a.position.generation == b.position.generation && a.position.observation < b.position.observation
       else a.position.generation > 0 && b.position.generation > 0 ==> a.position.generation < b.position.generation
  }

  /** A later position was issued later, and never describes an older state. */
  lemma LaterIsNewer(log: seq<Issued>, i: nat, j: nat)
    requires InTurn(log) && i < |log| && j < |log| && Precedes(log[i].position, log[j].position)
    ensures i < j && log[i].version <= log[j].version
  {
  }

  /** The comparison is a strict partial order on what a disk issues. */
  lemma StrictPartialOrder(log: seq<Issued>, i: nat, j: nat, k: nat)
    requires InTurn(log) && i < |log| && j < |log| && k < |log|
    ensures !Precedes(log[i].position, log[i].position)
    ensures Precedes(log[i].position, log[j].position) ==> !Precedes(log[j].position, log[i].position)
    ensures Precedes(log[i].position, log[j].position) && Precedes(log[j].position, log[k].position) ==>
      Precedes(log[i].position, log[k].position)
  {
  }

  /** How counting a boot ends: with the count, with an error, or with the machine going down. */
  datatype Counted = Counted(generation: nat) | Failed | Down

  /** What may go wrong in counting a boot, and where. */
  datatype Fault = NoFault | FailAt(step: nat) | DownAt(step: nat)

  /** A disk, the state it carries and the daemon running on it. */
  class Machine {
    // The generation file as it reads now, and as it would read after the machine goes down; 0 is absent.
    var visible: nat
    var durable: nat

    // The boot, and the last observation it gave out.
    var running: bool
    var bootId: nat
    var generation: nat
    var last: nat

    // The state answers describe, everything issued, and every generation a boot was counted as.
    var version: nat
    ghost var log: seq<Issued>
    ghost var counted: seq<nat>

    ghost predicate Valid()
      reads this
    {
      && durable <= visible
      && (forall i, j :: 0 <= i < j < |counted| ==> counted[i] < counted[j])
      && (forall i :: 0 <= i < |counted| ==> 0 < counted[i] <= durable)
      && InTurn(log)
      && (forall i :: 0 <= i < |log| ==> log[i].version <= version && log[i].position.bootId <= bootId)
      && (forall i :: 0 <= i < |log| ==> log[i].position.generation == 0 || log[i].position.generation in counted)
      && (running ==> generation == 0 || (counted != [] && generation == counted[|counted| - 1]))
      && (running ==> forall i :: 0 <= i < |log| ==>
            if log[i].position.bootId == bootId
            then log[i].position.generation == generation && log[i].position.observation <= last
            else generation > 0 ==> log[i].position.generation < generation)
    }

    constructor ()
      ensures Valid() && !running && log == [] && counted == []
    {
      visible, durable, running, bootId, generation, last, version := 0, 0, false, 0, 0, 0, 0;
      log, counted := [], [];
    }

    /** The machine goes down: what was renamed and not synced may be lost, or not. */
    method GoDown()
      requires Valid()
      modifies this
      ensures Valid() && !running && log == old(log) && counted == old(counted)
      ensures bootId == old(bootId) && version == old(version)
    {
      running := false;
      var kept := *;
      if kept {
        durable := visible;
      } else {
        visible := durable;
      }
    }

    /** Count one more boot: read, add one, write aside and sync, rename, sync the directory. A boot that is
        counted gets a generation above every one before, whatever went wrong in between. */
    method NextGeneration(fault: Fault) returns (r: Counted)
      requires Valid() && !running
      modifies this
      ensures Valid() && !running && log == old(log) && bootId == old(bootId) && version == old(version)
      ensures r.Counted? ==> counted == old(counted) + [r.generation] && forall i :: 0 <= i < |old(counted)| ==> old(counted)[i] < r.generation
      ensures !r.Counted? ==> counted == old(counted)
      ensures r.Counted? ==> r.generation == old(visible) + 1 == visible == durable
      ensures fault.NoFault? && old(visible) < U64_MAX ==> r.Counted?
    {
      // Reading the count.
      if fault == DownAt(0) {
        GoDown();
        return Down;
      }
      if fault == FailAt(0) || visible >= U64_MAX {
        return Failed;
      }
      var next := visible + 1;
      // Writing it aside: the file itself is untouched.
      if fault == DownAt(1) {
        GoDown();
        return Down;
      }
      if fault == FailAt(1) {
        return Failed;
      }
      // The rename, whole once synced.
      visible := next;
      if fault == DownAt(2) {
        GoDown();
        return Down;
      }
      if fault == FailAt(2) {
        return Failed;
      }
      durable := visible;
      counted := counted + [next];
      return Counted(next);
    }

    /** Start a daemon; one that could not be counted has generation 0. */
    method Boot(fault: Fault)
      requires Valid() && !running
      modifies this
      ensures Valid() && log == old(log) && old(counted) <= counted
      ensures running ==> bootId == old(bootId) + 1 && last == 0
      ensures running && generation > 0 ==> counted == old(counted) + [generation]
    {
      var r := NextGeneration(fault);
      if r.Down? {
        return;
      }
      generation := if r.Counted? then r.generation else 0;
      bootId, last, running := bootId + 1, 0, true;
    }

    /** The daemon stops. */
    method Exit()
      requires Valid()
      modifies this
      ensures Valid() && !running && log == old(log) && counted == old(counted)
    {
      running := false;
    }

    /** The state moves on. */
    method Change()
      requires Valid()
      modifies this
      ensures Valid() && version == old(version) + 1 && log == old(log) && counted == old(counted) && running == old(running)
    {
      version := version + 1;
    }

    /** Take the next position and answer with it, under one lock. */
    method Observe(epoch: nat, launch: nat) returns (p: Position)
      requires Valid() && running
      modifies this
      ensures Valid() && running && counted == old(counted)
      ensures p == Position(epoch, launch, bootId, generation, old(last) + 1)
      ensures log == old(log) + [Issued(p, version)] && version == old(version)
    {
      last := last + 1;
      p := Position(epoch, launch, bootId, generation, last);
      log := log + [Issued(p, version)];
    }
  }
}
