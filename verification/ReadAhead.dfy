/** Reading files ahead of the build on worker threads, and packing a large file's parts on them
    (readahead.rs). Each method is one critical section under the lock; a run is any interleaving. */
module ReadAhead {
  import opened Options

  type Path = nat

  /** Compressed results that may wait before workers stop starting files. */
  const BUDGET_BYTES: nat := 128 * 1024 * 1024

  /** A file read ahead; `bytes` is what it holds of the budget. */
  datatype FileRead = FileRead(content: nat, bytes: nat)

  datatype Slot =
    | Queued
    | Reading
    | Done(file: Option<FileRead>)
    | Taken

  function Weight(slot: Slot): nat {
    if slot.Done? && slot.file.Some? then slot.file.value.bytes else 0
  }

  /** What the finished slots hold of the budget. */
  ghost function Held(slots: map<Path, Slot>): nat {
    if slots == map[] then 0
    else
      var p :| p in slots;
      Weight(slots[p]) + Held(slots - {p})
  }

  lemma {:induction false} HeldSplit(slots: map<Path, Slot>, p: Path)
    requires p in slots
    ensures Held(slots) == Weight(slots[p]) + Held(slots - {p})
    decreases |slots|
  {
    var q :| q in slots && Held(slots) == Weight(slots[q]) + Held(slots - {q});
    if q != p {
      HeldSplit(slots - {q}, p);
      HeldSplit(slots - {p}, q);
      assert slots - {q} - {p} == slots - {p} - {q};
    }
  }

  /** Setting one slot moves the sum by its weight. */
  lemma HeldSet(slots: map<Path, Slot>, p: Path, slot: Slot)
    requires p in slots
    ensures Held(slots[p := slot]) == Held(slots) - Weight(slots[p]) + Weight(slot)
    ensures Held(slots) >= Weight(slots[p])
    ensures Held(slots - {p}) == Held(slots) - Weight(slots[p])
  {
    HeldSplit(slots, p);
    HeldSplit(slots[p := slot], p);
    assert slots[p := slot] - {p} == slots - {p};
  }

  lemma {:induction false} HeldNothing(slots: map<Path, Slot>)
    requires forall p :: p in slots ==> slots[p] == Queued
    ensures Held(slots) == 0
    decreases |slots|
  {
    if slots != map[] {
      var p :| p in slots && Held(slots) == Weight(slots[p]) + Held(slots - {p});
      HeldNothing(slots - {p});
    }
  }

  /** The queue holds every file still waiting, and beside them only files the build took. */
  ghost predicate QueueAgrees(slots: map<Path, Slot>, queue: seq<Path>) {
    && (forall p :: p in slots && slots[p].Queued? ==> p in queue)
    && (forall p :: p in queue ==> p in slots && (slots[p].Queued? || slots[p].Taken?))
    && (forall i, j :: 0 <= i < j < |queue| ==> queue[i] != queue[j])
  }

  /** A slot is being read just when a worker reads it, and no two workers read the same. */
  ghost predicate BusyAgrees(slots: map<Path, Slot>, busy: map<nat, Path>) {
    && (forall w :: w in busy ==> busy[w] in slots && slots[busy[w]].Reading?)
    && (forall p :: p in slots && slots[p].Reading? ==> exists w :: w in busy && busy[w] == p)
    && (forall v, w :: v in busy && w in busy && v != w ==> busy[v] != busy[w])
  }

  /** Each result is what its worker read; it is in its slot, or it was given, once. */
  ghost predicate GivenAgrees(slots: map<Path, Slot>, finished: map<Path, Option<FileRead>>, given: seq<(Path, Option<FileRead>)>) {
    && (forall p :: p in slots && slots[p].Done? ==> p in finished && finished[p] == slots[p].file)
    && (forall p :: p in finished && p in slots ==> slots[p].Done?)
    && (forall i :: 0 <= i < |given| ==> given[i].0 !in slots && given[i].0 in finished && finished[given[i].0] == given[i].1)
    && (forall i, j :: 0 <= i < j < |given| ==> given[i].0 != given[j].0)
  }

  /** The queue from the first file the build has not read itself. */
  function StillWaiting(slots: map<Path, Slot>, queue: seq<Path>): seq<Path> {
    if queue == [] || (queue[0] in slots && slots[queue[0]].Queued?) then queue else StillWaiting(slots, queue[1..])
  }

  lemma BusyReads(slots: map<Path, Slot>, busy: map<nat, Path>, p: Path)
    requires BusyAgrees(slots, busy)
    ensures (exists w :: w in busy && busy[w] == p) <==> p in slots && slots[p].Reading?
  {
  }

  /** The build takes a file no worker started. */
  lemma TakenAgrees(slots: map<Path, Slot>, queue: seq<Path>, busy: map<nat, Path>, finished: map<Path, Option<FileRead>>,
                    given: seq<(Path, Option<FileRead>)>, p: Path)
    requires QueueAgrees(slots, queue) && BusyAgrees(slots, busy) && GivenAgrees(slots, finished, given)
    requires p in slots && slots[p].Queued?
    ensures QueueAgrees(slots[p := Taken], queue) && BusyAgrees(slots[p := Taken], busy)
    ensures GivenAgrees(slots[p := Taken], finished, given)
  {
  }

  /** The build is given a result. */
  lemma GivenOnce(slots: map<Path, Slot>, queue: seq<Path>, busy: map<nat, Path>, finished: map<Path, Option<FileRead>>,
                  given: seq<(Path, Option<FileRead>)>, p: Path)
    requires QueueAgrees(slots, queue) && BusyAgrees(slots, busy) && GivenAgrees(slots, finished, given)
    requires p in slots && slots[p].Done?
    ensures QueueAgrees(slots - {p}, queue) && BusyAgrees(slots - {p}, busy)
    ensures GivenAgrees(slots - {p}, finished, given + [(p, slots[p].file)])
  {
  }

  /** A worker starts the file at the head of the queue. */
  lemma StartedAgrees(slots: map<Path, Slot>, queue: seq<Path>, busy: map<nat, Path>, finished: map<Path, Option<FileRead>>,
                      given: seq<(Path, Option<FileRead>)>, worker: nat)
    requires QueueAgrees(slots, queue) && BusyAgrees(slots, busy) && GivenAgrees(slots, finished, given)
    requires queue != [] && worker !in busy && slots[queue[0]].Queued?
    ensures QueueAgrees(slots[queue[0] := Reading], queue[1..])
    ensures BusyAgrees(slots[queue[0] := Reading], busy[worker := queue[0]])
    ensures GivenAgrees(slots[queue[0] := Reading], finished, given)
  {
    var next := busy[worker := queue[0]];
    forall p | p == queue[0] || (p in slots && slots[p].Reading?)
      ensures exists w :: w in next && next[w] == p
    {
      if p == queue[0] {
        assert next[worker] == p;
      } else {
        var w :| w in busy && busy[w] == p;
        assert next[w] == p;
      }
    }
  }

  /** The queue's head was taken by the build. */
  lemma SkippedAgrees(slots: map<Path, Slot>, queue: seq<Path>)
    requires QueueAgrees(slots, queue) && queue != [] && !slots[queue[0]].Queued?
    ensures QueueAgrees(slots, queue[1..])
  {
  }

  /** A worker finishes its file. */
  lemma FinishedAgrees(slots: map<Path, Slot>, queue: seq<Path>, busy: map<nat, Path>, finished: map<Path, Option<FileRead>>,
                       given: seq<(Path, Option<FileRead>)>, worker: nat, file: Option<FileRead>)
    requires QueueAgrees(slots, queue) && BusyAgrees(slots, busy) && GivenAgrees(slots, finished, given)
    requires worker in busy
    ensures busy[worker] in slots && slots[busy[worker]].Reading?
    ensures QueueAgrees(slots[busy[worker] := Done(file)], queue)
    ensures BusyAgrees(slots[busy[worker] := Done(file)], busy - {worker})
    ensures GivenAgrees(slots[busy[worker] := Done(file)], finished[busy[worker] := file], given)
  {
    var p, rest := busy[worker], busy - {worker};
    forall q | q in slots && q != p && slots[q].Reading?
      ensures exists w :: w in rest && rest[w] == q
    {
      var w :| w in busy && busy[w] == q;
      assert rest[w] == q;
    }
  }

  /** What the build gets: it waits for a read in progress, or it has an answer, once. */
  datatype Answer = Wait | Answer(file: Option<FileRead>)

  /** What a worker gets: it waits for room, it ends, or it has a file to read. */
  datatype Work = NoRoom | End | Read(path: Path)

  class Shared {
    var slots: map<Path, Slot>
    var queue: seq<Path>
    var held: nat
    var stop: bool

    /** The file each busy worker is reading. */
    ghost var busy: map<nat, Path>

    /** What the worker that read a file made of it. */
    ghost var finished: map<Path, Option<FileRead>>

    /** The files whose result the build was given, in turn, with that result. */
    ghost var given: seq<(Path, Option<FileRead>)>

    /** The slots say which files wait, which a worker reads and which are read; `held` is what the
        read ones weigh; each result was given at most once, and is what the worker read. */
    ghost predicate Valid()
      reads this
    {
      held == Held(slots) && QueueAgrees(slots, queue) && BusyAgrees(slots, busy) && GivenAgrees(slots, finished, given)
    }

    /** Plan the files, each once. */
    constructor (files: seq<Path>)
      ensures Valid() && slots.Keys == (set p | p in files) && busy == map[] && given == [] && finished == map[] && !stop
    {
      slots, queue, held, stop := map[], [], 0, false;
      busy, finished, given := map[], map[], [];
      new;
      for n := 0 to |files|
        invariant forall p :: p in slots ==> slots[p] == Queued
        invariant forall p :: p in slots <==> p in queue
        invariant forall p :: p in slots <==> p in files[..n]
        invariant forall i, j :: 0 <= i < j < |queue| ==> queue[i] != queue[j]
        invariant held == 0 && busy == map[] && given == [] && finished == map[] && !stop
      {
        if files[n] !in slots {
          slots := slots[files[n] := Queued];
          queue := queue + [files[n]];
        }
      }
      HeldNothing(slots);
    }

    /** The build asks for a file. It waits only while a worker is reading it; a result is given once. */
    method Take(p: Path) returns (a: Answer)
      requires Valid()
      modifies this
      ensures Valid() && busy == old(busy) && stop == old(stop) && finished == old(finished)
      ensures a.Wait? <==> exists w :: w in busy && busy[w] == p
      ensures a.Wait? ==> unchanged(this)
      ensures given == if p in old(slots) && old(slots[p]).Done? then old(given) + [(p, a.file)] else old(given)
      ensures a.Answer? && a.file.Some? ==> given == old(given) + [(p, a.file)]
      ensures forall q :: q != p ==> (q in slots <==> q in old(slots)) && (q in slots ==> slots[q] == old(slots)[q])
      ensures p in old(slots) && old(slots[p]).Queued? ==> p in slots && slots[p].Taken?
    {
      hide QueueAgrees;
      hide BusyAgrees;
      hide GivenAgrees;
      BusyReads(slots, busy, p);
      if p !in slots || slots[p].Taken? {
        return Answer(None);
      }
      match slots[p] {
        case Queued =>
          TakenAgrees(slots, queue, busy, finished, given, p);
          HeldSet(slots, p, Taken);
          slots := slots[p := Taken];
          return Answer(None);
        case Reading =>
          return Wait;
        case Done(file) =>
          GivenOnce(slots, queue, busy, finished, given, p);
          HeldSet(slots, p, Taken);
          held := held - Weight(slots[p]);
          slots := slots - {p};
          given := given + [(p, file)];
          return Answer(file);
      }
    }

    /** A worker asks for a file: the first still waiting, unless the results hold the whole budget. */
    method Next(ghost worker: nat) returns (work: Work)
      requires Valid() && worker !in busy
      modifies this
      ensures Valid() && held == old(held) && given == old(given) && stop == old(stop) && finished == old(finished)
      ensures work.NoRoom? <==> !stop && held >= BUDGET_BYTES
      ensures work.End? ==> stop || forall p :: p in slots ==> !slots[p].Queued?
      ensures work.Read? ==> old(work.path in slots && slots[work.path].Queued?) && busy == old(busy)[worker := work.path]
      ensures work.Read? ==> slots == old(slots)[work.path := Reading]
      ensures !old(stop) && old(held) < BUDGET_BYTES ==>
        StillWaiting(old(slots), old(queue)) == if work.Read? then [work.path] + queue else []
    {
      hide BusyAgrees;
      hide GivenAgrees;
      if stop {
        return End;
      }
      if held >= BUDGET_BYTES {
        return NoRoom;
      }
      while queue != []
        invariant Valid() && held == old(held) && slots == old(slots) && busy == old(busy) && given == old(given)
        invariant finished == old(finished) && !stop
        invariant StillWaiting(slots, queue) == StillWaiting(old(slots), old(queue))
        decreases |queue|
      {
        var p := queue[0];
        if slots[p].Queued? {
          StartedAgrees(slots, queue, busy, finished, given, worker);
          HeldSet(slots, p, Reading);
          queue := queue[1..];
          slots := slots[p := Reading];
          busy := busy[worker := p];
          return Read(p);
        }
        SkippedAgrees(slots, queue);
        queue := queue[1..];
      }
      return End;
    }

    /** A worker is done reading: it read the file whole, or the read did not hold. */
    method Finish(ghost worker: nat, path: Path, file: Option<FileRead>)
      requires Valid() && worker in busy && busy[worker] == path
      modifies this
      ensures Valid() && busy == old(busy) - {worker} && given == old(given) && stop == old(stop)
      ensures finished == old(finished)[path := file]
      ensures slots == old(slots)[path := Done(file)]
    {
      hide QueueAgrees;
      hide BusyAgrees;
      hide GivenAgrees;
      FinishedAgrees(slots, queue, busy, finished, given, worker, file);
      HeldSet(slots, path, Done(file));
      slots := slots[path := Done(file)];
      held := held + Weight(Done(file));
      busy := busy - {worker};
      finished := finished[path := file];
    }
  }

  // ----- Packing the parts of a large file -----------------------------------------------------

  /** A part of a file as it is cut: its bytes, or the error that ended the reading. */
  datatype Part = Cut(data: nat) | ReadError

  predicate Fine(parts: seq<Part>, pack: nat -> Option<nat>, accepts: nat -> bool, i: nat)
    requires i < |parts|
  {
    parts[i].Cut? && pack(parts[i].data).Some? && accepts(i)
  }

  /** The first parts, packed and accepted. */
  predicate Through(parts: seq<Part>, pack: nat -> Option<nat>, accepts: nat -> bool, put: seq<nat>) {
    |put| <= |parts| && forall i :: 0 <= i < |put| ==> Fine(parts, pack, accepts, i) && pack(parts[i].data) == Some(put[i])
  }

  /** The first parts, packed; all but the last accepted, and that one refused. */
  predicate Refused(parts: seq<Part>, pack: nat -> Option<nat>, accepts: nat -> bool, put: seq<nat>) {
    && 0 < |put| <= |parts|
    && Through(parts, pack, accepts, put[..|put| - 1])
    && parts[|put| - 1].Cut? && pack(parts[|put| - 1].data) == Some(put[|put| - 1]) && !accepts(|put| - 1)
  }

  /** The jobs of a file's packing threads: those sent, how many of them a worker picked up, the answers
      in, and how many of those the build took. A worker picks jobs up in order; their answers come in
      any order, and the build takes them in the order of the jobs. */
  class Jobs {
    const room: nat
    var sent: seq<nat>
    var picked: nat
    var answers: map<nat, Option<nat>>
    var taken: nat

    /** The most that were sent and not taken, and whether a send ever found no room. */
    ghost var most: nat
    ghost var full: bool

    constructor (room: nat)
      ensures this.room == room && sent == [] && picked == 0 && answers == map[] && taken == 0 && most == 0 && !full
    {
      this.room := room;
      sent, picked, answers, taken, most, full := [], 0, map[], 0, 0, false;
    }

    ghost predicate Valid(pack: nat -> Option<nat>)
      reads this
    {
      && taken <= picked <= |sent|
      && |sent| - taken <= most
      && forall i :: i in answers ==> i < picked && answers[i] == pack(sent[i])
    }

    /** The worker threads run: each picks up a job, or answers one, any number of times. */
    method Work(pack: nat -> Option<nat>)
      requires Valid(pack)
      modifies `picked, `answers
      ensures Valid(pack) && old(picked) <= picked
    {
      var steps: int := *;
      for n := 0 to if steps < 0 then 0 else steps
        invariant Valid(pack) && old(picked) <= picked
      {
        var answer: bool, job: int := *, *;
        if !answer && picked < |sent| {
          picked := picked + 1;
        } else if answer && 0 <= job < picked {
          answers := answers[job := pack(sent[job])];
        }
      }
    }

    /** Send a job: it waits for room, if there is none, until a worker picked one up. */
    method Send(data: nat, pack: nat -> Option<nat>)
      requires Valid(pack)
      modifies this
      ensures Valid(pack) && sent == old(sent) + [data] && taken == old(taken)
      ensures most == if |sent| - taken > old(most) then |sent| - taken else old(most)
      ensures full ==> old(full) || |old(sent)| - old(taken) >= room
    {
      Work(pack);
      if |sent| - picked >= room {
        full := true;
        picked := |sent|;
      }
      sent := sent + [data];
      most := if |sent| - taken > most then |sent| - taken else most;
    }

    /** Take the answer of the oldest job not taken, once it is in. */
    method Receive(pack: nat -> Option<nat>) returns (answer: Option<nat>)
      requires Valid(pack) && taken < |sent|
      modifies this
      ensures Valid(pack) && sent == old(sent) && taken == old(taken) + 1 && most == old(most) && full == old(full)
      ensures answer == pack(sent[old(taken)])
    {
      Work(pack);
      if taken !in answers {
        picked := if picked <= taken then taken + 1 else picked;
        answers := answers[taken := pack(sent[taken])];
      }
      answer := answers[taken];
      taken := taken + 1;
    }
  }

  /** Put the next part's answer. */
  method PutNext(parts: seq<Part>, pack: nat -> Option<nat>, accepts: nat -> bool, put: seq<nat>, answer: Option<nat>)
      returns (ok: bool, now: seq<nat>)
    requires Through(parts, pack, accepts, put) && |put| < |parts| && parts[|put|].Cut? && answer == pack(parts[|put|].data)
    ensures ok <==> Fine(parts, pack, accepts, |put|)
    ensures ok ==> Through(parts, pack, accepts, now) && |now| == |put| + 1
    ensures !ok ==> now == put || Refused(parts, pack, accepts, now)
  {
    if answer.None? {
      return false, put;
    }
    now := put + [answer.value];
    assert now[..|put|] == put;
    return accepts(|put|), now;
  }

  /** Pack and put every part on this thread, no worker having started. */
  method PackHere(parts: seq<Part>, pack: nat -> Option<nat>, accepts: nat -> bool) returns (ok: bool, put: seq<nat>)
    ensures ok <==> forall i :: 0 <= i < |parts| ==> Fine(parts, pack, accepts, i)
    ensures Through(parts, pack, accepts, put) || (!ok && Refused(parts, pack, accepts, put))
    ensures ok ==> |put| == |parts|
  {
    put := [];
    for n := 0 to |parts|
      invariant Through(parts, pack, accepts, put) && |put| == n
    {
      if parts[n].ReadError? {
        assert !Fine(parts, pack, accepts, n);
        return false, put;
      }
      ok, put := PutNext(parts, pack, accepts, put, pack(parts[n].data));
      if !ok {
        return;
      }
    }
    ok := true;
  }

  /** The data of the first `n` parts. */
  predicate AreJobs(parts: seq<Part>, n: nat, sent: seq<nat>) {
    n <= |parts| && |sent| == n && forall i :: 0 <= i < n ==> parts[i] == Cut(sent[i])
  }

  /** Hash and compress a file's parts on worker threads, and put each in the order the file has them.
      `accepts` is whether `put` takes the i-th part. At most `jobs.room` parts are ever in flight, no
      send finds the channel full, and nothing is put after a refused part. */
  method PackParts(jobs: Jobs, parts: seq<Part>, pack: nat -> Option<nat>, accepts: nat -> bool)
    returns (ok: bool, put: seq<nat>)
    requires jobs.room > 0 && jobs.sent == [] && jobs.picked == 0 && jobs.answers == map[] && jobs.taken == 0
    requires jobs.most == 0 && !jobs.full
    modifies jobs
    ensures ok <==> forall i :: 0 <= i < |parts| ==> Fine(parts, pack, accepts, i)
    ensures Through(parts, pack, accepts, put) || (!ok && Refused(parts, pack, accepts, put))
    ensures ok ==> |put| == |parts| && |jobs.sent| == |parts| == jobs.taken
    ensures jobs.most <= jobs.room && !jobs.full
  {
    hide Refused;
    put := [];
    for n := 0 to |parts|
      invariant jobs.Valid(pack) && AreJobs(parts, n, jobs.sent)
      invariant Through(parts, pack, accepts, put) && |put| == jobs.taken && n - jobs.taken < jobs.room
      invariant jobs.most <= jobs.room && !jobs.full
    {
      if parts[n].ReadError? {
        assert !Fine(parts, pack, accepts, n);
        return false, put;
      }
      jobs.Send(parts[n].data, pack);
      if |jobs.sent| - jobs.taken >= jobs.room {
        var answer := jobs.Receive(pack);
        ok, put := PutNext(parts, pack, accepts, put, answer);
        if !ok {
          return;
        }
      }
    }
    while jobs.taken < |jobs.sent|
      invariant jobs.Valid(pack) && AreJobs(parts, |parts|, jobs.sent)
      invariant Through(parts, pack, accepts, put) && |put| == jobs.taken
      invariant jobs.most <= jobs.room && !jobs.full
      decreases |jobs.sent| - jobs.taken
    {
      var answer := jobs.Receive(pack);
      ok, put := PutNext(parts, pack, accepts, put, answer);
      if !ok {
        return;
      }
    }
    ok := true;
  }

  /** The parts of a large file, on `workers` threads of which `spawned` started: with none, here. */
  method PackFileParts(parts: seq<Part>, workers: nat, spawned: nat, pack: nat -> Option<nat>, accepts: nat -> bool)
    returns (ok: bool, put: seq<nat>)
    ensures ok <==> forall i :: 0 <= i < |parts| ==> Fine(parts, pack, accepts, i)
    ensures Through(parts, pack, accepts, put) || (!ok && Refused(parts, pack, accepts, put))
    ensures ok ==> |put| == |parts|
  {
    if spawned == 0 {
      ok, put := PackHere(parts, pack, accepts);
    } else {
      var jobs := new Jobs((if workers == 0 then 1 else workers) * 2);
      ok, put := PackParts(jobs, parts, pack, accepts);
    }
  }
}
