/** Reading files while others write them: the stat cache and its racily-clean rule, reads retried
    under a changing file, and builds that yield at a chunk boundary and resume (index.rs). */
module Reading {
  import opened Options
  import Captures

  type Path = nat

  /** A chunk by its hash; a file's content is the list of its chunks. */
  type Chunk = string

  /** A stat key: the change time, and the size, mtime, inode, device and mode as one value. */
  datatype Stat = Stat(ctime: int, rest: nat)

  datatype File = File(stat: Stat, chunks: seq<Chunk>)

  type Disk = map<Path, File>

  datatype IndexedFile = IndexedFile(stat: Stat, chunks: seq<Chunk>)

  datatype Read =
    | Data(chunks: seq<Chunk>, stat: Stat, torn: bool, racy: bool)
    | Vanished
    | Unreadable

  /** A database read together with its log. */
  datatype Group = Group(wal: File, db: File, torn: bool)

  const READ_ATTEMPTS := 3

  /** A read that began less than a window after the last write it saw. */
  predicate IsRacy(stat: Stat, started: int, window: int) {
    started - stat.ctime < window
  }

  function At(disk: Disk, p: Path): Option<File> {
    if p in disk then Some(disk[p]) else None
  }

  /** A file stamped by a write no earlier than `time`, on a clock whose stamps lag by less than a
      tick; a path that is gone counts, for what appears there next is stamped later still. */
  predicate Late(file: Option<File>, time: int, tick: int) {
    file.Some? ==> file.value.stat.ctime > time - tick
  }

  /** What others may do between two moments: any path is left alone or written (replaced, removed). */
  predicate Elapsed(before: Disk, after: Disk, since: int, tick: int) {
    forall p :: p in before.Keys + after.Keys ==> At(after, p) == At(before, p) || Late(At(after, p), since, tick)
  }

  /** What makes an index entry worth trusting: it was read a whole window after the last write it
      saw, and a file with its stat has its content. */
  predicate Settled(e: IndexedFile, file: Option<File>, now: int, window: int) {
    && e.stat.ctime + window <= now
    && (file.Some? && file.value.stat == e.stat ==> file.value.chunks == e.chunks)
  }

  /** Every entry not marked racy is settled. */
  predicate Trusted(files: map<Path, IndexedFile>, racy: set<Path>, disk: Disk, now: int, window: int) {
    forall p :: p in files.Keys - racy ==> Settled(files[p], At(disk, p), now, window)
  }

  lemma TrustStays(files: map<Path, IndexedFile>, racy: set<Path>, before: Disk, after: Disk, since: int, now: int,
                   window: int, tick: int)
    requires tick <= window && since <= now && Trusted(files, racy, before, since, window)
    requires Elapsed(before, after, since, tick)
    ensures Trusted(files, racy, after, now, window)
  {
  }

  /** A trusted entry that a file's stat matches now is that file as it was before, too. */
  lemma WasThere(files: map<Path, IndexedFile>, racy: set<Path>, p: Path, before: Disk, after: Disk, since: int, now: int,
                 window: int, tick: int)
    requires tick <= window && since <= now && Trusted(files, racy, before, since, window)
    requires Trusted(files, racy, after, now, window) && Elapsed(before, after, since, tick) && p in after
    ensures p in files.Keys - racy && files[p].stat == after[p].stat ==>
              At(before, p) == Some(File(after[p].stat, files[p].chunks))
  {
  }

  /** Dropping a path's racy mark is safe on every disk just when the path had none. */
  lemma DroppedMarkIsSafe(files: map<Path, IndexedFile>, racy: set<Path>, p: Path, window: int)
    requires p in files
    ensures (forall disk: Disk, now :: Trusted(files, racy, disk, now, window) ==> Trusted(files, racy - {p}, disk, now, window))
            <==> p !in racy
  {
    if p in racy {
      var stale: Disk := map[p := File(files[p].stat, files[p].chunks + [""])];
      var now := Latest(files, window);
      assert Trusted(files, racy, stale, now, window);
      assert p in files.Keys - (racy - {p});
      assert !Trusted(files, racy - {p}, stale, now, window);
    } else {
      assert racy - {p} == racy;
    }
  }

  /** A moment when every entry is a window old. */
  ghost function Latest(files: map<Path, IndexedFile>, window: int): (now: int)
    ensures forall p :: p in files ==> files[p].stat.ctime + window <= now
  {
    if files == map[] then 0
    else
      var p :| p in files;
      var rest := files - {p};
      assert forall q :: q in files && q != p ==> q in rest && rest[q] == files[q];
      var time := Latest(rest, window);
      if time < files[p].stat.ctime + window then files[p].stat.ctime + window else time
  }

  /** What was read is what the disk holds. */
  predicate OnDiskStill(files: map<Path, IndexedFile>, disk: Disk) {
    forall p :: p in files ==> At(disk, p) == Some(File(files[p].stat, files[p].chunks))
  }

  /** What an attempt packs, no earlier one has and the engine does not know. */
  predicate Apart(held: seq<Chunk>, carried: map<Chunk, Captures.Key>, known: map<Chunk, Captures.Key>) {
    forall c :: c in held ==> c !in carried && c !in known
  }

  class TreeBuilder {
    const window: int
    const tick: int
    /** No one writes while this builder works, and every path can be read. */
    const quiet: bool

    // The world.
    var disk: Disk
    var now: int

    // The stat cache, and the paths whose last read was racy.
    var files: map<Path, IndexedFile>
    var racy: set<Path>

    /** The paths the watcher saw written, not read since. */
    var suspects: set<Path>

    // The sink: the pack of every chunk the engine knows, of those earlier attempts at this build
    // packed, and the chunks in the order this attempt's packs take them.
    var known: map<Chunk, Captures.Key>
    var carried: map<Chunk, Captures.Key>
    var held: seq<Chunk>

    // What workers read ahead of the build, and which of those reads were racy.
    var ahead: map<Path, IndexedFile>
    var aheadRacy: set<Path>

    /** How each build so far ended. */
    ghost var ends: seq<End>

    /** The chunks the sink has. */
    function Stored(): set<Chunk>
      reads this`known, this`carried, this`held
    {
      known.Keys + carried.Keys + Set(held)
    }

    predicate Valid()
      reads this
    {
      && tick <= window
      && Trusted(files, racy, disk, now, window)
      && Trusted(ahead, aheadRacy, disk, now, window)
      && (quiet ==> OnDiskStill(ahead, disk))
      && Apart(held, carried, known)
    }

    constructor (window: int, tick: int, quiet: bool, disk: Disk, now: int)
      requires tick <= window
      ensures Valid() && this.window == window && this.tick == tick && this.quiet == quiet && this.disk == disk
    {
      this.window, this.tick, this.quiet := window, tick, quiet;
      this.disk, this.now := disk, now;
      files, racy, suspects, ahead, aheadRacy := map[], {}, {}, map[], {};
      known, carried, held, ends := map[], map[], [], [];
    }

    /** Time passes, and others write. */
    method Meanwhile()
      requires Valid()
      modifies `disk, `now
      ensures Valid() && old(now) <= now && Elapsed(old(disk), disk, old(now), tick)
      ensures quiet ==> disk == old(disk)
    {
      var nextDisk: Disk, nextNow: int := *, *;
      if now <= nextNow && (quiet ==> nextDisk == disk) && Elapsed(disk, nextDisk, now, tick) {
        TrustStays(files, racy, disk, nextDisk, now, nextNow, window, tick);
        TrustStays(ahead, aheadRacy, disk, nextDisk, now, nextNow, window, tick);
        disk, now := nextDisk, nextNow;
      }
    }

    /** Read a file's chunks, storing the new ones; the build may yield after each of those. What is
        read is the file as it was opened, unless someone wrote it since. */
    method ChunkFile(p: Path) returns (chunks: Option<seq<Chunk>>)
      requires Valid() && p in disk
      modifies `disk, `now, `held
      ensures Valid() && old(now) <= now && Elapsed(old(disk), disk, old(now), tick)
      ensures quiet ==> disk == old(disk)
      ensures old(Stored()) <= Stored()
      ensures chunks.None? ==> old(Stored()) < Stored()
      ensures chunks.Some? ==> Set(chunks.value) <= Stored()
      ensures chunks.Some? ==> chunks.value == old(disk[p].chunks) || Late(At(disk, p), old(now), tick)
      ensures chunks.Some? && quiet ==> chunks.value == old(disk[p].chunks)
      ensures quiet ==> Stored() <= old(Stored()) + Set(old(disk[p].chunks))
    {
      var file := disk[p];
      var plan, read, changed := file.chunks, [], false;
      while |read| < |plan|
        invariant Valid() && old(now) <= now && Elapsed(old(disk), disk, old(now), tick)
        invariant quiet ==> disk == old(disk) && !changed
        invariant read <= plan && old(Stored()) <= Stored() && Set(read) <= Stored()
        invariant if changed then Late(At(disk, p), old(now), tick) else plan == file.chunks
        invariant quiet ==> Stored() <= old(Stored()) + Set(file.chunks)
        decreases if changed then 0 else 1, |plan| - |read|
      {
        ghost var then_, at := disk, now;
        Meanwhile();
        Later(old(disk), then_, disk, old(now), at, tick);
        if !changed && At(disk, p) != Some(file) {
          var rest: seq<Chunk> := *;
          changed, plan := true, read + rest;
        } else {
          var chunk := plan[|read|];
          if chunk !in Stored() {
            SetSnoc(held, chunk);
            held := held + [chunk];
            var yield_ := *;
            if yield_ {
              return None;
            }
          }
          SetSnoc(read, chunk);
          read := read + [chunk];
        }
      }
      return Some(read);
    }

    /** A worker reads a file whole, ahead of the build; a read that fails, or whose file changes
        underneath, is dropped. What is kept may be older than the build's own read would be. */
    method ReadAhead(p: Path)
      requires Valid()
      modifies `disk, `now, `ahead, `aheadRacy
      ensures Valid() && old(now) <= now && Elapsed(old(disk), disk, old(now), tick)
      ensures quiet ==> disk == old(disk)
    {
      var started := now;
      var failed := *;
      if p !in disk || failed {
        return;
      }
      var file := disk[p];
      Meanwhile();
      if p in disk && disk[p].stat == file.stat {
        var chunks := file.chunks;
        if At(disk, p) != Some(file) {
          chunks := *;
        }
        ahead := ahead[p := IndexedFile(file.stat, chunks)];
        aheadRacy := if IsRacy(file.stat, started, window) then aheadRacy + {p} else aheadRacy - {p};
      }
    }

    /** Put chunks in the sink; nothing yields here. */
    method PutAll(chunks: seq<Chunk>)
      requires Apart(held, carried, known)
      modifies `held
      ensures Apart(held, carried, known) && Stored() == old(Stored()) + Set(chunks)
    {
      for i := 0 to |chunks|
        invariant Apart(held, carried, known) && Stored() == old(Stored()) + Set(chunks[..i])
      {
        assert chunks[..i + 1] == chunks[..i] + [chunks[i]];
        SetSnoc(chunks[..i], chunks[i]);
        if chunks[i] !in Stored() {
          SetSnoc(held, chunks[i]);
          held := held + [chunks[i]];
        }
      }
      assert chunks[..|chunks|] == chunks;
    }

    /** Read a file: what a worker read of it, or from the disk, again while it changes underneath. A
        read that is not racy is settled, and one from the disk holds the file as it is when the
        read ends. */
    method ReadFile(p: Path) returns (yielded: bool, r: Read, attempts: nat)
      requires Valid()
      modifies `disk, `now, `held, `suspects, `ahead
      ensures Valid() && old(now) <= now && Elapsed(old(disk), disk, old(now), tick)
      ensures quiet ==> disk == old(disk)
      ensures old(Stored()) <= Stored() && (yielded ==> old(Stored()) < Stored())
      ensures quiet ==> r != Unreadable
      ensures !yielded && r.Data? ==> Set(r.chunks) <= Stored() && p !in suspects
      ensures attempts <= READ_ATTEMPTS + 1 && (!yielded && r.Data? && r.torn ==> attempts == READ_ATTEMPTS + 1)
      ensures !yielded && r.Data? && !r.racy ==>
        !r.torn && Settled(IndexedFile(r.stat, r.chunks), At(disk, p), now, window)
      ensures !yielded && r.Data? && !r.racy && attempts > 0 ==> At(disk, p) == Some(File(r.stat, r.chunks))
      ensures attempts == 0 && r.Data? ==>
        p in old(ahead) && old(ahead[p]) == IndexedFile(r.stat, r.chunks) && (r.racy <==> p in aheadRacy)
      ensures !yielded && quiet && p in disk ==> r.Data? && !r.torn && r.stat == disk[p].stat && r.chunks == disk[p].chunks
      ensures quiet ==> Stored() <= old(Stored()) + (if p in disk then Set(disk[p].chunks) else {})
    {
      if p in ahead {
        var read, failed := ahead[p], *;
        ahead := ahead - {p};
        PutAll(read.chunks);
        if failed && !quiet {
          return false, Unreadable, 0;
        }
        suspects := suspects - {p};
        return false, Data(read.chunks, read.stat, false, p in aheadRacy), 0;
      }
      yielded, r, attempts := ReadFromDisk(p);
    }

    method ReadFromDisk(p: Path) returns (yielded: bool, r: Read, attempts: nat)
      requires Valid()
      modifies `disk, `now, `held, `suspects
      ensures Valid() && old(now) <= now && Elapsed(old(disk), disk, old(now), tick)
      ensures quiet ==> disk == old(disk)
      ensures old(Stored()) <= Stored() && (yielded ==> old(Stored()) < Stored())
      ensures quiet ==> r != Unreadable
      ensures !yielded && r.Data? ==> Set(r.chunks) <= Stored() && p !in suspects && attempts > 0
      ensures attempts <= READ_ATTEMPTS + 1 && (!yielded && r.Data? && r.torn ==> attempts == READ_ATTEMPTS + 1)
      ensures yielded ==> r == Vanished
      ensures !yielded && r.Data? && !r.racy ==>
        !r.torn && r.stat.ctime + window <= now && At(disk, p) == Some(File(r.stat, r.chunks))
      ensures !yielded && quiet && p in disk ==> r.Data? && !r.torn && r.stat == disk[p].stat && r.chunks == disk[p].chunks
      ensures quiet ==> Stored() <= old(Stored()) + (if p in disk then Set(disk[p].chunks) else {})
    {
      hide Stored;
      hide Trusted;
      hide OnDiskStill;
      hide Apart;
      var started := now;
      var last: Option<(seq<Chunk>, Stat)> := None;
      for attempt := 0 to READ_ATTEMPTS + 1
        invariant Valid() && started == old(now) <= now && Elapsed(old(disk), disk, old(now), tick)
        invariant quiet ==> disk == old(disk) && attempt == 0
        invariant attempt > 0 ==> last.Some?
        invariant last.Some? ==> Set(last.value.0) <= Stored()
        invariant old(Stored()) <= Stored() && suspects == old(suspects)
        invariant quiet ==> Stored() <= old(Stored()) + (if p in disk then Set(disk[p].chunks) else {})
      {
        Wait(old(disk), old(now));
        var failed := *;
        if p !in disk {
          return false, Vanished, attempt;
        }
        if failed && !quiet {
          return false, Unreadable, attempt;
        }
        var before := disk[p].stat;
        ghost var d0, t0 := disk, now;
        var chunks := ChunkFile(p);
        Later(old(disk), d0, disk, old(now), t0, tick);
        if chunks.None? {
          return true, Vanished, attempt;
        }
        ghost var d1, t1 := disk, now;
        Meanwhile();
        Later(old(disk), d1, disk, old(now), t1, tick);
        Later(d0, d1, disk, t0, t1, tick);
        if p !in disk {
          return false, Vanished, attempt;
        }
        var after := disk[p].stat;
        if before == after {
          suspects := suspects - {p};
          return false, Data(chunks.value, after, false, IsRacy(after, started, window)), attempt + 1;
        }
        last := Some((chunks.value, after));
      }
      suspects := suspects - {p};
      return false, Data(last.value.0, last.value.1, true, true), READ_ATTEMPTS + 1;
    }

    /** Time passes, within a longer stretch. */
    method Wait(ghost from: Disk, ghost since: int)
      requires Valid() && since <= now && Elapsed(from, disk, since, tick)
      modifies `disk, `now
      ensures Valid() && old(now) <= now && Elapsed(from, disk, since, tick) && Elapsed(old(disk), disk, old(now), tick)
      ensures quiet ==> disk == old(disk)
    {
      ghost var then_, at := disk, now;
      Meanwhile();
      Later(from, then_, disk, since, at, tick);
    }

    /** The watcher saw paths written: each is read again, whatever the index says. */
    method Invalidate(paths: set<Path>)
      requires Valid()
      modifies `suspects
      ensures Valid() && suspects == old(suspects) + paths
      ensures forall p, stat :: p in paths ==> !Reusable(p, stat)
    {
      suspects := suspects + paths;
    }

    /** Whether the index entry may stand in for a read. */
    predicate Reusable(p: Path, stat: Stat)
      reads this
    {
      p in files && files[p].stat == stat && p !in racy && p !in suspects && Set(files[p].chunks) <= Stored()
    }

    /** A file's chunks, from the index when it may stand in. The build may yield before a read, with
        nothing new, or inside one, with a new chunk. */
    method FileChunks(p: Path, stat: Stat) returns (yielded: bool, midFile: bool, r: Read, reused: bool)
      requires Valid()
      modifies `disk, `now, `held, `suspects, `ahead
      ensures Valid() && old(now) <= now && Elapsed(old(disk), disk, old(now), tick)
      ensures quiet ==> disk == old(disk)
      ensures old(Stored()) <= Stored() && (midFile ==> yielded && old(Stored()) < Stored())
      ensures quiet ==> r != Unreadable
      ensures reused ==> !yielded && old(Reusable(p, stat)) && r == Data(files[p].chunks, stat, false, false)
      ensures !yielded && r.Data? ==> Set(r.chunks) <= Stored()
      ensures !yielded && r.Data? && !r.racy ==> Settled(IndexedFile(r.stat, r.chunks), At(disk, p), now, window)
      ensures !yielded && quiet && p in disk && stat == disk[p].stat ==>
        r.Data? && !r.torn && r.stat == stat && r.chunks == disk[p].chunks
      ensures quiet ==> Stored() <= old(Stored()) + (if p in disk then Set(disk[p].chunks) else {})
    {
      if Reusable(p, stat) {
        assert Settled(files[p], At(disk, p), now, window);
        return false, false, Data(files[p].chunks, stat, false, false), true;
      }
      var yield_ := *;
      if yield_ {
        return true, false, Vanished, false;
      }
      var attempts;
      yielded, r, attempts := ReadFile(p);
      midFile, reused := yielded, false;
    }

    /** Both files of a group, from the index when both may stand in: what is read is each file as it was,
        unless someone wrote it since. */
    method ReadBoth(wal: Path, db: Path) returns (yielded: bool, midFile: bool, chunks: Option<(seq<Chunk>, seq<Chunk>)>)
      requires Valid() && wal in disk && db in disk
      modifies `disk, `now, `held
      ensures Valid() && old(now) <= now && Elapsed(old(disk), disk, old(now), tick) && (quiet ==> disk == old(disk))
      ensures old(Stored()) <= Stored() && (midFile ==> yielded && old(Stored()) < Stored())
      ensures chunks.Some? ==> Set(chunks.value.0) + Set(chunks.value.1) <= Stored()
      ensures chunks.Some? ==> chunks.value.0 == old(disk[wal].chunks) || (!quiet && Late(At(disk, wal), old(now), tick))
      ensures chunks.Some? ==> chunks.value.1 == old(disk[db].chunks) || (!quiet && Late(At(disk, db), old(now), tick))
    {
      if Reusable(wal, disk[wal].stat) && Reusable(db, disk[db].stat) {
        assert Settled(files[wal], At(disk, wal), now, window) && Settled(files[db], At(disk, db), now, window);
        return false, false, Some((files[wal].chunks, files[db].chunks));
      }
      var yield_ := *;
      if yield_ {
        return true, false, None;
      }
      var first := ChunkFile(wal);
      if first.None? {
        return true, true, None;
      }
      ghost var then_, at := disk, now;
      if db !in disk {
        return false, false, None;
      }
      var second := ChunkFile(db);
      Later(old(disk), then_, disk, old(now), at, tick);
      if second.None? {
        return true, true, None;
      }
      return false, false, Some((first.value, second.value));
    }

    /** Read a database and its write-ahead log together: the log, then the database, again while either
        changes; nothing when either is gone or fails. When neither is torn, and both were last written a
        window before the read began, the two are what the disk holds at one moment. */
    method ReadGroup(wal: Path, db: Path, started: int) returns (yielded: bool, midFile: bool, group: Option<Group>, attempts: nat)
      requires Valid() && started <= now
      modifies `disk, `now, `held, `suspects
      ensures Valid() && old(now) <= now && (quiet ==> disk == old(disk))
      ensures old(Stored()) <= Stored() && (midFile ==> yielded && old(Stored()) < Stored())
      ensures attempts <= READ_ATTEMPTS && (!yielded && group.Some? && group.value.torn ==> attempts == READ_ATTEMPTS)
      ensures !yielded && group.Some? ==> Set(group.value.wal.chunks) + Set(group.value.db.chunks) <= Stored()
      ensures !yielded && group.Some? && !group.value.torn && !IsRacy(group.value.wal.stat, started, window) ==>
        At(disk, wal) == Some(group.value.wal) && group.value.wal.stat.ctime + window <= now
      ensures !yielded && group.Some? && !group.value.torn && !IsRacy(group.value.db.stat, started, window) ==>
        At(disk, db) == Some(group.value.db) && group.value.db.stat.ctime + window <= now
      ensures !yielded && group.Some? && quiet ==>
        !group.value.torn && At(disk, wal) == Some(group.value.wal) && At(disk, db) == Some(group.value.db)
    {
      hide Stored;
      hide Trusted;
      hide OnDiskStill;
      hide Apart;
      var last: Option<Group> := None;
      attempts := 0;
      for attempt := 0 to READ_ATTEMPTS
        invariant Valid() && old(now) <= now && (quiet ==> disk == old(disk))
        invariant old(Stored()) <= Stored() && suspects == old(suspects)
        invariant last.Some? ==> last.value.torn && !quiet && Set(last.value.wal.chunks) + Set(last.value.db.chunks) <= Stored()
        invariant attempt > 0 ==> last.Some?
        invariant attempts == attempt
      {
        Meanwhile();
        var failed := *;
        if wal !in disk || db !in disk || (failed && !quiet) {
          return false, false, None, attempts;
        }
        var walBefore, dbBefore := disk[wal].stat, disk[db].stat;
        ghost var d0, t0 := disk, now;
        var chunks;
        yielded, midFile, chunks := ReadBoth(wal, db);
        if yielded || chunks.None? {
          return yielded, midFile, None, attempts;
        }
        Wait(d0, t0);
        if wal !in disk || db !in disk {
          return false, false, None, attempts;
        }
        var torn := walBefore != disk[wal].stat || dbBefore != disk[db].stat;
        last := Some(Group(File(disk[wal].stat, chunks.value.0), File(disk[db].stat, chunks.value.1), torn));
        attempts := attempt + 1;
        if !torn {
          break;
        }
      }
      suspects := suspects - {wal, db};
      return false, false, last, attempts;
    }

    /** Stat every path. An unmarked entry with a listed file's stat is the file as it was when the listing
        began, stat and content. */
    method List(paths: seq<Path>) returns (listing: map<Path, Stat>, found: seq<Path>)
      requires Valid()
      modifies `disk, `now
      ensures Valid() && old(now) <= now && (quiet ==> disk == old(disk))
      ensures Seen(files, racy, listing, old(disk)) && listing.Keys == Set(found)
      ensures forall i, j :: 0 <= i < j < |found| ==> found[i] != found[j]
      ensures quiet ==> Current(disk, listing) && forall p :: p in listing <==> p in paths && p in disk
    {
      listing, found := map[], [];
      for n := 0 to |paths|
        invariant Valid() && old(now) <= now && (quiet ==> disk == old(disk))
        invariant Elapsed(old(disk), disk, old(now), tick)
        invariant Seen(files, racy, listing, old(disk)) && listing.Keys == Set(found)
        invariant forall i, j :: 0 <= i < j < |found| ==> found[i] != found[j]
        invariant quiet ==> Current(disk, listing) && forall p :: p in listing <==> p in paths[..n] && p in disk
      {
        var p := paths[n];
        Wait(old(disk), old(now));
        if p in disk && p !in listing {
          WasThere(files, racy, p, old(disk), disk, old(now), now, window, tick);
          listing := listing[p := disk[p].stat];
          SetSnoc(found, p);
          found := found + [p];
        }
        assert paths[..n + 1] == paths[..n] + [p];
      }
      assert paths[..|paths|] == paths;
    }

    /** The workers of the last build are gone, with what they read. */
    method DropAhead()
      requires Valid()
      modifies `ahead, `aheadRacy
      ensures Valid() && ahead == map[]
    {
      ahead, aheadRacy := map[], {};
    }

    /** Workers read any number of files meanwhile. */
    method Workers()
      requires Valid()
      modifies `disk, `now, `ahead, `aheadRacy
      ensures Valid() && old(now) <= now && Elapsed(old(disk), disk, old(now), tick)
      ensures quiet ==> disk == old(disk)
    {
      var count: int := *;
      for i := 0 to if count < 0 then 0 else count
        invariant Valid() && old(now) <= now && Elapsed(old(disk), disk, old(now), tick)
        invariant quiet ==> disk == old(disk)
      {
        var p: Path := *;
        ghost var then_, at := disk, now;
        ReadAhead(p);
        Later(old(disk), then_, disk, old(now), at, tick);
      }
    }

    /** Keep what an interrupted build read, so that the resumed one skips it. */
    method KeepProgress(newFiles: map<Path, IndexedFile>, newRacy: set<Path>)
      requires newRacy <= newFiles.Keys
      modifies `files, `racy
      ensures files == old(files) + newFiles
      ensures racy == (old(racy) - newFiles.Keys) + newRacy
    {
      racy := racy - (newFiles.Keys - newRacy) + newRacy;
      files := files + newFiles;
    }

    /** Read one listed path, workers reading ahead meanwhile, and take in its outcome. */
    method ReadNext(g: Progress, p: Path, listing: map<Path, Stat>, strict: bool, ghost from: Disk)
      returns (yielded: bool, midFile: bool, next: Progress)
      requires Valid() && Seen(files, racy, listing, from) && p in listing && p !in g.outcomes
      requires Sane(g, racy, disk, now, window) && Honest(g, from, Stored()) && Recorded(g, files)
      requires quiet && Current(disk, listing) ==> ReadsDisk(disk, g.outcomes)
      modifies `disk, `now, `held, `suspects, `ahead, `aheadRacy
      ensures Valid() && (quiet ==> disk == old(disk))
      ensures old(Stored()) <= Stored() && (midFile ==> yielded && old(Stored()) < Stored())
      ensures quiet ==> Stored() <= old(Stored()) + (if p in disk then Set(disk[p].chunks) else {})
      ensures Sane(next, racy, disk, now, window) && Honest(next, from, Stored()) && Recorded(next, files)
      ensures yielded ==> next == g
      ensures !yielded ==> next.outcomes.Keys == g.outcomes.Keys + {p}
      ensures strict || quiet ==> next.carried == g.carried
      ensures quiet && Current(disk, listing) ==> ReadsDisk(disk, next.outcomes)
    {
      hide Honest;
      hide Recorded;
      hide Sane;
      hide ReadsDisk;
      hide Trusted;
      hide Note;
      hide Elapsed;
      hide Settled;
      hide Set;
      hide Stored;
      hide OnDiskStill;
      hide Apart;
      hide Seen;
      ghost var d, t, s := disk, now, Stored();
      Workers();
      ghost var d', t' := disk, now;
      var r, again;
      yielded, midFile, r, again := FileChunks(p, listing[p]);
      Later(d, d', disk, t, t', tick);
      StaysSane(g, racy, d, disk, t, now, window, tick);
      StaysHonest(g, from, s, Stored());
      if yielded {
        return true, midFile, g;
      }
      NoteSane(g, p, r, again, strict, files, racy, disk, now, window);
      NoteHonest(g, p, r, again, strict, files, racy, listing, from, Stored());
      if quiet && Current(disk, listing) {
        NoteReads(g, p, r, again, strict, files, disk);
      }
      NoteKeys(g, p, r, again, strict, files);
      NoteRecorded(g, p, r, again, strict, files);
      next := Note(g, p, r, again, strict, files);
    }

    /** Read every listed path, in order, until one yields. */
    method ReadAll(listing: map<Path, Stat>, order: seq<Path>, strict: bool, ghost from: Disk)
      returns (yielded: bool, midFile: bool, progress: Progress)
      requires Valid() && Seen(files, racy, listing, from) && Set(order) == listing.Keys
      requires forall i, j :: 0 <= i < j < |order| ==> order[i] != order[j]
      modifies `disk, `now, `held, `suspects, `ahead, `aheadRacy
      ensures Valid() && (quiet ==> disk == old(disk) && Stored() <= old(Stored()) + AllChunks(disk))
      ensures old(Stored()) <= Stored() && (midFile ==> yielded && old(Stored()) < Stored())
      ensures Sane(progress, racy, disk, now, window) && Honest(progress, from, Stored()) && Recorded(progress, files)
      ensures strict || quiet ==> progress.carried == {}
      ensures !yielded ==> progress.outcomes.Keys == listing.Keys
      ensures quiet && Current(disk, listing) ==> ReadsDisk(disk, progress.outcomes)
    {
      hide Honest;
      hide Recorded;
      hide Sane;
      hide ReadsDisk;
      hide Trusted;
      hide AllChunks;
      hide Set;
      hide Stored;
      hide OnDiskStill;
      hide Apart;
      hide Seen;
      progress := Progress(map[], {}, map[], {}, {});
      NothingRead(racy, disk, now, window, from, Stored());
      SetOfNone<Path>();
      for n := 0 to |order|
        invariant Valid() && (quiet ==> disk == old(disk))
        invariant old(Stored()) <= Stored() && (quiet ==> Stored() <= old(Stored()) + AllChunks(disk))
        invariant Sane(progress, racy, disk, now, window) && Honest(progress, from, Stored()) && Recorded(progress, files)
        invariant strict || quiet ==> progress.carried == {}
        invariant progress.outcomes.Keys == Set(order[..n])
        invariant quiet && Current(disk, listing) ==> ReadsDisk(disk, progress.outcomes)
      {
        var p := order[n];
        InOrder(order, n);
        ghost var s := Stored();
        yielded, midFile, progress := ReadNext(progress, p, listing, strict, from);
        if quiet {
          OneFile(disk, p, Stored(), old(Stored()), s);
        }
        if yielded {
          return;
        }
        assert order[..n + 1] == order[..n] + [p];
        SetSnoc(order[..n], p);
      }
      assert order[..|order|] == order;
      return false, false, progress;
    }

    /** Read every listed path, in order. What is reused from the index is the file the disk held when the
        listing began, stat and content. The index stays trustworthy unless an unreadable path marked racy is carried. */
    method Build(listing: map<Path, Stat>, order: seq<Path>, strict: bool, ghost from: Disk)
      returns (end: End, progress: Progress)
      requires Valid() && Seen(files, racy, listing, from) && Set(order) == listing.Keys
      requires forall i, j :: 0 <= i < j < |order| ==> order[i] != order[j]
      modifies `disk, `now, `held, `suspects, `files, `racy, `ahead, `aheadRacy, `ends
      ensures progress.carried * old(racy) == {} ==> Valid()
      ensures ends == old(ends) + [end] && Apart(held, carried, known)
      ensures quiet ==> disk == old(disk) && Stored() <= old(Stored()) + AllChunks(disk)
      ensures old(Stored()) <= Stored() && (end == Preempted(true) ==> old(Stored()) < Stored())
      ensures Honest(progress, from, Stored()) && Recorded(progress, old(files))
      ensures end == Built ==> files == progress.files && racy == progress.racy
      ensures end.Preempted? ==> files == old(files) + progress.files && racy == (old(racy) - progress.files.Keys) + progress.racy
      ensures end == Failed ==> files == old(files) && racy == old(racy)
      ensures strict || quiet ==> progress.carried == {}
      ensures end == Built ==> progress.outcomes.Keys == listing.Keys
      ensures end == Failed ==> strict && Unreadable in progress.outcomes.Values
      ensures end == Built && strict ==> Unreadable !in progress.outcomes.Values
      ensures quiet && Current(disk, listing) ==> end != Failed && ReadsDisk(disk, progress.outcomes)
    {
      hide Honest;
      hide Recorded;
      hide Sane;
      hide ReadsDisk;
      hide Trusted;
      hide AllChunks;
      hide Set;
      hide Stored;
      hide OnDiskStill;
      hide Apart;
      hide Seen;
      DropAhead();
      var yielded, midFile;
      yielded, midFile, progress := ReadAll(listing, order, strict, from);
      if yielded {
        KeptTrust(files, racy, progress, disk, now, window);
        KeepProgress(progress.files, progress.racy);
        ends := ends + [Preempted(midFile)];
        return Preempted(midFile), progress;
      }
      if quiet && Current(disk, listing) {
        NoneUnreadable(disk, progress.outcomes);
      }
      if strict && Unreadable in progress.outcomes.Values {
        ends := ends + [Failed];
        return Failed, progress;
      }
      DoneTrust(progress, racy, disk, now, window);
      files, racy, ends := progress.files, progress.racy, ends + [Built];
      return Built, progress;
    }

    /** One attempt at a build: list, then read. */
    method Attempt(paths: seq<Path>, strict: bool) returns (end: End, progress: Progress)
      requires Valid()
      modifies `disk, `now, `held, `suspects, `files, `racy, `ahead, `aheadRacy, `ends
      ensures progress.carried * old(racy) == {} ==> Valid()
      ensures ends == old(ends) + [end] && Apart(held, carried, known)
      ensures strict || quiet ==> progress.carried == {}
      ensures Honest(progress, old(disk), Stored()) && Recorded(progress, old(files))
      ensures end == Failed ==> strict
      ensures old(Stored()) <= Stored() && (end == Preempted(true) ==> old(Stored()) < Stored())
      ensures quiet ==> disk == old(disk) && Stored() <= old(Stored()) + AllChunks(disk) && end != Failed
      ensures quiet && end == Built ==> Contents(progress.outcomes) == OnDisk(disk, paths)
    {
      hide Honest;
      hide Recorded;
      hide Trusted;
      hide ReadsDisk;
      hide AllChunks;
      hide Stored;
      hide OnDiskStill;
      hide Apart;
      hide Contents;
      hide OnDisk;
      var listing, found;
      listing, found := List(paths);
      assert racy == old(racy) && Stored() == old(Stored());
      end, progress := Build(listing, found, strict, old(disk));
      if quiet && end == Built {
        AllRead(disk, paths, progress.outcomes);
      }
    }
  }

  lemma Fewer(all: set<Chunk>, before: set<Chunk>, after: set<Chunk>)
    requires before <= after <= before + all
    ensures |all - after| <= |all - before|
    ensures before < after ==> |all - after| < |all - before|
  {
    var gone := after - before;
    assert all - before == (all - after) + gone;
    assert (all - after) !! gone;
    if before < after {
      var c :| c in after && c !in before;
      assert c in gone;
    }
  }

  /** What a build read, path by path. */
  function Contents(outcomes: map<Path, Read>): map<Path, IndexedFile> {
    map p | p in outcomes && outcomes[p].Data? :: IndexedFile(outcomes[p].stat, outcomes[p].chunks)
  }

  function OnDisk(disk: Disk, paths: seq<Path>): map<Path, IndexedFile> {
    map p | p in disk && p in paths :: IndexedFile(disk[p].stat, disk[p].chunks)
  }

  /** A build that read every listed path off the disk holds what the disk does. */
  lemma AllRead(disk: Disk, paths: seq<Path>, outcomes: map<Path, Read>)
    requires ReadsDisk(disk, outcomes) && forall p :: p in outcomes <==> p in paths && p in disk
    ensures Contents(outcomes) == OnDisk(disk, paths)
  {
  }

  /** How a build ends; a preemption may come inside a file. */
  datatype End = Built | Preempted(midFile: bool) | Failed

  /** An entry with a listed file's stat is the file the disk held. */
  predicate Seen(files: map<Path, IndexedFile>, racy: set<Path>, listing: map<Path, Stat>, disk: Disk) {
    forall p :: p in listing && p in files.Keys - racy && files[p].stat == listing[p] ==>
      At(disk, p) == Some(File(listing[p], files[p].chunks))
  }

  predicate Current(disk: Disk, listing: map<Path, Stat>) {
    forall p :: p in listing ==> p in disk && disk[p].stat == listing[p]
  }

  /** Every outcome is the file on disk. */
  predicate ReadsDisk(disk: Disk, outcomes: map<Path, Read>) {
    forall p :: p in outcomes ==>
      p in disk && outcomes[p].Data? && !outcomes[p].torn && outcomes[p].chunks == disk[p].chunks && outcomes[p].stat == disk[p].stat
  }

  function AllChunks(disk: Disk): set<Chunk> {
    set p, c | p in disk && c in disk[p].chunks :: c
  }

  // ----- What a build has read so far ----------------------------------------------------------

  /** The new index and its racy marks, each path's outcome, which were reused from the index, and
      which unreadable paths were carried from it. */
  datatype Progress = Progress(
    files: map<Path, IndexedFile>,
    racy: set<Path>,
    outcomes: map<Path, Read>,
    reused: set<Path>,
    carried: set<Path>
  )

  /** Take in one outcome. A carried entry does not keep its racy mark. */
  function Note(g: Progress, p: Path, r: Read, reused: bool, strict: bool, index: map<Path, IndexedFile>): Progress {
    var noted := g.(outcomes := g.outcomes[p := r], reused := if reused then g.reused + {p} else g.reused - {p});
    if r.Data? then
      noted.(files := g.files[p := IndexedFile(r.stat, r.chunks)], racy := if r.racy then g.racy + {p} else g.racy)
    else if r.Unreadable? && !strict && p in index then
      noted.(files := g.files[p := index[p]], carried := g.carried + {p})
    else
      noted
  }

  /** The new entries deserve trust, but for those marked and the carried ones that had been. */
  ghost predicate Sane(g: Progress, racy: set<Path>, disk: Disk, now: int, window: int) {
    && g.racy <= g.files.Keys
    && Trusted(g.files, g.racy + g.carried * racy, disk, now, window)
  }

  /** What was reused is the file the disk held, stat and chunks, and every chunk read or reused is stored. */
  predicate Honest(g: Progress, disk: Disk, stored: set<Chunk>) {
    && (forall p :: p in g.reused ==>
          p in g.outcomes && g.outcomes[p].Data?
          && At(disk, p) == Some(File(g.outcomes[p].stat, g.outcomes[p].chunks)))
    && (forall p :: p in g.outcomes && g.outcomes[p].Data? ==> Set(g.outcomes[p].chunks) <= stored)
  }

  /** The new index holds exactly what was read, racy reads marked, and what was carried. */
  ghost predicate Recorded(g: Progress, index: map<Path, IndexedFile>) {
    && (forall p :: p in g.outcomes && g.outcomes[p].Data? ==>
          p in g.files && g.files[p] == IndexedFile(g.outcomes[p].stat, g.outcomes[p].chunks) && (p in g.racy <==> g.outcomes[p].racy))
    && (forall p :: p in g.carried ==> p in g.outcomes && g.outcomes[p] == Unreadable && p in index && p in g.files && g.files[p] == index[p])
    && (forall p :: p in g.files ==> p in g.carried || (p in g.outcomes && g.outcomes[p].Data?))
    && (forall p :: p in g.racy ==> p in g.outcomes && g.outcomes[p].Data?)
  }

  lemma NoteRecorded(g: Progress, p: Path, r: Read, reused: bool, strict: bool, index: map<Path, IndexedFile>)
    requires Recorded(g, index) && p !in g.outcomes
    ensures Recorded(Note(g, p, r, reused, strict, index), index)
  {
  }

  lemma NothingRead(racy: set<Path>, disk: Disk, now: int, window: int, from: Disk, stored: set<Chunk>)
    ensures Sane(Progress(map[], {}, map[], {}, {}), racy, disk, now, window)
    ensures Honest(Progress(map[], {}, map[], {}, {}), from, stored)
    ensures forall index: map<Path, IndexedFile> :: Recorded(Progress(map[], {}, map[], {}, {}), index)
    ensures ReadsDisk(disk, map[])
  {
  }

  lemma StaysSane(g: Progress, racy: set<Path>, before: Disk, after: Disk, since: int, now: int, window: int, tick: int)
    requires tick <= window && since <= now && Sane(g, racy, before, since, window) && Elapsed(before, after, since, tick)
    ensures Sane(g, racy, after, now, window)
  {
  }

  lemma StaysHonest(g: Progress, from: Disk, before: set<Chunk>, after: set<Chunk>)
    requires Honest(g, from, before) && before <= after
    ensures Honest(g, from, after)
  {
  }

  lemma OneFile(disk: Disk, p: Path, stored: set<Chunk>, from: set<Chunk>, before: set<Chunk>)
    requires before <= from + AllChunks(disk)
    requires stored <= before + (if p in disk then Set(disk[p].chunks) else {})
    ensures stored <= from + AllChunks(disk)
  {
  }

  lemma NoteSane(g: Progress, p: Path, r: Read, reused: bool, strict: bool, files: map<Path, IndexedFile>, racy: set<Path>,
                 disk: Disk, now: int, window: int)
    requires Sane(g, racy, disk, now, window) && Trusted(files, racy, disk, now, window)
    requires r.Data? && !r.racy ==> Settled(IndexedFile(r.stat, r.chunks), At(disk, p), now, window)
    ensures Sane(Note(g, p, r, reused, strict, files), racy, disk, now, window)
  {
  }

  lemma NoteHonest(g: Progress, p: Path, r: Read, reused: bool, strict: bool, files: map<Path, IndexedFile>, racy: set<Path>,
                   listing: map<Path, Stat>, from: Disk, stored: set<Chunk>)
    requires Honest(g, from, stored) && Seen(files, racy, listing, from) && p in listing
    requires r.Data? ==> Set(r.chunks) <= stored
    requires reused ==> p in files.Keys - racy && files[p].stat == listing[p] && r == Data(files[p].chunks, listing[p], false, false)
    ensures Honest(Note(g, p, r, reused, strict, files), from, stored)
  {
  }

  lemma NoteKeys(g: Progress, p: Path, r: Read, reused: bool, strict: bool, files: map<Path, IndexedFile>)
    ensures Note(g, p, r, reused, strict, files).outcomes.Keys == g.outcomes.Keys + {p}
    ensures strict || r != Unreadable ==> Note(g, p, r, reused, strict, files).carried == g.carried
  {
  }

  lemma NoneUnreadable(disk: Disk, outcomes: map<Path, Read>)
    requires ReadsDisk(disk, outcomes)
    ensures Unreadable !in outcomes.Values
  {
  }

  lemma NoteReads(g: Progress, p: Path, r: Read, reused: bool, strict: bool, files: map<Path, IndexedFile>, disk: Disk)
    requires ReadsDisk(disk, g.outcomes)
    requires p in disk && r.Data? && !r.torn && r.stat == disk[p].stat && r.chunks == disk[p].chunks
    ensures ReadsDisk(disk, Note(g, p, r, reused, strict, files).outcomes)
  {
  }

  lemma KeptTrust(files: map<Path, IndexedFile>, racy: set<Path>, g: Progress, disk: Disk, now: int, window: int)
    requires Trusted(files, racy, disk, now, window) && Sane(g, racy, disk, now, window)
    ensures g.racy <= g.files.Keys
    ensures g.carried * racy == {} ==> Trusted(files + g.files, (racy - g.files.Keys) + g.racy, disk, now, window)
  {
  }

  lemma DoneTrust(g: Progress, racy: set<Path>, disk: Disk, now: int, window: int)
    requires Sane(g, racy, disk, now, window)
    ensures g.carried * racy == {} ==> Trusted(g.files, g.racy, disk, now, window)
  {
  }

  function Set<T(==)>(s: seq<T>): set<T> {
    set x | x in s
  }

  lemma SetOfNone<T>()
    ensures Set<T>([]) == {}
  {
  }

  lemma InOrder(order: seq<Path>, n: nat)
    requires n < |order| && forall i, j :: 0 <= i < j < |order| ==> order[i] != order[j]
    ensures order[n] in Set(order) && order[n] !in Set(order[..n])
  {
  }

  lemma SetSnoc<T>(s: seq<T>, x: T)
    ensures Set(s + [x]) == Set(s) + {x}
  {
  }

  /** Time passes twice. */
  lemma Later(a: Disk, b: Disk, c: Disk, s: int, t: int, tick: int)
    requires s <= t && Elapsed(a, b, s, tick) && Elapsed(b, c, t, tick)
    ensures Elapsed(a, c, s, tick)
    ensures forall p :: Late(At(b, p), s, tick) ==> Late(At(c, p), s, tick)
  {
  }
}
