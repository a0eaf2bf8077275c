/** Incremental git packs over the object graph: each pack holds what its tips reach and its
    negatives do not, and the packs a git section lists always hold everything its tips reach
    (gitpack.rs, and the tips bookkeeping of engine.rs). */
module Git {
  import opened Options
  import opened Captures

  type Oid = string

  /** The objects an object names directly. An id is the hash of the object, so this never changes. */
  type Graph = Oid -> set<Oid>

  ghost predicate IsPath(g: Graph, p: seq<Oid>) {
    |p| > 0 && forall i :: 0 < i < |p| ==> p[i] in g(p[i - 1])
  }

  ghost predicate Connects(g: Graph, p: seq<Oid>, from: set<Oid>, o: Oid) {
    IsPath(g, p) && p[0] in from && p[|p| - 1] == o
  }

  ghost predicate Reaches(g: Graph, from: set<Oid>, o: Oid) {
    exists p :: Connects(g, p, from, o)
  }

  /** `objects` holds everything `tips` reach. */
  ghost predicate Covers(g: Graph, objects: set<Oid>, tips: set<Oid>) {
    forall o :: Reaches(g, tips, o) ==> o in objects
  }

  /** What `git pack-objects --revs` writes for `tips` and `negatives`. */
  ghost predicate IsPackOf(g: Graph, objects: set<Oid>, tips: set<Oid>, negatives: set<Oid>) {
    forall o :: o in objects <==> Reaches(g, tips, o) && !Reaches(g, negatives, o)
  }

  // ----- Reachability --------------------------------------------------------------------------

  lemma ReachesUnion(g: Graph, a: set<Oid>, b: set<Oid>, o: Oid)
    ensures Reaches(g, a + b, o) <==> Reaches(g, a, o) || Reaches(g, b, o)
  {
    if Reaches(g, a + b, o) {
      var p :| Connects(g, p, a + b, o);
      assert Connects(g, p, a, o) || Connects(g, p, b, o);
    }
    if Reaches(g, a, o) {
      var p :| Connects(g, p, a, o);
      assert Connects(g, p, a + b, o);
    }
    if Reaches(g, b, o) {
      var p :| Connects(g, p, b, o);
      assert Connects(g, p, a + b, o);
    }
  }

  lemma ReachesMonotone(g: Graph, a: set<Oid>, b: set<Oid>, o: Oid)
    requires a <= b && Reaches(g, a, o)
    ensures Reaches(g, b, o)
  {
    var p :| Connects(g, p, a, o);
    assert Connects(g, p, b, o);
  }

  lemma CoversMonotone(g: Graph, objects: set<Oid>, more: set<Oid>, tips: set<Oid>, fewer: set<Oid>)
    requires Covers(g, objects, tips) && objects <= more && fewer <= tips
    ensures Covers(g, more, fewer)
  {
    forall o | Reaches(g, fewer, o) ensures o in more {
      ReachesMonotone(g, fewer, tips, o);
    }
  }

  lemma CoversUnion(g: Graph, objects: set<Oid>, a: set<Oid>, b: set<Oid>)
    ensures Covers(g, objects, a + b) <==> Covers(g, objects, a) && Covers(g, objects, b)
  {
    forall o ensures Reaches(g, a + b, o) <==> Reaches(g, a, o) || Reaches(g, b, o) {
      ReachesUnion(g, a, b, o);
    }
  }

  // ----- The engine's git bookkeeping ----------------------------------------------------------

  /** `contents` is what the bytes under a pack key hold. */
  datatype GitState = GitState(
    previous: Option<GitSection>,
    lastTips: set<Oid>,
    repairGit: Option<set<Key>>,
    contents: map<Key, set<Oid>>)

  /** One small snap: the closure read (its tips, and those of them the section names), the tips
      nested repositories borrow, the objects the store has, and the two packs written. */
  datatype GitSnap = GitSnap(
    tips: set<Oid>, named: set<Oid>, borrowed: set<Oid>, existing: set<Oid>,
    packed: set<Oid>, packedKey: Key,
    joined: set<Oid>, joinedKey: Key)

  function PreviousTips(s: GitState): set<Oid> {
    if s.repairGit.Some? then {}
    else s.lastTips + (if s.previous.Some? then s.previous.value.tips else {})
  }

  function Kept(packs: seq<Key>, missing: Option<set<Key>>): seq<Key> {
    if packs == [] then []
    else (if missing.Some? && packs[0] in missing.value then [] else [packs[0]]) + Kept(packs[1..], missing)
  }

  /** The packs the new section lists. */
  function ListedPacks(s: GitState, a: GitSnap): seq<Key> {
    var kept := Kept(if s.previous.Some? then s.previous.value.packs else [], s.repairGit);
    var withPack := if a.packed == {} then kept else kept + [a.packedKey];
    if a.borrowed == {} || a.joined == {} || a.joinedKey in withPack then withPack else withPack + [a.joinedKey]
  }

  function Contents(s: GitState, a: GitSnap): map<Key, set<Oid>> {
    var withPack := if a.packed == {} then s.contents else s.contents[a.packedKey := a.packed];
    if a.borrowed == {} || a.joined == {} then withPack else withPack[a.joinedKey := a.joined]
  }

  /** The packs are what git writes for the negatives the engine gives it, and a key names one
      content. */
  ghost predicate CanSnapGit(g: Graph, s: GitState, a: GitSnap) {
    && a.named <= a.tips
    && IsPackOf(g, a.packed, a.tips, PreviousTips(s) * a.existing)
    && IsPackOf(g, a.joined, a.borrowed, (PreviousTips(s) + a.tips) * a.existing)
    && (a.packedKey in s.contents ==> s.contents[a.packedKey] == a.packed)
    && (a.joinedKey in s.contents ==> s.contents[a.joinedKey] == a.joined)
    && (a.packedKey == a.joinedKey ==> a.packed == a.joined)
  }

  /** A small snap that stages its section, or finds it unchanged (then it is the previous one). */
  function SnapGit(s: GitState, a: GitSnap): GitState {
    GitState(Some(GitSection(ListedPacks(s, a), a.named)), a.tips + a.borrowed, None, Contents(s, a))
  }

  function IndexOf(k: Key): Key
    requires k.object_.GitPack?
  {
    Key(k.prefix, PackIndex(k.object_.sha))
  }

  /** The git packs a refusal named, or whose index it named. */
  function GitMissing(packs: seq<Key>, missing: set<Key>): set<Key> {
    set k | k in packs && k.object_.GitPack? && (k in missing || IndexOf(k) in missing)
  }

  function WithIndexes(packs: set<Key>): set<Key> {
    packs + set k | k in packs && k.object_.GitPack? :: IndexOf(k)
  }

  function RepairGit(s: GitState, refused: GitSection, missing: set<Key>): GitState {
    var gone := GitMissing(refused.packs, missing);
    if gone == {} then s
    else s.(lastTips := {}, repairGit := Some(WithIndexes(gone)))
  }

  datatype GitStep =
    | SnapStep(snap: GitSnap)
    | FailStep                                        // a snap that fails before it keeps its tips
    | RepairStep(refused: GitSection, missing: set<Key>)

  ghost predicate GitEnabled(g: Graph, s: GitState, step: GitStep) {
    step.SnapStep? ==> CanSnapGit(g, s, step.snap)
  }

  function GitNext(s: GitState, step: GitStep): GitState {
    match step
    case SnapStep(a) => SnapGit(s, a)
    case FailStep => s
    case RepairStep(refused, missing) => RepairGit(s, refused, missing)
  }

  // ----- The closure invariant -----------------------------------------------------------------

  /** Everything the listed packs hold. */
  function Held(contents: map<Key, set<Oid>>, packs: seq<Key>): set<Oid> {
    if packs == [] then {}
    else (if packs[0] in contents then contents[packs[0]] else {}) + Held(contents, packs[1..])
  }

  lemma {:induction false} HeldHas(contents: map<Key, set<Oid>>, packs: seq<Key>, k: Key)
    requires k in packs && k in contents
    ensures contents[k] <= Held(contents, packs)
  {
    if packs[0] != k {
      HeldHas(contents, packs[1..], k);
    }
  }

  lemma {:induction false} HeldGrows(a: map<Key, set<Oid>>, b: map<Key, set<Oid>>, packs: seq<Key>, more: seq<Key>)
    requires forall k :: k in a ==> k in b && b[k] == a[k]
    requires forall k :: k in packs ==> k in more
    ensures Held(a, packs) <= Held(b, more)
    decreases |packs|
  {
    if packs != [] {
      HeldGrows(a, b, packs[1..], more);
      if packs[0] in a {
        HeldHas(b, more, packs[0]);
      }
    }
  }

  lemma {:induction false} KeptAll(packs: seq<Key>, missing: Option<set<Key>>)
    requires missing.None?
    ensures Kept(packs, missing) == packs
  {
    if packs != [] {
      KeptAll(packs[1..], missing);
    }
  }

  /** The packs a section lists hold everything its tips reach; and unless a git pack is being
      repaired, everything the next snap's negatives reach. */
  ghost predicate Closed(g: Graph, s: GitState) {
    match s.previous
    case None => s.lastTips == {}
    case Some(section) =>
      && Covers(g, Held(s.contents, section.packs), section.tips)
      && (s.repairGit.None? ==> Covers(g, Held(s.contents, section.packs), s.lastTips))
  }

  /** What the packs kept from the previous section hold covers every negative. */
  lemma NegativesAreHeld(g: Graph, s: GitState, a: GitSnap)
    requires Closed(g, s)
    ensures Covers(g, Held(Contents(s, a), ListedPacks(s, a)), PreviousTips(s))
    requires CanSnapGit(g, s, a)
  {
    if s.repairGit.None? && s.previous.Some? {
      var packs := s.previous.value.packs;
      KeptAll(packs, s.repairGit);
      HeldGrows(s.contents, Contents(s, a), packs, ListedPacks(s, a));
      CoversUnion(g, Held(s.contents, packs), s.lastTips, s.previous.value.tips);
      CoversMonotone(g, Held(s.contents, packs), Held(Contents(s, a), ListedPacks(s, a)), PreviousTips(s), PreviousTips(s));
    } else {
      NothingReaches(g);
    }
  }

  lemma NothingReaches(g: Graph)
    ensures forall o :: !Reaches(g, {}, o)
  {
  }

  /** A snap leaves the closure whole, for its tips and the borrowed ones. */
  lemma SnapKeepsClosed(g: Graph, s: GitState, a: GitSnap)
    requires Closed(g, s) && CanSnapGit(g, s, a)
    ensures Closed(g, SnapGit(s, a))
  {
    var held := Held(Contents(s, a), ListedPacks(s, a));
    NegativesAreHeld(g, s, a);
    assert Covers(g, held, a.tips) by {
      if a.packed != {} {
        HeldHas(Contents(s, a), ListedPacks(s, a), a.packedKey);
      }
      forall o | Reaches(g, a.tips, o) ensures o in held {
        if Reaches(g, PreviousTips(s) * a.existing, o) {
          ReachesMonotone(g, PreviousTips(s) * a.existing, PreviousTips(s), o);
        }
      }
    }
    CoversUnion(g, held, PreviousTips(s), a.tips);
    assert Covers(g, held, a.borrowed) by {
      if a.borrowed != {} && a.joined != {} {
        HeldHas(Contents(s, a), ListedPacks(s, a), a.joinedKey);
      }
      if a.borrowed == {} {
        NothingReaches(g);
      }
      forall o | Reaches(g, a.borrowed, o) ensures o in held {
        if Reaches(g, (PreviousTips(s) + a.tips) * a.existing, o) {
          ReachesMonotone(g, (PreviousTips(s) + a.tips) * a.existing, PreviousTips(s) + a.tips, o);
        }
      }
    }
    CoversUnion(g, held, a.tips, a.borrowed);
    CoversMonotone(g, held, held, a.tips, a.named);
  }

  ghost predicate IsGitRun(g: Graph, s: GitState, steps: seq<GitStep>)
    decreases |steps|
  {
    steps != [] ==> GitEnabled(g, s, steps[0]) && IsGitRun(g, GitNext(s, steps[0]), steps[1..])
  }

  function GitAfter(s: GitState, steps: seq<GitStep>): GitState
    decreases |steps|
  {
    if steps == [] then s else GitAfter(GitNext(s, steps[0]), steps[1..])
  }

  /** Over every run of snaps, failed snaps and repairs, the newest section's packs hold everything
      its tips reach. */
  lemma {:induction false} ClosureHoldsOverRuns(g: Graph, s: GitState, steps: seq<GitStep>)
    requires Closed(g, s) && IsGitRun(g, s, steps)
    ensures Closed(g, GitAfter(s, steps))
    decreases |steps|
  {
    if steps != [] {
      if steps[0].SnapStep? {
        SnapKeepsClosed(g, s, steps[0].snap);
      } else if s.previous.None? {
        NothingReaches(g);
      }
      ClosureHoldsOverRuns(g, GitNext(s, steps[0]), steps[1..]);
    }
  }

  /** A snap whose every tip was a tip before packs nothing. */
  lemma CoveredTipsPackNothing(g: Graph, s: GitState, a: GitSnap)
    requires CanSnapGit(g, s, a)
    requires a.tips + a.borrowed <= PreviousTips(s) && a.tips + a.borrowed <= a.existing
    ensures a.packed == {} && a.joined == {}
    ensures ListedPacks(s, a) == Kept(if s.previous.Some? then s.previous.value.packs else [], s.repairGit)
  {
    forall o ensures o !in a.packed && o !in a.joined {
      if Reaches(g, a.tips, o) {
        ReachesMonotone(g, a.tips, PreviousTips(s) * a.existing, o);
      }
      if Reaches(g, a.borrowed, o) {
        ReachesMonotone(g, a.borrowed, (PreviousTips(s) + a.tips) * a.existing, o);
      }
    }
  }

  /** A snap of a repository whose tips did not move packs nothing and lists what was listed. */
  lemma UnmovedRepositoryPacksNothing(g: Graph, s: GitState, a: GitSnap)
    requires CanSnapGit(g, s, a) && s.previous.Some? && s.repairGit.None?
    requires a.tips + a.borrowed <= s.lastTips && a.tips + a.borrowed <= a.existing && a.named == s.previous.value.tips
    ensures a.packed == {} && SnapGit(s, a).previous == s.previous
  {
    KeptAll(s.previous.value.packs, s.repairGit);
    CoveredTipsPackNothing(g, s, a);
  }

  // ----- Packing a repository that moves -------------------------------------------------------

  const PACK_ATTEMPTS := 3

  /** What the repository shows at one attempt: the closure's tips, the pack git writes for them (none
      when it fails), and whether refs, `HEAD` or symrefs moved while it was written. */
  datatype Attempt = Attempt(tips: set<Oid>, packed: Option<set<Oid>>, moved: bool)

  /** The closure of the last attempt git packed. */
  function LastPacked(tries: seq<Attempt>): Option<set<Oid>> {
    if tries == [] then None
    else if tries[|tries| - 1].packed.Some? then Some(tries[|tries| - 1].tips)
    else LastPacked(tries[..|tries| - 1])
  }

  /** Read the closure, pack it, retry while anything moves; after that, pack the last closure read
      once more. The pack is always the one of the closure returned with it, against the negatives
      fixed at the start, and it is settled only when nothing moved while it was written. */
  method BuildGitPack(ghost g: Graph, ghost negatives: set<Oid>, tries: seq<Attempt>,
                      lastTry: set<Oid> -> Option<set<Oid>>)
      returns (r: Option<(set<Oid>, set<Oid>)>, settled: bool, attempts: nat)
    requires |tries| == PACK_ATTEMPTS + 1
    requires forall i :: 0 <= i < |tries| && tries[i].packed.Some? ==>
               IsPackOf(g, tries[i].packed.value, tries[i].tips, negatives)
    requires forall tips :: lastTry(tips).Some? ==> IsPackOf(g, lastTry(tips).value, tips, negatives)
    ensures r.Some? ==> IsPackOf(g, r.value.1, r.value.0, negatives)
    ensures r.Some? ==> exists i :: 0 <= i < |tries| && tries[i].tips == r.value.0
    ensures settled <==> exists i :: 0 <= i < PACK_ATTEMPTS && tries[i].packed.Some? && !tries[i].moved
    ensures settled ==>
              && 1 <= attempts <= PACK_ATTEMPTS && tries[attempts - 1].packed.Some? && !tries[attempts - 1].moved
              && r == Some((tries[attempts - 1].tips, tries[attempts - 1].packed.value))
              && forall i :: 0 <= i < attempts - 1 ==> tries[i].packed.None? || tries[i].moved
    ensures !settled ==> attempts == PACK_ATTEMPTS + 1
    ensures !settled && r.Some? ==>
              r.value.0 == if LastPacked(tries[..PACK_ATTEMPTS]).Some? then LastPacked(tries[..PACK_ATTEMPTS]).value
                           else tries[PACK_ATTEMPTS].tips
  {
    var last: Option<set<Oid>> := None;
    for attempt := 0 to PACK_ATTEMPTS
      invariant forall i :: 0 <= i < attempt ==> tries[i].packed.None? || tries[i].moved
      invariant last == LastPacked(tries[..attempt])
      invariant last.Some? ==> exists i :: 0 <= i < |tries| && tries[i].tips == last.value
    {
      var t := tries[attempt];
      assert tries[..attempt + 1] == tries[..attempt] + [t];
      if t.packed.Some? {
        if !t.moved {
          return Some((t.tips, t.packed.value)), true, attempt + 1;
        }
        last := Some(t.tips);
      }
    }
    var tips := if last.Some? then last.value else tries[PACK_ATTEMPTS].tips;
    var packed := lastTry(tips);
    if packed.None? {
      return None, false, PACK_ATTEMPTS + 1;
    }
    return Some((tips, packed.value)), false, PACK_ATTEMPTS + 1;
  }
}
