/** Captures as the engine stages them and the registrar records them: manifests, their bulk
    sections by platform, final seals and queue entries (manifest.rs, and the queue entry of
    ship.rs). */
module Captures {
  import opened Options
  import opened Text

  type Platform = string

  /** The prefix an executor writes under; `generation` moves on with every repair. */
  datatype KeyPrefix = KeyPrefix(worktreeId: Bytes, epoch: nat, generation: Option<nat>)

  /** An object by its content: also the name of the file it is staged in. A pack of chunks or dir
      objects is named by the hash of its bytes; the hash is taken to be injective, so it is what the
      pack holds under a constructor, and never a pack git wrote. */
  datatype Object =
    | Pack(ids: seq<string>)
    | GitPack(sha: string)
    | PackIndex(sha: string)          // of the git pack
    | Tree(sha: string)
    | ManifestObject(id: CaptureId)

  /** A store key. The string it is printed as is in module Keys. */
  datatype Key = Key(prefix: KeyPrefix, object_: Object)

  /** How a class's dir objects are stored: each under a key of its own, or in packs, where a bare
      digest names one. */
  datatype DirFormat = Objects | Packs

  /** The prefix of a bare digest, which is no key: no worktree has an empty id. */
  const NO_PREFIX := KeyPrefix([], 0, None)

  function RootKey(format: DirFormat, prefix: KeyPrefix, sha: string): Key {
    Key(if format.Objects? then prefix else NO_PREFIX, Tree(sha))
  }

  /** The key is of a pack that holds the chunk or dir object. */
  predicate PackHolds(k: Key, id: string) {
    k.object_.Pack? && id in k.object_.ids
  }

  datatype Class = Small | Bulk

  datatype CaptureKind = Auto | Turn | Checkpoint | Suspend | Final

  /** The git section: the packs it lists and the objects it names (refs, trees, a detached head). */
  datatype GitSection = GitSection(packs: seq<Key>, tips: set<string>)

  datatype WorkspaceSection = WorkspaceSection(root: Key, packs: set<Key>, dirPacks: set<Key>)

  datatype BulkSection = BulkSection(root: Key, packs: set<Key>, platform: Platform, dirPacks: set<Key>)

  datatype BulkState = Ready(section: BulkSection) | Pending

  datatype Sections = Sections(
    git: GitSection,
    workspace: WorkspaceSection,
    bulk: BulkState,
    otherBulk: map<Platform, BulkSection>)

  /** A completed final flush as the chain records it. `position` is where the seal stands in the
      executor's own order (boot generation, observation); two seals of one executor differ in it. */
  datatype FinalSeal = FinalSeal(complete: bool, epoch: nat, executor: string, position: Option<(nat, nat)>)

  datatype Manifest = Manifest(
    n: nat,
    parent: Option<CaptureId>,
    seqNo: nat,
    kind: CaptureKind,
    createdAt: string,
    sections: Sections,
    finalSeal: Option<FinalSeal>)

  /** A capture id is the SHA-256 of the manifest's canonical bytes. The hash is taken to be
      injective, so the id is the manifest under a constructor. */
  datatype CaptureId = Sha(manifest: Manifest)

  /** A manifest with its id. `id == Sha(manifest)` for everything the engine encodes; the head an
      executor continues keeps its registered id while its sections follow the registrar's answer. */
  datatype Encoded = Encoded(manifest: Manifest, id: CaptureId)

  /** A staged capture. Each upload is a key; the file it is read from is the key's object. */
  datatype QueueEntry = QueueEntry(manifest: Manifest, class_: Option<Class>, uploads: seq<Key>)

  function Encode(m: Manifest): Encoded {
    Encoded(m, Sha(m))
  }

  function IdOf(e: QueueEntry): CaptureId {
    Sha(e.manifest)
  }

  predicate IsBulk(e: QueueEntry) {
    e.class_ == Some(Bulk)
  }

  /** Whether two seals are one executor's, wherever either stands in its order. */
  predicate SameExecutor(a: FinalSeal, b: FinalSeal) {
    a.complete == b.complete && a.epoch == b.epoch && a.executor == b.executor
  }

  // ----- Bulk sections by platform -------------------------------------------------------------

  /** Every bulk section a manifest holds; `bulk` wins over an entry of the same platform. */
  function BulkByPlatform(s: Sections): map<Platform, BulkSection> {
    match s.bulk
    case Ready(b) => s.otherBulk[b.platform := b]
    case Pending => s.otherBulk
  }

  /** The sections an executor continues from when the registrar answered `answered` for the
      head's bulk section. */
  function WithBulkAnswer(s: Sections, answered: BulkState): Sections {
    var all := BulkByPlatform(s);
    if answered.Ready? && answered.section.platform in all && all[answered.section.platform] == answered.section then
      s.(bulk := answered, otherBulk := all - {answered.section.platform})
    else
      s.(bulk := Pending, otherBulk := all)
  }

  function OtherBulkAfter(previous: Sections, bulk: BulkState): map<Platform, BulkSection> {
    match bulk
    case Ready(b) => BulkByPlatform(previous) - {b.platform}
    case Pending => BulkByPlatform(previous)
  }

  /** Continuing a head drops nothing, whatever the registrar answered: every platform's section is
      still held, nothing is held that was not, and no platform is listed twice. The section
      restored here is the answered one, exactly when the head holds it. */
  lemma BulkAnswerKeepsEverySection(s: Sections, answered: BulkState)
    ensures var t := WithBulkAnswer(s, answered);
            && BulkByPlatform(t) == BulkByPlatform(s)
            && (t.bulk.Ready? ==> t.bulk.section.platform !in t.otherBulk)
            && (t.bulk == answered <==>
                (answered.Pending?
                || (answered.section.platform, answered.section) in BulkByPlatform(s).Items))
  {
  }

  /** A bulk capture over `previous` replaces its own platform's section and keeps every other
      platform's, whichever of `bulk` and `otherBulk` held it. */
  lemma BulkCaptureKeepsOtherPlatforms(previous: Sections, bulk: BulkSection)
    ensures var t := previous.(bulk := Ready(bulk), otherBulk := OtherBulkAfter(previous, Ready(bulk)));
            && BulkByPlatform(t) == BulkByPlatform(previous)[bulk.platform := bulk]
            && bulk.platform !in t.otherBulk
  {
  }
}
