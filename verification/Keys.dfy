/** Object keys as text: what is built under a prefix, and what a key gives back (keys.rs). */
module Keys {
  import opened Options
  import opened Text
  import Captures

  type KeyPrefix = Captures.KeyPrefix

  datatype Kind = Packs | Trees | Manifests

  /** `captures` */
  const CAPTURES: Bytes := [99, 97, 112, 116, 117, 114, 101, 115]

  /** `.idx` */
  const IDX: Bytes := [46, 105, 100, 120]

  /** `g` */
  const GENERATION: byte := 103

  /** `packs`, `trees` and `manifests` */
  function Directory(kind: Kind): Bytes {
    match kind
    case Packs => [112, 97, 99, 107, 115]
    case Trees => [116, 114, 101, 101, 115]
    case Manifests => [109, 97, 110, 105, 102, 101, 115, 116, 115]
  }

  function Under(front: Bytes, segment: Bytes): Bytes {
    front + ([SLASH] + segment)
  }

  function Base(p: KeyPrefix): Bytes {
    Under(Under(CAPTURES, p.worktreeId), Decimal(p.epoch))
  }

  function Objects(p: KeyPrefix): Bytes {
    if p.generation.Some? then Under(Base(p), [GENERATION] + Decimal(p.generation.value)) else Base(p)
  }

  /** The key of an object: a pack, a pack index, a dir object or a manifest. */
  function KeyOf(p: KeyPrefix, kind: Kind, object_: Bytes): Bytes {
    Under(Under(Objects(p), Directory(kind)), object_)
  }

  function PackIdx(p: KeyPrefix, sha: Bytes): Bytes {
    KeyOf(p, Packs, sha + IDX)
  }

  // ----- Reading a key from its end ------------------------------------------------------------

  /** A text's last segment, and what comes before it. */
  datatype Split = Split(front: Option<Bytes>, last: Bytes)

  function LastSegment(key: Bytes): Split {
    match LastSlash(key)
    case None => Split(None, key)
    case Some(i) => Split(Some(key[..i]), key[i + 1..])
  }

  lemma LastSegmentIs(front: Bytes, segment: Bytes)
    requires SLASH !in segment
    ensures LastSegment(Under(front, segment)) == Split(Some(front), segment)
  {
    var key := Under(front, segment);
    assert key[|front|] == SLASH;
    assert forall j :: |front| < j < |key| ==> key[j] == segment[j - |front| - 1];
    assert key[..|front|] == front && key[|front| + 1..] == segment;
  }

  predicate IsHex(b: byte) {
    48 <= b < 58 || 97 <= b < 103 || 65 <= b < 71
  }

  predicate IsDigest(sha: Bytes) {
    |sha| == 64 && forall i :: 0 <= i < 64 ==> IsHex(sha[i])
  }

  function WithoutIdx(object_: Bytes): Bytes {
    if |object_| >= 4 && object_[|object_| - 4..] == IDX then object_[..|object_| - 4] else object_
  }

  function KeyDigest(key: Bytes): Option<Bytes> {
    var digest := WithoutIdx(LastSegment(key).last);
    if IsDigest(digest) then Some(digest) else None
  }

  function KeyGeneration(key: Bytes): Option<nat> {
    var object_ := LastSegment(key);
    if object_.front.None? then None
    else
      var kind := LastSegment(object_.front.value);
      if kind.last != Directory(Packs) && kind.last != Directory(Trees) && kind.last != Directory(Manifests) then None
      else if kind.front.None? then None
      else
        var segment := LastSegment(kind.front.value).last;
        if segment == [] || segment[0] != GENERATION then None
        else
          var digits := segment[1..];
          if digits == [] || !AllDigits(digits) || Value(digits) >= U64_LIMIT then None else Some(Value(digits))
  }

  lemma DecimalHasNoSlash(n: nat)
    ensures SLASH !in Decimal(n) && Decimal(n) != [] && Decimal(n)[0] != GENERATION
    ensures SLASH !in [GENERATION] + Decimal(n)
  {
  }

  lemma DecimalInjective(m: nat, n: nat)
    requires Decimal(m) == Decimal(n)
    ensures m == n
  {
    DecimalValue(m);
    DecimalValue(n);
  }

  lemma DirectoryHasNoSlash(kind: Kind)
    ensures SLASH !in Directory(kind)
  {
  }

  /** The last segment of a prefix: its generation, or its epoch when it has none. */
  lemma ObjectsEnd(p: KeyPrefix)
    ensures p.generation.Some? ==>
      LastSegment(Objects(p)) == Split(Some(Base(p)), [GENERATION] + Decimal(p.generation.value))
    ensures p.generation.None? ==> LastSegment(Objects(p)).last == Decimal(p.epoch)
    ensures LastSegment(Base(p)) == Split(Some(Under(CAPTURES, p.worktreeId)), Decimal(p.epoch))
  {
    DecimalHasNoSlash(p.epoch);
    LastSegmentIs(Under(CAPTURES, p.worktreeId), Decimal(p.epoch));
    if p.generation.Some? {
      DecimalHasNoSlash(p.generation.value);
      LastSegmentIs(Base(p), [GENERATION] + Decimal(p.generation.value));
    }
  }

  lemma KeyEnds(p: KeyPrefix, kind: Kind, object_: Bytes)
    requires SLASH !in object_
    ensures LastSegment(KeyOf(p, kind, object_)) == Split(Some(Under(Objects(p), Directory(kind))), object_)
    ensures LastSegment(Under(Objects(p), Directory(kind))) == Split(Some(Objects(p)), Directory(kind))
  {
    hide LastSegment;
    LastSegmentIs(Under(Objects(p), Directory(kind)), object_);
    DirectoryHasNoSlash(kind);
    LastSegmentIs(Objects(p), Directory(kind));
  }

  /** A key gives back the generation it was written under, or none when it has none. */
  lemma GenerationRecovered(p: KeyPrefix, kind: Kind, object_: Bytes)
    requires SLASH !in object_ && (p.generation.Some? ==> p.generation.value < U64_LIMIT)
    ensures KeyGeneration(KeyOf(p, kind, object_)) == p.generation
  {
    KeyEnds(p, kind, object_);
    ObjectsEnd(p);
    DecimalHasNoSlash(p.epoch);
    hide LastSegment;
    if p.generation.Some? {
      var n := p.generation.value;
      DecimalValue(n);
      assert ([GENERATION] + Decimal(n))[1..] == Decimal(n);
    }
  }

  lemma DigestIsPlain(sha: Bytes)
    requires IsDigest(sha)
    ensures SLASH !in sha && SLASH !in sha + IDX
    ensures WithoutIdx(sha) == sha && WithoutIdx(sha + IDX) == sha
  {
    assert sha[60..][0] == sha[60] && IsHex(sha[60]);
    assert (sha + IDX)[64..] == IDX && (sha + IDX)[..64] == sha;
  }

  /** A key gives back the content hash it names, and a pack index its pack's. */
  lemma DigestRecovered(p: KeyPrefix, kind: Kind, sha: Bytes)
    requires IsDigest(sha)
    ensures KeyDigest(KeyOf(p, kind, sha)) == Some(sha) && KeyDigest(PackIdx(p, sha)) == Some(sha)
  {
    DigestIsPlain(sha);
    KeyEnds(p, kind, sha);
    KeyEnds(p, Packs, sha + IDX);
    hide LastSegment;
    hide WithoutIdx;
  }

  /** No two objects share a key, across worktrees, epochs, generations and kinds. */
  lemma KeysAreDistinct(p: KeyPrefix, kind: Kind, object_: Bytes, q: KeyPrefix, kind': Kind, object': Bytes)
    requires SLASH !in object_ && SLASH !in object'
    requires KeyOf(p, kind, object_) == KeyOf(q, kind', object')
    ensures p == q && kind == kind' && object_ == object'
  {
    KeyEnds(p, kind, object_);
    KeyEnds(q, kind', object');
    assert |Directory(kind)| == |Directory(kind')| && Directory(kind)[0] == Directory(kind')[0];
    PrefixesAreDistinct(p, q);
  }

  lemma PrefixesAreDistinct(p: KeyPrefix, q: KeyPrefix)
    requires Objects(p) == Objects(q)
    ensures p == q
  {
    ObjectsEnd(p);
    ObjectsEnd(q);
    hide LastSegment;
    DecimalHasNoSlash(p.epoch);
    DecimalHasNoSlash(q.epoch);
    if p.generation.Some? && q.generation.Some? {
      assert ([GENERATION] + Decimal(p.generation.value))[1..] == Decimal(p.generation.value);
      assert ([GENERATION] + Decimal(q.generation.value))[1..] == Decimal(q.generation.value);
      DecimalInjective(p.generation.value, q.generation.value);
    }
    DecimalInjective(p.epoch, q.epoch);
    assert Under(CAPTURES, p.worktreeId)[9..] == p.worktreeId;
    assert Under(CAPTURES, q.worktreeId)[9..] == q.worktreeId;
  }
}
