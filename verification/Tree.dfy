/** Building dir objects from a listing: directories deepest first, hardlinks to the first member of
    their group that reads, paths carried from the index when they cannot be read (index.rs). A dir
    object is named by its hash, which is injective: the key of an object is the object. */
module Tree {
  import opened Options

  /** A name by its bytes, as one value. */
  type Name = nat

  /** A path: the root, or a name in a directory. */
  datatype Path = Root | In(dir: Path, name: Name)

  /** What a file or a symlink reads as. */
  type Content = nat

  /** A path of the tree: listed, carried from the index under an unreadable path, or a directory
      standing in for one that could not be listed. */
  datatype Node =
    | Dir
    | Symlink
    | File(inode: nat, links: nat)
    | Carried(content: Content)
    | CarriedDir

  datatype Outcome = Data(content: Content) | Vanished | Unreadable

  /** What is built from: the nodes and their order, what each file or symlink reads as, and what the
      index last read. */
  datatype Input = Input(nodes: map<Path, Node>, order: seq<Path>, outcomes: map<Path, Outcome>, index: map<Path, Content>)

  datatype Entry =
    | DirEntry(name: Name, key: Key)
    | FileEntry(name: Name, content: Content, unread: bool)
    | LinkEntry(name: Name, target: Path)
    | SymlinkEntry(name: Name, content: Content)

  datatype Key = Key(entries: seq<Entry>)

  /** A path of a flattened tree. */
  datatype Leaf = IsDir | IsFile(content: Content, unread: bool) | IsLink(target: Path) | IsSymlink(content: Content)

  function Depth(p: Path): nat {
    if p.Root? then 0 else Depth(p.dir) + 1
  }

  predicate IsDirectory(node: Node) {
    node.Dir? || node.CarriedDir?
  }

  /** Every path but a top one lies in a directory of the listing. */
  predicate AncestorClosed(nodes: map<Path, Node>) {
    forall p :: p in nodes ==> p.In? && (p.dir.In? ==> p.dir in nodes && IsDirectory(nodes[p.dir]))
  }

  /** Every file and symlink has an outcome. */
  predicate Complete(t: Input) {
    forall p :: p in t.nodes && (t.nodes[p].File? || t.nodes[p].Symlink?) ==> p in t.outcomes
  }

  predicate NoDuplicates(paths: seq<Path>) {
    forall i, j :: 0 <= i < j < |paths| ==> paths[i] != paths[j]
  }

  function SetOf(paths: seq<Path>): set<Path> {
    set p | p in paths
  }

  /** The order lists every node once. */
  predicate WellFormed(t: Input) {
    Complete(t) && AncestorClosed(t.nodes) && NoDuplicates(t.order) && SetOf(t.order) == t.nodes.Keys
  }

  // ----- Hardlink groups -----------------------------------------------------------------------

  /** The paths of an inode with several links, in order. */
  function Members(t: Input, order: seq<Path>, inode: nat): seq<Path> {
    if order == [] then []
    else
      var p := order[|order| - 1];
      Members(t, order[..|order| - 1], inode) +
      if p in t.nodes && t.nodes[p].File? && t.nodes[p].links > 1 && t.nodes[p].inode == inode then [p] else []
  }

  /** The member that stands for the group, and the members left out. */
  datatype Choice = Choice(canonical: Option<Path>, content: Content, unread: bool, skipped: set<Path>)

  function FirstIndexed(t: Input, members: seq<Path>): Option<Path> {
    if members == [] then None
    else if members[0] in t.index then Some(members[0])
    else FirstIndexed(t, members[1..])
  }

  /** The first member that reads; at the first unreadable one, the first the index holds. Members gone
      before it are left out, and all of them when none stands. */
  function Choose(t: Input, members: seq<Path>, k: nat): Choice
    requires k <= |members|
    requires forall m :: m in members ==> m in t.outcomes
    decreases |members| - k
  {
    if k == |members| then Choice(None, 0, false, SetOf(members))
    else
      match t.outcomes[members[k]]
      case Data(content) => Choice(Some(members[k]), content, false, SetOf(members[..k]))
      case Vanished => Choose(t, members, k + 1)
      case Unreadable =>
        var carry := FirstIndexed(t, members[k..]);
        if carry.Some? && carry.value in t.index then Choice(carry, t.index[carry.value], true, SetOf(members[..k]))
        else Choice(None, 0, false, SetOf(members))
  }

  function ChoiceOf(t: Input, inode: nat): Choice
    requires Complete(t)
  {
    MembersAre(t, t.order, inode);
    Choose(t, Members(t, t.order, inode), 0)
  }

  predicate Grouped(t: Input, p: Path)
    requires p in t.nodes && t.nodes[p].File?
  {
    t.nodes[p].links > 1 && |Members(t, t.order, t.nodes[p].inode)| > 1
  }

  lemma {:induction false} MembersAre(t: Input, order: seq<Path>, inode: nat)
    requires Complete(t)
    ensures forall m :: m in Members(t, order, inode) <==>
      m in order && m in t.nodes && t.nodes[m].File? && t.nodes[m].links > 1 && t.nodes[m].inode == inode
    ensures forall m :: m in Members(t, order, inode) ==> m in t.outcomes
    decreases |order|
  {
    if order != [] {
      MembersAre(t, order[..|order| - 1], inode);
      assert order == order[..|order| - 1] + [order[|order| - 1]];
    }
  }

  lemma {:induction false} FirstIndexedIs(t: Input, members: seq<Path>)
    ensures FirstIndexed(t, members).Some? ==> FirstIndexed(t, members).value in members && FirstIndexed(t, members).value in t.index
    ensures FirstIndexed(t, members).None? ==> forall m :: m in members ==> m !in t.index
  {
    if members != [] {
      FirstIndexedIs(t, members[1..]);
    }
  }

  /** The canonical member is one of the group and not left out; everyone is left out when none stands. */
  lemma {:induction false} ChooseIs(t: Input, members: seq<Path>, k: nat)
    requires k <= |members| && NoDuplicates(members)
    requires forall m :: m in members ==> m in t.outcomes
    ensures var c := Choose(t, members, k);
      && c.skipped <= SetOf(members)
      && (c.canonical.None? ==> c.skipped == SetOf(members))
      && (c.canonical.Some? ==> c.canonical.value in members && c.canonical.value !in c.skipped)
      && (c.canonical.Some? && !c.unread ==> t.outcomes[c.canonical.value] == Data(c.content))
      && (c.canonical.Some? && c.unread ==> c.canonical.value in t.index && c.content == t.index[c.canonical.value])
    decreases |members| - k
  {
    if k < |members| {
      if t.outcomes[members[k]].Vanished? {
        ChooseIs(t, members, k + 1);
      } else if t.outcomes[members[k]].Unreadable? {
        FirstIndexedIs(t, members[k..]);
      }
    }
  }

  lemma {:induction false} MembersDistinct(t: Input, order: seq<Path>, inode: nat)
    requires Complete(t) && NoDuplicates(order)
    ensures NoDuplicates(Members(t, order, inode))
    decreases |order|
  {
    if order != [] {
      var front := order[..|order| - 1];
      MembersDistinct(t, front, inode);
      MembersAre(t, front, inode);
    }
  }

  // ----- What the tree should show -------------------------------------------------------------

  /** What a path shows as in the tree; nothing when it vanished, or could not be read and was never
      read before. */
  function Shown(t: Input, p: Path): Option<Leaf>
    requires Complete(t)
  {
    if p !in t.nodes then None
    else
      match t.nodes[p]
      case Dir => Some(IsDir)
      case CarriedDir => Some(IsDir)
      case Carried(content) => Some(IsFile(content, true))
      case Symlink => if t.outcomes[p].Data? then Some(IsSymlink(t.outcomes[p].content)) else None
      case File(inode, _) =>
        if Grouped(t, p) then
          var c := ChoiceOf(t, inode);
          if c.canonical.None? || p in c.skipped then None
          else if c.canonical == Some(p) then Some(IsFile(c.content, c.unread))
          else Some(IsLink(c.canonical.value))
        else
          match t.outcomes[p]
          case Data(content) => Some(IsFile(content, false))
          case Vanished => None
          case Unreadable => if p in t.index then Some(IsFile(t.index[p], true)) else None
  }

  /** Every hardlink of the tree targets a file of the tree, on the same inode. */
  lemma LinksReachFiles(t: Input, p: Path)
    requires Complete(t) && NoDuplicates(t.order) && Shown(t, p).Some? && Shown(t, p).value.IsLink?
    ensures var target := Shown(t, p).value.target;
      && target in t.nodes && t.nodes[target].File? && t.nodes[target].inode == t.nodes[p].inode
      && Shown(t, target).Some? && Shown(t, target).value.IsFile?
  {
    var inode := t.nodes[p].inode;
    MembersAre(t, t.order, inode);
    MembersDistinct(t, t.order, inode);
    ChooseIs(t, Members(t, t.order, inode), 0);
  }

  /** The content a path resolves to, through its hardlink. */
  function Resolved(t: Input, p: Path): Option<Content>
    requires Complete(t)
  {
    match Shown(t, p)
    case Some(IsFile(content, _)) => Some(content)
    case Some(IsSymlink(content)) => Some(content)
    case Some(IsLink(target)) =>
      (match Shown(t, target)
       case Some(IsFile(content, _)) => Some(content)
       case _ => None)
    case _ => None
  }

  /** Every path was listed, and each file and symlink read as its inode on disk. */
  predicate AllRead(t: Input, disk: map<nat, Content>) {
    forall p :: p in t.nodes ==>
      match t.nodes[p]
      case Dir => true
      case Symlink => p in t.outcomes && t.outcomes[p].Data?
      case File(inode, _) => inode in disk && p in t.outcomes && t.outcomes[p] == Data(disk[inode])
      case _ => false
  }

  /** When everything reads, the tree shows every path of the listing, with its content on disk. */
  lemma AllReadIsShown(t: Input, disk: map<nat, Content>, p: Path)
    requires Complete(t) && AllRead(t, disk) && p in t.nodes
    ensures Shown(t, p).Some?
    ensures t.nodes[p].Dir? ==> Shown(t, p) == Some(IsDir)
    ensures t.nodes[p].Symlink? ==> Shown(t, p) == Some(IsSymlink(t.outcomes[p].content))
    ensures t.nodes[p].File? ==> Resolved(t, p) == Some(disk[t.nodes[p].inode])
  {
    if t.nodes[p].File? && Grouped(t, p) {
      var members := Members(t, t.order, t.nodes[p].inode);
      MembersAre(t, t.order, t.nodes[p].inode);
      assert t.outcomes[members[0]] == Data(disk[t.nodes[p].inode]);
      assert members[..0] == [];
      LinkTarget(t, p);
    }
  }

  lemma LinkTarget(t: Input, p: Path)
    requires Complete(t) && p in t.nodes && t.nodes[p].File? && Grouped(t, p)
    requires Members(t, t.order, t.nodes[p].inode)[0] in t.outcomes
    requires t.outcomes[Members(t, t.order, t.nodes[p].inode)[0]].Data?
    ensures var first := Members(t, t.order, t.nodes[p].inode)[0];
      && Shown(t, p) == Some(if p == first then IsFile(t.outcomes[first].content, false) else IsLink(first))
      && Shown(t, first) == Some(IsFile(t.outcomes[first].content, false))
  {
    MembersAre(t, t.order, t.nodes[p].inode);
  }

  // ----- The dir objects -----------------------------------------------------------------------

  function KidsIn(order: seq<Path>, d: Path): (kids: seq<Path>)
    ensures |kids| <= |order|
    ensures forall k :: k in kids ==> k.In? && k.dir == d
  {
    if order == [] then []
    else
      var p := order[|order| - 1];
      KidsIn(order[..|order| - 1], d) + if p.In? && p.dir == d then [p] else []
  }

  lemma {:induction false} KidsAre(order: seq<Path>, d: Path, k: Path)
    ensures k in KidsIn(order, d) <==> k in order && k.In? && k.dir == d
    decreases |order|
  {
    if order != [] {
      KidsAre(order[..|order| - 1], d, k);
      assert order == order[..|order| - 1] + [order[|order| - 1]];
    }
  }

  lemma {:induction false} KidsDistinct(order: seq<Path>, d: Path)
    requires NoDuplicates(order)
    ensures NoDuplicates(KidsIn(order, d))
    decreases |order|
  {
    if order != [] {
      var front := order[..|order| - 1];
      KidsDistinct(front, d);
      KidsAre(front, d, order[|order| - 1]);
    }
  }

  /** No path is deeper than this. */
  ghost function Height(order: seq<Path>): (h: nat)
    ensures forall p :: p in order ==> Depth(p) <= h
  {
    if order == [] then 0
    else
      var h, last := Height(order[..|order| - 1]), order[|order| - 1];
      assert order == order[..|order| - 1] + [last];
      if h < Depth(last) then Depth(last) else h
  }

  /** The entry a shown path has in its directory. */
  function EntryFor(name: Name, leaf: Leaf, key: Key): Entry {
    match leaf
    case IsDir => DirEntry(name, key)
    case IsFile(content, unread) => FileEntry(name, content, unread)
    case IsLink(target) => LinkEntry(name, target)
    case IsSymlink(content) => SymlinkEntry(name, content)
  }

  /** Children of a directory, no deeper than the tree. */
  ghost predicate AreKids(t: Input, d: Path, kids: seq<Path>) {
    forall k :: k in kids ==> k.In? && k.dir == d && Depth(k) <= Height(t.order)
  }

  lemma KidsAreKids(t: Input, d: Path)
    ensures AreKids(t, d, KidsIn(t.order, d))
  {
    forall k | k in KidsIn(t.order, d)
      ensures Depth(k) <= Height(t.order)
    {
      KidsAre(t.order, d, k);
    }
  }

  /** The key of a directory: its object, whose subdirectories are named by theirs. */
  ghost function KeyOf(t: Input, d: Path): Key
    requires Complete(t) && Depth(d) <= Height(t.order)
    decreases Height(t.order) - Depth(d), |t.order| + 1
  {
    KidsAreKids(t, d);
    Key(EntriesOf(t, d, KidsIn(t.order, d)))
  }

  /** The entries of some children of a directory. */
  ghost function EntriesOf(t: Input, d: Path, kids: seq<Path>): seq<Entry>
    requires Complete(t) && Depth(d) <= Height(t.order) && AreKids(t, d, kids)
    decreases Height(t.order) - Depth(d), |kids|
  {
    if kids == [] then []
    else
      var k := kids[|kids| - 1];
      assert Depth(k) == Depth(d) + 1;
      EntriesOf(t, d, kids[..|kids| - 1]) +
      if Shown(t, k).Some? then [EntryFor(k.name, Shown(t, k).value, KeyOf(t, k))] else []
  }

  // ----- Flattening ----------------------------------------------------------------------------

  function Find(entries: seq<Entry>, name: Name): Option<Entry> {
    if entries == [] then None
    else if entries[|entries| - 1].name == name then Some(entries[|entries| - 1])
    else Find(entries[..|entries| - 1], name)
  }

  function LeafOf(e: Entry): Leaf {
    match e
    case DirEntry(_, _) => IsDir
    case FileEntry(_, content, unread) => IsFile(content, unread)
    case LinkEntry(_, target) => IsLink(target)
    case SymlinkEntry(_, content) => IsSymlink(content)
  }

  /** The entry stored dir objects hold at a path, from the root object down. */
  function Lookup(dirs: map<Key, seq<Entry>>, root: Key, p: Path): Option<Entry> {
    if p.Root? then None
    else
      var dir := if p.dir.Root? then Some(DirEntry(0, root)) else Lookup(dirs, root, p.dir);
      if dir.None? || !dir.value.DirEntry? || dir.value.key !in dirs then None
      else Find(dirs[dir.value.key], p.name)
  }

  /** The flattened tree: what a path is, and holds. */
  function Flattened(dirs: map<Key, seq<Entry>>, root: Key, p: Path): Option<Leaf> {
    match Lookup(dirs, root, p)
    case None => None
    case Some(e) => Some(LeafOf(e))
  }

  lemma FindLast(entries: seq<Entry>, e: Entry, name: Name)
    ensures Find(entries + [e], name) == if e.name == name then Some(e) else Find(entries, name)
  {
  }

  /** The entry of a path, if it shows. */
  ghost function EntryAt(t: Input, p: Path): Option<Entry>
    requires Complete(t) && p.In? && (Shown(t, p).Some? ==> Depth(p) <= Height(t.order))
  {
    if Shown(t, p).Some? then Some(EntryFor(p.name, Shown(t, p).value, KeyOf(t, p))) else None
  }

  /** Names are unique in a dir object: each child's entry is the one its name finds. */
  lemma {:induction false} FindKid(t: Input, d: Path, kids: seq<Path>, p: Path)
    requires Complete(t) && Depth(d) <= Height(t.order) && NoDuplicates(kids) && AreKids(t, d, kids)
    requires p.In? && p.dir == d
    ensures Find(EntriesOf(t, d, kids), p.name) == if p in kids then EntryAt(t, p) else None
    decreases |kids|
  {
    hide Shown;
    hide KeyOf;
    hide Complete;
    hide Find;
    if kids == [] {
      FindNone(p.name);
    } else {
      var k, front := kids[|kids| - 1], kids[..|kids| - 1];
      FindKid(t, d, front, p);
      if Shown(t, k).Some? {
        FindLast(EntriesOf(t, d, front), EntryFor(k.name, Shown(t, k).value, KeyOf(t, k)), p.name);
      } else {
        assert EntriesOf(t, d, kids) == EntriesOf(t, d, front);
      }
    }
  }

  lemma FindNone(name: Name)
    ensures Find([], name) == None
  {
  }

  /** The directories of a tree: the root and every directory node. */
  predicate InTree(t: Input, d: Path) {
    d.Root? || (d in t.nodes && IsDirectory(t.nodes[d]))
  }

  lemma NoDeeper(t: Input, p: Path)
    requires Complete(t) && SetOf(t.order) == t.nodes.Keys
    ensures Shown(t, p).Some? || InTree(t, p) ==> Depth(p) <= Height(t.order)
    ensures Shown(t, p).Some? ==> p in t.nodes
    ensures p.In? ==> (InTree(t, p) <==> Shown(t, p) == Some(IsDir))
  {
  }

  /** The entry a path has in its directory's object. */
  lemma FindIn(t: Input, p: Path)
    requires Complete(t) && NoDuplicates(t.order) && SetOf(t.order) == t.nodes.Keys
    requires p.In? && Depth(p.dir) <= Height(t.order)
    ensures Shown(t, p).Some? ==> Depth(p) <= Height(t.order)
    ensures Find(KeyOf(t, p.dir).entries, p.name) == EntryAt(t, p)
  {
    hide Shown;
    hide EntriesOf;
    hide Find;
    var kids := KidsIn(t.order, p.dir);
    KidsAreKids(t, p.dir);
    KidsDistinct(t.order, p.dir);
    KidsAre(t.order, p.dir, p);
    assert p in SetOf(t.order) <==> p in t.order;
    NoDeeper(t, p);
    FindKid(t, p.dir, kids, p);
  }

  /** A dir object is stored for every directory. */
  ghost predicate Stored(t: Input, dirs: map<Key, seq<Entry>>)
    requires Complete(t)
  {
    forall d :: InTree(t, d) && Depth(d) <= Height(t.order) ==> KeyOf(t, d) in dirs && dirs[KeyOf(t, d)] == KeyOf(t, d).entries
  }

  lemma {:induction false} LookupFinds(t: Input, dirs: map<Key, seq<Entry>>, p: Path)
    requires WellFormed(t) && Stored(t, dirs) && p.In?
    ensures Shown(t, p).Some? ==> Depth(p) <= Height(t.order)
    ensures Lookup(dirs, KeyOf(t, Root), p) == EntryAt(t, p)
  {
    hide AncestorClosed;
    hide Complete;
    hide Shown;
    hide KeyOf;
    hide Find;
    NoDeeper(t, p);
    NoDeeper(t, p.dir);
    if p in t.nodes {
      ParentInTree(t, p);
    }
    if p.dir.In? {
      LookupFinds(t, dirs, p.dir);
    }
    if InTree(t, p.dir) {
      FindIn(t, p);
    }
  }

  lemma ParentInTree(t: Input, p: Path)
    requires AncestorClosed(t.nodes) && p in t.nodes
    ensures p.In? && InTree(t, p.dir)
  {
  }

  /** Flattening the dir objects gives back what the tree should show, at every path. */
  lemma FlattenGivesBack(t: Input, dirs: map<Key, seq<Entry>>, p: Path)
    requires WellFormed(t) && Stored(t, dirs) && p.In?
    ensures Flattened(dirs, KeyOf(t, Root), p) == Shown(t, p)
  {
    hide AncestorClosed;
    hide Shown;
    hide KeyOf;
    LookupFinds(t, dirs, p);
  }
}
