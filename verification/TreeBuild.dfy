/** The loops of the tree build: hardlink groups resolved up front, children per directory, then one
    dir object per directory, deepest first (index.rs, `TreeBuilder::build`). */
module TreeBuild {
  import opened Options
  import opened Tree

  /** The member that stands for a group: the first that reads, or what the index last read of it. */
  method ChooseCanonical(t: Input, members: seq<Path>) returns (c: Choice)
    requires forall m :: m in members ==> m in t.outcomes
    ensures c == Choose(t, members, 0)
  {
    for k := 0 to |members|
      invariant Choose(t, members, 0) == Choose(t, members, k)
    {
      match t.outcomes[members[k]] {
        case Data(content) =>
          return Choice(Some(members[k]), content, false, SetOf(members[..k]));
        case Vanished =>
        case Unreadable =>
          FirstIndexedIs(t, members[k..]);
          var carry := FirstIndexed(t, members[k..]);
          if carry.Some? {
            return Choice(carry, t.index[carry.value], true, SetOf(members[..k]));
          }
          return Choice(None, 0, false, SetOf(members));
      }
    }
    return Choice(None, 0, false, SetOf(members));
  }

  /** Each member's canonical, the canonical's content, and the members left out. */
  datatype Links = Links(of: map<Path, Path>, contents: map<Path, (Content, bool)>, skipped: set<Path>)

  /** The links say of a file what the choice of its group says. */
  predicate Agrees(t: Input, links: Links, p: Path)
    requires Complete(t) && p in t.nodes && t.nodes[p].File?
  {
    if Grouped(t, p) then
      var c := ChoiceOf(t, t.nodes[p].inode);
      && (p in links.skipped <==> c.canonical.None? || p in c.skipped)
      && (p !in links.skipped ==> p in links.of && Some(links.of[p]) == c.canonical)
      && (c.canonical == Some(p) ==> p in links.contents && links.contents[p] == (c.content, c.unread))
    else
      p !in links.of && p !in links.skipped
  }

  predicate IsMember(t: Input, p: Path) {
    p in t.nodes && t.nodes[p].File? && t.nodes[p].links > 1
  }

  /** The members of every inode, so far. */
  ghost predicate Collected(t: Input, order: seq<Path>, groups: map<nat, seq<Path>>) {
    forall i :: Members(t, order, i) == if i in groups then groups[i] else []
  }

  lemma CollectNext(t: Input, order: seq<Path>, p: Path, groups: map<nat, seq<Path>>)
    requires Collected(t, order, groups)
    ensures !IsMember(t, p) ==> Collected(t, order + [p], groups)
    ensures IsMember(t, p) ==>
      var i := t.nodes[p].inode;
      Collected(t, order + [p], groups[i := (if i in groups then groups[i] else []) + [p]])
  {
  }

  /** The paths of each inode with several links, in path order. */
  method Groups(t: Input) returns (groups: map<nat, seq<Path>>)
    ensures forall i :: Members(t, t.order, i) == if i in groups then groups[i] else []
  {
    groups := map[];
    for n := 0 to |t.order|
      invariant Collected(t, t.order[..n], groups)
    {
      var p := t.order[n];
      assert t.order[..n + 1] == t.order[..n] + [p];
      CollectNext(t, t.order[..n], p, groups);
      if IsMember(t, p) {
        var inode := t.nodes[p].inode;
        groups := groups[inode := (if inode in groups then groups[inode] else []) + [p]];
      }
    }
    assert t.order[..|t.order|] == t.order;
  }

  /** Take in one group's choice. */
  function Linked(links: Links, members: seq<Path>, c: Choice): Links {
    if c.canonical.None? then links.(skipped := links.skipped + c.skipped)
    else Links(links.of + map m | m in members && m !in c.skipped :: c.canonical.value,
               links.contents[c.canonical.value := (c.content, c.unread)],
               links.skipped + c.skipped)
  }

  /** The links cover the groups of some inodes, and no other path. */
  ghost predicate Covers(t: Input, links: Links, done: set<nat>)
    requires Complete(t)
  {
    forall p :: p in t.nodes && t.nodes[p].File? ==>
      if t.nodes[p].inode in done then Agrees(t, links, p) else p !in links.of && p !in links.skipped
  }

  lemma LinkedCovers(t: Input, links: Links, done: set<nat>, inode: nat)
    requires Complete(t) && NoDuplicates(t.order) && SetOf(t.order) == t.nodes.Keys
    requires Covers(t, links, done) && inode !in done
    ensures |Members(t, t.order, inode)| > 1 ==>
      Covers(t, Linked(links, Members(t, t.order, inode), ChoiceOf(t, inode)), done + {inode})
    ensures |Members(t, t.order, inode)| <= 1 ==> Covers(t, links, done + {inode})
    ensures forall p :: p in ChoiceOf(t, inode).skipped ==> p in t.nodes && t.nodes[p].File?
  {
    hide Complete;
    hide Choose;
    var members := Members(t, t.order, inode);
    MembersAre(t, t.order, inode);
    MembersDistinct(t, t.order, inode);
    ChooseIs(t, members, 0);
    var c := ChoiceOf(t, inode);
    var next := Linked(links, members, c);
    if |members| > 1 {
      forall p | p in t.nodes && t.nodes[p].File?
        ensures if t.nodes[p].inode in done + {inode} then Agrees(t, next, p) else p !in next.of && p !in next.skipped
      {
        assert p in SetOf(t.order);
        if t.nodes[p].inode == inode {
          assert Agrees(t, next, p);
        } else {
          assert p !in members;
          if t.nodes[p].inode in done {
            AgreesStill(t, links, members, c, p);
          }
        }
      }
    }
  }

  /** A group says nothing of a path outside it. */
  lemma AgreesStill(t: Input, links: Links, members: seq<Path>, c: Choice, p: Path)
    requires Complete(t) && p in t.nodes && t.nodes[p].File? && Agrees(t, links, p)
    requires p !in members && c.skipped <= SetOf(members) && (c.canonical.Some? ==> c.canonical.value in members)
    ensures Agrees(t, Linked(links, members, c), p)
  {
  }

  lemma NoneCovered(t: Input)
    requires Complete(t)
    ensures Covers(t, Links(map[], map[], {}), {})
  {
  }

  /** Once every group is covered, so is every file. */
  lemma AllCovered(t: Input, links: Links, done: set<nat>)
    requires Complete(t) && Covers(t, links, done)
    requires forall i :: i !in done ==> Members(t, t.order, i) == []
    ensures forall p :: p in t.nodes && t.nodes[p].File? ==> Agrees(t, links, p)
  {
  }

  /** Resolve every hardlink group. */
  method ResolveGroups(t: Input) returns (links: Links)
    requires Complete(t) && NoDuplicates(t.order) && SetOf(t.order) == t.nodes.Keys
    ensures forall p :: p in t.nodes && t.nodes[p].File? ==> Agrees(t, links, p)
    ensures forall p :: p in links.skipped ==> p in t.nodes && t.nodes[p].File?
  {
    hide Covers;
    hide Agrees;
    hide Members;
    hide Choose;
    var groups := Groups(t);
    links := Links(map[], map[], {});
    NoneCovered(t);
    var todo, done := groups.Keys, {};
    while todo != {}
      invariant todo !! done && todo + done == groups.Keys
      invariant Covers(t, links, done)
      invariant forall p :: p in links.skipped ==> p in t.nodes && t.nodes[p].File?
      decreases |todo|
    {
      var inode :| inode in todo;
      var members := groups[inode];
      MembersAre(t, t.order, inode);
      LinkedCovers(t, links, done, inode);
      if |members| > 1 {
        var c := ChooseCanonical(t, members);
        links := Linked(links, members, c);
      }
      todo, done := todo - {inode}, done + {inode};
    }
    AllCovered(t, links, done);
  }

  // ----- Children, and the deepest directories first -------------------------------------------

  predicate DeepestFirst(ds: seq<Path>) {
    forall i, j :: 0 <= i < j < |ds| ==> Depth(ds[i]) >= Depth(ds[j])
  }

  function InsertByDepth(d: Path, ds: seq<Path>): (r: seq<Path>)
    requires DeepestFirst(ds)
    ensures DeepestFirst(r)
    ensures forall p :: p in r <==> p == d || p in ds
  {
    if ds == [] || Depth(d) >= Depth(ds[0]) then [d] + ds
    else
      var rest := InsertByDepth(d, ds[1..]);
      assert forall i :: 0 <= i < |rest| ==> rest[i] == d || rest[i] in ds[1..];
      assert forall p :: p in ds <==> p == ds[0] || p in ds[1..];
      [ds[0]] + rest
  }

  function SortByDepth(ds: seq<Path>): (r: seq<Path>)
    ensures DeepestFirst(r)
    ensures forall p :: p in r <==> p in ds
  {
    if ds == [] then []
    else
      assert forall p :: p in ds <==> p == ds[|ds| - 1] || p in ds[..|ds| - 1];
      InsertByDepth(ds[|ds| - 1], SortByDepth(ds[..|ds| - 1]))
  }

  /** Each directory's children, so far. */
  ghost predicate Gathered(order: seq<Path>, children: map<Path, seq<Path>>) {
    forall d :: KidsIn(order, d) == if d in children then children[d] else []
  }

  /** Every directory so far has its list, empty or not, and nothing else does. */
  ghost predicate Directories(t: Input, order: seq<Path>, children: map<Path, seq<Path>>) {
    && Root in children
    && (forall d :: d in children ==> InTree(t, d))
    && (forall p :: p in order && InTree(t, p) ==> p in children)
  }

  function AddChild(children: map<Path, seq<Path>>, p: Path): map<Path, seq<Path>>
    requires p.In?
  {
    children[p.dir := (if p.dir in children then children[p.dir] else []) + [p]]
  }

  function AddDirectory(children: map<Path, seq<Path>>, p: Path): map<Path, seq<Path>> {
    if p in children then children else children[p := []]
  }

  lemma KidsSnoc(order: seq<Path>, p: Path, d: Path)
    ensures KidsIn(order + [p], d) == KidsIn(order, d) + if p.In? && p.dir == d then [p] else []
  {
  }

  lemma GatherNext(order: seq<Path>, p: Path, children: map<Path, seq<Path>>)
    requires Gathered(order, children) && p.In?
    ensures Gathered(order + [p], AddChild(children, p))
    ensures Gathered(order + [p], AddDirectory(AddChild(children, p), p))
  {
    hide KidsIn;
    var next := AddChild(children, p);
    forall d
      ensures KidsIn(order + [p], d) == if d in next then next[d] else []
    {
      KidsSnoc(order, p, d);
    }
  }

  method Children(t: Input) returns (children: map<Path, seq<Path>>)
    requires AncestorClosed(t.nodes) && SetOf(t.order) == t.nodes.Keys
    ensures forall d :: d in children ==> children[d] == KidsIn(t.order, d)
    ensures forall d :: d in children <==> InTree(t, d)
  {
    hide AncestorClosed;
    hide KidsIn;
    hide Gathered;
    children := map[Root := []];
    NoneGathered();
    for n := 0 to |t.order|
      invariant Gathered(t.order[..n], children)
      invariant Directories(t, t.order[..n], children)
    {
      var p := t.order[n];
      assert p in SetOf(t.order);
      assert t.order[..n + 1] == t.order[..n] + [p];
      ParentInTree(t, p);
      GatherNext(t.order[..n], p, children);
      children := AddChild(children, p);
      if IsDirectory(t.nodes[p]) {
        children := AddDirectory(children, p);
      }
    }
    assert t.order[..|t.order|] == t.order;
    AllGathered(t.order, children);
    forall d | InTree(t, d)
      ensures d in children
    {
      assert d.Root? || d in SetOf(t.order);
    }
  }

  lemma NoneGathered()
    ensures Gathered([], map[Root := []])
  {
  }

  lemma AllGathered(order: seq<Path>, children: map<Path, seq<Path>>)
    requires Gathered(order, children)
    ensures forall d :: d in children ==> children[d] == KidsIn(order, d)
  {
  }

  // ----- One object per directory --------------------------------------------------------------

  /** The entry of one child, if it has one. */
  method ChildEntry(t: Input, links: Links, dirKeys: map<Path, Key>, p: Path) returns (e: Option<Entry>)
    requires Complete(t) && p in t.nodes && p.In?
    requires t.nodes[p].File? ==> Agrees(t, links, p)
    requires p in links.skipped ==> t.nodes[p].File?
    requires IsDirectory(t.nodes[p]) ==> p in dirKeys
    ensures e == if Shown(t, p).None? then None
                 else Some(EntryFor(p.name, Shown(t, p).value, if p in dirKeys then dirKeys[p] else Key([])))
  {
    if p in links.skipped {
      return None;
    }
    match t.nodes[p] {
      case Carried(content) =>
        return Some(FileEntry(p.name, content, true));
      case CarriedDir =>
        return if p in dirKeys then Some(DirEntry(p.name, dirKeys[p])) else None;
      case Dir =>
        return if p in dirKeys then Some(DirEntry(p.name, dirKeys[p])) else None;
      case Symlink =>
        return if t.outcomes[p].Data? then Some(SymlinkEntry(p.name, t.outcomes[p].content)) else None;
      case File(_, _) =>
        if p in links.of {
          var canonical := links.of[p];
          if canonical != p {
            return Some(LinkEntry(p.name, canonical));
          }
          return if p in links.contents then Some(FileEntry(p.name, links.contents[p].0, links.contents[p].1)) else None;
        }
        match t.outcomes[p] {
          case Data(content) => return Some(FileEntry(p.name, content, false));
          case Vanished => return None;
          case Unreadable => return if p in t.index then Some(FileEntry(p.name, t.index[p], true)) else None;
        }
    }
  }

  /** The keys of the directories done are theirs. */
  ghost predicate Keyed(t: Input, dirKeys: map<Path, Key>)
    requires Complete(t)
  {
    forall d :: d in dirKeys ==> Depth(d) <= Height(t.order) && dirKeys[d] == KeyOf(t, d)
  }

  /** The object of a directory whose subdirectories are done: not one of their keys is missing. */
  method DirObject(t: Input, links: Links, dirKeys: map<Path, Key>, d: Path, kids: seq<Path>) returns (entries: seq<Entry>)
    requires Complete(t) && Depth(d) <= Height(t.order) && AreKids(t, d, kids)
    requires forall p :: p in kids ==> p in t.nodes && (IsDirectory(t.nodes[p]) ==> p in dirKeys)
    requires forall p :: p in t.nodes && t.nodes[p].File? ==> Agrees(t, links, p)
    requires forall p :: p in links.skipped ==> p in t.nodes && t.nodes[p].File?
    requires Keyed(t, dirKeys)
    ensures entries == EntriesOf(t, d, kids)
  {
    hide Shown;
    hide KeyOf;
    hide Agrees;
    hide Complete;
    entries := [];
    for n := 0 to |kids|
      invariant entries == EntriesOf(t, d, kids[..n])
    {
      var p := kids[n];
      assert kids[..n + 1][..n] == kids[..n];
      OnlyDirectoriesKeyed(t, p);
      var e := ChildEntry(t, links, dirKeys, p);
      if e.Some? {
        entries := entries + [e.value];
      }
    }
    assert kids[..|kids|] == kids;
  }

  lemma OnlyDirectoriesKeyed(t: Input, p: Path)
    requires Complete(t) && p in t.nodes && p.In?
    ensures Shown(t, p).Some? && Shown(t, p).value.IsDir? ==> IsDirectory(t.nodes[p])
    ensures forall leaf: Leaf, k, l :: !leaf.IsDir? ==> EntryFor(p.name, leaf, k) == EntryFor(p.name, leaf, l)
  {
  }

  method ListOf(ds: set<Path>) returns (r: seq<Path>)
    ensures forall p :: p in r <==> p in ds
  {
    r := [];
    var todo := ds;
    while todo != {}
      invariant todo <= ds && forall p :: p in r <==> p in ds - todo
      decreases |todo|
    {
      var p :| p in todo;
      r, todo := r + [p], todo - {p};
    }
  }

  /** Every directory of some list is stored under its key. */
  ghost predicate StoredFor(t: Input, dirs: map<Key, seq<Entry>>, ds: seq<Path>)
    requires Complete(t)
  {
    forall d :: d in ds ==> Depth(d) <= Height(t.order) && KeyOf(t, d) in dirs && dirs[KeyOf(t, d)] == KeyOf(t, d).entries
  }

  lemma StoreNext(t: Input, dirKeys: map<Path, Key>, dirs: map<Key, seq<Entry>>, ds: seq<Path>, d: Path)
    requires Complete(t) && Keyed(t, dirKeys) && StoredFor(t, dirs, ds) && Depth(d) <= Height(t.order)
    ensures Keyed(t, dirKeys[d := KeyOf(t, d)])
    ensures StoredFor(t, dirs[KeyOf(t, d) := KeyOf(t, d).entries], ds + [d])
  {
  }

  /** The object of every directory, from the deepest to the root. */
  method DirObjects(t: Input, links: Links, children: map<Path, seq<Path>>, byDepth: seq<Path>)
    returns (dirKeys: map<Path, Key>, dirs: map<Key, seq<Entry>>)
    requires Complete(t) && SetOf(t.order) == t.nodes.Keys && DeepestFirst(byDepth)
    requires forall d :: d in byDepth <==> InTree(t, d)
    requires forall d :: d in byDepth ==> d in children && children[d] == KidsIn(t.order, d)
    requires forall p :: p in t.nodes && t.nodes[p].File? ==> Agrees(t, links, p)
    requires forall p :: p in links.skipped ==> p in t.nodes && t.nodes[p].File?
    ensures dirKeys.Keys == SetOf(byDepth) && Keyed(t, dirKeys) && StoredFor(t, dirs, byDepth)
  {
    hide Complete;
    hide Agrees;
    hide KeyOf;
    hide Shown;
    hide KidsIn;
    hide Keyed;
    hide StoredFor;
    dirKeys, dirs := map[], map[];
    NoneStored(t);
    for n := 0 to |byDepth|
      invariant dirKeys.Keys == SetOf(byDepth[..n]) && Keyed(t, dirKeys)
      invariant StoredFor(t, dirs, byDepth[..n])
    {
      var d := byDepth[n];
      NoDeeper(t, d);
      KidsDone(t, byDepth, n, dirKeys);
      var entries := DirObject(t, links, dirKeys, d, children[d]);
      KeyIs(t, d, entries);
      StoreNext(t, dirKeys, dirs, byDepth[..n], d);
      dirKeys := dirKeys[d := Key(entries)];
      dirs := dirs[Key(entries) := entries];
      assert byDepth[..n + 1] == byDepth[..n] + [d];
    }
    assert byDepth[..|byDepth|] == byDepth;
  }

  lemma NoneStored(t: Input)
    requires Complete(t)
    ensures Keyed(t, map[]) && StoredFor(t, map[], [])
  {
  }

  lemma AllStored(t: Input, dirKeys: map<Path, Key>, dirs: map<Key, seq<Entry>>, ds: seq<Path>)
    requires Complete(t) && SetOf(t.order) == t.nodes.Keys
    requires forall d :: d in ds <==> InTree(t, d)
    requires dirKeys.Keys == SetOf(ds) && Keyed(t, dirKeys) && StoredFor(t, dirs, ds)
    ensures Stored(t, dirs) && Root in dirKeys && dirKeys[Root] == KeyOf(t, Root)
  {
  }

  /** Build the tree of a listing: flattened, its dir objects give back, at every path, what the tree
      should show. */
  method Build(t: Input) returns (root: Key, dirs: map<Key, seq<Entry>>)
    requires WellFormed(t)
    ensures root == KeyOf(t, Root) && Stored(t, dirs)
    ensures forall p: Path :: p.In? ==> Flattened(dirs, root, p) == Shown(t, p)
  {
    hide AncestorClosed;
    hide Complete;
    hide Agrees;
    hide KeyOf;
    hide Shown;
    hide KidsIn;
    hide Keyed;
    hide StoredFor;
    hide Stored;
    hide Flattened;
    var links := ResolveGroups(t);
    var children := Children(t);
    var list := ListOf(children.Keys);
    var byDepth := SortByDepth(list);
    var dirKeys;
    dirKeys, dirs := DirObjects(t, links, children, byDepth);
    AllStored(t, dirKeys, dirs, byDepth);
    root := dirKeys[Root];
    forall p: Path | p.In?
      ensures Flattened(dirs, root, p) == Shown(t, p)
    {
      FlattenGivesBack(t, dirs, p);
    }
  }

  lemma KeyIs(t: Input, d: Path, entries: seq<Entry>)
    requires Complete(t) && Depth(d) <= Height(t.order) && AreKids(t, d, KidsIn(t.order, d))
    requires entries == EntriesOf(t, d, KidsIn(t.order, d))
    ensures Key(entries) == KeyOf(t, d)
  {
  }

  /** Deepest first: a directory's subdirectories come before it. */
  lemma KidsDone(t: Input, byDepth: seq<Path>, n: nat, dirKeys: map<Path, Key>)
    requires n < |byDepth| && DeepestFirst(byDepth) && SetOf(t.order) == t.nodes.Keys
    requires forall d :: d in byDepth <==> InTree(t, d)
    requires dirKeys.Keys == SetOf(byDepth[..n])
    ensures AreKids(t, byDepth[n], KidsIn(t.order, byDepth[n]))
    ensures forall p :: p in KidsIn(t.order, byDepth[n]) ==> p in t.nodes && (IsDirectory(t.nodes[p]) ==> p in dirKeys)
  {
    var d := byDepth[n];
    KidsAreKids(t, d);
    forall p | p in KidsIn(t.order, d)
      ensures p in t.nodes && (IsDirectory(t.nodes[p]) ==> p in dirKeys)
    {
      KidsAre(t.order, d, p);
      assert p in SetOf(t.order);
      if IsDirectory(t.nodes[p]) {
        assert InTree(t, p) && p in byDepth;
        var i :| 0 <= i < |byDepth| && byDepth[i] == p;
        assert Depth(p) == Depth(d) + 1;
        assert i < n;
        assert p in byDepth[..n];
      }
    }
  }
}
