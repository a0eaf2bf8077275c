/** Paths longer than one system call takes: opening a directory a run of components at a time, and
    walking a tree with an explicit stack (longpath.rs). */
module LongPath {
  import opened Options
  import opened Text

  const PATH_MAX: nat := 4096
  const DOT: byte := 46

  // ----- Opening a directory in runs -----------------------------------------------------------

  /** How many bytes come before the first slash. */
  function NameLength(path: Bytes): (n: nat)
    ensures n <= |path| && (forall i :: 0 <= i < n ==> path[i] != SLASH) && (n < |path| ==> path[n] == SLASH)
  {
    if path == [] || path[0] == SLASH then 0 else 1 + NameLength(path[1..])
  }

  /** The names a path goes through. */
  function Components(path: Bytes): seq<Bytes>
    decreases |path|
  {
    if path == [] then []
    else if path[0] == SLASH then Components(path[1..])
    else [path[..NameLength(path)]] + Components(path[NameLength(path)..])
  }

  predicate Absolute(path: Bytes) {
    path != [] && path[0] == SLASH
  }

  /** Where opening runs one after the other leads: from the root or not, through these names. */
  datatype Place = Place(absolute: bool, names: seq<Bytes>)

  function Opened(base: Place, run: Bytes): Place {
    if Absolute(run) then Place(true, Components(run)) else Place(base.absolute, base.names + Components(run))
  }

  function OpenedAll(base: Place, runs: seq<Bytes>): Place {
    if runs == [] then base else Opened(OpenedAll(base, runs[..|runs| - 1]), runs[|runs| - 1])
  }

  lemma NameLengthIs(path: Bytes, n: nat)
    requires n <= |path| && (forall i :: 0 <= i < n ==> path[i] != SLASH) && (n < |path| ==> path[n] == SLASH)
    ensures NameLength(path) == n
  {
  }

  /** A slash parts the names. */
  lemma {:induction false} SlashParts(a: Bytes, b: Bytes)
    ensures Components(a + [SLASH] + b) == Components(a) + Components(b)
    decreases |a|
  {
    var all := a + [SLASH] + b;
    if a == [] {
      assert all[1..] == b;
    } else if a[0] == SLASH {
      assert all[1..] == a[1..] + [SLASH] + b;
      SlashParts(a[1..], b);
    } else {
      var n := NameLength(a);
      assert forall i :: 0 <= i < |a| ==> all[i] == a[i];
      assert all[|a|] == SLASH;
      NameLengthIs(all, n);
      assert all[..n] == a[..n];
      assert all[n..] == a[n..] + [SLASH] + b;
      SlashParts(a[n..], b);
    }
  }

  /** What is left of a path after its leading slashes. */
  function Trimmed(path: Bytes): (t: Bytes)
    ensures |t| <= |path| && !Absolute(t) && Components(t) == Components(path)
  {
    if Absolute(path) then Trimmed(path[1..]) else path
  }

  /** Every name is short enough to be opened with others. */
  predicate ShortNames(path: Bytes) {
    forall i :: 0 <= i < |Components(path)| ==> |Components(path)[i]| < PATH_MAX - 1
  }

  /** A path that does not fit starts with a short name, so a slash comes within the window. */
  lemma SlashWithin(path: Bytes)
    requires |path| >= PATH_MAX && ShortNames(path)
    ensures SLASH in path[..PATH_MAX - 1]
  {
    if path[0] == SLASH {
      assert path[..PATH_MAX - 1][0] == SLASH;
    } else {
      var n := NameLength(path);
      assert Components(path)[0] == path[..n];
      assert path[..PATH_MAX - 1][n] == SLASH;
    }
  }

  lemma ShortRest(path: Bytes, run: Bytes, next: Bytes)
    requires Components(path) == Components(run) + Components(next) && ShortNames(path)
    ensures ShortNames(next)
  {
    forall i | 0 <= i < |Components(next)|
      ensures |Components(next)[i]| < PATH_MAX - 1
    {
      assert Components(next)[i] == Components(path)[|Components(run)| + i];
    }
  }

  /** The longest run of whole components that fits, and what follows it. */
  method NextRun(path: Bytes) returns (r: Option<(Bytes, Bytes)>)
    requires path != []
    ensures ShortNames(path) ==> r.Some?
    ensures r.Some? ==> 0 < |r.value.0| < PATH_MAX && |r.value.1| < |path|
    ensures r.Some? ==> Components(path) == Components(r.value.0) + Components(r.value.1)
    ensures r.Some? ==> Absolute(r.value.0) == Absolute(path)
    ensures r.Some? && |path| >= PATH_MAX ==> forall j :: |path| - |r.value.1| <= j < PATH_MAX - 1 ==> path[j] != SLASH
  {
    hide Components;
    if |path| < PATH_MAX {
      NoComponents();
      return Some((path, []));
    }
    if ShortNames(path) {
      SlashWithin(path);
    }
    var last := LastSlash(path[..PATH_MAX - 1]);
    if last.None? {
      return None;
    }
    var i := last.value;
    Split(path, i);
    return Some((if i == 0 then [SLASH] else path[..i], path[i + 1..]));
  }

  lemma NoComponents()
    ensures Components([]) == []
  {
  }

  /** Open a directory a run of whole components at a time. Each run fits one call, and together they lead
      where the path does; a path of short names never fails. */
  method OpenDir(dir: Bytes) returns (runs: Option<seq<Bytes>>)
    ensures ShortNames(dir) ==> runs.Some?
    ensures runs.Some? ==> forall i :: 0 <= i < |runs.value| ==> 0 < |runs.value[i]| < PATH_MAX
    ensures runs.Some? && dir != [] ==> OpenedAll(Place(false, []), runs.value) == Place(Absolute(dir), Components(dir))
    ensures dir == [] ==> runs == Some([[DOT]])
  {
    hide Components;
    hide ShortNames;
    hide OpenedAll;
    if dir == [] {
      return Some([[DOT]]);
    }
    var done: seq<Bytes> := [];
    var rest := dir;
    ghost var at := Place(false, []);
    OpenNone();
    NoComponents();
    while true
      invariant at == OpenedAll(Place(false, []), done)
      invariant rest != [] && (if done == [] then rest == dir && at == Place(false, []) else !Absolute(rest) && at.absolute == Absolute(dir))
      invariant at.names + Components(rest) == Components(dir)
      invariant forall i :: 0 <= i < |done| ==> 0 < |done[i]| < PATH_MAX
      invariant ShortNames(dir) ==> ShortNames(rest)
      decreases |rest|
    {
      var r := NextRun(rest);
      if r.None? {
        return None;
      }
      var (run, next) := r.value;
      if ShortNames(rest) {
        ShortRest(rest, run, next);
        ShortTrimmed(next);
      }
      OpenOne(done, run);
      at := Opened(at, run);
      done := done + [run];
      rest := Trimmed(next);
      if rest == [] {
        return Some(done);
      }
    }
  }

  lemma OpenNone()
    ensures OpenedAll(Place(false, []), []) == Place(false, [])
  {
  }

  lemma ShortTrimmed(path: Bytes)
    ensures ShortNames(Trimmed(path)) == ShortNames(path)
  {
  }

  lemma OpenOne(runs: seq<Bytes>, run: Bytes)
    ensures OpenedAll(Place(false, []), runs + [run]) == Opened(OpenedAll(Place(false, []), runs), run)
  {
  }

  lemma Split(rest: Bytes, i: nat)
    requires i < |rest| && rest[i] == SLASH
    ensures Components(rest) == Components(rest[..i]) + Components(rest[i + 1..])
    ensures Components([SLASH]) == []
    ensures i == 0 ==> Components(rest[..i]) == []
  {
    assert rest == rest[..i] + [SLASH] + rest[i + 1..];
    SlashParts(rest[..i], rest[i + 1..]);
  }

  // ----- Walking a tree ------------------------------------------------------------------------

  /** A name by its place in byte order. */
  type Name = nat

  type Path = seq<Name>

  datatype Kind = Dir | File | Symlink | Other

  /** What is at a path: its kind, whether the listing gives it, whether it can be stat'ed, and what listing
      it as a directory gives. */
  datatype Node = Node(kind: Kind, given: bool, stats: bool, listing: Listing)

  datatype Listing = Unlistable | Listed(children: Children)

  datatype Children = Nil | Cons(name: Name, node: Node, rest: Children)

  datatype Visit = Entry(path: Path, depth: nat, kind: Kind) | Error(path: Path, depth: nat)

  /** How many paths a tree holds. */
  function Size(n: Node): (size: nat)
    ensures size > 0
  {
    1 + if n.listing.Listed? then Sizes(n.listing.children) else 0
  }

  function Sizes(cs: Children): nat {
    match cs
    case Nil => 0
    case Cons(_, node, rest) => Size(node) + Sizes(rest)
  }

  predicate Ascending(cs: Children) {
    cs.Cons? && cs.rest.Cons? ==> cs.name <= cs.rest.name && Ascending(cs.rest)
  }

  ghost function Elements(cs: Children): multiset<(Name, Node)> {
    match cs
    case Nil => multiset{}
    case Cons(name, node, rest) => multiset{(name, node)} + Elements(rest)
  }

  function Insert(name: Name, node: Node, cs: Children): (r: Children)
    requires Ascending(cs)
    ensures Ascending(r) && Elements(r) == Elements(cs) + multiset{(name, node)} && Sizes(r) == Sizes(cs) + Size(node)
    ensures r.Cons? && (r.name == name || (cs.Cons? && r.name == cs.name))
  {
    if cs.Nil? || name <= cs.name then Cons(name, node, cs) else Cons(cs.name, cs.node, Insert(name, node, cs.rest))
  }

  /** A directory's entries in the byte order of their names. */
  function ByName(cs: Children): (r: Children)
    ensures Ascending(r) && Elements(r) == Elements(cs) && Sizes(r) == Sizes(cs)
  {
    match cs
    case Nil => Nil
    case Cons(name, node, rest) => Insert(name, node, ByName(rest))
  }

  /** What a recursive walk visits at a path: the entry, or the error when its kind cannot be told; then, if it
      is a directory and `descend` says so, what is below it. */
  function Visits(descend: Path -> bool, path: Path, depth: nat, n: Node): seq<Visit>
    decreases Size(n), 0
  {
    if !n.given && !n.stats then [Error(path, depth)]
    else [Entry(path, depth, n.kind)] + if n.kind.Dir? && descend(path) then Below(descend, path, depth, n.listing) else []
  }

  /** What it visits below a directory, names in byte order; the error when it cannot be listed. */
  function Below(descend: Path -> bool, dir: Path, depth: nat, listing: Listing): seq<Visit>
    decreases if listing.Listed? then Sizes(listing.children) else 0, 2
  {
    match listing
    case Unlistable => [Error(dir, depth)]
    case Listed(children) => VisitsAll(descend, dir, depth, ByName(children))
  }

  function VisitsAll(descend: Path -> bool, dir: Path, depth: nat, cs: Children): seq<Visit>
    decreases Sizes(cs), 1
  {
    match cs
    case Nil => []
    case Cons(name, node, rest) => Visits(descend, dir + [name], depth + 1, node) + VisitsAll(descend, dir, depth, rest)
  }

  datatype Item = Item(path: Path, depth: nat, node: Node)

  /** What popping the stack to its end visits. */
  ghost function Pending(descend: Path -> bool, stack: seq<Item>): seq<Visit> {
    if stack == [] then []
    else
      var top := stack[|stack| - 1];
      Visits(descend, top.path, top.depth, top.node) + Pending(descend, stack[..|stack| - 1])
  }

  ghost function StackSize(stack: seq<Item>): nat {
    if stack == [] then 0 else Size(stack[|stack| - 1].node) + StackSize(stack[..|stack| - 1])
  }

  function Items(dir: Path, depth: nat, cs: Children): seq<Item> {
    match cs
    case Nil => []
    case Cons(name, node, rest) => [Item(dir + [name], depth + 1, node)] + Items(dir, depth, rest)
  }

  /** Pushing one more. */
  lemma PendingPush(descend: Path -> bool, stack: seq<Item>, top: Item)
    ensures Pending(descend, stack + [top]) == Visits(descend, top.path, top.depth, top.node) + Pending(descend, stack)
    ensures StackSize(stack + [top]) == Size(top.node) + StackSize(stack)
  {
  }

  function Reversed(items: seq<Item>): (r: seq<Item>)
    ensures |r| == |items|
  {
    if items == [] then [] else Reversed(items[1..]) + [items[0]]
  }

  /** Children pushed in reverse order are visited in order. */
  lemma {:induction false} PendingChildren(descend: Path -> bool, stack: seq<Item>, dir: Path, depth: nat, cs: Children)
    ensures Pending(descend, stack + Reversed(Items(dir, depth, cs))) == VisitsAll(descend, dir, depth, cs) + Pending(descend, stack)
    ensures StackSize(stack + Reversed(Items(dir, depth, cs))) == Sizes(cs) + StackSize(stack)
    decreases cs
  {
    hide Pending;
    hide StackSize;
    hide Visits;
    match cs
    case Nil =>
      assert stack + [] == stack;
    case Cons(name, node, rest) =>
      var top := Item(dir + [name], depth + 1, node);
      var items := Items(dir, depth, cs);
      assert items[1..] == Items(dir, depth, rest);
      PendingChildren(descend, stack, dir, depth, rest);
      PendingPush(descend, stack + Reversed(items[1..]), top);
      assert stack + Reversed(items) == (stack + Reversed(items[1..])) + [top];
  }

  method PushReversed(stack: seq<Item>, items: seq<Item>) returns (pushed: seq<Item>)
    ensures pushed == stack + Reversed(items)
  {
    pushed := stack;
    for k := |items| downto 0
      invariant pushed == stack + Reversed(items[k..])
    {
      assert items[k..][0] == items[k] && items[k..][1..] == items[k + 1..];
      pushed := pushed + [items[k]];
    }
    assert items[0..] == items;
  }

  /** List a directory and push what it holds, or visit the error. */
  method Push(descend: Path -> bool, stack: seq<Item>, dir: Path, depth: nat, listing: Listing)
    returns (pushed: seq<Item>, visits: seq<Visit>)
    ensures visits + Pending(descend, pushed) == Below(descend, dir, depth, listing) + Pending(descend, stack)
    ensures StackSize(pushed) == StackSize(stack) + if listing.Listed? then Sizes(listing.children) else 0
  {
    hide Pending;
    hide StackSize;
    hide VisitsAll;
    hide Items;
    hide Reversed;
    match listing {
      case Unlistable =>
        return stack, [Error(dir, depth)];
      case Listed(children) =>
        var names := ByName(children);
        PendingChildren(descend, stack, dir, depth, names);
        pushed := PushReversed(stack, Items(dir, depth, names));
        visits := [];
        assert visits + Pending(descend, pushed) == Pending(descend, pushed);
    }
  }

  lemma Glue(visits: seq<Visit>, e: Visit, more: seq<Visit>, pushed: seq<Visit>, below: seq<Visit>, rest: seq<Visit>)
    requires more + pushed == below + rest
    ensures visits + [e] + more + pushed == visits + ([e] + below + rest)
  {
    assert visits + [e] + more + pushed == visits + [e] + (more + pushed);
  }

  /** Visit the top of the stack, and push what is below it. */
  method VisitTop(descend: Path -> bool, stack: seq<Item>, visits: seq<Visit>) returns (rest: seq<Item>, now: seq<Visit>)
    requires stack != []
    ensures now + Pending(descend, rest) == visits + Pending(descend, stack)
    ensures StackSize(rest) < StackSize(stack)
  {
    var top := stack[|stack| - 1];
    rest := stack[..|stack| - 1];
    VisitIs(descend, top.path, top.depth, top.node);
    ghost var below := Pending(descend, rest);
    hide Visits;
    hide Below;
    if !top.node.given && !top.node.stats {
      now := visits + [Error(top.path, top.depth)];
      return;
    }
    var e := Entry(top.path, top.depth, top.node.kind);
    now := visits + [e];
    if top.node.kind.Dir? && descend(top.path) {
      var more;
      rest, more := Push(descend, rest, top.path, top.depth, top.node.listing);
      Glue(visits, e, more, Pending(descend, rest), Below(descend, top.path, top.depth, top.node.listing), below);
      now := now + more;
    }
  }

  /** Walk a tree with a stack: the visits are the recursive walk's, errors in place. */
  method Walk(descend: Path -> bool, root: Listing) returns (visits: seq<Visit>)
    ensures visits == Below(descend, [], 0, root)
  {
    hide Below;
    var stack;
    stack, visits := Push(descend, [], [], 0, root);
    assert Pending(descend, []) == [];
    while stack != []
      invariant visits + Pending(descend, stack) == Below(descend, [], 0, root)
      decreases StackSize(stack)
    {
      stack, visits := VisitTop(descend, stack, visits);
    }
  }

  lemma VisitIs(descend: Path -> bool, path: Path, depth: nat, n: Node)
    ensures Visits(descend, path, depth, n) ==
      if !n.given && !n.stats then [Error(path, depth)]
      else if n.kind.Dir? && descend(path) then [Entry(path, depth, n.kind)] + Below(descend, path, depth, n.listing)
      else [Entry(path, depth, n.kind)]
  {
  }
}
