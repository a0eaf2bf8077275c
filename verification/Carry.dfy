/** What a build carries from the index under paths it could not read: each file, and the directories it
    needs up to the nearest one there is (index.rs, the start of `TreeBuilder::build`). */
module Carry {
  import opened Tree

  /** The directories missing above a path, up to the nearest node. */
  function Missing(nodes: map<Path, Node>, at: Path): set<Path> {
    if at.Root? || at in nodes then {} else {at} + Missing(nodes, at.dir)
  }

  /** The nearest node above a path, or the root. */
  function Nearest(nodes: map<Path, Node>, at: Path): Path {
    if at.Root? || at in nodes then at else Nearest(nodes, at.dir)
  }

  predicate Stands(nodes: map<Path, Node>, p: Path) {
    p.Root? || (p in nodes && IsDirectory(nodes[p]))
  }

  function WithDirectories(nodes: map<Path, Node>, dirs: set<Path>): map<Path, Node> {
    nodes + map d | d in dirs :: CarriedDir
  }

  /** The nodes once a file is carried: the directories missing above it, and the file itself when the
      nearest node above it is a directory. */
  function AfterCarry(nodes: map<Path, Node>, v: Path, content: Content): map<Path, Node>
    requires v.In?
  {
    var all := WithDirectories(nodes, Missing(nodes, v.dir));
    if Stands(nodes, Nearest(nodes, v.dir)) then all[v := Carried(content)] else all
  }

  lemma {:induction false} MissingAre(nodes: map<Path, Node>, at: Path)
    ensures forall d :: d in Missing(nodes, at) ==> d.In? && d !in nodes && Depth(d) <= Depth(at)
    ensures forall d :: d in Missing(nodes, at) ==> d.dir in Missing(nodes, at) || d.dir == Nearest(nodes, at)
    ensures Missing(nodes, at) == {} <==> Nearest(nodes, at) == at
    ensures Missing(nodes, at) != {} ==>
      at in Missing(nodes, at) && exists d :: d in Missing(nodes, at) && d.dir == Nearest(nodes, at)
    ensures Nearest(nodes, at).Root? || Nearest(nodes, at) in nodes
  {
    if at.In? && at !in nodes {
      MissingAre(nodes, at.dir);
      if Missing(nodes, at.dir) == {} {
        assert at in Missing(nodes, at) && at.dir == Nearest(nodes, at);
      }
    }
  }

  /** Walk up from the file, adding the directories that are missing. */
  method CarryOne(nodes: map<Path, Node>, v: Path, content: Content) returns (all: map<Path, Node>, carried: bool)
    requires v.In?
    ensures all == AfterCarry(nodes, v, content)
    ensures carried <==> Stands(nodes, Nearest(nodes, v.dir))
  {
    var at, added: set<Path> := v.dir, {};
    while at.In? && at !in nodes
      invariant added !! Missing(nodes, at) && added + Missing(nodes, at) == Missing(nodes, v.dir)
      invariant Nearest(nodes, at) == Nearest(nodes, v.dir)
      invariant forall d :: d in added ==> Depth(d) > Depth(at)
      decreases at
    {
      MissingAre(nodes, at.dir);
      added := added + {at};
      at := at.dir;
    }
    all := WithDirectories(nodes, added);
    carried := at.Root? || IsDirectory(nodes[at]);
    if carried {
      all := all[v := Carried(content)];
    }
  }

  /** Carrying a file keeps the nodes ancestor-closed, except when the nearest node above it is no directory
      and lies further up than its parent: then the directories added hang under that node. */
  lemma CarryKeepsClosed(nodes: map<Path, Node>, v: Path, content: Content)
    requires AncestorClosed(nodes) && v.In? && v !in nodes
    ensures AncestorClosed(AfterCarry(nodes, v, content)) <==> Stands(nodes, Nearest(nodes, v.dir)) || v.dir in nodes
  {
    var near, missing, all := Nearest(nodes, v.dir), Missing(nodes, v.dir), AfterCarry(nodes, v, content);
    MissingAre(nodes, v.dir);
    if Stands(nodes, near) || v.dir in nodes {
      forall p | p in all
        ensures p.In? && (p.dir.In? ==> p.dir in all && IsDirectory(all[p.dir]))
      {
        KeptParent(nodes, v, content, p);
      }
    } else {
      var d :| d in missing && d.dir == near;
      assert d in all && near in nodes && all[near] == nodes[near];
      assert d.dir.In? && !IsDirectory(all[d.dir]);
    }
  }

  lemma KeptParent(nodes: map<Path, Node>, v: Path, content: Content, p: Path)
    requires AncestorClosed(nodes) && v.In? && v !in nodes && p in AfterCarry(nodes, v, content)
    requires Stands(nodes, Nearest(nodes, v.dir)) || v.dir in nodes
    ensures var all := AfterCarry(nodes, v, content); p.In? && (p.dir.In? ==> p.dir in all && IsDirectory(all[p.dir]))
  {
    MissingAre(nodes, v.dir);
    var missing := Missing(nodes, v.dir);
    assert v !in missing;
  }

  /** A node hangs under one that is no directory. */
  predicate Hangs(nodes: map<Path, Node>) {
    exists p :: p in nodes && p.In? && p.dir in nodes && !IsDirectory(nodes[p.dir])
  }

  predicate Extends(nodes: map<Path, Node>, all: map<Path, Node>) {
    forall p :: p in nodes ==> p in all && all[p] == nodes[p]
  }

  /** Carrying changes no node, so what hangs goes on hanging. */
  lemma CarryExtends(nodes: map<Path, Node>, v: Path, content: Content)
    requires v.In? && v !in nodes
    ensures Extends(nodes, AfterCarry(nodes, v, content))
    ensures Hangs(nodes) ==> Hangs(AfterCarry(nodes, v, content))
    ensures !Stands(nodes, Nearest(nodes, v.dir)) && v.dir !in nodes ==> Hangs(AfterCarry(nodes, v, content))
  {
    var all := AfterCarry(nodes, v, content);
    MissingAre(nodes, v.dir);
    if Hangs(nodes) {
      var p :| p in nodes && p.In? && p.dir in nodes && !IsDirectory(nodes[p.dir]);
      assert all[p.dir] == nodes[p.dir];
    }
    if !Stands(nodes, Nearest(nodes, v.dir)) && v.dir !in nodes {
      var d :| d in Missing(nodes, v.dir) && d.dir == Nearest(nodes, v.dir);
      assert d in all && all[d.dir] == nodes[d.dir];
    }
  }

  lemma ClosedOrHanging(nodes: map<Path, Node>)
    requires AncestorClosed(nodes)
    ensures !Hangs(nodes)
  {
  }

  /** The nodes once every file is carried in turn; one that is a node already is left. */
  function CarriedAll(nodes: map<Path, Node>, files: seq<(Path, Content)>): map<Path, Node>
    requires forall i :: 0 <= i < |files| ==> files[i].0.In?
  {
    if files == [] then nodes
    else
      var before, (v, content) := CarriedAll(nodes, files[..|files| - 1]), files[|files| - 1];
      if v in before then before else AfterCarry(before, v, content)
  }

  /** A file that would leave directories hanging: the nearest node above it is no directory, and lies above
      its parent. */
  predicate GoesPast(nodes: map<Path, Node>, v: Path)
    requires v.In?
  {
    v !in nodes && !Stands(nodes, Nearest(nodes, v.dir)) && v.dir !in nodes
  }

  /** Some file goes past a node that is no directory, among the nodes and the files carried before it. */
  predicate AnyGoesPast(nodes: map<Path, Node>, files: seq<(Path, Content)>)
    requires forall i :: 0 <= i < |files| ==> files[i].0.In?
  {
    files != [] &&
    (AnyGoesPast(nodes, files[..|files| - 1]) || GoesPast(CarriedAll(nodes, files[..|files| - 1]), files[|files| - 1].0))
  }

  /** Carrying keeps every node, and keeps the nodes ancestor-closed exactly when no file goes past one that is
      no directory. */
  lemma {:induction false} CarriedAllStaysClosed(nodes: map<Path, Node>, files: seq<(Path, Content)>)
    requires AncestorClosed(nodes) && forall i :: 0 <= i < |files| ==> files[i].0.In?
    ensures Extends(nodes, CarriedAll(nodes, files))
    ensures AncestorClosed(CarriedAll(nodes, files)) <==> !AnyGoesPast(nodes, files)
    ensures AnyGoesPast(nodes, files) ==> Hangs(CarriedAll(nodes, files))
    decreases |files|
  {
    hide AncestorClosed;
    hide Hangs;
    hide AfterCarry;
    if files != [] {
      var front, v, content := files[..|files| - 1], files[|files| - 1].0, files[|files| - 1].1;
      CarriedAllStaysClosed(nodes, front);
      var before := CarriedAll(nodes, front);
      if v !in before {
        CarryExtends(before, v, content);
        if !AnyGoesPast(nodes, front) {
          CarryKeepsClosed(before, v, content);
        }
      }
      if AncestorClosed(CarriedAll(nodes, files)) {
        ClosedOrHanging(CarriedAll(nodes, files));
      }
    }
  }

  /** Carry every file the index holds under the unreadable paths, in turn. */
  method CarryAll(nodes: map<Path, Node>, files: seq<(Path, Content)>) returns (all: map<Path, Node>, carried: set<Path>)
    requires forall i :: 0 <= i < |files| ==> files[i].0.In?
    ensures all == CarriedAll(nodes, files)
    ensures forall v :: v in carried <==> v in all && v !in nodes && all[v].Carried?
  {
    all, carried := nodes, {};
    for i := 0 to |files|
      invariant all == CarriedAll(nodes, files[..i]) && Extends(nodes, all)
      invariant forall v :: v in carried <==> v in all && v !in nodes && all[v].Carried?
    {
      var (v, content) := files[i];
      assert files[..i + 1][..i] == files[..i];
      if v !in all {
        CarryExtends(all, v, content);
        var stood;
        all, stood := CarryOne(all, v, content);
        if stood {
          carried := carried + {v};
        }
      }
    }
    assert files[..|files|] == files;
  }

  /** A stale index can do it: a file where a directory was, and a file once two levels below it. */
  lemma StaleEntryHangs()
    ensures var file := In(Root, 0);
      var nodes := map[file := Carried(0)];
      var v := In(In(file, 1), 2);
      AncestorClosed(nodes) && !AncestorClosed(AfterCarry(nodes, v, 0))
  {
    var file := In(Root, 0);
    var nodes := map[file := Carried(0)];
    var v := In(In(file, 1), 2);
    CarryKeepsClosed(nodes, v, 0);
  }
}
