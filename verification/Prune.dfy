/**
 From the tree on disk to what is left of it: the walk, the filters and the pipeline together do what a recursive
 prune of the tree does, and nothing outside the tree is ever handed to the engine.
 */
module Prune {
  import opened Wrappers
  import opened Filter
  import opened Walk
  import P = Pipeline
  import PipelineSafety
  import Pruning = PipelinePrune

  // ---------------------------------------------------------------------------------------------------------------
  // The recursive prune
  // ---------------------------------------------------------------------------------------------------------------

  function AsFile(n: Node): FileEntry {
    FileEntry(n.name, n.size, n.times)
  }

  /** Something is left of the node: a file or link the filters retain, or a directory with such a thing in it. */
  predicate Stays(f: FilterSet, n: Node) {
    if n.IsRealDir() then exists k: nat :: k < |n.children| && Stays(f, n.children[k])
    else f.EvaluateFile(AsFile(n)) != Delete
  }

  /** What is left of a node. */
  function Pruned(f: FilterSet, n: Node): Node
    decreases n, |n.children| + 1
  {
    if n.IsRealDir() then n.(children := PrunedFirst(f, n, |n.children|)) else n
  }

  function PrunedFirst(f: FilterSet, n: Node, k: nat): seq<Node>
    requires k <= |n.children|
    decreases n, k
  {
    if k == 0 then []
    else PrunedFirst(f, n, k - 1) + if Stays(f, n.children[k - 1]) then [Pruned(f, n.children[k - 1])] else []
  }

  /** The paths of everything below a node that lies at `at`. */
  function Paths(n: Node, at: Path): set<Path>
    decreases n, |n.children| + 1
  {
    if n.IsRealDir() then PathsFirst(n, at, |n.children|) else {}
  }

  function PathsFirst(n: Node, at: Path, k: nat): set<Path>
    requires k <= |n.children|
    decreases n, k
  {
    if k == 0 then {}
    else
      PathsFirst(n, at, k - 1) + {at + [n.children[k - 1].name]}
      + Paths(n.children[k - 1], at + [n.children[k - 1].name])
  }

  /** p is the path of node c, or of something below it. */
  predicate AtOrBelow(p: Path, c: Node, at: Path) {
    p == at + [c.name] || p in Paths(c, at + [c.name])
  }

  lemma {:induction false} InPathsFirst(n: Node, at: Path, k: nat, p: Path)
    requires k <= |n.children|
    ensures p in PathsFirst(n, at, k) <==> exists j: nat :: j < k && AtOrBelow(p, n.children[j], at)
  {
    if k > 0 {
      InPathsFirst(n, at, k - 1, p);
    }
  }

  lemma {:induction false} InPrunedFirst(f: FilterSet, n: Node, k: nat, m: Node)
    requires k <= |n.children|
    ensures m in PrunedFirst(f, n, k)
            <==> exists j: nat :: j < k && Stays(f, n.children[j]) && Pruned(f, n.children[j]) == m
  {
    if k > 0 {
      InPrunedFirst(f, n, k - 1, m);
    }
  }

  /** A path below what is left of a directory leads to, or below, a child that stays. */
  lemma {:induction false} InPruned(f: FilterSet, n: Node, at: Path, p: Path)
    requires n.IsRealDir()
    ensures p in Paths(Pruned(f, n), at)
            <==> exists c :: c in n.children && Stays(f, c) && AtOrBelow(p, Pruned(f, c), at)
  {
    var m := Pruned(f, n);
    InPathsFirst(m, at, |m.children|, p);
    if p in Paths(m, at) {
      var j: nat :| j < |m.children| && AtOrBelow(p, m.children[j], at);
      assert m.children[j] in m.children;
      InPrunedFirst(f, n, |n.children|, m.children[j]);
    }
    if c :| c in n.children && Stays(f, c) && AtOrBelow(p, Pruned(f, c), at) {
      InPrunedFirst(f, n, |n.children|, Pruned(f, c));
      var j: nat :| j < |m.children| && m.children[j] == Pruned(f, c);
    }
  }

  // ---------------------------------------------------------------------------------------------------------------
  // Entries and nodes
  // ---------------------------------------------------------------------------------------------------------------

  predicate NeverFails(p: Path) {
    false
  }

  /** The file that the filters are shown for entry i. */
  function FileAt(es: seq<EnumEvent>, i: nat): FileEntry
    requires 0 < i <= |es| && es[i - 1].Entry? && |es[i - 1].path| > 0
  {
    var e := es[i - 1];
    FileEntry(e.path[|e.path| - 1], e.size, e.times)
  }

  predicate Retains(f: FilterSet, es: seq<EnumEvent>, i: nat) {
    && 0 < i <= |es| && es[i - 1].Entry? && |es[i - 1].path| > 0
    && f.EvaluateFile(FileAt(es, i)) != Delete
  }

  /** The pipeline runs on this stream with these filters. */
  ghost predicate Configured(c: P.Config, f: FilterSet, es: seq<EnumEvent>) {
    && c.evs == StreamOf(es)
    && c.preserveRoot == !f.IsNoop()
    && forall i: nat :: i in c.retain <==> P.IsLeaf(c.evs, i) && Retains(f, es, i)
  }

  lemma {:induction false} EventAt(es: seq<EnumEvent>, i: nat)
    requires i < |es|
    ensures StreamOf(es)[i + 1].Directory? <==> IsDirEntry(es[i])
    ensures StreamOf(es)[i + 1].Leaf? <==> es[i].Entry? && !IsDirEntry(es[i])
    ensures StreamOf(es)[i + 1].Unlistable? <==> es[i].Error?
    ensures StreamOf(es)[i + 1].Leaf? ==>
              StreamOf(es)[i + 1].size == es[i].size
              && (StreamOf(es)[i + 1].asDir <==> es[i].kind.Symlink? && es[i].kind.reparseIsDir)
  {
    if i < |es| - 1 {
      EventAt(es[..|es| - 1], i);
    }
  }

  /** A directory entry is a real directory, and a leaf is not; both are children of their parent's node. */
  lemma {:induction false} NodeOfEntry(
    root: Node, fails: Path -> bool, es: seq<EnumEvent>, evs: P.Stream, nodes: seq<Node>, i: nat, d: nat)
    requires Described(root, fails, es, evs, nodes) && evs == StreamOf(es) && P.ChildOf(evs, i, d)
    ensures d < i <= |es| && es[i - 1].Entry? && DescribedAt(fails, es, evs, nodes, i - 1)
    ensures P.IsDir(evs, i) <==> nodes[i].IsRealDir()
    ensures nodes[i] in nodes[d].children && PathAt(es, i) == PathAt(es, d) + [nodes[i].name]
  {
    EventAt(es, i - 1);
    assert DescribedAt(fails, es, evs, nodes, i - 1);
  }

  lemma {:induction false} FiltersAgree(c: P.Config, f: FilterSet, es: seq<EnumEvent>)
    requires Configured(c, f, es)
    ensures Pruning.FiltersAgree(c)
  {
    if f.IsNoop() {
      forall i | i in c.retain ensures false {
        f.NoopDeletesAll(FileAt(es, i));
      }
    }
  }

  lemma {:induction false} LeafKept(
    c: P.Config, f: FilterSet, root: Node, es: seq<EnumEvent>, nodes: seq<Node>, i: nat, d: nat)
    requires Configured(c, f, es) && Described(root, NeverFails, es, c.evs, nodes)
    requires P.IsLeaf(c.evs, i) && P.ChildOf(c.evs, i, d)
    ensures Pruning.Kept(c, i) <==> Stays(f, nodes[i])
  {
    NodeOfEntry(root, NeverFails, es, c.evs, nodes, i, d);
    assert FileAt(es, i) == AsFile(nodes[i]);
  }

  /** The listing of a directory that could be listed is what the stream says about it. */
  lemma {:induction false} KidsAreChildren(
    root: Node, es: seq<EnumEvent>, evs: P.Stream, nodes: seq<Node>, d: nat, m: Node)
    requires Covers(root, NeverFails, es, nodes) && evs == StreamOf(es) && P.IsDir(evs, d)
    ensures |nodes| == |evs|
    ensures m in nodes[d].children <==> exists j: nat :: P.ChildOf(evs, j, d) && nodes[j] == m
  {
    assert LaidAt(NeverFails, es, evs, nodes, {}, Nothing, d);
    KidNodesIn(evs, nodes, d, m);
  }

  /** The pipeline's reference and the tree's agree. */
  lemma {:induction false} KeptIsStays(
    c: P.Config, f: FilterSet, root: Node, es: seq<EnumEvent>, nodes: seq<Node>, i: nat)
    requires Configured(c, f, es) && Covers(root, NeverFails, es, nodes) && root.IsRealDir() && P.IsEntry(c.evs, i)
    ensures |nodes| == |c.evs|
    ensures Pruning.Kept(c, i) <==> (i == 0 && c.preserveRoot) || Stays(f, nodes[i])
    decreases |c.evs| - i
  {
    if P.IsLeaf(c.evs, i) {
      LeafKept(c, f, root, es, nodes, i, c.evs[i].parent);
    } else {
      if i > 0 {
        NodeOfEntry(root, NeverFails, es, c.evs, nodes, i, c.evs[i].parent);
      }
      forall j: nat | P.ChildOf(c.evs, j, i) ensures Pruning.Kept(c, j) <==> Stays(f, nodes[j]) {
        KeptIsStays(c, f, root, es, nodes, j);
      }
      if j: nat :| P.ChildOf(c.evs, j, i) && Pruning.Kept(c, j) {
        KidsAreChildren(root, es, c.evs, nodes, i, nodes[j]);
      }
      if k: nat :| k < |nodes[i].children| && Stays(f, nodes[i].children[k]) {
        KidsAreChildren(root, es, c.evs, nodes, i, nodes[i].children[k]);
      }
    }
  }

  /** What stays below an entry that stays is left of the tree, and so is the entry. */
  lemma {:induction false} StaysIsLeft(
    f: FilterSet, root: Node, es: seq<EnumEvent>, evs: P.Stream, nodes: seq<Node>, i: nat)
    requires Covers(root, NeverFails, es, nodes) && evs == StreamOf(es) && root.IsRealDir() && P.IsEntry(evs, i)
    requires i < |nodes| && Stays(f, nodes[i])
    ensures i > 0 ==> PathAt(es, i) in Paths(Pruned(f, root), [])
    ensures Paths(Pruned(f, nodes[i]), PathAt(es, i)) <= Paths(Pruned(f, root), [])
    decreases i
  {
    if i > 0 {
      var d := evs[i].parent;
      assert P.ChildOf(evs, i, d);
      NodeOfEntry(root, NeverFails, es, evs, nodes, i, d);
      if d > 0 {
        NodeOfEntry(root, NeverFails, es, evs, nodes, d, evs[d].parent);
      }
      assert Stays(f, nodes[d]);
      StaysIsLeft(f, root, es, evs, nodes, d);
      var below := Paths(Pruned(f, nodes[d]), PathAt(es, d));
      forall p | AtOrBelow(p, Pruned(f, nodes[i]), PathAt(es, d)) ensures p in below {
        InPruned(f, nodes[d], PathAt(es, d), p);
      }
      assert AtOrBelow(PathAt(es, i), Pruned(f, nodes[i]), PathAt(es, d));
    }
  }

  /** Everything left of the tree below an entry is an entry that stays. */
  lemma {:induction false} LeftIsStays(
    f: FilterSet, root: Node, es: seq<EnumEvent>, evs: P.Stream, nodes: seq<Node>, d: nat, p: Path) returns (i: nat)
    requires Covers(root, NeverFails, es, nodes) && evs == StreamOf(es) && root.IsRealDir() && P.IsDir(evs, d)
    requires d < |nodes| && nodes[d].IsRealDir() && p in Paths(Pruned(f, nodes[d]), PathAt(es, d))
    ensures 0 < i < |nodes| && P.IsEntry(evs, i) && Stays(f, nodes[i]) && PathAt(es, i) == p
    decreases |evs| - d
  {
    InPruned(f, nodes[d], PathAt(es, d), p);
    var c :| c in nodes[d].children && Stays(f, c) && AtOrBelow(p, Pruned(f, c), PathAt(es, d));
    KidsAreChildren(root, es, evs, nodes, d, c);
    var j: nat :| P.ChildOf(evs, j, d) && nodes[j] == c;
    NodeOfEntry(root, NeverFails, es, evs, nodes, j, d);
    if p == PathAt(es, d) + [c.name] {
      i := j;
    } else {
      i := LeftIsStays(f, root, es, evs, nodes, j, p);
    }
  }

  // ---------------------------------------------------------------------------------------------------------------
  // Main results
  // ---------------------------------------------------------------------------------------------------------------

  /** The paths, below the target, of the entries in a set. */
  ghost function PathsOf(es: seq<EnumEvent>, present: set<nat>): set<Path> {
    set i | i in present && i > 0 :: PathAt(es, i)
  }

  /**
   Walk a tree that can be listed, run the pipeline on what the walk sends, with any schedule but without interruption
   or faults: what is left on disk is the recursively pruned tree, and the target itself is left exactly when there
   were filters.
   */
  lemma {:induction false} DeletionIsPrune(
    c: P.Config, f: FilterSet, root: Node, es: seq<EnumEvent>, nodes: seq<Node>,
    states: seq<P.State>, actions: seq<P.Action>)
    requires Covers(root, NeverFails, es, nodes) && root.IsRealDir() && Configured(c, f, es)
    requires P.ValidConfig(c) && Pruning.Undisturbed(c, states, actions) && P.Terminated(states[|actions|]) && !c.dryRun
    ensures var present := states[|actions|].disk.present;
            && PathsOf(es, present) == Paths(Pruned(f, root), [])
            && (0 in present <==> !f.IsNoop())
  {
    hide Covers, P.ValidConfig;
    TargetIsFirst(root, es, c.evs, nodes);
    KeptIsStays(c, f, root, es, nodes, 0);
    var present := states[|actions|].disk.present;
    FiltersAgree(c, f, es);
    Pruning.RunsPrune(c, states, actions);
    forall p | p in PathsOf(es, present) ensures p in Paths(Pruned(f, root), []) {
      var i :| i in present && i > 0 && PathAt(es, i) == p;
      KeptIsStays(c, f, root, es, nodes, i);
      StaysIsLeft(f, root, es, c.evs, nodes, i);
    }
    forall p | p in Paths(Pruned(f, root), []) ensures p in PathsOf(es, present) {
      var i := LeftIsStays(f, root, es, c.evs, nodes, 0, p);
      KeptIsStays(c, f, root, es, nodes, i);
    }
    if f.IsNoop() {
      Pruning.NothingKept(c, 0);
    }
  }

  /** Node m lies at this path below the root, and every directory on the way is a real one. */
  ghost predicate Within(root: Node, path: Path, m: Node) {
    if |path| == 0 then m == root
    else
      exists d: Node ::
        && Within(root, path[..|path| - 1], d)
        && d.IsRealDir() && m in d.children && m.name == path[|path| - 1]
  }

  lemma {:induction false} EntriesAreWithin(
    root: Node, fails: Path -> bool, es: seq<EnumEvent>, evs: P.Stream, nodes: seq<Node>, i: nat)
    requires Described(root, fails, es, evs, nodes) && evs == StreamOf(es) && P.WellFormed(evs) && root.IsRealDir()
    requires P.IsEntry(evs, i)
    ensures Within(root, PathAt(es, i), nodes[i])
    ensures P.IsDir(evs, i) ==> nodes[i].IsRealDir()
    decreases i
  {
    if i > 0 {
      var d := evs[i].parent;
      assert P.ChildOf(evs, i, d);
      NodeOfEntry(root, fails, es, evs, nodes, i, d);
      EntriesAreWithin(root, fails, es, evs, nodes, d);
      var p := PathAt(es, i);
      assert p[..|p| - 1] == PathAt(es, d);
    }
  }

  lemma {:induction false} TargetIsFirst(root: Node, es: seq<EnumEvent>, evs: P.Stream, nodes: seq<Node>)
    requires Covers(root, NeverFails, es, nodes) && evs == StreamOf(es)
    ensures |nodes| > 0 && nodes[0] == root && P.IsEntry(evs, 0)
  {
  }

  lemma {:induction false} ChildIsSent(
    root: Node, es: seq<EnumEvent>, evs: P.Stream, nodes: seq<Node>, j: nat, m: Node) returns (i: nat)
    requires Covers(root, NeverFails, es, nodes) && evs == StreamOf(es) && root.IsRealDir()
    requires P.IsEntry(evs, j) && j < |nodes| && nodes[j].IsRealDir() && m in nodes[j].children
    ensures i < |nodes| && P.IsEntry(evs, i) && nodes[i] == m && PathAt(es, i) == PathAt(es, j) + [m.name]
  {
    if j > 0 {
      NodeOfEntry(root, NeverFails, es, evs, nodes, j, evs[j].parent);
    }
    KidsAreChildren(root, es, evs, nodes, j, m);
    i :| P.ChildOf(evs, i, j) && nodes[i] == m;
    NodeOfEntry(root, NeverFails, es, evs, nodes, i, j);
  }

  /** Every node that can be reached through real directories has an entry. */
  lemma {:induction false} WithinIsSent(
    root: Node, es: seq<EnumEvent>, evs: P.Stream, nodes: seq<Node>, path: Path, m: Node)
    returns (i: nat)
    requires Covers(root, NeverFails, es, nodes) && evs == StreamOf(es) && root.IsRealDir()
    requires Within(root, path, m)
    ensures i < |nodes| && P.IsEntry(evs, i) && PathAt(es, i) == path && nodes[i] == m
    decreases |path|
  {
    hide StreamOf, Covers;
    TargetIsFirst(root, es, evs, nodes);
    if |path| == 0 {
      i := 0;
    } else {
      var above, name := path[..|path| - 1], path[|path| - 1];
      var d :| Within(root, above, d) && d.IsRealDir() && m in d.children && m.name == name;
      var j := WithinIsSent(root, es, evs, nodes, above, d);
      i := ChildIsSent(root, es, evs, nodes, j, m);
      assert path == above + [name];
    }
  }

  /**
   A walk that is not cancelled and can list every directory sends an entry for exactly those nodes that lie below the
   target and can be reached without crossing a reparse point.
   */
  lemma {:induction false} WalkFindsExactly(root: Node, es: seq<EnumEvent>, nodes: seq<Node>, path: Path, m: Node)
    requires Covers(root, NeverFails, es, nodes) && root.IsRealDir() && |path| > 0
    ensures Within(root, path, m)
            <==> exists i: nat :: i < |nodes| && P.IsEntry(StreamOf(es), i) && PathAt(es, i) == path && nodes[i] == m
  {
    if Within(root, path, m) {
      var i := WithinIsSent(root, es, StreamOf(es), nodes, path, m);
    }
    if i: nat :| i < |nodes| && P.IsEntry(StreamOf(es), i) && PathAt(es, i) == path && nodes[i] == m {
      EntriesAreWithin(root, NeverFails, es, StreamOf(es), nodes, i);
    }
  }

  /**
   Containment. In every run on what a walk sent, faulty and cancelled runs and walks included, each thing handed to an
   engine delete is the target itself or lies below it, at a path that leads through real directories only.
   */
  lemma {:induction false} NothingOutsideIsHanded(
    c: P.Config, root: Node, fails: Path -> bool, es: seq<EnumEvent>, nodes: seq<Node>,
    states: seq<P.State>, actions: seq<P.Action>, k: nat, i: nat)
    requires Described(root, fails, es, StreamOf(es), nodes) && root.IsRealDir() && c.evs == StreamOf(es)
    requires P.ValidConfig(c) && P.IsRun(c, states, actions) && k < |states| && i in states[k].disk.handed
    ensures i < |nodes| && Within(root, PathAt(es, i), nodes[i])
    ensures P.IsLeaf(c.evs, i) ==> i !in c.retain
  {
    PipelineSafety.OnlyTheChosenAreHanded(c, states, actions, k, i);
    EntriesAreWithin(root, fails, es, c.evs, nodes, i);
  }
}
