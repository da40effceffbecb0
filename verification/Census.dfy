/**
 The counters of an undisturbed run as sums over the tree on disk. They depend on the tree and the filters alone, and
 not on the order in which a walk sent the tree, the schedule, or whether the run was a rehearsal.
 */
module Census {
  import opened Wrappers
  import opened Filter
  import opened Walk
  import opened Prune
  import P = Pipeline
  import Ledger = PipelineLedger
  import Pruning = PipelinePrune

  // ---------------------------------------------------------------------------------------------------------------
  // Sums over a tree
  // ---------------------------------------------------------------------------------------------------------------

  /** The weights of a node and everything below it. */
  function TreeSum(n: Node, w: Node -> nat): nat
    decreases n, |n.children| + 2
  {
    w(n) + Below(n, w)
  }

  /** The weights of everything below a node. */
  function Below(n: Node, w: Node -> nat): nat
    decreases n, |n.children| + 1
  {
    if n.IsRealDir() then SumFirst(n, w, |n.children|) else 0
  }

  function SumFirst(n: Node, w: Node -> nat, k: nat): nat
    requires k <= |n.children|
    decreases n, k
  {
    if k == 0 then 0 else SumFirst(n, w, k - 1) + TreeSum(n.children[k - 1], w)
  }

  function SumAll(cs: seq<Node>, w: Node -> nat): nat {
    if |cs| == 0 then 0 else SumAll(cs[..|cs| - 1], w) + TreeSum(cs[|cs| - 1], w)
  }

  lemma {:induction false} SumFirstIsSumAll(n: Node, w: Node -> nat, k: nat)
    requires k <= |n.children|
    ensures SumFirst(n, w, k) == SumAll(n.children[..k], w)
  {
    if k > 0 {
      SumFirstIsSumAll(n, w, k - 1);
      assert n.children[..k][..k - 1] == n.children[..k - 1];
    }
  }

  // ---------------------------------------------------------------------------------------------------------------
  // Sums over a stream
  // ---------------------------------------------------------------------------------------------------------------

  /** The weights of the entries among the first n events. */
  function EntrySum(evs: P.Stream, nodes: seq<Node>, w: Node -> nat, n: nat): nat
    requires n <= |evs| == |nodes|
  {
    if n == 0 then 0 else EntrySum(evs, nodes, w, n - 1) + if P.IsEntry(evs, n - 1) then w(nodes[n - 1]) else 0
  }

  /** Entry i has not come by position k, and its parent has. */
  predicate AtFrontier(evs: P.Stream, k: nat, i: nat) {
    k <= i < |evs| && (evs[i].Directory? || evs[i].Leaf?) && evs[i].parent < k
  }

  /** The trees at the frontier, as far as they are among the first n events. */
  function Frontier(evs: P.Stream, nodes: seq<Node>, w: Node -> nat, k: nat, n: nat): nat
    requires n <= |evs| == |nodes|
  {
    if n == 0 then 0
    else Frontier(evs, nodes, w, k, n - 1) + if AtFrontier(evs, k, n - 1) then TreeSum(nodes[n - 1], w) else 0
  }

  /** The trees of the children of position d among the first n events. */
  function KidSum(evs: P.Stream, nodes: seq<Node>, w: Node -> nat, d: nat, n: nat): nat
    requires n <= |evs| == |nodes|
  {
    if n == 0 then 0
    else KidSum(evs, nodes, w, d, n - 1) + if P.ChildOf(evs, n - 1, d) then TreeSum(nodes[n - 1], w) else 0
  }

  lemma {:induction false} KidSumIsSumAll(evs: P.Stream, nodes: seq<Node>, w: Node -> nat, d: nat, n: nat)
    requires n <= |evs| == |nodes|
    ensures KidSum(evs, nodes, w, d, n) == SumAll(KidNodes(evs[..n], nodes[..n], d), w)
  {
    if n > 0 {
      KidSumIsSumAll(evs, nodes, w, d, n - 1);
      assert evs[..n][..n - 1] == evs[..n - 1] && nodes[..n][..n - 1] == nodes[..n - 1];
      var kids := KidNodes(evs[..n - 1], nodes[..n - 1], d);
      assert P.ChildOf(evs[..n], n - 1, d) <==> P.ChildOf(evs, n - 1, d);
      assert (kids + [nodes[n - 1]])[..|kids|] == kids;
      assert kids + [] == kids;
    }
  }

  lemma {:induction false} NoKids(evs: P.Stream, nodes: seq<Node>, w: Node -> nat, d: nat, n: nat)
    requires n <= |evs| == |nodes| && P.WellFormed(evs) && !P.IsDir(evs, d)
    ensures KidSum(evs, nodes, w, d, n) == 0
  {
    if n > 0 {
      NoKids(evs, nodes, w, d, n - 1);
    }
  }

  /** Passing position k takes its tree from the frontier and puts its children's trees there. */
  lemma {:induction false} FrontierMoves(evs: P.Stream, nodes: seq<Node>, w: Node -> nat, k: nat, n: nat)
    requires n <= |evs| == |nodes| && P.WellFormed(evs)
    ensures Frontier(evs, nodes, w, k + 1, n)
            + (if k < n && (evs[k].Directory? || evs[k].Leaf?) then TreeSum(nodes[k], w) else 0)
            == Frontier(evs, nodes, w, k, n) + KidSum(evs, nodes, w, k, n)
  {
    if n > 0 {
      FrontierMoves(evs, nodes, w, k, n - 1);
      var i := n - 1;
      if evs[i].Directory? || evs[i].Leaf? {
        assert P.ChildOf(evs, i, evs[i].parent);
      }
    }
  }

  lemma {:induction false} FrontierEmpty(evs: P.Stream, nodes: seq<Node>, w: Node -> nat, k: nat, n: nat)
    requires n <= |evs| == |nodes| && (k == 0 || n <= k)
    ensures Frontier(evs, nodes, w, k, n) == 0
  {
    if n > 0 {
      FrontierEmpty(evs, nodes, w, k, n - 1);
    }
  }

  /** The tree of an entry is the entry and the trees of its children in the stream. */
  lemma {:induction false} EntryAndKids(
    root: Node, es: seq<EnumEvent>, evs: P.Stream, nodes: seq<Node>, w: Node -> nat, k: nat)
    requires Covers(root, NeverFails, es, nodes) && evs == StreamOf(es) && root.IsRealDir() && k < |evs|
    ensures |nodes| == |evs|
    ensures (if P.IsEntry(evs, k) then TreeSum(nodes[k], w) else 0)
            == (if P.IsEntry(evs, k) then w(nodes[k]) else 0) + KidSum(evs, nodes, w, k, |evs|)
  {
    if P.IsEntry(evs, k) && k > 0 {
      NodeOfEntry(root, NeverFails, es, evs, nodes, k, evs[k].parent);
    }
    if P.IsDir(evs, k) {
      assert LaidAt(NeverFails, es, evs, nodes, {}, Nothing, k);
      KidSumIsSumAll(evs, nodes, w, k, |evs|);
      assert evs[..|evs|] == evs && nodes[..|nodes|] == nodes;
      SumFirstIsSumAll(nodes[k], w, |nodes[k].children|);
      assert nodes[k].children[..|nodes[k].children|] == nodes[k].children;
    } else {
      NoKids(evs, nodes, w, k, |evs|);
    }
  }

  /** Whatever order a walk sent them in, the entries before position k and the frontier make up the tree. */
  lemma {:induction false} EntriesAndFrontier(
    root: Node, es: seq<EnumEvent>, evs: P.Stream, nodes: seq<Node>, w: Node -> nat, k: nat)
    requires Covers(root, NeverFails, es, nodes) && evs == StreamOf(es) && root.IsRealDir() && 1 <= k <= |evs|
    ensures |nodes| == |evs|
    ensures EntrySum(evs, nodes, w, k) + Frontier(evs, nodes, w, k, |evs|) == TreeSum(root, w)
  {
    EntryAndKids(root, es, evs, nodes, w, k - 1);
    FrontierMoves(evs, nodes, w, k - 1, |evs|);
    if k == 1 {
      FrontierEmpty(evs, nodes, w, 0, |evs|);
      assert EntrySum(evs, nodes, w, 0) == 0;
    } else {
      EntriesAndFrontier(root, es, evs, nodes, w, k - 1);
    }
  }

  /** The entries of a complete walk weigh what the tree weighs. */
  lemma {:induction false} EntriesMakeUpTheTree(
    root: Node, es: seq<EnumEvent>, evs: P.Stream, nodes: seq<Node>, w: Node -> nat)
    requires Covers(root, NeverFails, es, nodes) && evs == StreamOf(es) && root.IsRealDir()
    ensures |nodes| == |evs| && EntrySum(evs, nodes, w, |evs|) == TreeSum(root, w)
  {
    EntriesAndFrontier(root, es, evs, nodes, w, |evs|);
    FrontierEmpty(evs, nodes, w, |evs|, |evs|);
  }

  // ---------------------------------------------------------------------------------------------------------------
  // The census
  // ---------------------------------------------------------------------------------------------------------------

  /** What a node adds to a counter if nothing fails: it goes exactly when nothing of it stays. */
  function WeightOf(f: FilterSet, k: Ledger.Counter, n: Node): nat {
    match k
    case FilesDeleted => if !n.IsRealDir() && !Stays(f, n) then 1 else 0
    case FilesRetained => if !n.IsRealDir() && Stays(f, n) then 1 else 0
    case BytesDeleted => if !n.IsRealDir() && !Stays(f, n) then n.size else 0
    case DirsDeleted => if n.IsRealDir() && !Stays(f, n) then 1 else 0
    case DirsRetained => if n.IsRealDir() && Stays(f, n) then 1 else 0
    case FilesFailed => 0
    case DirsFailed => 0
  }

  function Weigh(f: FilterSet, k: Ledger.Counter): Node -> nat {
    n => WeightOf(f, k, n)
  }

  function Scan(k: Ledger.EventKind): Node -> nat {
    (n: Node) =>
      match k
      case AnyLeaf => if n.IsRealDir() then 0 else 1
      case AnyDir => if n.IsRealDir() then 1 else 0
      case AnyFailure => 0
  }

  /** A counter over everything below the target, and over the target itself if there are no filters to spare it. */
  function Census(f: FilterSet, root: Node, k: Ledger.Counter): nat {
    Below(root, Weigh(f, k)) + if f.IsNoop() then WeightOf(f, k, root) else 0
  }

  /** All counters of a run that nothing disturbs, read off the tree. */
  function CensusOf(f: FilterSet, root: Node): P.Metrics {
    P.Metrics(
      filesScanned := TreeSum(root, Scan(Ledger.AnyLeaf)),
      dirsScanned := TreeSum(root, Scan(Ledger.AnyDir)),
      filesDeleted := Census(f, root, Ledger.FilesDeleted),
      dirsDeleted := Census(f, root, Ledger.DirsDeleted),
      filesRetained := Census(f, root, Ledger.FilesRetained),
      dirsRetained := Census(f, root, Ledger.DirsRetained),
      bytesDeleted := Census(f, root, Ledger.BytesDeleted),
      failures := 0)
  }

  /** Entry i, whose kind and size are those of its node. */
  lemma {:induction false} EntryIsNode(root: Node, es: seq<EnumEvent>, evs: P.Stream, nodes: seq<Node>, i: nat)
    requires Covers(root, NeverFails, es, nodes) && evs == StreamOf(es) && root.IsRealDir() && i < |evs|
    ensures |nodes| == |evs| && !evs[i].Unlistable?
    ensures P.IsEntry(evs, i) ==> (P.IsDir(evs, i) <==> nodes[i].IsRealDir())
    ensures P.IsLeaf(evs, i) ==>
              P.SizeOf(evs, i) == nodes[i].size && (evs[i].asDir <==> nodes[i].isDir && nodes[i].isReparse)
  {
    if i > 0 {
      EventAt(es, i - 1);
      assert DescribedAt(NeverFails, es, evs, nodes, i - 1);
      if P.IsEntry(evs, i) {
        NodeOfEntry(root, NeverFails, es, evs, nodes, i, evs[i].parent);
      }
    }
  }

  lemma {:induction false} ScansAreEntries(
    root: Node, es: seq<EnumEvent>, evs: P.Stream, nodes: seq<Node>, k: Ledger.EventKind, n: nat)
    requires Covers(root, NeverFails, es, nodes) && evs == StreamOf(es) && root.IsRealDir() && n <= |evs|
    ensures |nodes| == |evs| && Ledger.CountEvents(evs, k, n) == EntrySum(evs, nodes, Scan(k), n)
  {
    if n > 0 {
      ScansAreEntries(root, es, evs, nodes, k, n - 1);
      EntryIsNode(root, es, evs, nodes, n - 1);
    }
  }

  /** An undisturbed run, to its end, on what a complete walk of the tree sent. */
  ghost predicate Complete(
    c: P.Config, f: FilterSet, root: Node, es: seq<EnumEvent>, nodes: seq<Node>,
    states: seq<P.State>, actions: seq<P.Action>)
  {
    && Covers(root, NeverFails, es, nodes) && root.IsRealDir() && Configured(c, f, es) && P.ValidConfig(c)
    && Pruning.Undisturbed(c, states, actions) && P.Terminated(states[|actions|])
  }

  lemma {:induction false} VerdictOnNode(
    c: P.Config, f: FilterSet, root: Node, es: seq<EnumEvent>, nodes: seq<Node>,
    states: seq<P.State>, actions: seq<P.Action>, k: Ledger.Counter, i: nat)
    requires Complete(c, f, root, es, nodes, states, actions) && i < |c.evs|
    ensures |nodes| == |c.evs|
    ensures Ledger.Weight(c.evs, states[|actions|].verdict, k, i)
            == if P.IsEntry(c.evs, i) && !(i == 0 && c.preserveRoot) then WeightOf(f, k, nodes[i]) else 0
  {
    FiltersAgree(c, f, es);
    Pruning.EndOfEntry(c, states, actions, i);
    EntryIsNode(root, es, c.evs, nodes, i);
    if P.IsEntry(c.evs, i) {
      KeptIsStays(c, f, root, es, nodes, i);
    }
  }

  lemma {:induction false} TotalIsEntries(
    c: P.Config, f: FilterSet, root: Node, es: seq<EnumEvent>, nodes: seq<Node>,
    states: seq<P.State>, actions: seq<P.Action>, k: Ledger.Counter, n: nat)
    requires Complete(c, f, root, es, nodes, states, actions) && n <= |c.evs|
    ensures |nodes| == |c.evs|
    ensures Ledger.Total(c.evs, states[|actions|].verdict, k, n)
            + (if n > 0 && c.preserveRoot then WeightOf(f, k, root) else 0)
            == EntrySum(c.evs, nodes, Weigh(f, k), n)
  {
    hide Covers, Stays, P.ValidConfig, P.Terminated, Pruning.Undisturbed;
    EntryIsNode(root, es, c.evs, nodes, 0);
    if n > 0 {
      TotalIsEntries(c, f, root, es, nodes, states, actions, k, n - 1);
      VerdictOnNode(c, f, root, es, nodes, states, actions, k, n - 1);
      TargetIsFirst(root, es, c.evs, nodes);
    }
  }

  lemma {:induction false} TotalIsCensus(
    c: P.Config, f: FilterSet, root: Node, es: seq<EnumEvent>, nodes: seq<Node>,
    states: seq<P.State>, actions: seq<P.Action>, k: Ledger.Counter)
    requires Complete(c, f, root, es, nodes, states, actions)
    ensures Ledger.Total(c.evs, states[|actions|].verdict, k, |c.evs|) == Census(f, root, k)
  {
    TotalIsEntries(c, f, root, es, nodes, states, actions, k, |c.evs|);
    EntriesMakeUpTheTree(root, es, c.evs, nodes, Weigh(f, k));
  }

  lemma {:induction false} NothingWeighed(n: Node, w: Node -> nat)
    requires forall m :: w(m) == 0
    ensures TreeSum(n, w) == 0
    decreases n, 1
  {
    NothingWeighedFirst(n, w, |n.children|);
  }

  lemma {:induction false} NothingWeighedFirst(n: Node, w: Node -> nat, k: nat)
    requires k <= |n.children| && forall m :: w(m) == 0
    ensures SumFirst(n, w, k) == 0
    decreases n, 0, k
  {
    if k > 0 {
      NothingWeighedFirst(n, w, k - 1);
      NothingWeighed(n.children[k - 1], w);
    }
  }

  // ---------------------------------------------------------------------------------------------------------------
  // Main results
  // ---------------------------------------------------------------------------------------------------------------

  /** The counters at the end are those of the tree, whatever the order of the walk and the schedule of the run. */
  lemma {:induction false} CountersAreCensus(
    c: P.Config, f: FilterSet, root: Node, es: seq<EnumEvent>, nodes: seq<Node>,
    states: seq<P.State>, actions: seq<P.Action>)
    requires Complete(c, f, root, es, nodes, states, actions)
    ensures states[|actions|].books.metrics == CensusOf(f, root)
  {
    Pruning.EndOfBooks(c, states, actions);
    forall k ensures Ledger.Total(c.evs, states[|actions|].verdict, k, |c.evs|) == Census(f, root, k) {
      TotalIsCensus(c, f, root, es, nodes, states, actions, k);
    }
    forall k ensures Ledger.CountEvents(c.evs, k, |c.evs|) == TreeSum(root, Scan(k)) {
      ScansAreEntries(root, es, c.evs, nodes, k, |c.evs|);
      EntriesMakeUpTheTree(root, es, c.evs, nodes, Scan(k));
    }
    NothingWeighed(root, Weigh(f, Ledger.FilesFailed));
    NothingWeighed(root, Weigh(f, Ledger.DirsFailed));
    NothingWeighed(root, Scan(Ledger.AnyFailure));
  }

  /**
   A rehearsal of a tree ends with the counters of the real thing: two walks of one tree, two configurations with the
   same filters and two undisturbed runs, of which either may be a dry one.
   */
  lemma {:induction false} RehearsalOfTree(
    f: FilterSet, root: Node,
    c: P.Config, es: seq<EnumEvent>, nodes: seq<Node>, states: seq<P.State>, actions: seq<P.Action>,
    c': P.Config, es': seq<EnumEvent>, nodes': seq<Node>, states': seq<P.State>, actions': seq<P.Action>)
    requires Complete(c, f, root, es, nodes, states, actions)
    requires Complete(c', f, root, es', nodes', states', actions')
    ensures states[|actions|].books.metrics == states'[|actions'|].books.metrics
  {
    CountersAreCensus(c, f, root, es, nodes, states, actions);
    CountersAreCensus(c', f, root, es', nodes', states', actions');
  }
}
