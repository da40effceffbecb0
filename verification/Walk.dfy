/**
 The streaming tree walk (crates/cursdel-core/src/walk.rs, `stream_tree`).

 The tree on disk is a value: it does not change while it is walked. A path is the sequence of names below the
 target. `fails` says which directories cannot be listed, `cancelled` at which check the run is found cancelled. The
 events are what is sent; sending never fails, because the coordinator receives until the enumerator is done.
 */
module Walk {
  import opened Wrappers
  import opened Filter
  import P = Pipeline

  type Path = seq<string>

  /** A child as a directory listing reports it, and below a directory what a listing of that directory reports. */
  datatype Node = Node(
    name: string, isDir: bool, isReparse: bool, size: nat, times: EntryTimes, children: seq<Node>)
  {
    /** A directory that is walked into. */
    predicate IsRealDir() {
      isDir && !isReparse
    }

    function Size(): nat
      decreases this, |children| + 1
    {
      1 + SizeOfFirst(|children|)
    }

    function SizeOfFirst(k: nat): nat
      requires k <= |children|
      decreases this, k
    {
      if k == 0 then 0 else SizeOfFirst(k - 1) + children[k - 1].Size()
    }

    lemma {:induction false} SizeSteps(k: nat)
      requires k <= |children|
      ensures Size() == 1 + SizeOfFirst(|children|) && SizeOfFirst(0) == 0
      ensures k < |children| ==> SizeOfFirst(k + 1) == SizeOfFirst(k) + children[k].Size()
    {
    }
  }

  datatype EntryKind = File | Directory | Symlink(reparseIsDir: bool)

  datatype EnumEvent =
    | Entry(path: Path, dirId: Option<nat>, parentDirId: nat, kind: EntryKind, size: nat, times: EntryTimes)
    | DirectoryComplete(done: nat)
    | Error(at: Path)

  datatype OpenDir = OpenDir(dirId: nat, path: Path, node: Node)

  datatype EnumResult = Finished | Cancelled

  // ---------------------------------------------------------------------------------------------------------------
  // Identifiers and positions
  // ---------------------------------------------------------------------------------------------------------------

  /** Where each directory was announced: identifier d stands at position Positions(es)[d] of the numbered stream. */
  function Positions(es: seq<EnumEvent>): (at: seq<nat>)
    ensures |at| > 0
  {
    if |es| == 0 then [0]
    else
      var before := Positions(es[..|es| - 1]);
      if IsDirEntry(es[|es| - 1]) then before + [|es|] else before
  }

  predicate IsDirEntry(e: EnumEvent) {
    e.Entry? && e.dirId.Some?
  }

  function Position(at: seq<nat>, d: nat): nat {
    if d < |at| then at[d] else 0
  }

  function Numbered(e: EnumEvent, at: seq<nat>): P.Event {
    match e
    case Entry(_, dirId, parent, kind, size, _) =>
      if dirId.Some? then P.Directory(Position(at, parent))
      else P.Leaf(Position(at, parent), size, kind == Symlink(true))
    case DirectoryComplete(d) => P.Listed(Position(at, d))
    case Error(_) => P.Unlistable
  }

  /** The stream with positions for names, as the pipeline model reads it. Position 0 is the target itself. */
  function StreamOf(es: seq<EnumEvent>): (evs: P.Stream)
    ensures |evs| == |es| + 1 && evs[0] == P.Root
    ensures forall i :: 0 < i < |evs| ==> !evs[i].Root?
  {
    if |es| == 0 then [P.Root]
    else StreamOf(es[..|es| - 1]) + [Numbered(es[|es| - 1], Positions(es))]
  }

  function PathAt(es: seq<EnumEvent>, i: nat): Path {
    if 0 < i <= |es| && es[i - 1].Entry? then es[i - 1].path else []
  }

  /**
   An event sent when this many identifiers have been handed out, the root's included: a directory gets the next one,
   and what is named as a parent or as completed is one of them.
   */
  predicate IdsFit(e: EnumEvent, issued: nat) {
    && (IsDirEntry(e) ==> e.dirId == Some(issued))
    && (e.Entry? ==> e.parentDirId < issued)
    && (e.DirectoryComplete? ==> e.done < issued)
  }

  /** Identifiers are handed out in order, and none is used that was not handed out before. */
  ghost predicate FreshIds(es: seq<EnumEvent>) {
    forall i: nat :: i < |es| ==> IdsFit(es[i], |Positions(es[..i])|)
  }

  lemma {:induction false} Append(es: seq<EnumEvent>, e: EnumEvent)
    ensures StreamOf(es + [e]) == StreamOf(es) + [Numbered(e, Positions(es + [e]))]
    ensures Positions(es + [e]) == if IsDirEntry(e) then Positions(es) + [|es| + 1] else Positions(es)
    ensures forall i: nat :: i <= |es| ==> PathAt(es + [e], i) == PathAt(es, i)
    ensures FreshIds(es) && IdsFit(e, |Positions(es)|) ==> FreshIds(es + [e])
  {
    assert (es + [e])[..|es|] == es;
    if FreshIds(es) && IdsFit(e, |Positions(es)|) {
      forall i: nat | i < |es + [e]| ensures IdsFit((es + [e])[i], |Positions((es + [e])[..i])|) {
        assert i < |es| ==> (es + [e])[..i] == es[..i];
      }
    }
  }

  // ---------------------------------------------------------------------------------------------------------------
  // A stream that is not finished yet
  // ---------------------------------------------------------------------------------------------------------------

  /** Well formed so far; `open` are the directories that were announced and not completed. */
  ghost predicate Partial(evs: P.Stream, open: set<nat>) {
    && |evs| > 0 && evs[0].Root?
    && (forall i :: 0 < i < |evs| ==> !evs[i].Root?)
    && (forall i, d :: P.ChildOf(evs, i, d) ==> d < i && P.IsDir(evs, d))
    && (forall j, d :: P.ListedAt(evs, j, d) ==> d < j && P.IsDir(evs, d))
    && (forall i, j, d :: P.ChildOf(evs, i, d) && P.ListedAt(evs, j, d) ==> i < j)
    && (forall j, k, d :: P.ListedAt(evs, j, d) && P.ListedAt(evs, k, d) ==> j == k)
    && (forall d: nat :: d in open ==> P.IsDir(evs, d))
    && (forall d: nat :: P.IsDir(evs, d) ==> (d in open <==> !IsListed(evs, d)))
  }

  ghost predicate IsListed(evs: P.Stream, d: nat) {
    exists j: nat :: P.ListedAt(evs, j, d)
  }

  lemma {:induction false} SameBefore(evs: P.Stream, e: P.Event)
    ensures var more := evs + [e];
            && (forall i: nat :: i < |evs| ==> (P.IsDir(more, i) <==> P.IsDir(evs, i)))
            && (forall i: nat, d: nat :: i < |evs| ==> (P.ChildOf(more, i, d) <==> P.ChildOf(evs, i, d)))
            && (forall i: nat, d: nat :: i < |evs| ==> (P.ListedAt(more, i, d) <==> P.ListedAt(evs, i, d)))
  {
  }

  /** One more event may follow, and then these directories are open. */
  predicate Follows(evs: P.Stream, open: set<nat>, x: P.Event, open': set<nat>) {
    match x
    case Root => false
    case Directory(d) => d in open && open' == open + {|evs|}
    case Leaf(d, _, _) => d in open && open' == open
    case Listed(d) => d in open && open' == open - {d}
    case Unlistable => open' == open
  }

  lemma {:induction false} ListedAfter(evs: P.Stream, x: P.Event, d: nat)
    ensures IsListed(evs + [x], d) <==> IsListed(evs, d) || x == P.Listed(d)
  {
    if j: nat :| P.ListedAt(evs, j, d) {
      assert P.ListedAt(evs + [x], j, d);
    }
    if j: nat :| P.ListedAt(evs + [x], j, d) {
      assert j < |evs| ==> P.ListedAt(evs, j, d);
    }
    if x == P.Listed(d) {
      assert P.ListedAt(evs + [x], |evs|, d);
    }
  }

  /** A stream that is well formed so far stays so. */
  lemma {:induction false} AddEvent(evs: P.Stream, open: set<nat>, x: P.Event, open': set<nat>)
    requires Partial(evs, open) && Follows(evs, open, x, open')
    ensures Partial(evs + [x], open')
  {
    SameBefore(evs, x);
    forall d: nat ensures IsListed(evs + [x], d) <==> IsListed(evs, d) || x == P.Listed(d) {
      ListedAfter(evs, x, d);
    }
    if P.IsDir(evs + [x], |evs|) {
      assert !IsListed(evs, |evs|);
    }
  }

  lemma {:induction false} AllListed(evs: P.Stream)
    requires Partial(evs, {})
    ensures P.WellFormed(evs)
  {
    forall d: nat | P.IsDir(evs, d) ensures exists j :: P.ListedAt(evs, j, d) {
      assert IsListed(evs, d);
    }
  }

  // ---------------------------------------------------------------------------------------------------------------
  // Which node each entry is
  // ---------------------------------------------------------------------------------------------------------------

  /** The nodes of the entries that name position d as their parent, in stream order. */
  function KidNodes(evs: P.Stream, nodes: seq<Node>, d: nat): seq<Node>
    requires |nodes| == |evs|
  {
    if |evs| == 0 then []
    else
      var n := |evs| - 1;
      KidNodes(evs[..n], nodes[..n], d) + if P.ChildOf(evs, n, d) then [nodes[n]] else []
  }

  lemma {:induction false} KidNodesAppend(evs: P.Stream, nodes: seq<Node>, e: P.Event, n: Node, d: nat)
    requires |nodes| == |evs|
    ensures KidNodes(evs + [e], nodes + [n], d)
            == KidNodes(evs, nodes, d) + if P.ChildOf(evs + [e], |evs|, d) then [n] else []
  {
    assert (evs + [e])[..|evs|] == evs && (nodes + [n])[..|nodes|] == nodes;
  }

  lemma {:induction false} KidNodesNone(evs: P.Stream, nodes: seq<Node>, d: nat)
    requires |nodes| == |evs| && forall i: nat :: !P.ChildOf(evs, i, d)
    ensures KidNodes(evs, nodes, d) == []
  {
    if |evs| > 0 {
      var n := |evs| - 1;
      assert evs == evs[..n] + [evs[n]];
      forall i: nat ensures !P.ChildOf(evs[..n], i, d) {
        assert !P.ChildOf(evs, i, d);
      }
      KidNodesNone(evs[..n], nodes[..n], d);
    }
  }

  lemma {:induction false} KidNodesIn(evs: P.Stream, nodes: seq<Node>, d: nat, m: Node)
    requires |nodes| == |evs|
    ensures m in KidNodes(evs, nodes, d) <==> exists j: nat :: P.ChildOf(evs, j, d) && nodes[j] == m
  {
    if |evs| > 0 {
      var n := |evs| - 1;
      KidNodesIn(evs[..n], nodes[..n], d, m);
      if j: nat :| P.ChildOf(evs[..n], j, d) && nodes[..n][j] == m {
        assert P.ChildOf(evs, j, d) && nodes[j] == m;
      }
      if j: nat :| P.ChildOf(evs, j, d) && nodes[j] == m && j < n {
        assert P.ChildOf(evs[..n], j, d) && nodes[..n][j] == m;
      }
    }
  }

  /** Entry e describes node n. */
  predicate Describes(e: EnumEvent, n: Node) {
    && e.Entry? && |e.path| > 0 && e.path[|e.path| - 1] == n.name && e.times == n.times
    && (n.IsRealDir() <==> e.dirId.Some?)
    && e.kind == (if n.isReparse then Symlink(n.isDir) else if n.isDir then Directory else File)
    && e.size == if n.IsRealDir() then 0 else n.size
  }

  /** Event i, if an entry, describes its node and lies directly below its parent; an error is about a failure. */
  predicate DescribedAt(fails: Path -> bool, es: seq<EnumEvent>, evs: P.Stream, nodes: seq<Node>, i: nat) {
    && i < |es| && |nodes| == |evs| == |es| + 1
    && (es[i].Entry? ==>
          var parent := P.ParentOf(evs, i + 1);
          && Describes(es[i], nodes[i + 1])
          && parent.Some? && parent.value <= i && nodes[i + 1] in nodes[parent.value].children
          && es[i].path == PathAt(es, parent.value) + [nodes[i + 1].name])
    && (es[i].Error? ==> fails(es[i].at))
  }

  ghost predicate Described(
    root: Node, fails: Path -> bool, es: seq<EnumEvent>, evs: P.Stream, nodes: seq<Node>)
  {
    && |nodes| == |evs| == |es| + 1 && nodes[0] == root
    && (forall i: nat :: i < |es| ==> DescribedAt(fails, es, evs, nodes, i))
  }

  lemma {:induction false} DescribedAppend(
    root: Node, fails: Path -> bool, es: seq<EnumEvent>, evs: P.Stream, nodes: seq<Node>,
    e: EnumEvent, x: P.Event, n: Node)
    requires Described(root, fails, es, evs, nodes)
    requires e.Error? ==> fails(e.at)
    requires e.Entry? ==>
               && Describes(e, n) && (x.Directory? || x.Leaf?)
               && x.parent <= |es| && n in nodes[x.parent].children && e.path == PathAt(es, x.parent) + [n.name]
    ensures Described(root, fails, es + [e], evs + [x], nodes + [n])
  {
    forall i: nat | i < |es| + 1 ensures DescribedAt(fails, es + [e], evs + [x], nodes + [n], i) {
      if i < |es| {
        assert DescribedAt(fails, es, evs, nodes, i);
      }
    }
  }

  /** A directory that is being listed, and how many of its children have been sent. */
  datatype Current = Current(dir: nat, sent: nat) | Nothing

  /** What has been sent of directory d. */
  function Due(fails: Path -> bool, es: seq<EnumEvent>, nodes: seq<Node>, open: set<nat>, cur: Current, d: nat)
    : seq<Node>
    requires d < |nodes|
  {
    if cur.Current? && cur.dir == d && cur.sent <= |nodes[d].children| then nodes[d].children[..cur.sent]
    else if d in open || fails(PathAt(es, d)) then []
    else nodes[d].children
  }

  predicate LaidAt(
    fails: Path -> bool, es: seq<EnumEvent>, evs: P.Stream, nodes: seq<Node>, open: set<nat>, cur: Current, d: nat)
  {
    && |nodes| == |evs| == |es| + 1
    && (P.IsDir(evs, d) ==> KidNodes(evs, nodes, d) == Due(fails, es, nodes, open, cur, d))
  }

  ghost predicate Laid(
    fails: Path -> bool, es: seq<EnumEvent>, evs: P.Stream, nodes: seq<Node>, open: set<nat>, cur: Current)
  {
    |nodes| == |evs| == |es| + 1 && forall d: nat :: LaidAt(fails, es, evs, nodes, open, cur, d)
  }

  /** A directory that could not be listed was reported. */
  ghost predicate Reported(fails: Path -> bool, es: seq<EnumEvent>, evs: P.Stream, open: set<nat>) {
    forall d: nat :: P.IsDir(evs, d) && d !in open && fails(PathAt(es, d)) ==> Error(PathAt(es, d)) in es
  }

  /** All that holds between two events. */
  ghost predicate Midway(
    root: Node, fails: Path -> bool, es: seq<EnumEvent>, nodes: seq<Node>, open: set<nat>, cur: Current)
  {
    var evs := StreamOf(es);
    && FreshIds(es)
    && Partial(evs, open)
    && Described(root, fails, es, evs, nodes)
    && Laid(fails, es, evs, nodes, open, cur)
    && Reported(fails, es, evs, open)
  }

  function EntryOf(child: Node, path: Path, parent: nat, id: nat): EnumEvent {
    if child.IsRealDir() then
      Entry(path, Some(id), parent, Directory, 0, child.times)
    else
      Entry(path, None, parent, if child.isReparse then Symlink(child.isDir) else File, child.size, child.times)
  }

  /** The directories open once `child` has been sent as entry number p. */
  function Opened(open: set<nat>, child: Node, p: nat): set<nat> {
    if child.IsRealDir() then open + {p} else open
  }

  predicate Sendable(nodes: seq<Node>, open: set<nat>, cur: Current) {
    && cur.Current? && cur.dir in open && cur.dir < |nodes| && cur.sent < |nodes[cur.dir].children|
  }

  /** An entry adds its node to its parent's, and changes nothing for any other directory. */
  lemma {:induction false} LaidBefore(
    fails: Path -> bool, es: seq<EnumEvent>, evs: P.Stream, nodes: seq<Node>, open: set<nat>, cur: Current,
    e: EnumEvent, x: P.Event, d: nat)
    requires LaidAt(fails, es, evs, nodes, open, cur, d) && d < |evs| && Sendable(nodes, open, cur)
    requires (x.Directory? || x.Leaf?) && x.parent == cur.dir
    ensures var child := nodes[cur.dir].children[cur.sent];
            LaidAt(fails, es + [e], evs + [x], nodes + [child], Opened(open, child, |evs|),
                   cur.(sent := cur.sent + 1), d)
  {
    var kids := nodes[cur.dir].children;
    KidNodesAppend(evs, nodes, x, kids[cur.sent], d);
    assert kids[..cur.sent + 1] == kids[..cur.sent] + [kids[cur.sent]];
  }

  lemma {:induction false} LaidNew(
    fails: Path -> bool, es: seq<EnumEvent>, evs: P.Stream, nodes: seq<Node>, open: set<nat>, cur: Current,
    e: EnumEvent, x: P.Event, child: Node)
    requires Partial(evs, open) && |nodes| == |evs| == |es| + 1 && cur.Current? && cur.dir < |evs|
    requires (x.Directory? || x.Leaf?) && x.parent == cur.dir
    ensures LaidAt(fails, es + [e], evs + [x], nodes + [child], open + {|evs|}, cur, |evs|)
  {
    KidNodesAppend(evs, nodes, x, child, |evs|);
    assert !P.IsDir(evs, |evs|);
    KidNodesNone(evs, nodes, |evs|);
  }

  lemma {:induction false} LaidChild(
    fails: Path -> bool, es: seq<EnumEvent>, evs: P.Stream, nodes: seq<Node>, open: set<nat>, cur: Current,
    e: EnumEvent, x: P.Event)
    requires Laid(fails, es, evs, nodes, open, cur) && Partial(evs, open) && Sendable(nodes, open, cur)
    requires (x.Directory? || x.Leaf?) && x.parent == cur.dir
    requires nodes[cur.dir].children[cur.sent].IsRealDir() <==> x.Directory?
    ensures var child := nodes[cur.dir].children[cur.sent];
            Laid(fails, es + [e], evs + [x], nodes + [child], Opened(open, child, |evs|), cur.(sent := cur.sent + 1))
  {
    var child := nodes[cur.dir].children[cur.sent];
    var es', evs', nodes' := es + [e], evs + [x], nodes + [child];
    var open', cur' := Opened(open, child, |evs|), cur.(sent := cur.sent + 1);
    forall d: nat ensures LaidAt(fails, es', evs', nodes', open', cur', d) {
      if d < |evs| {
        LaidBefore(fails, es, evs, nodes, open, cur, e, x, d);
      } else if d == |evs| && child.IsRealDir() {
        LaidNew(fails, es, evs, nodes, open, cur', e, x, child);
      }
    }
  }

  lemma {:induction false} ReportedAppend(
    fails: Path -> bool, es: seq<EnumEvent>, evs: P.Stream, open: set<nat>, e: EnumEvent, x: P.Event, open': set<nat>)
    requires Reported(fails, es, evs, open) && |evs| == |es| + 1
    requires open <= open' && (x.Directory? ==> |evs| in open') && !x.Root?
    ensures Reported(fails, es + [e], evs + [x], open')
  {
  }

  /** The walk sends one child of the directory it is listing. */
  lemma {:induction false} SendChild(
    root: Node, fails: Path -> bool, es: seq<EnumEvent>, nodes: seq<Node>, open: set<nat>, cur: Current, id: nat)
    requires Midway(root, fails, es, nodes, open, cur) && Sendable(nodes, open, cur)
    requires Position(Positions(es), id) == cur.dir && id < |Positions(es)|
    ensures var child := nodes[cur.dir].children[cur.sent];
            var e := EntryOf(child, PathAt(es, cur.dir) + [child.name], id, |Positions(es)|);
            Midway(root, fails, es + [e], nodes + [child], Opened(open, child, |es| + 1), cur.(sent := cur.sent + 1))
  {
    var child := nodes[cur.dir].children[cur.sent];
    var e := EntryOf(child, PathAt(es, cur.dir) + [child.name], id, |Positions(es)|);
    Append(es, e);
    var evs, x := StreamOf(es), Numbered(e, Positions(es + [e]));
    AddEvent(evs, open, x, Opened(open, child, |evs|));
    DescribedAppend(root, fails, es, evs, nodes, e, x, child);
    LaidChild(fails, es, evs, nodes, open, cur, e, x);
    ReportedAppend(fails, es, evs, open, e, x, Opened(open, child, |es| + 1));
  }

  /** An event that is no entry, after which as much is due of a directory as before. */
  lemma {:induction false} LaidQuietAt(
    fails: Path -> bool, es: seq<EnumEvent>, evs: P.Stream, nodes: seq<Node>, open: set<nat>, cur: Current,
    e: EnumEvent, x: P.Event, n: Node, open': set<nat>, cur': Current, d: nat)
    requires LaidAt(fails, es, evs, nodes, open, cur, d) && (x.Listed? || x.Unlistable?)
    requires d < |evs| ==> Due(fails, es, nodes, open', cur', d) == Due(fails, es, nodes, open, cur, d)
    ensures LaidAt(fails, es + [e], evs + [x], nodes + [n], open', cur', d)
  {
    KidNodesAppend(evs, nodes, x, n, d);
  }

  lemma {:induction false} LaidQuiet(
    fails: Path -> bool, es: seq<EnumEvent>, evs: P.Stream, nodes: seq<Node>, open: set<nat>, cur: Current,
    e: EnumEvent, x: P.Event, n: Node, open': set<nat>, cur': Current)
    requires Laid(fails, es, evs, nodes, open, cur) && (x.Listed? || x.Unlistable?)
    requires forall d: nat :: d < |evs| ==> Due(fails, es, nodes, open', cur', d) == Due(fails, es, nodes, open, cur, d)
    ensures Laid(fails, es + [e], evs + [x], nodes + [n], open', cur')
  {
    var es', evs', nodes' := es + [e], evs + [x], nodes + [n];
    forall d: nat ensures LaidAt(fails, es', evs', nodes', open', cur', d) {
      LaidQuietAt(fails, es, evs, nodes, open, cur, e, x, n, open', cur', d);
    }
  }

  // ---------------------------------------------------------------------------------------------------------------
  // The walk
  // ---------------------------------------------------------------------------------------------------------------

  /** pos gives the positions of the directories on the stack, which are all different. */
  ghost predicate Stacked(es: seq<EnumEvent>, nodes: seq<Node>, stack: seq<OpenDir>, pos: seq<nat>) {
    && |pos| == |stack| && |nodes| == |es| + 1
    && (forall k :: 0 <= k < |stack| ==> StackedAt(es, nodes, stack[k], pos[k]))
    && (forall j, k :: 0 <= j < k < |pos| ==> pos[j] != pos[k])
  }

  predicate StackedAt(es: seq<EnumEvent>, nodes: seq<Node>, o: OpenDir, p: nat) {
    && o.dirId < |Positions(es)| && Positions(es)[o.dirId] == p
    && p <= |es| < |nodes| && nodes[p] == o.node && PathAt(es, p) == o.path
  }

  lemma {:induction false} StackedAppend(
    es: seq<EnumEvent>, nodes: seq<Node>, o: OpenDir, p: nat, e: EnumEvent, n: Node)
    requires StackedAt(es, nodes, o, p)
    ensures StackedAt(es + [e], nodes + [n], o, p)
  {
    Append(es, e);
  }

  function StackSize(stack: seq<OpenDir>): nat {
    if |stack| == 0 then 0 else StackSize(stack[..|stack| - 1]) + stack[|stack| - 1].node.Size()
  }

  /** What a complete walk of the tree has sent. */
  ghost predicate Covers(root: Node, fails: Path -> bool, es: seq<EnumEvent>, nodes: seq<Node>) {
    Midway(root, fails, es, nodes, {}, Nothing) && P.WellFormed(StreamOf(es))
  }

  /** A walk may pause here: each directory announced is open, with nothing sent of it, or listed, or reported. */
  ghost predicate PausesAt(root: Node, fails: Path -> bool, es: seq<EnumEvent>, nodes: seq<Node>) {
    exists open: set<nat> :: Midway(root, fails, es, nodes, open, Nothing)
  }

  /**
   What an interrupted walk has sent: up to event n a stretch of a complete walk, in which every directory that was
   completed was listed or reported, and from there on only the completions of those that were still open.
   */
  ghost predicate CoversUpTo(root: Node, fails: Path -> bool, es: seq<EnumEvent>, nodes: seq<Node>, n: nat) {
    && n < |es| && |nodes| == |es| + 1
    && PausesAt(root, fails, es[..n], nodes[..n + 1])
    && (forall i: nat :: n <= i < |es| ==> es[i].DirectoryComplete?)
  }

  lemma {:induction false} Interrupted(
    root: Node, fails: Path -> bool, before: seq<EnumEvent>, nodesBefore: seq<Node>, open: set<nat>,
    es: seq<EnumEvent>, nodes: seq<Node>)
    requires Midway(root, fails, before, nodesBefore, open, Nothing)
    requires before < es && nodesBefore <= nodes && |nodes| == |es| + 1
    requires forall i: nat :: |before| <= i < |es| ==> es[i].DirectoryComplete?
    ensures es[..|before|] == before && CoversUpTo(root, fails, es, nodes, |before|)
  {
    assert |nodesBefore| == |before| + 1;
    assert es[..|before|] == before && nodes[..|before| + 1] == nodesBefore;
  }

  /** How many directories have been completed. */
  function Completions(es: seq<EnumEvent>): nat {
    if |es| == 0 then 0
    else Completions(es[..|es| - 1]) + if es[|es| - 1].DirectoryComplete? then 1 else 0
  }

  lemma {:induction false} NothingCompleted()
    ensures Completions([]) == 0
  {
  }

  lemma {:induction false} CompletionsAppend(es: seq<EnumEvent>, e: EnumEvent)
    ensures Completions(es + [e]) == Completions(es) + if e.DirectoryComplete? then 1 else 0
  {
    assert (es + [e])[..|es|] == es;
  }

  /** An event that is not a directory entry leaves the stack as it is. */
  lemma {:induction false} StackedSame(
    es: seq<EnumEvent>, nodes: seq<Node>, stack: seq<OpenDir>, pos: seq<nat>, e: EnumEvent, n: Node)
    requires Stacked(es, nodes, stack, pos)
    ensures Stacked(es + [e], nodes + [n], stack, pos)
  {
    forall k | 0 <= k < |stack| ensures StackedAt(es + [e], nodes + [n], stack[k], pos[k]) {
      StackedAppend(es, nodes, stack[k], pos[k], e, n);
    }
  }

  /** A directory entry's directory goes on the stack. */
  lemma {:induction false} StackedPush(
    es: seq<EnumEvent>, nodes: seq<Node>, stack: seq<OpenDir>, pos: seq<nat>, e: EnumEvent, n: Node, id: nat)
    requires Stacked(es, nodes, stack, pos) && IsDirEntry(e) && id == |Positions(es)|
    ensures Stacked(es + [e], nodes + [n], stack + [OpenDir(id, e.path, n)], pos + [|es| + 1])
  {
    StackedSame(es, nodes, stack, pos, e, n);
    Append(es, e);
  }

  /** The walk, cancelled, completes the i-th directory on its stack, which it has not listed. */
  lemma {:induction false} FlushOne(
    root: Node, fails: Path -> bool, es: seq<EnumEvent>, nodes: seq<Node>, open: set<nat>,
    stack: seq<OpenDir>, pos: seq<nat>, i: nat)
    requires FreshIds(es) && Partial(StreamOf(es), open) && Described(root, fails, es, StreamOf(es), nodes)
    requires Stacked(es, nodes, stack, pos) && i < |stack| && forall d: nat :: d in open <==> d in pos[i..]
    ensures |pos| == |stack|
    ensures var es', nodes', open' := es + [DirectoryComplete(stack[i].dirId)], nodes + [root], open - {pos[i]};
            && FreshIds(es') && Partial(StreamOf(es'), open') && Described(root, fails, es', StreamOf(es'), nodes')
            && Stacked(es', nodes', stack, pos) && (forall d: nat :: d in open' <==> d in pos[i + 1..])
  {
    var id, d := stack[i].dirId, pos[i];
    assert pos[i..] == [d] + pos[i + 1..];
    assert StackedAt(es, nodes, stack[i], d);
    Append(es, DirectoryComplete(id));
    AddEvent(StreamOf(es), open, P.Listed(d), open - {d});
    DescribedAppend(root, fails, es, StreamOf(es), nodes, DirectoryComplete(id), P.Listed(d), root);
    StackedSame(es, nodes, stack, pos, DirectoryComplete(id), root);
  }

  lemma {:induction false} StackedSizes(es: seq<EnumEvent>, nodes: seq<Node>, stack: seq<OpenDir>, pos: seq<nat>)
    requires Stacked(es, nodes, stack, pos)
    ensures |pos| == |stack| && |nodes| == |es| + 1
  {
  }

  lemma {:induction false} BeforeWalk(root: Node, fails: Path -> bool)
    ensures Midway(root, fails, [], [root], {0}, Nothing)
    ensures Stacked([], [root], [OpenDir(0, [], root)], [0])
  {
    assert Positions([]) == [0] && StreamOf([]) == [P.Root];
    assert KidNodes([P.Root], [root], 0) == [] by {
      KidNodesNone([P.Root], [root], 0);
    }
    forall d: nat ensures LaidAt(fails, [], [P.Root], [root], {0}, Nothing, d) {
    }
  }

  /** Work on the directory at the top of the stack begins. */
  lemma {:induction false} Begin(
    root: Node, fails: Path -> bool, es: seq<EnumEvent>, nodes: seq<Node>, open: set<nat>, d: nat)
    requires Midway(root, fails, es, nodes, open, Nothing) && d in open
    ensures Midway(root, fails, es, nodes, open, Current(d, 0))
  {
    var evs := StreamOf(es);
    forall e: nat ensures LaidAt(fails, es, evs, nodes, open, Current(d, 0), e) {
      assert LaidAt(fails, es, evs, nodes, open, Nothing, e);
    }
  }

  /** The directory at the top of the stack is taken off it, and work on it begins. */
  lemma {:induction false} Pop(
    root: Node, fails: Path -> bool, es: seq<EnumEvent>, nodes: seq<Node>, open: set<nat>,
    stack: seq<OpenDir>, pos: seq<nat>) returns (d: nat)
    requires Midway(root, fails, es, nodes, open, Nothing) && Stacked(es, nodes, stack, pos) && |stack| > 0
    requires forall d: nat :: d in open <==> d in pos
    ensures |pos| == |stack| && d == pos[|pos| - 1]
    ensures Midway(root, fails, es, nodes, open, Current(d, 0))
    ensures Stacked(es, nodes, stack[..|stack| - 1], pos[..|pos| - 1])
    ensures StackedAt(es, nodes, stack[|stack| - 1], d) && d !in pos[..|pos| - 1]
    ensures forall e: nat :: e in open <==> e in pos[..|pos| - 1] || e == d
    ensures |pos| > 0 && StackSize(stack) == StackSize(stack[..|stack| - 1]) + stack[|stack| - 1].node.Size()
  {
    d := pos[|pos| - 1];
    Begin(root, fails, es, nodes, open, d);
    assert pos == pos[..|pos| - 1] + [d];
  }

  /** Everything the loop over the children keeps, when the next child is sent. */
  lemma {:induction false} SendChildKeeps(
    root: Node, fails: Path -> bool, es: seq<EnumEvent>, nodes: seq<Node>, open: set<nat>,
    stack: seq<OpenDir>, pos: seq<nat>, current: OpenDir, d: nat, k: nat)
    requires Midway(root, fails, es, nodes, open, Current(d, k)) && Stacked(es, nodes, stack, pos)
    requires StackedAt(es, nodes, current, d) && d !in pos && k < |current.node.children|
    requires forall e: nat :: e in open <==> e in pos || e == d
    ensures var child, id := current.node.children[k], |Positions(es)|;
            var e := EntryOf(child, current.path + [child.name], current.dirId, id);
            var isDir := child.IsRealDir();
            var es', nodes', p := es + [e], nodes + [child], |es| + 1;
            var stack' := if isDir then stack + [OpenDir(id, current.path + [child.name], child)] else stack;
            var pos' := if isDir then pos + [p] else pos;
            && Midway(root, fails, es', nodes', Opened(open, child, p), Current(d, k + 1))
            && Stacked(es', nodes', stack', pos') && StackedAt(es', nodes', current, d) && d !in pos'
            && |Positions(es')| == id + (if isDir then 1 else 0)
            && (forall e: nat :: e in Opened(open, child, p) <==> e in pos' || e == d)
            && StackSize(stack') == StackSize(stack) + if isDir then child.Size() else 0
  {
    hide Midway, Positions, StreamOf;
    var child, id := current.node.children[k], |Positions(es)|;
    var e := EntryOf(child, current.path + [child.name], current.dirId, id);
    SendChild(root, fails, es, nodes, open, Current(d, k), current.dirId);
    StackedAppend(es, nodes, current, d, e, child);
    Append(es, e);
    if child.IsRealDir() {
      StackedPush(es, nodes, stack, pos, e, child, id);
      assert (stack + [OpenDir(id, e.path, child)])[..|stack|] == stack;
    } else {
      StackedSame(es, nodes, stack, pos, e, child);
    }
  }

  /** The walk reports that the directory it was about to list cannot be listed. */
  lemma {:induction false} SendErrorKeeps(
    root: Node, fails: Path -> bool, es: seq<EnumEvent>, nodes: seq<Node>, open: set<nat>,
    stack: seq<OpenDir>, pos: seq<nat>, current: OpenDir, d: nat)
    requires Midway(root, fails, es, nodes, open, Current(d, 0)) && Stacked(es, nodes, stack, pos)
    requires StackedAt(es, nodes, current, d) && fails(current.path)
    ensures var es', nodes' := es + [Error(current.path)], nodes + [root];
            && Midway(root, fails, es', nodes', open, Current(d, 0)) && Stacked(es', nodes', stack, pos)
            && StackedAt(es', nodes', current, d) && Positions(es') == Positions(es)
  {
    var e := Error(current.path);
    Append(es, e);
    var evs := StreamOf(es);
    AddEvent(evs, open, P.Unlistable, open);
    DescribedAppend(root, fails, es, evs, nodes, e, P.Unlistable, root);
    LaidQuiet(fails, es, evs, nodes, open, Current(d, 0), e, P.Unlistable, root, open, Current(d, 0));
    ReportedAppend(fails, es, evs, open, e, P.Unlistable, open);
    StackedSame(es, nodes, stack, pos, e, root);
    StackedAppend(es, nodes, current, d, e, root);
  }

  /** A directory that is completed has been sent as far as it is due. */
  lemma {:induction false} CompletedIsLaid(
    fails: Path -> bool, es: seq<EnumEvent>, evs: P.Stream, nodes: seq<Node>, open: set<nat>, d: nat, id: nat,
    root: Node)
    requires |nodes| == |evs| == |es| + 1 && d < |nodes|
    requires Laid(fails, es, evs, nodes, open,
                  Current(d, if fails(PathAt(es, d)) then 0 else |nodes[d].children|))
    ensures Laid(fails, es + [DirectoryComplete(id)], evs + [P.Listed(d)], nodes + [root], open - {d}, Nothing)
  {
    hide LaidAt;
    var cur := Current(d, if fails(PathAt(es, d)) then 0 else |nodes[d].children|);
    assert nodes[d].children[..|nodes[d].children|] == nodes[d].children;
    LaidQuiet(fails, es, evs, nodes, open, cur, DirectoryComplete(id), P.Listed(d), root, open - {d}, Nothing);
  }

  lemma {:induction false} CompletedIsReported(
    fails: Path -> bool, es: seq<EnumEvent>, evs: P.Stream, open: set<nat>, d: nat, id: nat)
    requires Reported(fails, es, evs, open) && |evs| == |es| + 1 && d <= |es|
    requires fails(PathAt(es, d)) ==> Error(PathAt(es, d)) in es
    ensures Reported(fails, es + [DirectoryComplete(id)], evs + [P.Listed(d)], open - {d})
  {
  }

  /** The walk completes a directory that it has listed, or reported. */
  lemma {:induction false} SendCompleteKeeps(
    root: Node, fails: Path -> bool, es: seq<EnumEvent>, nodes: seq<Node>, open: set<nat>,
    stack: seq<OpenDir>, pos: seq<nat>, current: OpenDir, d: nat)
    requires Midway(root, fails, es, nodes, open,
                    Current(d, if fails(current.path) then 0 else |current.node.children|))
    requires fails(current.path) ==> Error(current.path) in es
    requires Stacked(es, nodes, stack, pos) && StackedAt(es, nodes, current, d) && d !in pos
    requires forall e: nat :: e in open <==> e in pos || e == d
    ensures var es', nodes' := es + [DirectoryComplete(current.dirId)], nodes + [root];
            && Midway(root, fails, es', nodes', open - {d}, Nothing) && Stacked(es', nodes', stack, pos)
            && Positions(es') == Positions(es) && forall e: nat :: e in open - {d} <==> e in pos
  {
    hide LaidAt, Reported, Laid;
    var e := DirectoryComplete(current.dirId);
    Append(es, e);
    var evs := StreamOf(es);
    AddEvent(evs, open, P.Listed(d), open - {d});
    DescribedAppend(root, fails, es, evs, nodes, e, P.Listed(d), root);
    CompletedIsLaid(fails, es, evs, nodes, open, d, current.dirId, root);
    CompletedIsReported(fails, es, evs, open, d, current.dirId);
    StackedSame(es, nodes, stack, pos, e, root);
  }

  lemma {:induction false} Emptied(
    es: seq<EnumEvent>, nodes: seq<Node>, open: set<nat>, stack: seq<OpenDir>, pos: seq<nat>)
    requires Stacked(es, nodes, stack, pos) && |stack| == 0 && forall d: nat :: d in open <==> d in pos
    ensures open == {}
  {
  }

  lemma {:induction false} MidwayParts(
    root: Node, fails: Path -> bool, es: seq<EnumEvent>, nodes: seq<Node>, open: set<nat>, cur: Current)
    requires Midway(root, fails, es, nodes, open, cur)
    ensures FreshIds(es) && Partial(StreamOf(es), open) && Described(root, fails, es, StreamOf(es), nodes)
  {
  }

  lemma {:induction false} Finish(root: Node, fails: Path -> bool, es: seq<EnumEvent>, nodes: seq<Node>)
    requires Midway(root, fails, es, nodes, {}, Nothing)
    ensures P.WellFormed(StreamOf(es)) && FreshIds(es) && Described(root, fails, es, StreamOf(es), nodes)
    ensures Covers(root, fails, es, nodes)
  {
    AllListed(StreamOf(es));
  }

  /** The loop over the children of `current`: each is sent, and the directories among them go on the stack. */
  method SendChildren(
    root: Node, ghost fails: Path -> bool, current: OpenDir, esBefore: seq<EnumEvent>, stackBefore: seq<OpenDir>,
    nextBefore: nat, ghost nodesBefore: seq<Node>, ghost posBefore: seq<nat>, ghost openBefore: set<nat>, ghost d: nat)
    returns (es: seq<EnumEvent>, stack: seq<OpenDir>, nextDirId: nat, ghost nodes: seq<Node>, ghost pos: seq<nat>,
      ghost open: set<nat>)
    requires Midway(root, fails, esBefore, nodesBefore, openBefore, Current(d, 0))
    requires Stacked(esBefore, nodesBefore, stackBefore, posBefore)
    requires StackedAt(esBefore, nodesBefore, current, d) && d !in posBefore
    requires nextBefore == |Positions(esBefore)|
    requires forall e: nat :: e in openBefore <==> e in posBefore || e == d
    ensures Midway(root, fails, es, nodes, open, Current(d, |current.node.children|)) && Stacked(es, nodes, stack, pos)
    ensures StackedAt(es, nodes, current, d) && d !in pos
    ensures nextDirId == |Positions(es)| && Completions(es) == Completions(esBefore)
    ensures forall e: nat :: e in open <==> e in pos || e == d
    ensures StackSize(stack) < StackSize(stackBefore) + current.node.Size()
  {
    hide Midway, Stacked, StackedAt, Positions, Completions, StackSize, Node.Size, Node.SizeOfFirst;
    current.node.SizeSteps(0);
    es, stack, nextDirId, nodes, pos, open := esBefore, stackBefore, nextBefore, nodesBefore, posBefore, openBefore;
    var k := 0;
    while k < |current.node.children|
      invariant k <= |current.node.children|
      invariant Midway(root, fails, es, nodes, open, Current(d, k)) && Stacked(es, nodes, stack, pos)
      invariant StackedAt(es, nodes, current, d) && d !in pos
      invariant nextDirId == |Positions(es)| && Completions(es) == Completions(esBefore)
      invariant forall e: nat :: e in open <==> e in pos || e == d
      invariant StackSize(stack) <= StackSize(stackBefore) + current.node.SizeOfFirst(k)
    {
      SendChildKeeps(root, fails, es, nodes, open, stack, pos, current, d, k);
      current.node.SizeSteps(k);
      var child := current.node.children[k];
      var childPath := current.path + [child.name];
      CompletionsAppend(es, EntryOf(child, childPath, current.dirId, nextDirId));
      open := Opened(open, child, |es| + 1);
      if child.isDir && !child.isReparse {
        var childDirId := nextDirId;
        nextDirId := nextDirId + 1;
        pos := pos + [|es| + 1];
        es := es + [Entry(childPath, Some(childDirId), current.dirId, Directory, 0, child.times)];
        stack := stack + [OpenDir(childDirId, childPath, child)];
      } else {
        var kind := if child.isReparse then Symlink(child.isDir) else File;
        es := es + [Entry(childPath, None, current.dirId, kind, child.size, child.times)];
      }
      nodes := nodes + [child];
      k := k + 1;
    }
  }

  /** The flush after a cancellation: every directory still on the stack is completed, the oldest first. */
  method Flush(
    root: Node, ghost fails: Path -> bool, stack: seq<OpenDir>, esBefore: seq<EnumEvent>, ghost nodesBefore: seq<Node>,
    ghost pos: seq<nat>, ghost openBefore: set<nat>)
    returns (es: seq<EnumEvent>, ghost nodes: seq<Node>)
    requires FreshIds(esBefore) && Partial(StreamOf(esBefore), openBefore)
    requires Described(root, fails, esBefore, StreamOf(esBefore), nodesBefore)
    requires Stacked(esBefore, nodesBefore, stack, pos)
    requires forall d: nat :: d in openBefore <==> d in pos
    ensures FreshIds(es) && P.WellFormed(StreamOf(es)) && Described(root, fails, es, StreamOf(es), nodes)
    ensures esBefore <= es && nodesBefore <= nodes && |es| == |esBefore| + |stack| && |nodes| == |es| + 1
    ensures forall i: nat :: |esBefore| <= i < |es| ==> es[i].DirectoryComplete?
  {
    hide Partial, Described, FreshIds, Stacked;
    StackedSizes(esBefore, nodesBefore, stack, pos);
    es, nodes := esBefore, nodesBefore;
    ghost var open := openBefore;
    var i := 0;
    while i < |stack|
      invariant i <= |stack|
      invariant FreshIds(es) && Partial(StreamOf(es), open) && Described(root, fails, es, StreamOf(es), nodes)
      invariant Stacked(es, nodes, stack, pos)
      invariant forall d: nat :: d in open <==> d in pos[i..]
      invariant esBefore <= es && nodesBefore <= nodes && |es| == |esBefore| + i && |nodes| == |es| + 1
      invariant forall i: nat :: |esBefore| <= i < |es| ==> es[i].DirectoryComplete?
    {
      FlushOne(root, fails, es, nodes, open, stack, pos, i);
      es := es + [DirectoryComplete(stack[i].dirId)];
      nodes := nodes + [root];
      open := open - {pos[i]};
      i := i + 1;
    }
    assert open == {};
    AllListed(StreamOf(es));
  }

  /**
   Walks the tree. Whatever cannot be listed and whenever the walk is cancelled, the stream is well formed and every
   entry in it describes a node of the tree, found by way of real directories only. A walk that is not cancelled sends
   exactly the children of every directory that can be listed, in order, and reports every directory that cannot. One
   that is cancelled has done so for as many directories as it made checks before, and then completes the open ones.
   */
  method StreamTree(root: Node, fails: Path -> bool, cancelled: nat -> bool)
    returns (es: seq<EnumEvent>, result: EnumResult, ghost nodes: seq<Node>, ghost checks: nat, ghost walked: nat)
    ensures P.WellFormed(StreamOf(es)) && FreshIds(es)
    ensures Described(root, fails, es, StreamOf(es), nodes)
    ensures result.Finished? ==> Covers(root, fails, es, nodes) && walked == |es| && Completions(es) == checks
    ensures result.Cancelled? ==> CoversUpTo(root, fails, es, nodes, walked)
    ensures result.Cancelled? ==> checks > 0 && cancelled(checks - 1) && Completions(es[..walked]) == checks - 1
    ensures forall k: nat :: k < checks - (if result.Cancelled? then 1 else 0) ==> !cancelled(k)
  {
    hide Midway, Described, Partial, FreshIds, Covers, CoversUpTo, Stacked, StackedAt, Completions;
    es, nodes, checks := [], [root], 0;
    var stack := [OpenDir(0, [], root)];
    var nextDirId := 1;
    var check := 0;
    ghost var pos: seq<nat> := [0];
    ghost var open: set<nat> := {0};
    BeforeWalk(root, fails);
    assert Positions(es) == [0];
    NothingCompleted();
    while |stack| > 0
      invariant Midway(root, fails, es, nodes, open, Nothing) && Stacked(es, nodes, stack, pos)
      invariant nextDirId == |Positions(es)| && Completions(es) == checks
      invariant forall d: nat :: d in open <==> d in pos
      invariant check == checks && forall k: nat :: k < checks ==> !cancelled(k)
      decreases StackSize(stack)
    {
      var current := stack[|stack| - 1];
      check, checks := check + 1, checks + 1;
      if cancelled(check - 1) {
        MidwayParts(root, fails, es, nodes, open, Nothing);
        ghost var before, nodesBefore := es, nodes;
        es, nodes := Flush(root, fails, stack, es, nodes, pos, open);
        Interrupted(root, fails, before, nodesBefore, open, es, nodes);
        return es, Cancelled, nodes, checks, |before|;
      }
      ghost var d := Pop(root, fails, es, nodes, open, stack, pos);
      stack, pos := stack[..|stack| - 1], pos[..|pos| - 1];
      if !fails(current.path) {
        es, stack, nextDirId, nodes, pos, open :=
          SendChildren(root, fails, current, es, stack, nextDirId, nodes, pos, open, d);
      } else {
        SendErrorKeeps(root, fails, es, nodes, open, stack, pos, current, d);
        CompletionsAppend(es, Error(current.path));
        es, nodes := es + [Error(current.path)], nodes + [root];
      }
      SendCompleteKeeps(root, fails, es, nodes, open, stack, pos, current, d);
      CompletionsAppend(es, DirectoryComplete(current.dirId));
      es, nodes, open := es + [DirectoryComplete(current.dirId)], nodes + [root], open - {d};
    }
    Emptied(es, nodes, open, stack, pos);
    Finish(root, fails, es, nodes);
    return es, Finished, nodes, checks, |es|;
  }
}
