/**
 The inductive invariant of the pipeline: who is responsible for each entry, and what the tracker knows about each
 directory. It holds in every reachable state, whatever the engine answers and whenever the run is cancelled.
 */
module PipelineInvariant {
  import opened Wrappers
  import opened DirectoryTracking
  import opened Attempts
  import opened Report
  import opened Pipeline

  /** The entry a thread is responsible for. */
  function Subject(pc: Pc): Option<nat> {
    match pc
    case NewDir(i) => Some(i)
    case NewDirPending(i) => Some(i)
    case NewLeaf(i) => Some(i)
    case LeafCheck(i) => Some(i)
    case LeafSend(i) => Some(i)
    case Got(i) => Some(i)
    case Deleting(i, _) => Some(i)
    case Counting(i, _) => Some(i)
    case LogLeaf(i, _) => Some(i)
    case DirGot(r) => Some(r.dir)
    case DirDeleting(r, _) => Some(r.dir)
    case LogDir(r, _) => Some(r.dir)
    case Forgetting(r, _) => Some(r.dir)
    case RootDone(i) => Some(i)
    case Completing(i, _) => Some(i)
    case Finalising(d) => Some(d)
    case Sending(r) => Some(r.dir)
    case _ => None
  }

  /** The subject has not been counted by its parent yet. */
  predicate Unannounced(pc: Pc) {
    pc.NewDir? || pc.NewDirPending? || pc.NewLeaf?
  }

  /** The subject, a directory, has been dropped from the tracker. */
  predicate Forgotten(pc: Pc) {
    pc.Completing? || pc.RootDone?
  }

  /** The subject, a directory, has been finalised. */
  predicate HandedOver(pc: Pc) {
    pc.Sending? || pc.DirGot? || pc.DirDeleting? || pc.LogDir? || pc.Forgetting?
  }

  predicate RoleAllows(role: Role, pc: Pc) {
    match pc
    case Idle => true
    case Exited => true
    case Completing(_, _) => true
    case Finalising(_) => true
    case Sending(_) => true
    case Got(_) => role.FileWorker?
    case Deleting(_, _) => role.FileWorker?
    case Counting(_, _) => role.FileWorker?
    case LogLeaf(_, _) => role.FileWorker?
    case DirGot(_) => role.DirWorker?
    case DirDeleting(_, _) => role.DirWorker?
    case LogDir(_, _) => role.DirWorker?
    case Forgetting(_, _) => role.DirWorker?
    case RootDone(_) => role.DirWorker?
    case _ => role.Coordinator?
  }

  predicate ReadyFits(evs: Stream, r: Ready) {
    IsDir(evs, r.dir) && r.parent == ParentOf(evs, r.dir)
  }

  /** The subject is the kind of entry the program counter is about. */
  predicate KindFits(evs: Stream, role: Role, pc: Pc) {
    match pc
    case NewDir(i) => IsDir(evs, i) && ParentOf(evs, i).Some?
    case NewDirPending(i) => IsDir(evs, i) && ParentOf(evs, i).Some?
    case NewLeaf(i) => IsLeaf(evs, i)
    case LeafCheck(i) => IsLeaf(evs, i)
    case LeafSend(i) => IsLeaf(evs, i)
    case Got(i) => IsLeaf(evs, i)
    case Deleting(i, _) => IsLeaf(evs, i)
    case Counting(i, _) => IsLeaf(evs, i)
    case LogLeaf(i, _) => IsLeaf(evs, i)
    case DirGot(r) => ReadyFits(evs, r)
    case DirDeleting(r, _) => ReadyFits(evs, r)
    case LogDir(r, _) => ReadyFits(evs, r)
    case Forgetting(r, _) => ReadyFits(evs, r)
    case Sending(r) => ReadyFits(evs, r)
    case RootDone(i) => i == 0
    case Completing(i, _) => ParentOf(evs, i).Some? && (if role.DirWorker? then IsDir(evs, i) else IsLeaf(evs, i))
    case Finalising(d) => IsDir(evs, d)
    case _ => true
  }

  /** Children of d that were announced to it and are not resolved yet. */
  function Open(evs: Stream, loc: map<nat, Loc>, d: nat): set<nat> {
    set i | i in loc && ChildOf(evs, i, d) && !loc[i].Announcing? && !loc[i].Settled?
  }

  predicate Remains(verdict: map<nat, Verdict>, i: nat) {
    !(i in verdict && verdict[i].WasDeleted?)
  }

  /** Resolved children of d that are still there. */
  function Left(evs: Stream, loc: map<nat, Loc>, verdict: map<nat, Verdict>, d: nat): set<nat> {
    set i | i in loc && ChildOf(evs, i, d) && loc[i].Settled? && Remains(verdict, i)
  }

  /** Where the completion of d stands in the stream. */
  ghost function ListedPos(evs: Stream, d: nat): (j: nat)
    ensures (exists k: nat :: ListedAt(evs, k, d)) ==> ListedAt(evs, j, d)
  {
    if k: nat :| ListedAt(evs, k, d) then k else |evs|
  }

  /** The coordinator has marked the enumeration of d as done. */
  ghost predicate Marked(c: Config, s: State, d: nat) {
    |s.threads| > 0 && s.threads[0] != MarkDir(d) && ListedPos(c.evs, d) < s.consumed
  }

  predicate InTracker(c: Config, s: State, d: nat) {
    IsDir(c.evs, d) && d in s.loc
    && match s.loc[d]
       case Announcing => |s.threads| > 0 && s.threads[0].NewDirPending?
       case Live => true
       case ReadyQueue => true
       case Held(t) => t < |s.threads| && !Forgotten(s.threads[t])
       case FileQueue => false
       case Settled => false
  }

  predicate IsFinalised(s: State, d: nat) {
    d in s.loc && (s.loc[d].ReadyQueue?
                   || (s.loc[d].Held? && s.loc[d].owner < |s.threads| && HandedOver(s.threads[s.loc[d].owner])))
  }

  // ---------------------------------------------------------------------------------------------------------------
  // The invariant
  // ---------------------------------------------------------------------------------------------------------------

  /** The state is the right size, and the coordinator is not ahead of the enumerator. */
  ghost predicate Sane(c: Config, s: State) {
    ValidConfig(c) && |s.threads| == 1 + c.dirWorkers + c.fileWorkers && 1 <= s.consumed <= s.emitted <= |c.evs|
  }

  /** A thread does what its role allows, and the entry it works on is its own. */
  predicate ThreadFits(c: Config, s: State, t: nat) {
    && t < |s.threads|
    && RoleAllows(RoleOf(c, t), s.threads[t]) && KindFits(c.evs, RoleOf(c, t), s.threads[t])
    && (s.threads[t].MarkDir? ==> s.consumed > 0 && ListedAt(c.evs, s.consumed - 1, s.threads[t].d))
    && (Subject(s.threads[t]).Some? ==>
          var i := Subject(s.threads[t]).value;
          i in s.loc && s.loc[i] == if Unannounced(s.threads[t]) then Announcing else Held(t))
  }

  /** An entry is known once it has been received, and if a thread is said to have it, that thread has it. */
  predicate EntryFits(c: Config, s: State, i: nat) {
    && (i in s.loc <==> i < s.consumed && IsEntry(c.evs, i))
    && (i in s.loc && s.loc[i].Held? ==>
          && s.loc[i].owner < |s.threads|
          && Subject(s.threads[s.loc[i].owner]) == Some(i) && !Unannounced(s.threads[s.loc[i].owner]))
    && (i in s.loc && s.loc[i].Announcing? ==>
          |s.threads| > 0 && Subject(s.threads[0]) == Some(i) && Unannounced(s.threads[0]) && i == s.consumed - 1)
    && (i in s.loc && s.loc[i].Live? ==> IsDir(c.evs, i))
  }

  /** Each entry is the business of exactly one thread or queue, and `loc` says which. */
  ghost predicate Owned(c: Config, s: State) {
    && Sane(c, s)
    && (forall t: nat :: t < |s.threads| ==> ThreadFits(c, s, t))
    && (forall i: nat :: EntryFits(c, s, i))
  }

  ghost predicate Queued(c: Config, s: State) {
    && (forall k :: 0 <= k < |s.fileQ| ==>
          s.fileQ[k] in s.loc && s.loc[s.fileQ[k]].FileQueue? && IsLeaf(c.evs, s.fileQ[k]))
    && (forall j, k :: 0 <= j < k < |s.fileQ| ==> s.fileQ[j] != s.fileQ[k])
    && (forall i: nat :: i in s.loc && s.loc[i].FileQueue? ==> exists k :: 0 <= k < |s.fileQ| && s.fileQ[k] == i)
    && (forall k :: 0 <= k < |s.readyQ| ==>
          s.readyQ[k].dir in s.loc && s.loc[s.readyQ[k].dir].ReadyQueue? && ReadyFits(c.evs, s.readyQ[k]))
    && (forall j, k :: 0 <= j < k < |s.readyQ| ==> s.readyQ[j].dir != s.readyQ[k].dir)
    && (forall i: nat :: i in s.loc && s.loc[i].ReadyQueue? ==> exists k :: 0 <= k < |s.readyQ| && s.readyQ[k].dir == i)
  }

  ghost predicate DirOk(c: Config, s: State, d: nat) {
    && d in s.tracker
    && s.tracker[d].parent == ParentOf(c.evs, d)
    && s.tracker[d].pending == |Open(c.evs, s.loc, d)|
    && s.tracker[d].stillPresent == |Left(c.evs, s.loc, s.verdict, d)|
    && (s.tracker[d].enumerationDone <==> Marked(c, s, d))
    && (s.tracker[d].finalised <==> IsFinalised(s, d))
  }

  /**
   Everything the invariant says about one directory: it is in the tracker exactly while it is the tracker's business,
   its record there is exact, and it leaves the waiting state exactly when it is listed and has no open child.
   */
  ghost predicate DirInv(c: Config, s: State, d: nat) {
    && (d in s.tracker <==> InTracker(c, s, d))
    && (d in s.tracker ==> DirOk(c, s, d))
    && (d in s.loc && IsDir(c.evs, d) && s.loc[d].Live? ==> !(Marked(c, s, d) && Open(c.evs, s.loc, d) == {}))
    && (d in s.loc && IsDir(c.evs, d) && !s.loc[d].Live? && !s.loc[d].Announcing? ==>
          Marked(c, s, d) && Open(c.evs, s.loc, d) == {})
  }

  /** How the entry a thread holds has been counted so far. */
  predicate PcVerdict(c: Config, pc: Pc, verdict: map<nat, Verdict>, i: nat) {
    match pc
    case Completing(_, kept) => i in verdict && kept == Remains(verdict, i)
    case Forgetting(r, kept) => i in verdict && kept == Remains(verdict, i) && !(i == 0 && c.preserveRoot)
    case LogLeaf(_, _) => i in verdict && verdict[i].HasFailed?
    case LogDir(_, _) => i in verdict && verdict[i].HasFailed? && !(i == 0 && c.preserveRoot)
    case RootDone(_) => i in verdict <==> !c.preserveRoot
    case DirDeleting(_, _) => i !in verdict && !(i == 0 && c.preserveRoot)
    case _ => i !in verdict
  }

  /** An entry is counted once, on its way from being handled to being resolved; a preserved root never is. */
  predicate VerdictInv(c: Config, s: State, i: nat) {
    if i !in s.loc then i !in s.verdict else
    match s.loc[i]
    case Settled => i in s.verdict <==> !(i == 0 && c.preserveRoot)
    case Held(t) => t < |s.threads| && PcVerdict(c, s.threads[t], s.verdict, i)
    case _ => i !in s.verdict
  }

  /** The part of the invariant about threads and queues. */
  ghost predicate Book(c: Config, s: State) {
    Owned(c, s) && Queued(c, s)
  }

  ghost predicate Core(c: Config, s: State) {
    && Book(c, s)
    && (forall d: nat :: DirInv(c, s, d))
    && (forall i: nat :: VerdictInv(c, s, i))
  }

  /** What the invariant says in view of one directory or entry. */
  ghost predicate CoreAt(c: Config, s: State, i: nat) {
    Book(c, s) && DirInv(c, s, i) && VerdictInv(c, s, i)
  }

  /** The invariant, entry by entry: the form in which the proofs about single steps establish it. */
  ghost predicate Upheld(c: Config, s: State) {
    forall i: nat :: CoreAt(c, s, i)
  }

  lemma InitCore(c: Config, s: State)
    requires ValidConfig(c) && IsInit(c, s)
    ensures Core(c, s)
  {
    forall d: nat ensures DirInv(c, s, d) {
      assert Open(c.evs, s.loc, d) == {};
      assert Left(c.evs, s.loc, s.verdict, d) == {};
      assert forall j: nat :: ListedAt(c.evs, j, 0) ==> j > 0;
    }
  }

  lemma RootHasNoParent(evs: Stream, d: nat)
    requires WellFormed(evs) && IsDir(evs, d)
    ensures ParentOf(evs, d).None? <==> d == 0
  {
  }

  // ---------------------------------------------------------------------------------------------------------------
  // Steps that move a thread along without touching the tracker or `loc`
  // ---------------------------------------------------------------------------------------------------------------

  /** s and s' agree on everything the invariant reads except one program counter and the verdict on its subject. */
  ghost predicate Quiet(c: Config, s: State, s': State, t: nat) {
    && t < |s.threads| == |s'.threads|
    && s'.threads == s.threads[t := s'.threads[t]]
    && s'.emitted == s.emitted && s'.consumed == s.consumed
    && s'.fileQ == s.fileQ && s'.readyQ == s.readyQ && s'.tracker == s.tracker && s'.loc == s.loc
    && var pc := s.threads[t]; var pc' := s'.threads[t];
    && Subject(pc') == Subject(pc)
    && Unannounced(pc') == Unannounced(pc)
    && (Subject(pc).Some? && IsDir(c.evs, Subject(pc).value) ==>
          Forgotten(pc') == Forgotten(pc) && HandedOver(pc') == HandedOver(pc))
    && pc.NewDirPending? == pc'.NewDirPending?
    && !pc.MarkDir? && !pc'.MarkDir?
    && RoleAllows(RoleOf(c, t), pc') && KindFits(c.evs, RoleOf(c, t), pc')
    && (forall i: nat :: Subject(pc) != Some(i) ==>
          (i in s'.verdict <==> i in s.verdict) && (i in s.verdict ==> s'.verdict[i] == s.verdict[i]))
    && (Subject(pc').Some? && !Unannounced(pc') ==> PcVerdict(c, pc', s'.verdict, Subject(pc').value))
    && (Unannounced(pc') ==> s'.verdict == s.verdict)
  }

  lemma QuietThread(c: Config, s: State, s': State, t: nat, u: nat)
    requires ThreadFits(c, s, t) && ThreadFits(c, s, u) && Quiet(c, s, s', t)
    ensures ThreadFits(c, s', u)
  {
  }

  lemma QuietEntry(c: Config, s: State, s': State, t: nat, i: nat)
    requires ThreadFits(c, s, t) && EntryFits(c, s, i) && Quiet(c, s, s', t)
    ensures EntryFits(c, s', i)
  {
  }

  lemma QuietDir(c: Config, s: State, s': State, t: nat, d: nat)
    requires Sane(c, s) && ThreadFits(c, s, t) && EntryFits(c, s, d) && DirInv(c, s, d) && Quiet(c, s, s', t)
    ensures DirInv(c, s', d)
  {
    assert Left(c.evs, s'.loc, s'.verdict, d) == Left(c.evs, s.loc, s.verdict, d) by {
      assert Subject(s.threads[t]).Some? ==> !s.loc[Subject(s.threads[t]).value].Settled?;
    }
  }

  lemma QuietVerdict(c: Config, s: State, s': State, t: nat, i: nat)
    requires ThreadFits(c, s, t) && EntryFits(c, s, i) && VerdictInv(c, s, i) && Quiet(c, s, s', t)
    ensures VerdictInv(c, s', i)
  {
  }

  lemma QuietCore(c: Config, s: State, s': State, t: nat)
    requires Core(c, s) && Quiet(c, s, s', t)
    ensures Upheld(c, s')
  {
    forall u: nat | u < |s'.threads| ensures ThreadFits(c, s', u) {
      QuietThread(c, s, s', t, u);
    }
    forall d: nat ensures EntryFits(c, s', d) && DirInv(c, s', d) && VerdictInv(c, s', d) {
      QuietEntry(c, s, s', t, d);
      QuietDir(c, s, s', t, d);
      QuietVerdict(c, s, s', t, d);
    }
  }
}
