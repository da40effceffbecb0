/** Every step of the pipeline keeps the invariant. */
module PipelineSteps {
  import opened Wrappers
  import opened DirectoryTracking
  import opened Attempts
  import opened Report
  import opened Pipeline
  import opened PipelineInvariant

  predicate IsOpen(l: Loc) {
    !l.Announcing? && !l.Settled?
  }

  /** What moving one entry does to the sets of open and of remaining children. */
  lemma MoveEntry(evs: Stream, loc: map<nat, Loc>, verdict: map<nat, Verdict>, i: nat, l: Loc, d: nat)
    ensures var loc' := loc[i := l];
            && (!ChildOf(evs, i, d) || (i in loc && IsOpen(loc[i])) == IsOpen(l) ==>
                  Open(evs, loc', d) == Open(evs, loc, d))
            && (ChildOf(evs, i, d) && IsOpen(l) ==> Open(evs, loc', d) == Open(evs, loc, d) + {i})
            && (ChildOf(evs, i, d) && !IsOpen(l) ==> Open(evs, loc', d) == Open(evs, loc, d) - {i})
            && (!ChildOf(evs, i, d) || ((i in loc && loc[i].Settled?) == l.Settled?) ==>
                  Left(evs, loc', verdict, d) == Left(evs, loc, verdict, d))
            && (ChildOf(evs, i, d) && l.Settled? ==>
                  Left(evs, loc', verdict, d) == Left(evs, loc, verdict, d) + if Remains(verdict, i) then {i} else {})
  {
  }

  // ---------------------------------------------------------------------------------------------------------------
  // Responsibility passes from hand to hand
  // ---------------------------------------------------------------------------------------------------------------

  /** What a step does to the parts of the state that the invariant is about. */
  ghost predicate Moved(s: State, s': State, t: nat, pc: Pc, loc: map<nat, Loc>, tracker: Tracked) {
    && t < |s.threads|
    && s'.threads == s.threads[t := pc]
    && s'.loc == loc
    && s'.tracker == tracker
    && s'.verdict == s.verdict
    && s'.emitted == s.emitted && s'.consumed == s.consumed
  }

  /**
   Thread t moves on. It may let go of its subject, leaving it in a queue, waiting or settled, and it may take up one
   that no thread had.
   */
  ghost predicate Hands(c: Config, s: State, s': State, t: nat) {
    && t < |s.threads| == |s'.threads|
    && s'.threads == s.threads[t := s'.threads[t]]
    && s'.emitted == s.emitted && s'.consumed == s.consumed
    && s'.loc.Keys == s.loc.Keys
    && var pc' := s'.threads[t];
    && var was := Subject(s.threads[t]); var now := Subject(pc');
    && RoleAllows(RoleOf(c, t), pc') && KindFits(c.evs, RoleOf(c, t), pc') && !pc'.MarkDir?
    && (forall j: nat :: j in s.loc && was != Some(j) && now != Some(j) ==> s'.loc[j] == s.loc[j])
    && (now.Some? ==> now.value in s.loc && s'.loc[now.value] == if Unannounced(pc') then Announcing else Held(t))
    && (now.Some? && now != was ==> !s.loc[now.value].Held? && !s.loc[now.value].Announcing?)
    && (Unannounced(pc') ==> Unannounced(s.threads[t]) && now == was)
    && (was.Some? && now != was ==>
          && was.value in s.loc
          && !s'.loc[was.value].Held? && !s'.loc[was.value].Announcing?
          && (s'.loc[was.value].Live? ==> IsDir(c.evs, was.value)))
  }

  lemma HandsThread(c: Config, s: State, s': State, t: nat, u: nat)
    requires Hands(c, s, s', t) && ThreadFits(c, s, t) && ThreadFits(c, s, u)
    ensures ThreadFits(c, s', u)
  {
  }

  lemma HandsEntry(c: Config, s: State, s': State, t: nat, i: nat)
    requires Hands(c, s, s', t) && ThreadFits(c, s, t) && EntryFits(c, s, i)
    ensures EntryFits(c, s', i)
  {
  }

  lemma HandsOwned(c: Config, s: State, s': State, t: nat)
    requires Owned(c, s) && Hands(c, s, s', t)
    ensures Owned(c, s')
  {
    forall u: nat | u < |s'.threads| ensures ThreadFits(c, s', u) {
      HandsThread(c, s, s', t, u);
    }
    forall i: nat ensures EntryFits(c, s', i) {
      HandsEntry(c, s, s', t, i);
    }
  }

  ghost predicate QueuesKept(s: State, s': State) {
    && s'.fileQ == s.fileQ && s'.readyQ == s.readyQ && s'.loc.Keys == s.loc.Keys
    && (forall i: nat :: i in s.loc ==>
          (s'.loc[i].FileQueue? <==> s.loc[i].FileQueue?) && (s'.loc[i].ReadyQueue? <==> s.loc[i].ReadyQueue?))
  }

  lemma QueuesKeptQueued(c: Config, s: State, s': State)
    requires Queued(c, s) && QueuesKept(s, s')
    ensures Queued(c, s')
  {
  }

  // ---------------------------------------------------------------------------------------------------------------
  // The coordinator receives
  // ---------------------------------------------------------------------------------------------------------------

  ghost predicate Received(c: Config, s: State, s': State, pc: Pc, loc: map<nat, Loc>) {
    && Sane(c, s) && s.threads[0] == Idle && s.consumed < s.emitted
    && s'.threads == s.threads[0 := pc]
    && s'.loc == loc
    && s'.tracker == s.tracker && s'.verdict == s.verdict && s'.emitted == s.emitted
    && s'.consumed == s.consumed + 1
  }

  /** An entry arrives. */
  ghost predicate Arrives(c: Config, s: State, s': State, pc: Pc) {
    && Received(c, s, s', pc, s.loc[s.consumed := Announcing])
    && ParentOf(c.evs, s.consumed).Some?
    && pc == if IsLeaf(c.evs, s.consumed) then NewLeaf(s.consumed) else NewDir(s.consumed)
  }

  lemma ArriveThread(c: Config, s: State, s': State, pc: Pc, u: nat)
    requires Arrives(c, s, s', pc) && ThreadFits(c, s, u) && EntryFits(c, s, s.consumed)
    ensures ThreadFits(c, s', u)
  {
  }

  lemma ArriveEntry(c: Config, s: State, s': State, pc: Pc, i: nat)
    requires Arrives(c, s, s', pc) && EntryFits(c, s, i)
    ensures EntryFits(c, s', i)
  {
  }

  lemma ArriveOwned(c: Config, s: State, s': State, pc: Pc)
    requires Arrives(c, s, s', pc) && Owned(c, s)
    ensures Owned(c, s')
  {
    forall u: nat | u < |s'.threads| ensures ThreadFits(c, s', u) {
      ArriveThread(c, s, s', pc, u);
    }
    forall i: nat ensures EntryFits(c, s', i) {
      ArriveEntry(c, s, s', pc, i);
    }
  }

  lemma ArriveDir(c: Config, s: State, s': State, pc: Pc, d: nat)
    requires Arrives(c, s, s', pc) && DirInv(c, s, d)
    requires ThreadFits(c, s, 0) && EntryFits(c, s, d) && EntryFits(c, s, s.consumed)
    ensures DirInv(c, s', d)
  {
    MoveEntry(c.evs, s.loc, s.verdict, s.consumed, Announcing, d);
    assert IsDir(c.evs, d) ==> ListedAt(c.evs, ListedPos(c.evs, d), d);
  }

  lemma ArriveVerdict(c: Config, s: State, s': State, pc: Pc, i: nat)
    requires Arrives(c, s, s', pc) && VerdictInv(c, s, i)
    requires ThreadFits(c, s, 0) && EntryFits(c, s, i)
    ensures VerdictInv(c, s', i)
  {
  }

  /** A completion or a listing failure arrives. */
  ghost predicate Notices(c: Config, s: State, s': State, pc: Pc) {
    && Received(c, s, s', pc, s.loc)
    && !IsEntry(c.evs, s.consumed)
    && pc == if c.evs[s.consumed].Listed? then MarkDir(c.evs[s.consumed].dir) else LogListing
  }

  lemma NoticeThread(c: Config, s: State, s': State, pc: Pc, u: nat)
    requires Notices(c, s, s', pc) && ThreadFits(c, s, u)
    ensures ThreadFits(c, s', u)
  {
  }

  lemma NoticeEntry(c: Config, s: State, s': State, pc: Pc, i: nat)
    requires Notices(c, s, s', pc) && EntryFits(c, s, i)
    ensures EntryFits(c, s', i)
  {
  }

  lemma NoticeOwned(c: Config, s: State, s': State, pc: Pc)
    requires Notices(c, s, s', pc) && Owned(c, s)
    ensures Owned(c, s')
  {
    forall u: nat | u < |s'.threads| ensures ThreadFits(c, s', u) {
      NoticeThread(c, s, s', pc, u);
    }
    forall i: nat ensures EntryFits(c, s', i) {
      NoticeEntry(c, s, s', pc, i);
    }
  }

  lemma NoticeDir(c: Config, s: State, s': State, pc: Pc, d: nat)
    requires Notices(c, s, s', pc) && DirInv(c, s, d)
    requires ThreadFits(c, s, 0) && EntryFits(c, s, d)
    ensures DirInv(c, s', d)
  {
    if IsDir(c.evs, d) {
      assert ListedAt(c.evs, ListedPos(c.evs, d), d);
      if c.evs[s.consumed].Listed? {
        assert ListedAt(c.evs, s.consumed, c.evs[s.consumed].dir);
      }
      assert Marked(c, s', d) == Marked(c, s, d);
    }
  }

  lemma NoticeVerdict(c: Config, s: State, s': State, pc: Pc, i: nat)
    requires Notices(c, s, s', pc) && VerdictInv(c, s, i)
    requires ThreadFits(c, s, 0) && EntryFits(c, s, i)
    ensures VerdictInv(c, s', i)
  {
  }

  // ---------------------------------------------------------------------------------------------------------------
  // The coordinator registers
  // ---------------------------------------------------------------------------------------------------------------

  ghost predicate Inserts(c: Config, s: State, s': State, i: nat) {
    && Sane(c, s) && s.threads[0] == NewDir(i)
    && Moved(s, s', 0, NewDirPending(i), s.loc, Insert(s.tracker, i, ParentOf(c.evs, i)))
  }

  lemma InsertOwned(c: Config, s: State, s': State, i: nat)
    requires Inserts(c, s, s', i)
    requires Owned(c, s)
    ensures Owned(c, s')
  {
    assert ThreadFits(c, s, 0);
    HandsOwned(c, s, s', 0);
  }

  lemma InsertDir(c: Config, s: State, s': State, i: nat, d: nat)
    requires Inserts(c, s, s', i) && DirInv(c, s, d)
    requires ThreadFits(c, s, 0) && EntryFits(c, s, d) && forall j: nat :: j in s.loc ==> j < s.consumed
    ensures DirInv(c, s', d)
  {
    if d == i {
      assert ListedAt(c.evs, ListedPos(c.evs, d), d);
      assert forall j: nat :: ChildOf(c.evs, j, d) ==> d < j;
      assert Open(c.evs, s.loc, d) == {};
      assert Left(c.evs, s.loc, s.verdict, d) == {};
    }
  }

  lemma InsertVerdict(c: Config, s: State, s': State, i: nat, j: nat)
    requires Inserts(c, s, s', i) && VerdictInv(c, s, j)
    requires ThreadFits(c, s, 0) && EntryFits(c, s, j)
    ensures VerdictInv(c, s', j)
  {
  }

  ghost predicate Announces(c: Config, s: State, s': State, i: nat, pc': Pc, l: Loc) {
    && Sane(c, s)
    && ((s.threads[0] == NewDirPending(i) && pc' == Idle && l == Live)
        || (s.threads[0] == NewLeaf(i) && pc' == LeafCheck(i) && l == Held(0)))
    && Moved(s, s', 0, pc', s.loc[i := l], AnnounceTo(s.tracker, ParentOf(c.evs, i)))
  }

  lemma AnnounceOwned(c: Config, s: State, s': State, i: nat, pc': Pc, l: Loc)
    requires Announces(c, s, s', i, pc', l)
    requires Owned(c, s)
    ensures Owned(c, s')
  {
    assert ThreadFits(c, s, 0);
    HandsOwned(c, s, s', 0);
  }

  lemma AnnounceDir(c: Config, s: State, s': State, i: nat, pc': Pc, l: Loc, d: nat)
    requires Announces(c, s, s', i, pc', l) && DirInv(c, s, d) && EntryFits(c, s, i)
    requires ThreadFits(c, s, 0) && EntryFits(c, s, d)
    ensures DirInv(c, s', d)
  {
    MoveEntry(c.evs, s.loc, s.verdict, i, l, d);
    if (d == i && IsDir(c.evs, d)) || ChildOf(c.evs, i, d) {
      assert ListedAt(c.evs, ListedPos(c.evs, d), d);
      assert !Marked(c, s, d);
      assert d in s.loc;
    }
  }

  lemma AnnounceVerdict(c: Config, s: State, s': State, i: nat, pc': Pc, l: Loc, j: nat)
    requires Announces(c, s, s', i, pc', l) && VerdictInv(c, s, j)
    requires ThreadFits(c, s, 0) && EntryFits(c, s, j)
    ensures VerdictInv(c, s', j)
  {
  }

  // ---------------------------------------------------------------------------------------------------------------
  // A directory's listing is complete
  // ---------------------------------------------------------------------------------------------------------------

  ghost predicate Marks(c: Config, s: State, s': State, m: nat) {
    && Sane(c, s) && s.threads[0] == MarkDir(m) && DirInv(c, s, m)
    && var (tracker, ready) := MarkListed(s.tracker, m);
       Moved(s, s', 0, if ready then Finalising(m) else Idle, if ready then s.loc[m := Held(0)] else s.loc, tracker)
  }

  /** The directory being marked is waiting: nobody else can have moved it on. */
  lemma MarkedIsLive(c: Config, s: State, s': State, m: nat)
    requires Marks(c, s, s', m) && ThreadFits(c, s, 0) && EntryFits(c, s, m)
    ensures IsDir(c.evs, m) && m in s.loc && s.loc[m].Live? && m in s.tracker && ListedPos(c.evs, m) == s.consumed - 1
  {
    assert ListedAt(c.evs, s.consumed - 1, m);
    assert ListedAt(c.evs, ListedPos(c.evs, m), m);
  }

  lemma MarkOwned(c: Config, s: State, s': State, m: nat)
    requires Marks(c, s, s', m)
    requires Owned(c, s)
    ensures Owned(c, s')
  {
    assert ThreadFits(c, s, 0) && EntryFits(c, s, m);
    MarkedIsLive(c, s, s', m);
    assert ThreadFits(c, s, 0);
    HandsOwned(c, s, s', 0);
  }

  lemma MarkDirectory(c: Config, s: State, s': State, m: nat, d: nat)
    requires Marks(c, s, s', m) && DirInv(c, s, d)
    requires ThreadFits(c, s, 0) && EntryFits(c, s, d) && EntryFits(c, s, m)
    ensures DirInv(c, s', d)
  {
    MarkedIsLive(c, s, s', m);
    MoveEntry(c.evs, s.loc, s.verdict, m, Held(0), d);
  }

  lemma MarkVerdict(c: Config, s: State, s': State, m: nat, i: nat)
    requires Marks(c, s, s', m) && VerdictInv(c, s, i)
    requires ThreadFits(c, s, 0) && EntryFits(c, s, i) && EntryFits(c, s, m)
    ensures VerdictInv(c, s', i)
  {
    MarkedIsLive(c, s, s', m);
  }

  // ---------------------------------------------------------------------------------------------------------------
  // Queues
  // ---------------------------------------------------------------------------------------------------------------

  /** A thread leaves its subject in a queue. */
  ghost predicate Leaves(c: Config, s: State, s': State, t: nat, i: nat, l: Loc) {
    && Sane(c, s) && t < |s.threads| && i in s.loc
    && ((s.threads[t] == LeafSend(i) && l == FileQueue)
        || (s.threads[t].Sending? && s.threads[t].r.dir == i && l == ReadyQueue))
    && Moved(s, s', t, Idle, s.loc[i := l], s.tracker)
  }

  lemma LeaveOwned(c: Config, s: State, s': State, t: nat, i: nat, l: Loc)
    requires Leaves(c, s, s', t, i, l)
    requires Owned(c, s)
    ensures Owned(c, s')
  {
    assert ThreadFits(c, s, t);
    HandsOwned(c, s, s', t);
  }

  lemma LeaveDir(c: Config, s: State, s': State, t: nat, i: nat, l: Loc, d: nat)
    requires Leaves(c, s, s', t, i, l) && DirInv(c, s, d)
    requires ThreadFits(c, s, t) && EntryFits(c, s, d)
    ensures DirInv(c, s', d)
  {
    hide Open, Left, ValidConfig;
    MoveEntry(c.evs, s.loc, s.verdict, i, l, d);
  }

  lemma LeaveVerdict(c: Config, s: State, s': State, t: nat, i: nat, l: Loc, j: nat)
    requires Leaves(c, s, s', t, i, l) && VerdictInv(c, s, j)
    requires ThreadFits(c, s, t) && EntryFits(c, s, j)
    ensures VerdictInv(c, s', j)
  {
  }

  /** A worker takes an entry out of its queue. */
  ghost predicate TakesUp(c: Config, s: State, s': State, t: nat, i: nat, pc: Pc) {
    && Sane(c, s) && t < |s.threads| && i in s.loc && s.threads[t] == Idle
    && ((RoleOf(c, t).FileWorker? && s.loc[i].FileQueue? && IsLeaf(c.evs, i) && pc == Got(i))
        || (RoleOf(c, t).DirWorker? && s.loc[i].ReadyQueue? && pc.DirGot? && pc.r.dir == i && ReadyFits(c.evs, pc.r)))
    && Moved(s, s', t, pc, s.loc[i := Held(t)], s.tracker)
  }

  lemma TakeUpOwned(c: Config, s: State, s': State, t: nat, i: nat, pc: Pc)
    requires TakesUp(c, s, s', t, i, pc)
    requires Owned(c, s)
    ensures Owned(c, s')
  {
    assert ThreadFits(c, s, t);
    HandsOwned(c, s, s', t);
  }

  lemma TakeUpDir(c: Config, s: State, s': State, t: nat, i: nat, pc: Pc, d: nat)
    requires TakesUp(c, s, s', t, i, pc) && DirInv(c, s, d)
    requires ThreadFits(c, s, t) && EntryFits(c, s, d)
    ensures DirInv(c, s', d)
  {
    MoveEntry(c.evs, s.loc, s.verdict, i, Held(t), d);
  }

  lemma TakeUpVerdict(c: Config, s: State, s': State, t: nat, i: nat, pc: Pc, j: nat)
    requires TakesUp(c, s, s', t, i, pc) && VerdictInv(c, s, j)
    requires ThreadFits(c, s, t) && EntryFits(c, s, j)
    ensures VerdictInv(c, s', j)
  {
  }

  lemma QueueLeafQueued(c: Config, s: State, s': State, i: nat)
    requires Sane(c, s) && Queued(c, s) && ThreadFits(c, s, 0) && s.threads[0] == LeafSend(i)
    requires s'.fileQ == s.fileQ + [i] && s'.readyQ == s.readyQ && s'.loc == s.loc[i := FileQueue]
    ensures Queued(c, s')
  {
    assert s'.fileQ[|s.fileQ|] == i;
    forall j: nat | j in s'.loc && s'.loc[j].FileQueue?
      ensures exists k :: 0 <= k < |s'.fileQ| && s'.fileQ[k] == j
    {
      if j != i {
        var k :| 0 <= k < |s.fileQ| && s.fileQ[k] == j;
        assert s'.fileQ[k] == j;
      }
    }
  }

  lemma TakeFileQueued(c: Config, s: State, s': State, t: nat)
    requires Queued(c, s) && |s.fileQ| > 0
    requires s'.fileQ == s.fileQ[1..] && s'.readyQ == s.readyQ && s'.loc == s.loc[s.fileQ[0] := Held(t)]
    ensures Queued(c, s')
  {
    forall j: nat | j in s'.loc && s'.loc[j].FileQueue?
      ensures exists k :: 0 <= k < |s'.fileQ| && s'.fileQ[k] == j
    {
      var k :| 0 <= k < |s.fileQ| && s.fileQ[k] == j;
      assert s'.fileQ[k - 1] == j;
    }
  }

  lemma SendQueued(c: Config, s: State, s': State, t: nat, r: Ready)
    requires Queued(c, s) && ReadyFits(c.evs, r) && r.dir in s.loc && s.loc[r.dir] == Held(t)
    requires s'.readyQ == s.readyQ + [r] && s'.fileQ == s.fileQ && s'.loc == s.loc[r.dir := ReadyQueue]
    ensures Queued(c, s')
  {
    assert s'.readyQ[|s.readyQ|] == r;
    forall j: nat | j in s'.loc && s'.loc[j].ReadyQueue?
      ensures exists k :: 0 <= k < |s'.readyQ| && s'.readyQ[k].dir == j
    {
      if j != r.dir {
        var k :| 0 <= k < |s.readyQ| && s.readyQ[k].dir == j;
        assert s'.readyQ[k].dir == j;
      }
    }
  }

  lemma TakeReadyQueued(c: Config, s: State, s': State, t: nat)
    requires Queued(c, s) && |s.readyQ| > 0
    requires s'.readyQ == s.readyQ[1..] && s'.fileQ == s.fileQ && s'.loc == s.loc[s.readyQ[0].dir := Held(t)]
    ensures Queued(c, s')
  {
    forall j: nat | j in s'.loc && s'.loc[j].ReadyQueue?
      ensures exists k :: 0 <= k < |s'.readyQ| && s'.readyQ[k].dir == j
    {
      var k :| 0 <= k < |s.readyQ| && s.readyQ[k].dir == j;
      assert s'.readyQ[k - 1].dir == j;
    }
  }

  // ---------------------------------------------------------------------------------------------------------------
  // The end of a directory
  // ---------------------------------------------------------------------------------------------------------------

  /** `try_finalise` never finds the directory gone or already finalised, whoever ran since the ready check. */
  lemma FinaliseSucceeds(c: Config, s: State, t: nat, m: nat)
    requires Sane(c, s) && ThreadFits(c, s, t) && s.threads[t] == Finalising(m) && DirInv(c, s, m)
    ensures m in s.tracker && !s.tracker[m].finalised
    ensures Finalise(s.tracker, m).1
            == Some(Ready(m, ParentOf(c.evs, m), |Left(c.evs, s.loc, s.verdict, m)| > 0))
  {
  }

  ghost predicate Finalises(c: Config, s: State, s': State, t: nat, m: nat) {
    && Sane(c, s) && t < |s.threads| && s.threads[t] == Finalising(m) && DirInv(c, s, m)
    && var (tracker, ready) := Finalise(s.tracker, m);
       Moved(s, s', t, if ready.Some? then Sending(ready.value) else Idle, s.loc, tracker)
  }

  lemma FinaliseOwned(c: Config, s: State, s': State, t: nat, m: nat)
    requires Finalises(c, s, s', t, m)
    requires Owned(c, s)
    ensures Owned(c, s')
  {
    assert ThreadFits(c, s, t);
    FinaliseSucceeds(c, s, t, m);
    HandsOwned(c, s, s', t);
  }

  lemma FinaliseDir(c: Config, s: State, s': State, t: nat, m: nat, d: nat)
    requires Finalises(c, s, s', t, m) && DirInv(c, s, d)
    requires ThreadFits(c, s, t) && EntryFits(c, s, d)
    ensures DirInv(c, s', d)
  {
    FinaliseSucceeds(c, s, t, m);
  }

  lemma FinaliseVerdict(c: Config, s: State, s': State, t: nat, m: nat, j: nat)
    requires Finalises(c, s, s', t, m) && VerdictInv(c, s, j)
    requires ThreadFits(c, s, t) && EntryFits(c, s, j)
    ensures VerdictInv(c, s', j)
  {
    FinaliseSucceeds(c, s, t, m);
  }

  /** Forgetting a directory, both at the end of its removal and for a preserved root. */
  ghost predicate Forgets(c: Config, s: State, s': State, t: nat, r: Ready, pc': Pc) {
    && Sane(c, s) && t < |s.threads| && Subject(s.threads[t]) == Some(r.dir)
    && HandedOver(s.threads[t]) && ReadyFits(c.evs, r) && RoleOf(c, t).DirWorker?
    && Forgotten(pc') && Subject(pc') == Some(r.dir) && KindFits(c.evs, RoleOf(c, t), pc')
    && Moved(s, s', t, pc', s.loc, Forget(s.tracker, r.dir))
    && PcVerdict(c, pc', s.verdict, r.dir)
  }

  lemma ForgetOwned(c: Config, s: State, s': State, t: nat, r: Ready, pc': Pc)
    requires Forgets(c, s, s', t, r, pc')
    requires Owned(c, s)
    ensures Owned(c, s')
  {
    assert ThreadFits(c, s, t);
    HandsOwned(c, s, s', t);
  }

  lemma ForgetDir(c: Config, s: State, s': State, t: nat, r: Ready, pc': Pc, d: nat)
    requires Forgets(c, s, s', t, r, pc') && DirInv(c, s, d)
    requires ThreadFits(c, s, t) && EntryFits(c, s, d)
    ensures DirInv(c, s', d)
  {
  }

  lemma ForgetVerdict(c: Config, s: State, s': State, t: nat, r: Ready, pc': Pc, i: nat)
    requires Forgets(c, s, s', t, r, pc') && VerdictInv(c, s, i)
    requires ThreadFits(c, s, t) && EntryFits(c, s, i)
    ensures VerdictInv(c, s', i)
  {
  }

  ghost predicate FinishesRoot(c: Config, s: State, s': State, t: nat, i: nat) {
    && Sane(c, s) && t < |s.threads| && s.threads[t] == RootDone(i)
    && Moved(s, s', t, Idle, s.loc[i := Settled], s.tracker)
  }

  lemma RootDoneOwned(c: Config, s: State, s': State, t: nat, i: nat)
    requires FinishesRoot(c, s, s', t, i)
    requires Owned(c, s)
    ensures Owned(c, s')
  {
    assert ThreadFits(c, s, t);
    HandsOwned(c, s, s', t);
  }

  lemma RootDoneDir(c: Config, s: State, s': State, t: nat, i: nat, d: nat)
    requires FinishesRoot(c, s, s', t, i) && DirInv(c, s, d)
    requires ThreadFits(c, s, t) && EntryFits(c, s, d)
    ensures DirInv(c, s', d)
  {
    MoveEntry(c.evs, s.loc, s.verdict, i, Settled, d);
    assert !ChildOf(c.evs, 0, d);
  }

  lemma RootDoneVerdict(c: Config, s: State, s': State, t: nat, i: nat, j: nat)
    requires FinishesRoot(c, s, s', t, i) && VerdictInv(c, s, j)
    requires ThreadFits(c, s, t) && EntryFits(c, s, j)
    ensures VerdictInv(c, s', j)
  {
  }

  // ---------------------------------------------------------------------------------------------------------------
  // A child is resolved
  // ---------------------------------------------------------------------------------------------------------------

  /** The parent of an entry that is not resolved yet is in the tracker and still waiting. */
  lemma ParentWaits(c: Config, s: State, i: nat, p: nat)
    requires Sane(c, s) && DirInv(c, s, p) && EntryFits(c, s, i) && EntryFits(c, s, p)
    requires i in s.loc && ChildOf(c.evs, i, p) && IsOpen(s.loc[i])
    ensures p in s.loc && s.loc[p].Live? && p in s.tracker && !s.tracker[p].finalised && s.tracker[p].pending > 0
  {
    assert i in Open(c.evs, s.loc, p);
    assert p in s.loc;
  }

  ghost predicate Completes(c: Config, s: State, s': State, t: nat, i: nat, p: nat, kept: bool) {
    && Sane(c, s) && t < |s.threads| && s.threads[t] == Completing(i, kept)
    && ChildOf(c.evs, i, p) && DirInv(c, s, p) && VerdictInv(c, s, i)
    && var (tracker, ready) := ResolveChild(s.tracker, p, kept);
       Moved(s, s', t, if ready then Finalising(p) else Idle,
             if ready then s.loc[i := Settled][p := Held(t)] else s.loc[i := Settled], tracker)
  }

  lemma CompleteOwned(c: Config, s: State, s': State, t: nat, i: nat, p: nat, kept: bool)
    requires Completes(c, s, s', t, i, p, kept)
    requires Owned(c, s)
    ensures Owned(c, s')
  {
    assert ThreadFits(c, s, t) && EntryFits(c, s, i) && EntryFits(c, s, p);
    ParentWaits(c, s, i, p);
    HandsOwned(c, s, s', t);
  }

  /** Whether the parent looks ready once this child is resolved. */
  predicate WakesParent(s: State, p: nat, kept: bool) {
    ResolveChild(s.tracker, p, kept).1
  }

  /** What resolving child i does to its parent's counts, whether or not the parent is then taken up by thread t. */
  lemma ResolvedCounts(evs: Stream, loc: map<nat, Loc>, verdict: map<nat, Verdict>, t: nat, i: nat, p: nat)
    requires i in loc && IsOpen(loc[i]) && ChildOf(evs, i, p) && p in loc && loc[p].Live? && i != p
    ensures var after := loc[i := Settled];
            && |Open(evs, after, p)| == |Open(evs, loc, p)| - 1
            && |Left(evs, after, verdict, p)| == |Left(evs, loc, verdict, p)| + (if Remains(verdict, i) then 1 else 0)
            && Open(evs, after[p := Held(t)], p) == Open(evs, after, p)
            && Left(evs, after[p := Held(t)], verdict, p) == Left(evs, after, verdict, p)
  {
    MoveEntry(evs, loc, verdict, i, Settled, p);
    MoveEntry(evs, loc[i := Settled], verdict, p, Held(t), p);
    assert i in Open(evs, loc, p) && i !in Left(evs, loc, verdict, p);
  }

  lemma CompleteWaitingParent(c: Config, s: State, s': State, t: nat, i: nat, p: nat, kept: bool)
    requires Completes(c, s, s', t, i, p, kept) && !WakesParent(s, p, kept)
    requires ThreadFits(c, s, t) && EntryFits(c, s, p) && EntryFits(c, s, i)
    ensures DirInv(c, s', p)
  {
    ParentWaits(c, s, i, p);
    ResolvedCounts(c.evs, s.loc, s.verdict, t, i, p);
  }

  lemma CompleteWokenParent(c: Config, s: State, s': State, t: nat, i: nat, p: nat, kept: bool)
    requires Completes(c, s, s', t, i, p, kept) && WakesParent(s, p, kept)
    requires ThreadFits(c, s, t) && EntryFits(c, s, p) && EntryFits(c, s, i)
    ensures DirInv(c, s', p)
  {
    ParentWaits(c, s, i, p);
    ResolvedCounts(c.evs, s.loc, s.verdict, t, i, p);
  }

  lemma CompleteParent(c: Config, s: State, s': State, t: nat, i: nat, p: nat, kept: bool)
    requires Completes(c, s, s', t, i, p, kept)
    requires ThreadFits(c, s, t) && EntryFits(c, s, p) && EntryFits(c, s, i)
    ensures DirInv(c, s', p)
  {
    if WakesParent(s, p, kept) {
      CompleteWokenParent(c, s, s', t, i, p, kept);
    } else {
      CompleteWaitingParent(c, s, s', t, i, p, kept);
    }
  }

  lemma CompleteOther(c: Config, s: State, s': State, t: nat, i: nat, p: nat, kept: bool, d: nat)
    requires Completes(c, s, s', t, i, p, kept) && DirInv(c, s, d) && d != p
    requires ThreadFits(c, s, t) && EntryFits(c, s, d) && EntryFits(c, s, p) && EntryFits(c, s, i)
    ensures DirInv(c, s', d)
  {
    ParentWaits(c, s, i, p);
    MoveEntry(c.evs, s.loc, s.verdict, i, Settled, d);
    MoveEntry(c.evs, s.loc[i := Settled], s.verdict, p, Held(t), d);
  }

  lemma CompleteVerdict(c: Config, s: State, s': State, t: nat, i: nat, p: nat, kept: bool, j: nat)
    requires Completes(c, s, s', t, i, p, kept) && VerdictInv(c, s, j)
    requires ThreadFits(c, s, t) && EntryFits(c, s, j) && EntryFits(c, s, p) && EntryFits(c, s, i)
    ensures VerdictInv(c, s', j)
  {
    ParentWaits(c, s, i, p);
  }
}
