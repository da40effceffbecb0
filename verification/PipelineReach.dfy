/** The invariant holds in every state of every run. */
module PipelineReach {
  import opened Wrappers
  import opened DirectoryTracking
  import opened Attempts
  import opened Report
  import opened Pipeline
  import opened PipelineInvariant
  import opened PipelineSteps

  lemma CoreParts(c: Config, s: State, d: nat)
    requires Core(c, s)
    ensures Sane(c, s) && Owned(c, s) && Queued(c, s)
    ensures EntryFits(c, s, d) && DirInv(c, s, d) && VerdictInv(c, s, d)
  {
  }

  lemma ArriveCore(c: Config, s: State, s': State, pc: Pc)
    requires Core(c, s) && Arrives(c, s, s', pc) && s'.fileQ == s.fileQ && s'.readyQ == s.readyQ
    ensures Upheld(c, s')
  {
    ArriveOwned(c, s, s', pc);
    assert EntryFits(c, s, s.consumed);
    ArriveQueued(c, s, s');
    forall d: nat ensures DirInv(c, s', d) && VerdictInv(c, s', d) {
      CoreParts(c, s, d);
      ArriveDir(c, s, s', pc, d);
      ArriveVerdict(c, s, s', pc, d);
    }
  }

  lemma NoticeCore(c: Config, s: State, s': State, pc: Pc)
    requires Core(c, s) && Notices(c, s, s', pc) && s'.fileQ == s.fileQ && s'.readyQ == s.readyQ
    ensures Upheld(c, s')
  {
    NoticeOwned(c, s, s', pc);
    QueuesKeptQueued(c, s, s');
    forall d: nat ensures DirInv(c, s', d) && VerdictInv(c, s', d) {
      CoreParts(c, s, d);
      NoticeDir(c, s, s', pc, d);
      NoticeVerdict(c, s, s', pc, d);
    }
  }

  /** What arrives is an entry with a parent, a completion or a listing failure. */
  lemma ReceiveCases(c: Config, s: State)
    requires Sane(c, s) && s.threads[0] == Idle && s.consumed < s.emitted
    ensures var s' := StepReceive(c, s, 0);
            && s'.fileQ == s.fileQ && s'.readyQ == s.readyQ
            && if IsEntry(c.evs, s.consumed) then Arrives(c, s, s', s'.threads[0]) else Notices(c, s, s', s'.threads[0])
  {
  }

  lemma ReceiveCore(c: Config, s: State)
    requires ValidConfig(c) && Core(c, s) && s.threads[0] == Idle && s.consumed < s.emitted
    ensures Upheld(c, StepReceive(c, s, 0))
  {
    var s' := StepReceive(c, s, 0);
    ReceiveCases(c, s);
    if IsEntry(c.evs, s.consumed) {
      ArriveCore(c, s, s', s'.threads[0]);
    } else {
      NoticeCore(c, s, s', s'.threads[0]);
    }
  }

  lemma ArriveQueued(c: Config, s: State, s': State)
    requires Queued(c, s) && s'.fileQ == s.fileQ && s'.readyQ == s.readyQ
    requires s'.loc == s.loc[s.consumed := Announcing] && s.consumed !in s.loc
    ensures Queued(c, s')
  {
  }

  lemma CloseCore(c: Config, s: State)
    requires ValidConfig(c) && Core(c, s) && s.threads[0] == Idle && !(s.consumed < s.emitted)
    ensures Upheld(c, StepReceive(c, s, 0))
  {
    QuietCore(c, s, StepReceive(c, s, 0), 0);
  }

  lemma InsertCore(c: Config, s: State, i: nat)
    requires ValidConfig(c) && Core(c, s) && s.threads[0] == NewDir(i)
    ensures Upheld(c, StepInsert(c, s, 0, i))
  {
    var s' := StepInsert(c, s, 0, i);
    CoreParts(c, s, i);
    assert Inserts(c, s, s', i);
    InsertOwned(c, s, s', i);
    forall j: nat | j in s.loc ensures j < s.consumed {
      assert EntryFits(c, s, j);
    }
    QueuesKeptQueued(c, s, s');
    forall d: nat ensures DirInv(c, s', d) && VerdictInv(c, s', d) {
      CoreParts(c, s, d);
      InsertDir(c, s, s', i, d);
      InsertVerdict(c, s, s', i, d);
    }
  }

  lemma AnnounceCore(c: Config, s: State, s': State, i: nat, pc: Pc, l: Loc)
    requires Core(c, s) && Announces(c, s, s', i, pc, l) && s'.fileQ == s.fileQ && s'.readyQ == s.readyQ
    ensures Upheld(c, s')
  {
    assert ThreadFits(c, s, 0);
    AnnounceOwned(c, s, s', i, pc, l);
    QueuesKeptQueued(c, s, s');
    forall d: nat ensures DirInv(c, s', d) && VerdictInv(c, s', d) {
      CoreParts(c, s, d);
      AnnounceDir(c, s, s', i, pc, l, d);
      AnnounceVerdict(c, s, s', i, pc, l, d);
    }
  }

  lemma MarkStep(c: Config, s: State, m: nat)
    requires Sane(c, s) && ThreadFits(c, s, 0) && EntryFits(c, s, m) && DirInv(c, s, m) && s.threads[0] == MarkDir(m)
    ensures Marks(c, s, StepMark(s, 0, m), m)
    ensures QueuesKept(s, StepMark(s, 0, m))
  {
    var s' := StepMark(s, 0, m);
    assert Marks(c, s, s', m);
    MarkedIsLive(c, s, s', m);
  }

  lemma MarkCore(c: Config, s: State, m: nat)
    requires ValidConfig(c) && Core(c, s) && s.threads[0] == MarkDir(m)
    ensures Upheld(c, StepMark(s, 0, m))
  {
    var s' := StepMark(s, 0, m);
    CoreParts(c, s, m);
    MarkStep(c, s, m);
    MarkOwned(c, s, s', m);
    QueuesKeptQueued(c, s, s');
    forall d: nat ensures DirInv(c, s', d) && VerdictInv(c, s', d) {
      CoreParts(c, s, d);
      MarkDirectory(c, s, s', m, d);
      MarkVerdict(c, s, s', m, d);
    }
  }

  lemma LeaveCore(c: Config, s: State, s': State, t: nat, i: nat, l: Loc)
    requires Core(c, s) && Leaves(c, s, s', t, i, l) && Queued(c, s')
    ensures Upheld(c, s')
  {
    LeaveOwned(c, s, s', t, i, l);
    forall d: nat ensures DirInv(c, s', d) && VerdictInv(c, s', d) {
      CoreParts(c, s, d);
      LeaveDir(c, s, s', t, i, l, d);
      LeaveVerdict(c, s, s', t, i, l, d);
    }
  }

  lemma TakeUpCore(c: Config, s: State, s': State, t: nat, i: nat, pc: Pc)
    requires Core(c, s) && TakesUp(c, s, s', t, i, pc) && Queued(c, s')
    ensures Upheld(c, s')
  {
    TakeUpOwned(c, s, s', t, i, pc);
    forall d: nat ensures DirInv(c, s', d) && VerdictInv(c, s', d) {
      CoreParts(c, s, d);
      TakeUpDir(c, s, s', t, i, pc, d);
      TakeUpVerdict(c, s, s', t, i, pc, d);
    }
  }

  lemma QueueLeafCore(c: Config, s: State, i: nat)
    requires ValidConfig(c) && Core(c, s) && s.threads[0] == LeafSend(i)
    ensures Upheld(c, StepQueueLeaf(s, 0, i))
  {
    var s' := StepQueueLeaf(s, 0, i);
    CoreParts(c, s, i);
    QueueLeafQueued(c, s, s', i);
    LeaveCore(c, s, s', 0, i, FileQueue);
  }

  lemma SendCore(c: Config, s: State, t: nat, r: Ready)
    requires ValidConfig(c) && Core(c, s) && t < |s.threads| && s.threads[t] == Sending(r)
    ensures Upheld(c, StepSend(s, t, r))
  {
    var s' := StepSend(s, t, r);
    CoreParts(c, s, r.dir);
    assert ThreadFits(c, s, t);
    SendQueued(c, s, s', t, r);
    LeaveCore(c, s, s', t, r.dir, ReadyQueue);
  }

  lemma TakeFileCore(c: Config, s: State, t: nat)
    requires ValidConfig(c) && Core(c, s) && t < |s.threads| && RoleOf(c, t).FileWorker? && s.threads[t] == Idle
    ensures Upheld(c, StepTakeFile(c, s, t))
  {
    var s' := StepTakeFile(c, s, t);
    if |s.fileQ| > 0 {
      CoreParts(c, s, 0);
      TakeFileQueued(c, s, s', t);
      TakeUpCore(c, s, s', t, s.fileQ[0], Got(s.fileQ[0]));
    } else {
      QuietCore(c, s, s', t);
    }
  }

  lemma TakeReadyCore(c: Config, s: State, t: nat)
    requires ValidConfig(c) && Core(c, s) && t < |s.threads| && RoleOf(c, t).DirWorker? && s.threads[t] == Idle
    ensures Upheld(c, StepTakeReady(c, s, t))
  {
    var s' := StepTakeReady(c, s, t);
    if |s.readyQ| > 0 {
      CoreParts(c, s, 0);
      TakeReadyQueued(c, s, s', t);
      TakeUpCore(c, s, s', t, s.readyQ[0].dir, DirGot(s.readyQ[0]));
    } else {
      QuietCore(c, s, s', t);
    }
  }

  lemma FinaliseCore(c: Config, s: State, t: nat, m: nat)
    requires ValidConfig(c) && Core(c, s) && t < |s.threads| && s.threads[t] == Finalising(m)
    ensures Upheld(c, StepFinalise(s, t, m))
  {
    var s' := StepFinalise(s, t, m);
    CoreParts(c, s, m);
    assert Finalises(c, s, s', t, m);
    FinaliseOwned(c, s, s', t, m);
    QueuesKeptQueued(c, s, s');
    forall d: nat ensures DirInv(c, s', d) && VerdictInv(c, s', d) {
      CoreParts(c, s, d);
      FinaliseDir(c, s, s', t, m, d);
      FinaliseVerdict(c, s, s', t, m, d);
    }
  }

  lemma ForgetCore(c: Config, s: State, t: nat, r: Ready, pc: Pc)
    requires Core(c, s) && t < |s.threads| && Forgets(c, s, Dropped(s, t, r, pc), t, r, pc)
    ensures Upheld(c, Dropped(s, t, r, pc))
  {
    var s' := Dropped(s, t, r, pc);
    ForgetOwned(c, s, s', t, r, pc);
    QueuesKeptQueued(c, s, s');
    forall d: nat ensures DirInv(c, s', d) && VerdictInv(c, s', d) {
      CoreParts(c, s, d);
      ForgetDir(c, s, s', t, r, pc, d);
      ForgetVerdict(c, s, s', t, r, pc, d);
    }
  }

  lemma RootDoneCore(c: Config, s: State, t: nat, i: nat)
    requires ValidConfig(c) && Core(c, s) && t < |s.threads| && s.threads[t] == RootDone(i)
    ensures Upheld(c, StepRootDone(s, t, i))
  {
    var s' := StepRootDone(s, t, i);
    CoreParts(c, s, i);
    assert FinishesRoot(c, s, s', t, i);
    assert ThreadFits(c, s, t);
    RootDoneOwned(c, s, s', t, i);
    QueuesKeptQueued(c, s, s');
    forall d: nat ensures DirInv(c, s', d) && VerdictInv(c, s', d) {
      CoreParts(c, s, d);
      RootDoneDir(c, s, s', t, i, d);
      RootDoneVerdict(c, s, s', t, i, d);
    }
  }

  lemma CompleteStep(c: Config, s: State, t: nat, i: nat, p: nat, kept: bool)
    requires Sane(c, s) && ThreadFits(c, s, t) && s.threads[t] == Completing(i, kept)
    requires EntryFits(c, s, i) && EntryFits(c, s, p)
    requires ChildOf(c.evs, i, p) && DirInv(c, s, p) && VerdictInv(c, s, i)
    ensures Completes(c, s, StepComplete(c, s, t, i, kept), t, i, p, kept)
    ensures QueuesKept(s, StepComplete(c, s, t, i, kept))
  {
    ParentWaits(c, s, i, p);
  }

  lemma CompleteCore(c: Config, s: State, t: nat, i: nat, kept: bool)
    requires ValidConfig(c) && Core(c, s) && t < |s.threads| && s.threads[t] == Completing(i, kept)
    ensures Upheld(c, StepComplete(c, s, t, i, kept))
  {
    var s' := StepComplete(c, s, t, i, kept);
    CoreParts(c, s, i);
    assert ThreadFits(c, s, t);
    var p := c.evs[i].parent;
    CoreParts(c, s, p);
    CompleteStep(c, s, t, i, p, kept);
    CompletedCore(c, s, s', t, i, p, kept);
  }

  lemma CompletedCore(c: Config, s: State, s': State, t: nat, i: nat, p: nat, kept: bool)
    requires Core(c, s) && Completes(c, s, s', t, i, p, kept) && QueuesKept(s, s')
    ensures Upheld(c, s')
  {
    CompleteOwned(c, s, s', t, i, p, kept);
    QueuesKeptQueued(c, s, s');
    forall d: nat ensures DirInv(c, s', d) && VerdictInv(c, s', d) {
      CoreParts(c, s, d);
      if d == p {
        CompleteParent(c, s, s', t, i, p, kept);
      } else {
        CompleteOther(c, s, s', t, i, p, kept, d);
      }
      CompleteVerdict(c, s, s', t, i, p, kept, d);
    }
  }

  // ---------------------------------------------------------------------------------------------------------------
  // Steps that only move a program counter
  // ---------------------------------------------------------------------------------------------------------------

  lemma CheckLeafQuiet(c: Config, s: State, i: nat)
    requires Sane(c, s) && ThreadFits(c, s, 0) && EntryFits(c, s, i) && VerdictInv(c, s, i)
    requires s.threads[0] == LeafCheck(i)
    ensures Quiet(c, s, StepCheckLeaf(c, s, 0, i), 0)
  {
  }

  lemma AcquireQuiet(c: Config, s: State, s': State, t: nat, i: nat)
    requires Sane(c, s) && ThreadFits(c, s, t) && EntryFits(c, s, i) && VerdictInv(c, s, i)
    requires s.threads[t] == Got(i)
    requires s' == s.(threads := s.threads[t := Deleting(i, First)], ctl := s.ctl.(granted := s.ctl.granted + 1))
    ensures Quiet(c, s, s', t)
  {
  }

  lemma DeleteLeafQuiet(c: Config, s: State, t: nat, i: nat, st: Stage, a: Answer)
    requires Sane(c, s) && ThreadFits(c, s, t) && EntryFits(c, s, i) && VerdictInv(c, s, i)
    requires s.threads[t] == Deleting(i, st)
    requires st.Finished? || Answers(st, a)
    ensures Quiet(c, s, StepDeleteLeaf(c, s, t, i, st, a), t)
  {
  }

  lemma CountLeafQuiet(c: Config, s: State, t: nat, i: nat, outcome: Outcome)
    requires Sane(c, s) && ThreadFits(c, s, t) && EntryFits(c, s, i) && VerdictInv(c, s, i)
    requires s.threads[t] == Counting(i, outcome)
    ensures Quiet(c, s, StepCountLeaf(c, s, t, i, outcome), t)
  {
  }

  lemma LogLeafQuiet(c: Config, s: State, s': State, t: nat, i: nat, category: Category)
    requires Sane(c, s) && ThreadFits(c, s, t) && EntryFits(c, s, i) && VerdictInv(c, s, i)
    requires s.threads[t] == LogLeaf(i, category)
    requires s' == s.(threads := s.threads[t := Completing(i, true)], books := Pushed(s.books, category))
    ensures Quiet(c, s, s', t)
  {
  }

  lemma DeleteDirQuiet(c: Config, s: State, t: nat, r: Ready, st: Stage, a: Answer)
    requires Sane(c, s) && ThreadFits(c, s, t) && EntryFits(c, s, r.dir) && VerdictInv(c, s, r.dir)
    requires s.threads[t] == DirDeleting(r, st)
    requires !st.Finished? && Answers(st, a)
    ensures Quiet(c, s, StepDeleteDir(c, s, t, r, st, a), t)
  {
  }

  lemma CountDirQuiet(c: Config, s: State, t: nat, r: Ready, st: Stage, a: Answer)
    requires Sane(c, s) && ThreadFits(c, s, t) && EntryFits(c, s, r.dir) && VerdictInv(c, s, r.dir)
    requires s.threads[t] == DirDeleting(r, st)
    requires st.Finished?
    ensures Quiet(c, s, StepDeleteDir(c, s, t, r, st, a), t)
  {
  }

  lemma LogDirQuiet(c: Config, s: State, s': State, t: nat, r: Ready, category: Category)
    requires Sane(c, s) && ThreadFits(c, s, t) && EntryFits(c, s, r.dir) && VerdictInv(c, s, r.dir)
    requires s.threads[t] == LogDir(r, category)
    requires s' == s.(threads := s.threads[t := Forgetting(r, true)], books := Pushed(s.books, category))
    ensures Quiet(c, s, s', t)
  {
  }

  lemma StartDirQuiet(c: Config, s: State, t: nat, r: Ready)
    requires Sane(c, s) && ThreadFits(c, s, t) && EntryFits(c, s, r.dir) && VerdictInv(c, s, r.dir)
    requires s.threads[t] == DirGot(r)
    requires !(r.parent.None? && c.preserveRoot)
    ensures Quiet(c, s, StepStartDir(c, s, t, r), t)
  {
    RootHasNoParent(c.evs, r.dir);
  }

  lemma PreservedRootForgets(c: Config, s: State, t: nat, r: Ready)
    requires Sane(c, s) && ThreadFits(c, s, t) && EntryFits(c, s, r.dir) && VerdictInv(c, s, r.dir)
    requires s.threads[t] == DirGot(r)
    requires r.parent.None? && c.preserveRoot
    ensures Forgets(c, s, Dropped(s, t, r, RootDone(r.dir)), t, r, RootDone(r.dir))
  {
    RootHasNoParent(c.evs, r.dir);
  }

  lemma StepForgets(c: Config, s: State, t: nat, r: Ready, kept: bool)
    requires Sane(c, s) && ThreadFits(c, s, t) && EntryFits(c, s, r.dir) && VerdictInv(c, s, r.dir)
    requires s.threads[t] == Forgetting(r, kept)
    ensures var pc := if r.parent.Some? then Completing(r.dir, kept) else RootDone(r.dir);
            Forgets(c, s, Dropped(s, t, r, pc), t, r, pc)
  {
    RootHasNoParent(c.evs, r.dir);
  }

  lemma StartDirCore(c: Config, s: State, t: nat, r: Ready)
    requires ValidConfig(c) && Core(c, s) && t < |s.threads| && s.threads[t] == DirGot(r)
    ensures Upheld(c, StepStartDir(c, s, t, r))
  {
    CoreParts(c, s, r.dir);
    if r.parent.None? && c.preserveRoot {
      PreservedRootForgets(c, s, t, r);
      ForgetCore(c, s, t, r, RootDone(r.dir));
    } else {
      StartDirQuiet(c, s, t, r);
      QuietCore(c, s, StepStartDir(c, s, t, r), t);
    }
  }

  lemma StepForgetCore(c: Config, s: State, t: nat, r: Ready, kept: bool)
    requires ValidConfig(c) && Core(c, s) && t < |s.threads| && s.threads[t] == Forgetting(r, kept)
    ensures Upheld(c, StepForget(s, t, r, kept))
  {
    CoreParts(c, s, r.dir);
    StepForgets(c, s, t, r, kept);
    ForgetCore(c, s, t, r, if r.parent.Some? then Completing(r.dir, kept) else RootDone(r.dir));
  }

  // ---------------------------------------------------------------------------------------------------------------
  // Every step
  // ---------------------------------------------------------------------------------------------------------------

  lemma RegisterCore(c: Config, s: State, a: Answer)
    requires ValidConfig(c) && Core(c, s) && CanRun(c, s, 0, a)
    requires s.threads[0].NewDir? || s.threads[0].NewDirPending? || s.threads[0].NewLeaf?
    ensures Upheld(c, Step(c, s, 0, a))
  {
    CoreParts(c, s, 0);
    match s.threads[0]
    case NewDir(i) => InsertCore(c, s, i);
    case NewDirPending(i) => AnnounceCore(c, s, StepAnnounceDir(c, s, 0, i), i, Idle, Live);
    case NewLeaf(i) => AnnounceCore(c, s, StepAnnounceLeaf(c, s, 0, i), i, LeafCheck(i), Held(0));
  }

  lemma LeafCore(c: Config, s: State, a: Answer)
    requires ValidConfig(c) && Core(c, s) && CanRun(c, s, 0, a)
    requires s.threads[0].LeafCheck? || s.threads[0].LeafSend?
    ensures Upheld(c, Step(c, s, 0, a))
  {
    match s.threads[0]
    case LeafCheck(i) =>
      CoreParts(c, s, i);
      CheckLeafQuiet(c, s, i);
      QuietCore(c, s, StepCheckLeaf(c, s, 0, i), 0);
    case LeafSend(i) => QueueLeafCore(c, s, i);
  }

  lemma WaitingCore(c: Config, s: State, a: Answer)
    requires ValidConfig(c) && Core(c, s) && CanRun(c, s, 0, a)
    requires s.threads[0].LogListing? || s.threads[0].AwaitRoot? || s.threads[0].StopWorkers?
    ensures Upheld(c, Step(c, s, 0, a))
  {
    QuietCore(c, s, Step(c, s, 0, a), 0);
  }

  lemma CoordinatorCore(c: Config, s: State, a: Answer)
    requires ValidConfig(c) && Core(c, s) && CanRun(c, s, 0, a)
    requires !s.threads[0].Completing? && !s.threads[0].Finalising? && !s.threads[0].Sending?
    ensures Upheld(c, Step(c, s, 0, a))
  {
    assert ThreadFits(c, s, 0);
    var pc := s.threads[0];
    if pc.Idle? {
      if s.consumed < s.emitted { ReceiveCore(c, s); } else { CloseCore(c, s); }
    } else if pc.NewDir? || pc.NewDirPending? || pc.NewLeaf? {
      RegisterCore(c, s, a);
    } else if pc.LeafCheck? || pc.LeafSend? {
      LeafCore(c, s, a);
    } else if pc.MarkDir? {
      MarkCore(c, s, pc.d);
    } else {
      WaitingCore(c, s, a);
    }
  }

  lemma DeletingCore(c: Config, s: State, t: nat, a: Answer)
    requires ValidConfig(c) && Core(c, s) && CanRun(c, s, t, a)
    requires s.threads[t].Got? || s.threads[t].Deleting?
    ensures Upheld(c, Step(c, s, t, a))
  {
    var s' := Step(c, s, t, a);
    CoreParts(c, s, s.threads[t].i);
    match s.threads[t]
    case Got(i) =>
      AcquireQuiet(c, s, s', t, i);
      QuietCore(c, s, s', t);
    case Deleting(i, st) =>
      DeleteLeafQuiet(c, s, t, i, st, a);
      QuietCore(c, s, s', t);
  }

  lemma DeletedCore(c: Config, s: State, t: nat, a: Answer)
    requires ValidConfig(c) && Core(c, s) && CanRun(c, s, t, a)
    requires s.threads[t].Counting? || s.threads[t].LogLeaf?
    ensures Upheld(c, Step(c, s, t, a))
  {
    var s' := Step(c, s, t, a);
    CoreParts(c, s, s.threads[t].i);
    match s.threads[t]
    case Counting(i, outcome) =>
      CountLeafQuiet(c, s, t, i, outcome);
      QuietCore(c, s, s', t);
    case LogLeaf(i, category) =>
      LogLeafQuiet(c, s, s', t, i, category);
      QuietCore(c, s, s', t);
  }

  lemma FileWorkerCore(c: Config, s: State, t: nat, a: Answer)
    requires ValidConfig(c) && Core(c, s) && CanRun(c, s, t, a) && RoleOf(c, t).FileWorker?
    requires !s.threads[t].Completing? && !s.threads[t].Finalising? && !s.threads[t].Sending?
    ensures Upheld(c, Step(c, s, t, a))
  {
    assert ThreadFits(c, s, t);
    if s.threads[t].Idle? {
      TakeFileCore(c, s, t);
    } else if s.threads[t].Got? || s.threads[t].Deleting? {
      DeletingCore(c, s, t, a);
    } else {
      DeletedCore(c, s, t, a);
    }
  }

  lemma RemovingCore(c: Config, s: State, t: nat, a: Answer)
    requires ValidConfig(c) && Core(c, s) && CanRun(c, s, t, a)
    requires s.threads[t].DirDeleting? || s.threads[t].LogDir?
    ensures Upheld(c, Step(c, s, t, a))
  {
    var s' := Step(c, s, t, a);
    CoreParts(c, s, s.threads[t].r.dir);
    match s.threads[t]
    case DirDeleting(r, st) =>
      if st.Finished? { CountDirQuiet(c, s, t, r, st, a); } else { DeleteDirQuiet(c, s, t, r, st, a); }
      QuietCore(c, s, s', t);
    case LogDir(r, category) =>
      LogDirQuiet(c, s, s', t, r, category);
      QuietCore(c, s, s', t);
  }

  lemma DirWorkerCore(c: Config, s: State, t: nat, a: Answer)
    requires ValidConfig(c) && Core(c, s) && CanRun(c, s, t, a) && RoleOf(c, t).DirWorker?
    requires !s.threads[t].Completing? && !s.threads[t].Finalising? && !s.threads[t].Sending?
    ensures Upheld(c, Step(c, s, t, a))
  {
    assert ThreadFits(c, s, t);
    if s.threads[t].Idle? {
      TakeReadyCore(c, s, t);
    } else if s.threads[t].DirGot? {
      StartDirCore(c, s, t, s.threads[t].r);
    } else if s.threads[t].Forgetting? {
      StepForgetCore(c, s, t, s.threads[t].r, s.threads[t].kept);
    } else if s.threads[t].RootDone? {
      RootDoneCore(c, s, t, s.threads[t].i);
    } else {
      RemovingCore(c, s, t, a);
    }
  }

  lemma StepCore(c: Config, s: State, t: nat, a: Answer)
    requires ValidConfig(c) && Core(c, s) && CanRun(c, s, t, a)
    ensures Upheld(c, Step(c, s, t, a))
  {
    if s.threads[t].Completing? {
      CompleteCore(c, s, t, s.threads[t].i, s.threads[t].kept);
    } else if s.threads[t].Finalising? {
      FinaliseCore(c, s, t, s.threads[t].d);
    } else if s.threads[t].Sending? {
      SendCore(c, s, t, s.threads[t].r);
    } else {
      match RoleOf(c, t)
      case Coordinator => CoordinatorCore(c, s, a);
      case FileWorker => FileWorkerCore(c, s, t, a);
      case DirWorker => DirWorkerCore(c, s, t, a);
    }
  }

  /** Steps of the environment do not touch anything the invariant is about. */
  lemma ElsewhereCore(c: Config, s: State, s': State)
    requires Core(c, s)
    requires s'.threads == s.threads && s'.consumed == s.consumed && s.emitted <= s'.emitted <= |c.evs|
    requires s'.fileQ == s.fileQ && s'.readyQ == s.readyQ && s'.tracker == s.tracker && s'.loc == s.loc
    requires s'.verdict == s.verdict
    ensures Upheld(c, s')
  {
    forall t: nat | t < |s'.threads| ensures ThreadFits(c, s', t) {
      assert ThreadFits(c, s, t);
    }
    forall d: nat ensures EntryFits(c, s', d) && DirInv(c, s', d) && VerdictInv(c, s', d) {
      assert EntryFits(c, s, d) && DirInv(c, s, d) && VerdictInv(c, s, d);
    }
  }

  lemma ActionCore(c: Config, s: State, a: Action)
    requires ValidConfig(c) && Core(c, s) && Enabled(c, s, a)
    ensures Upheld(c, Apply(c, s, a))
  {
    match a
    case Run(t, answer) => StepCore(c, s, t, answer);
    case _ => ElsewhereCore(c, s, Apply(c, s, a));
  }

  /** The invariant holds in every state of every run, under every schedule, engine answer and interruption. */
  lemma {:induction false} RunCore(c: Config, states: seq<State>, actions: seq<Action>, k: nat)
    requires ValidConfig(c) && IsRun(c, states, actions) && k < |states|
    ensures Core(c, states[k])
  {
    if k == 0 {
      InitCore(c, states[0]);
    } else {
      RunCore(c, states, actions, k - 1);
      assert TakesAt(c, states, actions, k - 1);
      ActionCore(c, states[k - 1], actions[k - 1]);
      assert CoreAt(c, states[k], 0);
      forall i: nat ensures DirInv(c, states[k], i) && VerdictInv(c, states[k], i) {
        assert CoreAt(c, states[k], i);
      }
    }
  }
}
