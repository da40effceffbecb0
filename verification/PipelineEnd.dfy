/** Until every thread has left its loop, somebody can move; and what is true once they all have. */
module PipelineEnd {
  import opened Wrappers
  import opened DirectoryTracking
  import opened Attempts
  import opened Report
  import opened Pipeline
  import opened PipelineInvariant
  import opened PipelineSteps
  import opened PipelineReach
  import opened PipelineSafety
  import opened PipelineLedger
  import opened PipelineProgress
  import opened PipelineTermination

  // ---------------------------------------------------------------------------------------------------------------
  // The ready queue never fills up when there are at most dirCap directories
  // ---------------------------------------------------------------------------------------------------------------

  function Dirs(evs: Stream, n: nat): (ds: set<nat>)
    ensures |ds| == CountEvents(evs, AnyDir, n)
    ensures forall i: nat :: i in ds <==> i < n && IsDir(evs, i)
  {
    if n == 0 then {} else Dirs(evs, n - 1) + if IsDir(evs, n - 1) then {n - 1} else {}
  }

  /** The directories in the ready queue, of which there are as many as there are places taken. */
  function DirsOf(q: seq<Ready>): (ds: set<nat>)
    ensures forall i: nat :: i in ds <==> exists k :: 0 <= k < |q| && q[k].dir == i
    ensures (forall j, k :: 0 <= j < k < |q| ==> q[j].dir != q[k].dir) ==> |ds| == |q|
  {
    if |q| == 0 then {} else DirsOf(q[..|q| - 1]) + {q[|q| - 1].dir}
  }

  lemma SubsetSize(small: set<nat>, big: set<nat>)
    requires small <= big
    ensures |small| <= |big|
  {
    assert big == small + (big - small);
  }

  /** A thread that has a ready directory to send finds room, since a directory is sent only once. */
  lemma RoomToSend(c: Config, s: State, t: nat)
    requires Core(c, s) && t < |s.threads| && s.threads[t].Sending?
    ensures |s.readyQ| < CountEvents(c.evs, AnyDir, |c.evs|)
  {
    var d := s.threads[t].r.dir;
    CoreParts(c, s, d);
    assert ThreadFits(c, s, t);
    RoomFor(c.evs, s.readyQ, d);
  }

  lemma RoomFor(evs: Stream, q: seq<Ready>, d: nat)
    requires IsDir(evs, d) && forall k :: 0 <= k < |q| ==> IsDir(evs, q[k].dir) && q[k].dir != d
    requires forall j, k :: 0 <= j < k < |q| ==> q[j].dir != q[k].dir
    ensures |q| < CountEvents(evs, AnyDir, |evs|)
  {
    SubsetSize(DirsOf(q) + {d}, Dirs(evs, |evs|));
  }

  // ---------------------------------------------------------------------------------------------------------------
  // Somebody can move
  // ---------------------------------------------------------------------------------------------------------------

  /** An answer the engine could give to what the thread is asking. */
  function SomeAnswer(pc: Pc): Answer {
    if (pc.Deleting? || pc.DirDeleting?) && !pc.stage.Finished? then
      match pc.stage
      case Remediating(_) => RemediationAnswer(false)
      case LocalLock => LockAnswer(Unresolved)
      case RemoteLock => LockAnswer(Unresolved)
      case _ => DeleteAnswer(Deleted)
    else NoAnswer
  }

  /** The thread waits for nobody. */
  predicate Free(pc: Pc) {
    match pc
    case Idle => false
    case LeafSend(_) => false
    case Sending(_) => false
    case AwaitRoot => false
    case RootDone(_) => false
    case Got(_) => false
    case Exited => false
    case _ => true
  }

  lemma FreeRuns(c: Config, s: State, t: nat)
    requires t < |s.threads| && Free(s.threads[t])
    ensures CanRun(c, s, t, SomeAnswer(s.threads[t]))
  {
  }

  predicate Moves(c: Config, s: State, t: nat) {
    t < |s.threads| && CanRun(c, s, t, SomeAnswer(s.threads[t]))
  }

  /** Nobody can move, not even the enumerator. */
  ghost predicate Stuck(c: Config, s: State) {
    !Enabled(c, s, Emit) && forall t: nat :: !Moves(c, s, t)
  }

  /** When nobody can move, what each thread is doing. */
  lemma StuckThreads(c: Config, s: State, t: nat)
    requires Core(c, s) && Controlled(c, s) && Stuck(c, s) && t < |s.threads|
    requires CountEvents(c.evs, AnyDir, |c.evs|) <= c.dirCap
    ensures s.threads[t].Idle? || s.threads[t].LeafSend? || s.threads[t].AwaitRoot? || s.threads[t].Exited?
  {
    CoreParts(c, s, 0);
    assert ThreadFits(c, s, t);
    assert !Moves(c, s, t);
    if Free(s.threads[t]) {
      FreeRuns(c, s, t);
    } else if s.threads[t].Sending? {
      RoomToSend(c, s, t);
    } else if s.threads[t].Got? {
      var u := SomePermit(s.threads);
      assert !Moves(c, s, u);
      FreeRuns(c, s, u);
    }
  }

  lemma StuckQueues(c: Config, s: State)
    requires Core(c, s) && Controlled(c, s) && Stuck(c, s) && !s.threads[0].Exited?
    requires CountEvents(c.evs, AnyDir, |c.evs|) <= c.dirCap
    ensures |s.fileQ| == 0 && |s.readyQ| == 0
  {
    CoreParts(c, s, 0);
    var f := c.dirWorkers + 1;
    StuckThreads(c, s, f);
    StuckThreads(c, s, 1);
    assert ThreadFits(c, s, f) && ThreadFits(c, s, 1);
    assert ExitFits(c, s, f) && ExitFits(c, s, 1);
    assert !Moves(c, s, f) && !Moves(c, s, 1);
  }

  lemma StuckCoordinator(c: Config, s: State)
    requires Core(c, s) && Controlled(c, s) && Stuck(c, s)
    requires CountEvents(c.evs, AnyDir, |c.evs|) <= c.dirCap
    ensures s.threads[0].AwaitRoot? || s.threads[0].Exited?
  {
    CoreParts(c, s, 0);
    StuckThreads(c, s, 0);
    assert !Moves(c, s, 0);
    if s.threads[0].LeafSend? {
      StuckQueues(c, s);
    }
  }

  /** With every queue empty and every thread idle, a waiting directory would need a later waiting one, and so on. */
  lemma {:induction false} NobodyWaitsForNobody(c: Config, s: State, d: nat)
    requires Core(c, s) && s.consumed == |c.evs| && |s.fileQ| == 0 && |s.readyQ| == 0
    requires forall t :: 0 <= t < |s.threads| ==> Subject(s.threads[t]).None? && !s.threads[t].MarkDir?
    requires d in s.loc
    ensures s.loc[d].Settled?
    decreases |c.evs| - d
  {
    CoreParts(c, s, d);
    if s.loc[d].Live? {
      assert ListedAt(c.evs, ListedPos(c.evs, d), d);
      var i :| i in Open(c.evs, s.loc, d);
      CoreParts(c, s, i);
      NobodyWaitsForNobody(c, s, i);
    }
  }

  lemma StuckSubject(c: Config, s: State, t: nat)
    requires Core(c, s) && Controlled(c, s) && Stuck(c, s) && t < |s.threads|
    requires CountEvents(c.evs, AnyDir, |c.evs|) <= c.dirCap
    ensures Subject(s.threads[t]).None? && !s.threads[t].MarkDir?
  {
    StuckThreads(c, s, t);
    StuckCoordinator(c, s);
    CoreParts(c, s, 0);
    assert ThreadFits(c, s, t);
  }

  lemma StuckRoot(c: Config, s: State)
    requires Core(c, s) && Controlled(c, s) && Stuck(c, s)
    requires CountEvents(c.evs, AnyDir, |c.evs|) <= c.dirCap
    ensures s.threads[0].Exited?
  {
    StuckCoordinator(c, s);
    if s.threads[0].AwaitRoot? {
      StuckQueues(c, s);
      forall t: nat | t < |s.threads| ensures Subject(s.threads[t]).None? && !s.threads[t].MarkDir? {
        StuckSubject(c, s, t);
      }
      CoreParts(c, s, 0);
      assert !Moves(c, s, 0);
      NobodyWaitsForNobody(c, s, 0);
    }
  }

  /** Only a finished run is stuck. */
  lemma StuckIsTerminated(c: Config, s: State)
    requires Core(c, s) && Controlled(c, s) && Stuck(c, s)
    requires CountEvents(c.evs, AnyDir, |c.evs|) <= c.dirCap
    ensures Terminated(s)
  {
    StuckRoot(c, s);
    CoreParts(c, s, 0);
    forall t: nat | t < |s.threads| ensures s.threads[t] == Exited {
      StuckThreads(c, s, t);
      assert ThreadFits(c, s, t);
      assert !Moves(c, s, t);
    }
  }

  /** The run can go no further: neither the enumerator nor any thread can take a step, whatever the engine says. */
  ghost predicate AtRest(c: Config, s: State) {
    forall a: Action :: IsWork(a) ==> !Enabled(c, s, a)
  }

  // ---------------------------------------------------------------------------------------------------------------
  // The end
  // ---------------------------------------------------------------------------------------------------------------

  lemma {:induction false} AllSettled(c: Config, s: State, i: nat)
    requires Core(c, s) && Controlled(c, s) && Terminated(s) && IsEntry(c.evs, i)
    ensures i in s.loc && s.loc[i].Settled?
  {
    CoreParts(c, s, i);
    assert s.threads[0].Exited?;
    if i > 0 {
      var p := c.evs[i].parent;
      assert ChildOf(c.evs, i, p);
      AllSettled(c, s, p);
      ChildrenResolved(c, s, p, i);
    }
  }

  /**
   When every thread has left: root_done was sent exactly once, the tracker is empty, every entry of the stream has
   been received and resolved, and each has a verdict, a preserved root excepted.
   */
  lemma TerminatedIsComplete(c: Config, s: State)
    requires Core(c, s) && Controlled(c, s) && Terminated(s)
    ensures s.ctl.rootSent == 1 && s.ctl.rootReceived == 1 && s.tracker == map[] && s.consumed == |c.evs|
    ensures forall i: nat :: IsEntry(c.evs, i) ==> i in s.loc && s.loc[i].Settled?
    ensures forall i: nat :: i in s.verdict <==> IsEntry(c.evs, i) && !(i == 0 && c.preserveRoot)
  {
    CoreParts(c, s, 0);
    assert s.threads[0].Exited?;
    forall i: nat | IsEntry(c.evs, i) ensures i in s.loc && s.loc[i].Settled? {
      AllSettled(c, s, i);
    }
    forall d: nat ensures d !in s.tracker {
      CoreParts(c, s, d);
    }
    forall i: nat ensures i in s.verdict <==> IsEntry(c.evs, i) && !(i == 0 && c.preserveRoot) {
      CoreParts(c, s, i);
    }
  }

  /** The enumerator and the threads have no step left exactly when all have come to their ends. */
  lemma RestIsTermination(c: Config, s: State)
    requires Core(c, s) && Controlled(c, s) && CountEvents(c.evs, AnyDir, |c.evs|) <= c.dirCap
    ensures AtRest(c, s) <==> Terminated(s) && s.emitted == |c.evs|
  {
    CoreParts(c, s, 0);
    if AtRest(c, s) {
      forall t: nat ensures !Moves(c, s, t) {
        if t < |s.threads| {
          assert !Enabled(c, s, Run(t, SomeAnswer(s.threads[t])));
        }
      }
      StuckIsTerminated(c, s);
    }
    if Terminated(s) {
      TerminatedIsComplete(c, s);
    }
  }

  /**
   Every run comes to a proper end. The enumerator and the threads take a bounded number of steps in all, and when
   none of them can take another, the run is over: root_done was sent exactly once and the tracker is empty. The
   ready channel must have room for every directory, as it does with at most DIR_CHANNEL_CAP of them.
   */
  lemma EveryRunEnds(c: Config, states: seq<State>, actions: seq<Action>)
    requires ValidConfig(c) && IsRun(c, states, actions)
    requires CountEvents(c.evs, AnyDir, |c.evs|) <= c.dirCap
    ensures Work(actions, |actions|) <= 19 * (|c.evs| - 1) + 15 + 3 * (1 + c.dirWorkers + c.fileWorkers)
    ensures var last := states[|actions|];
            && (AtRest(c, last) <==> Terminated(last) && last.emitted == |c.evs|)
            && (Terminated(last) ==> last.ctl.rootSent == 1 && last.tracker == map[])
  {
    hide Core, Controlled, AtRest, Terminated;
    var n := |actions|;
    WorkIsBounded(c, states, actions, n);
    RunCore(c, states, actions, n);
    RunControlled(c, states, actions, n);
    RestIsTermination(c, states[n]);
    if Terminated(states[n]) {
      TerminatedIsComplete(c, states[n]);
    }
  }
}
