/** Every run comes to an end: work is bounded, and until the end some thread can always move. */
module PipelineProgress {
  import opened Wrappers
  import opened DirectoryTracking
  import opened Attempts
  import opened Report
  import opened Pipeline
  import opened PipelineInvariant
  import opened PipelineSteps
  import opened PipelineReach
  import opened PipelineSafety

  // ---------------------------------------------------------------------------------------------------------------
  // Flags, permits and the root_done channel
  // ---------------------------------------------------------------------------------------------------------------

  function Permits(threads: seq<Pc>): nat {
    if |threads| == 0 then 0 else
    Permits(threads[..|threads| - 1]) + if threads[|threads| - 1].Deleting? then 1 else 0
  }

  lemma {:induction false} PermitsMove(threads: seq<Pc>, t: nat, pc: Pc)
    requires t < |threads|
    ensures Permits(threads[t := pc]) + (if threads[t].Deleting? then 1 else 0)
            == Permits(threads) + if pc.Deleting? then 1 else 0
  {
    var n := |threads| - 1;
    if t == n {
      assert threads[t := pc][..n] == threads[..n];
    } else {
      PermitsMove(threads[..n], t, pc);
      assert threads[t := pc][..n] == threads[..n][t := pc];
    }
  }

  lemma {:induction false} SomePermit(threads: seq<Pc>) returns (t: nat)
    requires Permits(threads) > 0
    ensures t < |threads| && threads[t].Deleting?
  {
    var n := |threads| - 1;
    if threads[n].Deleting? {
      t := n;
    } else {
      t := SomePermit(threads[..n]);
    }
  }

  lemma {:induction false} NoPermit(threads: seq<Pc>)
    requires forall t :: 0 <= t < |threads| ==> !threads[t].Deleting?
    ensures Permits(threads) == 0
  {
    if |threads| > 0 {
      NoPermit(threads[..|threads| - 1]);
    }
  }

  /** The coordinator has seen the whole stream. */
  predicate AfterStream(pc: Pc) {
    pc.AwaitRoot? || pc.StopWorkers? || pc.Exited?
  }

  predicate RootSettled(s: State) {
    0 in s.loc && s.loc[0].Settled?
  }

  /** A worker has left only when its queue was closed to it. */
  predicate ExitFits(c: Config, s: State, t: nat) {
    t < |s.threads| && s.threads[t].Exited? ==>
      match RoleOf(c, t)
      case Coordinator => true
      case DirWorker => s.ctl.shutdown
      case FileWorker => s.ctl.filesClosed && |s.fileQ| == 0
  }

  /** What holds of flags, permits and the root_done channel, and of thread t if it has left. */
  ghost predicate ControlledFor(c: Config, s: State, t: nat) {
    && |s.threads| > 0
    && s.ctl.granted == Permits(s.threads)
    && s.ctl.capacity >= 1
    && (s.ctl.filesClosed <==> AfterStream(s.threads[0]))
    && (AfterStream(s.threads[0]) ==> s.consumed == |c.evs|)
    && (s.ctl.shutdown <==> s.threads[0].Exited?)
    && s.ctl.rootSent == (if RootSettled(s) then 1 else 0)
    && s.ctl.rootReceived == (if s.threads[0].StopWorkers? || s.threads[0].Exited? then 1 else 0)
    && s.ctl.rootReceived <= s.ctl.rootSent
    && ExitFits(c, s, t)
  }

  ghost predicate Controlled(c: Config, s: State) {
    ControlledFor(c, s, 0) && forall t: nat :: ExitFits(c, s, t)
  }

  /** Thread by thread: the form in which the proofs about single steps establish it. */
  ghost predicate Steady(c: Config, s: State) {
    forall t: nat :: ControlledFor(c, s, t)
  }

  lemma InitControlled(c: Config, s: State)
    requires ValidConfig(c) && IsInit(c, s)
    ensures Controlled(c, s)
  {
    NoPermit(s.threads);
  }

  /** A step that has nothing to do with flags, permits or the end of a thread. */
  ghost predicate ControlKept(c: Config, s: State, s': State, t: nat) {
    && t < |s.threads| == |s'.threads|
    && s'.threads == s.threads[t := s'.threads[t]]
    && s'.ctl == s.ctl && s'.consumed >= s.consumed
    && (|s.fileQ| == 0 ==> |s'.fileQ| == 0 || t == 0)
    && (RootSettled(s') <==> RootSettled(s))
    && s'.threads[t].Deleting? == s.threads[t].Deleting?
    && !s'.threads[t].Exited? && !s.threads[t].Exited?
    && (t == 0 ==> !AfterStream(s.threads[0]) && !AfterStream(s'.threads[0]))
    && (t != 0 ==> s'.consumed == s.consumed)
  }

  lemma ControlKeptControlled(c: Config, s: State, s': State, t: nat)
    requires Sane(c, s) && Controlled(c, s) && ControlKept(c, s, s', t)
    ensures Steady(c, s')
  {
    PermitsMove(s.threads, t, s'.threads[t]);
    forall u: nat ensures ExitFits(c, s', u) {
      assert ExitFits(c, s, u);
    }
  }

  lemma ReceiveControlled(c: Config, s: State)
    requires Sane(c, s) && Controlled(c, s) && s.threads[0] == Idle && s.consumed < s.emitted && 0 in s.loc
    ensures Steady(c, StepReceive(c, s, 0))
  {
    ControlKeptControlled(c, s, StepReceive(c, s, 0), 0);
  }

  lemma CloseControlled(c: Config, s: State)
    requires Sane(c, s) && Controlled(c, s) && s.threads[0] == Idle && s.consumed == s.emitted == |c.evs|
    ensures Steady(c, StepReceive(c, s, 0))
  {
    var s' := StepReceive(c, s, 0);
    PermitsMove(s.threads, 0, AwaitRoot);
    forall u: nat ensures ExitFits(c, s', u) {
      assert ExitFits(c, s, u);
    }
  }

  lemma FinishControlled(c: Config, s: State, a: Answer)
    requires Sane(c, s) && Controlled(c, s) && CanRun(c, s, 0, a)
    requires s.threads[0].AwaitRoot? || s.threads[0].StopWorkers?
    ensures Steady(c, Step(c, s, 0, a))
  {
    var s' := Step(c, s, 0, a);
    PermitsMove(s.threads, 0, s'.threads[0]);
    forall u: nat ensures ExitFits(c, s', u) {
      assert ExitFits(c, s, u);
    }
  }

  lemma PermitControlled(c: Config, s: State, t: nat, a: Answer)
    requires Sane(c, s) && ThreadFits(c, s, t) && Controlled(c, s) && CanRun(c, s, t, a)
    requires s.threads[t].Got? || s.threads[t].Deleting?
    ensures Steady(c, Step(c, s, t, a))
  {
    var s' := Step(c, s, t, a);
    PermitsMove(s.threads, t, s'.threads[t]);
    forall u: nat ensures ExitFits(c, s', u) {
      assert ExitFits(c, s, u);
    }
  }

  lemma TakeControlled(c: Config, s: State, t: nat, a: Answer)
    requires Sane(c, s) && Controlled(c, s) && CanRun(c, s, t, a) && s.threads[t] == Idle && t > 0
    requires Queued(c, s)
    ensures Steady(c, Step(c, s, t, a))
  {
    var s' := Step(c, s, t, a);
    PermitsMove(s.threads, t, s'.threads[t]);
    forall u: nat ensures ExitFits(c, s', u) {
      assert ExitFits(c, s, u);
    }
  }

  lemma RootControlled(c: Config, s: State, t: nat, i: nat)
    requires Sane(c, s) && ThreadFits(c, s, t) && Controlled(c, s) && s.threads[t] == RootDone(i)
    ensures Steady(c, StepRootDone(s, t, i))
  {
    var s' := StepRootDone(s, t, i);
    PermitsMove(s.threads, t, Idle);
    forall u: nat ensures ExitFits(c, s', u) {
      assert ExitFits(c, s, u);
    }
  }

  lemma CompleteControlled(c: Config, s: State, t: nat, i: nat, p: nat, kept: bool)
    requires Sane(c, s) && ThreadFits(c, s, t) && Controlled(c, s) && s.threads[t] == Completing(i, kept)
    requires EntryFits(c, s, i) && ChildOf(c.evs, i, p) && EntryFits(c, s, p) && DirInv(c, s, p)
    ensures Steady(c, StepComplete(c, s, t, i, kept))
  {
    ParentWaits(c, s, i, p);
    ControlKeptControlled(c, s, StepComplete(c, s, t, i, kept), t);
  }

  lemma MarkControlled(c: Config, s: State, m: nat)
    requires Sane(c, s) && ThreadFits(c, s, 0) && Controlled(c, s) && s.threads[0] == MarkDir(m)
    requires EntryFits(c, s, m) && DirInv(c, s, m)
    ensures Steady(c, StepMark(s, 0, m))
  {
    assert ListedAt(c.evs, s.consumed - 1, m);
    assert ListedAt(c.evs, ListedPos(c.evs, m), m);
    ControlKeptControlled(c, s, StepMark(s, 0, m), 0);
  }

  /** Everything else leaves flags alone. */
  predicate Plain(pc: Pc) {
    match pc
    case Idle => false
    case Got(_) => false
    case Deleting(_, _) => false
    case AwaitRoot => false
    case StopWorkers => false
    case RootDone(_) => false
    case Completing(_, _) => false
    case MarkDir(_) => false
    case Exited => false
    case _ => true
  }

  lemma PlainCoordinator(c: Config, s: State, a: Answer)
    requires Sane(c, s) && ThreadFits(c, s, 0) && Controlled(c, s) && CanRun(c, s, 0, a) && Plain(s.threads[0])
    ensures Steady(c, Step(c, s, 0, a))
  {
    ControlKeptControlled(c, s, Step(c, s, 0, a), 0);
  }

  lemma PlainFileWorker(c: Config, s: State, t: nat, a: Answer)
    requires Sane(c, s) && ThreadFits(c, s, t) && Controlled(c, s) && CanRun(c, s, t, a)
    requires s.threads[t].Counting? || s.threads[t].LogLeaf?
    ensures Steady(c, Step(c, s, t, a))
  {
    ControlKeptControlled(c, s, Step(c, s, t, a), t);
  }

  lemma PlainDirWorker(c: Config, s: State, t: nat, a: Answer)
    requires Sane(c, s) && ThreadFits(c, s, t) && Controlled(c, s) && CanRun(c, s, t, a)
    requires s.threads[t].DirGot? || s.threads[t].DirDeleting? || s.threads[t].LogDir? || s.threads[t].Forgetting?
    ensures Steady(c, Step(c, s, t, a))
  {
    ControlKeptControlled(c, s, Step(c, s, t, a), t);
  }

  lemma PlainTail(c: Config, s: State, t: nat, a: Answer)
    requires Sane(c, s) && ThreadFits(c, s, t) && Controlled(c, s) && CanRun(c, s, t, a)
    requires s.threads[t].Finalising? || s.threads[t].Sending?
    ensures Steady(c, Step(c, s, t, a))
  {
    ControlKeptControlled(c, s, Step(c, s, t, a), t);
  }

  lemma StepControlled(c: Config, s: State, t: nat, a: Answer)
    requires Core(c, s) && Controlled(c, s) && CanRun(c, s, t, a)
    ensures Steady(c, Step(c, s, t, a))
  {
    CoreParts(c, s, 0);
    assert ThreadFits(c, s, t);
    var pc := s.threads[t];
    if pc.MarkDir? {
      CoreParts(c, s, pc.d);
      MarkControlled(c, s, pc.d);
    } else if pc.Completing? {
      CoreParts(c, s, pc.i);
      CoreParts(c, s, c.evs[pc.i].parent);
      CompleteControlled(c, s, t, pc.i, c.evs[pc.i].parent, pc.kept);
    } else {
      StepControlledCases(c, s, t, a);
    }
  }

  lemma StepControlledCases(c: Config, s: State, t: nat, a: Answer)
    requires Sane(c, s) && ThreadFits(c, s, t) && Controlled(c, s) && CanRun(c, s, t, a) && Queued(c, s)
    requires EntryFits(c, s, 0)
    requires !s.threads[t].MarkDir? && !s.threads[t].Completing?
    ensures Steady(c, Step(c, s, t, a))
  {
    var pc := s.threads[t];
    if pc.Idle? {
      if t > 0 {
        TakeControlled(c, s, t, a);
      } else if s.consumed < s.emitted {
        ReceiveControlled(c, s);
      } else {
        CloseControlled(c, s);
      }
    } else if pc.Got? || pc.Deleting? {
      PermitControlled(c, s, t, a);
    } else if pc.RootDone? {
      RootControlled(c, s, t, pc.i);
    } else if pc.AwaitRoot? || pc.StopWorkers? {
      FinishControlled(c, s, a);
    } else if pc.Finalising? || pc.Sending? {
      PlainTail(c, s, t, a);
    } else {
      match RoleOf(c, t)
      case Coordinator => PlainCoordinator(c, s, a);
      case FileWorker => PlainFileWorker(c, s, t, a);
      case DirWorker => PlainDirWorker(c, s, t, a);
    }
  }

  lemma TakesControlled(c: Config, s: State, a: Action, s': State)
    requires Core(c, s) && Controlled(c, s) && Takes(c, s, a, s')
    ensures Steady(c, s')
  {
    if a.Run? {
      StepControlled(c, s, a.t, a.answer);
    } else {
      forall u: nat ensures ExitFits(c, s', u) {
        assert ExitFits(c, s, u);
      }
    }
  }

  lemma {:induction false} RunControlled(c: Config, states: seq<State>, actions: seq<Action>, k: nat)
    requires ValidConfig(c) && IsRun(c, states, actions) && k < |states|
    ensures Controlled(c, states[k])
  {
    if k == 0 {
      InitControlled(c, states[0]);
    } else {
      RunControlled(c, states, actions, k - 1);
      RunCore(c, states, actions, k - 1);
      assert TakesAt(c, states, actions, k - 1);
      TakesControlled(c, states[k - 1], actions[k - 1], states[k]);
      assert ControlledFor(c, states[k], 0);
      forall t: nat ensures ExitFits(c, states[k], t) {
        assert ControlledFor(c, states[k], t);
      }
    }
  }
}
