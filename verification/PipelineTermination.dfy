/**
 Termination: every step of the enumerator or of a thread uses up some of a finite potential, and as long as some
 thread has not left its loop, one of them or the enumerator can move.
 */
module PipelineTermination {
  import opened Wrappers
  import opened DirectoryTracking
  import opened Attempts
  import opened Report
  import opened Pipeline
  import opened PipelineInvariant
  import opened PipelineSteps
  import opened PipelineReach
  import opened PipelineSafety
  import opened PipelineLedger
  import opened PipelineProgress

  // ---------------------------------------------------------------------------------------------------------------
  // The potential
  // ---------------------------------------------------------------------------------------------------------------

  /** An upper bound on the steps a thread can still take before it is idle and has passed its entry on. */
  function PcRank(pc: Pc): nat {
    match pc
    case Exited => 0
    case StopWorkers => 1
    case AwaitRoot => 2
    case Idle => 3
    case RootDone(_) => 4
    case Completing(_, _) => 4
    case MarkDir(_) => 4
    case LogListing => 4
    case Forgetting(_, _) => 5
    case LogLeaf(_, _) => 5
    case LogDir(_, _) => 6
    case Counting(_, _) => 6
    case Deleting(_, st) => 7 + CallsLeft(st)
    case DirDeleting(_, st) => 7 + CallsLeft(st)
    case DirGot(_) => 15
    case Got(_) => 15
    case LeafSend(_) => 17
    case Sending(_) => 17
    case LeafCheck(_) => 18
    case Finalising(_) => 18
    case NewLeaf(_) => 19
    case NewDirPending(_) => 19
    case NewDir(_) => 20
  }

  /** The steps an entry nobody is holding will still cost. */
  function LocRank(l: Loc): nat {
    match l
    case Live => 15
    case FileQueue => 13
    case ReadyQueue => 13
    case _ => 0
  }

  function PcSum(threads: seq<Pc>): nat {
    if |threads| == 0 then 0 else PcSum(threads[..|threads| - 1]) + PcRank(threads[|threads| - 1])
  }

  function LocRankAt(loc: map<nat, Loc>, i: nat): nat {
    if i in loc then LocRank(loc[i]) else 0
  }

  function LocSum(loc: map<nat, Loc>, n: nat): nat {
    if n == 0 then 0 else LocSum(loc, n - 1) + LocRankAt(loc, n - 1)
  }

  lemma {:induction false} PcSumMove(threads: seq<Pc>, t: nat, pc: Pc)
    requires t < |threads|
    ensures PcSum(threads[t := pc]) + PcRank(threads[t]) == PcSum(threads) + PcRank(pc)
  {
    var n := |threads| - 1;
    if t == n {
      assert threads[t := pc][..n] == threads[..n];
    } else {
      PcSumMove(threads[..n], t, pc);
      assert threads[t := pc][..n] == threads[..n][t := pc];
    }
  }

  lemma {:induction false} LocSumSame(loc: map<nat, Loc>, i: nat, l: Loc, n: nat)
    requires n <= i
    ensures LocSum(loc[i := l], n) == LocSum(loc, n)
  {
    if n > 0 {
      LocSumSame(loc, i, l, n - 1);
    }
  }

  lemma {:induction false} LocSumMove(loc: map<nat, Loc>, i: nat, l: Loc, n: nat)
    requires i < n
    ensures LocSum(loc[i := l], n) + LocRankAt(loc, i) == LocSum(loc, n) + LocRank(l)
  {
    if i == n - 1 {
      LocSumSame(loc, i, l, n - 1);
    } else {
      LocSumMove(loc, i, l, n - 1);
    }
  }

  function Potential(c: Config, s: State): int {
    18 * (|c.evs| - s.consumed) + (|c.evs| - s.emitted) + PcSum(s.threads) + LocSum(s.loc, |c.evs|)
  }

  /** A step that moves one thread, and perhaps one entry. */
  ghost predicate Costs(c: Config, s: State, s': State, t: nat) {
    && t < |s.threads| == |s'.threads|
    && s'.threads == s.threads[t := s'.threads[t]]
    && s'.emitted == s.emitted && s'.consumed == s.consumed
    && s'.loc == s.loc && PcRank(s'.threads[t]) < PcRank(s.threads[t])
  }

  lemma CostsLess(c: Config, s: State, s': State, t: nat)
    requires Costs(c, s, s', t)
    ensures Potential(c, s') < Potential(c, s)
  {
    PcSumMove(s.threads, t, s'.threads[t]);
  }

  ghost predicate CostsMoving(c: Config, s: State, s': State, t: nat, i: nat) {
    && t < |s.threads| == |s'.threads| && i < |c.evs|
    && s'.threads == s.threads[t := s'.threads[t]]
    && s'.emitted == s.emitted && s.consumed <= s'.consumed
    && i in s'.loc && s'.loc == s.loc[i := s'.loc[i]]
    && PcRank(s'.threads[t]) + LocRank(s'.loc[i])
       < PcRank(s.threads[t]) + LocRankAt(s.loc, i) + 18 * (s'.consumed - s.consumed)
  }

  lemma CostsMovingLess(c: Config, s: State, s': State, t: nat, i: nat)
    requires CostsMoving(c, s, s', t, i)
    ensures Potential(c, s') < Potential(c, s)
  {
    PcSumMove(s.threads, t, s'.threads[t]);
    LocSumMove(s.loc, i, s'.loc[i], |c.evs|);
  }

  lemma ReceiveCosts(c: Config, s: State)
    requires Sane(c, s) && s.threads[0] == Idle && EntryFits(c, s, s.consumed)
    ensures Potential(c, StepReceive(c, s, 0)) < Potential(c, s)
  {
    var s' := StepReceive(c, s, 0);
    PcSumMove(s.threads, 0, s'.threads[0]);
    if s.consumed < s.emitted && IsEntry(c.evs, s.consumed) {
      LocSumMove(s.loc, s.consumed, Announcing, |c.evs|);
    }
  }

  lemma TakeCosts(c: Config, s: State, t: nat, a: Answer)
    requires Sane(c, s) && Queued(c, s) && 0 < t && CanRun(c, s, t, a) && s.threads[t] == Idle
    requires forall i: nat :: EntryFits(c, s, i)
    ensures Potential(c, Step(c, s, t, a)) < Potential(c, s)
  {
    var s' := Step(c, s, t, a);
    if s'.threads[t].Exited? {
      CostsLess(c, s, s', t);
    } else {
      var i := if s'.threads[t].Got? then s'.threads[t].i else s'.threads[t].r.dir;
      assert EntryFits(c, s, i);
      CostsMovingLess(c, s, s', t, i);
    }
  }

  lemma DeleteLeafCosts(c: Config, s: State, t: nat, a: Answer)
    requires Sane(c, s) && CanRun(c, s, t, a) && s.threads[t].Deleting?
    ensures Potential(c, Step(c, s, t, a)) < Potential(c, s)
  {
    var st := s.threads[t].stage;
    if !st.Finished? {
      AdvanceProgress(c.options, true, st, s.books.tally, a);
    }
    CostsLess(c, s, Step(c, s, t, a), t);
  }

  lemma DeleteDirCosts(c: Config, s: State, t: nat, a: Answer)
    requires Sane(c, s) && CanRun(c, s, t, a) && s.threads[t].DirDeleting?
    ensures Potential(c, Step(c, s, t, a)) < Potential(c, s)
  {
    var st := s.threads[t].stage;
    if !st.Finished? {
      AdvanceProgress(c.options, false, st, s.books.tally, a);
    }
    CostsLess(c, s, Step(c, s, t, a), t);
  }

  /** The thread keeps its entry, or has none. */
  lemma CoordinatorKeepingCosts(c: Config, s: State, t: nat, a: Answer)
    requires Sane(c, s) && CanRun(c, s, t, a)
    requires s.threads[t].NewDir? || s.threads[t].LeafCheck? || s.threads[t].LogListing? || s.threads[t].AwaitRoot?
             || s.threads[t].StopWorkers?
    ensures Potential(c, Step(c, s, t, a)) < Potential(c, s)
  {
    CostsLess(c, s, Step(c, s, t, a), t);
  }

  lemma FileWorkerKeepingCosts(c: Config, s: State, t: nat, a: Answer)
    requires Sane(c, s) && CanRun(c, s, t, a)
    requires s.threads[t].Got? || s.threads[t].Counting? || s.threads[t].LogLeaf?
    ensures Potential(c, Step(c, s, t, a)) < Potential(c, s)
  {
    CostsLess(c, s, Step(c, s, t, a), t);
  }

  lemma DirWorkerKeepingCosts(c: Config, s: State, t: nat, a: Answer)
    requires Sane(c, s) && CanRun(c, s, t, a)
    requires s.threads[t].DirGot? || s.threads[t].LogDir? || s.threads[t].Forgetting?
    ensures Potential(c, Step(c, s, t, a)) < Potential(c, s)
  {
    CostsLess(c, s, Step(c, s, t, a), t);
  }

  /** The thread passes its entry on. */
  lemma PassingCosts(c: Config, s: State, t: nat, a: Answer, i: nat)
    requires Sane(c, s) && ThreadFits(c, s, t) && CanRun(c, s, t, a) && EntryFits(c, s, i)
    requires s.threads[t].NewDirPending? || s.threads[t].NewLeaf? || s.threads[t].LeafSend? || s.threads[t].RootDone?
             || s.threads[t].Sending?
    requires Subject(s.threads[t]) == Some(i)
    ensures Potential(c, Step(c, s, t, a)) < Potential(c, s)
  {
    CostsMovingLess(c, s, Step(c, s, t, a), t, i);
  }

  lemma MarkCosts(c: Config, s: State, m: nat)
    requires Sane(c, s) && ThreadFits(c, s, 0) && s.threads[0] == MarkDir(m) && EntryFits(c, s, m) && DirInv(c, s, m)
    ensures Potential(c, StepMark(s, 0, m)) < Potential(c, s)
  {
    var s' := StepMark(s, 0, m);
    MarkStep(c, s, m);
    if s'.threads[0] == Idle {
      CostsLess(c, s, s', 0);
    } else {
      MarkedIsLive(c, s, s', m);
      CostsMovingLess(c, s, s', 0, m);
    }
  }

  lemma FinaliseCosts(c: Config, s: State, t: nat, m: nat)
    requires Sane(c, s) && ThreadFits(c, s, t) && s.threads[t] == Finalising(m) && DirInv(c, s, m)
    ensures Potential(c, StepFinalise(s, t, m)) < Potential(c, s)
  {
    FinaliseSucceeds(c, s, t, m);
    CostsLess(c, s, StepFinalise(s, t, m), t);
  }

  /** A step that settles one entry and wakes its waiting parent. */
  lemma CostsWakingLess(c: Config, s: State, s': State, t: nat, i: nat, p: nat)
    requires t < |s.threads| == |s'.threads| && i < |c.evs| && p < |c.evs| && i != p
    requires s'.threads == s.threads[t := s'.threads[t]] && s'.emitted == s.emitted && s'.consumed == s.consumed
    requires p in s.loc && s.loc[p].Live? && s'.loc == s.loc[i := Settled][p := Held(t)]
    requires PcRank(s'.threads[t]) < PcRank(s.threads[t]) + LocRank(Live)
    ensures Potential(c, s') < Potential(c, s)
  {
    PcSumMove(s.threads, t, s'.threads[t]);
    LocSumMove(s.loc, i, Settled, |c.evs|);
    LocSumMove(s.loc[i := Settled], p, Held(t), |c.evs|);
  }

  lemma CompleteCosts(c: Config, s: State, t: nat, i: nat, p: nat, kept: bool)
    requires Sane(c, s) && ThreadFits(c, s, t) && s.threads[t] == Completing(i, kept)
    requires EntryFits(c, s, i) && ChildOf(c.evs, i, p) && EntryFits(c, s, p) && DirInv(c, s, p)
    ensures Potential(c, StepComplete(c, s, t, i, kept)) < Potential(c, s)
  {
    var s' := StepComplete(c, s, t, i, kept);
    ParentWaits(c, s, i, p);
    if s'.threads[t] == Idle {
      CostsMovingLess(c, s, s', t, i);
    } else {
      CostsWakingLess(c, s, s', t, i, p);
    }
  }

  lemma StepCosts(c: Config, s: State, t: nat, a: Answer)
    requires Core(c, s) && CanRun(c, s, t, a)
    ensures Potential(c, Step(c, s, t, a)) < Potential(c, s)
  {
    var pc := s.threads[t];
    CoreParts(c, s, s.consumed);
    assert ThreadFits(c, s, t);
    if pc.MarkDir? {
      CoreParts(c, s, pc.d);
      MarkCosts(c, s, pc.d);
    } else if pc.Finalising? {
      CoreParts(c, s, pc.d);
      FinaliseCosts(c, s, t, pc.d);
    } else if pc.Completing? {
      CoreParts(c, s, pc.i);
      CoreParts(c, s, c.evs[pc.i].parent);
      CompleteCosts(c, s, t, pc.i, c.evs[pc.i].parent, pc.kept);
    } else {
      if Subject(pc).Some? {
        CoreParts(c, s, Subject(pc).value);
      }
      StepCostsCases(c, s, t, a);
    }
  }

  lemma StepCostsCases(c: Config, s: State, t: nat, a: Answer)
    requires Owned(c, s) && Queued(c, s) && ThreadFits(c, s, t) && CanRun(c, s, t, a)
    requires !s.threads[t].MarkDir? && !s.threads[t].Finalising? && !s.threads[t].Completing?
    ensures Potential(c, Step(c, s, t, a)) < Potential(c, s)
  {
    var pc := s.threads[t];
    if pc.Idle? {
      if t == 0 { ReceiveCosts(c, s); } else { TakeCosts(c, s, t, a); }
    } else if pc.Deleting? {
      DeleteLeafCosts(c, s, t, a);
    } else if pc.DirDeleting? {
      DeleteDirCosts(c, s, t, a);
    } else if pc.DirGot? || pc.LogDir? || pc.Forgetting? {
      DirWorkerKeepingCosts(c, s, t, a);
    } else if pc.Got? || pc.Counting? || pc.LogLeaf? {
      FileWorkerKeepingCosts(c, s, t, a);
    } else if Subject(pc).None? || pc.NewDir? || pc.LeafCheck? {
      CoordinatorKeepingCosts(c, s, t, a);
    } else {
      PassingCosts(c, s, t, a, Subject(pc).value);
    }
  }

  /** The enumerator or a thread moves. */
  predicate IsWork(a: Action) {
    a.Emit? || a.Run?
  }

  lemma TakesCosts(c: Config, s: State, a: Action, s': State)
    requires Core(c, s) && Takes(c, s, a, s')
    ensures Potential(c, s') <= Potential(c, s) - if IsWork(a) then 1 else 0
  {
    if a.Run? {
      StepCosts(c, s, a.t, a.answer);
    }
  }

  function Work(actions: seq<Action>, k: nat): nat
    requires k <= |actions|
  {
    if k == 0 then 0 else Work(actions, k - 1) + if IsWork(actions[k - 1]) then 1 else 0
  }

  lemma {:induction false} InitialPotential(threads: seq<Pc>, loc: map<nat, Loc>, n: nat)
    requires forall t :: 0 <= t < |threads| ==> threads[t] == Idle
    requires loc == map[0 := Live]
    ensures PcSum(threads) == 3 * |threads|
    ensures LocSum(loc, n) == if n == 0 then 0 else 15
    decreases |threads| + n
  {
    if |threads| > 0 {
      InitialPotential(threads[..|threads| - 1], loc, n);
    } else if n > 0 {
      InitialPotential(threads, loc, n - 1);
    }
  }

  /** All work done so far, and what may still come, fit into a bound that depends on the configuration alone. */
  lemma {:induction false} WorkIsBounded(c: Config, states: seq<State>, actions: seq<Action>, k: nat)
    requires ValidConfig(c) && IsRun(c, states, actions) && k < |states|
    ensures Potential(c, states[k]) >= 0
    ensures Work(actions, k) + Potential(c, states[k])
            <= 19 * (|c.evs| - 1) + 15 + 3 * (1 + c.dirWorkers + c.fileWorkers)
  {
    if k == 0 {
      InitialPotential(states[0].threads, states[0].loc, |c.evs|);
    } else {
      WorkIsBounded(c, states, actions, k - 1);
      RunCore(c, states, actions, k - 1);
      assert TakesAt(c, states, actions, k - 1);
      TakesCosts(c, states[k - 1], actions[k - 1], states[k]);
    }
    RunCore(c, states, actions, k);
  }
}
