/** What the counters add up to: while the pipeline runs, and in the summary it ends with. */
module PipelineConservation {
  import opened Wrappers
  import opened DirectoryTracking
  import opened Attempts
  import opened Report
  import opened Pipeline
  import opened PipelineInvariant
  import opened PipelineSteps
  import opened PipelineReach
  import opened PipelineLedger
  import opened PipelineProgress
  import opened PipelineTermination
  import opened PipelineEnd

  // ---------------------------------------------------------------------------------------------------------------
  // Leaves in flight
  // ---------------------------------------------------------------------------------------------------------------

  /** The thread has a leaf that was counted as scanned and not yet as anything else. */
  predicate Carries(pc: Pc) {
    pc.LeafCheck? || pc.LeafSend? || pc.Got? || pc.Deleting? || pc.Counting?
  }

  function InFlight(threads: seq<Pc>): nat {
    if |threads| == 0 then 0 else
    InFlight(threads[..|threads| - 1]) + if Carries(threads[|threads| - 1]) then 1 else 0
  }

  lemma {:induction false} InFlightMove(threads: seq<Pc>, t: nat, pc: Pc)
    requires t < |threads|
    ensures InFlight(threads[t := pc]) + (if Carries(threads[t]) then 1 else 0)
            == InFlight(threads) + if Carries(pc) then 1 else 0
  {
    var n := |threads| - 1;
    if t == n {
      assert threads[t := pc][..n] == threads[..n];
    } else {
      InFlightMove(threads[..n], t, pc);
      assert threads[t := pc][..n] == threads[..n][t := pc];
    }
  }

  lemma {:induction false} InFlightNone(threads: seq<Pc>)
    requires forall t :: 0 <= t < |threads| ==> !Carries(threads[t])
    ensures InFlight(threads) == 0
  {
    if |threads| > 0 {
      InFlightNone(threads[..|threads| - 1]);
    }
  }

  function FailedFiles(c: Config, s: State): nat {
    Total(c.evs, s.verdict, FilesFailed, |c.evs|)
  }

  ghost predicate Flow(c: Config, s: State) {
    s.books.metrics.filesScanned
    == s.books.metrics.filesDeleted + s.books.metrics.filesRetained + FailedFiles(c, s)
       + |s.fileQ| + InFlight(s.threads)
  }

  /** A step that moves no leaf past a counter. */
  ghost predicate FlowsOn(s: State, s': State, t: nat) {
    && t < |s.threads| == |s'.threads|
    && s'.threads == s.threads[t := s'.threads[t]]
    && s'.verdict == s.verdict
    && s'.books.metrics.filesDeleted == s.books.metrics.filesDeleted
    && s'.books.metrics.filesRetained == s.books.metrics.filesRetained
    && s'.books.metrics.filesScanned + |s.fileQ| + (if Carries(s.threads[t]) then 1 else 0)
       == s.books.metrics.filesScanned + |s'.fileQ| + (if Carries(s'.threads[t]) then 1 else 0)
  }

  lemma FlowsOnFlow(c: Config, s: State, s': State, t: nat)
    requires Flow(c, s) && FlowsOn(s, s', t)
    ensures Flow(c, s')
  {
    InFlightMove(s.threads, t, s'.threads[t]);
  }

  /** A step that counts one entry. */
  lemma DecidesFlow(c: Config, s: State, s': State, t: nat, i: nat, v: Verdict)
    requires Flow(c, s) && CountsOne(c, s, s', t, i, v) && s'.fileQ == s.fileQ
    requires IsLeaf(c.evs, i) <==> Carries(s.threads[t])
    requires !Carries(s'.threads[t])
    ensures Flow(c, s')
  {
    InFlightMove(s.threads, t, s'.threads[t]);
    TotalAdds(c.evs, s.verdict, i, v, FilesFailed, |c.evs|);
  }

  lemma ReceiveFlow(c: Config, s: State)
    requires Sane(c, s) && Flow(c, s) && s.threads[0] == Idle
    ensures Flow(c, StepReceive(c, s, 0))
  {
    FlowsOnFlow(c, s, StepReceive(c, s, 0), 0);
  }

  lemma TakeFlow(c: Config, s: State, t: nat)
    requires Sane(c, s) && Flow(c, s) && t < |s.threads| && s.threads[t] == Idle
    ensures Flow(c, StepTakeFile(c, s, t)) && Flow(c, StepTakeReady(c, s, t))
  {
    FlowsOnFlow(c, s, StepTakeFile(c, s, t), t);
    FlowsOnFlow(c, s, StepTakeReady(c, s, t), t);
  }

  lemma CheckLeafFlow(c: Config, s: State, i: nat)
    requires Sane(c, s) && ThreadFits(c, s, 0) && VerdictInv(c, s, i) && Flow(c, s) && s.threads[0] == LeafCheck(i)
    ensures Flow(c, StepCheckLeaf(c, s, 0, i))
  {
    var s' := StepCheckLeaf(c, s, 0, i);
    if s'.threads[0].LeafSend? {
      FlowsOnFlow(c, s, s', 0);
    } else {
      DecidesFlow(c, s, s', 0, i, s'.verdict[i]);
    }
  }

  lemma CountLeafFlow(c: Config, s: State, t: nat, i: nat, outcome: Outcome)
    requires Sane(c, s) && ThreadFits(c, s, t) && VerdictInv(c, s, i) && Flow(c, s)
    requires s.threads[t] == Counting(i, outcome)
    ensures Flow(c, StepCountLeaf(c, s, t, i, outcome))
  {
    var s' := StepCountLeaf(c, s, t, i, outcome);
    DecidesFlow(c, s, s', t, i, s'.verdict[i]);
  }

  lemma StartDirFlow(c: Config, s: State, t: nat, r: Ready)
    requires Sane(c, s) && ThreadFits(c, s, t) && VerdictInv(c, s, r.dir) && Flow(c, s) && s.threads[t] == DirGot(r)
    ensures Flow(c, StepStartDir(c, s, t, r))
  {
    var s' := StepStartDir(c, s, t, r);
    if s'.threads[t].Forgetting? {
      DecidesFlow(c, s, s', t, r.dir, s'.verdict[r.dir]);
    } else {
      FlowsOnFlow(c, s, s', t);
    }
  }

  lemma DeleteDirFlow(c: Config, s: State, t: nat, r: Ready, st: Stage, a: Answer)
    requires Sane(c, s) && ThreadFits(c, s, t) && VerdictInv(c, s, r.dir) && Flow(c, s)
    requires s.threads[t] == DirDeleting(r, st) && (st.Finished? || Answers(st, a))
    ensures Flow(c, StepDeleteDir(c, s, t, r, st, a))
  {
    var s' := StepDeleteDir(c, s, t, r, st, a);
    if st.Finished? {
      DecidesFlow(c, s, s', t, r.dir, s'.verdict[r.dir]);
    } else {
      FlowsOnFlow(c, s, s', t);
    }
  }

  lemma TailFlow(c: Config, s: State, t: nat, a: Answer)
    requires Sane(c, s) && Flow(c, s) && CanRun(c, s, t, a)
    requires s.threads[t].Completing? || s.threads[t].Finalising? || s.threads[t].Sending? || s.threads[t].Forgetting?
             || s.threads[t].RootDone? || s.threads[t].Got? || s.threads[t].Deleting?
    ensures Flow(c, Step(c, s, t, a))
  {
    FlowsOnFlow(c, s, Step(c, s, t, a), t);
  }

  lemma RegisterFlow(c: Config, s: State, a: Answer)
    requires Sane(c, s) && Flow(c, s) && CanRun(c, s, 0, a)
    requires s.threads[0].NewDir? || s.threads[0].NewDirPending? || s.threads[0].NewLeaf? || s.threads[0].LeafSend?
             || s.threads[0].MarkDir? || s.threads[0].AwaitRoot? || s.threads[0].StopWorkers?
    ensures Flow(c, Step(c, s, 0, a))
  {
    FlowsOnFlow(c, s, Step(c, s, 0, a), 0);
  }

  lemma LogFlow(c: Config, s: State, t: nat, a: Answer)
    requires Sane(c, s) && Flow(c, s) && CanRun(c, s, t, a) && IsLogging(s.threads[t])
    ensures Flow(c, Step(c, s, t, a))
  {
    FlowsOnFlow(c, s, Step(c, s, t, a), t);
  }

  lemma StepFlowCases(c: Config, s: State, t: nat, a: Answer)
    requires Sane(c, s) && ThreadFits(c, s, t) && Flow(c, s) && CanRun(c, s, t, a)
    requires Subject(s.threads[t]).Some? ==> VerdictInv(c, s, Subject(s.threads[t]).value)
    ensures Flow(c, Step(c, s, t, a))
  {
    var pc := s.threads[t];
    if pc.Idle? {
      if t > 0 { TakeFlow(c, s, t); } else { ReceiveFlow(c, s); }
    } else if IsLogging(pc) {
      LogFlow(c, s, t, a);
    } else if pc.Completing? || pc.Finalising? || pc.Sending? || pc.Forgetting? || pc.RootDone? || pc.Got?
              || pc.Deleting? {
      TailFlow(c, s, t, a);
    } else if pc.LeafCheck? {
      CheckLeafFlow(c, s, pc.i);
    } else if pc.Counting? {
      CountLeafFlow(c, s, t, pc.i, pc.outcome);
    } else if pc.DirGot? {
      StartDirFlow(c, s, t, pc.r);
    } else if pc.DirDeleting? {
      DeleteDirFlow(c, s, t, pc.r, pc.stage, a);
    } else {
      RegisterFlow(c, s, a);
    }
  }

  lemma TakesFlow(c: Config, s: State, a: Action, s': State)
    requires Core(c, s) && Flow(c, s) && Takes(c, s, a, s')
    ensures Flow(c, s')
  {
    if a.Run? {
      CoreParts(c, s, 0);
      assert ThreadFits(c, s, a.t);
      if Subject(s.threads[a.t]).Some? {
        CoreParts(c, s, Subject(s.threads[a.t]).value);
      }
      StepFlowCases(c, s, a.t, a.answer);
    }
  }

  lemma InitFlow(c: Config, s: State)
    requires ValidConfig(c) && IsInit(c, s)
    ensures Flow(c, s)
  {
    InFlightNone(s.threads);
    NothingCounted(c.evs, FilesFailed, |c.evs|);
  }

  /**
   Conservation of leaves: in every state of every run, a scanned leaf is deleted, retained, failed, queued, or in the
   hands of exactly one thread.
   */
  lemma {:induction false} LeavesAreConserved(c: Config, states: seq<State>, actions: seq<Action>, k: nat)
    requires ValidConfig(c) && IsRun(c, states, actions) && k < |states|
    ensures var s := states[k]; var m := s.books.metrics;
            m.filesScanned
            == m.filesDeleted + m.filesRetained + FailedFiles(c, s) + |s.fileQ| + InFlight(s.threads)
  {
    if k == 0 {
      InitFlow(c, states[0]);
    } else {
      LeavesAreConserved(c, states, actions, k - 1);
      RunCore(c, states, actions, k - 1);
      assert TakesAt(c, states, actions, k - 1);
      TakesFlow(c, states[k - 1], actions[k - 1], states[k]);
    }
  }

  // ---------------------------------------------------------------------------------------------------------------
  // The end of a run
  // ---------------------------------------------------------------------------------------------------------------

  /** When every directory but perhaps the root has a verdict, the verdicts account for all of them. */
  lemma {:induction false} DirsAddUp(evs: Stream, verdict: map<nat, Verdict>, preserveRoot: bool, n: nat)
    requires WellFormed(evs) && 0 < n <= |evs|
    requires forall i: nat :: i in verdict <==> IsEntry(evs, i) && !(i == 0 && preserveRoot)
    ensures CountEvents(evs, AnyDir, n)
            == Total(evs, verdict, DirsDeleted, n) + Total(evs, verdict, DirsRetained, n)
             + Total(evs, verdict, DirsFailed, n) + if preserveRoot then 1 else 0
  {
    if n == 1 {
      assert CountEvents(evs, AnyDir, 0) == 0;
      assert Total(evs, verdict, DirsDeleted, 0) == Total(evs, verdict, DirsRetained, 0)
             == Total(evs, verdict, DirsFailed, 0) == 0;
    } else {
      DirsAddUp(evs, verdict, preserveRoot, n - 1);
    }
  }

  /** The summary of a finished run. */
  function SummaryOf(c: Config, s: State, killLocks: bool, aclRepair: bool, remoteLocks: bool): Summary {
    Summary(s.ctl.cancelled, s.books.log.stored, s.books.tally.remediationAttempts,
            s.books.tally.remediationSuccesses, aclRepair, killLocks, remoteLocks)
  }

  /**
   The books of a finished run balance. Every scanned leaf was deleted, retained or failed; every scanned directory
   too, a preserved root excepted; each counted failure was pushed to the log, which keeps MAX_STORED_FAILURES of them
   and says so; each retry has one cause; and the exit code is Success exactly when nothing failed and nobody
   interrupted the run.
   */
  lemma TheBooksBalance(
    c: Config, states: seq<State>, actions: seq<Action>, killLocks: bool, aclRepair: bool, remoteLocks: bool)
    requires ValidConfig(c) && IsRun(c, states, actions) && Terminated(states[|actions|])
    ensures var s := states[|actions|]; var m := s.books.metrics;
            && m.filesScanned == m.filesDeleted + m.filesRetained + FailedFiles(c, s)
            && m.dirsScanned == m.dirsDeleted + m.dirsRetained + Total(c.evs, s.verdict, DirsFailed, |c.evs|)
                              + (if c.preserveRoot then 1 else 0)
            && m.failures == FailedFiles(c, s) + Total(c.evs, s.verdict, DirsFailed, |c.evs|)
                           + CountEvents(c.evs, AnyFailure, |c.evs|)
            && |s.books.log.stored| == (if m.failures <= MAX_STORED_FAILURES then m.failures else MAX_STORED_FAILURES)
            && (s.books.log.truncated <==> m.failures > MAX_STORED_FAILURES)
            && RetriesExplained(s.books.tally)
            && (SummaryOf(c, s, killLocks, aclRepair, remoteLocks).ExitCode() == Success
                <==> !s.ctl.cancelled && m.failures == 0)
  {
    var n := |actions|;
    var s := states[n];
    RunCore(c, states, actions, n);
    RunControlled(c, states, actions, n);
    RunLedger(c, states, actions, n);
    LeavesAreConserved(c, states, actions, n);
    CoreParts(c, s, 0);
    TerminatedIsComplete(c, s);
    InFlightNone(s.threads);
    LoggingNone(s.threads);
    assert RoleOf(c, c.dirWorkers + 1).FileWorker? && ExitFits(c, s, c.dirWorkers + 1);
    DirsAddUp(c.evs, s.verdict, c.preserveRoot, |c.evs|);
  }
}
