/** Repairs in whole runs: what the options do not allow is not done by any thread, and not counted. */
module PipelineRepairs {
  import opened Wrappers
  import opened Attempts
  import opened Pipeline
  import opened PipelineInvariant
  import opened PipelineReach

  /** A stage that the options allow. */
  predicate StageAllowed(o: DeleteOptions, leaf: bool, st: Stage) {
    && (st.Remediating? || st.AfterRemediation? ==> o.allowRemediation)
    && (st.LocalLock? || st.AfterLocalLock? ==> leaf && o.killLocks)
    && (st.RemoteLock? || st.AfterRemoteLock? ==> leaf && o.closeRemoteLocks)
  }

  predicate TallyAllowed(o: DeleteOptions, n: Tally) {
    && (!o.allowRemediation ==> n.remediationAttempts == 0 && n.remediationSuccesses == 0)
    && (!o.killLocks ==> n.localLocksResolved == 0)
    && (!o.closeRemoteLocks ==> n.remoteLocksResolved == 0)
  }

  predicate PcAllowed(o: DeleteOptions, pc: Pc) {
    match pc
    case Deleting(_, st) => StageAllowed(o, true, st)
    case DirDeleting(_, st) => StageAllowed(o, false, st)
    case _ => true
  }

  predicate AllAllowed(c: Config, s: State) {
    TallyAllowed(c.options, s.books.tally) && forall t :: 0 <= t < |s.threads| ==> PcAllowed(c.options, s.threads[t])
  }

  lemma AdvanceAllowed(o: DeleteOptions, leaf: bool, st: Stage, n: Tally, a: Answer)
    requires Answers(st, a) && StageAllowed(o, leaf, st) && TallyAllowed(o, n)
    ensures StageAllowed(o, leaf, Advance(o, leaf, st, n, a).0) && TallyAllowed(o, Advance(o, leaf, st, n, a).1)
  {
  }

  /** The step changes one program counter, to one that is allowed, and no counter of repairs. */
  predicate Harmless(o: DeleteOptions, s: State, s': State, t: nat) {
    && t < |s.threads| == |s'.threads| && s'.books.tally == s.books.tally
    && s'.threads == s.threads[t := s'.threads[t]] && PcAllowed(o, s'.threads[t])
  }

  lemma IdleHarmless(c: Config, s: State, t: nat, a: Answer)
    requires CanRun(c, s, t, a) && s.threads[t].Idle?
    ensures Harmless(c.options, s, Step(c, s, t, a), t)
  {
  }

  lemma RegisterHarmless(c: Config, s: State, t: nat, a: Answer)
    requires CanRun(c, s, t, a)
    requires var pc := s.threads[t];
             pc.NewDir? || pc.NewDirPending? || pc.NewLeaf? || pc.LeafCheck? || pc.LeafSend? || pc.MarkDir?
             || pc.LogListing? || pc.AwaitRoot? || pc.StopWorkers?
    ensures Harmless(c.options, s, Step(c, s, t, a), t)
  {
  }

  lemma WorkHarmless(c: Config, s: State, t: nat, a: Answer)
    requires CanRun(c, s, t, a)
    requires var pc := s.threads[t];
             pc.Got? || pc.Counting? || pc.LogLeaf? || pc.DirGot? || pc.LogDir? || pc.Forgetting? || pc.RootDone?
             || pc.Completing? || pc.Finalising? || pc.Sending?
    ensures Harmless(c.options, s, Step(c, s, t, a), t)
  {
  }

  lemma StepAllowed(c: Config, s: State, t: nat, a: Answer)
    requires CanRun(c, s, t, a) && AllAllowed(c, s)
    ensures AllAllowed(c, Step(c, s, t, a))
  {
    hide Advance;
    if s.threads[t].Deleting? && !s.threads[t].stage.Finished? {
      AdvanceAllowed(c.options, true, s.threads[t].stage, s.books.tally, a);
    } else if s.threads[t].DirDeleting? && !s.threads[t].stage.Finished? {
      AdvanceAllowed(c.options, false, s.threads[t].stage, s.books.tally, a);
    } else if s.threads[t].Idle? {
      IdleHarmless(c, s, t, a);
    } else if s.threads[t].Got? || s.threads[t].Counting? || s.threads[t].LogLeaf? || s.threads[t].DirGot?
              || s.threads[t].LogDir? || s.threads[t].Forgetting? || s.threads[t].RootDone?
              || s.threads[t].Completing? || s.threads[t].Finalising? || s.threads[t].Sending? {
      WorkHarmless(c, s, t, a);
    } else if !s.threads[t].Deleting? && !s.threads[t].DirDeleting? {
      RegisterHarmless(c, s, t, a);
    }
  }

  /**
   In every state of every run, without `--force` nothing was remediated, and without the lock options no lock was
   resolved: not one attempt was made, and no thread is about to make one.
   */
  lemma {:induction false} RunAllowed(c: Config, states: seq<State>, actions: seq<Action>, k: nat)
    requires IsRun(c, states, actions) && k < |states|
    ensures TallyAllowed(c.options, states[k].books.tally)
    ensures forall t :: 0 <= t < |states[k].threads| ==> PcAllowed(c.options, states[k].threads[t])
  {
    if k > 0 {
      RunAllowed(c, states, actions, k - 1);
      assert TakesAt(c, states, actions, k - 1);
      if actions[k - 1].Run? {
        StepAllowed(c, states[k - 1], actions[k - 1].t, actions[k - 1].answer);
      }
    }
  }

  // ---------------------------------------------------------------------------------------------------------------
  // The counters of repairs
  // ---------------------------------------------------------------------------------------------------------------

  datatype Repair = Attempted | Applied | LocalResolved | RemoteResolved

  function StageOf(pc: Pc): Option<Stage> {
    match pc
    case Deleting(_, st) => Some(st)
    case DirDeleting(_, st) => Some(st)
    case _ => None
  }

  /** What the engine's answer to a stage amounts to. */
  predicate Amounts(o: DeleteOptions, st: Stage, a: Answer, r: Repair) {
    match r
    case Attempted =>
      && st.First? && o.allowRemediation
      && (a == DeleteAnswer(Failed(AccessDenied)) || a == DeleteAnswer(Failed(ReparsePointRefused)))
    case Applied => st.Remediating? && a == RemediationAnswer(true)
    case LocalResolved => st.LocalLock? && a == LockAnswer(Resolved)
    case RemoteResolved => st.RemoteLock? && a == LockAnswer(Resolved)
  }

  predicate Happens(o: DeleteOptions, s: State, a: Action, r: Repair) {
    && a.Run? && a.t < |s.threads| && StageOf(s.threads[a.t]).Some?
    && Amounts(o, StageOf(s.threads[a.t]).value, a.answer, r)
  }

  /** How often it has happened in the first k steps. */
  function Happened(o: DeleteOptions, states: seq<State>, actions: seq<Action>, r: Repair, k: nat): nat
    requires k <= |actions| < |states|
  {
    if k == 0 then 0
    else Happened(o, states, actions, r, k - 1) + if Happens(o, states[k - 1], actions[k - 1], r) then 1 else 0
  }

  function One(b: bool): nat {
    if b then 1 else 0
  }

  lemma AdvanceAmounts(o: DeleteOptions, leaf: bool, st: Stage, n: Tally, a: Answer)
    requires Answers(st, a)
    ensures var m := Advance(o, leaf, st, n, a).1;
            m == Tally(n.remediationAttempts + One(Amounts(o, st, a, Attempted)),
                       n.remediationSuccesses + One(Amounts(o, st, a, Applied)),
                       n.localLocksResolved + One(Amounts(o, st, a, LocalResolved)),
                       n.remoteLocksResolved + One(Amounts(o, st, a, RemoteResolved)),
                       n.retries + One(Amounts(o, st, a, Applied)) + One(Amounts(o, st, a, LocalResolved))
                       + One(Amounts(o, st, a, RemoteResolved)))
  {
  }

  lemma TakesAmounts(c: Config, s: State, a: Action, s': State)
    requires Takes(c, s, a, s')
    ensures var n, o := s.books.tally, c.options;
            s'.books.tally
            == Tally(n.remediationAttempts + One(Happens(o, s, a, Attempted)),
                     n.remediationSuccesses + One(Happens(o, s, a, Applied)),
                     n.localLocksResolved + One(Happens(o, s, a, LocalResolved)),
                     n.remoteLocksResolved + One(Happens(o, s, a, RemoteResolved)),
                     n.retries + One(Happens(o, s, a, Applied)) + One(Happens(o, s, a, LocalResolved))
                     + One(Happens(o, s, a, RemoteResolved)))
  {
    hide Advance;
    if a.Run? {
      var pc := s.threads[a.t];
      if StageOf(pc).Some? {
        DeletingAmounts(c, s, a.t, a.answer);
      } else if pc.Idle? {
        IdleHarmless(c, s, a.t, a.answer);
      } else if pc.Got? || pc.Counting? || pc.LogLeaf? || pc.DirGot? || pc.LogDir? || pc.Forgetting? || pc.RootDone?
                || pc.Completing? || pc.Finalising? || pc.Sending? {
        WorkHarmless(c, s, a.t, a.answer);
      } else {
        RegisterHarmless(c, s, a.t, a.answer);
      }
    }
  }

  lemma DeletingAmounts(c: Config, s: State, t: nat, a: Answer)
    requires CanRun(c, s, t, a) && StageOf(s.threads[t]).Some?
    ensures var n, m, st, o := s.books.tally, Step(c, s, t, a).books.tally, StageOf(s.threads[t]).value, c.options;
            m == Tally(n.remediationAttempts + One(Amounts(o, st, a, Attempted)),
                       n.remediationSuccesses + One(Amounts(o, st, a, Applied)),
                       n.localLocksResolved + One(Amounts(o, st, a, LocalResolved)),
                       n.remoteLocksResolved + One(Amounts(o, st, a, RemoteResolved)),
                       n.retries + One(Amounts(o, st, a, Applied)) + One(Amounts(o, st, a, LocalResolved))
                       + One(Amounts(o, st, a, RemoteResolved)))
  {
    hide Advance;
    var st := StageOf(s.threads[t]).value;
    if !st.Finished? {
      AdvanceAmounts(c.options, s.threads[t].Deleting?, st, s.books.tally, a);
    }
  }

  /**
   The counters of repairs, in every state of every run: an attempt for each first delete that was refused for want of
   permissions and may be repaired, a success for each repair the engine applied, a resolved lock for each it resolved,
   and a retry for each of these.
   */
  lemma {:induction false} RepairsAreCounted(c: Config, states: seq<State>, actions: seq<Action>, k: nat)
    requires IsRun(c, states, actions) && k < |states|
    ensures var o := c.options;
            states[k].books.tally
            == Tally(Happened(o, states, actions, Attempted, k), Happened(o, states, actions, Applied, k),
                     Happened(o, states, actions, LocalResolved, k), Happened(o, states, actions, RemoteResolved, k),
                     Happened(o, states, actions, Applied, k) + Happened(o, states, actions, LocalResolved, k)
                     + Happened(o, states, actions, RemoteResolved, k))
  {
    hide Takes, Happens;
    if k > 0 {
      RepairsAreCounted(c, states, actions, k - 1);
      assert TakesAt(c, states, actions, k - 1);
      TakesAmounts(c, states[k - 1], actions[k - 1], states[k]);
    }
  }
}
