/** What the failure log says, in every run, and what an exit code of Success means. */
module PipelineLog {
  import opened Wrappers
  import opened DirectoryTracking
  import opened Attempts
  import opened Report
  import opened Pipeline
  import opened PipelineInvariant
  import opened PipelineSteps
  import opened PipelineReach
  import opened PipelineLife
  import opened PipelineSafety
  import opened PipelineLedger
  import opened PipelineProgress
  import opened PipelineTermination
  import opened PipelineEnd
  import opened PipelineConservation
  import opened PipelinePrune
  import opened PipelineFaults
  import opened PipelineRepairs

  // ---------------------------------------------------------------------------------------------------------------
  // The log
  // ---------------------------------------------------------------------------------------------------------------

  /** A failure in the log is a listing's, or the one that the engine reported about an entry that failed. */
  ghost predicate Explained(c: Config, states: seq<State>, actions: seq<Action>, k: nat, category: Category)
    requires k <= |actions| < |states|
  {
    || (category == Io && exists j: nat :: OfKind(c.evs, AnyFailure, j) && j < states[k].consumed)
    || (exists i: nat :: i in states[k].verdict && states[k].verdict[i] == HasFailed
                         && Heard(states, actions, k, i) == Some(Failed(category)))
  }

  /** The failure of an entry is in the log, or about to be pushed to it. */
  ghost predicate Logged(states: seq<State>, actions: seq<Action>, k: nat, i: nat)
    requires k <= |actions| < |states|
  {
    var s := states[k];
    || (PlaceOf(s, i).With? && (PlaceOf(s, i).pc.LogLeaf? || PlaceOf(s, i).pc.LogDir?))
    || s.books.log.truncated
    || (Heard(states, actions, k, i).Some? && Heard(states, actions, k, i).value.Failed?
        && Heard(states, actions, k, i).value.category in s.books.log.stored)
  }

  /** A failed listing is about to be logged because the enumerator reported one. */
  predicate ListingFits(c: Config, s: State) {
    |s.threads| > 0 && s.consumed > 0 && (s.threads[0].LogListing? ==> OfKind(c.evs, AnyFailure, s.consumed - 1))
  }

  ghost predicate LogTells(c: Config, states: seq<State>, actions: seq<Action>, k: nat)
    requires k <= |actions| < |states|
  {
    && ListingFits(c, states[k])
    && (forall category :: category in states[k].books.log.stored ==> Explained(c, states, actions, k, category))
    && (forall i: nat :: i in states[k].verdict && states[k].verdict[i] == HasFailed ==> Logged(states, actions, k, i))
  }

  /** What a step does to the log. */
  predicate LogMoves(s: State, s': State, w: Doing) {
    match w.pc
    case LogListing => s'.books.log == Push(s.books.log, Io)
    case LogLeaf(_, category) => s'.books.log == Push(s.books.log, category)
    case LogDir(_, category) => s'.books.log == Push(s.books.log, category)
    case _ => s'.books.log == s.books.log
  }

  lemma CoordinatorLogs(c: Config, s: State, a: Answer)
    requires Sane(c, s) && ThreadFits(c, s, 0) && CanRun(c, s, 0, a) && !s.threads[0].Idle?
    requires ListingFits(c, s)
    ensures var s' := Step(c, s, 0, a);
            LogMoves(s, s', Doing(s.threads[0], a)) && ListingFits(c, s') && s'.consumed == s.consumed
  {
  }

  lemma ReceiveLogs(c: Config, s: State)
    requires Sane(c, s) && s.threads[0].Idle?
    ensures var s' := StepReceive(c, s, 0);
            s'.books.log == s.books.log && ListingFits(c, s') && s.consumed <= s'.consumed
  {
  }

  lemma WorkerLogs(c: Config, s: State, t: nat, a: Answer)
    requires Sane(c, s) && ThreadFits(c, s, t) && CanRun(c, s, t, a) && t > 0
    requires ListingFits(c, s)
    ensures var s' := Step(c, s, t, a);
            LogMoves(s, s', Doing(s.threads[t], a)) && ListingFits(c, s') && s'.consumed == s.consumed
  {
  }

  lemma StepLogs(c: Config, s: State, a: Action, s': State)
    requires Core(c, s) && Takes(c, s, a, s') && ListingFits(c, s)
    ensures LogMoves(s, s', DoingOf(s, a)) && ListingFits(c, s') && s.consumed <= s'.consumed
  {
    hide Core, CanRun, Step;
    CoreParts(c, s, 0);
    if a.Run? {
      IsRunnable(c, s, a.t, a.answer);
      assert ThreadFits(c, s, a.t);
      if a.t > 0 {
        WorkerLogs(c, s, a.t, a.answer);
      } else if s.threads[0].Idle? {
        IdleReceives(c, s, a.answer);
        ReceiveLogs(c, s);
      } else {
        CoordinatorLogs(c, s, a.answer);
      }
    }
  }

  lemma IsRunnable(c: Config, s: State, t: nat, a: Answer)
    requires CanRun(c, s, t, a)
    ensures t < |s.threads|
  {
  }

  lemma IdleReceives(c: Config, s: State, a: Answer)
    requires CanRun(c, s, 0, a) && s.threads[0].Idle?
    ensures Step(c, s, 0, a) == StepReceive(c, s, 0)
  {
  }

  lemma StillExplained(c: Config, states: seq<State>, actions: seq<Action>, k: nat, category: Category)
    requires ValidConfig(c) && IsRun(c, states, actions) && k < |actions| && Explained(c, states, actions, k, category)
    requires states[k].consumed <= states[k + 1].consumed
    ensures Explained(c, states, actions, k + 1, category)
  {
    hide Heard;
    if i: nat :| i in states[k].verdict && states[k].verdict[i] == HasFailed
                 && Heard(states, actions, k, i) == Some(Failed(category))
    {
      VerdictsAreFinal(c, states, actions, k, k + 1, i);
    }
  }

  /** Whatever a step adds to the log is explained. */
  lemma NewIsExplained(c: Config, states: seq<State>, actions: seq<Action>, k: nat, category: Category)
    requires ValidConfig(c) && IsRun(c, states, actions) && k < |actions| && ListingFits(c, states[k])
    requires var pc := DoingOf(states[k], actions[k]).pc;
             (pc.LogListing? && category == Io) || ((pc.LogLeaf? || pc.LogDir?) && category == pc.category)
    ensures Explained(c, states, actions, k, category)
  {
    hide Heard, Core, Sound;
    var s, t := states[k], actions[k].t;
    RunCore(c, states, actions, k);
    CoreParts(c, s, 0);
    assert TakesAt(c, states, actions, k);
    assert ThreadFits(c, s, t);
    if s.threads[t].LogListing? {
      assert OfKind(c.evs, AnyFailure, s.consumed - 1);
    } else {
      var i := Subject(s.threads[t]).value;
      FailedIsHeld(c, s, t, i);
      RunSound(c, states, actions, k, i);
      LoggingHeard(c, i, s.ctl.cancelled, LifeOf(s, i), Heard(states, actions, k, i));
    }
  }

  lemma FailedIsHeld(c: Config, s: State, t: nat, i: nat)
    requires Core(c, s) && t < |s.threads| && (s.threads[t].LogLeaf? || s.threads[t].LogDir?)
    requires Subject(s.threads[t]) == Some(i)
    ensures IsEntry(c.evs, i) && PlaceOf(s, i) == With(s.threads[t]) && i in s.verdict && s.verdict[i] == HasFailed
  {
    assert ThreadFits(c, s, t);
    CoreParts(c, s, i);
  }

  lemma LoggingHeard(c: Config, i: nat, cancelled: bool, l: Life, h: Option<Outcome>)
    requires Sound(c, i, cancelled, l, h) && l.verdict.Some? && l.place.With?
    ensures l.place.pc.LogLeaf? ==> h == Some(Failed(l.place.pc.category))
    ensures l.place.pc.LogDir? ==> h == Some(Failed(l.place.pc.category))
  {
  }

  /** When an entry's failure leaves the hands of the thread that counted it, it has been pushed. */
  lemma StillLogged(c: Config, states: seq<State>, actions: seq<Action>, k: nat, i: nat)
    requires ValidConfig(c) && IsRun(c, states, actions) && k < |actions| && i in states[k].verdict
    requires states[k].verdict[i] == HasFailed && Logged(states, actions, k, i)
    requires LogMoves(states[k], states[k + 1], DoingOf(states[k], actions[k]))
    ensures Logged(states, actions, k + 1, i)
  {
    hide Heard, Core, Sound, Push;
    var s, s', w := states[k], states[k + 1], DoingOf(states[k], actions[k]);
    VerdictsAreFinal(c, states, actions, k, k + 1, i);
    PushKeeps(s.books.log, Io);
    if w.pc.LogLeaf? || w.pc.LogDir? {
      PushKeeps(s.books.log, w.pc.category);
    }
    if PlaceOf(s, i).With? && (PlaceOf(s, i).pc.LogLeaf? || PlaceOf(s, i).pc.LogDir?) {
      RunCore(c, states, actions, k);
      VerdictOnEntry(c, s, i);
      RunSound(c, states, actions, k, i);
      LoggingHeard(c, i, s.ctl.cancelled, LifeOf(s, i), Heard(states, actions, k, i));
      RunLife(c, states, actions, k, i);
      LoggingMoves(c, i, s.ctl.cancelled, w, LifeOf(s, i), LifeOf(s', i));
    }
  }

  lemma LoggingMoves(c: Config, i: nat, cancelled: bool, w: Doing, l: Life, l': Life)
    requires l' == l || NextLife(c, i, cancelled, w, l, l')
    requires l.place.With? && (l.place.pc.LogLeaf? || l.place.pc.LogDir?)
    ensures l'.place == l.place || w.pc == l.place.pc
  {
    hide Advance;
  }

  lemma PushKeeps(log: Log, category: Category)
    ensures var log' := Push(log, category);
            && (forall x :: x in log.stored ==> x in log'.stored) && (log.truncated ==> log'.truncated)
            && (category in log'.stored || log'.truncated)
            && (forall x :: x in log'.stored ==> x in log.stored || x == category)
  {
  }

  /** An entry that fails in this step is about to be logged. */
  lemma FailsIntoLog(c: Config, states: seq<State>, actions: seq<Action>, k: nat, i: nat)
    requires ValidConfig(c) && IsRun(c, states, actions) && CountedAt(states, k, i)
    requires states[k + 1].verdict[i] == HasFailed
    ensures Logged(states, actions, k + 1, i)
  {
    hide Core, Heard;
    RunLife(c, states, actions, k, i);
    FailingLogs(c, i, states[k].ctl.cancelled, DoingOf(states[k], actions[k]),
                LifeOf(states[k], i), LifeOf(states[k + 1], i));
  }

  lemma FailingLogs(c: Config, i: nat, cancelled: bool, w: Doing, l: Life, l': Life)
    requires NextLife(c, i, cancelled, w, l, l') && l.verdict.None? && l'.verdict == Some(HasFailed)
    ensures l'.place.With? && (l'.place.pc.LogLeaf? || l'.place.pc.LogDir?)
  {
    hide Advance;
  }

  /**
   The log tells the truth, in every state of every run: what is in it is a failed listing, or what the engine reported
   about an entry that was counted as failed; and the failure of every such entry is in it, or is about to be, or was
   dropped because the log is full.
   */
  lemma {:induction false} RunLog(c: Config, states: seq<State>, actions: seq<Action>, k: nat)
    requires ValidConfig(c) && IsRun(c, states, actions) && k < |states|
    ensures LogTells(c, states, actions, k)
  {
    hide Core, Heard, Explained, Logged, LogMoves, Push;
    if k > 0 {
      RunLog(c, states, actions, k - 1);
      RunCore(c, states, actions, k - 1);
      assert TakesAt(c, states, actions, k - 1);
      StepLogs(c, states[k - 1], actions[k - 1], states[k]);
      forall category | category in states[k].books.log.stored ensures Explained(c, states, actions, k, category) {
        FromBefore(c, states, actions, k - 1, category);
        StillExplained(c, states, actions, k - 1, category);
      }
      forall i: nat | i in states[k].verdict && states[k].verdict[i] == HasFailed
        ensures Logged(states, actions, k, i)
      {
        if i in states[k - 1].verdict {
          VerdictsAreFinal(c, states, actions, k - 1, k, i);
          StillLogged(c, states, actions, k - 1, i);
        } else {
          FailsIntoLog(c, states, actions, k - 1, i);
        }
      }
    }
  }

  lemma FromBefore(c: Config, states: seq<State>, actions: seq<Action>, k: nat, category: Category)
    requires ValidConfig(c) && IsRun(c, states, actions) && k < |actions| && LogTells(c, states, actions, k)
    requires LogMoves(states[k], states[k + 1], DoingOf(states[k], actions[k]))
    requires category in states[k + 1].books.log.stored
    ensures Explained(c, states, actions, k, category)
  {
    hide Explained, Logged, Push;
    var pc := DoingOf(states[k], actions[k]).pc;
    if category !in states[k].books.log.stored {
      PushKeeps(states[k].books.log, Io);
      if pc.LogLeaf? || pc.LogDir? {
        PushKeeps(states[k].books.log, pc.category);
      }
      NewIsExplained(c, states, actions, k, category);
    }
  }

  // ---------------------------------------------------------------------------------------------------------------
  // The end of a run
  // ---------------------------------------------------------------------------------------------------------------

  lemma {:induction false} NoneIsCounted(evs: Stream, verdict: map<nat, Verdict>, k: Counter, n: nat, i: nat)
    requires Total(evs, verdict, k, n) == 0 && i < n
    ensures Weight(evs, verdict, k, i) == 0
  {
    if i < n - 1 {
      NoneIsCounted(evs, verdict, k, n - 1, i);
    }
  }

  lemma NoneFailed(c: Config, s: State, i: nat)
    requires Core(c, s) && i in s.verdict
    requires Total(c.evs, s.verdict, FilesFailed, |c.evs|) == 0 && Total(c.evs, s.verdict, DirsFailed, |c.evs|) == 0
    ensures s.verdict[i] != HasFailed
  {
    VerdictOnEntry(c, s, i);
    NoneIsCounted(c.evs, s.verdict, FilesFailed, |c.evs|, i);
    NoneIsCounted(c.evs, s.verdict, DirsFailed, |c.evs|, i);
  }

  /**
   What Success means, after a real run: of what is still on disk, a file or link is one the filters retain, and a
   directory is the preserved target, or the engine found that it is not empty.
   */
  lemma SuccessMeansDone(
    c: Config, states: seq<State>, actions: seq<Action>, killLocks: bool, aclRepair: bool, remoteLocks: bool, i: nat)
    requires ValidConfig(c) && IsRun(c, states, actions) && Terminated(states[|actions|]) && !c.dryRun
    requires SummaryOf(c, states[|actions|], killLocks, aclRepair, remoteLocks).ExitCode() == Success
    requires i in states[|actions|].disk.present
    ensures IsEntry(c.evs, i)
    ensures IsLeaf(c.evs, i) ==> i in c.retain
    ensures IsDir(c.evs, i) ==>
              (i == 0 && c.preserveRoot)
              || (c.preserveRoot && i in states[|actions|].verdict && states[|actions|].verdict[i] == WasRetained
                  && Heard(states, actions, |actions|, i) == Some(Failed(NotEmpty)))
  {
    hide Core, Sound, Heard;
    var n := |actions|;
    var s := states[n];
    TheBooksBalance(c, states, actions, killLocks, aclRepair, remoteLocks);
    PresentAreEntries(c, states, actions, n);
    assert IsEntry(c.evs, i);
    RunCore(c, states, actions, n);
    RunControlled(c, states, actions, n);
    TerminatedIsComplete(c, s);
    RunSound(c, states, actions, n, i);
    if i in s.verdict {
      NoneFailed(c, s, i);
      WhatIsLeft(c, i, LifeOf(s, i), Heard(states, actions, n, i));
    }
  }

  lemma WhatIsLeft(c: Config, i: nat, l: Life, h: Option<Outcome>)
    requires Sound(c, i, false, l, h) && l.present && l.verdict.Some? && l.verdict != Some(HasFailed) && !c.dryRun
    ensures IsLeaf(c.evs, i) ==> i in c.retain
    ensures IsDir(c.evs, i) ==> l.verdict == Some(WasRetained) && h == Some(Failed(NotEmpty)) && c.preserveRoot
  {
  }

  /** The engine reported that a lock held by a remote client could not be dealt with, and the entry failed for it. */
  ghost predicate FailedRemotely(states: seq<State>, actions: seq<Action>, i: nat)
    requires |actions| < |states|
  {
    && i in states[|actions|].verdict && states[|actions|].verdict[i] == HasFailed
    && Heard(states, actions, |actions|, i) in {Some(Failed(RemoteLockFailed)), Some(Failed(RemoteLockUnsupported))}
  }

  /**
   What the exit code says about a finished run: an interruption is always reported; trouble with remote locks only if
   some entry failed for it, and always then, unless the run was interrupted, closing such locks was not asked for, or
   the log was too full to hold the failure; and missing privileges only if repairs of permissions were attempted and
   not one was applied.
   */
  lemma ExitCodeTells(
    c: Config, states: seq<State>, actions: seq<Action>, killLocks: bool, aclRepair: bool, remoteLocks: bool)
    requires ValidConfig(c) && IsRun(c, states, actions) && Terminated(states[|actions|])
    ensures var n, s := |actions|, states[|actions|];
            var code := SummaryOf(c, s, killLocks, aclRepair, remoteLocks).ExitCode();
            && (code == Interrupted <==> s.ctl.cancelled)
            && (code == RemoteLockHandlingFailed ==>
                  remoteLocks && exists i: nat :: FailedRemotely(states, actions, i))
            && ((exists i: nat :: FailedRemotely(states, actions, i)) ==>
                  remoteLocks && !s.ctl.cancelled && !s.books.log.truncated ==> code == RemoteLockHandlingFailed)
            && (code == PrivilegeRequirementNotSatisfied ==>
                  aclRepair && Happened(c.options, states, actions, Attempted, n) > 0
                  && Happened(c.options, states, actions, Applied, n) == 0)
  {
    hide Heard, Core, Summary.ExitCode;
    var n, s := |actions|, states[|actions|];
    var summary := SummaryOf(c, s, killLocks, aclRepair, remoteLocks);
    summary.ExitCodeSays();
    RepairsAreCounted(c, states, actions, n);
    RunLog(c, states, actions, n);
    if summary.RemoteTrouble() {
      var k :| 0 <= k < |summary.failures|
               && summary.failures[k] in {RemoteLockFailed, RemoteLockUnsupported};
      assert summary.failures[k] in s.books.log.stored;
      assert Explained(c, states, actions, n, summary.failures[k]);
      var i: nat :| i in s.verdict && s.verdict[i] == HasFailed
                    && Heard(states, actions, n, i) == Some(Failed(summary.failures[k]));
      assert FailedRemotely(states, actions, i);
    }
    if i: nat :| FailedRemotely(states, actions, i) && !s.books.log.truncated {
      NobodyLogs(c, s, i);
      assert Logged(states, actions, n, i);
      var category := Heard(states, actions, n, i).value.category;
      var k :| 0 <= k < |s.books.log.stored| && s.books.log.stored[k] == category;
      assert summary.failures[k] in {RemoteLockFailed, RemoteLockUnsupported};
    }
  }

  lemma NobodyLogs(c: Config, s: State, i: nat)
    requires Terminated(s)
    ensures PlaceOf(s, i).With? ==> !PlaceOf(s, i).pc.LogLeaf? && !PlaceOf(s, i).pc.LogDir?
  {
  }
}
