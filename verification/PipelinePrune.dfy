/**
 What an undisturbed run does: whatever the schedule, it prunes. Leaves the filters retain stay, a directory stays if
 something in it stays, the target stays if the filters could have retained anything, and everything else goes. A dry
 run of the same stream ends with the same counters.
 */
module PipelinePrune {
  import opened Wrappers
  import opened DirectoryTracking
  import opened Attempts
  import opened Report
  import opened Pipeline
  import opened PipelineInvariant
  import opened PipelineSteps
  import opened PipelineReach
  import opened PipelineLife
  import opened PipelineSafety
  import opened PipelineLedger
  import opened PipelineProgress
  import opened PipelineEnd
  import opened PipelineConservation

  // ---------------------------------------------------------------------------------------------------------------
  // The reference: what a recursive prune keeps
  // ---------------------------------------------------------------------------------------------------------------

  /** Entry i survives: a retained leaf, a directory with a surviving child, or a preserved target. */
  ghost predicate Kept(c: Config, i: nat)
    decreases |c.evs| - i
  {
    if IsLeaf(c.evs, i) then i in c.retain
    else
      && IsDir(c.evs, i)
      && ((i == 0 && c.preserveRoot) || exists j: nat :: i < j < |c.evs| && ChildOf(c.evs, j, i) && Kept(c, j))
  }

  ghost predicate KeepsChild(c: Config, d: nat) {
    exists j: nat :: ChildOf(c.evs, j, d) && Kept(c, j)
  }

  ghost function Expected(c: Config, i: nat): Verdict {
    if Kept(c, i) then WasRetained else WasDeleted
  }

  /** The target is preserved whenever the filters are able to retain something. */
  ghost predicate FiltersAgree(c: Config) {
    !c.preserveRoot ==> c.retain == {}
  }

  lemma {:induction false} NothingKept(c: Config, i: nat)
    requires c.retain == {} && !c.preserveRoot
    ensures !Kept(c, i)
    decreases |c.evs| - i
  {
    forall j: nat | i < j < |c.evs| ensures !Kept(c, j) {
      NothingKept(c, j);
    }
  }

  lemma KeptDir(c: Config, d: nat)
    requires WellFormed(c.evs) && IsDir(c.evs, d) && !(d == 0 && c.preserveRoot)
    ensures Kept(c, d) <==> KeepsChild(c, d)
  {
  }

  // ---------------------------------------------------------------------------------------------------------------
  // An undisturbed run
  // ---------------------------------------------------------------------------------------------------------------

  ghost predicate HasChildOn(c: Config, present: set<nat>, d: nat) {
    exists j: nat :: ChildOf(c.evs, j, d) && j in present
  }

  /** The engine deletes every leaf it is given, and every directory that is empty, and only those. */
  ghost predicate Faithful(c: Config, present: set<nat>, w: Doing) {
    match w.pc
    case Deleting(_, st) => st.Finished? || (w.answer.DeleteAnswer? && !w.answer.outcome.Failed?)
    case DirDeleting(r, st) =>
      st.Finished?
      || (w.answer.DeleteAnswer?
          && if HasChildOn(c, present, r.dir) then w.answer.outcome == Failed(NotEmpty) else !w.answer.outcome.Failed?)
    case _ => true
  }

  ghost predicate FaithfulAt(c: Config, states: seq<State>, actions: seq<Action>, k: nat) {
    && k < |actions| && k < |states|
    && !actions[k].Cancel? && Faithful(c, states[k].disk.present, DoingOf(states[k], actions[k]))
  }

  /** Nobody interrupts the run and no engine call fails unexpectedly. */
  ghost predicate Undisturbed(c: Config, states: seq<State>, actions: seq<Action>) {
    && IsRun(c, states, actions)
    && forall k: nat :: k < |actions| ==> FaithfulAt(c, states, actions, k)
  }

  // ---------------------------------------------------------------------------------------------------------------
  // The simulation of emptiness
  // ---------------------------------------------------------------------------------------------------------------

  function ReadyOf(pc: Pc): Option<Ready> {
    match pc
    case Sending(r) => Some(r)
    case DirGot(r) => Some(r)
    case DirDeleting(r, _) => Some(r)
    case LogDir(r, _) => Some(r)
    case Forgetting(r, _) => Some(r)
    case _ => None
  }

  /** The simulated answer is right. */
  ghost predicate Honest(c: Config, r: Ready) {
    r.simulatedNonEmpty <==> KeepsChild(c, r.dir)
  }

  ghost predicate AllHonest(c: Config, s: State) {
    && (forall t: nat :: t < |s.threads| && ReadyOf(s.threads[t]).Some? ==> Honest(c, ReadyOf(s.threads[t]).value))
    && (forall k: nat :: k < |s.readyQ| ==> Honest(c, s.readyQ[k]))
  }

  /** A step that passes ready directories along and makes none. No thread raises the cancellation flag. */
  ghost predicate PassesReady(s: State, s': State, t: nat) {
    && t < |s.threads| == |s'.threads|
    && s'.ctl.cancelled == s.ctl.cancelled
    && s'.threads == s.threads[t := s'.threads[t]]
    && (|| ReadyOf(s'.threads[t]).None?
        || ReadyOf(s'.threads[t]) == ReadyOf(s.threads[t])
        || (|s.readyQ| > 0 && ReadyOf(s'.threads[t]) == Some(s.readyQ[0])))
    && (|| s'.readyQ == s.readyQ
        || (|s.readyQ| > 0 && s'.readyQ == s.readyQ[1..])
        || (ReadyOf(s.threads[t]).Some? && s'.readyQ == s.readyQ + [ReadyOf(s.threads[t]).value]))
  }

  lemma PassesReadyHonest(c: Config, s: State, s': State, t: nat)
    requires AllHonest(c, s) && PassesReady(s, s', t)
    ensures AllHonest(c, s')
  {
  }

  lemma RegistrationPasses(c: Config, s: State, a: Answer)
    requires Sane(c, s) && CanRun(c, s, 0, a)
    requires s.threads[0].Idle? || s.threads[0].NewDir? || s.threads[0].NewDirPending? || s.threads[0].NewLeaf?
             || s.threads[0].MarkDir?
    ensures PassesReady(s, Step(c, s, 0, a), 0)
  {
  }

  lemma CoordinatorPasses(c: Config, s: State, a: Answer)
    requires Sane(c, s) && ThreadFits(c, s, 0) && CanRun(c, s, 0, a)
    requires s.threads[0].LeafCheck? || s.threads[0].LeafSend? || s.threads[0].LogListing? || s.threads[0].AwaitRoot?
             || s.threads[0].StopWorkers? || s.threads[0].Completing? || s.threads[0].Sending?
    ensures PassesReady(s, Step(c, s, 0, a), 0)
  {
  }

  lemma FileWorkerPasses(c: Config, s: State, t: nat, a: Answer)
    requires Sane(c, s) && ThreadFits(c, s, t) && CanRun(c, s, t, a) && !s.threads[t].Finalising?
    requires RoleOf(c, t).FileWorker?
    ensures PassesReady(s, Step(c, s, t, a), t)
  {
  }

  lemma RemovalPasses(c: Config, s: State, t: nat, a: Answer)
    requires Sane(c, s) && CanRun(c, s, t, a)
    requires s.threads[t].DirGot? || s.threads[t].DirDeleting? || s.threads[t].LogDir? || s.threads[t].Forgetting?
    ensures PassesReady(s, Step(c, s, t, a), t)
  {
  }

  lemma DirWorkerPasses(c: Config, s: State, t: nat, a: Answer)
    requires Sane(c, s) && CanRun(c, s, t, a) && RoleOf(c, t).DirWorker?
    requires s.threads[t].Idle? || s.threads[t].RootDone? || s.threads[t].Completing? || s.threads[t].Sending?
    ensures PassesReady(s, Step(c, s, t, a), t)
  {
  }

  // ---------------------------------------------------------------------------------------------------------------
  // Entries of an undisturbed run
  // ---------------------------------------------------------------------------------------------------------------

  /** How far an entry has come, and what has become of it, when nothing goes wrong. */
  ghost predicate Right(c: Config, i: nat, l: Life) {
    && (l.verdict.Some? ==> l.verdict == Some(Expected(c, i)))
    && match l.place
       case Unseen => l.present
       case Waiting => l.present
       case InReadyQueue => l.present
       case InFileQueue => !c.dryRun && !Kept(c, i) && l.present
       case Done => l.present == (c.dryRun || Kept(c, i))
       case With(pc) =>
         match pc
         case LeafSend(_) => !c.dryRun && !Kept(c, i) && l.present
         case Got(_) => !c.dryRun && !Kept(c, i) && l.present
         case Deleting(_, st) =>
           !c.dryRun && !Kept(c, i)
           && if st.Finished? then !st.outcome.Failed? && !l.present else st.First? && l.present
         case Counting(_, outcome) => !c.dryRun && !Kept(c, i) && !outcome.Failed? && !l.present
         case LogLeaf(_, _) => false
         case LogDir(_, _) => false
         case DirDeleting(_, st) =>
           !c.dryRun
           && if !st.Finished? then st.First? && l.present
              else if KeepsChild(c, i) then st.outcome == Failed(NotEmpty) && l.present
              else !st.outcome.Failed? && !l.present
         case Completing(_, _) => l.present == (c.dryRun || Kept(c, i))
         case Forgetting(_, _) => l.present == (c.dryRun || Kept(c, i))
         case RootDone(_) => l.present == (c.dryRun || Kept(c, i))
         case _ => l.present
  }

  predicate DirPc(pc: Pc) {
    !(pc.NewLeaf? || pc.LeafCheck? || pc.LeafSend? || pc.Got? || pc.Deleting? || pc.Counting? || pc.LogLeaf?)
  }

  /** What the invariant says about the thread that takes a step. */
  ghost predicate Knows(c: Config, pc: Pc) {
    match pc
    case DirGot(r) => IsDir(c.evs, r.dir) && (r.parent.None? <==> r.dir == 0) && Honest(c, r)
    case DirDeleting(r, _) => IsDir(c.evs, r.dir) && !(r.dir == 0 && c.preserveRoot) && Honest(c, r)
    case _ => true
  }

  /** The engine's answer, as far as it depends on what is left on disk. */
  ghost predicate AnswersRight(c: Config, w: Doing) {
    match w.pc
    case Deleting(_, st) => st.Finished? || (w.answer.DeleteAnswer? && !w.answer.outcome.Failed?)
    case DirDeleting(r, st) =>
      st.Finished?
      || (w.answer.DeleteAnswer?
          && if KeepsChild(c, r.dir) then w.answer.outcome == Failed(NotEmpty) else !w.answer.outcome.Failed?)
    case _ => true
  }

  lemma RightNextLeaf(c: Config, i: nat, w: Doing, l: Life, l': Life)
    requires ValidConfig(c) && IsLeaf(c.evs, i)
    requires NextLife(c, i, false, w, l, l') && Right(c, i, l) && AnswersRight(c, w) && Suits(c, i, l)
    ensures Right(c, i, l')
  {
  }

  lemma RightNextDir(c: Config, i: nat, w: Doing, l: Life, l': Life)
    requires ValidConfig(c) && FiltersAgree(c) && IsDir(c.evs, i)
    requires NextLife(c, i, false, w, l, l') && Right(c, i, l) && Knows(c, w.pc) && AnswersRight(c, w)
    requires l.place.With? ==> Subject(w.pc) == Some(i) && DirPc(w.pc)
    requires !l.place.InFileQueue?
    ensures Right(c, i, l')
  {
    if !(i == 0 && c.preserveRoot) {
      KeptDir(c, i);
    }
    if !c.preserveRoot {
      NothingKept(c, i);
    }
  }

  // ---------------------------------------------------------------------------------------------------------------
  // Every state of an undisturbed run
  // ---------------------------------------------------------------------------------------------------------------

  ghost predicate Fair(c: Config, s: State) {
    && !s.ctl.cancelled
    && (forall i: nat :: IsEntry(c.evs, i) ==> Right(c, i, LifeOf(s, i)))
    && AllHonest(c, s)
  }

  lemma InitFair(c: Config, s: State)
    requires ValidConfig(c) && IsInit(c, s)
    ensures Fair(c, s)
  {
  }

  /** When a directory's turn has come, its children are resolved, and what the disk and the tracker say agrees. */
  lemma ChildrenTell(c: Config, s: State, d: nat, j: nat)
    requires Core(c, s) && Fair(c, s) && d in s.loc && IsDir(c.evs, d) && s.loc[d].Held? && ChildOf(c.evs, j, d)
    ensures j in s.loc && s.loc[j].Settled? && j in s.verdict && s.verdict[j] == Expected(c, j)
    ensures j in s.disk.present <==> c.dryRun || Kept(c, j)
  {
    ChildrenResolved(c, s, d, j);
    CoreParts(c, s, j);
    assert Right(c, j, LifeOf(s, j));
  }

  lemma DiskTells(c: Config, s: State, d: nat)
    requires Core(c, s) && Fair(c, s) && d in s.loc && IsDir(c.evs, d) && s.loc[d].Held? && !c.dryRun
    ensures HasChildOn(c, s.disk.present, d) <==> KeepsChild(c, d)
  {
    forall j: nat | ChildOf(c.evs, j, d) ensures j in s.disk.present <==> Kept(c, j) {
      ChildrenTell(c, s, d, j);
    }
  }

  /** The tracker's simulation of emptiness is right. */
  lemma TrackerTells(c: Config, s: State, t: nat, d: nat)
    requires Core(c, s) && Fair(c, s) && t < |s.threads| && s.threads[t] == Finalising(d)
    ensures d in s.tracker && (s.tracker[d].stillPresent > 0 <==> KeepsChild(c, d))
  {
    CoreParts(c, s, d);
    assert ThreadFits(c, s, t);
    forall j: nat | ChildOf(c.evs, j, d)
      ensures j in Left(c.evs, s.loc, s.verdict, d) <==> Kept(c, j)
    {
      ChildrenTell(c, s, d, j);
    }
    if j: nat :| ChildOf(c.evs, j, d) && Kept(c, j) {
      assert j in Left(c.evs, s.loc, s.verdict, d);
    }
    if s.tracker[d].stillPresent > 0 {
      var j :| j in Left(c.evs, s.loc, s.verdict, d);
    }
  }

  lemma FinaliseHonest(c: Config, s: State, t: nat, d: nat)
    requires Core(c, s) && Fair(c, s) && t < |s.threads| && s.threads[t] == Finalising(d)
    ensures AllHonest(c, StepFinalise(s, t, d)) && StepFinalise(s, t, d).ctl == s.ctl
  {
    TrackerTells(c, s, t, d);
  }

  lemma StepPasses(c: Config, s: State, t: nat, a: Answer)
    requires Sane(c, s) && ThreadFits(c, s, t) && CanRun(c, s, t, a) && !s.threads[t].Finalising?
    ensures PassesReady(s, Step(c, s, t, a), t)
  {
    match RoleOf(c, t)
    case FileWorker => FileWorkerPasses(c, s, t, a);
    case DirWorker =>
      if s.threads[t].Idle? || s.threads[t].RootDone? || s.threads[t].Completing? || s.threads[t].Sending? {
        DirWorkerPasses(c, s, t, a);
      } else {
        RemovalPasses(c, s, t, a);
      }
    case Coordinator =>
      if s.threads[0].Idle? || s.threads[0].NewDir? || s.threads[0].NewDirPending? || s.threads[0].NewLeaf?
         || s.threads[0].MarkDir? {
        RegistrationPasses(c, s, a);
      } else {
        CoordinatorPasses(c, s, a);
      }
  }

  lemma StepHonest(c: Config, s: State, t: nat, a: Answer)
    requires Core(c, s) && Fair(c, s) && CanRun(c, s, t, a)
    ensures AllHonest(c, Step(c, s, t, a)) && !Step(c, s, t, a).ctl.cancelled
  {
    CoreParts(c, s, 0);
    assert ThreadFits(c, s, t);
    if s.threads[t].Finalising? {
      FinaliseHonest(c, s, t, s.threads[t].d);
    } else {
      StepPasses(c, s, t, a);
      PassesReadyHonest(c, s, Step(c, s, t, a), t);
    }
  }

  lemma ThreadKnows(c: Config, s: State, t: nat)
    requires Core(c, s) && Fair(c, s) && t < |s.threads|
    ensures Knows(c, s.threads[t])
  {
    CoreParts(c, s, 0);
    assert ThreadFits(c, s, t);
    if s.threads[t].DirDeleting? || s.threads[t].DirGot? {
      CoreParts(c, s, s.threads[t].r.dir);
      assert ReadyOf(s.threads[t]).Some?;
    }
  }

  /** An engine that looks at the disk answers as the reference expects. */
  lemma EngineRight(c: Config, s: State, w: Doing, t: nat)
    requires Core(c, s) && Fair(c, s) && t < |s.threads| && w.pc == s.threads[t]
    requires Faithful(c, s.disk.present, w)
    ensures AnswersRight(c, w)
  {
    if w.pc.DirDeleting? && !w.pc.stage.Finished? {
      CoreParts(c, s, w.pc.r.dir);
      assert ThreadFits(c, s, t);
      assert Right(c, w.pc.r.dir, LifeOf(s, w.pc.r.dir));
      DiskTells(c, s, w.pc.r.dir);
    }
  }

  lemma HolderSubject(c: Config, s: State, i: nat)
    requires Core(c, s) && IsDir(c.evs, i)
    ensures PlaceOf(s, i).With? ==> Subject(PlaceOf(s, i).pc) == Some(i) && DirPc(PlaceOf(s, i).pc)
    ensures !PlaceOf(s, i).InFileQueue?
  {
    CoreParts(c, s, i);
    assert ThreadFits(c, s, 0);
    if i in s.loc && s.loc[i].Held? {
      assert ThreadFits(c, s, s.loc[i].owner);
    }
  }

  lemma StepRight(c: Config, s: State, t: nat, a: Answer, i: nat)
    requires Core(c, s) && Fair(c, s) && FiltersAgree(c) && CanRun(c, s, t, a) && IsEntry(c.evs, i)
    requires Faithful(c, s.disk.present, Doing(s.threads[t], a))
    ensures Right(c, i, LifeOf(Step(c, s, t, a), i))
  {
    var w := Doing(s.threads[t], a);
    CoreParts(c, s, i);
    ThreadKnows(c, s, t);
    EngineRight(c, s, w, t);
    StepLife(c, s, t, a, i);
    PlaceSuits(c, s, i);
    if LifeOf(Step(c, s, t, a), i) != LifeOf(s, i) {
      if IsLeaf(c.evs, i) {
        RightNextLeaf(c, i, w, LifeOf(s, i), LifeOf(Step(c, s, t, a), i));
      } else {
        HolderSubject(c, s, i);
        RightNextDir(c, i, w, LifeOf(s, i), LifeOf(Step(c, s, t, a), i));
      }
    }
  }

  lemma TakesFair(c: Config, s: State, a: Action, s': State)
    requires Core(c, s) && Fair(c, s) && FiltersAgree(c) && Takes(c, s, a, s')
    requires !a.Cancel? && Faithful(c, s.disk.present, DoingOf(s, a))
    ensures Fair(c, s')
  {
    if a.Run? {
      StepHonest(c, s, a.t, a.answer);
      forall i: nat | IsEntry(c.evs, i) ensures Right(c, i, LifeOf(s', i)) {
        StepRight(c, s, a.t, a.answer, i);
      }
    } else {
      forall i: nat | IsEntry(c.evs, i) ensures Right(c, i, LifeOf(s', i)) {
        assert LifeOf(s', i) == LifeOf(s, i);
      }
    }
  }

  lemma {:induction false} RunFair(c: Config, states: seq<State>, actions: seq<Action>, k: nat)
    requires ValidConfig(c) && FiltersAgree(c) && Undisturbed(c, states, actions) && k < |states|
    ensures Fair(c, states[k])
  {
    if k == 0 {
      InitFair(c, states[0]);
    } else {
      RunFair(c, states, actions, k - 1);
      RunCore(c, states, actions, k - 1);
      assert TakesAt(c, states, actions, k - 1) && FaithfulAt(c, states, actions, k - 1);
      TakesFair(c, states[k - 1], actions[k - 1], states[k]);
    }
  }

  // ---------------------------------------------------------------------------------------------------------------
  // Main results
  // ---------------------------------------------------------------------------------------------------------------

  /** The end of an undisturbed run, entry by entry. */
  lemma EndOfEntry(c: Config, states: seq<State>, actions: seq<Action>, i: nat)
    requires ValidConfig(c) && FiltersAgree(c) && Undisturbed(c, states, actions) && Terminated(states[|actions|])
    ensures var s := states[|actions|];
            && (IsEntry(c.evs, i) ==> (i in s.disk.present <==> c.dryRun || Kept(c, i)))
            && (i in s.verdict <==> IsEntry(c.evs, i) && !(i == 0 && c.preserveRoot))
            && (i in s.verdict ==> s.verdict[i] == Expected(c, i))
  {
    var n := |actions|;
    RunFair(c, states, actions, n);
    RunCore(c, states, actions, n);
    RunControlled(c, states, actions, n);
    TerminatedIsComplete(c, states[n]);
    CoreParts(c, states[n], i);
    if IsEntry(c.evs, i) {
      assert Right(c, i, LifeOf(states[n], i));
    }
  }

  lemma NothingComesBack(c: Config, s: State, s': State, w: Doing, i: nat)
    requires Lives(c, s, s', w, i) && i in s'.disk.present
    ensures i in s.disk.present
  {
    assert LifeOf(s', i).present;
    assert LifeOf(s, i).present;
  }

  lemma {:induction false} PresentAreEntries(c: Config, states: seq<State>, actions: seq<Action>, k: nat)
    requires ValidConfig(c) && IsRun(c, states, actions) && k < |states|
    ensures states[k].disk.present <= Entries(c.evs)
  {
    hide Core, Lives;
    if k > 0 {
      PresentAreEntries(c, states, actions, k - 1);
      forall i: nat | i in states[k].disk.present ensures i in states[k - 1].disk.present {
        RunLife(c, states, actions, k - 1, i);
        NothingComesBack(c, states[k - 1], states[k], DoingOf(states[k - 1], actions[k - 1]), i);
      }
    }
  }

  /**
   Whatever the schedule, a real run that nothing disturbs leaves exactly what a recursive prune leaves: the retained
   leaves, the directories above them, and the target if it is preserved.
   */
  lemma RunsPrune(c: Config, states: seq<State>, actions: seq<Action>)
    requires ValidConfig(c) && FiltersAgree(c) && Undisturbed(c, states, actions) && Terminated(states[|actions|])
    requires !c.dryRun
    ensures states[|actions|].disk.present == set i | i in Entries(c.evs) && Kept(c, i)
  {
    PresentAreEntries(c, states, actions, |actions|);
    forall i: nat ensures IsEntry(c.evs, i) ==> (i in states[|actions|].disk.present <==> Kept(c, i)) {
      EndOfEntry(c, states, actions, i);
    }
  }

  /** The two configurations differ only in what a user may vary between a rehearsal and the real thing. */
  ghost predicate SameJob(c: Config, d: Config) {
    c.evs == d.evs && c.retain == d.retain && c.preserveRoot == d.preserveRoot
  }

  lemma SameVerdict(
    c: Config, d: Config, xs: seq<State>, xa: seq<Action>, ys: seq<State>, ya: seq<Action>, i: nat)
    requires ValidConfig(c) && FiltersAgree(c) && Undisturbed(c, xs, xa) && Terminated(xs[|xa|])
    requires ValidConfig(d) && FiltersAgree(d) && Undisturbed(d, ys, ya) && Terminated(ys[|ya|])
    requires SameJob(c, d)
    ensures i in xs[|xa|].verdict <==> i in ys[|ya|].verdict
    ensures i in xs[|xa|].verdict ==> xs[|xa|].verdict[i] == ys[|ya|].verdict[i]
  {
    EndOfEntry(c, xs, xa, i);
    EndOfEntry(d, ys, ya, i);
    SameKept(c, d, i);
  }

  lemma {:induction false} SameKept(c: Config, d: Config, i: nat)
    requires SameJob(c, d)
    ensures Kept(c, i) <==> Kept(d, i)
    decreases |c.evs| - i
  {
    forall j: nat | i < j < |c.evs| ensures Kept(c, j) <==> Kept(d, j) {
      SameKept(c, d, j);
    }
  }

  /**
   A dry run and a real run of the same job end with the same counters, whatever their schedules, their numbers of
   workers and their queue sizes: every counter, bytes and failures included.
   */
  lemma RehearsalIsRight(c: Config, d: Config, xs: seq<State>, xa: seq<Action>, ys: seq<State>, ya: seq<Action>)
    requires ValidConfig(c) && FiltersAgree(c) && Undisturbed(c, xs, xa) && Terminated(xs[|xa|])
    requires ValidConfig(d) && FiltersAgree(d) && Undisturbed(d, ys, ya) && Terminated(ys[|ya|])
    requires SameJob(c, d)
    ensures xs[|xa|].books.metrics == ys[|ya|].books.metrics
  {
    var x, y := xs[|xa|], ys[|ya|];
    forall i: nat ensures (i in x.verdict <==> i in y.verdict) && (i in x.verdict ==> x.verdict[i] == y.verdict[i]) {
      SameVerdict(c, d, xs, xa, ys, ya, i);
    }
    assert x.verdict == y.verdict;
    EndOfBooks(c, xs, xa);
    EndOfBooks(d, ys, ya);
  }

  lemma EndOfBooks(c: Config, states: seq<State>, actions: seq<Action>)
    requires ValidConfig(c) && IsRun(c, states, actions) && Terminated(states[|actions|])
    ensures var s := states[|actions|];
            && Tallied(c, s.verdict, s.books.metrics, |c.evs|)
            && s.books.metrics.dirsScanned == CountEvents(c.evs, AnyDir, |c.evs|)
            && s.books.metrics.filesScanned == CountEvents(c.evs, AnyLeaf, |c.evs|)
  {
    var n := |actions|;
    RunCore(c, states, actions, n);
    RunControlled(c, states, actions, n);
    RunLedger(c, states, actions, n);
    CoreParts(c, states[n], 0);
    TerminatedIsComplete(c, states[n]);
  }

  /** The simulated answer is what the disk says when a real run is about to remove a directory. */
  lemma SimulationIsRight(c: Config, states: seq<State>, actions: seq<Action>, k: nat, t: nat)
    requires ValidConfig(c) && FiltersAgree(c) && Undisturbed(c, states, actions) && k < |states| && !c.dryRun
    requires t < |states[k].threads| && states[k].threads[t].DirGot?
    ensures var r := states[k].threads[t].r;
            r.simulatedNonEmpty <==> HasChildOn(c, states[k].disk.present, r.dir)
  {
    var s := states[k];
    RunFair(c, states, actions, k);
    RunCore(c, states, actions, k);
    CoreParts(c, s, s.threads[t].r.dir);
    assert ThreadFits(c, s, t);
    assert ReadyOf(s.threads[t]).Some?;
    DiskTells(c, s, s.threads[t].r.dir);
  }
}
