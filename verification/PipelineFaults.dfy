/**
 What every run says about the entries, faulty and cancelled runs included: how an entry is counted follows from what
 the engine answered, and agrees with what is left on disk.
 */
module PipelineFaults {
  import opened Wrappers
  import opened DirectoryTracking
  import opened Attempts
  import opened Report
  import opened Pipeline
  import opened PipelineInvariant
  import opened PipelineSteps
  import opened PipelineReach
  import opened PipelineLife
  import opened PipelineSafety
  import opened PipelinePrune

  // ---------------------------------------------------------------------------------------------------------------
  // What the engine has reported
  // ---------------------------------------------------------------------------------------------------------------

  /** The report after one more answer: a delete call's outcome, or a remote lock that could not be closed. */
  function ReportAfter(st: Stage, a: Answer, h: Option<Outcome>): Option<Outcome> {
    if st.Finished? || !Answers(st, a) then h
    else
      match a
      case DeleteAnswer(outcome) => Some(outcome)
      case LockAnswer(lock) =>
        if !st.RemoteLock? || lock.Resolved? then h
        else Some(Failed(if lock.Unsupported? then RemoteLockUnsupported else RemoteLockFailed))
      case _ => h
  }

  function HeardAfter(w: Doing, i: nat, h: Option<Outcome>): Option<Outcome> {
    match w.pc
    case Deleting(j, st) => if j == i then ReportAfter(st, w.answer, h) else h
    case DirDeleting(r, st) => if r.dir == i then ReportAfter(st, w.answer, h) else h
    case _ => h
  }

  /** What the engine has last reported about entry i in the first k steps of a run, if it was asked to delete it. */
  function Heard(states: seq<State>, actions: seq<Action>, k: nat, i: nat): Option<Outcome>
    requires k <= |actions| < |states|
  {
    if k == 0 then None
    else HeardAfter(DoingOf(states[k - 1], actions[k - 1]), i, Heard(states, actions, k - 1, i))
  }

  /** A stage goes with what was reported. */
  predicate StageFits(st: Stage, h: Option<Outcome>) {
    match st
    case First => h.None?
    case Remediating(category) => h == Some(Failed(category))
    case AfterRemediation => h.Some? && h.value.Failed?
    case Finished(outcome) => h == Some(outcome)
    case _ => h == Some(Failed(SharingViolation))
  }

  lemma AdvanceFits(o: DeleteOptions, leaf: bool, st: Stage, n: Tally, a: Answer, h: Option<Outcome>)
    requires Answers(st, a) && StageFits(st, h)
    ensures StageFits(Advance(o, leaf, st, n, a).0, ReportAfter(st, a, h))
    ensures h.Some? <==> !st.First?
    ensures ReportAfter(st, a, h).Some?
  {
  }

  // ---------------------------------------------------------------------------------------------------------------
  // One entry
  // ---------------------------------------------------------------------------------------------------------------

  /** The entry is still on disk unless the engine has deleted it. */
  predicate Attempted(st: Stage, l: Life, h: Option<Outcome>) {
    && StageFits(st, h)
    && l.present == !(st.Finished? && !st.outcome.Failed?)
  }

  /** An entry that is not counted yet. */
  predicate SoundBefore(c: Config, l: Life, h: Option<Outcome>) {
    match l.place
    case Done => h.None? && l.present
    case With(pc) =>
      (match pc
       case Deleting(_, st) => !c.dryRun && Attempted(st, l, h)
       case DirDeleting(_, st) => !c.dryRun && Attempted(st, l, h)
       case Counting(_, outcome) => !c.dryRun && h == Some(outcome) && l.present == outcome.Failed?
       case _ => h.None? && l.present)
    case _ => h.None? && l.present
  }

  /** An entry that is counted goes on to be logged if it failed, to be forgotten, and to be resolved. */
  predicate CountedGoesOn(l: Life, h: Option<Outcome>) {
    match l.place
    case Done => true
    case With(pc) =>
      (match pc
       case LogLeaf(_, category) => h == Some(Failed(category))
       case LogDir(_, category) => h == Some(Failed(category))
       case Forgetting(_, _) => true
       case RootDone(_) => true
       case Completing(_, _) => true
       case _ => false)
    case _ => false
  }

  /** How an entry was counted, in view of what was reported about it. */
  predicate CountedRightly(c: Config, i: nat, cancelled: bool, v: Verdict, present: bool, h: Option<Outcome>) {
    && (present <==> c.dryRun || v != WasDeleted)
    && (h.Some? ==>
          && !c.dryRun && (v == WasDeleted <==> !h.value.Failed?)
          && (v == WasRetained ==> IsDir(c.evs, i) && h == Some(Failed(NotEmpty)) && (c.preserveRoot || cancelled)))
    && (h.None? ==>
          && v != HasFailed && (v == WasDeleted ==> c.dryRun) && (IsDir(c.evs, i) ==> c.dryRun)
          && (IsLeaf(c.evs, i) && v == WasDeleted ==> i !in c.retain)
          && (IsLeaf(c.evs, i) && v == WasRetained ==> i in c.retain || cancelled))
  }

  predicate Sound(c: Config, i: nat, cancelled: bool, l: Life, h: Option<Outcome>) {
    && (l.handed <==> h.Some?)
    && (l.verdict.None? ==> SoundBefore(c, l, h))
    && (l.verdict.Some? ==> CountedGoesOn(l, h) && CountedRightly(c, i, cancelled, l.verdict.value, l.present, h))
  }

  /** The thread is at work on the entry. */
  predicate WorksOn(pc: Pc, i: nat) {
    (pc.Deleting? && pc.i == i) || (pc.DirDeleting? && pc.r.dir == i)
  }

  predicate StillCalls(pc: Pc) {
    (pc.Deleting? && !pc.stage.Finished?) || (pc.DirDeleting? && !pc.stage.Finished?)
  }

  /** One engine call on an entry. */
  lemma CallSound(c: Config, i: nat, leaf: bool, st: Stage, a: Answer, l: Life, l': Life, h: Option<Outcome>)
    requires EngineCall(st, a, l, l') && !st.Finished? && Attempted(st, l, h) && (l.handed <==> h.Some?)
    ensures var st' := Advance(c.options, leaf, st, Tally(0, 0, 0, 0, 0), a).0;
            Attempted(st', l', ReportAfter(st, a, h)) && (l'.handed <==> ReportAfter(st, a, h).Some?)
  {
    AdvanceFits(c.options, leaf, st, Tally(0, 0, 0, 0, 0), a, h);
    AdvanceStops(c.options, leaf, st, Tally(0, 0, 0, 0, 0), a);
  }

  lemma CallsSound(c: Config, i: nat, cancelled: bool, w: Doing, l: Life, l': Life, h: Option<Outcome>)
    requires NextLife(c, i, cancelled, w, l, l') && Sound(c, i, cancelled, l, h)
    requires l.place.With? && StillCalls(l.place.pc) && WorksOn(w.pc, i)
    ensures Sound(c, i, cancelled, l', HeardAfter(w, i, h))
  {
    var st := w.pc.stage;
    hide Advance;
    if w.pc.Deleting? {
      CallSound(c, i, true, st, w.answer, l, l', h);
    } else {
      CallSound(c, i, false, st, w.answer, l, l', h);
    }
  }

  lemma LeafSound(c: Config, i: nat, cancelled: bool, w: Doing, l: Life, l': Life, h: Option<Outcome>)
    requires IsLeaf(c.evs, i) && Suits(c, i, l) && Clean(c, i, l)
    requires NextLife(c, i, cancelled, w, l, l') && Sound(c, i, cancelled, l, h)
    requires l.place.With? ==> !StillCalls(l.place.pc)
    ensures Sound(c, i, cancelled, l', h)
  {
    hide Advance;
  }

  lemma DirSound(c: Config, i: nat, cancelled: bool, w: Doing, l: Life, l': Life, h: Option<Outcome>)
    requires IsDir(c.evs, i) && (l.place.With? ==> DirPc(l.place.pc)) && !l.place.InFileQueue?
    requires NextLife(c, i, cancelled, w, l, l') && Sound(c, i, cancelled, l, h)
    requires l.place.With? ==> !StillCalls(l.place.pc)
    ensures Sound(c, i, cancelled, l', h)
  {
    hide Advance;
  }

  /** The thread that works on an entry has it, and an engine call takes it to another stage. */
  lemma WorkMoves(c: Config, s: State, t: nat, a: Answer, i: nat)
    requires Core(c, s) && CanRun(c, s, t, a) && WorksOn(s.threads[t], i)
    ensures PlaceOf(s, i) == With(s.threads[t])
    ensures StillCalls(s.threads[t]) ==> LifeOf(Step(c, s, t, a), i) != LifeOf(s, i)
  {
    CoreParts(c, s, i);
    assert ThreadFits(c, s, t);
    if StillCalls(s.threads[t]) {
      AdvanceProgress(c.options, s.threads[t].Deleting?, s.threads[t].stage, s.books.tally, a);
    }
  }

  lemma NobodyCalls(w: Doing, i: nat, h: Option<Outcome>)
    requires WorksOn(w.pc, i) ==> !StillCalls(w.pc)
    ensures HeardAfter(w, i, h) == h
  {
  }

  lemma SoundNext(c: Config, s: State, s': State, w: Doing, i: nat, h: Option<Outcome>)
    requires Core(c, s) && IsEntry(c.evs, i) && Lives(c, s, s', w, i)
    requires WorksOn(w.pc, i) ==> PlaceOf(s, i) == With(w.pc)
    requires WorksOn(w.pc, i) && StillCalls(w.pc) ==> LifeOf(s', i) != LifeOf(s, i)
    requires Clean(c, i, LifeOf(s, i)) && Sound(c, i, s.ctl.cancelled, LifeOf(s, i), h)
    ensures Sound(c, i, s'.ctl.cancelled, LifeOf(s', i), HeardAfter(w, i, h))
  {
    hide NextLife, Core, Clean, HeardAfter, Sound;
    var l, l', cancelled := LifeOf(s, i), LifeOf(s', i), s.ctl.cancelled;
    PlaceSuits(c, s, i);
    if l' == l {
      NobodyCalls(w, i, h);
    } else if WorksOn(w.pc, i) && StillCalls(w.pc) {
      CallsSound(c, i, cancelled, w, l, l', h);
    } else {
      NobodyCalls(w, i, h);
      WhoCalls(c, s, i, cancelled, w, l, l');
      if IsLeaf(c.evs, i) {
        LeafSound(c, i, cancelled, w, l, l', h);
      } else {
        HolderSubject(c, s, i);
        DirSound(c, i, cancelled, w, l, l', h);
      }
    }
    SoundLater(c, i, cancelled, s'.ctl.cancelled, l', HeardAfter(w, i, h));
  }

  /** An engine call for an entry is made by the thread that has it. */
  lemma WhoCalls(c: Config, s: State, i: nat, cancelled: bool, w: Doing, l: Life, l': Life)
    requires Core(c, s) && l == LifeOf(s, i) && NextLife(c, i, cancelled, w, l, l')
    requires WorksOn(w.pc, i) ==> !StillCalls(w.pc)
    ensures l.place.With? ==> !StillCalls(l.place.pc)
  {
    CoreParts(c, s, i);
    assert ThreadFits(c, s, 0);
    if i in s.loc && s.loc[i].Held? {
      assert ThreadFits(c, s, s.loc[i].owner);
    }
  }

  lemma SoundLater(c: Config, i: nat, before: bool, after: bool, l: Life, h: Option<Outcome>)
    requires Sound(c, i, before, l, h) && (before ==> after)
    ensures Sound(c, i, after, l, h)
  {
  }

  lemma TakesSound(c: Config, s: State, a: Action, s': State, i: nat, h: Option<Outcome>)
    requires Core(c, s) && IsEntry(c.evs, i) && Takes(c, s, a, s')
    requires Clean(c, i, LifeOf(s, i)) && Sound(c, i, s.ctl.cancelled, LifeOf(s, i), h)
    ensures Sound(c, i, s'.ctl.cancelled, LifeOf(s', i), HeardAfter(DoingOf(s, a), i, h))
  {
    hide Core, Clean, Sound, Lives;
    TakesLife(c, s, a, s', i);
    if a.Run? && WorksOn(s.threads[a.t], i) {
      WorkMoves(c, s, a.t, a.answer, i);
    }
    SoundNext(c, s, s', DoingOf(s, a), i, h);
  }

  lemma {:induction false} RunSound(c: Config, states: seq<State>, actions: seq<Action>, k: nat, i: nat)
    requires ValidConfig(c) && IsRun(c, states, actions) && k < |states| && IsEntry(c.evs, i)
    ensures Sound(c, i, states[k].ctl.cancelled, LifeOf(states[k], i), Heard(states, actions, k, i))
  {
    hide Core, Clean, HeardAfter;
    if k == 0 {
      SoundAtFirst(c, states[0], i);
    } else {
      RunSound(c, states, actions, k - 1, i);
      RunClean(c, states, actions, k - 1, i);
      RunCore(c, states, actions, k - 1);
      assert TakesAt(c, states, actions, k - 1);
      TakesSound(c, states[k - 1], actions[k - 1], states[k], i, Heard(states, actions, k - 1, i));
    }
  }

  lemma SoundAtFirst(c: Config, s: State, i: nat)
    requires IsInit(c, s) && IsEntry(c.evs, i)
    ensures Sound(c, i, s.ctl.cancelled, LifeOf(s, i), None)
  {
  }

  // ---------------------------------------------------------------------------------------------------------------
  // Simulated emptiness
  // ---------------------------------------------------------------------------------------------------------------

  /** Some child of the directory was not counted as deleted. */
  ghost predicate ChildRemains(c: Config, verdict: map<nat, Verdict>, d: nat) {
    exists j: nat :: ChildOf(c.evs, j, d) && Remains(verdict, j)
  }

  /** A directory whose turn has come carries the right answer. */
  ghost predicate TellsOf(c: Config, s: State, r: Ready) {
    r.simulatedNonEmpty <==> ChildRemains(c, s.verdict, r.dir)
  }

  ghost predicate AllTell(c: Config, s: State) {
    && (forall t: nat :: t < |s.threads| && ReadyOf(s.threads[t]).Some? ==> TellsOf(c, s, ReadyOf(s.threads[t]).value))
    && (forall k: nat :: k < |s.readyQ| ==> TellsOf(c, s, s.readyQ[k]))
  }

  lemma ReadyIsDir(c: Config, s: State, t: nat)
    requires Core(c, s) && t < |s.threads| && ReadyOf(s.threads[t]).Some?
    ensures var d := ReadyOf(s.threads[t]).value.dir; IsDir(c.evs, d) && d in s.loc && s.loc[d] == Held(t)
  {
    CoreParts(c, s, 0);
    assert ThreadFits(c, s, t);
  }

  /** A resolved entry keeps its verdict. */
  lemma SettledVerdict(c: Config, s: State, a: Action, s': State, j: nat)
    requires Core(c, s) && Takes(c, s, a, s') && j in s.loc && s.loc[j].Settled?
    ensures Remains(s'.verdict, j) <==> Remains(s.verdict, j)
  {
    hide Core;
    TakesLife(c, s, a, s', j);
    assert LifeOf(s', j).verdict == LifeOf(s, j).verdict;
  }

  lemma StillTells(c: Config, s: State, a: Action, s': State, r: Ready)
    requires Core(c, s) && Takes(c, s, a, s') && TellsOf(c, s, r)
    requires IsDir(c.evs, r.dir) && r.dir in s.loc && !s.loc[r.dir].Live? && !s.loc[r.dir].Announcing?
    ensures TellsOf(c, s', r)
  {
    hide Core, Takes;
    forall j: nat | ChildOf(c.evs, j, r.dir) ensures Remains(s'.verdict, j) <==> Remains(s.verdict, j) {
      ChildrenResolved(c, s, r.dir, j);
      SettledVerdict(c, s, a, s', j);
    }
  }

  /** The count of children still present is positive exactly when some child was not counted as deleted. */
  lemma CountTells(c: Config, s: State, t: nat, d: nat)
    requires Core(c, s) && t < |s.threads| && s.threads[t] == Finalising(d)
    ensures IsDir(c.evs, d) && d in s.loc && s.loc[d] == Held(t)
    ensures d in s.tracker && (s.tracker[d].stillPresent > 0 <==> ChildRemains(c, s.verdict, d))
  {
    CoreParts(c, s, d);
    assert ThreadFits(c, s, t);
    forall j: nat | ChildOf(c.evs, j, d) ensures j in Left(c.evs, s.loc, s.verdict, d) <==> Remains(s.verdict, j) {
      ChildrenResolved(c, s, d, j);
    }
    if j: nat :| ChildOf(c.evs, j, d) && Remains(s.verdict, j) {
      assert j in Left(c.evs, s.loc, s.verdict, d);
    }
    if s.tracker[d].stillPresent > 0 {
      var j :| j in Left(c.evs, s.loc, s.verdict, d);
    }
  }

  /** Where a ready directory of the next state comes from: it was ready before, or is being finalised. */
  ghost predicate WasReady(s: State, r: Ready) {
    || (exists t: nat :: t < |s.threads| && ReadyOf(s.threads[t]) == Some(r))
    || (exists k: nat :: k < |s.readyQ| && s.readyQ[k] == r)
  }

  lemma PassesOn(s: State, s': State, t: nat, r: Ready)
    requires PassesReady(s, s', t) && WasReady(s', r)
    ensures WasReady(s, r)
  {
    if u: nat :| u < |s'.threads| && ReadyOf(s'.threads[u]) == Some(r) {
      if u == t && |s.readyQ| > 0 && s.readyQ[0] == r {
        assert WasReady(s, r);
      } else {
        assert ReadyOf(s.threads[u]) == Some(r);
      }
    } else {
      var k: nat :| k < |s'.readyQ| && s'.readyQ[k] == r;
      if s'.readyQ == s.readyQ {
        assert s.readyQ[k] == r;
      } else if |s.readyQ| > 0 && s'.readyQ == s.readyQ[1..] {
        assert s.readyQ[k + 1] == r;
      } else if k < |s.readyQ| {
        assert s.readyQ[k] == r;
      } else {
        assert ReadyOf(s.threads[t]) == Some(r);
      }
    }
  }

  lemma ReadyStillTells(c: Config, s: State, a: Action, s': State, r: Ready)
    requires Core(c, s) && AllTell(c, s) && Takes(c, s, a, s') && WasReady(s, r)
    ensures TellsOf(c, s', r)
  {
    hide Takes, TellsOf;
    if t: nat :| t < |s.threads| && ReadyOf(s.threads[t]) == Some(r) {
      ReadyIsDir(c, s, t);
    } else {
      var k: nat :| k < |s.readyQ| && s.readyQ[k] == r;
      CoreParts(c, s, 0);
    }
    assert TellsOf(c, s, r);
    StillTells(c, s, a, s', r);
  }

  lemma FinaliseTells(c: Config, s: State, t: nat, a: Answer, r: Ready)
    requires Core(c, s) && AllTell(c, s) && CanRun(c, s, t, a) && s.threads[t].Finalising?
    requires WasReady(Step(c, s, t, a), r)
    ensures WasReady(s, r) || (r.dir == s.threads[t].d && TellsOf(c, s, r))
  {
    hide Core;
    var s', d := Step(c, s, t, a), s.threads[t].d;
    CountTells(c, s, t, d);
    if u: nat :| u < |s'.threads| && ReadyOf(s'.threads[u]) == Some(r) {
      if u != t {
        assert ReadyOf(s.threads[u]) == Some(r);
      }
    } else {
      var k: nat :| k < |s'.readyQ| && s'.readyQ[k] == r;
      assert s.readyQ[k] == r;
    }
  }

  lemma TakesTell(c: Config, s: State, a: Action, s': State)
    requires Core(c, s) && AllTell(c, s) && Takes(c, s, a, s')
    ensures AllTell(c, s')
  {
    hide AllTell, TellsOf, WasReady;
    forall r | WasReady(s', r) ensures TellsOf(c, s', r) {
      if !a.Run? {
        assert WasReady(s, r) by { SameReady(s, s', r); }
        ReadyStillTells(c, s, a, s', r);
      } else if s.threads[a.t].Finalising? {
        FinaliseTells(c, s, a.t, a.answer, r);
        if WasReady(s, r) {
          ReadyStillTells(c, s, a, s', r);
        } else {
          CountTells(c, s, a.t, s.threads[a.t].d);
          StillTells(c, s, a, s', r);
        }
      } else {
        CoreParts(c, s, 0);
        assert ThreadFits(c, s, a.t);
        StepPasses(c, s, a.t, a.answer);
        PassesOn(s, s', a.t, r);
        ReadyStillTells(c, s, a, s', r);
      }
    }
    AllReadyTell(c, s');
  }

  lemma SameReady(s: State, s': State, r: Ready)
    requires s'.threads == s.threads && s'.readyQ == s.readyQ && WasReady(s', r)
    ensures WasReady(s, r)
  {
  }

  lemma AllReadyTell(c: Config, s: State)
    requires forall r :: WasReady(s, r) ==> TellsOf(c, s, r)
    ensures AllTell(c, s)
  {
    forall t: nat | t < |s.threads| && ReadyOf(s.threads[t]).Some?
      ensures TellsOf(c, s, ReadyOf(s.threads[t]).value)
    {
      assert WasReady(s, ReadyOf(s.threads[t]).value);
    }
    forall k: nat | k < |s.readyQ| ensures TellsOf(c, s, s.readyQ[k]) {
      assert WasReady(s, s.readyQ[k]);
    }
  }

  lemma {:induction false} RunTells(c: Config, states: seq<State>, actions: seq<Action>, k: nat)
    requires ValidConfig(c) && IsRun(c, states, actions) && k < |states|
    ensures AllTell(c, states[k])
  {
    if k > 0 {
      RunTells(c, states, actions, k - 1);
      RunCore(c, states, actions, k - 1);
      assert TakesAt(c, states, actions, k - 1);
      TakesTell(c, states[k - 1], actions[k - 1], states[k]);
    }
  }

  // ---------------------------------------------------------------------------------------------------------------
  // How entries are counted
  // ---------------------------------------------------------------------------------------------------------------

  /** Step k of the run counts entry i. */
  predicate CountedAt(states: seq<State>, k: nat, i: nat) {
    k + 1 < |states| && i !in states[k].verdict && i in states[k + 1].verdict
  }

  lemma DirTells(c: Config, s: State, i: nat, r: Ready)
    requires Core(c, s) && AllTell(c, s) && IsDir(c.evs, i) && PlaceOf(s, i) == With(DirGot(r))
    ensures r.dir == i && (r.simulatedNonEmpty <==> ChildRemains(c, s.verdict, i))
  {
    CoreParts(c, s, i);
    HolderSubject(c, s, i);
    assert ThreadFits(c, s, 0);
    var t := s.loc[i].owner;
    assert ReadyOf(s.threads[t]) == Some(r);
  }

  /** A leaf, when it is counted. */
  predicate LeafCounted(c: Config, i: nat, cancelled: bool, v: Verdict, h: Option<Outcome>) {
    match h
    case None =>
      v == if i in c.retain || cancelled then WasRetained else WasDeleted
    case Some(outcome) => v == if outcome.Failed? then HasFailed else WasDeleted
  }

  /** A directory, when it is counted. */
  ghost predicate DirCounted(
    c: Config, i: nat, cancelled: bool, before: map<nat, Verdict>, v: Verdict, h: Option<Outcome>)
  {
    match h
    case None => v == if ChildRemains(c, before, i) then WasRetained else WasDeleted
    case Some(outcome) =>
      && (v == WasDeleted <==> !outcome.Failed?)
      && (v == WasRetained <==> outcome == Failed(NotEmpty) && (c.preserveRoot || cancelled))
  }

  lemma LeafIsCounted(c: Config, i: nat, cancelled: bool, w: Doing, l: Life, l': Life, h: Option<Outcome>)
    requires IsLeaf(c.evs, i) && NextLife(c, i, cancelled, w, l, l') && Sound(c, i, cancelled, l, h)
    requires Suits(c, i, l) && l.verdict.None? && l'.verdict.Some?
    ensures LeafCounted(c, i, cancelled, l'.verdict.value, h)
    ensures h.None? && l'.verdict == Some(WasDeleted) ==> c.dryRun
  {
    hide Advance;
  }

  lemma DirIsCounted(
    c: Config, i: nat, cancelled: bool, before: map<nat, Verdict>, w: Doing, l: Life, l': Life, h: Option<Outcome>)
    requires IsDir(c.evs, i) && NextLife(c, i, cancelled, w, l, l') && Sound(c, i, cancelled, l, h)
    requires (l.place.With? ==> DirPc(l.place.pc)) && !l.place.InFileQueue? && l.verdict.None? && l'.verdict.Some?
    requires l.place.With? && l.place.pc.DirGot? ==>
               (l.place.pc.r.simulatedNonEmpty <==> ChildRemains(c, before, i))
    ensures DirCounted(c, i, cancelled, before, l'.verdict.value, h) && (h.None? <==> c.dryRun)
  {
    hide Advance, ChildRemains;
  }

  /**
   How every entry is counted, in any run. A leaf the engine was not asked to delete is retained if the filters or an
   interruption say so, and otherwise deleted, in a dry run; one it was asked for is deleted or has failed as the engine
   last reported. A directory is counted deleted in a dry run exactly when all its children were. In a real one the
   engine was asked, and the directory is deleted if it says so; it is retained exactly if it was not empty and either
   the target is preserved or the run interrupted, and has failed otherwise.
   */
  lemma HowEntriesAreCounted(c: Config, states: seq<State>, actions: seq<Action>, k: nat, i: nat)
    requires ValidConfig(c) && IsRun(c, states, actions) && CountedAt(states, k, i)
    ensures IsEntry(c.evs, i)
    ensures var v, h, cancelled := states[k + 1].verdict[i], Heard(states, actions, k, i), states[k].ctl.cancelled;
            && (IsLeaf(c.evs, i) ==>
                  LeafCounted(c, i, cancelled, v, h) && (h.None? && v == WasDeleted ==> c.dryRun))
            && (IsDir(c.evs, i) ==>
                  DirCounted(c, i, cancelled, states[k].verdict, v, h) && (h.None? <==> c.dryRun))
  {
    hide Core, NextLife, Sound, LeafCounted, DirCounted;
    var s, s' := states[k], states[k + 1];
    var w, h := DoingOf(s, actions[k]), Heard(states, actions, k, i);
    RunLife(c, states, actions, k, i);
    RunCore(c, states, actions, k);
    RunCore(c, states, actions, k + 1);
    VerdictOnEntry(c, s', i);
    RunSound(c, states, actions, k, i);
    PlaceSuits(c, s, i);
    if IsLeaf(c.evs, i) {
      LeafIsCounted(c, i, s.ctl.cancelled, w, LifeOf(s, i), LifeOf(s', i), h);
    } else {
      HolderSubject(c, s, i);
      RunTells(c, states, actions, k);
      if PlaceOf(s, i).With? && PlaceOf(s, i).pc.DirGot? {
        DirTells(c, s, i, PlaceOf(s, i).pc.r);
      }
      DirIsCounted(c, i, s.ctl.cancelled, s.verdict, w, LifeOf(s, i), LifeOf(s', i), h);
    }
  }

  lemma VerdictOnEntry(c: Config, s: State, i: nat)
    requires Core(c, s) && i in s.verdict
    ensures IsEntry(c.evs, i) && i in s.loc
  {
    CoreParts(c, s, i);
  }

  lemma VerdictStays(c: Config, i: nat, cancelled: bool, w: Doing, l: Life, l': Life, h: Option<Outcome>)
    requires NextLife(c, i, cancelled, w, l, l') && Sound(c, i, cancelled, l, h) && l.verdict.Some?
    ensures l'.verdict == l.verdict && l'.present == l.present
  {
    hide Advance;
  }

  /** A verdict is final: it never changes, and nothing happens to the entry on disk after it. */
  lemma {:induction false} VerdictsAreFinal(
    c: Config, states: seq<State>, actions: seq<Action>, j: nat, k: nat, i: nat)
    requires ValidConfig(c) && IsRun(c, states, actions) && j <= k < |states| && i in states[j].verdict
    ensures i in states[k].verdict && states[k].verdict[i] == states[j].verdict[i]
    ensures i in states[k].disk.present <==> i in states[j].disk.present
    ensures Heard(states, actions, k, i) == Heard(states, actions, j, i)
    decreases k - j
  {
    hide Core, NextLife, Sound, HeardAfter;
    if j < k {
      VerdictsAreFinal(c, states, actions, j, k - 1, i);
      var s, s' := states[k - 1], states[k];
      var w, h := DoingOf(s, actions[k - 1]), Heard(states, actions, k - 1, i);
      RunCore(c, states, actions, k - 1);
      VerdictOnEntry(c, s, i);
      RunLife(c, states, actions, k - 1, i);
      RunSound(c, states, actions, k - 1, i);
      if LifeOf(s', i) != LifeOf(s, i) {
        VerdictStays(c, i, s.ctl.cancelled, w, LifeOf(s, i), LifeOf(s', i), h);
      }
      assert LifeOf(s', i).verdict == LifeOf(s, i).verdict && LifeOf(s', i).present == LifeOf(s, i).present;
      assert TakesAt(c, states, actions, k - 1);
      CountedIsNotWorkedOn(c, s, actions[k - 1], s', i, h);
      NobodyCalls(w, i, h);
    }
  }

  lemma CountedIsNotWorkedOn(c: Config, s: State, a: Action, s': State, i: nat, h: Option<Outcome>)
    requires Core(c, s) && Takes(c, s, a, s') && i in s.verdict
    requires Sound(c, i, s.ctl.cancelled, LifeOf(s, i), h)
    ensures !WorksOn(DoingOf(s, a).pc, i)
  {
    hide Core;
    if a.Run? && WorksOn(s.threads[a.t], i) {
      WorkMoves(c, s, a.t, a.answer, i);
    }
  }

  /** In every state of a real run, an entry that is counted is counted as deleted exactly if it is gone. */
  lemma VerdictTellsTheDisk(c: Config, states: seq<State>, actions: seq<Action>, k: nat, i: nat)
    requires ValidConfig(c) && IsRun(c, states, actions) && k < |states| && i in states[k].verdict
    ensures !c.dryRun ==> (states[k].verdict[i] == WasDeleted <==> i !in states[k].disk.present)
    ensures c.dryRun ==> i in states[k].disk.present
  {
    RunCore(c, states, actions, k);
    VerdictOnEntry(c, states[k], i);
    RunSound(c, states, actions, k, i);
  }

  /** A preserved target is never handed to the engine and stays, whatever happens. */
  lemma PreservedTargetStays(c: Config, states: seq<State>, actions: seq<Action>, k: nat)
    requires ValidConfig(c) && IsRun(c, states, actions) && k < |states| && c.preserveRoot
    ensures 0 in states[k].disk.present && 0 !in states[k].disk.handed && 0 !in states[k].verdict
  {
    var s := states[k];
    RunCore(c, states, actions, k);
    RunSound(c, states, actions, k, 0);
    RootIsSpared(c, s, Heard(states, actions, k, 0));
  }

  lemma RootIsSpared(c: Config, s: State, h: Option<Outcome>)
    requires Core(c, s) && c.preserveRoot && Sound(c, 0, s.ctl.cancelled, LifeOf(s, 0), h)
    ensures 0 in s.disk.present && 0 !in s.disk.handed && 0 !in s.verdict
  {
    CoreParts(c, s, 0);
    HolderSubject(c, s, 0);
    assert ThreadFits(c, s, 0);
    if 0 in s.loc && s.loc[0].Held? {
      assert ThreadFits(c, s, s.loc[0].owner);
    }
  }
}
