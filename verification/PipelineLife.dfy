/**
 The life of one entry. Seen from a single entry, every step of the pipeline is either invisible or one transition of
 a small automaton. Properties that hold of an entry's whole life are proved on the automaton.
 */
module PipelineLife {
  import opened Wrappers
  import opened DirectoryTracking
  import opened Attempts
  import opened Report
  import opened Pipeline
  import opened PipelineInvariant
  import opened PipelineSteps
  import opened PipelineReach

  datatype Place =
    | Unseen
    | Waiting              // Live
    | InFileQueue
    | InReadyQueue
    | With(pc: Pc)         // a thread has it
    | Done

  datatype Life = Life(place: Place, verdict: Option<Verdict>, handed: bool, present: bool)

  function PlaceOf(s: State, i: nat): Place {
    if i !in s.loc then Unseen else
    match s.loc[i]
    case Announcing => if |s.threads| > 0 then With(s.threads[0]) else Unseen
    case Live => Waiting
    case FileQueue => InFileQueue
    case ReadyQueue => InReadyQueue
    case Held(t) => if t < |s.threads| then With(s.threads[t]) else Unseen
    case Settled => Done
  }

  function LifeOf(s: State, i: nat): Life {
    Life(PlaceOf(s, i),
         if i in s.verdict then Some(s.verdict[i]) else None,
         i in s.disk.handed,
         i in s.disk.present)
  }

  /** One engine call: nothing but a successful delete call takes the entry off the disk. */
  predicate EngineCall(st: Stage, a: Answer, l: Life, l': Life) {
    && Answers(st, a)
    && l'.verdict == l.verdict
    && l'.handed == (l.handed || CallsDelete(st))
    && l'.present == (l.present && !(a.DeleteAnswer? && !a.outcome.Failed?))
  }

  /** The entry only changes place. */
  predicate Goes(l: Life, l': Life, to: Place) {
    l' == l.(place := to)
  }

  /** The entry is counted, and goes on. */
  predicate Counted(l: Life, l': Life, v: Verdict, to: Place) {
    l' == l.(place := to, verdict := Some(v))
  }

  /** A step in progress: what the thread that takes it was about to do, and what the engine answers. */
  datatype Doing = Doing(pc: Pc, answer: Answer)

  /**
   What a step may do to entry i while the cancellation flag is `cancelled`. An entry some thread has only changes when
   that thread takes the step.
   */
  predicate NextLife(c: Config, i: nat, cancelled: bool, w: Doing, l: Life, l': Life) {
    match l.place
    case Unseen => Goes(l, l', With(if IsLeaf(c.evs, i) then NewLeaf(i) else NewDir(i)))
    case Waiting => Goes(l, l', With(Finalising(i)))
    case InFileQueue => Goes(l, l', With(Got(i)))
    case InReadyQueue => l'.place.With? && l'.place.pc.DirGot? && l'.place.pc.r.dir == i && Goes(l, l', l'.place)
    case Done => false
    case With(pc) =>
      w.pc == pc &&
      match pc
      case NewDir(_) => Goes(l, l', With(NewDirPending(i)))
      case NewDirPending(_) => Goes(l, l', Waiting)
      case NewLeaf(_) => Goes(l, l', With(LeafCheck(i)))
      case LeafCheck(_) =>
        if cancelled || i in c.retain then Counted(l, l', WasRetained, With(Completing(i, true)))
        else if c.dryRun then Counted(l, l', WasDeleted, With(Completing(i, false)))
        else Goes(l, l', With(LeafSend(i)))
      case LeafSend(_) => Goes(l, l', InFileQueue)
      case Got(_) => Goes(l, l', With(Deleting(i, First)))
      case Deleting(_, st) =>
        if st.Finished? then Goes(l, l', With(Counting(i, st.outcome)))
        else
          && EngineCall(st, w.answer, l, l')
          && l'.place == With(Deleting(i, Advance(c.options, true, st, Tally(0, 0, 0, 0, 0), w.answer).0))
      case Counting(_, outcome) =>
        if outcome.Failed? then Counted(l, l', HasFailed, With(LogLeaf(i, outcome.category)))
        else Counted(l, l', WasDeleted, With(Completing(i, false)))
      case LogLeaf(_, _) => Goes(l, l', With(Completing(i, true)))
      case Finalising(_) => l'.place.With? && l'.place.pc.Sending? && l'.place.pc.r.dir == i && Goes(l, l', l'.place)
      case Sending(_) => Goes(l, l', InReadyQueue)
      case DirGot(r) =>
        if r.parent.None? && c.preserveRoot then Goes(l, l', With(RootDone(i)))
        else if c.dryRun then
          Counted(l, l', if r.simulatedNonEmpty then WasRetained else WasDeleted,
                  With(Forgetting(r, r.simulatedNonEmpty)))
        else Goes(l, l', With(DirDeleting(r, First)))
      case DirDeleting(r, st) =>
        if st.Finished? then
          if !st.outcome.Failed? then Counted(l, l', WasDeleted, With(Forgetting(r, false)))
          else if st.outcome.category.NotEmpty? && (c.preserveRoot || cancelled) then
            Counted(l, l', WasRetained, With(Forgetting(r, true)))
          else Counted(l, l', HasFailed, With(LogDir(r, st.outcome.category)))
        else
          && EngineCall(st, w.answer, l, l')
          && l'.place == With(DirDeleting(r, Advance(c.options, false, st, Tally(0, 0, 0, 0, 0), w.answer).0))
      case LogDir(r, _) => Goes(l, l', With(Forgetting(r, true)))
      case Forgetting(r, kept) => Goes(l, l', With(if r.parent.Some? then Completing(i, kept) else RootDone(i)))
      case RootDone(_) => Goes(l, l', Done)
      case Completing(_, _) => Goes(l, l', Done)
      case _ => false
  }

  /** The stage a call leads to does not depend on the counters. */
  lemma StageIgnoresTally(o: DeleteOptions, leaf: bool, st: Stage, n: Tally, m: Tally, a: Answer)
    requires Answers(st, a)
    ensures Advance(o, leaf, st, n, a).0 == Advance(o, leaf, st, m, a).0
  {
  }

  ghost predicate Near(c: Config, s: State, t: nat, i: nat) {
    Sane(c, s) && ThreadFits(c, s, t) && EntryFits(c, s, i)
  }

  /** What a step does to entry i, and to the cancellation flag. */
  ghost predicate Lives(c: Config, s: State, s': State, w: Doing, i: nat) {
    && (LifeOf(s', i) == LifeOf(s, i) || NextLife(c, i, s.ctl.cancelled, w, LifeOf(s, i), LifeOf(s', i)))
    && (s.ctl.cancelled ==> s'.ctl.cancelled)
  }

  lemma ReceiveLife(c: Config, s: State, a: Answer, i: nat)
    requires Near(c, s, 0, i) && s.threads[0] == Idle
    ensures Lives(c, s, StepReceive(c, s, 0), Doing(s.threads[0], a), i)
  {
  }

  lemma RegisterLife(c: Config, s: State, a: Answer, j: nat, i: nat)
    requires Near(c, s, 0, i)
    ensures s.threads[0] == NewDir(j) ==> Lives(c, s, StepInsert(c, s, 0, j), Doing(s.threads[0], a), i)
    ensures s.threads[0] == NewDirPending(j) ==> Lives(c, s, StepAnnounceDir(c, s, 0, j), Doing(s.threads[0], a), i)
    ensures s.threads[0] == NewLeaf(j) ==> Lives(c, s, StepAnnounceLeaf(c, s, 0, j), Doing(s.threads[0], a), i)
  {
  }

  lemma LeafLife(c: Config, s: State, a: Answer, j: nat, i: nat)
    requires Near(c, s, 0, i)
    ensures s.threads[0] == LeafCheck(j) ==> Lives(c, s, StepCheckLeaf(c, s, 0, j), Doing(s.threads[0], a), i)
    ensures s.threads[0] == LeafSend(j) ==> Lives(c, s, StepQueueLeaf(s, 0, j), Doing(s.threads[0], a), i)
  {
  }

  lemma MarkLife(c: Config, s: State, a: Answer, m: nat, i: nat)
    requires Near(c, s, 0, i) && EntryFits(c, s, m) && DirInv(c, s, m) && s.threads[0] == MarkDir(m)
    ensures Lives(c, s, StepMark(s, 0, m), Doing(s.threads[0], a), i)
  {
    assert ListedAt(c.evs, s.consumed - 1, m);
    assert ListedAt(c.evs, ListedPos(c.evs, m), m);
  }

  lemma TakeFileLife(c: Config, s: State, t: nat, a: Answer, i: nat)
    requires Near(c, s, t, i) && s.threads[t] == Idle && Queued(c, s)
    ensures Lives(c, s, StepTakeFile(c, s, t), Doing(s.threads[t], a), i)
  {
  }

  lemma DeleteLeafLife(c: Config, s: State, t: nat, j: nat, st: Stage, a: Answer, i: nat)
    requires Near(c, s, t, i) && s.threads[t] == Deleting(j, st) && (st.Finished? || Answers(st, a))
    ensures Lives(c, s, StepDeleteLeaf(c, s, t, j, st, a), Doing(s.threads[t], a), i)
  {
    if !st.Finished? {
      StageIgnoresTally(c.options, true, st, s.books.tally, Tally(0, 0, 0, 0, 0), a);
    }
  }

  lemma CountLeafLife(c: Config, s: State, t: nat, j: nat, outcome: Outcome, a: Answer, i: nat)
    requires Near(c, s, t, i) && s.threads[t] == Counting(j, outcome)
    ensures Lives(c, s, StepCountLeaf(c, s, t, j, outcome), Doing(s.threads[t], a), i)
  {
  }

  lemma TakeReadyLife(c: Config, s: State, t: nat, a: Answer, i: nat)
    requires Near(c, s, t, i) && s.threads[t] == Idle && Queued(c, s)
    ensures Lives(c, s, StepTakeReady(c, s, t), Doing(s.threads[t], a), i)
  {
  }

  lemma StartDirLife(c: Config, s: State, t: nat, r: Ready, a: Answer, i: nat)
    requires Near(c, s, t, i) && s.threads[t] == DirGot(r)
    ensures Lives(c, s, StepStartDir(c, s, t, r), Doing(s.threads[t], a), i)
  {
  }

  lemma DeleteDirLife(c: Config, s: State, t: nat, r: Ready, st: Stage, a: Answer, i: nat)
    requires Near(c, s, t, i) && s.threads[t] == DirDeleting(r, st) && (st.Finished? || Answers(st, a))
    ensures Lives(c, s, StepDeleteDir(c, s, t, r, st, a), Doing(s.threads[t], a), i)
  {
    if !st.Finished? {
      StageIgnoresTally(c.options, false, st, s.books.tally, Tally(0, 0, 0, 0, 0), a);
    }
  }

  lemma EndDirLife(c: Config, s: State, t: nat, r: Ready, kept: bool, j: nat, a: Answer, i: nat)
    requires Near(c, s, t, i)
    ensures s.threads[t] == Forgetting(r, kept) ==> Lives(c, s, StepForget(s, t, r, kept), Doing(s.threads[t], a), i)
    ensures s.threads[t] == RootDone(j) ==> Lives(c, s, StepRootDone(s, t, j), Doing(s.threads[t], a), i)
    ensures s.threads[t] == Sending(r) ==> Lives(c, s, StepSend(s, t, r), Doing(s.threads[t], a), i)
  {
  }

  lemma FinaliseLife(c: Config, s: State, t: nat, m: nat, a: Answer, i: nat)
    requires Near(c, s, t, i) && s.threads[t] == Finalising(m) && DirInv(c, s, m)
    ensures Lives(c, s, StepFinalise(s, t, m), Doing(s.threads[t], a), i)
  {
    FinaliseSucceeds(c, s, t, m);
  }

  lemma CompleteLife(c: Config, s: State, t: nat, j: nat, p: nat, kept: bool, a: Answer, i: nat)
    requires Near(c, s, t, i) && s.threads[t] == Completing(j, kept) && EntryFits(c, s, j)
    requires ChildOf(c.evs, j, p) && EntryFits(c, s, p) && DirInv(c, s, p)
    ensures Lives(c, s, StepComplete(c, s, t, j, kept), Doing(s.threads[t], a), i)
  {
    ParentWaits(c, s, j, p);
  }

  lemma CoordinatorLife(c: Config, s: State, a: Answer, i: nat)
    requires Near(c, s, 0, i) && CanRun(c, s, 0, a)
    requires !s.threads[0].Completing? && !s.threads[0].Finalising? && !s.threads[0].Sending?
    requires s.threads[0].MarkDir? ==> EntryFits(c, s, s.threads[0].d) && DirInv(c, s, s.threads[0].d)
    ensures Lives(c, s, Step(c, s, 0, a), Doing(s.threads[0], a), i)
  {
    match s.threads[0]
    case Idle => ReceiveLife(c, s, a, i);
    case NewDir(j) => RegisterLife(c, s, a, j, i);
    case NewDirPending(j) => RegisterLife(c, s, a, j, i);
    case NewLeaf(j) => RegisterLife(c, s, a, j, i);
    case LeafCheck(j) => LeafLife(c, s, a, j, i);
    case LeafSend(j) => LeafLife(c, s, a, j, i);
    case MarkDir(m) => MarkLife(c, s, a, m, i);
    case _ =>
  }

  lemma FileWorkerLife(c: Config, s: State, t: nat, a: Answer, i: nat)
    requires Near(c, s, t, i) && Queued(c, s) && CanRun(c, s, t, a) && RoleOf(c, t).FileWorker?
    requires !s.threads[t].Completing? && !s.threads[t].Finalising? && !s.threads[t].Sending?
    ensures Lives(c, s, Step(c, s, t, a), Doing(s.threads[t], a), i)
  {
    match s.threads[t]
    case Idle => TakeFileLife(c, s, t, a, i);
    case Deleting(j, st) => DeleteLeafLife(c, s, t, j, st, a, i);
    case Counting(j, outcome) => CountLeafLife(c, s, t, j, outcome, a, i);
    case _ =>
  }

  lemma DirWorkerLife(c: Config, s: State, t: nat, a: Answer, i: nat)
    requires Near(c, s, t, i) && Queued(c, s) && CanRun(c, s, t, a) && RoleOf(c, t).DirWorker?
    requires !s.threads[t].Completing? && !s.threads[t].Finalising? && !s.threads[t].Sending?
    ensures Lives(c, s, Step(c, s, t, a), Doing(s.threads[t], a), i)
  {
    match s.threads[t]
    case Idle => TakeReadyLife(c, s, t, a, i);
    case DirGot(r) => StartDirLife(c, s, t, r, a, i);
    case DirDeleting(r, st) => DeleteDirLife(c, s, t, r, st, a, i);
    case Forgetting(r, kept) => EndDirLife(c, s, t, r, kept, 0, a, i);
    case RootDone(j) => EndDirLife(c, s, t, Ready(0, None, false), false, j, a, i);
    case _ =>
  }

  lemma StepLife(c: Config, s: State, t: nat, a: Answer, i: nat)
    requires Core(c, s) && CanRun(c, s, t, a)
    ensures Lives(c, s, Step(c, s, t, a), Doing(s.threads[t], a), i)
  {
    CoreParts(c, s, i);
    assert ThreadFits(c, s, t);
    if s.threads[t].Completing? {
      var j := s.threads[t].i;
      CoreParts(c, s, j);
      CoreParts(c, s, c.evs[j].parent);
      CompleteLife(c, s, t, j, c.evs[j].parent, s.threads[t].kept, a, i);
    } else if s.threads[t].Finalising? {
      CoreParts(c, s, s.threads[t].d);
      FinaliseLife(c, s, t, s.threads[t].d, a, i);
    } else if s.threads[t].Sending? {
      EndDirLife(c, s, t, s.threads[t].r, false, 0, a, i);
    } else {
      match RoleOf(c, t)
      case Coordinator =>
        if s.threads[0].MarkDir? { CoreParts(c, s, s.threads[0].d); }
        CoordinatorLife(c, s, a, i);
      case FileWorker => FileWorkerLife(c, s, t, a, i);
      case DirWorker => DirWorkerLife(c, s, t, a, i);
    }
  }

  function DoingOf(s: State, a: Action): Doing {
    if a.Run? && a.t < |s.threads| then Doing(s.threads[a.t], a.answer) else Doing(Idle, NoAnswer)
  }

  /** Every action either leaves an entry as it was or moves it along its life. */
  lemma ActionLife(c: Config, s: State, a: Action, i: nat)
    requires Core(c, s) && Enabled(c, s, a)
    ensures Lives(c, s, Apply(c, s, a), DoingOf(s, a), i)
  {
    if a.Run? {
      StepLife(c, s, a.t, a.answer, i);
    }
  }

  lemma TakesLife(c: Config, s: State, a: Action, s': State, i: nat)
    requires Core(c, s) && Takes(c, s, a, s')
    ensures Lives(c, s, s', DoingOf(s, a), i)
  {
    ActionLife(c, s, a, i);
  }
}
