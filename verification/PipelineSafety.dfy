/** What every run of the pipeline keeps, stated for whole runs. */
module PipelineSafety {
  import opened Wrappers
  import opened DirectoryTracking
  import opened Attempts
  import opened Report
  import opened Pipeline
  import opened PipelineInvariant
  import opened PipelineSteps
  import opened PipelineReach
  import opened PipelineLife

  // ---------------------------------------------------------------------------------------------------------------
  // The tracker
  // ---------------------------------------------------------------------------------------------------------------

  /** A directory that is no longer waiting has been listed completely, and every child it has is resolved. */
  lemma ChildrenResolved(c: Config, s: State, d: nat, i: nat)
    requires Core(c, s) && IsDir(c.evs, d) && d in s.loc && !s.loc[d].Live? && !s.loc[d].Announcing?
    requires ChildOf(c.evs, i, d)
    ensures i in s.loc && s.loc[i].Settled?
  {
    CoreParts(c, s, d);
    CoreParts(c, s, i);
    assert ListedAt(c.evs, ListedPos(c.evs, d), d);
    assert i < ListedPos(c.evs, d) < s.consumed;
    assert i !in Open(c.evs, s.loc, d);
  }

  /**
   In every state of every run, a tracked directory's pending count is the number of children that were announced to
   it and are not resolved yet, so it is never negative; and the parent of such a child is tracked and not finalised.
   */
  lemma TrackerIsExact(c: Config, states: seq<State>, actions: seq<Action>, k: nat, d: nat)
    requires ValidConfig(c) && IsRun(c, states, actions) && k < |states|
    ensures var s := states[k];
            && (d in s.tracker ==>
                  && IsDir(c.evs, d) && s.tracker[d].parent == ParentOf(c.evs, d)
                  && s.tracker[d].pending == |Open(c.evs, s.loc, d)| >= 0
                  && s.tracker[d].stillPresent == |Left(c.evs, s.loc, s.verdict, d)|)
            && (forall i :: i in Open(c.evs, s.loc, d) ==> d in s.tracker && !s.tracker[d].finalised)
  {
    var s := states[k];
    RunCore(c, states, actions, k);
    CoreParts(c, s, d);
    forall i | i in Open(c.evs, s.loc, d) ensures d in s.tracker && !s.tracker[d].finalised {
      CoreParts(c, s, i);
      ParentWaits(c, s, i, d);
    }
  }

  /** Step k of the run puts directory d on the ready channel. */
  predicate SendsDir(states: seq<State>, actions: seq<Action>, k: nat, d: nat) {
    && k < |actions| && k < |states| && actions[k].Run? && actions[k].t < |states[k].threads|
    && states[k].threads[actions[k].t].Sending? && states[k].threads[actions[k].t].r.dir == d
  }

  /** Places a directory can only be in after it was sent. */
  predicate PastSend(p: Place) {
    match p
    case InReadyQueue => true
    case Done => true
    case With(pc) => pc.DirGot? || pc.DirDeleting? || pc.LogDir? || pc.Forgetting? || pc.RootDone? || pc.Completing?
    case _ => false
  }

  lemma PastSendStays(c: Config, s: State, s': State, w: Doing, d: nat)
    requires Lives(c, s, s', w, d) && PastSend(PlaceOf(s, d))
    ensures PastSend(PlaceOf(s', d))
  {
  }

  /** One step of a run, seen from one entry. */
  lemma RunLife(c: Config, states: seq<State>, actions: seq<Action>, k: nat, i: nat)
    requires ValidConfig(c) && IsRun(c, states, actions) && k < |actions|
    ensures Lives(c, states[k], states[k + 1], DoingOf(states[k], actions[k]), i)
  {
    RunCore(c, states, actions, k);
    assert TakesAt(c, states, actions, k);
    TakesLife(c, states[k], actions[k], states[k + 1], i);
  }

  lemma {:induction false} PastSendForGood(c: Config, states: seq<State>, actions: seq<Action>, j: nat, k: nat, d: nat)
    requires ValidConfig(c) && IsRun(c, states, actions) && j <= k < |states|
    requires PastSend(PlaceOf(states[j], d))
    ensures PastSend(PlaceOf(states[k], d))
  {
    if j < k {
      PastSendForGood(c, states, actions, j, k - 1, d);
      RunLife(c, states, actions, k - 1, d);
      PastSendStays(c, states[k - 1], states[k], DoingOf(states[k - 1], actions[k - 1]), d);
    }
  }

  /** A directory goes on the ready channel at most once, and then it is listed and all its children are resolved. */
  lemma SentOnceAndReady(c: Config, states: seq<State>, actions: seq<Action>, j: nat, k: nat, d: nat)
    requires ValidConfig(c) && IsRun(c, states, actions)
    requires SendsDir(states, actions, j, d) && SendsDir(states, actions, k, d)
    ensures j == k
    ensures Marked(c, states[k], d)
    ensures forall i: nat :: ChildOf(c.evs, i, d) ==> i in states[k].loc && states[k].loc[i].Settled?
  {
    SentIsSending(c, states, actions, k, d);
    SentIsSending(c, states, actions, j, d);
    if j < k {
      PastSendForGood(c, states, actions, j + 1, k, d);
    }
    if k < j {
      PastSendForGood(c, states, actions, k + 1, j, d);
    }
    RunCore(c, states, actions, k);
    CoreParts(c, states[k], d);
    forall i: nat | ChildOf(c.evs, i, d) ensures i in states[k].loc && states[k].loc[i].Settled? {
      ChildrenResolved(c, states[k], d, i);
    }
  }

  lemma SentIsSending(c: Config, states: seq<State>, actions: seq<Action>, k: nat, d: nat)
    requires ValidConfig(c) && IsRun(c, states, actions) && SendsDir(states, actions, k, d)
    ensures IsDir(c.evs, d) && d in states[k].loc && states[k].loc[d] == Held(actions[k].t)
    ensures !PastSend(PlaceOf(states[k], d)) && PastSend(PlaceOf(states[k + 1], d))
  {
    var s := states[k];
    RunCore(c, states, actions, k);
    assert ThreadFits(c, s, actions[k].t);
    assert TakesAt(c, states, actions, k);
  }

  // ---------------------------------------------------------------------------------------------------------------
  // What reaches the engine
  // ---------------------------------------------------------------------------------------------------------------

  /** A leaf on its way to the engine, or past it. */
  predicate ForDeletion(p: Place) {
    match p
    case InFileQueue => true
    case With(pc) => pc.LeafSend? || pc.Got? || pc.Deleting? || pc.Counting? || pc.LogLeaf?
    case _ => false
  }

  predicate MaybeHanded(p: Place) {
    p.Done? || (p.With? && (p.pc.Deleting? || p.pc.Counting? || p.pc.LogLeaf? || p.pc.Completing?))
  }

  /** What may be handed to the engine: nothing in a dry run, and no leaf that is retained. */
  predicate Clean(c: Config, i: nat, l: Life) {
    && (l.handed ==> !c.dryRun)
    && (l.place.With? && (l.place.pc.DirDeleting? || l.place.pc.LogDir?) ==> !c.dryRun)
    && (IsLeaf(c.evs, i) ==>
          && (ForDeletion(l.place) ==> !c.dryRun && i !in c.retain && l.verdict != Some(WasRetained))
          && (l.handed ==> i !in c.retain && l.verdict != Some(WasRetained) && MaybeHanded(l.place)))
  }

  /** What the invariant says about the place of an entry. */
  predicate Suits(c: Config, i: nat, l: Life) {
    && (IsLeaf(c.evs, i) && l.place.With? ==>
          var pc := l.place.pc;
          !pc.NewDir? && !pc.NewDirPending? && !pc.Finalising? && !pc.Sending? && !pc.DirGot? && !pc.DirDeleting?
          && !pc.LogDir? && !pc.Forgetting? && !pc.RootDone?)
    && (IsLeaf(c.evs, i) ==> !l.place.Waiting? && !l.place.InReadyQueue?)
    && (l.place.With? && l.place.pc.Deleting? ==> IsLeaf(c.evs, i))
    && (l.place.Unseen? || (l.place.With? && l.place.pc.LeafCheck?) ==> l.verdict.None?)
  }

  lemma PlaceSuits(c: Config, s: State, i: nat)
    requires Core(c, s)
    ensures Suits(c, i, LifeOf(s, i))
  {
    CoreParts(c, s, i);
    if i in s.loc {
      assert ThreadFits(c, s, 0);
      if s.loc[i].Held? {
        assert ThreadFits(c, s, s.loc[i].owner);
      }
      if s.loc[i].ReadyQueue? {
        var k :| 0 <= k < |s.readyQ| && s.readyQ[k].dir == i;
      }
    }
  }

  lemma CleanStays(c: Config, s: State, s': State, w: Doing, i: nat)
    requires Lives(c, s, s', w, i) && Suits(c, i, LifeOf(s, i)) && Clean(c, i, LifeOf(s, i))
    requires i in s.disk.handed ==> !PlaceOf(s, i).Unseen?
    ensures Clean(c, i, LifeOf(s', i)) && (i in s'.disk.handed ==> !PlaceOf(s', i).Unseen?)
  {
  }

  lemma {:induction false} RunClean(c: Config, states: seq<State>, actions: seq<Action>, k: nat, i: nat)
    requires ValidConfig(c) && IsRun(c, states, actions) && k < |states|
    ensures Clean(c, i, LifeOf(states[k], i))
    ensures i in states[k].disk.handed ==> !PlaceOf(states[k], i).Unseen?
  {
    if k > 0 {
      RunClean(c, states, actions, k - 1, i);
      RunLife(c, states, actions, k - 1, i);
      RunCore(c, states, actions, k - 1);
      PlaceSuits(c, states[k - 1], i);
      CleanStays(c, states[k - 1], states[k], DoingOf(states[k - 1], actions[k - 1]), i);
    }
  }

  /**
   Containment. In every run, faulty and cancelled ones included, whatever is passed to an engine delete is an entry
   the enumerator announced, or the target itself; it is not a leaf the filters retain, nor a leaf counted as retained
   for any other reason; and a dry run passes nothing.
   */
  lemma OnlyTheChosenAreHanded(c: Config, states: seq<State>, actions: seq<Action>, k: nat, i: nat)
    requires ValidConfig(c) && IsRun(c, states, actions) && k < |states| && i in states[k].disk.handed
    ensures i < states[k].consumed && IsEntry(c.evs, i) && !c.dryRun
    ensures IsLeaf(c.evs, i) ==>
              i !in c.retain && !(i in states[k].verdict && states[k].verdict[i] == WasRetained)
  {
    RunClean(c, states, actions, k, i);
    RunCore(c, states, actions, k);
    CoreParts(c, states[k], i);
  }

  /** A leaf the coordinator has not checked yet, or has checked and let be. */
  predicate Spared(l: Life) {
    && !l.handed
    && match l.place
       case Unseen => true
       case With(pc) => pc.NewLeaf? || pc.LeafCheck? || (pc.Completing? && l.verdict == Some(WasRetained))
       case Done => l.verdict == Some(WasRetained)
       case _ => false
  }

  lemma SparedStays(c: Config, s: State, s': State, w: Doing, i: nat)
    requires Lives(c, s, s', w, i) && s.ctl.cancelled && IsLeaf(c.evs, i)
    requires Suits(c, i, LifeOf(s, i)) && Spared(LifeOf(s, i))
    ensures s'.ctl.cancelled && Spared(LifeOf(s', i))
  {
  }

  /** Once the run is cancelled, a leaf that has not passed its check by then is never handed to the engine. */
  lemma {:induction false} CancellationSpares(
    c: Config, states: seq<State>, actions: seq<Action>, j: nat, k: nat, i: nat)
    requires ValidConfig(c) && IsRun(c, states, actions) && j <= k < |states|
    requires states[j].ctl.cancelled && IsLeaf(c.evs, i) && Spared(LifeOf(states[j], i))
    ensures states[k].ctl.cancelled && Spared(LifeOf(states[k], i)) && i !in states[k].disk.handed
  {
    if j < k {
      CancellationSpares(c, states, actions, j, k - 1, i);
      RunLife(c, states, actions, k - 1, i);
      RunCore(c, states, actions, k - 1);
      PlaceSuits(c, states[k - 1], i);
      SparedStays(c, states[k - 1], states[k], DoingOf(states[k - 1], actions[k - 1]), i);
    }
  }
}
