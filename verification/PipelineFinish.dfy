/** Undisturbed runs exist, and each can be carried through to its end. */
module PipelineFinish {
  import opened Wrappers
  import opened DirectoryTracking
  import opened Attempts
  import opened Report
  import opened Pipeline
  import opened PipelineInvariant
  import opened PipelineReach
  import opened PipelineLife
  import opened PipelineLedger
  import opened PipelineProgress
  import opened PipelineTermination
  import opened PipelineEnd
  import opened PipelinePrune

  /** What an engine that works answers to the thread, given what is left on disk. */
  ghost function GoodAnswer(c: Config, present: set<nat>, pc: Pc): Answer {
    match pc
    case DirDeleting(r, st) =>
      if st.Finished? then NoAnswer
      else DeleteAnswer(if HasChildOn(c, present, r.dir) then Failed(NotEmpty) else Deleted)
    case _ => SomeAnswer(pc)
  }

  /** A thread that can move at all can move on a good answer. */
  lemma GoodMove(c: Config, s: State, t: nat)
    requires Core(c, s) && Fair(c, s) && Moves(c, s, t)
    ensures var a := GoodAnswer(c, s.disk.present, s.threads[t]);
            CanRun(c, s, t, a) && Faithful(c, s.disk.present, Doing(s.threads[t], a))
  {
    var pc := s.threads[t];
    assert ThreadFits(c, s, t);
    if pc.Deleting? || pc.DirDeleting? {
      var i := Subject(pc).value;
      CoreParts(c, s, i);
      assert PlaceOf(s, i) == With(pc);
      assert Right(c, i, LifeOf(s, i));
    }
  }

  /** As long as the run is not over, there is a step to take that disturbs nothing. */
  lemma NextMove(c: Config, s: State) returns (a: Action)
    requires Core(c, s) && Controlled(c, s) && Fair(c, s) && !Terminated(s)
    requires CountEvents(c.evs, AnyDir, |c.evs|) <= c.dirCap
    ensures IsWork(a) && Enabled(c, s, a) && Faithful(c, s.disk.present, DoingOf(s, a))
  {
    if Stuck(c, s) {
      StuckIsTerminated(c, s);
    }
    if Enabled(c, s, Emit) {
      a := Emit;
    } else {
      var t: nat :| Moves(c, s, t);
      GoodMove(c, s, t);
      a := Run(t, GoodAnswer(c, s.disk.present, s.threads[t]));
    }
  }

  /** Every undisturbed run, however far it has come, can be finished without disturbance. */
  lemma {:induction false} CanBeFinished(c: Config, states: seq<State>, actions: seq<Action>)
    returns (allStates: seq<State>, allActions: seq<Action>)
    requires ValidConfig(c) && FiltersAgree(c) && Undisturbed(c, states, actions)
    requires CountEvents(c.evs, AnyDir, |c.evs|) <= c.dirCap
    ensures Undisturbed(c, allStates, allActions) && states <= allStates && actions <= allActions
    ensures Terminated(allStates[|allActions|])
    decreases Potential(c, states[|actions|])
  {
    hide Core, Controlled, Fair, Terminated, Faithful, Potential, Enabled, Apply, IsInit, FiltersAgree;
    var n := |actions|;
    var last := states[n];
    if Terminated(last) {
      allStates, allActions := states, actions;
    } else {
      RunCore(c, states, actions, n);
      RunControlled(c, states, actions, n);
      RunFair(c, states, actions, n);
      WorkIsBounded(c, states, actions, n);
      var a := NextMove(c, last);
      TakesCosts(c, last, a, Apply(c, last, a));
      OneMore(c, states, actions, a);
      allStates, allActions := CanBeFinished(c, states + [Apply(c, last, a)], actions + [a]);
    }
  }

  lemma OneMore(c: Config, states: seq<State>, actions: seq<Action>, a: Action)
    requires Undisturbed(c, states, actions)
    requires IsWork(a) && Enabled(c, states[|actions|], a)
    requires Faithful(c, states[|actions|].disk.present, DoingOf(states[|actions|], a))
    ensures Undisturbed(c, states + [Apply(c, states[|actions|], a)], actions + [a])
  {
    hide Faithful, Enabled, Apply, IsInit;
    var s' := Apply(c, states[|actions|], a);
    forall k: nat | k < |actions| + 1
      ensures TakesAt(c, states + [s'], actions + [a], k) && FaithfulAt(c, states + [s'], actions + [a], k)
    {
      if k < |actions| {
        assert TakesAt(c, states, actions, k) && FaithfulAt(c, states, actions, k);
      }
    }
  }

  /** So there is a finished run to speak of, for every job. */
  lemma SomeRunFinishes(c: Config) returns (states: seq<State>, actions: seq<Action>)
    requires ValidConfig(c) && FiltersAgree(c) && CountEvents(c.evs, AnyDir, |c.evs|) <= c.dirCap
    ensures Undisturbed(c, states, actions) && Terminated(states[|actions|])
  {
    var threads := seq(1 + c.dirWorkers + c.fileWorkers, i => Idle);
    var s := State(1, 1, threads, [], [], Insert(map[], 0, None), map[0 := Live], map[],
                   Books(Metrics(0, 1, 0, 0, 0, 0, 0, 0), Tally(0, 0, 0, 0, 0), EMPTY_LOG, 0),
                   Disk(Entries(c.evs), {}), Control(false, 0, 1, false, false, 0, 0));
    assert IsInit(c, s);
    states, actions := CanBeFinished(c, [s], []);
  }
}
