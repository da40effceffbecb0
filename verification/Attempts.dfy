/**
 One native delete with its repairs (crates/cursdel-core/src/pipeline.rs, `delete_with_remediation` and
 `process_one`).

 The engine is an answer source. `Stage` is the program counter of the procedure: which engine call comes next and
 what has been learnt so far. Worker threads of the pipeline model advance it one engine call at a time; the methods
 below are the procedure as it is written, proved to compute exactly what running the stages computes.
 */
module Attempts {
  import opened Wrappers

  datatype Category =
    | AccessDenied | SharingViolation | NotFound | NotEmpty | PathTooLong | ReparsePointRefused | OutsideBoundary
    | RemoteLockUnsupported | RemoteLockFailed | LocalLockUnresolved | Io | Other

  datatype Outcome = Deleted | AlreadyGone | Failed(category: Category)

  datatype LockResolution = Resolved | Unsupported | Unresolved

  datatype DeleteOptions = DeleteOptions(allowRemediation: bool, killLocks: bool, closeRemoteLocks: bool)

  /** The five counters a delete with repairs may touch. */
  datatype Tally = Tally(
    remediationAttempts: nat,
    remediationSuccesses: nat,
    localLocksResolved: nat,
    remoteLocksResolved: nat,
    retries: nat)

  datatype Stage =
    | First                          // about to make the first delete call
    | Remediating(failure: Category) // attempt counted, about to call remediate
    | AfterRemediation               // remediation applied, about to delete again
    | LocalLock                      // about to call resolve_local_lock
    | AfterLocalLock                 // local lock resolved, about to delete again
    | RemoteLock                     // about to call resolve_remote_lock
    | AfterRemoteLock                // remote lock resolved, about to delete again
    | Finished(outcome: Outcome)

  datatype Answer = DeleteAnswer(outcome: Outcome) | RemediationAnswer(applied: bool) | LockAnswer(lock: LockResolution)
                  | NoAnswer

  predicate IsRemediable(c: Category) {
    c == AccessDenied || c == ReparsePointRefused
  }

  predicate CallsDelete(st: Stage) {
    st.First? || st.AfterRemediation? || st.AfterLocalLock? || st.AfterRemoteLock?
  }

  /** The engine answers the call it was asked. */
  predicate Answers(st: Stage, a: Answer) {
    match st
    case Finished(_) => false
    case Remediating(_) => a.RemediationAnswer?
    case LocalLock => a.LockAnswer?
    case RemoteLock => a.LockAnswer?
    case _ => a.DeleteAnswer?
  }

  /** Where a leaf goes once `delete_with_remediation` has returned; a directory stops there. */
  function TryLocal(o: DeleteOptions, leaf: bool, outcome: Outcome): Stage {
    if leaf && outcome == Failed(SharingViolation) && o.killLocks then LocalLock else TryRemote(o, leaf, outcome)
  }

  function TryRemote(o: DeleteOptions, leaf: bool, outcome: Outcome): Stage {
    if leaf && outcome == Failed(SharingViolation) && o.closeRemoteLocks then RemoteLock else Finished(outcome)
  }

  /** One engine call: the stage it leads to and the counters afterwards. */
  function Advance(o: DeleteOptions, leaf: bool, st: Stage, n: Tally, a: Answer): (Stage, Tally)
    requires Answers(st, a)
  {
    match st
    case First =>
      if a.outcome.Failed? && o.allowRemediation && IsRemediable(a.outcome.category) then
        (Remediating(a.outcome.category), n.(remediationAttempts := n.remediationAttempts + 1))
      else
        (TryLocal(o, leaf, a.outcome), n)
    case Remediating(c) =>
      if a.applied then
        (AfterRemediation, n.(remediationSuccesses := n.remediationSuccesses + 1, retries := n.retries + 1))
      else
        (TryLocal(o, leaf, Failed(c)), n)
    case AfterRemediation => (TryLocal(o, leaf, a.outcome), n)
    case LocalLock =>
      if a.lock.Resolved? then
        (AfterLocalLock, n.(localLocksResolved := n.localLocksResolved + 1, retries := n.retries + 1))
      else
        (TryRemote(o, leaf, Failed(SharingViolation)), n)
    case AfterLocalLock => (TryRemote(o, leaf, a.outcome), n)
    case RemoteLock =>
      (match a.lock
       case Resolved =>
         (AfterRemoteLock, n.(remoteLocksResolved := n.remoteLocksResolved + 1, retries := n.retries + 1))
       case Unsupported => (Finished(Failed(RemoteLockUnsupported)), n)
       case Unresolved => (Finished(Failed(RemoteLockFailed)), n))
    case AfterRemoteLock => (Finished(a.outcome), n)
  }

  /** An upper bound on the engine calls still to come. */
  function CallsLeft(st: Stage): nat {
    match st
    case First => 7
    case Remediating(_) => 6
    case AfterRemediation => 5
    case LocalLock => 4
    case AfterLocalLock => 3
    case RemoteLock => 2
    case AfterRemoteLock => 1
    case Finished(_) => 0
  }

  predicate IsLockStage(st: Stage) {
    st.LocalLock? || st.AfterLocalLock? || st.RemoteLock? || st.AfterRemoteLock?
  }

  /**
   Every engine call brings the procedure closer to its end; a retry is counted when a further delete call is next, and
   once, with its cause; a success is what the engine itself has just answered; a directory never comes to the locks.
   */
  lemma AdvanceProgress(o: DeleteOptions, leaf: bool, st: Stage, n: Tally, a: Answer)
    requires Answers(st, a)
    ensures CallsLeft(Advance(o, leaf, st, n, a).0) < CallsLeft(st)
    ensures var m := Advance(o, leaf, st, n, a).1;
            m.retries - n.retries == (m.remediationSuccesses - n.remediationSuccesses)
                                   + (m.localLocksResolved - n.localLocksResolved)
                                   + (m.remoteLocksResolved - n.remoteLocksResolved)
    ensures Advance(o, leaf, st, n, a).1.retries
            == n.retries + if CallsDelete(Advance(o, leaf, st, n, a).0) then 1 else 0
    ensures var next := Advance(o, leaf, st, n, a).0;
            next.Finished? && !next.outcome.Failed? ==> a == DeleteAnswer(next.outcome)
    ensures !leaf && !IsLockStage(st) ==>
              && !IsLockStage(Advance(o, leaf, st, n, a).0)
              && Advance(o, leaf, st, n, a).1.localLocksResolved == n.localLocksResolved
              && Advance(o, leaf, st, n, a).1.remoteLocksResolved == n.remoteLocksResolved
  {
  }

  /** A delete call that succeeds ends the procedure, and only an answer can end it with a success. */
  lemma AdvanceStops(o: DeleteOptions, leaf: bool, st: Stage, n: Tally, a: Answer)
    requires Answers(st, a)
    ensures a.DeleteAnswer? && !a.outcome.Failed? <==>
              Advance(o, leaf, st, n, a).0.Finished? && !Advance(o, leaf, st, n, a).0.outcome.Failed?
    ensures a.DeleteAnswer? && !a.outcome.Failed? ==> Advance(o, leaf, st, n, a).0 == Finished(a.outcome)
  {
  }

  // ---------------------------------------------------------------------------------------------------------------
  // The procedure itself
  // ---------------------------------------------------------------------------------------------------------------

  datatype Call = Delete | Remediate | ResolveLocal | ResolveRemote

  /** The call that a stage is about to make. */
  function CallOf(st: Stage): Call
    requires !st.Finished?
  {
    match st
    case Remediating(_) => Remediate
    case LocalLock => ResolveLocal
    case RemoteLock => ResolveRemote
    case _ => Delete
  }

  /** What the engine would say to its k-th call, for each kind of call. */
  datatype Script = Script(
    delete: nat -> Outcome, remediate: nat -> bool, localLock: nat -> LockResolution, remoteLock: nat -> LockResolution)

  function Ask(sc: Script, st: Stage, k: nat): (a: Answer)
    requires !st.Finished?
    ensures Answers(st, a)
  {
    match st
    case Remediating(_) => RemediationAnswer(sc.remediate(k))
    case LocalLock => LockAnswer(sc.localLock(k))
    case RemoteLock => LockAnswer(sc.remoteLock(k))
    case _ => DeleteAnswer(sc.delete(k))
  }

  /** The stages run to the end against a script; `made` are the engine calls made so far. */
  function RunStages(o: DeleteOptions, leaf: bool, st: Stage, n: Tally, sc: Script, made: seq<Call>)
    : (Outcome, Tally, seq<Call>)
    decreases CallsLeft(st)
  {
    if st.Finished? then
      (st.outcome, n, made)
    else
      AdvanceProgress(o, leaf, st, n, Ask(sc, st, |made|));
      var (st', n') := Advance(o, leaf, st, n, Ask(sc, st, |made|));
      RunStages(o, leaf, st', n', sc, made + [CallOf(st)])
  }

  function Count(calls: seq<Call>, call: Call): nat {
    if |calls| == 0 then 0 else Count(calls[..|calls| - 1], call) + if calls[|calls| - 1] == call then 1 else 0
  }

  /** The k-th call, a repair of this kind, has worked. */
  predicate Works(sc: Script, repair: Call, k: nat) {
    match repair
    case Delete => false
    case Remediate => sc.remediate(k)
    case ResolveLocal => sc.localLock(k).Resolved?
    case ResolveRemote => sc.remoteLock(k).Resolved?
  }

  function Worked(sc: Script, calls: seq<Call>, repair: Call): nat {
    if |calls| == 0 then 0
    else
      var k := |calls| - 1;
      Worked(sc, calls[..k], repair) + if calls[k] == repair && Works(sc, repair, k) then 1 else 0
  }

  /** What the last of the delete calls was answered. */
  function LastOutcome(sc: Script, calls: seq<Call>): Option<Outcome> {
    if |calls| == 0 then None
    else if calls[|calls| - 1] == Delete then Some(sc.delete(|calls| - 1))
    else LastOutcome(sc, calls[..|calls| - 1])
  }

  lemma OneMoreCall(sc: Script, calls: seq<Call>, call: Call)
    ensures forall c :: Count(calls + [call], c) == Count(calls, c) + if call == c then 1 else 0
    ensures forall c :: Worked(sc, calls + [call], c)
                        == Worked(sc, calls, c) + if call == c && Works(sc, c, |calls|) then 1 else 0
    ensures LastOutcome(sc, calls + [call])
            == if call == Delete then Some(sc.delete(|calls|)) else LastOutcome(sc, calls)
  {
    assert (calls + [call])[..|calls|] == calls;
  }

  /** One stage: which counters the call it makes moves. */
  lemma AdvanceCounts(o: DeleteOptions, leaf: bool, st: Stage, n: Tally, sc: Script, k: nat)
    requires !st.Finished?
    ensures var (next, m) := Advance(o, leaf, st, n, Ask(sc, st, k));
            && m.remediationSuccesses == n.remediationSuccesses + (if st.Remediating? && sc.remediate(k) then 1 else 0)
            && m.localLocksResolved == n.localLocksResolved
                                     + (if st.LocalLock? && sc.localLock(k).Resolved? then 1 else 0)
            && m.remoteLocksResolved == n.remoteLocksResolved
                                      + (if st.RemoteLock? && sc.remoteLock(k).Resolved? then 1 else 0)
            && m.remediationAttempts == n.remediationAttempts + (if next.Remediating? then 1 else 0)
            && m.retries == n.retries + (if CallsDelete(next) then 1 else 0)
  {
  }

  /**
   The counters are what their names say: attempts are calls to remediate, successes and resolved locks the calls that
   worked, and retries the delete calls after the first.
   */
  lemma {:induction false} CallsAreCounted(
    o: DeleteOptions, leaf: bool, st: Stage, n: Tally, sc: Script, made: seq<Call>)
    ensures var m, all := RunStages(o, leaf, st, n, sc, made).1, RunStages(o, leaf, st, n, sc, made).2;
            && made <= all && |all| <= |made| + CallsLeft(st)
            && m.remediationAttempts + Count(made, Remediate) + (if st.Remediating? then 1 else 0)
               == n.remediationAttempts + Count(all, Remediate)
            && m.remediationSuccesses + Worked(sc, made, Remediate)
               == n.remediationSuccesses + Worked(sc, all, Remediate)
            && m.localLocksResolved + Worked(sc, made, ResolveLocal)
               == n.localLocksResolved + Worked(sc, all, ResolveLocal)
            && m.remoteLocksResolved + Worked(sc, made, ResolveRemote)
               == n.remoteLocksResolved + Worked(sc, all, ResolveRemote)
            && m.retries + Count(made, Delete) + (if CallsDelete(st) then 1 else 0)
               == n.retries + Count(all, Delete)
    decreases CallsLeft(st)
  {
    hide Advance, Ask, Answers, Count, Worked, Works;
    if !st.Finished? {
      var a := Ask(sc, st, |made|);
      AdvanceProgress(o, leaf, st, n, a);
      AdvanceCounts(o, leaf, st, n, sc, |made|);
      OneMoreCall(sc, made, CallOf(st));
      WorksAt(sc, st, |made|);
      var (st', n') := Advance(o, leaf, st, n, a);
      CallsAreCounted(o, leaf, st', n', sc, made + [CallOf(st)]);
    }
  }

  lemma WorksAt(sc: Script, st: Stage, k: nat)
    requires !st.Finished?
    ensures Works(sc, Remediate, k) == sc.remediate(k)
    ensures Works(sc, ResolveLocal, k) == sc.localLock(k).Resolved?
    ensures Works(sc, ResolveRemote, k) == sc.remoteLock(k).Resolved?
  {
  }

  /**
   A run makes one delete call, and one more for each retry it counts; a success is always the engine's own answer
   to the last call made; and each retry has exactly one recorded cause.
   */
  lemma {:induction false} StagesAreHonest(
    o: DeleteOptions, leaf: bool, st: Stage, n: Tally, sc: Script, made: seq<Call>)
    ensures var m, all := RunStages(o, leaf, st, n, sc, made).1, RunStages(o, leaf, st, n, sc, made).2;
            && (m.retries - n.retries
                == (m.remediationSuccesses - n.remediationSuccesses)
                 + (m.localLocksResolved - n.localLocksResolved)
                 + (m.remoteLocksResolved - n.remoteLocksResolved))
            && |made| <= |all| <= |made| + CallsLeft(st)
    ensures !RunStages(o, leaf, st, n, sc, made).0.Failed? && !st.Finished? ==>
              var all := RunStages(o, leaf, st, n, sc, made).2;
              |made| < |all| && RunStages(o, leaf, st, n, sc, made).0 == sc.delete(|all| - 1)
    decreases CallsLeft(st)
  {
    hide Advance, Answers;
    if !st.Finished? {
      AdvanceProgress(o, leaf, st, n, Ask(sc, st, |made|));
      var (st', n') := Advance(o, leaf, st, n, Ask(sc, st, |made|));
      StagesAreHonest(o, leaf, st', n', sc, made + [CallOf(st)]);
    }
  }

  // ---------------------------------------------------------------------------------------------------------------
  // Which repairs are tried
  // ---------------------------------------------------------------------------------------------------------------

  /** The first part, up to the repair of permissions and the second delete call. */
  function FirstCalls(o: DeleteOptions, sc: Script, made: seq<Call>): seq<Call> {
    var first := sc.delete(|made|);
    if o.allowRemediation && (first == Failed(AccessDenied) || first == Failed(ReparsePointRefused)) then
      made + [Delete, Remediate] + if sc.remediate(|made| + 1) then [Delete] else []
    else made + [Delete]
  }

  /** A repair of a lock: tried if asked for and the file is in use, and followed by a delete call if it works. */
  function LockCalls(sc: Script, asked: bool, repair: Call, before: seq<Call>): seq<Call> {
    if asked && LastOutcome(sc, before) == Some(Failed(SharingViolation)) then
      before + [repair] + if Works(sc, repair, |before|) then [Delete] else []
    else before
  }

  /** The repairs, one after the other; a directory gets no lock repair. */
  function AllCalls(o: DeleteOptions, leaf: bool, sc: Script, made: seq<Call>): seq<Call> {
    var first := FirstCalls(o, sc, made);
    var local := LockCalls(sc, leaf && o.killLocks, ResolveLocal, first);
    LockCalls(sc, leaf && o.closeRemoteLocks, ResolveRemote, local)
  }

  lemma RemoteCalls(o: DeleteOptions, outcome: Outcome, n: Tally, sc: Script, made: seq<Call>)
    requires LastOutcome(sc, made) == Some(outcome)
    ensures var r := RunStages(o, true, TryRemote(o, true, outcome), n, sc, made);
            && r.2 == LockCalls(sc, o.closeRemoteLocks, ResolveRemote, made)
            && (r.0 == (if r.2 == made || sc.remoteLock(|made|).Resolved? then LastOutcome(sc, r.2).value
                        else Failed(if sc.remoteLock(|made|).Unsupported? then RemoteLockUnsupported
                                    else RemoteLockFailed)))
  {
    if outcome == Failed(SharingViolation) && o.closeRemoteLocks {
      OneMoreCall(sc, made, ResolveRemote);
      OneMoreCall(sc, made + [ResolveRemote], Delete);
      assert made + [ResolveRemote] + [] == made + [ResolveRemote];
      RemoteLockStep(o, n, sc, made);
    }
  }

  lemma LocalCalls(o: DeleteOptions, outcome: Outcome, n: Tally, sc: Script, made: seq<Call>) returns (m: Tally)
    requires LastOutcome(sc, made) == Some(outcome)
    ensures var calls := LockCalls(sc, o.killLocks, ResolveLocal, made);
            && LastOutcome(sc, calls).Some?
            && RunStages(o, true, TryLocal(o, true, outcome), n, sc, made)
               == RunStages(o, true, TryRemote(o, true, LastOutcome(sc, calls).value), m, sc, calls)
  {
    m := n;
    if outcome == Failed(SharingViolation) && o.killLocks {
      OneMoreCall(sc, made, ResolveLocal);
      OneMoreCall(sc, made + [ResolveLocal], Delete);
      assert made + [ResolveLocal] + [] == made + [ResolveLocal];
      LocalLockStep(o, n, sc, made);
      if sc.localLock(|made|).Resolved? {
        m := n.(localLocksResolved := n.localLocksResolved + 1, retries := n.retries + 1);
      }
    }
  }

  lemma CallsBeforeLocks(o: DeleteOptions, leaf: bool, n: Tally, sc: Script, made: seq<Call>) returns (m: Tally)
    ensures var calls := FirstCalls(o, sc, made);
            && LastOutcome(sc, calls).Some?
            && RunStages(o, leaf, First, n, sc, made)
               == RunStages(o, leaf, TryLocal(o, leaf, LastOutcome(sc, calls).value), m, sc, calls)
  {
    m := n;
    var first := sc.delete(|made|);
    RemediationStep(o, leaf, n, sc, made);
    OneMoreCall(sc, made, Delete);
    if o.allowRemediation && (first == Failed(AccessDenied) || first == Failed(ReparsePointRefused)) {
      var two := made + [Delete] + [Remediate];
      OneMoreCall(sc, made + [Delete], Remediate);
      OneMoreCall(sc, two, Delete);
      assert two == made + [Delete, Remediate];
      assert two + [] == two;
      m := n.(remediationAttempts := n.remediationAttempts + 1);
      if sc.remediate(|made| + 1) {
        m := m.(remediationSuccesses := m.remediationSuccesses + 1, retries := m.retries + 1);
      }
    }
  }

  /**
   The calls that are made, and what is reported in the end: the engine's last word on the delete, unless a remote lock
   could not be closed.
   */
  lemma CallsMade(o: DeleteOptions, leaf: bool, n: Tally, sc: Script, made: seq<Call>)
    ensures var r := RunStages(o, leaf, First, n, sc, made);
            && r.2 == AllCalls(o, leaf, sc, made)
            && |r.2| > 0 && LastOutcome(sc, r.2).Some?
            && var k := |r.2| - 1;
            r.0 == if r.2[k] != ResolveRemote then LastOutcome(sc, r.2).value
                   else Failed(if sc.remoteLock(k).Unsupported? then RemoteLockUnsupported else RemoteLockFailed)
  {
    hide RunStages, Advance;
    var m := CallsBeforeLocks(o, leaf, n, sc, made);
    var first := FirstCalls(o, sc, made);
    assert first[|first| - 1] != ResolveRemote && first[|first| - 1] != ResolveLocal;
    if leaf {
      var l := LocalCalls(o, LastOutcome(sc, first).value, m, sc, first);
      var local := LockCalls(sc, o.killLocks, ResolveLocal, first);
      assert local[|local| - 1] != ResolveRemote;
      RemoteCalls(o, LastOutcome(sc, local).value, l, sc, local);
      LastCallIs(sc, o.closeRemoteLocks, local);
    } else {
      Stops(o, leaf, LastOutcome(sc, first).value, m, sc, first);
    }
  }

  lemma LastCallIs(sc: Script, asked: bool, before: seq<Call>)
    requires |before| > 0 && before[|before| - 1] != ResolveRemote && LastOutcome(sc, before).Some?
    ensures var calls := LockCalls(sc, asked, ResolveRemote, before);
            && |calls| > 0 && LastOutcome(sc, calls).Some?
            && (calls[|calls| - 1] == ResolveRemote <==> calls != before && !sc.remoteLock(|before|).Resolved?)
            && (calls[|calls| - 1] == ResolveRemote ==> |calls| == |before| + 1)
  {
    OneMoreCall(sc, before, ResolveRemote);
    OneMoreCall(sc, before + [ResolveRemote], Delete);
    assert before + [ResolveRemote] + [] == before + [ResolveRemote];
  }

  lemma Stops(o: DeleteOptions, leaf: bool, outcome: Outcome, n: Tally, sc: Script, made: seq<Call>)
    requires !leaf
    ensures RunStages(o, leaf, TryLocal(o, leaf, outcome), n, sc, made) == (outcome, n, made)
  {
  }

  /**
   Nothing is repaired that the options do not allow: no call is made for it and no counter moves. A repair of
   permissions is tried exactly if it is allowed and the first delete was refused for want of them, and a lock is only
   touched while the file is in use.
   */
  lemma OptionsAreObeyed(o: DeleteOptions, leaf: bool, n: Tally, sc: Script, made: seq<Call>)
    ensures var m, all := RunStages(o, leaf, First, n, sc, made).1, RunStages(o, leaf, First, n, sc, made).2;
            && made <= all
            && (!o.allowRemediation ==>
                  Remediate !in all[|made|..]
                  && m.remediationAttempts == n.remediationAttempts && m.remediationSuccesses == n.remediationSuccesses)
            && (!(leaf && o.killLocks) ==>
                  ResolveLocal !in all[|made|..] && m.localLocksResolved == n.localLocksResolved)
            && (!(leaf && o.closeRemoteLocks) ==>
                  ResolveRemote !in all[|made|..] && m.remoteLocksResolved == n.remoteLocksResolved)
            && m.remediationAttempts
               == n.remediationAttempts
                + (if o.allowRemediation
                      && (sc.delete(|made|) == Failed(AccessDenied) || sc.delete(|made|) == Failed(ReparsePointRefused))
                   then 1 else 0)
            && (forall k :: |made| <= k < |all| && (all[k] == ResolveLocal || all[k] == ResolveRemote) ==>
                  LastOutcome(sc, all[..k]) == Some(Failed(SharingViolation)))
  {
    hide RunStages, FirstCalls, LockCalls, LastOutcome, Count, Worked;
    CallsMade(o, leaf, n, sc, made);
    CallsAreCounted(o, leaf, First, n, sc, made);
    var first := FirstCalls(o, sc, made);
    var local := LockCalls(sc, leaf && o.killLocks, ResolveLocal, first);
    FirstCallsCounted(o, sc, made);
    LockCallsCounted(sc, leaf && o.killLocks, ResolveLocal, first);
    LockCallsCounted(sc, leaf && o.closeRemoteLocks, ResolveRemote, local);
    var all := LockCalls(sc, leaf && o.closeRemoteLocks, ResolveRemote, local);
    forall k | |made| <= k < |all| && (all[k] == ResolveLocal || all[k] == ResolveRemote)
      ensures LastOutcome(sc, all[..k]) == Some(Failed(SharingViolation))
    {
      if k < |local| {
        assert all[..k] == local[..k] && all[k] == local[k];
      }
    }
  }

  lemma FirstCallsCounted(o: DeleteOptions, sc: Script, made: seq<Call>)
    ensures var calls, first := FirstCalls(o, sc, made), sc.delete(|made|);
            && made <= calls
            && (forall k :: |made| <= k < |calls| ==> calls[k] == Delete || calls[k] == Remediate)
            && Count(calls, Remediate)
               == Count(made, Remediate)
                + (if o.allowRemediation && (first == Failed(AccessDenied) || first == Failed(ReparsePointRefused))
                   then 1 else 0)
            && (!o.allowRemediation ==>
                  Remediate !in calls[|made|..] && Worked(sc, calls, Remediate) == Worked(sc, made, Remediate))
            && Worked(sc, calls, ResolveLocal) == Worked(sc, made, ResolveLocal)
            && Worked(sc, calls, ResolveRemote) == Worked(sc, made, ResolveRemote)
  {
    OneMoreCall(sc, made, Delete);
    OneMoreCall(sc, made + [Delete], Remediate);
    OneMoreCall(sc, made + [Delete] + [Remediate], Delete);
    assert made + [Delete, Remediate] == made + [Delete] + [Remediate];
    assert made + [Delete, Remediate] + [] == made + [Delete, Remediate];
  }

  lemma LockCallsCounted(sc: Script, asked: bool, repair: Call, before: seq<Call>)
    requires repair == ResolveLocal || repair == ResolveRemote
    ensures var calls := LockCalls(sc, asked, repair, before);
            && before <= calls
            && (forall c :: c != repair && c != Delete ==>
                  Count(calls, c) == Count(before, c) && Worked(sc, calls, c) == Worked(sc, before, c))
            && (forall k :: |before| <= k < |calls| ==> calls[k] == Delete || (asked && calls[k] == repair))
            && (!asked ==> calls == before)
            && (forall k :: |before| <= k < |calls| && calls[k] == repair ==>
                  LastOutcome(sc, calls[..k]) == Some(Failed(SharingViolation)))
  {
    OneMoreCall(sc, before, repair);
    OneMoreCall(sc, before + [repair], Delete);
    assert before + [repair] + [] == before + [repair];
    var calls := LockCalls(sc, asked, repair, before);
    assert calls[..|before|] == before;
  }

  // ---------------------------------------------------------------------------------------------------------------
  // The methods
  // ---------------------------------------------------------------------------------------------------------------

  /** The engine as an object: it answers from its script and remembers its calls. */
  class Engine {
    const script: Script
    var made: seq<Call>

    constructor (script: Script)
      ensures this.script == script && made == []
    {
      this.script := script;
      made := [];
    }

    method DeleteEntry() returns (outcome: Outcome)
      modifies this
      ensures outcome == script.delete(|old(made)|) && made == old(made) + [Delete]
    {
      outcome := script.delete(|made|);
      made := made + [Delete];
    }

    method RemediateEntry() returns (applied: bool)
      modifies this
      ensures applied == script.remediate(|old(made)|) && made == old(made) + [Remediate]
    {
      applied := script.remediate(|made|);
      made := made + [Remediate];
    }

    method ResolveLocalLock() returns (resolution: LockResolution)
      modifies this
      ensures resolution == script.localLock(|old(made)|) && made == old(made) + [ResolveLocal]
    {
      resolution := script.localLock(|made|);
      made := made + [ResolveLocal];
    }

    method ResolveRemoteLock() returns (resolution: LockResolution)
      modifies this
      ensures resolution == script.remoteLock(|old(made)|) && made == old(made) + [ResolveRemote]
    {
      resolution := script.remoteLock(|made|);
      made := made + [ResolveRemote];
    }
  }

  /** The operation's counters, as shared by reference between the workers. */
  class OperationMetrics {
    var tally: Tally

    constructor ()
      ensures tally == Tally(0, 0, 0, 0, 0)
    {
      tally := Tally(0, 0, 0, 0, 0);
    }
  }

  lemma RemediationStep(o: DeleteOptions, leaf: bool, n: Tally, sc: Script, made: seq<Call>)
    ensures var first := sc.delete(|made|);
            RunStages(o, leaf, First, n, sc, made)
            == if first.Failed? && o.allowRemediation && IsRemediable(first.category) then
                 var m := n.(remediationAttempts := n.remediationAttempts + 1);
                 if sc.remediate(|made| + 1) then
                   RunStages(o, leaf, TryLocal(o, leaf, sc.delete(|made| + 2)),
                             m.(remediationSuccesses := m.remediationSuccesses + 1, retries := m.retries + 1), sc,
                             made + [Delete] + [Remediate] + [Delete])
                 else RunStages(o, leaf, TryLocal(o, leaf, first), m, sc, made + [Delete] + [Remediate])
               else RunStages(o, leaf, TryLocal(o, leaf, first), n, sc, made + [Delete])
  {
  }

  method DeleteWithRemediation(engine: Engine, o: DeleteOptions, metrics: OperationMetrics) returns (attempt: Outcome)
    modifies engine, metrics
    ensures (attempt, metrics.tally, engine.made)
            == RunStages(o, false, First, old(metrics.tally), engine.script, old(engine.made))
  {
    RemediationStep(o, false, metrics.tally, engine.script, engine.made);
    attempt := engine.DeleteEntry();
    if attempt.Failed? && o.allowRemediation && IsRemediable(attempt.category) {
      metrics.tally := metrics.tally.(remediationAttempts := metrics.tally.remediationAttempts + 1);
      var applied := engine.RemediateEntry();
      if applied {
        metrics.tally := metrics.tally.(remediationSuccesses := metrics.tally.remediationSuccesses + 1);
        metrics.tally := metrics.tally.(retries := metrics.tally.retries + 1);
        attempt := engine.DeleteEntry();
      }
    }
  }

  /** A leaf goes through the same first part as a directory, then through the lock repairs. */
  lemma LeafAfterRemediation(o: DeleteOptions, n: Tally, sc: Script, made: seq<Call>)
    ensures var r := RunStages(o, false, First, n, sc, made);
            RunStages(o, true, First, n, sc, made) == RunStages(o, true, TryLocal(o, true, r.0), r.1, sc, r.2)
  {
    RemediationStep(o, false, n, sc, made);
    RemediationStep(o, true, n, sc, made);
  }

  lemma LocalLockStep(o: DeleteOptions, n: Tally, sc: Script, made: seq<Call>)
    ensures RunStages(o, true, LocalLock, n, sc, made)
            == if sc.localLock(|made|).Resolved? then
                 RunStages(o, true, TryRemote(o, true, sc.delete(|made| + 1)),
                           n.(localLocksResolved := n.localLocksResolved + 1, retries := n.retries + 1), sc,
                           made + [ResolveLocal] + [Delete])
               else
                 RunStages(o, true, TryRemote(o, true, Failed(SharingViolation)), n, sc, made + [ResolveLocal])
  {
  }

  lemma RemoteLockStep(o: DeleteOptions, n: Tally, sc: Script, made: seq<Call>)
    ensures RunStages(o, true, RemoteLock, n, sc, made)
            == match sc.remoteLock(|made|)
               case Resolved => (sc.delete(|made| + 1),
                                 n.(remoteLocksResolved := n.remoteLocksResolved + 1, retries := n.retries + 1),
                                 made + [ResolveRemote] + [Delete])
               case Unsupported => (Failed(RemoteLockUnsupported), n, made + [ResolveRemote])
               case Unresolved => (Failed(RemoteLockFailed), n, made + [ResolveRemote])
  {
  }

  /** The `--kill-locks` block of `process_one`. */
  method ResolveLocalLock(engine: Engine, o: DeleteOptions, metrics: OperationMetrics, before: Outcome)
    returns (attempt: Outcome)
    modifies engine, metrics
    ensures RunStages(o, true, TryRemote(o, true, attempt), metrics.tally, engine.script, engine.made)
            == RunStages(o, true, TryLocal(o, true, before), old(metrics.tally), engine.script, old(engine.made))
  {
    attempt := before;
    if attempt == Failed(SharingViolation) && o.killLocks {
      LocalLockStep(o, metrics.tally, engine.script, engine.made);
      var local := engine.ResolveLocalLock();
      if local.Resolved? {
        metrics.tally := metrics.tally.(localLocksResolved := metrics.tally.localLocksResolved + 1);
        metrics.tally := metrics.tally.(retries := metrics.tally.retries + 1);
        attempt := engine.DeleteEntry();
      }
    }
  }

  /** The `--close-remote-locks` block of `process_one`. */
  method ResolveRemoteLock(engine: Engine, o: DeleteOptions, metrics: OperationMetrics, before: Outcome)
    returns (attempt: Outcome)
    modifies engine, metrics
    ensures (attempt, metrics.tally, engine.made)
            == RunStages(o, true, TryRemote(o, true, before), old(metrics.tally), engine.script, old(engine.made))
  {
    attempt := before;
    if attempt == Failed(SharingViolation) && o.closeRemoteLocks {
      RemoteLockStep(o, metrics.tally, engine.script, engine.made);
      var remote := engine.ResolveRemoteLock();
      match remote {
        case Resolved =>
          metrics.tally := metrics.tally.(remoteLocksResolved := metrics.tally.remoteLocksResolved + 1);
          metrics.tally := metrics.tally.(retries := metrics.tally.retries + 1);
          attempt := engine.DeleteEntry();
        case Unsupported =>
          attempt := Failed(RemoteLockUnsupported);
        case Unresolved =>
          attempt := Failed(RemoteLockFailed);
      }
    }
  }

  method ProcessOne(engine: Engine, o: DeleteOptions, metrics: OperationMetrics) returns (attempt: Outcome)
    modifies engine, metrics
    ensures (attempt, metrics.tally, engine.made)
            == RunStages(o, true, First, old(metrics.tally), engine.script, old(engine.made))
  {
    LeafAfterRemediation(o, metrics.tally, engine.script, engine.made);
    attempt := DeleteWithRemediation(engine, o, metrics);
    attempt := ResolveLocalLock(engine, o, metrics, attempt);
    attempt := ResolveRemoteLock(engine, o, metrics, attempt);
  }
}
