/** Conservation: the counters, the failure log and the retry tally agree with what happened to the entries. */
module PipelineLedger {
  import opened Wrappers
  import opened DirectoryTracking
  import opened Attempts
  import opened Report
  import opened Pipeline
  import opened PipelineInvariant
  import opened PipelineSteps
  import opened PipelineReach

  // ---------------------------------------------------------------------------------------------------------------
  // Sums over entries and over threads
  // ---------------------------------------------------------------------------------------------------------------

  datatype Counter = FilesDeleted | FilesRetained | FilesFailed | BytesDeleted | DirsDeleted | DirsRetained | DirsFailed

  function Weight(evs: Stream, verdict: map<nat, Verdict>, k: Counter, i: nat): nat {
    if i !in verdict then 0 else
    match k
    case FilesDeleted => if IsLeaf(evs, i) && verdict[i].WasDeleted? then 1 else 0
    case FilesRetained => if IsLeaf(evs, i) && verdict[i].WasRetained? then 1 else 0
    case FilesFailed => if IsLeaf(evs, i) && verdict[i].HasFailed? then 1 else 0
    case BytesDeleted => if IsLeaf(evs, i) && verdict[i].WasDeleted? then SizeOf(evs, i) else 0
    case DirsDeleted => if IsDir(evs, i) && verdict[i].WasDeleted? then 1 else 0
    case DirsRetained => if IsDir(evs, i) && verdict[i].WasRetained? then 1 else 0
    case DirsFailed => if IsDir(evs, i) && verdict[i].HasFailed? then 1 else 0
  }

  /** A counter as the verdicts on the first n entries determine it. */
  function Total(evs: Stream, verdict: map<nat, Verdict>, k: Counter, n: nat): nat {
    if n == 0 then 0 else Total(evs, verdict, k, n - 1) + Weight(evs, verdict, k, n - 1)
  }

  lemma {:induction false} TotalAdds(evs: Stream, verdict: map<nat, Verdict>, i: nat, v: Verdict, k: Counter, n: nat)
    requires i !in verdict
    ensures Total(evs, verdict[i := v], k, n)
            == Total(evs, verdict, k, n) + if i < n then Weight(evs, verdict[i := v], k, i) else 0
  {
    if n > 0 {
      TotalAdds(evs, verdict, i, v, k, n - 1);
    }
  }

  /** How many of the first n events satisfy one of three descriptions. */
  datatype EventKind = AnyLeaf | AnyDir | AnyFailure

  predicate OfKind(evs: Stream, k: EventKind, i: nat) {
    match k
    case AnyLeaf => IsLeaf(evs, i)
    case AnyDir => IsDir(evs, i)
    case AnyFailure => i < |evs| && evs[i].Unlistable?
  }

  function CountEvents(evs: Stream, k: EventKind, n: nat): nat {
    if n == 0 then 0 else CountEvents(evs, k, n - 1) + if OfKind(evs, k, n - 1) then 1 else 0
  }

  /** A failure has been counted and is about to be logged. */
  predicate IsLogging(pc: Pc) {
    pc.LogListing? || pc.LogLeaf? || pc.LogDir?
  }

  function Logging(threads: seq<Pc>): nat {
    if |threads| == 0 then 0 else
    Logging(threads[..|threads| - 1]) + if IsLogging(threads[|threads| - 1]) then 1 else 0
  }

  lemma {:induction false} LoggingMoves(threads: seq<Pc>, t: nat, pc: Pc)
    requires t < |threads|
    ensures Logging(threads[t := pc]) + (if IsLogging(threads[t]) then 1 else 0)
            == Logging(threads) + if IsLogging(pc) then 1 else 0
  {
    var n := |threads| - 1;
    if t == n {
      assert threads[t := pc][..n] == threads[..n];
    } else {
      LoggingMoves(threads[..n], t, pc);
      assert threads[t := pc][..n] == threads[..n][t := pc];
    }
  }

  lemma {:induction false} LoggingNone(threads: seq<Pc>)
    requires forall t :: 0 <= t < |threads| ==> !IsLogging(threads[t])
    ensures Logging(threads) == 0
  {
    if |threads| > 0 {
      LoggingNone(threads[..|threads| - 1]);
    }
  }

  // ---------------------------------------------------------------------------------------------------------------
  // The ledger
  // ---------------------------------------------------------------------------------------------------------------

  /** Every verdict counter is the sum of the verdicts. */
  ghost predicate Tallied(c: Config, verdict: map<nat, Verdict>, m: Metrics, consumed: nat) {
    var n := |c.evs|;
    && m.filesDeleted == Total(c.evs, verdict, FilesDeleted, n)
    && m.filesRetained == Total(c.evs, verdict, FilesRetained, n)
    && m.bytesDeleted == Total(c.evs, verdict, BytesDeleted, n)
    && m.dirsDeleted == Total(c.evs, verdict, DirsDeleted, n)
    && m.dirsRetained == Total(c.evs, verdict, DirsRetained, n)
    && m.failures == Total(c.evs, verdict, FilesFailed, n) + Total(c.evs, verdict, DirsFailed, n)
                   + CountEvents(c.evs, AnyFailure, consumed)
  }

  ghost predicate Scanned(c: Config, s: State) {
    && |s.threads| > 0
    && s.books.metrics.dirsScanned == CountEvents(c.evs, AnyDir, s.consumed)
    && s.books.metrics.filesScanned + (if s.threads[0].NewLeaf? then 1 else 0)
       == CountEvents(c.evs, AnyLeaf, s.consumed)
  }

  /** Each retry has one recorded cause. */
  predicate RetriesExplained(n: Tally) {
    n.retries == n.remediationSuccesses + n.localLocksResolved + n.remoteLocksResolved
  }

  /** The log holds what MAX_STORED_FAILURES allows of what was pushed. */
  predicate LogFits(log: Log, pushed: nat) {
    && |log.stored| == (if pushed <= MAX_STORED_FAILURES then pushed else MAX_STORED_FAILURES)
    && (log.truncated <==> pushed > MAX_STORED_FAILURES)
  }

  ghost predicate Ledger(c: Config, s: State) {
    && Tallied(c, s.verdict, s.books.metrics, s.consumed)
    && Scanned(c, s)
    && RetriesExplained(s.books.tally)
    && LogFits(s.books.log, s.books.pushed)
    && s.books.metrics.failures == s.books.pushed + Logging(s.threads)
  }

  /** What the books say about one counter is right; the two failure counters are kept as one. */
  ghost predicate CounterFits(c: Config, s: State, k: Counter) {
    var m, n := s.books.metrics, |c.evs|;
    match k
    case FilesDeleted => m.filesDeleted == Total(c.evs, s.verdict, k, n)
    case FilesRetained => m.filesRetained == Total(c.evs, s.verdict, k, n)
    case BytesDeleted => m.bytesDeleted == Total(c.evs, s.verdict, k, n)
    case DirsDeleted => m.dirsDeleted == Total(c.evs, s.verdict, k, n)
    case DirsRetained => m.dirsRetained == Total(c.evs, s.verdict, k, n)
    case _ =>
      m.failures == Total(c.evs, s.verdict, FilesFailed, n) + Total(c.evs, s.verdict, DirsFailed, n)
                    + CountEvents(c.evs, AnyFailure, s.consumed)
  }

  /** What the ledger says in view of one counter. */
  ghost predicate LedgerFor(c: Config, s: State, k: Counter) {
    && CounterFits(c, s, k)
    && Scanned(c, s)
    && RetriesExplained(s.books.tally)
    && LogFits(s.books.log, s.books.pushed)
    && s.books.metrics.failures == s.books.pushed + Logging(s.threads)
  }

  /** The ledger, counter by counter: the form in which the proofs about single steps establish it. */
  ghost predicate Booked(c: Config, s: State) {
    forall k: Counter :: LedgerFor(c, s, k)
  }

  lemma {:induction false} NothingCounted(evs: Stream, k: Counter, n: nat)
    ensures Total(evs, map[], k, n) == 0
  {
    if n > 0 {
      NothingCounted(evs, k, n - 1);
    }
  }

  /** The first event is the target itself. */
  lemma FirstEventCounted(evs: Stream)
    requires |evs| > 0 && evs[0].Root?
    ensures CountEvents(evs, AnyDir, 1) == 1
    ensures CountEvents(evs, AnyLeaf, 1) == 0 && CountEvents(evs, AnyFailure, 1) == 0
  {
    assert CountEvents(evs, AnyDir, 0) == CountEvents(evs, AnyLeaf, 0) == CountEvents(evs, AnyFailure, 0) == 0;
  }

  /** The books before anything has happened. */
  predicate Fresh(c: Config, s: State) {
    && s.books == Books(Metrics(0, 1, 0, 0, 0, 0, 0, 0), Tally(0, 0, 0, 0, 0), EMPTY_LOG, 0)
    && s.consumed == 1 && s.verdict == map[] && |c.evs| > 0 && c.evs[0].Root?
  }

  lemma InitCounter(c: Config, s: State, k: Counter)
    requires Fresh(c, s)
    ensures CounterFits(c, s, k)
  {
    FirstEventCounted(c.evs);
    NothingCounted(c.evs, k, |c.evs|);
    NothingCounted(c.evs, FilesFailed, |c.evs|);
    NothingCounted(c.evs, DirsFailed, |c.evs|);
    hide Total, CountEvents;
  }

  lemma InitLedgerFor(c: Config, s: State, k: Counter)
    requires |s.threads| > 0 && s.threads[0] == Idle && Logging(s.threads) == 0 && Fresh(c, s)
    ensures LedgerFor(c, s, k)
  {
    InitCounter(c, s, k);
    FirstEventCounted(c.evs);
    hide CounterFits, CountEvents, Logging;
  }

  lemma InitLedger(c: Config, s: State)
    requires ValidConfig(c) && IsInit(c, s)
    ensures Booked(c, s)
  {
    hide WellFormed, LedgerFor;
    LoggingNone(s.threads);
    RootComesFirst(c);
    forall k: Counter ensures LedgerFor(c, s, k) {
      InitLedgerFor(c, s, k);
    }
  }

  lemma RootComesFirst(c: Config)
    requires ValidConfig(c)
    ensures |c.evs| > 0 && c.evs[0].Root?
  {
  }

  /** A step that counts nothing. */
  ghost predicate CountsNothing(s: State, s': State, t: nat) {
    && t < |s.threads| == |s'.threads|
    && s'.threads == s.threads[t := s'.threads[t]]
    && s'.verdict == s.verdict && s'.consumed == s.consumed
    && s'.books.metrics == s.books.metrics
    && RetriesExplained(s'.books.tally)
    && s'.books.log == s.books.log && s'.books.pushed == s.books.pushed
    && IsLogging(s'.threads[t]) == IsLogging(s.threads[t])
    && (t == 0 ==> s'.threads[0].NewLeaf? == s.threads[0].NewLeaf?)
  }

  lemma CountsNothingLedger(c: Config, s: State, s': State, t: nat)
    requires Ledger(c, s) && CountsNothing(s, s', t)
    ensures Booked(c, s')
  {
    LoggingMoves(s.threads, t, s'.threads[t]);
  }

  /** A step that counts one entry. */
  ghost predicate CountsOne(c: Config, s: State, s': State, t: nat, i: nat, v: Verdict) {
    && t < |s.threads| == |s'.threads|
    && s'.threads == s.threads[t := s'.threads[t]]
    && i !in s.verdict && s'.verdict == s.verdict[i := v] && IsEntry(c.evs, i)
    && s'.consumed == s.consumed
    && s'.books == s.books.(metrics := if IsLeaf(c.evs, i) then CountLeaf(c.evs, s.books.metrics, i, v)
                                       else CountDir(s.books.metrics, v))
    && !IsLogging(s.threads[t]) && (IsLogging(s'.threads[t]) <==> v == HasFailed)
    && !s.threads[t].NewLeaf? && !s'.threads[t].NewLeaf?
  }

  lemma CountsOneLedger(c: Config, s: State, s': State, t: nat, i: nat, v: Verdict)
    requires Ledger(c, s) && CountsOne(c, s, s', t, i, v)
    ensures Booked(c, s')
  {
    LoggingMoves(s.threads, t, s'.threads[t]);
    forall k: Counter
      ensures Total(c.evs, s'.verdict, k, |c.evs|)
              == Total(c.evs, s.verdict, k, |c.evs|) + Weight(c.evs, s'.verdict, k, i)
    {
      TotalAdds(c.evs, s.verdict, i, v, k, |c.evs|);
    }
  }

  /** A step that pushes a counted failure to the log. */
  lemma LogsLedger(c: Config, s: State, s': State, t: nat, category: Category)
    requires Ledger(c, s) && t < |s.threads| == |s'.threads| && IsLogging(s.threads[t])
    requires s'.threads == s.threads[t := s'.threads[t]] && !IsLogging(s'.threads[t]) && !s'.threads[t].NewLeaf?
    requires s'.verdict == s.verdict && s'.consumed == s.consumed
    requires s'.books == Pushed(s.books, category)
    ensures Booked(c, s')
  {
    LoggingMoves(s.threads, t, s'.threads[t]);
  }

  // ---------------------------------------------------------------------------------------------------------------
  // Every step
  // ---------------------------------------------------------------------------------------------------------------

  /** A received event is counted by its kind. */
  ghost predicate CountsEvent(c: Config, s: State, s': State) {
    var m, m' := s.books.metrics, s'.books.metrics;
    var i := s.consumed;
    && 0 < |s.threads| == |s'.threads|
    && s'.threads == s.threads[0 := s'.threads[0]]
    && s.threads[0] == Idle
    && s'.verdict == s.verdict && s'.consumed == i + 1
    && s'.books == s.books.(metrics := m')
    && (s'.threads[0].NewLeaf? <==> IsLeaf(c.evs, i))
    && (IsLogging(s'.threads[0]) <==> OfKind(c.evs, AnyFailure, i))
    && m' == m.(dirsScanned := m.dirsScanned + (if IsDir(c.evs, i) then 1 else 0),
                failures := m.failures + (if OfKind(c.evs, AnyFailure, i) then 1 else 0))
  }

  lemma CountsEventLedger(c: Config, s: State, s': State)
    requires Ledger(c, s) && CountsEvent(c, s, s')
    ensures Booked(c, s')
  {
    LoggingMoves(s.threads, 0, s'.threads[0]);
  }

  lemma ReceiveCounts(c: Config, s: State)
    requires Sane(c, s) && s.threads[0] == Idle && s.consumed < s.emitted
    ensures CountsEvent(c, s, StepReceive(c, s, 0))
  {
  }

  lemma ReceiveLedger(c: Config, s: State)
    requires Sane(c, s) && Ledger(c, s) && s.threads[0] == Idle && s.consumed < s.emitted
    ensures Booked(c, StepReceive(c, s, 0))
  {
    ReceiveCounts(c, s);
    CountsEventLedger(c, s, StepReceive(c, s, 0));
  }

  lemma CloseLedger(c: Config, s: State)
    requires Sane(c, s) && Ledger(c, s) && s.threads[0] == Idle && !(s.consumed < s.emitted)
    ensures Booked(c, StepReceive(c, s, 0))
  {
    CountsNothingLedger(c, s, StepReceive(c, s, 0), 0);
  }

  lemma CheckLeafLedger(c: Config, s: State, i: nat)
    requires Sane(c, s) && ThreadFits(c, s, 0) && VerdictInv(c, s, i) && Ledger(c, s) && s.threads[0] == LeafCheck(i)
    ensures Booked(c, StepCheckLeaf(c, s, 0, i))
  {
    var s' := StepCheckLeaf(c, s, 0, i);
    if s'.threads[0].LeafSend? {
      CountsNothingLedger(c, s, s', 0);
    } else {
      CountsOneLedger(c, s, s', 0, i, s'.verdict[i]);
    }
  }

  lemma AnnounceLeafLedger(c: Config, s: State, i: nat)
    requires Sane(c, s) && Ledger(c, s) && s.threads[0] == NewLeaf(i)
    ensures Booked(c, StepAnnounceLeaf(c, s, 0, i))
  {
    LoggingMoves(s.threads, 0, LeafCheck(i));
  }

  lemma DeleteLeafLedger(c: Config, s: State, t: nat, i: nat, st: Stage, a: Answer)
    requires Sane(c, s) && Ledger(c, s) && t < |s.threads| && s.threads[t] == Deleting(i, st)
    requires st.Finished? || Answers(st, a)
    ensures Booked(c, StepDeleteLeaf(c, s, t, i, st, a))
  {
    if !st.Finished? {
      AdvanceProgress(c.options, true, st, s.books.tally, a);
    }
    CountsNothingLedger(c, s, StepDeleteLeaf(c, s, t, i, st, a), t);
  }

  lemma CountLeafLedger(c: Config, s: State, t: nat, i: nat, outcome: Outcome)
    requires Sane(c, s) && ThreadFits(c, s, t) && VerdictInv(c, s, i) && Ledger(c, s)
    requires s.threads[t] == Counting(i, outcome)
    ensures Booked(c, StepCountLeaf(c, s, t, i, outcome))
  {
    var s' := StepCountLeaf(c, s, t, i, outcome);
    CountsOneLedger(c, s, s', t, i, s'.verdict[i]);
  }

  lemma StartDirLedger(c: Config, s: State, t: nat, r: Ready)
    requires Sane(c, s) && ThreadFits(c, s, t) && VerdictInv(c, s, r.dir) && Ledger(c, s) && s.threads[t] == DirGot(r)
    ensures Booked(c, StepStartDir(c, s, t, r))
  {
    var s' := StepStartDir(c, s, t, r);
    if s'.threads[t].Forgetting? {
      CountsOneLedger(c, s, s', t, r.dir, s'.verdict[r.dir]);
    } else {
      CountsNothingLedger(c, s, s', t);
    }
  }

  lemma DeleteDirLedger(c: Config, s: State, t: nat, r: Ready, st: Stage, a: Answer)
    requires Sane(c, s) && ThreadFits(c, s, t) && VerdictInv(c, s, r.dir) && Ledger(c, s)
    requires s.threads[t] == DirDeleting(r, st) && (st.Finished? || Answers(st, a))
    ensures Booked(c, StepDeleteDir(c, s, t, r, st, a))
  {
    var s' := StepDeleteDir(c, s, t, r, st, a);
    if st.Finished? {
      CountsOneLedger(c, s, s', t, r.dir, s'.verdict[r.dir]);
    } else {
      AdvanceProgress(c.options, false, st, s.books.tally, a);
      CountsNothingLedger(c, s, s', t);
    }
  }

  lemma TakeLedger(c: Config, s: State, t: nat)
    requires Sane(c, s) && Ledger(c, s) && t < |s.threads| && s.threads[t] == Idle
    ensures Booked(c, StepTakeFile(c, s, t)) && Booked(c, StepTakeReady(c, s, t))
  {
    CountsNothingLedger(c, s, StepTakeFile(c, s, t), t);
    CountsNothingLedger(c, s, StepTakeReady(c, s, t), t);
  }

  lemma TailLedger(c: Config, s: State, t: nat, a: Answer)
    requires Sane(c, s) && ThreadFits(c, s, t) && Ledger(c, s) && CanRun(c, s, t, a)
    requires s.threads[t].Completing? || s.threads[t].Finalising? || s.threads[t].Sending? || s.threads[t].Forgetting?
             || s.threads[t].RootDone? || s.threads[t].Got?
    ensures Booked(c, Step(c, s, t, a))
  {
    CountsNothingLedger(c, s, Step(c, s, t, a), t);
  }

  lemma RegisterLedger(c: Config, s: State, a: Answer)
    requires Sane(c, s) && ThreadFits(c, s, 0) && Ledger(c, s) && CanRun(c, s, 0, a)
    requires s.threads[0].NewDir? || s.threads[0].NewDirPending? || s.threads[0].LeafSend? || s.threads[0].MarkDir?
             || s.threads[0].AwaitRoot? || s.threads[0].StopWorkers?
    ensures Booked(c, Step(c, s, 0, a))
  {
    CountsNothingLedger(c, s, Step(c, s, 0, a), 0);
  }

  lemma LogLedger(c: Config, s: State, t: nat, a: Answer)
    requires Sane(c, s) && Ledger(c, s) && CanRun(c, s, t, a) && IsLogging(s.threads[t])
    ensures Booked(c, Step(c, s, t, a))
  {
    var category := match s.threads[t]
                    case LogLeaf(_, k) => k
                    case LogDir(_, k) => k
                    case _ => Io;
    LogsLedger(c, s, Step(c, s, t, a), t, category);
  }

  lemma StepLedger(c: Config, s: State, t: nat, a: Answer)
    requires Core(c, s) && Ledger(c, s) && CanRun(c, s, t, a)
    ensures Booked(c, Step(c, s, t, a))
  {
    CoreParts(c, s, 0);
    assert ThreadFits(c, s, t);
    if Subject(s.threads[t]).Some? {
      CoreParts(c, s, Subject(s.threads[t]).value);
    }
    StepLedgerCases(c, s, t, a);
  }

  lemma StepLedgerCases(c: Config, s: State, t: nat, a: Answer)
    requires Sane(c, s) && ThreadFits(c, s, t) && Ledger(c, s) && CanRun(c, s, t, a)
    requires Subject(s.threads[t]).Some? ==> VerdictInv(c, s, Subject(s.threads[t]).value)
    ensures Booked(c, Step(c, s, t, a))
  {
    var pc := s.threads[t];
    if pc.Idle? {
      if t > 0 {
        TakeLedger(c, s, t);
      } else if s.consumed < s.emitted {
        ReceiveLedger(c, s);
      } else {
        CloseLedger(c, s);
      }
    } else if IsLogging(pc) {
      LogLedger(c, s, t, a);
    } else if pc.Completing? || pc.Finalising? || pc.Sending? || pc.Forgetting? || pc.RootDone? || pc.Got? {
      TailLedger(c, s, t, a);
    } else if pc.NewLeaf? {
      AnnounceLeafLedger(c, s, pc.i);
    } else if pc.LeafCheck? {
      CheckLeafLedger(c, s, pc.i);
    } else if pc.Deleting? {
      DeleteLeafLedger(c, s, t, pc.i, pc.stage, a);
    } else if pc.Counting? {
      CountLeafLedger(c, s, t, pc.i, pc.outcome);
    } else if pc.DirGot? {
      StartDirLedger(c, s, t, pc.r);
    } else if pc.DirDeleting? {
      DeleteDirLedger(c, s, t, pc.r, pc.stage, a);
    } else {
      RegisterLedger(c, s, a);
    }
  }

  lemma TakesLedger(c: Config, s: State, a: Action, s': State)
    requires Core(c, s) && Ledger(c, s) && Takes(c, s, a, s')
    ensures Booked(c, s')
  {
    if a.Run? {
      StepLedger(c, s, a.t, a.answer);
    }
  }

  /** The books are right in every state of every run. */
  lemma {:induction false} RunLedger(c: Config, states: seq<State>, actions: seq<Action>, k: nat)
    requires ValidConfig(c) && IsRun(c, states, actions) && k < |states|
    ensures Ledger(c, states[k])
  {
    if k == 0 {
      InitLedger(c, states[0]);
    } else {
      RunLedger(c, states, actions, k - 1);
      RunCore(c, states, actions, k - 1);
      assert TakesAt(c, states, actions, k - 1);
      TakesLedger(c, states[k - 1], actions[k - 1], states[k]);
    }
    assert LedgerFor(c, states[k], FilesDeleted) && LedgerFor(c, states[k], FilesRetained);
    assert LedgerFor(c, states[k], BytesDeleted) && LedgerFor(c, states[k], DirsDeleted);
    assert LedgerFor(c, states[k], DirsRetained) && LedgerFor(c, states[k], FilesFailed);
  }
}
