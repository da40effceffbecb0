/**
 The streaming delete pipeline as a transition system (crates/cursdel-core/src/pipeline.rs).

 An enumerator sends a stream of events to a coordinator; the coordinator registers directories, filters leaves and
 feeds a file queue; file workers and directory workers delete concurrently; the directory tracker decides when a
 directory may go. Each thread has a program counter, and one step of a thread is one access to shared memory: a
 tracker operation under its shard lock, a channel operation, an engine call, a semaphore operation, or a read of the
 cancellation flag. Counters are only read after every thread has been joined, so a counter update is made in the
 step next to it.

 Names. A directory or leaf is named by the position of its entry in the event stream; position 0 is the target
 itself, which `run` registers before anything else starts. The identifiers the enumerator allocates are such names
 up to renaming (see Walk.dfy).

 Three components of the state are history, not memory: `loc` (which part of the program is responsible for an
 entry), `verdict` (how an entry was counted) and `handed` (what was passed to an engine delete).
 */
module Pipeline {
  import opened Wrappers
  import opened DirectoryTracking
  import opened Attempts
  import opened Report

  datatype Event =
    | Root
    | Directory(parent: nat)
    | Leaf(parent: nat, size: nat, asDir: bool)
    | Listed(dir: nat)
    | Unlistable

  type Stream = seq<Event>

  predicate IsDir(evs: Stream, i: nat) {
    i < |evs| && (evs[i].Root? || evs[i].Directory?)
  }

  predicate IsLeaf(evs: Stream, i: nat) {
    i < |evs| && evs[i].Leaf?
  }

  predicate IsEntry(evs: Stream, i: nat) {
    IsDir(evs, i) || IsLeaf(evs, i)
  }

  predicate ChildOf(evs: Stream, i: nat, d: nat) {
    i < |evs| && (evs[i].Directory? || evs[i].Leaf?) && evs[i].parent == d
  }

  predicate ListedAt(evs: Stream, j: nat, d: nat) {
    j < |evs| && evs[j] == Listed(d)
  }

  function ParentOf(evs: Stream, i: nat): Option<nat> {
    if i < |evs| && (evs[i].Directory? || evs[i].Leaf?) then Some(evs[i].parent) else None
  }

  /**
   What the enumerator promises: a directory's entry precedes the entries naming it as their parent, those all
   precede its completion, and every directory is completed exactly once.
   */
  ghost predicate WellFormed(evs: Stream) {
    && |evs| > 0 && evs[0].Root?
    && (forall i :: 0 < i < |evs| ==> !evs[i].Root?)
    && (forall i, d :: ChildOf(evs, i, d) ==> d < i && IsDir(evs, d))
    && (forall j, d :: ListedAt(evs, j, d) ==> d < j && IsDir(evs, d))
    && (forall i, j, d :: ChildOf(evs, i, d) && ListedAt(evs, j, d) ==> i < j)
    && (forall j, k, d :: ListedAt(evs, j, d) && ListedAt(evs, k, d) ==> j == k)
    && (forall d :: IsDir(evs, d) ==> exists j :: ListedAt(evs, j, d))
  }

  datatype Config = Config(
    evs: Stream,
    retain: set<nat>,           // the leaves the filters retain
    dryRun: bool,
    preserveRoot: bool,
    options: DeleteOptions,
    dirWorkers: nat,
    fileWorkers: nat,
    enumCap: nat,
    fileCap: nat,
    dirCap: nat)

  ghost predicate ValidConfig(c: Config) {
    && WellFormed(c.evs)
    && 0 < c.dirWorkers && 0 < c.fileWorkers
    && 0 < c.enumCap && 0 < c.fileCap
  }

  /** Program counters. The comment says what the thread is about to do. */
  datatype Pc =
    | Idle                                          // receive from its channel
    // coordinator, which is also the thread that waits for the end
    | NewDir(i: nat)                                // insert the directory into the tracker
    | NewDirPending(i: nat)                         // add it to its parent's pending count
    | NewLeaf(i: nat)                               // add the leaf to its parent's pending count
    | LeafCheck(i: nat)                             // read the cancellation flag, then filter
    | LeafSend(i: nat)                              // send to the file queue
    | MarkDir(d: nat)                               // mark the directory's enumeration done
    | LogListing                                    // push a listing failure to the log
    | AwaitRoot                                     // receive root_done
    | StopWorkers                                   // raise the shutdown flag
    // file worker
    | Got(i: nat)                                   // acquire a permit
    | Deleting(i: nat, stage: Stage)                // the next engine call, or give the permit back when finished
    | Counting(i: nat, outcome: Outcome)            // count the outcome
    | LogLeaf(i: nat, category: Category)           // push the failure to the log
    // directory worker
    | DirGot(r: Ready)                              // decide what to do with a ready directory
    | DirDeleting(r: Ready, stage: Stage)           // the next engine call, or count when finished
    | LogDir(r: Ready, category: Category)          // push the failure to the log
    | Forgetting(r: Ready, kept: bool)              // forget the directory
    | RootDone(i: nat)                              // send root_done
    // any thread
    | Completing(i: nat, kept: bool)                // complete_child of the entry's parent, up to the ready check
    | Finalising(d: nat)                            // try_finalise
    | Sending(r: Ready)                             // send to the ready channel
    | Exited

  datatype Loc =
    | Announcing        // the coordinator has it and has not yet told its parent
    | Live              // a directory waiting for its listing or its children
    | FileQueue
    | ReadyQueue
    | Held(owner: nat)     // some thread has it
    | Settled

  datatype Verdict = WasDeleted | WasRetained | HasFailed

  datatype Metrics = Metrics(
    filesScanned: nat, dirsScanned: nat,
    filesDeleted: nat, dirsDeleted: nat,
    filesRetained: nat, dirsRetained: nat,
    bytesDeleted: nat, failures: nat)

  /** Everything that is only added to, and read when the run is over. */
  datatype Books = Books(
    metrics: Metrics,
    tally: Tally,
    log: Log,
    pushed: nat)                   // pushes made to the log

  datatype Disk = Disk(
    present: set<nat>,             // entries still there
    handed: set<nat>)              // history: entries passed to an engine delete

  /** Flags, the semaphore and the root_done channel. */
  datatype Control = Control(
    filesClosed: bool,             // the coordinator has dropped its end of the file queue
    granted: nat,
    capacity: nat,
    cancelled: bool,
    shutdown: bool,
    rootSent: nat,
    rootReceived: nat)

  datatype State = State(
    emitted: nat,                  // events sent by the enumerator
    consumed: nat,                 // events received by the coordinator
    threads: seq<Pc>,
    fileQ: seq<nat>,
    readyQ: seq<Ready>,
    tracker: Tracked,
    loc: map<nat, Loc>,            // history: where each entry is
    verdict: map<nat, Verdict>,    // history: how each entry was counted
    books: Books,
    disk: Disk,
    ctl: Control)

  function Entries(evs: Stream): set<nat> {
    set i | 0 <= i < |evs| && IsEntry(evs, i)
  }

  ghost predicate IsInit(c: Config, s: State) {
    && s.emitted == 1 && s.consumed == 1
    && |s.threads| == 1 + c.dirWorkers + c.fileWorkers
    && (forall t :: 0 <= t < |s.threads| ==> s.threads[t] == Idle)
    && s.fileQ == [] && !s.ctl.filesClosed && s.readyQ == []
    && s.tracker == Insert(map[], 0, None)
    && s.ctl.granted == 0 && s.ctl.capacity > 0
    && s.books.metrics == Metrics(0, 1, 0, 0, 0, 0, 0, 0)
    && s.books.tally == Tally(0, 0, 0, 0, 0)
    && s.books.log == EMPTY_LOG && s.books.pushed == 0
    && s.disk.present == Entries(c.evs)
    && !s.ctl.cancelled && !s.ctl.shutdown
    && s.ctl.rootSent == 0 && s.ctl.rootReceived == 0
    && s.loc == map[0 := Live] && s.verdict == map[] && s.disk.handed == {}
  }

  datatype Role = Coordinator | DirWorker | FileWorker

  function RoleOf(c: Config, t: nat): Role {
    if t == 0 then Coordinator else if t <= c.dirWorkers then DirWorker else FileWorker
  }

  datatype Action =
    | Emit                            // the enumerator sends its next event
    | Cancel                          // the user interrupts
    | Resize(n: nat)                  // the sampler changes the number of permits
    | Run(t: nat, answer: Answer)     // a thread takes its next step

  // ---------------------------------------------------------------------------------------------------------------
  // Steps
  // ---------------------------------------------------------------------------------------------------------------

  predicate CanRun(c: Config, s: State, t: nat, a: Answer) {
    t < |s.threads|
    && match s.threads[t]
       case Idle =>
         (match RoleOf(c, t)
          case Coordinator => s.consumed < s.emitted || s.emitted == |c.evs|
          case DirWorker => |s.readyQ| > 0 || s.ctl.shutdown
          case FileWorker => |s.fileQ| > 0 || s.ctl.filesClosed)
       case LeafSend(_) => |s.fileQ| < c.fileCap
       case Sending(_) => |s.readyQ| < c.dirCap
       case AwaitRoot => s.ctl.rootReceived < s.ctl.rootSent
       case RootDone(_) => s.ctl.rootSent == s.ctl.rootReceived
       case Got(_) => s.ctl.granted < s.ctl.capacity
       case Deleting(_, st) => st.Finished? || Answers(st, a)
       case DirDeleting(_, st) => st.Finished? || Answers(st, a)
       case Exited => false
       case _ => true
  }

  predicate Enabled(c: Config, s: State, a: Action) {
    match a
    case Emit => s.emitted < |c.evs| && s.emitted - s.consumed < c.enumCap
    case Cancel => true
    case Resize(_) => true
    case Run(t, answer) => CanRun(c, s, t, answer)
  }

  function Apply(c: Config, s: State, a: Action): State
    requires Enabled(c, s, a)
  {
    match a
    case Emit => s.(emitted := s.emitted + 1)
    case Cancel => s.(ctl := s.ctl.(cancelled := true))
    case Resize(n) => s.(ctl := s.ctl.(capacity := if n == 0 then 1 else n))
    case Run(t, answer) => Step(c, s, t, answer)
  }

  function Pushed(b: Books, category: Category): Books {
    b.(log := Push(b.log, category), pushed := b.pushed + 1)
  }

  function Step(c: Config, s: State, t: nat, a: Answer): State
    requires CanRun(c, s, t, a)
  {
    match s.threads[t]
    case Idle =>
      (match RoleOf(c, t)
       case Coordinator => StepReceive(c, s, t)
       case DirWorker => StepTakeReady(c, s, t)
       case FileWorker => StepTakeFile(c, s, t))
    case NewDir(i) => StepInsert(c, s, t, i)
    case NewDirPending(i) => StepAnnounceDir(c, s, t, i)
    case NewLeaf(i) => StepAnnounceLeaf(c, s, t, i)
    case LeafCheck(i) => StepCheckLeaf(c, s, t, i)
    case LeafSend(i) => StepQueueLeaf(s, t, i)
    case MarkDir(d) => StepMark(s, t, d)
    case LogListing => s.(threads := s.threads[t := Idle], books := Pushed(s.books, Io))
    case AwaitRoot => s.(threads := s.threads[t := StopWorkers], ctl := s.ctl.(rootReceived := s.ctl.rootReceived + 1))
    case StopWorkers => s.(threads := s.threads[t := Exited], ctl := s.ctl.(shutdown := true))
    case Got(i) => s.(threads := s.threads[t := Deleting(i, First)], ctl := s.ctl.(granted := s.ctl.granted + 1))
    case Deleting(i, st) => StepDeleteLeaf(c, s, t, i, st, a)
    case Counting(i, outcome) => StepCountLeaf(c, s, t, i, outcome)
    case LogLeaf(i, category) =>
      s.(threads := s.threads[t := Completing(i, true)], books := Pushed(s.books, category))
    case DirGot(r) => StepStartDir(c, s, t, r)
    case DirDeleting(r, st) => StepDeleteDir(c, s, t, r, st, a)
    case LogDir(r, category) =>
      s.(threads := s.threads[t := Forgetting(r, true)], books := Pushed(s.books, category))
    case Forgetting(r, kept) => StepForget(s, t, r, kept)
    case RootDone(i) => StepRootDone(s, t, i)
    case Completing(i, kept) => StepComplete(c, s, t, i, kept)
    case Finalising(d) => StepFinalise(s, t, d)
    case Sending(r) => StepSend(s, t, r)
    case Exited => s
  }

  /** The coordinator receives an event, or finds the channel closed and drained and closes the file queue. */
  function StepReceive(c: Config, s: State, t: nat): State
    requires t < |s.threads|
  {
    if s.consumed < s.emitted && s.consumed < |c.evs| then
      var i := s.consumed;
      match c.evs[i]
      case Root => s.(consumed := i + 1)
      case Directory(_) =>
        s.(consumed := i + 1, threads := s.threads[t := NewDir(i)], loc := s.loc[i := Announcing],
           books := s.books.(metrics := s.books.metrics.(dirsScanned := s.books.metrics.dirsScanned + 1)))
      case Leaf(_, _, _) =>
        s.(consumed := i + 1, threads := s.threads[t := NewLeaf(i)], loc := s.loc[i := Announcing])
      case Listed(d) =>
        s.(consumed := i + 1, threads := s.threads[t := MarkDir(d)])
      case Unlistable =>
        s.(consumed := i + 1, threads := s.threads[t := LogListing],
           books := s.books.(metrics := s.books.metrics.(failures := s.books.metrics.failures + 1)))
    else
      s.(threads := s.threads[t := AwaitRoot], ctl := s.ctl.(filesClosed := true))
  }

  function StepInsert(c: Config, s: State, t: nat, i: nat): State
    requires t < |s.threads|
  {
    s.(threads := s.threads[t := NewDirPending(i)], tracker := Insert(s.tracker, i, ParentOf(c.evs, i)))
  }

  function AnnounceTo(m: Tracked, parent: Option<nat>): Tracked {
    if parent.Some? then AddPending(m, parent.value) else m
  }

  function StepAnnounceDir(c: Config, s: State, t: nat, i: nat): State
    requires t < |s.threads|
  {
    s.(threads := s.threads[t := Idle], tracker := AnnounceTo(s.tracker, ParentOf(c.evs, i)), loc := s.loc[i := Live])
  }

  function StepAnnounceLeaf(c: Config, s: State, t: nat, i: nat): State
    requires t < |s.threads|
  {
    s.(threads := s.threads[t := LeafCheck(i)],
       tracker := AnnounceTo(s.tracker, ParentOf(c.evs, i)),
       loc := s.loc[i := Held(t)],
       books := s.books.(metrics := s.books.metrics.(filesScanned := s.books.metrics.filesScanned + 1)))
  }

  function SizeOf(evs: Stream, i: nat): nat {
    if IsLeaf(evs, i) then evs[i].size else 0
  }

  function CountLeaf(evs: Stream, m: Metrics, i: nat, v: Verdict): Metrics {
    match v
    case WasDeleted => m.(filesDeleted := m.filesDeleted + 1, bytesDeleted := m.bytesDeleted + SizeOf(evs, i))
    case WasRetained => m.(filesRetained := m.filesRetained + 1)
    case HasFailed => m.(failures := m.failures + 1)
  }

  function CountDir(m: Metrics, v: Verdict): Metrics {
    match v
    case WasDeleted => m.(dirsDeleted := m.dirsDeleted + 1)
    case WasRetained => m.(dirsRetained := m.dirsRetained + 1)
    case HasFailed => m.(failures := m.failures + 1)
  }

  /** Thread t counts leaf i as v and goes on to `pc`. */
  function DecideLeaf(c: Config, s: State, t: nat, i: nat, v: Verdict, pc: Pc): State
    requires t < |s.threads|
  {
    s.(threads := s.threads[t := pc],
       verdict := s.verdict[i := v],
       books := s.books.(metrics := CountLeaf(c.evs, s.books.metrics, i, v)))
  }

  function DecideDir(s: State, t: nat, d: nat, v: Verdict, pc: Pc): State
    requires t < |s.threads|
  {
    s.(threads := s.threads[t := pc],
       verdict := s.verdict[d := v],
       books := s.books.(metrics := CountDir(s.books.metrics, v)))
  }

  function StepCheckLeaf(c: Config, s: State, t: nat, i: nat): State
    requires t < |s.threads|
  {
    if s.ctl.cancelled || i in c.retain then
      DecideLeaf(c, s, t, i, WasRetained, Completing(i, true))
    else if c.dryRun then
      DecideLeaf(c, s, t, i, WasDeleted, Completing(i, false))
    else
      s.(threads := s.threads[t := LeafSend(i)])
  }

  function StepQueueLeaf(s: State, t: nat, i: nat): State
    requires t < |s.threads|
  {
    s.(threads := s.threads[t := Idle], fileQ := s.fileQ + [i], loc := s.loc[i := FileQueue])
  }

  function StepMark(s: State, t: nat, d: nat): State
    requires t < |s.threads|
  {
    var (tracker, ready) := MarkListed(s.tracker, d);
    if ready then
      s.(threads := s.threads[t := Finalising(d)], tracker := tracker, loc := s.loc[d := Held(t)])
    else
      s.(threads := s.threads[t := Idle], tracker := tracker)
  }

  function StepTakeFile(c: Config, s: State, t: nat): State
    requires t < |s.threads|
  {
    if |s.fileQ| > 0 then
      s.(threads := s.threads[t := Got(s.fileQ[0])], fileQ := s.fileQ[1..], loc := s.loc[s.fileQ[0] := Held(t)])
    else
      s.(threads := s.threads[t := Exited])
  }

  /** What a delete call leaves on disk. */
  function AfterDelete(fs: set<nat>, i: nat, a: Answer): set<nat> {
    if a.DeleteAnswer? && !a.outcome.Failed? then fs - {i} else fs
  }

  function StepDeleteLeaf(c: Config, s: State, t: nat, i: nat, st: Stage, a: Answer): State
    requires t < |s.threads| && (st.Finished? || Answers(st, a))
  {
    if st.Finished? then
      s.(threads := s.threads[t := Counting(i, st.outcome)],
         ctl := s.ctl.(granted := if s.ctl.granted == 0 then 0 else s.ctl.granted - 1))
    else
      var (st', n') := Advance(c.options, true, st, s.books.tally, a);
      s.(threads := s.threads[t := Deleting(i, st')],
         books := s.books.(tally := n'),
         disk := Disk(AfterDelete(s.disk.present, i, a),
                      if CallsDelete(st) then s.disk.handed + {i} else s.disk.handed))
  }

  function StepCountLeaf(c: Config, s: State, t: nat, i: nat, outcome: Outcome): State
    requires t < |s.threads|
  {
    if outcome.Failed? then
      DecideLeaf(c, s, t, i, HasFailed, LogLeaf(i, outcome.category))
    else
      DecideLeaf(c, s, t, i, WasDeleted, Completing(i, false))
  }

  function StepTakeReady(c: Config, s: State, t: nat): State
    requires t < |s.threads|
  {
    if |s.readyQ| > 0 then
      s.(threads := s.threads[t := DirGot(s.readyQ[0])],
         readyQ := s.readyQ[1..],
         loc := s.loc[s.readyQ[0].dir := Held(t)])
    else
      s.(threads := s.threads[t := Exited])
  }

  function StepStartDir(c: Config, s: State, t: nat, r: Ready): State
    requires t < |s.threads|
  {
    if r.parent.None? && c.preserveRoot then
      Dropped(s, t, r, RootDone(r.dir))
    else if c.dryRun then
      DecideDir(s, t, r.dir, if r.simulatedNonEmpty then WasRetained else WasDeleted,
                Forgetting(r, r.simulatedNonEmpty))
    else
      s.(threads := s.threads[t := DirDeleting(r, First)])
  }

  /** How the outcome of a directory's removal is counted, and where the worker goes next. */
  function CountedDir(c: Config, cancelled: bool, r: Ready, outcome: Outcome): (Verdict, Pc) {
    if !outcome.Failed? then
      (WasDeleted, Forgetting(r, false))
    else if outcome.category == NotEmpty && (c.preserveRoot || cancelled) then
      (WasRetained, Forgetting(r, true))
    else
      (HasFailed, LogDir(r, outcome.category))
  }

  function StepDeleteDir(c: Config, s: State, t: nat, r: Ready, st: Stage, a: Answer): State
    requires t < |s.threads| && (st.Finished? || Answers(st, a))
  {
    if st.Finished? then
      var (v, pc) := CountedDir(c, s.ctl.cancelled, r, st.outcome);
      DecideDir(s, t, r.dir, v, pc)
    else
      var (st', n') := Advance(c.options, false, st, s.books.tally, a);
      s.(threads := s.threads[t := DirDeleting(r, st')],
         books := s.books.(tally := n'),
         disk := Disk(AfterDelete(s.disk.present, r.dir, a),
                      if CallsDelete(st) then s.disk.handed + {r.dir} else s.disk.handed))
  }

  function Dropped(s: State, t: nat, r: Ready, pc: Pc): State
    requires t < |s.threads|
  {
    s.(threads := s.threads[t := pc], tracker := Forget(s.tracker, r.dir))
  }

  function StepForget(s: State, t: nat, r: Ready, kept: bool): State
    requires t < |s.threads|
  {
    Dropped(s, t, r, if r.parent.Some? then Completing(r.dir, kept) else RootDone(r.dir))
  }

  function StepRootDone(s: State, t: nat, i: nat): State
    requires t < |s.threads|
  {
    s.(threads := s.threads[t := Idle], loc := s.loc[i := Settled], ctl := s.ctl.(rootSent := s.ctl.rootSent + 1))
  }

  function StepSend(s: State, t: nat, r: Ready): State
    requires t < |s.threads|
  {
    s.(threads := s.threads[t := Idle], readyQ := s.readyQ + [r], loc := s.loc[r.dir := ReadyQueue])
  }

  function StepComplete(c: Config, s: State, t: nat, i: nat, kept: bool): State
    requires t < |s.threads|
  {
    var parent := ParentOf(c.evs, i);
    var loc := s.loc[i := Settled];
    if parent.Some? then
      var (tracker, ready) := ResolveChild(s.tracker, parent.value, kept);
      if ready then
        s.(threads := s.threads[t := Finalising(parent.value)], tracker := tracker, loc := loc[parent.value := Held(t)])
      else
        s.(threads := s.threads[t := Idle], tracker := tracker, loc := loc)
    else
      s.(threads := s.threads[t := Idle], loc := loc)
  }

  function StepFinalise(s: State, t: nat, d: nat): State
    requires t < |s.threads|
  {
    var (tracker, ready) := Finalise(s.tracker, d);
    s.(threads := s.threads[t := if ready.Some? then Sending(ready.value) else Idle], tracker := tracker)
  }

  // ---------------------------------------------------------------------------------------------------------------
  // Runs
  // ---------------------------------------------------------------------------------------------------------------

  predicate Takes(c: Config, s: State, a: Action, s': State) {
    Enabled(c, s, a) && s' == Apply(c, s, a)
  }

  predicate TakesAt(c: Config, states: seq<State>, actions: seq<Action>, k: nat) {
    k < |actions| && k + 1 < |states| && Takes(c, states[k], actions[k], states[k + 1])
  }

  /** A run: a sequence of states in which each follows from the one before by the action between them. */
  ghost predicate IsRun(c: Config, states: seq<State>, actions: seq<Action>) {
    && |states| == |actions| + 1
    && IsInit(c, states[0])
    && forall k: nat :: k < |actions| ==> TakesAt(c, states, actions, k)
  }

  ghost predicate Terminated(s: State) {
    forall t :: 0 <= t < |s.threads| ==> s.threads[t] == Exited
  }
}
