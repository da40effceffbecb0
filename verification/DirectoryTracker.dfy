/**
 Directory completion tracking (crates/cursdel-core/src/directory_tracker.rs).

 A directory may be handed over for its own removal once its listing is complete and every child that was
 announced under it has been resolved. The functions below are the atomic map operations of the tracker: each one
 happens under one shard lock of the concurrent map, and other threads may run between any two of them. The class
 is the tracker as its callers see it; its methods string the atomic operations together, and their contracts say
 what one uninterrupted call does.

 A directory's path is carried by the original next to `parent` and never inspected; the identifier stands for it.
 */
module DirectoryTracking {
  import opened Wrappers

  type DirId = nat

  datatype DirState = DirState(
    parent: Option<DirId>,
    pending: int,
    stillPresent: int,
    enumerationDone: bool,
    finalised: bool)

  /** A directory whose turn for removal has come. */
  datatype Ready = Ready(dir: DirId, parent: Option<DirId>, simulatedNonEmpty: bool)

  type Tracked = map<DirId, DirState>

  function Insert(m: Tracked, d: DirId, parent: Option<DirId>): Tracked {
    m[d := DirState(parent, 0, 0, false, false)]
  }

  function AddPending(m: Tracked, d: DirId): Tracked {
    if d in m then m[d := m[d].(pending := m[d].pending + 1)] else m
  }

  /** First half of `mark_enumeration_done`: set the flag and decide whether the directory looks ready. */
  function MarkListed(m: Tracked, d: DirId): (Tracked, bool) {
    if d in m then
      (m[d := m[d].(enumerationDone := true)], m[d].pending == 0 && !m[d].finalised)
    else
      (m, false)
  }

  /** First half of `complete_child`: resolve one child and decide whether the parent looks ready. */
  function ResolveChild(m: Tracked, parent: DirId, kept: bool): (Tracked, bool) {
    if parent in m then
      var st := m[parent].(pending := m[parent].pending - 1,
                           stillPresent := m[parent].stillPresent + if kept then 1 else 0);
      (m[parent := st], st.enumerationDone && st.pending <= 0 && !st.finalised)
    else
      (m, false)
  }

  /** `try_finalise` up to, but not including, the send. */
  function Finalise(m: Tracked, d: DirId): (Tracked, Option<Ready>) {
    if d in m && !m[d].finalised then
      (m[d := m[d].(finalised := true)], Some(Ready(d, m[d].parent, m[d].stillPresent > 0)))
    else
      (m, None)
  }

  function Forget(m: Tracked, d: DirId): Tracked {
    m - {d}
  }

  class DirectoryTracker {
    var states: Tracked
    /** The ready channel, oldest entry first. */
    var sent: seq<Ready>

    constructor ()
      ensures states == map[] && sent == []
    {
      states := map[];
      sent := [];
    }

    method RegisterDirectory(d: DirId, parent: Option<DirId>)
      modifies this
      ensures sent == old(sent)
      ensures states.Keys == old(states).Keys + {d}
      ensures parent != Some(d) ==> states[d] == DirState(parent, 0, 0, false, false)
      ensures forall p :: p in old(states) && p != d ==>
                states[p] == old(states)[p].(pending := old(states)[p].pending + if parent == Some(p) then 1 else 0)
    {
      states := Insert(states, d, parent);
      if parent.Some? {
        states := AddPending(states, parent.value);
      }
    }

    method RegisterLeafChild(parent: DirId)
      modifies this
      ensures sent == old(sent) && states == AddPending(old(states), parent)
    {
      states := AddPending(states, parent);
    }

    method MarkEnumerationDone(d: DirId)
      modifies this
      ensures states.Keys == old(states).Keys
      ensures forall p :: p in old(states) && p != d ==> states[p] == old(states)[p]
      ensures d in old(states) ==>
                var was := old(states)[d];
                var fires := was.pending == 0 && !was.finalised;
                && states[d] == was.(enumerationDone := true, finalised := was.finalised || fires)
                && sent == old(sent) + if fires then [Ready(d, was.parent, was.stillPresent > 0)] else []
      ensures d !in old(states) ==> sent == old(sent)
    {
      var (marked, ready) := MarkListed(states, d);
      states := marked;
      if ready {
        TryFinalise(d);
      }
    }

    method CompleteChild(parent: DirId, kept: bool)
      modifies this
      ensures states.Keys == old(states).Keys
      ensures forall p :: p in old(states) && p != parent ==> states[p] == old(states)[p]
      ensures parent in old(states) ==>
                var was := old(states)[parent];
                var now := states[parent];
                && now.parent == was.parent && now.enumerationDone == was.enumerationDone
                && now.pending == was.pending - 1
                && now.stillPresent == was.stillPresent + (if kept then 1 else 0)
                && now.finalised == (was.finalised || (was.enumerationDone && was.pending <= 1))
                && sent == old(sent) + if now.finalised && !was.finalised
                                       then [Ready(parent, was.parent, now.stillPresent > 0)] else []
      ensures parent !in old(states) ==> sent == old(sent)
    {
      var (resolved, ready) := ResolveChild(states, parent, kept);
      states := resolved;
      if ready {
        TryFinalise(parent);
      }
    }

    method TryFinalise(d: DirId)
      modifies this
      ensures states.Keys == old(states).Keys
      ensures forall p :: p in old(states) && p != d ==> states[p] == old(states)[p]
      ensures d in old(states) ==>
                && states[d] == old(states)[d].(finalised := true)
                && sent == old(sent) + if old(states)[d].finalised then []
                                       else [Ready(d, old(states)[d].parent, old(states)[d].stillPresent > 0)]
      ensures d !in old(states) ==> sent == old(sent)
    {
      var (finalised, ready) := Finalise(states, d);
      states := finalised;
      if ready.Some? {
        sent := sent + [ready.value];
      }
    }

    method ForgetDirectory(d: DirId)
      modifies this
      ensures states == old(states) - {d} && sent == old(sent)
    {
      states := Forget(states, d);
    }
  }
}
