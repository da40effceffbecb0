/**
 What the walk promises, said about the directory identifiers it sends. Given that identifiers are handed out in order
 and only used once handed out, the promise is equivalent to the numbered stream being well formed, so nothing is lost
 or gained when positions take the place of identifiers.
 */
module Identifiers {
  import opened Wrappers
  import opened Walk
  import P = Pipeline

  /** Event i announces a directory and gives it this identifier. */
  predicate Announces(es: seq<EnumEvent>, i: nat, id: nat) {
    i < |es| && es[i].Entry? && es[i].dirId == Some(id)
  }

  /** Event i is an entry in the directory with this identifier. */
  predicate EntryIn(es: seq<EnumEvent>, i: nat, id: nat) {
    i < |es| && es[i].Entry? && es[i].parentDirId == id
  }

  predicate Completes(es: seq<EnumEvent>, i: nat, id: nat) {
    i < |es| && es[i] == DirectoryComplete(id)
  }

  /** The root's identifier, or one announced among the first n events. */
  ghost predicate KnownBy(es: seq<EnumEvent>, n: nat, id: nat) {
    id == 0 || exists i: nat :: i < n && Announces(es, i, id)
  }

  /**
   A directory is announced before any entry in it and before its completion, comes under one identifier of its own,
   and is completed exactly once, after all the entries in it.
   */
  ghost predicate Orderly(es: seq<EnumEvent>) {
    && (forall i, id :: Announces(es, i, id) ==> id != 0)
    && (forall i, j, id :: Announces(es, i, id) && Announces(es, j, id) ==> i == j)
    && (forall i, id :: EntryIn(es, i, id) ==> KnownBy(es, i, id))
    && (forall i, id :: Completes(es, i, id) ==> KnownBy(es, i, id))
    && (forall i, j, id :: EntryIn(es, i, id) && Completes(es, j, id) ==> i < j)
    && (forall i, j, id :: Completes(es, i, id) && Completes(es, j, id) ==> i == j)
    && (forall id :: KnownBy(es, |es|, id) ==> exists j :: Completes(es, j, id))
  }

  // ---------------------------------------------------------------------------------------------------------------
  // Identifiers and the positions that stand for them
  // ---------------------------------------------------------------------------------------------------------------

  lemma {:induction false} FreshBefore(es: seq<EnumEvent>, n: nat)
    requires FreshIds(es) && n <= |es|
    ensures FreshIds(es[..n])
  {
    forall i: nat | i < n ensures IdsFit(es[..n][i], |Positions(es[..n][..i])|) {
      assert es[..n][..i] == es[..i];
    }
  }

  /** What was handed out stays. */
  lemma {:induction false} PositionsStay(es: seq<EnumEvent>, n: nat)
    requires n <= |es|
    ensures Positions(es[..n]) <= Positions(es)
  {
    if n < |es| {
      PositionsStay(es[..|es| - 1], n);
      assert es[..|es| - 1][..n] == es[..n];
    } else {
      assert es[..n] == es;
    }
  }

  /** The position of an identifier is where its directory was announced. */
  lemma {:induction false} Announced(es: seq<EnumEvent>, id: nat)
    requires FreshIds(es) && id < |Positions(es)|
    ensures var p := Positions(es)[id];
            && p <= |es| && (p == 0 <==> id == 0) && (p > 0 ==> Announces(es, p - 1, id))
  {
    if |es| > 0 {
      var n := |es| - 1;
      FreshBefore(es, n);
      assert IdsFit(es[n], |Positions(es[..n])|);
      if id < |Positions(es[..n])| {
        Announced(es[..n], id);
      }
    }
  }

  /** An announced directory has its identifier's position. */
  lemma {:induction false} AnnouncedAt(es: seq<EnumEvent>, i: nat, id: nat)
    requires FreshIds(es) && Announces(es, i, id)
    ensures 0 < id < |Positions(es)| && Positions(es)[id] == i + 1 && id == |Positions(es[..i])|
  {
    assert IdsFit(es[i], |Positions(es[..i])|);
    assert es[..i + 1][..i] == es[..i];
    assert Positions(es[..i + 1]) == Positions(es[..i]) + [i + 1];
    PositionsStay(es, i + 1);
  }

  /** The identifiers known at some point are those handed out until then. */
  lemma {:induction false} KnownIffIssued(es: seq<EnumEvent>, n: nat, id: nat)
    requires FreshIds(es) && n <= |es|
    ensures KnownBy(es, n, id) <==> id < |Positions(es[..n])|
  {
    var some := es[..n];
    FreshBefore(es, n);
    if id < |Positions(some)| {
      Announced(some, id);
      if id > 0 {
        assert Announces(es, Positions(some)[id] - 1, id);
      }
    }
    if i: nat :| i < n && Announces(es, i, id) {
      assert Announces(some, i, id);
      AnnouncedAt(some, i, id);
    }
  }

  /** Two identifiers never share a position. */
  lemma {:induction false} PositionsDiffer(es: seq<EnumEvent>, a: nat, b: nat)
    requires FreshIds(es) && a < |Positions(es)| && b < |Positions(es)| && Positions(es)[a] == Positions(es)[b]
    ensures a == b
  {
    Announced(es, a);
    Announced(es, b);
  }

  lemma {:induction false} NumberedAt(es: seq<EnumEvent>, i: nat)
    requires i < |es|
    ensures StreamOf(es)[i + 1] == Numbered(es[i], Positions(es[..i + 1]))
  {
    var n := |es| - 1;
    if i < n {
      NumberedAt(es[..n], i);
      assert es[..n][..i + 1] == es[..i + 1];
    } else {
      assert es[..i + 1] == es;
    }
  }

  /** An event reads the same with the position in place of the identifier. */
  lemma {:induction false} ReadsTheSame(es: seq<EnumEvent>, i: nat)
    requires FreshIds(es) && i < |es|
    ensures es[i].Entry? ==>
              && es[i].parentDirId < |Positions(es)| && Positions(es)[es[i].parentDirId] <= i
              && P.ParentOf(StreamOf(es), i + 1) == Some(Positions(es)[es[i].parentDirId])
    ensures es[i].DirectoryComplete? ==>
              && es[i].done < |Positions(es)| && Positions(es)[es[i].done] <= i
              && StreamOf(es)[i + 1] == P.Listed(Positions(es)[es[i].done])
    ensures es[i].Error? ==> StreamOf(es)[i + 1] == P.Unlistable
    ensures StreamOf(es)[i + 1].Directory? <==> IsDirEntry(es[i])
  {
    assert IdsFit(es[i], |Positions(es[..i])|);
    NumberedAt(es, i);
    PositionsStay(es, i);
    PositionsStay(es, i + 1);
    FreshBefore(es, i);
    assert es[..i + 1][..i] == es[..i];
    if es[i].Entry? {
      Announced(es[..i], es[i].parentDirId);
    } else if es[i].DirectoryComplete? {
      Announced(es[..i], es[i].done);
    }
  }

  lemma {:induction false} Translates(es: seq<EnumEvent>, i: nat, id: nat)
    requires FreshIds(es) && id < |Positions(es)|
    ensures EntryIn(es, i, id) <==> P.ChildOf(StreamOf(es), i + 1, Positions(es)[id])
    ensures Completes(es, i, id) <==> P.ListedAt(StreamOf(es), i + 1, Positions(es)[id])
  {
    if i < |es| {
      ReadsTheSame(es, i);
      if P.ChildOf(StreamOf(es), i + 1, Positions(es)[id]) {
        PositionsDiffer(es, es[i].parentDirId, id);
      }
      if P.ListedAt(StreamOf(es), i + 1, Positions(es)[id]) {
        PositionsDiffer(es, es[i].done, id);
      }
    }
  }

  /** Every directory of the numbered stream is the position of an identifier. */
  lemma {:induction false} IdOf(es: seq<EnumEvent>, d: nat) returns (id: nat)
    requires FreshIds(es) && P.IsDir(StreamOf(es), d)
    ensures id < |Positions(es)| && Positions(es)[id] == d
  {
    if d == 0 {
      id := 0;
      Announced(es, 0);
    } else {
      ReadsTheSame(es, d - 1);
      id := es[d - 1].dirId.value;
      AnnouncedAt(es, d - 1, id);
    }
  }

  lemma {:induction false} PositionIsDir(es: seq<EnumEvent>, id: nat)
    requires FreshIds(es) && id < |Positions(es)|
    ensures P.IsDir(StreamOf(es), Positions(es)[id])
  {
    Announced(es, id);
    if id > 0 {
      ReadsTheSame(es, Positions(es)[id] - 1);
    }
  }

  // ---------------------------------------------------------------------------------------------------------------
  // Main result
  // ---------------------------------------------------------------------------------------------------------------

  lemma {:induction false} IssuedByThen(es: seq<EnumEvent>, i: nat, id: nat)
    requires FreshIds(es) && (EntryIn(es, i, id) || Completes(es, i, id))
    ensures KnownBy(es, i, id) && id < |Positions(es)|
  {
    assert IdsFit(es[i], |Positions(es[..i])|);
    KnownIffIssued(es, i, id);
    PositionsStay(es, i);
  }

  /** These clauses need nothing but that identifiers are handed out in order and used afterwards. */
  lemma {:induction false} IdentifiersAreKnown(es: seq<EnumEvent>)
    requires FreshIds(es)
    ensures forall i, id :: Announces(es, i, id) ==> id != 0
    ensures forall i, j, id :: Announces(es, i, id) && Announces(es, j, id) ==> i == j
    ensures forall i, id :: EntryIn(es, i, id) ==> KnownBy(es, i, id)
    ensures forall i, id :: Completes(es, i, id) ==> KnownBy(es, i, id)
  {
    forall i: nat, id: nat | Announces(es, i, id) ensures 0 < id < |Positions(es)| && Positions(es)[id] == i + 1 {
      AnnouncedAt(es, i, id);
    }
    forall i: nat, id: nat | EntryIn(es, i, id) || Completes(es, i, id) ensures KnownBy(es, i, id) {
      IssuedByThen(es, i, id);
    }
  }

  lemma {:induction false} ChildOfAnnounced(es: seq<EnumEvent>, i: nat, d: nat) returns (id: nat)
    requires FreshIds(es) && P.ChildOf(StreamOf(es), i, d)
    ensures d < i && P.IsDir(StreamOf(es), d)
    ensures id < |Positions(es)| && Positions(es)[id] == d && EntryIn(es, i - 1, id)
  {
    ReadsTheSame(es, i - 1);
    id := es[i - 1].parentDirId;
    PositionIsDir(es, id);
  }

  lemma {:induction false} ListedAnnounced(es: seq<EnumEvent>, j: nat, d: nat) returns (id: nat)
    requires FreshIds(es) && P.ListedAt(StreamOf(es), j, d)
    ensures d < j && P.IsDir(StreamOf(es), d)
    ensures id < |Positions(es)| && Positions(es)[id] == d && Completes(es, j - 1, id)
  {
    ReadsTheSame(es, j - 1);
    id := es[j - 1].done;
    PositionIsDir(es, id);
  }

  lemma {:induction false} OrderlyIfWellFormed(es: seq<EnumEvent>)
    requires FreshIds(es) && P.WellFormed(StreamOf(es))
    ensures Orderly(es)
  {
    hide FreshIds, Positions, StreamOf, KnownBy;
    var evs := StreamOf(es);
    IdentifiersAreKnown(es);
    forall i: nat, j: nat, id: nat | EntryIn(es, i, id) && Completes(es, j, id) ensures i < j {
      IssuedByThen(es, j, id);
      Translates(es, i, id);
      Translates(es, j, id);
    }
    forall i: nat, j: nat, id: nat | Completes(es, i, id) && Completes(es, j, id) ensures i == j {
      IssuedByThen(es, j, id);
      Translates(es, i, id);
      Translates(es, j, id);
    }
    forall id: nat | KnownBy(es, |es|, id) ensures exists j :: Completes(es, j, id) {
      assert es[..|es|] == es;
      KnownIffIssued(es, |es|, id);
      PositionIsDir(es, id);
      var j :| P.ListedAt(evs, j, Positions(es)[id]);
      var a := ListedAnnounced(es, j, Positions(es)[id]);
      PositionsDiffer(es, a, id);
    }
  }

  lemma {:induction false} WellFormedIfOrderly(es: seq<EnumEvent>)
    requires FreshIds(es) && Orderly(es)
    ensures P.WellFormed(StreamOf(es))
  {
    hide FreshIds, Positions, StreamOf, KnownBy;
    var evs := StreamOf(es);
    forall i: nat, d: nat | P.ChildOf(evs, i, d) ensures d < i && P.IsDir(evs, d) {
      var id := ChildOfAnnounced(es, i, d);
    }
    forall j: nat, d: nat | P.ListedAt(evs, j, d) ensures d < j && P.IsDir(evs, d) {
      var id := ListedAnnounced(es, j, d);
    }
    forall i: nat, j: nat, d: nat | P.ChildOf(evs, i, d) && P.ListedAt(evs, j, d) ensures i < j {
      var a := ChildOfAnnounced(es, i, d);
      var b := ListedAnnounced(es, j, d);
      PositionsDiffer(es, a, b);
    }
    forall j: nat, k: nat, d: nat | P.ListedAt(evs, j, d) && P.ListedAt(evs, k, d) ensures j == k {
      var a := ListedAnnounced(es, j, d);
      var b := ListedAnnounced(es, k, d);
      PositionsDiffer(es, a, b);
    }
    forall d: nat | P.IsDir(evs, d) ensures exists j :: P.ListedAt(evs, j, d) {
      var id := IdOf(es, d);
      assert es[..|es|] == es;
      KnownIffIssued(es, |es|, id);
      var j :| Completes(es, j, id);
      Translates(es, j, id);
    }
  }

  /** The pipeline's requirement on the numbered stream is the walk's promise about identifiers. */
  lemma {:induction false} WellFormedIffOrderly(es: seq<EnumEvent>)
    requires FreshIds(es)
    ensures P.WellFormed(StreamOf(es)) <==> Orderly(es)
  {
    if P.WellFormed(StreamOf(es)) {
      OrderlyIfWellFormed(es);
    }
    if Orderly(es) {
      WellFormedIfOrderly(es);
    }
  }
}
