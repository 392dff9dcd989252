/** Attempts that do not repeat one batch.  A drain writes a grouped batch; its fallback
    writes the requests one by one; a restart writes whatever the journal still holds.
    Any of them can crash after its mirrors, or be refused for good.  Here is what the
    domains hold after any such history, and when they settle on one graph. */
module ReplayRefinement {
  import opened Prelude
  import opened Requests
  import opened DrainGrouping
  import opened DoubleWrite
  import opened DoubleWriteRefinement
  import opened PartitionStore

  /** Requests as submitted, the batch that is written for them, and which of its
      transactions commit. */
  datatype Attempt = Attempt(home: nat, reqs: seq<Request>, batch: seq<Request>, fate: Fate)

  function AfterAttempts(router: Router, attempts: seq<Attempt>, stores: seq<Store>): (r: seq<Store>)
    ensures |r| == |stores|
    decreases |attempts|
  {
    if attempts == [] then stores
    else
      var a := attempts[|attempts| - 1];
      Written(router, a.home, a.batch, a.fate, AfterAttempts(router, attempts[..|attempts| - 1], stores))
  }

  /** One store that gets the batches whose home transaction commits. */
  function SingleOf(attempts: seq<Attempt>): Store {
    if attempts == [] then EMPTY_STORE
    else
      var before, a := SingleOf(attempts[..|attempts| - 1]), attempts[|attempts| - 1];
      if a.fate.home then Perform(before, BatchEvents(a.batch)) else before
  }

  /** The crossing edges of `reqs` that its committed mirrors hold. */
  function Mirrored(router: Router, count: nat, home: nat, reqs: seq<Request>, mirrors: set<nat>): set<EdgeRow> {
    set e | e in CrossEdges(Crossings(router, count, home, reqs)) && DomainOf(router, count, e.to) in mirrors
  }

  /** What the attempts have mirrored without committing it at home. */
  function OwedBy(router: Router, count: nat, attempts: seq<Attempt>): set<EdgeRow> {
    if attempts == [] then {}
    else
      var before, a := OwedBy(router, count, attempts[..|attempts| - 1]), attempts[|attempts| - 1];
      before + if a.fate.home then {} else Mirrored(router, count, a.home, a.batch, a.fate.mirrors)
  }

  // ---------------------------------------------------------------------
  // The refinement with debts
  // ---------------------------------------------------------------------

  /** The row is there if the single store has it; otherwise an owed edge leads to it. */
  ghost predicate LooseRow(router: Router, count: nat, d: nat, rows: map<Node, string>, single: map<Node, string>,
                           owed: set<EdgeRow>, n: Node) {
    if DomainOf(router, count, n) == d then
      && (n in single ==> n in rows)
      && (n in rows ==> n in single || exists e :: e in owed && e.to == n)
    else n in rows ==> rows[n] == STUB_SOURCE
  }

  /** Edges that start here are the single store's; its edges that end here from
      elsewhere are mirrored at least once; every other mirror is owed. */
  ghost predicate LooseEdge(router: Router, count: nat, d: nat, edges: seq<EdgeRow>, single: seq<EdgeRow>,
                            owed: set<EdgeRow>, e: EdgeRow) {
    var have, want := multiset(edges)[e], multiset(single)[e];
    if DomainOf(router, count, e.from) == d then have == want
    else if DomainOf(router, count, e.to) == d then have >= want && (have > 0 ==> want > 0 || e in owed)
    else have == 0
  }

  ghost predicate LooseStore(router: Router, count: nat, d: nat, s: Store, single: Store, owed: set<EdgeRow>) {
    && (forall n :: LooseRow(router, count, d, s.rows, single.rows, owed, n))
    && (forall x :: NoteRefines(router, count, d, s.notes, single.notes, x))
    && (forall e :: LooseEdge(router, count, d, s.edges, single.edges, owed, e))
    && EndsPresent(s)
  }

  ghost predicate Loose(router: Router, count: nat, stores: seq<Store>, single: Store, owed: set<EdgeRow>) {
    && |stores| == count && EndsPresent(single)
    && forall d :: 0 <= d < count ==> LooseStore(router, count, d, stores[d], single, owed)
  }

  // ---------------------------------------------------------------------
  // One attempt, domain by domain
  // ---------------------------------------------------------------------

  lemma {:induction false} LooseHomeRow(router: Router, count: nat, home: nat, reqs: seq<Request>, s: Store,
      single: Store, owed: set<EdgeRow>, n: Node)
    requires Homed(router, count, home, reqs)
    requires Covered(router, s.rows, Crossings(router, count, home, reqs))
    requires LooseRow(router, count, home, s.rows, single.rows, owed, n)
    ensures LooseRow(router, count, home, Perform(s, BatchEvents(Share(router, count, home, reqs, home))).rows,
                     Perform(single, BatchEvents(reqs)).rows, owed, n)
  {
    hide Perform, BatchEvents, FirstSource, Crossings, StubsFor, DomainOf, IsStubNode, Homed, HomedCrossings, LinksOf,
      NotesOf, FirstTarget, Leading;
    var cs := Crossings(router, count, home, reqs);
    AllHomed(router, count, home, reqs);
    PerformRow(s, BatchEvents(Share(router, count, home, reqs, home)), n);
    PerformRow(single, BatchEvents(reqs), n);
    BatchAppend(StubsFor(router, cs), reqs);
    EventsAppend(BatchEvents(StubsFor(router, cs)), BatchEvents(reqs), n);
    StubTouch(router, count, home, cs, n);
    BatchTouch(router, count, home, reqs, n);
    TargetFound(cs, n);
  }

  lemma {:induction false} LooseHomeEdge(router: Router, count: nat, home: nat, reqs: seq<Request>, s: Store,
      single: Store, owed: set<EdgeRow>, e: EdgeRow)
    requires Homed(router, count, home, reqs)
    requires LooseEdge(router, count, home, s.edges, single.edges, owed, e)
    ensures LooseEdge(router, count, home, Perform(s, BatchEvents(Share(router, count, home, reqs, home))).edges,
                      Perform(single, BatchEvents(reqs)).edges, owed, e)
  {
    hide Perform, BatchEvents, FirstSource, Crossings, StubsFor, DomainOf, IsStubNode, Homed, HomedCrossings, LinksOf,
      NotesOf, FirstTarget, CrossEdges, Leading;
    var cs := Crossings(router, count, home, reqs);
    AllHomed(router, count, home, reqs);
    PerformLists(s, BatchEvents(Share(router, count, home, reqs, home)));
    PerformLists(single, BatchEvents(reqs));
    BatchTouch(router, count, home, reqs, e.from);
    BatchAppend(StubsFor(router, cs), reqs);
    EventsAppend(BatchEvents(StubsFor(router, cs)), BatchEvents(reqs), e.from);
    StubTouch(router, count, home, cs, e.from);
  }

  /** The home transaction. */
  lemma {:induction false} LooseHome(router: Router, count: nat, home: nat, reqs: seq<Request>, s: Store,
      single: Store, owed: set<EdgeRow>)
    requires Homed(router, count, home, reqs)
    requires Covered(router, s.rows, Crossings(router, count, home, reqs))
    requires LooseStore(router, count, home, s, single, owed)
    ensures LooseStore(router, count, home, Perform(s, BatchEvents(Share(router, count, home, reqs, home))),
                       Perform(single, BatchEvents(reqs)), owed)
  {
    hide Perform, BatchEvents, Crossings, Share, LooseRow, NoteRefines, LooseEdge, Covered, Homed, EndsPresent;
    EndsStay(s, Share(router, count, home, reqs, home));
    var next, whole := Perform(s, BatchEvents(Share(router, count, home, reqs, home))),
                       Perform(single, BatchEvents(reqs));
    forall n ensures LooseRow(router, count, home, next.rows, whole.rows, owed, n) {
      LooseHomeRow(router, count, home, reqs, s, single, owed, n);
    }
    forall x ensures NoteRefines(router, count, home, next.notes, whole.notes, x) {
      ShareNote(router, count, home, reqs, home, s, single, x);
    }
    forall e ensures LooseEdge(router, count, home, next.edges, whole.edges, owed, e) {
      LooseHomeEdge(router, count, home, reqs, s, single, owed, e);
    }
  }

  /** A remote target is created by the mirror under a caller's source, and a
      crossing edge leads to it. */
  lemma {:induction false} MirroredTarget(router: Router, count: nat, home: nat, reqs: seq<Request>, d: nat, n: Node)
    requires Homed(router, count, home, reqs) && d != home
    requires Sourced(Crossings(router, count, home, reqs)) && DomainOf(router, count, n) == d
    ensures
      var first := FirstSource(BatchEvents(MirrorsFor(router, count, Crossings(router, count, home, reqs), d)), n);
      && first == FirstSource(BatchEvents(reqs), n)
      && (first.Some? ==> exists e :: e in CrossEdges(Crossings(router, count, home, reqs)) && e.to == n)
  {
    hide BatchEvents, FirstSource, Crossings, DomainOf, Homed, HomedCrossings, LinksOf, NotesOf, FirstTarget, Leading,
      MirrorsFor;
    var cs := Crossings(router, count, home, reqs);
    AllHomed(router, count, home, reqs);
    MirrorTouch(router, count, home, cs, d, n);
    BatchTouch(router, count, home, reqs, n);
    TargetFound(cs, n);
    if FirstTarget(cs, n).Some? {
      var c :| c in cs && TargetOf(c.rel) == n;
      CrossEdgeIn(cs, c);
      assert EdgeFor(c.req, c.rel).to == n;
    }
  }

  lemma {:induction false} LooseMirrorRow(router: Router, count: nat, home: nat, reqs: seq<Request>, d: nat, s: Store,
      single: Store, owed: set<EdgeRow>, more: set<EdgeRow>, n: Node)
    requires Homed(router, count, home, reqs) && d != home
    requires Sourced(Crossings(router, count, home, reqs))
    requires LooseRow(router, count, d, s.rows, single.rows, owed, n)
    requires forall e :: e in CrossEdges(Crossings(router, count, home, reqs)) && DomainOf(router, count, e.to) == d
                         ==> e in more
    ensures LooseRow(router, count, d, Perform(s, BatchEvents(Share(router, count, home, reqs, d))).rows,
                     Perform(single, BatchEvents(reqs)).rows, owed, n)
    ensures LooseRow(router, count, d, Perform(s, BatchEvents(Share(router, count, home, reqs, d))).rows,
                     single.rows, owed + more, n)
  {
    hide Perform, BatchEvents, FirstSource, Crossings, DomainOf, Homed, HomedCrossings, LinksOf, NotesOf, FirstTarget,
      Leading, MirrorsFor, Sourced, CrossEdges;
    var cs := Crossings(router, count, home, reqs);
    PerformRow(s, BatchEvents(MirrorsFor(router, count, cs, d)), n);
    PerformRow(single, BatchEvents(reqs), n);
    if DomainOf(router, count, n) == d {
      MirroredTarget(router, count, home, reqs, d, n);
      assert forall e :: e in owed || e in more ==> e in owed + more;
    } else {
      AllHomed(router, count, home, reqs);
      MirrorTouch(router, count, home, cs, d, n);
    }
  }

  lemma {:induction false} LooseMirrorEdge(router: Router, count: nat, home: nat, reqs: seq<Request>, d: nat, s: Store,
      single: Store, owed: set<EdgeRow>, more: set<EdgeRow>, e: EdgeRow)
    requires Homed(router, count, home, reqs) && d != home
    requires Sourced(Crossings(router, count, home, reqs))
    requires LooseEdge(router, count, d, s.edges, single.edges, owed, e)
    requires forall e :: e in CrossEdges(Crossings(router, count, home, reqs)) && DomainOf(router, count, e.to) == d
                         ==> e in more
    ensures LooseEdge(router, count, d, Perform(s, BatchEvents(Share(router, count, home, reqs, d))).edges,
                      Perform(single, BatchEvents(reqs)).edges, owed, e)
    ensures LooseEdge(router, count, d, Perform(s, BatchEvents(Share(router, count, home, reqs, d))).edges,
                      single.edges, owed + more, e)
  {
    hide Perform, BatchEvents, FirstSource, Crossings, DomainOf, Homed, HomedCrossings, LinksOf, NotesOf, FirstTarget,
      MirrorsFor, Sourced, CrossEdges;
    var cs := Crossings(router, count, home, reqs);
    AllHomed(router, count, home, reqs);
    PerformLists(s, BatchEvents(MirrorsFor(router, count, cs, d)));
    PerformLists(single, BatchEvents(reqs));
    BatchTouch(router, count, home, reqs, e.from);
    MirrorLinks(router, count, home, cs, d, e);
    if e in LinksOf(BatchEvents(MirrorsFor(router, count, cs, d))) {
      MirrorEnds(router, count, home, cs, d, e);
    }
    assert multiset(CrossEdges(cs))[e] > 0 <==> e in CrossEdges(cs);
  }

  /** A mirror transaction, whether the home transaction follows or not. */
  lemma {:induction false} LooseMirror(router: Router, count: nat, home: nat, reqs: seq<Request>, d: nat, s: Store,
      single: Store, owed: set<EdgeRow>, more: set<EdgeRow>)
    requires Homed(router, count, home, reqs) && d != home
    requires Sourced(Crossings(router, count, home, reqs))
    requires LooseStore(router, count, d, s, single, owed)
    requires forall e :: e in CrossEdges(Crossings(router, count, home, reqs)) && DomainOf(router, count, e.to) == d
                         ==> e in more
    ensures var next := Perform(s, BatchEvents(Share(router, count, home, reqs, d)));
      && LooseStore(router, count, d, next, Perform(single, BatchEvents(reqs)), owed)
      && LooseStore(router, count, d, next, single, owed + more)
  {
    hide Perform, BatchEvents, Crossings, Share, LooseRow, NoteRefines, LooseEdge, Sourced, Homed, EndsPresent,
      CrossEdges, DomainOf;
    EndsStay(s, Share(router, count, home, reqs, d));
    var next, whole := Perform(s, BatchEvents(Share(router, count, home, reqs, d))),
                       Perform(single, BatchEvents(reqs));
    forall n
      ensures LooseRow(router, count, d, next.rows, whole.rows, owed, n)
      ensures LooseRow(router, count, d, next.rows, single.rows, owed + more, n)
    {
      LooseMirrorRow(router, count, home, reqs, d, s, single, owed, more, n);
    }
    forall x
      ensures NoteRefines(router, count, d, next.notes, whole.notes, x)
      ensures NoteRefines(router, count, d, next.notes, single.notes, x)
    {
      ShareNote(router, count, home, reqs, d, s, single, x);
      MirrorKeepsNotes(router, count, home, reqs, d, s, x.owner);
    }
    forall e
      ensures LooseEdge(router, count, d, next.edges, whole.edges, owed, e)
      ensures LooseEdge(router, count, d, next.edges, single.edges, owed + more, e)
    {
      LooseMirrorEdge(router, count, home, reqs, d, s, single, owed, more, e);
    }
  }

  lemma {:induction false} MirrorKeepsNotes(router: Router, count: nat, home: nat, reqs: seq<Request>, d: nat,
      s: Store, n: Node)
    requires Homed(router, count, home, reqs) && d != home
    ensures Perform(s, BatchEvents(Share(router, count, home, reqs, d))).notes == s.notes
  {
    hide Perform, BatchEvents, FirstSource, Crossings, DomainOf, Homed, HomedCrossings, LinksOf, NotesOf, FirstTarget,
      MirrorsFor;
    AllHomed(router, count, home, reqs);
    PerformLists(s, BatchEvents(Share(router, count, home, reqs, d)));
    MirrorTouch(router, count, home, Crossings(router, count, home, reqs), d, n);
  }

  /** What is owed may only grow in this view. */
  lemma {:induction false} OweMore(router: Router, count: nat, d: nat, s: Store, single: Store, owed: set<EdgeRow>,
      more: set<EdgeRow>)
    requires LooseStore(router, count, d, s, single, owed) && owed <= more
    ensures LooseStore(router, count, d, s, single, more)
  {
    hide DomainOf, EndsPresent, NoteRefines;
    forall n ensures LooseRow(router, count, d, s.rows, single.rows, more, n) {
      assert LooseRow(router, count, d, s.rows, single.rows, owed, n);
    }
    forall e ensures LooseEdge(router, count, d, s.edges, single.edges, more, e) {
      assert LooseEdge(router, count, d, s.edges, single.edges, owed, e);
    }
  }

  // ---------------------------------------------------------------------
  // One attempt, all domains
  // ---------------------------------------------------------------------

  /** What a caller can check of an attempt. */
  ghost predicate Sane(router: Router, count: nat, a: Attempt, stores: seq<Store>)
    requires |stores| == count
  {
    && a.home < count && Homed(router, count, a.home, a.batch)
    && Sourced(Crossings(router, count, a.home, a.batch))
    && (a.fate.home ==>
          && Lands(router, count, a.home, a.batch, a.fate)
          && Covered(router, stores[a.home].rows, Crossings(router, count, a.home, a.batch)))
  }

  /** An attempt that commits at home settles its edges; one that does not owes them. */
  lemma {:induction false} AttemptLoose(router: Router, count: nat, a: Attempt, stores: seq<Store>, single: Store,
      owed: set<EdgeRow>)
    requires Loose(router, count, stores, single, owed) && Sane(router, count, a, stores)
    ensures Loose(router, count, Written(router, a.home, a.batch, a.fate, stores),
                  if a.fate.home then Perform(single, BatchEvents(a.batch)) else single,
                  owed + if a.fate.home then {} else Mirrored(router, count, a.home, a.batch, a.fate.mirrors))
  {
    hide LooseStore, Crossings, Homed, Perform, BatchEvents, Share, Sourced, Covered, EndsPresent,
      CrossEdges, Mirrored;
    var whole := if a.fate.home then Perform(single, BatchEvents(a.batch)) else single;
    var debts := owed + if a.fate.home then {} else Mirrored(router, count, a.home, a.batch, a.fate.mirrors);
    var after := Written(router, a.home, a.batch, a.fate, stores);
    EndsStay(single, a.batch);
    forall d | 0 <= d < count ensures LooseStore(router, count, d, after[d], whole, debts) {
      AttemptedStore(router, count, a, stores, single, owed, d);
    }
  }

  lemma {:induction false} AttemptedStore(router: Router, count: nat, a: Attempt, stores: seq<Store>, single: Store,
      owed: set<EdgeRow>, d: nat)
    requires Loose(router, count, stores, single, owed) && Sane(router, count, a, stores) && d < count
    ensures LooseStore(router, count, d, Written(router, a.home, a.batch, a.fate, stores)[d],
                       if a.fate.home then Perform(single, BatchEvents(a.batch)) else single,
                       owed + if a.fate.home then {} else Mirrored(router, count, a.home, a.batch, a.fate.mirrors))
  {
    hide LooseStore, Crossings, Homed, Perform, BatchEvents, Share, Sourced, Covered, EndsPresent,
      CrossEdges;
    var mirrored := Mirrored(router, count, a.home, a.batch, a.fate.mirrors);
    if a.fate.home {
      assert owed + {} == owed;
      if d == a.home {
        LooseHome(router, count, a.home, a.batch, stores[d], single, owed);
      } else {
        var all := set e | e in CrossEdges(Crossings(router, count, a.home, a.batch));
        LooseMirror(router, count, a.home, a.batch, d, stores[d], single, owed, all);
        if d !in a.fate.mirrors {
          assert Share(router, count, a.home, a.batch, d) == [];
          NothingShared(stores[d]);
        }
      }
    } else if d in a.fate.mirrors && d != a.home {
      LooseMirror(router, count, a.home, a.batch, d, stores[d], single, owed, mirrored);
    } else {
      OweMore(router, count, d, stores[d], single, owed, owed + mirrored);
    }
  }

  // ---------------------------------------------------------------------
  // Whole histories
  // ---------------------------------------------------------------------

  ghost predicate AllSane(router: Router, count: nat, attempts: seq<Attempt>, stores: seq<Store>)
    requires |stores| == count
  {
    forall i :: 0 <= i < |attempts| ==> Sane(router, count, attempts[i], AfterAttempts(router, attempts[..i], stores))
  }

  lemma {:induction false} SanePrefix(router: Router, count: nat, attempts: seq<Attempt>, stores: seq<Store>)
    requires |stores| == count && attempts != [] && AllSane(router, count, attempts, stores)
    ensures var n := |attempts| - 1;
      && AllSane(router, count, attempts[..n], stores)
      && Sane(router, count, attempts[n], AfterAttempts(router, attempts[..n], stores))
  {
    hide Sane, AfterAttempts;
    var n := |attempts| - 1;
    assert forall i :: 0 <= i < n ==> attempts[..n][i] == attempts[i] && attempts[..n][..i] == attempts[..i];
  }

  ghost predicate AllEmpty(stores: seq<Store>) { forall d :: 0 <= d < |stores| ==> stores[d] == EMPTY_STORE }

  /** Any history: batches, grouped or not, crashed before the home transaction,
      refused, repeated in part or in whole, in any order. */
  lemma {:induction false} HistoryLoose(router: Router, count: nat, attempts: seq<Attempt>, stores: seq<Store>)
    requires |stores| == count && AllEmpty(stores) && AllSane(router, count, attempts, stores)
    ensures Loose(router, count, AfterAttempts(router, attempts, stores), SingleOf(attempts),
                  OwedBy(router, count, attempts))
    decreases |attempts|
  {
    hide Sane, AllSane, Written, Mirrored, Perform, BatchEvents;
    if attempts == [] {
      forall d | 0 <= d < count ensures LooseStore(router, count, d, stores[d], EMPTY_STORE, {}) {
        EmptyLoose(router, count, d);
      }
    } else {
      hide Loose;
      SanePrefix(router, count, attempts, stores);
      var init, a := attempts[..|attempts| - 1], attempts[|attempts| - 1];
      HistoryLoose(router, count, init, stores);
      AttemptLoose(router, count, a, AfterAttempts(router, init, stores), SingleOf(init), OwedBy(router, count, init));
    }
  }

  lemma {:induction false} EmptyLoose(router: Router, count: nat, d: nat)
    ensures LooseStore(router, count, d, EMPTY_STORE, EMPTY_STORE, {})
  {
  }

  // ---------------------------------------------------------------------
  // When a history has settled
  // ---------------------------------------------------------------------

  /** What is owed is there, in the domain the edge leads to. */
  lemma {:induction false} OwedIsThere(router: Router, count: nat, attempts: seq<Attempt>, stores: seq<Store>,
      e: EdgeRow)
    requires count > 0 && |stores| == count && AllSane(router, count, attempts, stores)
    requires e in OwedBy(router, count, attempts)
    ensures DomainOf(router, count, e.from) != DomainOf(router, count, e.to)
    ensures e in AfterAttempts(router, attempts, stores)[DomainOf(router, count, e.to)].edges
    decreases |attempts|
  {
    hide Sane, AllSane, Written, Mirrored, DomainOf;
    assert attempts != [];
    SanePrefix(router, count, attempts, stores);
    var init, a := attempts[..|attempts| - 1], attempts[|attempts| - 1];
    var before := AfterAttempts(router, init, stores);
    var d := DomainOf(router, count, e.to);
    DomainInRange(router, count, e.to);
    if e in OwedBy(router, count, init) {
      OwedIsThere(router, count, init, stores, e);
      EdgesStay(router, a, before, d, e);
    } else {
      MirroredIsThere(router, count, a, before, e);
    }
  }

  lemma {:induction false} DomainInRange(router: Router, count: nat, n: Node)
    requires count > 0
    ensures DomainOf(router, count, n) < count
  {
  }

  lemma {:induction false} EdgesStay(router: Router, a: Attempt, stores: seq<Store>, d: nat, e: EdgeRow)
    requires d < |stores| && e in stores[d].edges
    ensures e in Written(router, a.home, a.batch, a.fate, stores)[d].edges
  {
    hide Perform, BatchEvents, LinksOf, Share;
    PerformLists(stores[d], BatchEvents(Share(router, |stores|, a.home, a.batch, d)));
  }

  lemma {:induction false} MirroredIsThere(router: Router, count: nat, a: Attempt, stores: seq<Store>, e: EdgeRow)
    requires count > 0 && |stores| == count && Sane(router, count, a, stores)
    requires e in Mirrored(router, count, a.home, a.batch, a.fate.mirrors)
    ensures DomainOf(router, count, e.from) != DomainOf(router, count, e.to) < count
    ensures e in Written(router, a.home, a.batch, a.fate, stores)[DomainOf(router, count, e.to)].edges
  {
    hide Perform, BatchEvents, Crossings, Homed, Covered, LinksOf, MirrorsFor, CrossEdges, HomedCrossings,
      FirstSource, NotesOf, FirstTarget, DomainOf, Leading, Sourced;
    var d, cs := DomainOf(router, count, e.to), Crossings(router, count, a.home, a.batch);
    DomainInRange(router, count, e.to);
    AllHomed(router, count, a.home, a.batch);
    CrossEdgeEnds(router, count, a.home, cs, e);
    MirrorLinks(router, count, a.home, cs, d, e);
    assert multiset(LinksOf(BatchEvents(MirrorsFor(router, count, cs, d))))[e] > 0;
    PerformLists(stores[d], BatchEvents(Share(router, count, a.home, a.batch, d)));
  }

  lemma {:induction false} CrossEdgeEnds(router: Router, count: nat, home: nat, cs: seq<Crossing>, e: EdgeRow)
    requires HomedCrossings(router, count, home, cs) && e in CrossEdges(cs)
    ensures DomainOf(router, count, e.from) == home != DomainOf(router, count, e.to)
    decreases |cs|
  {
    hide DomainOf;
    var init, last := cs[..|cs| - 1], cs[|cs| - 1];
    assert last in cs && forall c :: c in init ==> c in cs;
    if e in CrossEdges(init) {
      CrossEdgeEnds(router, count, home, init, e);
    }
  }

  /** Nothing is owed. */
  ghost predicate Agreed(router: Router, count: nat, stores: seq<Store>, single: Store) {
    Loose(router, count, stores, single, {})
  }

  /** No row that is at home in its domain is marked as a stub. */
  ghost predicate HomesUnmarked(router: Router, stores: seq<Store>)
    requires |stores| > 0
  {
    forall n: Node :: RowOf(stores[DomainOf(router, |stores|, n)].rows, n) != Some(STUB_SOURCE)
  }

  /** Nothing is owed, and what is marked as a stub is one. */
  ghost predicate Settled(router: Router, count: nat, stores: seq<Store>, single: Store) {
    count > 0 && Agreed(router, count, stores, single) && HomesUnmarked(router, stores)
  }

  /** Whether the attempt writes to domain `d`. */
  predicate Writes(a: Attempt, d: nat) { if d == a.home then a.fate.home else d in a.fate.mirrors }

  /** No row that the attempt creates at home is first named under the reserved source. */
  ghost predicate MarksNoHome(router: Router, a: Attempt, stores: seq<Store>)
    requires |stores| > 0
  {
    forall n: Node :: var d := DomainOf(router, |stores|, n);
      Writes(a, d) && n !in stores[d].rows ==> FirstSource(BatchEvents(a.batch), n) != Some(STUB_SOURCE)
  }

  ghost predicate NeverMarksHome(router: Router, attempts: seq<Attempt>, stores: seq<Store>)
    requires |stores| > 0
  {
    forall i :: 0 <= i < |attempts| ==> MarksNoHome(router, attempts[i], AfterAttempts(router, attempts[..i], stores))
  }

  /** In the domain a row is at home in, what is written for a batch first names it as
      the batch does. */
  lemma {:induction false} HomeSource(router: Router, count: nat, home: nat, reqs: seq<Request>, n: Node)
    requires count > 0 && Homed(router, count, home, reqs) && Sourced(Crossings(router, count, home, reqs))
    ensures FirstSource(BatchEvents(Share(router, count, home, reqs, DomainOf(router, count, n))), n)
         == FirstSource(BatchEvents(reqs), n)
  {
    hide BatchEvents, FirstSource, Crossings, DomainOf, Homed, HomedCrossings, LinksOf, NotesOf, FirstTarget, Leading,
      MirrorsFor, StubsFor, IsStubNode, Sourced, CrossEdges;
    var d := DomainOf(router, count, n);
    if d == home {
      var cs := Crossings(router, count, home, reqs);
      AllHomed(router, count, home, reqs);
      BatchAppend(StubsFor(router, cs), reqs);
      EventsAppend(BatchEvents(StubsFor(router, cs)), BatchEvents(reqs), n);
      StubTouch(router, count, home, cs, n);
    } else {
      MirroredTarget(router, count, home, reqs, d, n);
    }
  }

  lemma {:induction false} HomeRowAfter(router: Router, a: Attempt, stores: seq<Store>, n: Node)
    requires |stores| > 0 && Sane(router, |stores|, a, stores)
    ensures var d := DomainOf(router, |stores|, n);
      RowOf(Written(router, a.home, a.batch, a.fate, stores)[d].rows, n)
        == if n in stores[d].rows || !Writes(a, d) then RowOf(stores[d].rows, n)
           else FirstSource(BatchEvents(a.batch), n)
  {
    hide Perform, BatchEvents, FirstSource, Crossings, Homed, Sourced, Covered, Lands, Share;
    var d := DomainOf(router, |stores|, n);
    HomeSource(router, |stores|, a.home, a.batch, n);
    PerformRow(stores[d], BatchEvents(Share(router, |stores|, a.home, a.batch, d)), n);
  }

  /** Rows keep their source, so an attempt only matters where it creates one. */
  lemma {:induction false} AttemptMarks(router: Router, a: Attempt, stores: seq<Store>)
    requires |stores| > 0 && Sane(router, |stores|, a, stores)
    ensures HomesUnmarked(router, Written(router, a.home, a.batch, a.fate, stores))
       <==> (HomesUnmarked(router, stores) && MarksNoHome(router, a, stores))
  {
    hide BatchEvents, FirstSource, Sane, Written;
    var count, after := |stores|, Written(router, a.home, a.batch, a.fate, stores);
    if n: Node :| RowOf(stores[DomainOf(router, count, n)].rows, n) == Some(STUB_SOURCE) {
      HomeRowAfter(router, a, stores, n);
      assert !HomesUnmarked(router, after);
    } else if !MarksNoHome(router, a, stores) {
      var n: Node :|
        && Writes(a, DomainOf(router, count, n)) && n !in stores[DomainOf(router, count, n)].rows
        && FirstSource(BatchEvents(a.batch), n) == Some(STUB_SOURCE);
      HomeRowAfter(router, a, stores, n);
      assert !HomesUnmarked(router, after);
    } else {
      forall n: Node ensures RowOf(after[DomainOf(router, count, n)].rows, n) != Some(STUB_SOURCE) {
        HomeRowAfter(router, a, stores, n);
      }
    }
  }

  lemma {:induction false} HistoryMarks(router: Router, attempts: seq<Attempt>, stores: seq<Store>)
    requires |stores| > 0 && AllEmpty(stores) && AllSane(router, |stores|, attempts, stores)
    ensures HomesUnmarked(router, AfterAttempts(router, attempts, stores)) <==> NeverMarksHome(router, attempts, stores)
    decreases |attempts|
  {
    hide Sane, AllSane, Written, MarksNoHome, NeverMarksHome;
    MarksPrefix(router, attempts, stores);
    if attempts != [] {
      hide HomesUnmarked;
      SanePrefix(router, |stores|, attempts, stores);
      var n := |attempts| - 1;
      HistoryMarks(router, attempts[..n], stores);
      AttemptMarks(router, attempts[n], AfterAttempts(router, attempts[..n], stores));
    }
  }

  lemma {:induction false} MarksPrefix(router: Router, attempts: seq<Attempt>, stores: seq<Store>)
    requires |stores| > 0
    ensures var n := |attempts| - 1;
      if attempts == [] then NeverMarksHome(router, attempts, stores)
      else NeverMarksHome(router, attempts, stores)
           <==> (&& NeverMarksHome(router, attempts[..n], stores)
                 && MarksNoHome(router, attempts[n], AfterAttempts(router, attempts[..n], stores)))
  {
    hide MarksNoHome, AfterAttempts;
    var n := |attempts| - 1;
    if n >= 0 {
      assert forall i :: 0 <= i < n ==> attempts[..n][i] == attempts[i] && attempts[..n][..i] == attempts[..i];
    }
  }

  /** The exact condition: after any history the domains hold the one graph, no more
      and no less, if and only if every crossing edge that was mirrored by an attempt
      whose home transaction did not commit has been committed by another, and no
      attempt created a row at home under the reserved source. */
  lemma {:induction false} SettledIff(router: Router, count: nat, attempts: seq<Attempt>, stores: seq<Store>)
    requires count > 0 && |stores| == count && AllEmpty(stores) && AllSane(router, count, attempts, stores)
    ensures Agreed(router, count, AfterAttempts(router, attempts, stores), SingleOf(attempts))
       <==> forall e :: e in OwedBy(router, count, attempts) ==> e in SingleOf(attempts).edges
    ensures Settled(router, count, AfterAttempts(router, attempts, stores), SingleOf(attempts))
       <==> && (forall e :: e in OwedBy(router, count, attempts) ==> e in SingleOf(attempts).edges)
            && NeverMarksHome(router, attempts, stores)
  {
    hide AllSane, AfterAttempts, SingleOf, OwedBy, LooseStore, HomesUnmarked, NeverMarksHome;
    HistoryLoose(router, count, attempts, stores);
    HistoryMarks(router, attempts, stores);
    var after, single, owed := AfterAttempts(router, attempts, stores), SingleOf(attempts),
                               OwedBy(router, count, attempts);
    if forall e :: e in owed ==> e in single.edges {
      forall d | 0 <= d < count ensures LooseStore(router, count, d, after[d], single, {}) {
        DebtsPaid(router, count, d, after[d], single, owed);
      }
    } else {
      var e :| e in owed && e !in single.edges;
      OwedIsThere(router, count, attempts, stores, e);
      DomainInRange(router, count, e.to);
      DebtShows(router, count, after[DomainOf(router, count, e.to)], single, e);
    }
  }

  lemma {:induction false} DebtsPaid(router: Router, count: nat, d: nat, s: Store, single: Store, owed: set<EdgeRow>)
    requires LooseStore(router, count, d, s, single, owed) && EndsPresent(single)
    requires forall e :: e in owed ==> e in single.edges
    ensures LooseStore(router, count, d, s, single, {})
  {
    hide DomainOf, NoteRefines;
    forall n ensures LooseRow(router, count, d, s.rows, single.rows, {}, n) {
      assert LooseRow(router, count, d, s.rows, single.rows, owed, n);
    }
    forall e ensures LooseEdge(router, count, d, s.edges, single.edges, {}, e) {
      assert LooseEdge(router, count, d, s.edges, single.edges, owed, e);
    }
  }

  lemma {:induction false} DebtShows(router: Router, count: nat, s: Store, single: Store, e: EdgeRow)
    requires DomainOf(router, count, e.from) != DomainOf(router, count, e.to) && e in s.edges && e !in single.edges
    ensures !LooseStore(router, count, DomainOf(router, count, e.to), s, single, {})
  {
    assert multiset(s.edges)[e] > 0 && multiset(single.edges)[e] == 0;
    assert !LooseEdge(router, count, DomainOf(router, count, e.to), s.edges, single.edges, {}, e);
  }

  // ---------------------------------------------------------------------
  // What a settled history means
  // ---------------------------------------------------------------------

  /** The single store, each row under the source the domains hold it with. */
  function Resourced(router: Router, stores: seq<Store>, single: Store): Store
    requires |stores| > 0
    requires forall n :: n in single.rows ==> n in stores[DomainOf(router, |stores|, n)].rows
  {
    single.(rows := map n | n in single.rows :: stores[DomainOf(router, |stores|, n)].rows[n])
  }

  /** Domains that owe nothing are the exact partition of the single store, up to
      which caller's source a row was created under; settled ones can be read back as
      such, so everything a reader is promised of such a partition holds. */
  lemma {:induction false} SettledMeans(router: Router, count: nat, stores: seq<Store>, single: Store)
    requires count > 0 && Agreed(router, count, stores, single)
    ensures |stores| == count
    ensures forall n :: n in single.rows ==> n in stores[DomainOf(router, count, n)].rows
    ensures Partitioned(router, count, stores, Resourced(router, stores, single), false)
    ensures Refines(router, count, stores, Resourced(router, stores, single), false)
       <==> Settled(router, count, stores, single)
    ensures Resourced(router, stores, single).rows.Keys == single.rows.Keys
  {
    hide EndsPresent, DomainOf;
    assert forall n: Node :: DomainOf(router, count, n) < count by {
      forall n: Node {
        DomainInRange(router, count, n);
      }
    }
    forall n
      ensures n in single.rows <==> n in stores[DomainOf(router, count, n)].rows
    {
      var d := DomainOf(router, count, n);
      assert LooseRow(router, count, d, stores[d].rows, single.rows, {}, n);
    }
    var other := Resourced(router, stores, single);
    forall d | 0 <= d < count ensures StoreRefines(router, count, d, stores[d], other, false) {
      forall n ensures RowRefines(router, count, d, stores[d].rows, other.rows, n) {
        assert LooseRow(router, count, d, stores[d].rows, single.rows, {}, n);
      }
      forall e ensures EdgeRefines(router, count, d, stores[d].edges, other.edges, e, false) {
        assert LooseEdge(router, count, d, stores[d].edges, single.edges, {}, e);
      }
    }
    UnmarkedIff(router, stores, single);
  }

  lemma {:induction false} UnmarkedIff(router: Router, stores: seq<Store>, single: Store)
    requires |stores| > 0
    requires forall n :: n in single.rows <==> n in stores[DomainOf(router, |stores|, n)].rows
    ensures NoneReserved(Resourced(router, stores, single)) <==> HomesUnmarked(router, stores)
  {
    var other := Resourced(router, stores, single);
    assert forall n :: RowOf(other.rows, n) == RowOf(stores[DomainOf(router, |stores|, n)].rows, n);
    if n :| n in other.rows && other.rows[n] == STUB_SOURCE {
      assert RowOf(other.rows, n) == Some(STUB_SOURCE);
    }
  }

  /** In particular the reported totals are those of the single store; and with more
      than one domain, only of settled ones. */
  lemma {:induction false} SettledStatus(router: Router, count: nat, stores: seq<Store>, single: Store)
    requires count > 0 && Agreed(router, count, stores, single)
    ensures StatusOf(stores) == TotalsOf(single) <==> count == 1 || Settled(router, count, stores, single)
  {
    hide Agreed, StatusOf, Partitioned, Resourced, HomesUnmarked, NoneReserved;
    SettledMeans(router, count, stores, single);
    var other := Resourced(router, stores, single);
    SameLists(router, stores, single);
    StatusCounts(router, count, stores, other, false);
    assert |other.rows| == |other.rows.Keys| == |single.rows.Keys| == |single.rows|;
  }

  lemma {:induction false} SameLists(router: Router, stores: seq<Store>, single: Store)
    requires |stores| > 0
    requires forall n :: n in single.rows ==> n in stores[DomainOf(router, |stores|, n)].rows
    ensures var other := Resourced(router, stores, single);
      other.notes == single.notes && other.edges == single.edges
  {
  }

  // ---------------------------------------------------------------------
  // Regrouped replays
  // ---------------------------------------------------------------------

  lemma {:induction false} LinkFrom(reqs: seq<Request>, e: EdgeRow) returns (r: Request, rel: RelationInput)
    requires e in LinksOf(BatchEvents(reqs))
    ensures r in reqs && rel in r.relations && EdgeFor(r, rel) == e
    decreases |reqs|
  {
    hide GroupEvents, LinksOf, FirstSource, NotesOf;
    if reqs == [] {
      NothingTouched(Router(s => s, s => 0), 1, 0, e.from);
      assert false;
    } else {
      var init, last := reqs[..|reqs| - 1], reqs[|reqs| - 1];
      EventsAppend(BatchEvents(init), GroupEvents(last), e.from);
      GroupTouch(last, e.from);
      if e in LinksOf(BatchEvents(init)) {
        r, rel := LinkFrom(init, e);
      } else {
        r := last;
        rel := RelationFrom(last, last.relations, e);
      }
    }
  }

  lemma {:induction false} RelationFrom(req: Request, rels: seq<RelationInput>, e: EdgeRow) returns (rel: RelationInput)
    requires e in LinksOf(RelationEvents(req, rels))
    ensures rel in rels && EdgeFor(req, rel) == e
    decreases |rels|
  {
    hide LinksOf, FirstSource, NotesOf;
    if rels == [] {
      NothingTouched(Router(s => s, s => 0), 1, 0, e.from);
      assert false;
    } else {
      var init, last := rels[..|rels| - 1], rels[|rels| - 1];
      var more := [Touch(TargetOf(last), SourceFor(req, last)), Relate(EdgeFor(req, last))];
      EventsAppend(RelationEvents(req, init), more, e.from);
      OneRelation(Router(s => s, s => 0), 1, 0, req, last, e.from);
      if e in LinksOf(RelationEvents(req, init)) {
        rel := RelationFrom(req, init, e);
      } else {
        rel := last;
      }
    }
  }

  lemma {:induction false} LinkIn(reqs: seq<Request>, r: Request, rel: RelationInput)
    requires r in reqs && rel in r.relations
    ensures EdgeFor(r, rel) in LinksOf(BatchEvents(reqs))
    decreases |reqs|
  {
    hide GroupEvents, LinksOf, FirstSource, NotesOf;
    var init, last := reqs[..|reqs| - 1], reqs[|reqs| - 1];
    EventsAppend(BatchEvents(init), GroupEvents(last), NodeOf(r));
    GroupTouch(last, NodeOf(r));
    if r in init {
      LinkIn(init, r, rel);
    } else {
      RelationIn(last, last.relations, rel);
    }
  }

  lemma {:induction false} RelationIn(req: Request, rels: seq<RelationInput>, rel: RelationInput)
    requires rel in rels
    ensures EdgeFor(req, rel) in LinksOf(RelationEvents(req, rels))
    decreases |rels|
  {
    hide LinksOf, FirstSource, NotesOf;
    var init, last := rels[..|rels| - 1], rels[|rels| - 1];
    var more := [Touch(TargetOf(last), SourceFor(req, last)), Relate(EdgeFor(req, last))];
    EventsAppend(RelationEvents(req, init), more, NodeOf(req));
    OneRelation(Router(s => s, s => 0), 1, 0, req, last, NodeOf(req));
    if rel in init {
      RelationIn(req, init, rel);
    }
  }

  lemma {:induction false} RelatedFrom(router: Router, reqs: seq<Request>, key: GroupKey, rel: RelationInput)
    returns (i: nat)
    requires rel in Related(router, reqs, key)
    ensures i < |reqs| && KeyOf(router, reqs[i]) == key && rel in reqs[i].relations
    decreases |reqs|
  {
    var n := |reqs| - 1;
    if rel in Related(router, reqs[..n], key) {
      i := RelatedFrom(router, reqs[..n], key, rel);
    } else {
      i := n;
    }
  }

  lemma {:induction false} RelatedIn(router: Router, reqs: seq<Request>, i: nat, rel: RelationInput)
    requires i < |reqs| && rel in reqs[i].relations
    ensures rel in Related(router, reqs, KeyOf(router, reqs[i]))
    decreases |reqs|
  {
    var n := |reqs| - 1;
    if i < n {
      RelatedIn(router, reqs[..n], i, rel);
    }
  }

  /** What the grouping of a drain promises about the batch it builds. */
  ghost predicate Grouping(router: Router, batch: seq<Request>, reqs: seq<Request>) {
    SameContent(router, batch, reqs) && Headers(batch) <= Headers(reqs) && OneSpelling(router, reqs)
  }

  /** A group and a request of one key carry one header. */
  lemma {:induction false} OneHeader(router: Router, batch: seq<Request>, reqs: seq<Request>, g: nat, r: nat)
    requires Grouping(router, batch, reqs) && g < |batch| && r < |reqs|
    requires KeyOf(router, batch[g]) == KeyOf(router, reqs[r])
    ensures Header(batch[g]) == Header(reqs[r])
  {
    hide SameContent;
    InHeaders(batch, g);
    var k :| 0 <= k < |reqs| && Header(reqs[k]) == Header(batch[g]);
    assert KeyOf(router, reqs[k]) == KeyOf(router, reqs[r]);
    assert k < r || k == r || r < k;
  }

  /** Grouped and as submitted, the requests relate the same. */
  lemma {:induction false} GroupedEdges(router: Router, batch: seq<Request>, reqs: seq<Request>, e: EdgeRow)
    requires Grouping(router, batch, reqs)
    ensures e in LinksOf(BatchEvents(batch)) <==> e in LinksOf(BatchEvents(reqs))
  {
    hide LinksOf, BatchEvents, Related, Observed, Headers, OneSpelling;
    if e in LinksOf(BatchEvents(batch)) {
      var r, rel := LinkFrom(batch, e);
      var g :| 0 <= g < |batch| && batch[g] == r;
      RelatedIn(router, batch, g, rel);
      var i := RelatedFrom(router, reqs, KeyOf(router, batch[g]), rel);
      OneHeader(router, batch, reqs, g, i);
      LinkIn(reqs, reqs[i], rel);
    }
    if e in LinksOf(BatchEvents(reqs)) {
      var r, rel := LinkFrom(reqs, e);
      var i :| 0 <= i < |reqs| && reqs[i] == r;
      RelatedIn(router, reqs, i, rel);
      var g := RelatedFrom(router, batch, KeyOf(router, reqs[i]), rel);
      OneHeader(router, batch, reqs, g, i);
      LinkIn(batch, batch[g], rel);
    }
  }

  /** The request is part of an attempt that commits. */
  ghost predicate Landed(attempts: seq<Attempt>, r: Request) {
    exists j :: 0 <= j < |attempts| && attempts[j].fate.home && r in attempts[j].reqs
  }

  lemma {:induction false} LandedEdges(attempts: seq<Attempt>, j: nat, e: EdgeRow)
    requires j < |attempts| && attempts[j].fate.home && e in LinksOf(BatchEvents(attempts[j].batch))
    ensures e in SingleOf(attempts).edges
    decreases |attempts|
  {
    hide Perform, BatchEvents, LinksOf;
    var n := |attempts| - 1;
    PerformLists(SingleOf(attempts[..n]), BatchEvents(attempts[n].batch));
    if j < n {
      LandedEdges(attempts[..n], j, e);
    }
  }

  lemma {:induction false} OwedFrom(router: Router, count: nat, attempts: seq<Attempt>, e: EdgeRow) returns (i: nat)
    requires e in OwedBy(router, count, attempts)
    ensures i < |attempts| && !attempts[i].fate.home
    ensures e in CrossEdges(Crossings(router, count, attempts[i].home, attempts[i].batch))
    decreases |attempts|
  {
    hide CrossEdges, Crossings;
    var n := |attempts| - 1;
    if e in OwedBy(router, count, attempts[..n]) {
      i := OwedFrom(router, count, attempts[..n], e);
    } else {
      i := n;
    }
  }

  /** Replays settle: however the requests of the attempts that failed are grouped,
      split or extended when they are written again, once each of them is part of an
      attempt that commits the domains hold the one graph; and they can be read back
      exactly when no attempt created a row at home under the reserved source. */
  lemma {:induction false} ReplaySettles(router: Router, count: nat, attempts: seq<Attempt>, stores: seq<Store>)
    requires count > 0 && |stores| == count && AllEmpty(stores) && AllSane(router, count, attempts, stores)
    requires forall i :: 0 <= i < |attempts| ==> Grouping(router, attempts[i].batch, attempts[i].reqs)
    requires forall i, r :: 0 <= i < |attempts| && r in attempts[i].reqs ==> Landed(attempts, r)
    ensures Agreed(router, count, AfterAttempts(router, attempts, stores), SingleOf(attempts))
    ensures Settled(router, count, AfterAttempts(router, attempts, stores), SingleOf(attempts))
       <==> NeverMarksHome(router, attempts, stores)
  {
    hide AfterAttempts, SingleOf, OwedBy, Agreed, Settled, NeverMarksHome, Grouping, CrossEdges, Crossings, LinksOf,
      BatchEvents;
    SettledIff(router, count, attempts, stores);
    forall e | e in OwedBy(router, count, attempts) ensures e in SingleOf(attempts).edges {
      var i := OwedFrom(router, count, attempts, e);
      var a := attempts[i];
      CrossIsLink(router, count, a, AfterAttempts(router, attempts[..i], stores), e);
      GroupedEdges(router, a.batch, a.reqs, e);
      var r, rel := LinkFrom(a.reqs, e);
      assert Landed(attempts, r);
      var j :| 0 <= j < |attempts| && attempts[j].fate.home && r in attempts[j].reqs;
      LinkIn(attempts[j].reqs, r, rel);
      GroupedEdges(router, attempts[j].batch, attempts[j].reqs, e);
      LandedEdges(attempts, j, e);
    }
  }

  lemma {:induction false} CrossIsLink(router: Router, count: nat, a: Attempt, stores: seq<Store>, e: EdgeRow)
    requires |stores| == count && Sane(router, count, a, stores)
    requires e in CrossEdges(Crossings(router, count, a.home, a.batch))
    ensures e in LinksOf(BatchEvents(a.batch))
  {
    hide CrossEdges, Crossings, LinksOf, BatchEvents, Homed, Sourced, Covered, Lands, FirstSource, NotesOf;
    BatchTouch(router, count, a.home, a.batch, e.from);
    assert multiset(CrossEdges(Crossings(router, count, a.home, a.batch)))[e] > 0;
    assert multiset(LinksOf(BatchEvents(a.batch)))[e] > 0;
  }

  // ---------------------------------------------------------------------
  // Two histories
  // ---------------------------------------------------------------------

  function Knows(name: string, source: string, relates: bool): Request {
    Request(name, 0, [], if relates then [RelationInput("knows", "tt", 0, source)] else [], source)
  }

  lemma {:induction false} KnowsCrosses(name: string, source: string)
    ensures var router := ByLength(s => s);
      CrossingsIn(router, 2, 1, Knows(name, source, true), Knows(name, source, true).relations)
      == [Crossing(Knows(name, source, true), RelationInput("knows", "tt", 0, source))]
  {
    CrossingOfOne(ByLength(s => s), 2, 1, Knows(name, source, true), RelationInput("knows", "tt", 0, source));
  }

  /** A request that is refused for good leaves its mirror behind: a target row that
      nothing marks as a stub, and that the totals count. */
  lemma {:induction false} RefusedLeavesRow()
    ensures
      var router, stores := ByLength(s => s), [EMPTY_STORE, EMPTY_STORE];
      var attempts := [Attempt(1, [Knows("x", "a", true)], [Knows("x", "a", true)], Fate({0}, false))];
      var after := AfterAttempts(router, attempts, stores);
      && AllEmpty(stores) && AllSane(router, 2, attempts, stores)
      && SingleOf(attempts) == EMPTY_STORE && !Agreed(router, 2, after, EMPTY_STORE)
      && Node("tt", 0) in CanonicalRows(after[0].rows) && StatusOf(after).entities > 0
  {
    hide Perform, BatchEvents, Crossings, StubsFor, MirrorsFor, Agreed, Settled, FirstSource, FirstTarget, SumRows,
      LinksOf, NotesOf, CrossEdges;
    var router, stores, n := ByLength(s => s), [EMPTY_STORE, EMPTY_STORE], Node("tt", 0);
    var reqs := [Knows("x", "a", true)];
    var a := Attempt(1, reqs, reqs, Fate({0}, false));
    var attempts := [a];
    assert attempts[..0] == [];
    assert SingleOf([]) == EMPTY_STORE && AfterAttempts(router, [], stores) == stores && OwedBy(router, 2, []) == {};
    CrossingsOfOne(router, 2, 1, reqs[0]);
    KnowsCrosses("x", "a");
    var c := Crossing(reqs[0], RelationInput("knows", "tt", 0, "a"));
    assert Crossings(router, 2, 1, reqs) == [c];
    assert Sane(router, 2, a, stores);
    CrossEdgeIn([c], c);
    assert EdgeFor(c.req, c.rel) in OwedBy(router, 2, attempts);
    SettledIff(router, 2, attempts, stores);
    var after := AfterAttempts(router, attempts, stores);
    assert after == Written(router, 1, reqs, a.fate, stores);
    AllHomed(router, 2, 1, reqs);
    MirrorTouch(router, 2, 1, [c], 0, n);
    PerformRow(stores[0], BatchEvents(Share(router, 2, 1, reqs, 0)), n);
    TargetFound([c], n);
    assert after[0].rows[n] == "a";
    RowIsCounted(after, 0, n);
  }

  lemma {:induction false} RowIsCounted(stores: seq<Store>, d: nat, n: Node)
    requires d < |stores| && n in CanonicalRows(stores[d].rows)
    ensures SumRows(stores) > 0
    decreases |stores|
  {
    hide CanonicalRows;
    var k := |stores| - 1;
    if d < k {
      RowIsCounted(stores[..k], d, n);
    } else {
      assert CanonicalRows(stores[k].rows) != map[];
    }
  }

  lemma {:induction false} CrossingsSnoc(router: Router, count: nat, home: nat, reqs: seq<Request>, r: Request)
    ensures Crossings(router, count, home, reqs + [r])
         == Crossings(router, count, home, reqs) + CrossingsIn(router, count, home, r, r.relations)
  {
    assert (reqs + [r])[..|reqs|] == reqs;
  }

  function Plain(): seq<Request> { [Knows("x", "a", false), Knows("y", "b", true), Knows("x", "a", true)] }

  function Regrouped(): seq<Request> { [Knows("x", "a", true), Knows("y", "b", true)] }

  lemma {:induction false} PlainCrossings()
    ensures var router := ByLength(s => s);
      var x := Crossing(Knows("x", "a", true), RelationInput("knows", "tt", 0, "a"));
      var y := Crossing(Knows("y", "b", true), RelationInput("knows", "tt", 0, "b"));
      Crossings(router, 2, 1, Plain()) == [y, x] && Crossings(router, 2, 1, Regrouped()) == [x, y]
  {
    hide Crossings, CrossingsIn;
    var router := ByLength(s => s);
    var x0, x1, y := Knows("x", "a", false), Knows("x", "a", true), Knows("y", "b", true);
    KnowsCrosses("x", "a");
    KnowsCrosses("y", "b");
    CrossingsOfOne(router, 2, 1, x0);
    CrossingsOfOne(router, 2, 1, x1);
    NoRelations(router, x0);
    CrossingsSnoc(router, 2, 1, [x0], y);
    CrossingsSnoc(router, 2, 1, [x0] + [y], x1);
    CrossingsSnoc(router, 2, 1, [x1], y);
    assert Plain() == [x0] + [y] + [x1] && Regrouped() == [x1] + [y];
  }

  lemma {:induction false} NoRelations(router: Router, req: Request)
    ensures CrossingsIn(router, 2, 1, req, []) == []
  {
  }

  lemma {:induction false} PlainGrouping(router: Router)
    requires router == ByLength(s => s)
    ensures Grouping(router, Regrouped(), Plain()) && Grouping(router, Plain(), Plain())
  {
    var x0, x1, y := Knows("x", "a", false), Knows("x", "a", true), Knows("y", "b", true);
    assert Plain() == [] + [x0] + [y] + [x1] && Regrouped() == [] + [x1] + [y];
    forall key
      ensures Observed(router, Regrouped(), key) == Observed(router, Plain(), key)
      ensures Related(router, Regrouped(), key) == Related(router, Plain(), key)
    {
      hide Observed, Related;
      ObservedSnoc(router, [], x0, key);
      ObservedSnoc(router, [] + [x0], y, key);
      ObservedSnoc(router, [] + [x0] + [y], x1, key);
      ObservedSnoc(router, [], x1, key);
      ObservedSnoc(router, [] + [x1], y, key);
      NoGroup(router, [], key);
    }
    forall h | h in Headers(Regrouped()) ensures h in Headers(Plain()) {
      InHeaders(Plain(), 0);
      InHeaders(Plain(), 1);
    }
  }

  /** The grouped batch of a drain crashes after its mirror, and the requests are
      written again one by one: the domains settle, but hold the shared target under
      the source that came first in the group, not first in the queue. */
  lemma {:induction false} RegroupingMovesSource()
    ensures
      var router, stores, n := ByLength(s => s), [EMPTY_STORE, EMPTY_STORE], Node("tt", 0);
      var attempts := [Attempt(1, Plain(), Regrouped(), Fate({0}, false)),
                       Attempt(1, Plain(), Plain(), Fate({0}, true))];
      var after, single := AfterAttempts(router, attempts, stores), SingleOf(attempts);
      && Settled(router, 2, after, single)
      && RowOf(after[0].rows, n) == Some("a") && RowOf(single.rows, n) == Some("b")
  {
    hide Perform, BatchEvents, Crossings, StubsFor, MirrorsFor, Settled, FirstSource, FirstTarget, LinksOf, NotesOf,
      CrossEdges, Grouping, Plain, Regrouped, Share;
    var router, stores, n := ByLength(s => s), [EMPTY_STORE, EMPTY_STORE], Node("tt", 0);
    var a, b := Attempt(1, Plain(), Regrouped(), Fate({0}, false)), Attempt(1, Plain(), Plain(), Fate({0}, true));
    var attempts := [a, b];
    PlainSane(stores);
    PlainGrouping(router);
    assert forall r :: r in Plain() ==> Landed(attempts, r) by {
      assert attempts[1].fate.home && attempts[1].reqs == Plain();
    }
    PlainMarks(attempts, stores);
    ReplaySettles(router, 2, attempts, stores);
    assert attempts[..1] == [a] && [a][..0] == [];
    var between := Written(router, 1, Regrouped(), a.fate, stores);
    assert AfterAttempts(router, [], stores) == stores && SingleOf([]) == EMPTY_STORE;
    assert AfterAttempts(router, [a], stores) == between && SingleOf([a]) == EMPTY_STORE;
    PlainSources(n);
    PerformRow(stores[0], BatchEvents(Share(router, 2, 1, Regrouped(), 0)), n);
    PerformRow(between[0], BatchEvents(Share(router, 2, 1, Plain(), 0)), n);
    PerformRow(EMPTY_STORE, BatchEvents(Plain()), n);
  }

  lemma {:induction false} PlainMarks(attempts: seq<Attempt>, stores: seq<Store>)
    requires |stores| > 0 && forall a :: a in attempts ==> a.batch == Plain() || a.batch == Regrouped()
    ensures NeverMarksHome(ByLength(s => s), attempts, stores)
  {
    hide BatchEvents, FirstSource, AfterAttempts;
    forall n: Node
      ensures FirstSource(BatchEvents(Plain()), n) != Some(STUB_SOURCE)
      ensures FirstSource(BatchEvents(Regrouped()), n) != Some(STUB_SOURCE)
    {
      TouchUnreserved(Plain(), n);
      TouchUnreserved(Regrouped(), n);
    }
  }

  lemma {:induction false} PlainSane(stores: seq<Store>)
    requires stores == [EMPTY_STORE, EMPTY_STORE]
    ensures
      var attempts := [Attempt(1, Plain(), Regrouped(), Fate({0}, false)),
                       Attempt(1, Plain(), Plain(), Fate({0}, true))];
      AllSane(ByLength(s => s), 2, attempts, stores)
  {
    hide Perform, BatchEvents, Crossings, MirrorsFor;
    var router := ByLength(s => s);
    var attempts := [Attempt(1, Plain(), Regrouped(), Fate({0}, false)), Attempt(1, Plain(), Plain(), Fate({0}, true))];
    PlainCrossings();
    assert attempts[..0] == [] && attempts[..1] == [attempts[0]];
    forall i | 0 <= i < 2 ensures Sane(router, 2, attempts[i], AfterAttempts(router, attempts[..i], stores)) {
      PlainCovered(router, AfterAttempts(router, attempts[..i], stores)[1].rows);
    }
  }

  lemma {:induction false} PlainCovered(router: Router, rows: map<Node, string>)
    requires router == ByLength(s => s)
    ensures Covered(router, rows, Crossings(router, 2, 1, Plain()))
  {
    hide Crossings, IsStubNode, Covered;
    PlainCrossings();
    var cs := Crossings(router, 2, 1, Plain());
    assert forall c :: c in cs ==> c == cs[0] || c == cs[1];
    OneSpellingCovers(router, rows, cs);
  }

  lemma {:induction false} PlainSources(n: Node)
    requires n == Node("tt", 0)
    ensures var router := ByLength(s => s);
      && FirstSource(BatchEvents(Share(router, 2, 1, Regrouped(), 0)), n) == Some("a")
      && FirstSource(BatchEvents(Plain()), n) == Some("b")
  {
    hide BatchEvents, Crossings, MirrorsFor, FirstSource, LinksOf, NotesOf, CrossEdges;
    var router := ByLength(s => s);
    PlainCrossings();
    var p, m := Crossings(router, 2, 1, Plain()), Crossings(router, 2, 1, Regrouped());
    AllHomed(router, 2, 1, Regrouped());
    MirrorTouch(router, 2, 1, m, 0, n);
    BatchTouch(router, 2, 1, Plain(), n);
    assert p[..1] == [p[0]] && p[..1][..0] == [] && m[..1] == [m[0]] && m[..1][..0] == [];
    assert FirstTarget([], n) == None;
    assert FirstTarget([p[0]], n) == Some("b") && FirstTarget([m[0]], n) == Some("a");
  }
}
