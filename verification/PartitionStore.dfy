/** The partitioned store: writing batches, what crashes between the mirror and the
    home transactions leave, and the totals that `status` reports. */
module PartitionStore {
  import opened Prelude
  import opened Requests
  import opened DoubleWrite
  import opened DoubleWritePlan
  import opened DoubleWriteRefinement

  // ---------------------------------------------------------------------
  // Exactly when a batch keeps the refinement
  // ---------------------------------------------------------------------

  lemma {:induction false} CrossEdgeIn(cs: seq<Crossing>, c: Crossing)
    requires c in cs
    ensures EdgeFor(c.req, c.rel) in CrossEdges(cs)
    decreases |cs|
  {
    var init, last := cs[..|cs| - 1], cs[|cs| - 1];
    if c != last {
      assert c in init;
      CrossEdgeIn(init, c);
    }
  }

  /** A remote target that is spelled unlike its stub gets an unmarked row. */
  lemma {:induction false} UncoveredRow(router: Router, count: nat, home: nat, reqs: seq<Request>, s: Store,
      c: Crossing)
    requires Homed(router, count, home, reqs)
    requires c in Crossings(router, count, home, reqs) && TargetOf(c.rel) !in s.rows
    requires !IsStubNode(router, Crossings(router, count, home, reqs), TargetOf(c.rel))
    requires FirstTarget(Crossings(router, count, home, reqs), TargetOf(c.rel)) != Some(STUB_SOURCE)
    ensures
      var after := Perform(s, BatchEvents(Share(router, count, home, reqs, home)));
      var n := TargetOf(c.rel);
      DomainOf(router, count, n) != home && n in after.rows && after.rows[n] != STUB_SOURCE
  {
    hide Perform, BatchEvents, FirstSource, Crossings, StubsFor, DomainOf, IsStubNode, Homed, HomedCrossings, LinksOf,
      NotesOf, FirstTarget, Leading;
    var cs := Crossings(router, count, home, reqs);
    var n := TargetOf(c.rel);
    AllHomed(router, count, home, reqs);
    CrossingHomes(router, count, home, reqs, c);
    PerformRow(s, BatchEvents(Share(router, count, home, reqs, home)), n);
    BatchAppend(StubsFor(router, cs), reqs);
    EventsAppend(BatchEvents(StubsFor(router, cs)), BatchEvents(reqs), n);
    StubTouch(router, count, home, cs, n);
    BatchTouch(router, count, home, reqs, n);
    TargetFound(cs, n);
  }

  /** A crossing edge without a source is not mirrored as the caller wrote it. */
  lemma {:induction false} UnsourcedEdge(router: Router, count: nat, home: nat, reqs: seq<Request>, d: nat, s: Store,
      single: Store, c: Crossing)
    requires Homed(router, count, home, reqs) && c in Crossings(router, count, home, reqs)
        && SourceFor(c.req, c.rel) == ""
    requires d == DomainOf(router, count, TargetOf(c.rel)) && StoreRefines(router, count, d, s, single, true)
    ensures d != home
    ensures
      var after, whole := Perform(s, BatchEvents(Share(router, count, home, reqs, d))),
          Perform(single, BatchEvents(reqs));
      multiset(after.edges)[EdgeFor(c.req, c.rel)] < multiset(whole.edges)[EdgeFor(c.req, c.rel)]
  {
    hide Perform, BatchEvents, Crossings, MirrorsFor, StubsFor, DomainOf, Homed, HomedCrossings, LinksOf, NotesOf,
      CrossEdges;
    var cs := Crossings(router, count, home, reqs);
    var e := EdgeFor(c.req, c.rel);
    AllHomed(router, count, home, reqs);
    CrossingHomes(router, count, home, reqs, c);
    PerformLists(s, BatchEvents(Share(router, count, home, reqs, d)));
    PerformLists(single, BatchEvents(reqs));
    BatchTouch(router, count, home, reqs, e.from);
    CrossEdgeIn(cs, c);
    assert EdgeRefines(router, count, d, s.edges, single.edges, e, true);
    if e in LinksOf(BatchEvents(MirrorsFor(router, count, cs, d))) {
      MirrorEnds(router, count, home, cs, d, e);
    }
  }

  /** A batch whose transactions all commit keeps the partition exactly when each of
      its crossing edges carries a source and the row of each remote target is, or
      will be, marked; and the partition can be read back exactly when, besides, the
      batch creates no row under the reserved source. */
  lemma {:induction false} BatchRefinesIff(router: Router, count: nat, home: nat, reqs: seq<Request>, fate: Fate,
      stores: seq<Store>, single: Store)
    requires Partitioned(router, count, stores, single, true) && home < count
    requires Homed(router, count, home, reqs) && Lands(router, count, home, reqs, fate)
    ensures Partitioned(router, count, Written(router, home, reqs, fate, stores), Perform(single, BatchEvents(reqs)),
                        true)
      <==> WellFormed(router, count, home, reqs, stores)
    ensures Refines(router, count, Written(router, home, reqs, fate, stores), Perform(single, BatchEvents(reqs)), true)
      <==> && WellFormed(router, count, home, reqs, stores)
           && NoneReserved(single) && CreatesNoReserved(reqs, single.rows)
  {
    hide StoreRefines, Crossings, Homed, Perform, BatchEvents, Share, NoneReserved, CreatesNoReserved;
    if WellFormed(router, count, home, reqs, stores) {
      BatchRefines(router, count, home, reqs, fate, stores, single, true);
    } else {
      var cs := Crossings(router, count, home, reqs);
      var written, whole := Written(router, home, reqs, fate, stores), Perform(single, BatchEvents(reqs));
      if !Sourced(cs) {
        var c :| c in cs && SourceFor(c.req, c.rel) == "";
        var d := DomainOf(router, count, TargetOf(c.rel));
        UnsourcedEdge(router, count, home, reqs, d, stores[d], single, c);
        NothingShared(stores[d]);
        assert written[d] == Perform(stores[d], BatchEvents(Share(router, count, home, reqs, d)));
        EdgeMissing(router, count, d, written[d], whole, EdgeFor(c.req, c.rel));
      } else {
        var c :| c in cs && TargetOf(c.rel) !in stores[home].rows && !IsStubNode(router, cs, TargetOf(c.rel))
                 && FirstTarget(cs, TargetOf(c.rel)) != Some(STUB_SOURCE);
        UncoveredRow(router, count, home, reqs, stores[home], c);
        RowUnmarked(router, count, home, written[home], whole, TargetOf(c.rel));
      }
    }
  }

  lemma {:induction false} NothingShared(s: Store)
    ensures Perform(s, BatchEvents([])) == s
  {
  }

  lemma {:induction false} EdgeMissing(router: Router, count: nat, d: nat, s: Store, single: Store, e: EdgeRow)
    requires DomainOf(router, count, e.to) == d && multiset(s.edges)[e] < multiset(single.edges)[e]
    ensures !StoreRefines(router, count, d, s, single, true)
  {
    assert !EdgeRefines(router, count, d, s.edges, single.edges, e, true);
  }

  lemma {:induction false} RowUnmarked(router: Router, count: nat, d: nat, s: Store, single: Store, n: Node)
    requires DomainOf(router, count, n) != d && n in s.rows && s.rows[n] != STUB_SOURCE
    ensures !StoreRefines(router, count, d, s, single, true)
  {
    assert !RowRefines(router, count, d, s.rows, single.rows, n);
  }

  /** Two domains; the owner of a name is decided by its length. */
  function ByLength(lower: string -> string): Router { Router(lower, s => |s|) }

  lemma {:induction false} CrossingsOfOne(router: Router, count: nat, home: nat, req: Request)
    ensures Crossings(router, count, home, [req]) == CrossingsIn(router, count, home, req, req.relations)
  {
    assert [req][..0] == [];
    assert Crossings(router, count, home, []) == [];
  }

  lemma {:induction false} CrossingOfOne(router: Router, count: nat, home: nat, req: Request, rel: RelationInput)
    requires DomainOf(router, count, TargetOf(rel)) != home
    ensures CrossingsIn(router, count, home, req, [rel]) == [Crossing(req, rel)]
  {
    assert [rel][..0] == [];
    assert CrossingsIn(router, count, home, req, []) == [];
  }

  /** A request without a source that relates into the other domain. */
  function Unsourced(): Request { Request("a", 0, [], [RelationInput("knows", "bb", 0, "")], "") }

  /** The first way to fail: the mirror of an edge without a source carries the
      stub source. */
  lemma {:induction false} UnsourcedFails()
    ensures
      var router, stores, fate := ByLength(s => s), [EMPTY_STORE, EMPTY_STORE], Fate({0}, true);
      && Refines(router, 2, stores, EMPTY_STORE, true)
      && Homed(router, 2, 1, [Unsourced()]) && Lands(router, 2, 1, [Unsourced()], fate)
      && !Partitioned(router, 2, Written(router, 1, [Unsourced()], fate, stores),
                      Perform(EMPTY_STORE, BatchEvents([Unsourced()])), true)
  {
    hide StoreRefines, Perform, BatchEvents, Crossings, CrossingsIn, StubsFor, MirrorsFor;
    var router, stores, fate := ByLength(s => s), [EMPTY_STORE, EMPTY_STORE], Fate({0}, true);
    EmptyExact(router, 2, 0);
    EmptyExact(router, 2, 1);
    CrossingsOfOne(router, 2, 1, Unsourced());
    CrossingOfOne(router, 2, 1, Unsourced(), Unsourced().relations[0]);
    assert Crossing(Unsourced(), Unsourced().relations[0]) in Crossings(router, 2, 1, [Unsourced()]);
    BatchRefinesIff(router, 2, 1, [Unsourced()], fate, stores, EMPTY_STORE);
  }

  lemma {:induction false} EmptyExact(router: Router, count: nat, d: nat)
    ensures StoreRefines(router, count, d, EMPTY_STORE, EMPTY_STORE, true)
  {
  }

  /** A request whose source is the reserved one. */
  function Reserved(): Request { Request("a", 0, ["seen"], [], STUB_SOURCE) }

  /** The third way to fail: the batch is stored as the caller wrote it, observation and
      all, but its row is taken for a stub, so the merged graph has the observation
      without its entity and the totals count none. */
  lemma {:induction false} ReservedHides()
    ensures
      var router, stores, fate := ByLength(s => s), [EMPTY_STORE, EMPTY_STORE], Fate({}, true);
      var after := Written(router, 1, [Reserved()], fate, stores);
      var single := Perform(EMPTY_STORE, BatchEvents([Reserved()]));
      && Refines(router, 2, stores, EMPTY_STORE, true)
      && Homed(router, 2, 1, [Reserved()]) && Lands(router, 2, 1, [Reserved()], fate)
      && WellFormed(router, 2, 1, [Reserved()], stores)
      && Partitioned(router, 2, after, single, true) && !Refines(router, 2, after, single, true)
      && TotalsOf(single) == Totals(1, 1, 0) && StatusOf(after) == Totals(0, 1, 0)
      && Merged(after).rows == map[] && multiset(Merged(after).notes) == multiset{Note(Node("a", 0), "seen")}
  {
    hide StoreRefines, Crossings, CrossingsIn, StubsFor, MirrorsFor, Merged, SumRows;
    var router, stores, fate := ByLength(s => s), [EMPTY_STORE, EMPTY_STORE], Fate({}, true);
    EmptyExact(router, 2, 0);
    EmptyExact(router, 2, 1);
    CrossingsOfOne(router, 2, 1, Reserved());
    NoneCrossing(router, 2, 1, Reserved());
    NothingPlanned(router);
    ReservedSingle();
    var single := Perform(EMPTY_STORE, BatchEvents([Reserved()]));
    BatchRefinesIff(router, 2, 1, [Reserved()], fate, stores, EMPTY_STORE);
    var after := Written(router, 1, [Reserved()], fate, stores);
    MergedGraph(router, 2, after, single, true);
    StatusCounts(router, 2, after, single, true);
    assert CanonicalRows(single.rows) == map[];
    assert CanonicalEdges(single.rows, []) == [];
  }

  lemma {:induction false} NoneCrossing(router: Router, count: nat, home: nat, req: Request)
    requires req.relations == []
    ensures CrossingsIn(router, count, home, req, req.relations) == []
  {
  }

  lemma {:induction false} NothingPlanned(router: Router)
    ensures StubsFor(router, []) == [] && forall count, d :: MirrorsFor(router, count, [], d) == []
  {
  }

  lemma {:induction false} ReservedSingle()
    ensures var single := Perform(EMPTY_STORE, BatchEvents([Reserved()]));
      && single.rows == map[Node("a", 0) := STUB_SOURCE] && single.edges == []
      && single.notes == [Note(Node("a", 0), "seen")]
      && !NoneReserved(single)
  {
    var n, r := Node("a", 0), Reserved();
    var touch, note := Touch(n, STUB_SOURCE), Observe(Note(n, "seen"));
    assert [r][..0] == [] && r.observations[..0] == [];
    assert NoteEvents(r, r.observations) == [] + [note];
    assert RelationEvents(r, r.relations) == [];
    assert BatchEvents([]) == [];
    assert BatchEvents([r]) == GroupEvents(r) == [touch, note];
    assert [touch, note][..1] == [touch] && [touch][..0] == [];
    PerformOne(EMPTY_STORE, touch);
    assert Do(EMPTY_STORE, touch).rows == map[n := STUB_SOURCE];
    assert STUB_SOURCE == Do(EMPTY_STORE, touch).rows[n];
  }

  /** A request that spells one remote entity in two ways. */
  function TwoSpellings(): Request {
    Request("a", 0, [], [RelationInput("knows", "bb", 0, "u"), RelationInput("knows", "BB", 0, "u")], "u")
  }

  /** The second way to fail: only the first spelling gets a stub row, so the second
      gets a row of its own that nothing marks. */
  lemma {:induction false} TwoSpellingsFail()
    ensures
      var router, stores, fate := ByLength(s => if s == "BB" then "bb" else s), [EMPTY_STORE, EMPTY_STORE],
                                  Fate({0}, true);
      && Refines(router, 2, stores, EMPTY_STORE, true)
      && Homed(router, 2, 1, [TwoSpellings()]) && Lands(router, 2, 1, [TwoSpellings()], fate)
      && !Partitioned(router, 2, Written(router, 1, [TwoSpellings()], fate, stores),
                      Perform(EMPTY_STORE, BatchEvents([TwoSpellings()])), true)
  {
    hide StoreRefines, Perform, BatchEvents, Crossings, CrossingsIn, MirrorsFor;
    var router, stores, fate := ByLength(s => if s == "BB" then "bb" else s), [EMPTY_STORE, EMPTY_STORE],
                                Fate({0}, true);
    var req := TwoSpellings();
    var first, second := Crossing(req, req.relations[0]), Crossing(req, req.relations[1]);
    EmptyExact(router, 2, 0);
    EmptyExact(router, 2, 1);
    CrossingsOfOne(router, 2, 1, req);
    TwoCrossings(router, req);
    assert Crossings(router, 2, 1, [req]) == [first, second];
    assert FoldOf(router, first) == FoldOf(router, second);
    OneStub(router, first, second);
    assert !IsStubNode(router, [first, second], TargetOf(second.rel));
    TargetFound([first, second], TargetOf(second.rel));
    BatchRefinesIff(router, 2, 1, [req], fate, stores, EMPTY_STORE);
  }

  lemma {:induction false} TwoCrossings(router: Router, req: Request)
    requires |req.relations| == 2
    requires forall rel :: rel in req.relations ==> DomainOf(router, 2, TargetOf(rel)) != 1
    ensures CrossingsIn(router, 2, 1, req, req.relations)
         == [Crossing(req, req.relations[0]), Crossing(req, req.relations[1])]
  {
    assert req.relations[..1] == [req.relations[0]];
    CrossingOfOne(router, 2, 1, req, req.relations[0]);
  }

  lemma {:induction false} OneStub(router: Router, a: Crossing, b: Crossing)
    requires FoldOf(router, a) == FoldOf(router, b)
    ensures StubsFor(router, [a, b]) == [StubRequest(a)]
  {
    assert [a, b][..1] == [a] && [a][..0] == [];
    assert StubsFor(router, []) == [];
    assert StubsFor(router, [a]) == [StubRequest(a)];
    assert a in [a];
  }

  /** Batches that spell every folded name in one way are covered. */
  lemma {:induction false} OneSpellingCovers(router: Router, rows: map<Node, string>, cs: seq<Crossing>)
    requires forall a, b :: a in cs && b in cs && FoldOf(router, a) == FoldOf(router, b) ==>
        TargetOf(a.rel) == TargetOf(b.rel)
    ensures Covered(router, rows, cs)
  {
    hide FoldOf;
    forall c | c in cs ensures IsStubNode(router, cs, TargetOf(c.rel)) {
      var a := StubOfFold(router, cs, c);
      assert NodeOf(StubRequest(a)) == TargetOf(c.rel);
    }
  }

  lemma {:induction false} StubOfFold(router: Router, cs: seq<Crossing>, c: Crossing) returns (a: Crossing)
    requires c in cs
    ensures a in cs && FoldOf(router, a) == FoldOf(router, c) && StubRequest(a) in StubsFor(router, cs)
    decreases |cs|
  {
    hide FoldOf;
    var init, last := cs[..|cs| - 1], cs[|cs| - 1];
    if c in init {
      a := StubOfFold(router, init, c);
    } else if x :| x in init && FoldOf(router, x) == FoldOf(router, last) {
      a := StubOfFold(router, init, x);
    } else {
      a := last;
    }
  }

  // ---------------------------------------------------------------------
  // Crashes between the mirrors and the home transaction
  // ---------------------------------------------------------------------

  /** The home store is as before; each other store is as before or already as after. */
  ghost predicate Between(router: Router, count: nat, home: nat, reqs: seq<Request>, stores: seq<Store>,
      single: Store) {
    && |stores| == count
    && forall d :: 0 <= d < count ==>
         || StoreRefines(router, count, d, stores[d], single, false)
         || (d != home && StoreRefines(router, count, d, stores[d], Perform(single, BatchEvents(reqs)), false))
  }

  lemma {:induction false} RepeatedRow(router: Router, count: nat, home: nat, reqs: seq<Request>, d: nat, s: Store,
      single: Store, n: Node)
    requires Homed(router, count, home, reqs) && d != home && Sourced(Crossings(router, count, home, reqs))
    requires RowRefines(router, count, d, s.rows, Perform(single, BatchEvents(reqs)).rows, n)
    ensures RowRefines(router, count, d, Perform(s, BatchEvents(Share(router, count, home, reqs, d))).rows,
                       Perform(single, BatchEvents(reqs)).rows, n)
  {
    hide Perform, BatchEvents, FirstSource, Crossings, StubsFor, DomainOf, Homed, HomedCrossings, LinksOf, NotesOf,
      FirstTarget, Leading, MirrorsFor;
    var cs := Crossings(router, count, home, reqs);
    AllHomed(router, count, home, reqs);
    PerformRow(s, BatchEvents(MirrorsFor(router, count, cs, d)), n);
    PerformRow(single, BatchEvents(reqs), n);
    MirrorTouch(router, count, home, cs, d, n);
    BatchTouch(router, count, home, reqs, n);
    TargetFound(cs, n);
  }

  /** What a mirror batch writes, the single store holds once the batch is in. */
  lemma {:induction false} MirroredIsWritten(router: Router, count: nat, home: nat, reqs: seq<Request>, d: nat,
      single: Store, e: EdgeRow)
    requires Homed(router, count, home, reqs) && d != home && Sourced(Crossings(router, count, home, reqs))
    requires e in LinksOf(BatchEvents(MirrorsFor(router, count, Crossings(router, count, home, reqs), d)))
    ensures e in Perform(single, BatchEvents(reqs)).edges
  {
    hide Perform, BatchEvents, Crossings, Sourced, Homed, MirrorsFor, LinksOf, NotesOf, HomedCrossings, FirstSource,
      DomainOf, CrossEdges;
    AllHomed(router, count, home, reqs);
    MirrorLinks(router, count, home, Crossings(router, count, home, reqs), d, e);
    BatchTouch(router, count, home, reqs, e.from);
    PerformLists(single, BatchEvents(reqs));
    assert multiset(LinksOf(BatchEvents(reqs)))[e] > 0;
  }

  /** Writing a mirror batch again adds nothing but repeated mirror edges. */
  lemma {:induction false} RepeatedMirror(router: Router, count: nat, home: nat, reqs: seq<Request>, d: nat, s: Store,
      single: Store)
    requires Homed(router, count, home, reqs) && d != home && Sourced(Crossings(router, count, home, reqs))
    requires StoreRefines(router, count, d, s, Perform(single, BatchEvents(reqs)), false)
    ensures StoreRefines(router, count, d, Perform(s, BatchEvents(Share(router, count, home, reqs, d))),
                         Perform(single, BatchEvents(reqs)), false)
  {
    hide Perform, BatchEvents, Crossings, Sourced, Homed, EndsPresent, MirrorsFor, LinksOf, NotesOf, RowRefines,
      HomedCrossings, FirstSource, DomainOf;
    var cs := Crossings(router, count, home, reqs);
    var events := BatchEvents(Share(router, count, home, reqs, d));
    var next, whole := Perform(s, events), Perform(single, BatchEvents(reqs));
    AllHomed(router, count, home, reqs);
    EndsStay(s, Share(router, count, home, reqs, d));
    PerformLists(s, events);
    forall n ensures RowRefines(router, count, d, next.rows, whole.rows, n) {
      RepeatedRow(router, count, home, reqs, d, s, single, n);
    }
    forall x ensures NoteRefines(router, count, d, next.notes, whole.notes, x) {
      MirrorTouch(router, count, home, cs, d, x.owner);
      assert NoteRefines(router, count, d, s.notes, whole.notes, x);
    }
    forall e ensures EdgeRefines(router, count, d, next.edges, whole.edges, e, false) {
      assert EdgeRefines(router, count, d, s.edges, whole.edges, e, false);
      if e in LinksOf(events) {
        MirrorEnds(router, count, home, cs, d, e);
        MirroredIsWritten(router, count, home, reqs, d, single, e);
      }
    }
  }

  /** What one attempt, crashed or not, does to a store other than the home store. */
  lemma {:induction false} AttemptedMirror(router: Router, count: nat, home: nat, reqs: seq<Request>, fate: Fate,
      stores: seq<Store>, single: Store, d: nat)
    requires Between(router, count, home, reqs, stores, single) && home < count && d < count && d != home
    requires Homed(router, count, home, reqs) && Sourced(Crossings(router, count, home, reqs))
    ensures
      var after := Written(router, home, reqs, fate, stores)[d];
      || StoreRefines(router, count, d, after, Perform(single, BatchEvents(reqs)), false)
      || (d !in fate.mirrors && StoreRefines(router, count, d, after, single, false))
  {
    hide StoreRefines, Crossings, Homed, Perform, BatchEvents, Share, Sourced;
    if d in fate.mirrors {
      if StoreRefines(router, count, d, stores[d], single, false) {
        MirrorStore(router, count, home, reqs, d, stores[d], single, false);
      } else {
        RepeatedMirror(router, count, home, reqs, d, stores[d], single);
      }
    }
  }

  /** A crash after some mirrors and before the home transaction leaves the stores
      between the two states, however often the same batch is attempted. */
  lemma {:induction false} CrashStaysBetween(router: Router, count: nat, home: nat, reqs: seq<Request>,
      mirrors: set<nat>, stores: seq<Store>, single: Store)
    requires Between(router, count, home, reqs, stores, single) && home < count
    requires Homed(router, count, home, reqs) && Sourced(Crossings(router, count, home, reqs))
    ensures Between(router, count, home, reqs, Written(router, home, reqs, Fate(mirrors, false), stores), single)
    ensures Written(router, home, reqs, Fate(mirrors, false), stores)[home] == stores[home]
  {
    hide StoreRefines, Crossings, Homed, Perform, BatchEvents, Share, Sourced;
    var fate := Fate(mirrors, false);
    var after := Written(router, home, reqs, fate, stores);
    forall d | 0 <= d < count && d != home
      ensures StoreRefines(router, count, d, after[d], single, false)
           || StoreRefines(router, count, d, after[d], Perform(single, BatchEvents(reqs)), false)
    {
      AttemptedMirror(router, count, home, reqs, fate, stores, single, d);
    }
  }

  /** The attempt at the same batch that finally commits everything completes it. */
  lemma {:induction false} ReplayCompletes(router: Router, count: nat, home: nat, reqs: seq<Request>, fate: Fate,
      stores: seq<Store>, single: Store)
    requires Between(router, count, home, reqs, stores, single) && home < count
    requires Homed(router, count, home, reqs) && Lands(router, count, home, reqs, fate)
    requires WellFormed(router, count, home, reqs, stores)
    ensures Partitioned(router, count, Written(router, home, reqs, fate, stores), Perform(single, BatchEvents(reqs)),
                        false)
    ensures Refines(router, count, Written(router, home, reqs, fate, stores), Perform(single, BatchEvents(reqs)), false)
       <==> NoneReserved(single) && CreatesNoReserved(reqs, single.rows)
  {
    hide StoreRefines, Crossings, Homed, Perform, BatchEvents, Covered, Sourced, NoneReserved, CreatesNoReserved;
    var whole := Perform(single, BatchEvents(reqs));
    var after := Written(router, home, reqs, fate, stores);
    ReservedRows(reqs, single);
    forall d | 0 <= d < count ensures StoreRefines(router, count, d, after[d], whole, false) {
      if d == home {
        HomeStore(router, count, home, reqs, stores[d], single, false);
      } else {
        AttemptedMirror(router, count, home, reqs, fate.(mirrors := fate.mirrors + {d}), stores, single, d);
        if d !in fate.mirrors {
          assert Share(router, count, home, reqs, d) == [];
          NothingShared(stores[d]);
        }
      }
    }
  }

  // ---------------------------------------------------------------------
  // Whole histories
  // ---------------------------------------------------------------------

  /** A batch, the mirrors that committed in each crashed attempt, and the mirrors
      that committed in the attempt that went through. */
  datatype Batch = Batch(home: nat, reqs: seq<Request>, crashes: seq<set<nat>>, mirrors: set<nat>)

  function AfterCrashes(router: Router, b: Batch, crashes: seq<set<nat>>, stores: seq<Store>): (r: seq<Store>)
    ensures |r| == |stores|
    decreases |crashes|
  {
    if crashes == [] then stores
    else Written(router, b.home, b.reqs, Fate(crashes[|crashes| - 1], false),
                 AfterCrashes(router, b, crashes[..|crashes| - 1], stores))
  }

  function AfterBatches(router: Router, batches: seq<Batch>, stores: seq<Store>): (r: seq<Store>)
    ensures |r| == |stores|
    decreases |batches|
  {
    if batches == [] then stores
    else
      var b := batches[|batches| - 1];
      var before := AfterBatches(router, batches[..|batches| - 1], stores);
      Written(router, b.home, b.reqs, Fate(b.mirrors, true), AfterCrashes(router, b, b.crashes, before))
  }

  /** The same batches in one store. */
  function SingleAfter(batches: seq<Batch>): Store {
    if batches == [] then EMPTY_STORE
    else Perform(SingleAfter(batches[..|batches| - 1]), BatchEvents(batches[|batches| - 1].reqs))
  }

  ghost predicate Proper(router: Router, count: nat, batches: seq<Batch>, stores: seq<Store>)
    requires |stores| == count
  {
    forall i :: 0 <= i < |batches| ==>
      var b := batches[i];
      && b.home < count
      && Homed(router, count, b.home, b.reqs) && Lands(router, count, b.home, b.reqs, Fate(b.mirrors, true))
      && WellFormed(router, count, b.home, b.reqs, AfterBatches(router, batches[..i], stores))
  }

  lemma {:induction false} CrashesStayBetween(router: Router, count: nat, b: Batch, crashes: seq<set<nat>>,
      stores: seq<Store>, single: Store)
    requires Between(router, count, b.home, b.reqs, stores, single) && b.home < count
    requires Homed(router, count, b.home, b.reqs) && Sourced(Crossings(router, count, b.home, b.reqs))
    ensures Between(router, count, b.home, b.reqs, AfterCrashes(router, b, crashes, stores), single)
    ensures AfterCrashes(router, b, crashes, stores)[b.home] == stores[b.home]
    decreases |crashes|
  {
    hide Between, Homed, Sourced, Written;
    assert |stores| == count by { Sized(router, count, b, stores, single); }
    if crashes != [] {
      var init := crashes[..|crashes| - 1];
      CrashesStayBetween(router, count, b, init, stores, single);
      CrashStaysBetween(router, count, b.home, b.reqs, crashes[|crashes| - 1], AfterCrashes(router, b, init, stores),
                        single);
    }
  }

  lemma {:induction false} Sized(router: Router, count: nat, b: Batch, stores: seq<Store>, single: Store)
    requires Between(router, count, b.home, b.reqs, stores, single)
    ensures |stores| == count
  {
  }

  /** No batch creates a row under the reserved source. */
  ghost predicate NeverReserved(batches: seq<Batch>) {
    forall i :: 0 <= i < |batches| ==> CreatesNoReserved(batches[i].reqs, SingleAfter(batches[..i]).rows)
  }

  /** After any history of batches, each attempted any number of times as it is
      before it went through, the domains hold exactly the graph of the single store
      in parts, with every mirror there at least once; and it can be read back
      exactly when no batch creates a row under the reserved source. */
  lemma {:induction false} HistoryRefines(router: Router, count: nat, batches: seq<Batch>, stores: seq<Store>)
    requires count > 0 && |stores| == count && forall d :: 0 <= d < count ==> stores[d] == EMPTY_STORE
    requires Proper(router, count, batches, stores)
    ensures Partitioned(router, count, AfterBatches(router, batches, stores), SingleAfter(batches), false)
    ensures Refines(router, count, AfterBatches(router, batches, stores), SingleAfter(batches), false)
       <==> NeverReserved(batches)
    decreases |batches|
  {
    hide StoreRefines, Homed, WellFormed, Lands, NeverReserved, CreatesNoReserved, Perform, BatchEvents, Written,
      AfterCrashes, Proper, Sourced, Crossings;
    ReservedPrefix(batches);
    if batches == [] {
      forall d | 0 <= d < count ensures StoreRefines(router, count, d, stores[d], EMPTY_STORE, false) {
        EmptyRefines(router, count, d);
      }
    } else {
      var n := |batches| - 1;
      var init, b := batches[..n], batches[n];
      ProperPrefix(router, count, batches, stores);
      HistoryRefines(router, count, init, stores);
      var before := AfterBatches(router, init, stores);
      SourcedBatch(router, count, b, before);
      CrashesStayBetween(router, count, b, b.crashes, before, SingleAfter(init));
      CrashesKeepForm(router, count, b, before);
      ReplayCompletes(router, count, b.home, b.reqs, Fate(b.mirrors, true),
                      AfterCrashes(router, b, b.crashes, before), SingleAfter(init));
    }
  }

  lemma {:induction false} ReservedPrefix(batches: seq<Batch>)
    ensures var n := |batches| - 1;
      if batches == [] then NeverReserved(batches)
      else NeverReserved(batches) <==> && NeverReserved(batches[..n])
                                       && CreatesNoReserved(batches[n].reqs, SingleAfter(batches[..n]).rows)
  {
    hide CreatesNoReserved, SingleAfter;
    var n := |batches| - 1;
    if n >= 0 {
      assert forall i :: 0 <= i < n ==> batches[..n][i] == batches[i] && batches[..n][..i] == batches[..i];
    }
  }

  lemma {:induction false} ProperPrefix(router: Router, count: nat, batches: seq<Batch>, stores: seq<Store>)
    requires |stores| == count && batches != [] && Proper(router, count, batches, stores)
    ensures
      var init, b := batches[..|batches| - 1], batches[|batches| - 1];
      && Proper(router, count, init, stores)
      && b.home < count
      && Homed(router, count, b.home, b.reqs) && Lands(router, count, b.home, b.reqs, Fate(b.mirrors, true))
      && WellFormed(router, count, b.home, b.reqs, AfterBatches(router, init, stores))
  {
    hide Homed, WellFormed, Lands, AfterBatches;
    var n := |batches| - 1;
    assert forall i :: 0 <= i < n ==> batches[..n][i] == batches[i] && batches[..n][..i] == batches[..i];
  }

  lemma {:induction false} SourcedBatch(router: Router, count: nat, b: Batch, stores: seq<Store>)
    requires b.home < |stores| && WellFormed(router, count, b.home, b.reqs, stores)
    ensures Sourced(Crossings(router, count, b.home, b.reqs))
  {
  }

  lemma {:induction false} CrashesKeepForm(router: Router, count: nat, b: Batch, stores: seq<Store>)
    requires b.home < |stores| && WellFormed(router, count, b.home, b.reqs, stores)
    requires AfterCrashes(router, b, b.crashes, stores)[b.home] == stores[b.home]
    ensures WellFormed(router, count, b.home, b.reqs, AfterCrashes(router, b, b.crashes, stores))
  {
  }

  lemma {:induction false} EmptyRefines(router: Router, count: nat, d: nat)
    ensures StoreRefines(router, count, d, EMPTY_STORE, EMPTY_STORE, false)
  {
  }

  // ---------------------------------------------------------------------
  // What the refinement means for readers
  // ---------------------------------------------------------------------

  /** Every edge can be traversed from both of its ends' domains. */
  lemma {:induction false} EdgeVisible(router: Router, count: nat, stores: seq<Store>, single: Store, exact: bool,
      e: EdgeRow)
    requires count > 0 && Partitioned(router, count, stores, single, exact) && e in single.edges
    ensures e in stores[DomainOf(router, count, e.from)].edges && e in stores[DomainOf(router, count, e.to)].edges
  {
    var f, t := DomainOf(router, count, e.from), DomainOf(router, count, e.to);
    assert EdgeRefines(router, count, f, stores[f].edges, single.edges, e, exact);
    assert EdgeRefines(router, count, t, stores[t].edges, single.edges, e, exact);
    assert e in multiset(stores[f].edges) && e in multiset(stores[t].edges);
  }

  function StubRows(rows: map<Node, string>): map<Node, string> {
    map n | n in rows && rows[n] == STUB_SOURCE :: rows[n]
  }

  function CanonicalRows(rows: map<Node, string>): map<Node, string> {
    map n | n in rows && rows[n] != STUB_SOURCE :: rows[n]
  }

  /** The edges whose origin is not a stub. */
  function CanonicalEdges(rows: map<Node, string>, edges: seq<EdgeRow>): seq<EdgeRow> {
    if edges == [] then []
    else
      var last := edges[|edges| - 1];
      CanonicalEdges(rows, edges[..|edges| - 1]) + if last.from in rows
        && rows[last.from] == STUB_SOURCE then [] else [last]
  }

  /** How many edges start at a stub row. */
  function MirrorCount(rows: map<Node, string>, edges: seq<EdgeRow>): (r: nat)
    ensures r + |CanonicalEdges(rows, edges)| == |edges|
  {
    if edges == [] then 0
    else
      var last := edges[|edges| - 1];
      MirrorCount(rows, edges[..|edges| - 1]) + if last.from in rows && rows[last.from] == STUB_SOURCE then 1 else 0
  }

  /** All domains together, without stub rows and mirror edges. */
  function Merged(stores: seq<Store>): Store {
    if stores == [] then EMPTY_STORE
    else
      var before, last := Merged(stores[..|stores| - 1]), stores[|stores| - 1];
      Store(before.rows + CanonicalRows(last.rows), before.notes + last.notes,
            before.edges + CanonicalEdges(last.rows, last.edges))
  }

  /** One store, as the readers of a partition see it. */
  function Canonical(s: Store): Store {
    Store(CanonicalRows(s.rows), s.notes, CanonicalEdges(s.rows, s.edges))
  }

  /** Readers see all of a store exactly when no row of it carries the stub source. */
  lemma {:induction false} CanonicalIsAll(s: Store)
    ensures CanonicalRows(s.rows) == s.rows <==> NoneReserved(s)
    ensures |CanonicalRows(s.rows)| == |s.rows| <==> NoneReserved(s)
    ensures NoneReserved(s) ==> CanonicalEdges(s.rows, s.edges) == s.edges
  {
    hide CanonicalEdges, MirrorCount;
    RowSplit(s.rows);
    if n :| n in s.rows && s.rows[n] == STUB_SOURCE {
      assert n in StubRows(s.rows);
    } else {
      AllEdges(s.rows, s.edges);
    }
  }

  lemma {:induction false} AllEdges(rows: map<Node, string>, edges: seq<EdgeRow>)
    requires forall n :: n in rows ==> rows[n] != STUB_SOURCE
    ensures CanonicalEdges(rows, edges) == edges
    decreases |edges|
  {
    if edges != [] {
      AllEdges(rows, edges[..|edges| - 1]);
      assert edges == edges[..|edges| - 1] + [edges[|edges| - 1]];
    }
  }

  lemma {:induction false} CanonicalCount(router: Router, count: nat, d: nat, s: Store, single: Store, exact: bool,
      e: EdgeRow)
    requires StoreRefines(router, count, d, s, single, exact)
    ensures multiset(CanonicalEdges(s.rows, s.edges))[e]
         == if DomainOf(router, count, e.from) == d then multiset(CanonicalEdges(single.rows, single.edges))[e] else 0
  {
    hide DomainOf, CanonicalEdges;
    assert EdgeRefines(router, count, d, s.edges, single.edges, e, exact);
    CountCanonical(s.rows, s.edges, e);
    CountCanonical(single.rows, single.edges, e);
    assert RowRefines(router, count, d, s.rows, single.rows, e.from);
    if DomainOf(router, count, e.from) == d {
      assert RowOf(s.rows, e.from) == RowOf(single.rows, e.from);
    }
  }

  lemma {:induction false} CountCanonical(rows: map<Node, string>, edges: seq<EdgeRow>, e: EdgeRow)
    ensures multiset(CanonicalEdges(rows, edges))[e] == if e.from in rows
        && rows[e.from] == STUB_SOURCE then 0 else multiset(edges)[e]
    decreases |edges|
  {
    if edges != [] {
      var init, last := edges[..|edges| - 1], edges[|edges| - 1];
      CountCanonical(rows, init, e);
      assert edges == init + [last];
    }
  }

  /** The first `k` domains hold the part of the graph that is at home there. */
  ghost predicate MergedUpTo(router: Router, count: nat, k: nat, merged: Store, single: Store) {
    && (forall n :: RowOf(merged.rows, n) == if DomainOf(router, count, n) < k then RowOf(single.rows, n) else None)
    && (forall x ::
          multiset(merged.notes)[x] == if DomainOf(router, count, x.owner) < k then multiset(single.notes)[x] else 0)
    && (forall e ::
          multiset(merged.edges)[e] == if DomainOf(router, count, e.from) < k then multiset(single.edges)[e] else 0)
  }

  lemma {:induction false} MergeStep(router: Router, count: nat, k: nat, before: Store, s: Store, single: Store,
      exact: bool)
    requires MergedUpTo(router, count, k, before, Canonical(single)) && StoreRefines(router, count, k, s, single, exact)
    ensures MergedUpTo(router, count, k + 1,
      Store(before.rows + CanonicalRows(s.rows), before.notes + s.notes,
            before.edges + CanonicalEdges(s.rows, s.edges)), Canonical(single))
    ensures |before.rows + CanonicalRows(s.rows)| == |before.rows| + |CanonicalRows(s.rows)|
  {
    hide DomainOf, CanonicalEdges, StoreRefines, CanonicalRows;
    var next := Store(before.rows + CanonicalRows(s.rows), before.notes + s.notes,
                      before.edges + CanonicalEdges(s.rows, s.edges));
    forall n
      ensures RowOf(next.rows, n)
           == if DomainOf(router, count, n) < k + 1 then RowOf(CanonicalRows(single.rows), n) else None
      ensures n in CanonicalRows(s.rows) ==> n !in before.rows
    {
      RowAt(router, count, k, s, single, exact, n);
      assert RowOf(before.rows, n)
          == if DomainOf(router, count, n) < k then RowOf(CanonicalRows(single.rows), n) else None;
      RowJoined(before.rows, CanonicalRows(s.rows), n);
    }
    forall x ensures multiset(next.notes)[x]
        == if DomainOf(router, count, x.owner) < k + 1 then multiset(single.notes)[x] else 0 {
      NoteAt(router, count, k, s, single, exact, x);
      assert multiset(next.notes)[x] == multiset(before.notes)[x] + multiset(s.notes)[x];
    }
    forall e ensures multiset(next.edges)[e]
        == if DomainOf(router, count, e.from) < k + 1 then multiset(CanonicalEdges(single.rows, single.edges))[e]
           else 0 {
      CanonicalCount(router, count, k, s, single, exact, e);
      assert multiset(next.edges)[e] == multiset(before.edges)[e] + multiset(CanonicalEdges(s.rows, s.edges))[e];
    }
    DisjointSizes(before.rows, CanonicalRows(s.rows));
  }

  lemma {:induction false} RowJoined(a: map<Node, string>, b: map<Node, string>, n: Node)
    ensures RowOf(a + b, n) == if RowOf(b, n).Some? then RowOf(b, n) else RowOf(a, n)
  {
  }

  lemma {:induction false} RowAt(router: Router, count: nat, d: nat, s: Store, single: Store, exact: bool, n: Node)
    requires StoreRefines(router, count, d, s, single, exact)
    ensures RowOf(CanonicalRows(s.rows), n)
         == if DomainOf(router, count, n) == d then RowOf(CanonicalRows(single.rows), n) else None
  {
    assert RowRefines(router, count, d, s.rows, single.rows, n);
  }

  lemma {:induction false} NoteAt(router: Router, count: nat, d: nat, s: Store, single: Store, exact: bool, x: Note)
    requires StoreRefines(router, count, d, s, single, exact)
    ensures multiset(s.notes)[x] == if DomainOf(router, count, x.owner) == d then multiset(single.notes)[x] else 0
  {
    assert NoteRefines(router, count, d, s.notes, single.notes, x);
  }

  lemma {:induction false} DisjointSizes(a: map<Node, string>, b: map<Node, string>)
    requires forall n :: n in b ==> n !in a
    ensures |a + b| == |a| + |b|
  {
    assert (a + b).Keys == a.Keys + b.Keys;
    assert |a| == |a.Keys| && |b| == |b.Keys| && |a + b| == |(a + b).Keys|;
  }

  /** Dropping stubs and mirrors from all domains, whether mirrors are there once or
      several times, gives the single store's graph without the rows under the stub
      source and the edges that start at them: all of it exactly when there are none. */
  lemma {:induction false} MergedGraph(router: Router, count: nat, stores: seq<Store>, single: Store, exact: bool)
    requires count > 0 && Partitioned(router, count, stores, single, exact)
    ensures Merged(stores).rows == CanonicalRows(single.rows)
    ensures multiset(Merged(stores).notes) == multiset(single.notes)
    ensures multiset(Merged(stores).edges) == multiset(CanonicalEdges(single.rows, single.edges))
    ensures Merged(stores).rows == single.rows <==> NoneReserved(single)
    ensures NoneReserved(single) ==> multiset(Merged(stores).edges) == multiset(single.edges)
  {
    hide StoreRefines, Merged, CanonicalRows, CanonicalEdges, NoneReserved;
    MergedPrefix(router, count, stores, single, exact, count);
    assert stores[..count] == stores;
    var merged, canon := Merged(stores), Canonical(single);
    forall n ensures RowOf(merged.rows, n) == RowOf(canon.rows, n) {
      assert DomainOf(router, count, n) < count;
    }
    SameRows(merged.rows, canon.rows);
    assert forall x: Note :: multiset(merged.notes)[x] == multiset(single.notes)[x];
    assert forall e: EdgeRow :: multiset(merged.edges)[e] == multiset(canon.edges)[e];
    CanonicalIsAll(single);
  }

  lemma {:induction false} SameRows(a: map<Node, string>, b: map<Node, string>)
    requires forall n :: RowOf(a, n) == RowOf(b, n)
    ensures a == b
  {
    forall n ensures n in a <==> n in b {
      assert RowOf(a, n) == RowOf(b, n);
    }
    forall n | n in a ensures a[n] == b[n] {
      assert RowOf(a, n) == RowOf(b, n);
    }
  }

  lemma {:induction false} MergedPrefix(router: Router, count: nat, stores: seq<Store>, single: Store, exact: bool,
      k: nat)
    requires count > 0 && Partitioned(router, count, stores, single, exact) && k <= count
    ensures MergedUpTo(router, count, k, Merged(stores[..k]), Canonical(single))
    decreases k
  {
    hide StoreRefines, MergedUpTo, Canonical;
    if k == 0 {
      MergedNothing(router, count, Canonical(single));
    } else {
      MergedPrefix(router, count, stores, single, exact, k - 1);
      assert stores[..k][..k - 1] == stores[..k - 1];
      MergeStep(router, count, k - 1, Merged(stores[..k - 1]), stores[k - 1], single, exact);
    }
  }

  lemma {:induction false} MergedNothing(router: Router, count: nat, single: Store)
    ensures MergedUpTo(router, count, 0, EMPTY_STORE, single)
  {
  }

  // ---------------------------------------------------------------------
  // The store facade
  // ---------------------------------------------------------------------

  /** Commits the mirror batches, in no particular order; errors are passed over.
      `lucky` are those that commit. */
  method CommitMirrors(before: seq<Store>, mirrors: map<nat, seq<Request>>, lucky: set<nat>)
    returns (stores: seq<Store>)
    requires forall d :: d in mirrors ==> d < |before|
    ensures |stores| == |before|
    ensures forall d :: 0 <= d < |before| ==>
      stores[d] == if d in mirrors && d in lucky then Perform(before[d], BatchEvents(mirrors[d])) else before[d]
  {
    hide Perform, BatchEvents;
    stores := before;
    var pending := mirrors.Keys;
    while pending != {}
      invariant pending <= mirrors.Keys && |stores| == |before|
      invariant forall d :: 0 <= d < |before| ==>
        stores[d] == if d in mirrors.Keys - pending
          && d in lucky then Perform(before[d], BatchEvents(mirrors[d])) else before[d]
      decreases pending
    {
      var d :| d in pending;
      var s, _ := RememberBatch(stores[d], mirrors[d], if d in lucky then Committed else RolledBack);
      stores := stores[d := s];
      pending := pending - {d};
    }
  }

  lemma {:induction false} Assembled(router: Router, home: nat, reqs: seq<Request>, fate: Fate, before: seq<Store>,
      stubs: seq<Request>, mirrors: map<nat, seq<Request>>, after: seq<Store>)
    requires home < |before| == |after|
    requires forall d :: Share(router, |before|, home, reqs, d)
                      == if d == home then stubs + reqs else if d in mirrors then mirrors[d] else []
    requires forall d :: 0 <= d < |before| && d != home ==>
      after[d] == if d in mirrors && d in fate.mirrors then Perform(before[d], BatchEvents(mirrors[d])) else before[d]
    requires after[home] == if fate.home then Perform(before[home], BatchEvents(stubs + reqs)) else before[home]
    ensures after == Written(router, home, reqs, fate, before)
  {
    hide Share, Perform, BatchEvents;
    forall d | 0 <= d < |before| ensures after[d] == Written(router, home, reqs, fate, before)[d] {
      NothingShared(before[d]);
    }
  }

  /** The home store got the stubs the batch calls for and then the batch, item by item. */
  ghost predicate HomeWritten(router: Router, count: nat, home: nat, reqs: seq<Request>, before: Store, after: Store)
    requires count > 0
  {
    exists stubs :: StubsPlanned(router, count, home, reqs, stubs) && BatchWritten(before, stubs + reqs, after)
  }

  /** Another store got a mirror of each relation that leads to it. */
  ghost predicate MirrorWritten(router: Router, count: nat, reqs: seq<Request>, d: nat, before: Store, after: Store)
    requires count > 0
  {
    exists mirrors :: MirrorsPlanned(router, count, reqs, d, mirrors) && BatchWritten(before, mirrors, after)
  }

  lemma {:induction false} WrittenItems(router: Router, home: nat, reqs: seq<Request>, fate: Fate, before: seq<Store>)
    requires home < |before|
    ensures var after := Written(router, home, reqs, fate, before);
      && (if fate.home then HomeWritten(router, |before|, home, reqs, before[home], after[home])
          else after[home] == before[home])
      && forall d :: 0 <= d < |before| && d != home ==>
           if d in fate.mirrors then MirrorWritten(router, |before|, reqs, d, before[d], after[d])
           else after[d] == before[d]
  {
    hide BatchWritten, StubsPlanned, MirrorsPlanned, StubsFor, MirrorsFor, Crossings, Perform, BatchEvents;
    var count := |before|;
    var cs := Crossings(router, count, home, reqs);
    StubsAsPlanned(router, count, home, reqs);
    BatchWrites(before[home], StubsFor(router, cs) + reqs);
    forall d | 0 <= d < count && d != home && d in fate.mirrors
      ensures MirrorWritten(router, count, reqs, d, before[d],
                            Perform(before[d], BatchEvents(MirrorsFor(router, count, cs, d))))
    {
      MirrorsAsPlanned(router, count, home, reqs, d);
      BatchWrites(before[d], MirrorsFor(router, count, cs, d));
    }
  }

  lemma {:induction false} StubsNeedRequests(router: Router, count: nat, home: nat, reqs: seq<Request>)
    ensures reqs == [] ==> StubsFor(router, Crossings(router, count, home, reqs)) == []
  {
  }

  class Partition {
    var stores: seq<Store>

    constructor (count: nat)
      requires count > 0
      ensures stores == seq(count, _ => EMPTY_STORE)
    {
      stores := seq(count, _ => EMPTY_STORE);
    }

    /** Mirrors first, in no particular order and each allowed to fail; then the
        home transaction with the stub rows in front.  `mirrored` are the mirrors that
        commit; `verdict` is how the home transaction ends, and what it reports. */
    method RememberBatchInDomain(router: Router, domain: nat, reqs: seq<Request>, mirrored: set<nat>, verdict: Verdict)
      returns (ok: bool)
      requires domain < |stores|
      modifies this
      ensures stores == Written(router, domain, reqs, Fate(mirrored, verdict != RolledBack), old(stores))
      ensures ok <==> verdict == Committed || (verdict == LateError && reqs == [])
      ensures if verdict == RolledBack then stores[domain] == old(stores)[domain]
              else HomeWritten(router, |stores|, domain, reqs, old(stores)[domain], stores[domain])
      ensures forall d :: 0 <= d < |stores| && d != domain ==>
        if d in mirrored then MirrorWritten(router, |stores|, reqs, d, old(stores)[d], stores[d])
        else stores[d] == old(stores)[d]
    {
      hide Share, Perform, BatchEvents, Written, StubsFor, MirrorsFor, Crossings, HomeWritten, MirrorWritten;
      var count, fate := |stores|, Fate(mirrored, verdict != RolledBack);
      WrittenItems(router, domain, reqs, fate, stores);
      if count == 1 {
        var only;
        only, ok := RememberBatch(stores[0], reqs, verdict);
        OneDomainShares(router, reqs);
        assert [] + reqs == reqs;
        Assembled(router, 0, reqs, fate, stores, [], map[], [only]);
        stores := [only];
        return;
      }
      var stubs, mirrors := PlanBatch(router, count, domain, reqs);
      Planned(router, count, domain, reqs, stubs, mirrors);
      var others := CommitMirrors(stores, mirrors, mirrored);
      var home;
      home, ok := RememberBatch(stores[domain], stubs + reqs, verdict);
      StubsNeedRequests(router, count, domain, reqs);
      Assembled(router, domain, reqs, fate, stores, stubs, mirrors, others[domain := home]);
      stores := others[domain := home];
    }

    /** The totals of all domains, with stub rows and mirrored edges subtracted; a
        store with one domain reports its own. */
    method Status() returns (totals: Totals)
      ensures totals == StatusOf(stores)
    {
      hide StubRows, CanonicalRows, CanonicalEdges, MirrorCount;
      if |stores| == 1 {
        return Totals(|stores[0].rows|, |stores[0].notes|, |stores[0].edges|);
      }
      var entities, observations, relations := 0, 0, 0;
      var d := 0;
      while d < |stores|
        invariant d <= |stores|
        invariant entities == SumRows(stores[..d])
        invariant observations == |Merged(stores[..d]).notes| && relations == |Merged(stores[..d]).edges|
      {
        var s := stores[d];
        assert stores[..d + 1][..d] == stores[..d];
        RowSplit(s.rows);
        EdgeSplit(s.rows, s.edges);
        entities := entities + |s.rows| - |StubRows(s.rows)|;
        observations := observations + |s.notes|;
        relations := relations + |s.edges| - MirrorCount(s.rows, s.edges);
        d := d + 1;
      }
      assert stores[..d] == stores;
      totals := Totals(entities, observations, relations);
    }
  }

  datatype Totals = Totals(entities: nat, observations: nat, relations: nat)

  function TotalsOf(s: Store): Totals { Totals(|s.rows|, |s.notes|, |s.edges|) }

  /** What is reported of the domains together. */
  function StatusOf(stores: seq<Store>): Totals {
    if |stores| == 1 then TotalsOf(stores[0])
    else Totals(SumRows(stores), |Merged(stores).notes|, |Merged(stores).edges|)
  }

  function SumRows(stores: seq<Store>): nat {
    if stores == [] then 0 else SumRows(stores[..|stores| - 1]) + |CanonicalRows(stores[|stores| - 1].rows)|
  }

  lemma {:induction false} EdgeSplit(rows: map<Node, string>, edges: seq<EdgeRow>)
    ensures MirrorCount(rows, edges) + |CanonicalEdges(rows, edges)| == |edges|
  {
  }

  lemma {:induction false} RowSplit(rows: map<Node, string>)
    ensures |rows| == |StubRows(rows)| + |CanonicalRows(rows)|
  {
    assert rows == StubRows(rows) + CanonicalRows(rows);
    DisjointSizes(StubRows(rows), CanonicalRows(rows));
  }

  /** The reported totals are those of the single store without the rows under the
      stub source and the edges that start at them.  So they are the single store's
      exactly when it has no such row, or there is one domain only. */
  lemma {:induction false} StatusCounts(router: Router, count: nat, stores: seq<Store>, single: Store, exact: bool)
    requires count > 0 && Partitioned(router, count, stores, single, exact)
    ensures StatusOf(stores) == TotalsOf(if count == 1 then single else Canonical(single))
    ensures StatusOf(stores) == TotalsOf(single) <==> count == 1 || NoneReserved(single)
  {
    hide Merged, StoreRefines, SumRows, CanonicalRows, CanonicalEdges, NoneReserved;
    CanonicalIsAll(single);
    if count == 1 {
      OneStore(router, stores[0], single, exact);
    } else {
      MergedGraph(router, count, stores, single, exact);
      SumPrefix(router, count, stores, single, exact, count);
      assert stores[..count] == stores;
      assert |multiset(Merged(stores).notes)| == |multiset(single.notes)|;
      assert |multiset(Merged(stores).edges)| == |multiset(CanonicalEdges(single.rows, single.edges))|;
    }
  }

  lemma {:induction false} OneStore(router: Router, s: Store, single: Store, exact: bool)
    requires StoreRefines(router, 1, 0, s, single, exact)
    ensures TotalsOf(s) == TotalsOf(single)
  {
    forall n ensures RowOf(s.rows, n) == RowOf(single.rows, n) {
      assert RowRefines(router, 1, 0, s.rows, single.rows, n);
    }
    SameRows(s.rows, single.rows);
    forall x ensures multiset(s.notes)[x] == multiset(single.notes)[x] {
      assert NoteRefines(router, 1, 0, s.notes, single.notes, x);
    }
    forall e ensures multiset(s.edges)[e] == multiset(single.edges)[e] {
      assert EdgeRefines(router, 1, 0, s.edges, single.edges, e, exact);
    }
    assert multiset(s.notes) == multiset(single.notes) && multiset(s.edges) == multiset(single.edges);
    assert |multiset(s.notes)| == |s.notes| && |multiset(s.edges)| == |s.edges|;
  }

  lemma {:induction false} SumPrefix(router: Router, count: nat, stores: seq<Store>, single: Store, exact: bool, k: nat)
    requires count > 0 && Partitioned(router, count, stores, single, exact) && k <= count
    ensures SumRows(stores[..k]) == |Merged(stores[..k]).rows|
    decreases k
  {
    hide StoreRefines, MergedUpTo, CanonicalRows, CanonicalEdges, Canonical;
    if k > 0 {
      SumPrefix(router, count, stores, single, exact, k - 1);
      MergedPrefix(router, count, stores, single, exact, k - 1);
      assert stores[..k][..k - 1] == stores[..k - 1];
      MergeStep(router, count, k - 1, Merged(stores[..k - 1]), stores[k - 1], single, exact);
    }
  }

  lemma {:induction false} OneDomainShares(router: Router, reqs: seq<Request>)
    ensures forall d :: Share(router, 1, 0, reqs, d) == if d == 0 then [] + reqs else []
  {
    NoCrossings(router, reqs);
    assert StubsFor(router, []) == [] && [] + reqs == reqs;
  }

  lemma {:induction false} NoCrossings(router: Router, reqs: seq<Request>)
    ensures Crossings(router, 1, 0, reqs) == []
    decreases |reqs|
  {
    if reqs != [] {
      NoCrossings(router, reqs[..|reqs| - 1]);
      NoneCross(router, reqs[|reqs| - 1], reqs[|reqs| - 1].relations);
    }
  }

  lemma {:induction false} NoneCross(router: Router, req: Request, rels: seq<RelationInput>)
    ensures CrossingsIn(router, 1, 0, req, rels) == []
    decreases |rels|
  {
    if rels != [] {
      NoneCross(router, req, rels[..|rels| - 1]);
    }
  }

  lemma {:induction false} Planned(router: Router, count: nat, home: nat, reqs: seq<Request>, stubs: seq<Request>,
      mirrors: map<nat, seq<Request>>)
    requires home !in mirrors && stubs == StubsFor(router, Crossings(router, count, home, reqs))
    requires forall d :: MirrorsFor(router, count, Crossings(router, count, home, reqs), d)
                      == if d in mirrors then mirrors[d] else []
    ensures forall d :: Share(router, count, home, reqs, d)
                     == if d == home then stubs + reqs else if d in mirrors then mirrors[d] else []
  {
  }
}
