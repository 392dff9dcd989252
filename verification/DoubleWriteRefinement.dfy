/** The partitioned stores refine one graph: dropping stub rows and mirror edges
    gives what a single store would hold after the same batches. */
module DoubleWriteRefinement {
  import opened Prelude
  import opened Requests
  import opened DoubleWrite

  // ---------------------------------------------------------------------
  // What a list of events does to a store
  // ---------------------------------------------------------------------

  function FirstSource(events: seq<Event>, n: Node): Option<string> {
    if events == [] then None
    else
      var before, last := FirstSource(events[..|events| - 1], n), events[|events| - 1];
      if before.Some? then before else if last.Touch? && last.node == n then Some(last.source) else None
  }

  function LinksOf(events: seq<Event>): seq<EdgeRow> {
    if events == [] then []
    else
      var last := events[|events| - 1];
      LinksOf(events[..|events| - 1]) + if last.Relate? then [last.edge] else []
  }

  function NotesOf(events: seq<Event>): seq<Note> {
    if events == [] then []
    else
      var last := events[|events| - 1];
      NotesOf(events[..|events| - 1]) + if last.Observe? then [last.note] else []
  }

  /** The row of `n` after the events: the one there was, else the first touch. */
  function RowAfter(rows: map<Node, string>, events: seq<Event>, n: Node): Option<string> {
    if n in rows then Some(rows[n]) else FirstSource(events, n)
  }

  function RowOf(rows: map<Node, string>, n: Node): Option<string> {
    if n in rows then Some(rows[n]) else None
  }

  lemma {:induction false} PerformRow(s: Store, events: seq<Event>, n: Node)
    ensures RowOf(Perform(s, events).rows, n) == RowAfter(s.rows, events, n)
    decreases |events|
  {
    if events != [] {
      PerformRow(s, events[..|events| - 1], n);
    }
  }

  lemma {:induction false} PerformLists(s: Store, events: seq<Event>)
    ensures Perform(s, events).edges == s.edges + LinksOf(events)
    ensures Perform(s, events).notes == s.notes + NotesOf(events)
    decreases |events|
  {
    if events != [] {
      PerformLists(s, events[..|events| - 1]);
    }
  }

  lemma {:induction false} EventsAppend(a: seq<Event>, b: seq<Event>, n: Node)
    ensures FirstSource(a + b, n) == if FirstSource(a, n).Some? then FirstSource(a, n) else FirstSource(b, n)
    ensures LinksOf(a + b) == LinksOf(a) + LinksOf(b)
    ensures NotesOf(a + b) == NotesOf(a) + NotesOf(b)
    decreases |b|
  {
    if b == [] {
      assert a + b == a;
    } else {
      var init, last := b[..|b| - 1], b[|b| - 1];
      assert (a + b)[..|a + b| - 1] == a + init;
      EventsAppend(a, init, n);
    }
  }

  // ---------------------------------------------------------------------
  // The events of a group
  // ---------------------------------------------------------------------

  lemma {:induction false} NoteTouch(req: Request, observations: seq<string>, n: Node)
    ensures FirstSource(NoteEvents(req, observations), n) == None && LinksOf(NoteEvents(req, observations)) == []
    ensures forall x :: x in NotesOf(NoteEvents(req, observations)) ==> x.owner == NodeOf(req)
    decreases |observations|
  {
    if observations != [] {
      var init := observations[..|observations| - 1];
      NoteTouch(req, init, n);
      EventsAppend(NoteEvents(req, init), [Observe(Note(NodeOf(req), observations[|observations| - 1]))], n);
    }
  }

  function FirstTarget(cs: seq<Crossing>, n: Node): Option<string> {
    if cs == [] then None
    else
      var before, last := FirstTarget(cs[..|cs| - 1], n), cs[|cs| - 1];
      if before.Some? then before else if TargetOf(last.rel) == n then Some(SourceFor(last.req, last.rel)) else None
  }

  function CrossEdges(cs: seq<Crossing>): seq<EdgeRow> {
    if cs == [] then [] else CrossEdges(cs[..|cs| - 1]) + [EdgeFor(cs[|cs| - 1].req, cs[|cs| - 1].rel)]
  }

  lemma {:induction false} CrossAppend(a: seq<Crossing>, b: seq<Crossing>, n: Node)
    ensures FirstTarget(a + b, n) == if FirstTarget(a, n).Some? then FirstTarget(a, n) else FirstTarget(b, n)
    ensures CrossEdges(a + b) == CrossEdges(a) + CrossEdges(b)
    decreases |b|
  {
    if b == [] {
      assert a + b == a;
    } else {
      var init := b[..|b| - 1];
      assert (a + b)[..|a + b| - 1] == a + init;
      CrossAppend(a, init, n);
    }
  }

  /** The edges of `links` that lead out of `home`. */
  ghost predicate Leading(router: Router, count: nat, home: nat, links: seq<EdgeRow>, crossing: seq<EdgeRow>) {
    forall e :: multiset(crossing)[e] == if DomainOf(router, count, e.to) == home then 0 else multiset(links)[e]
  }

  lemma {:induction false} LeadingAppend(router: Router, count: nat, home: nat, a: seq<EdgeRow>, b: seq<EdgeRow>,
      ca: seq<EdgeRow>, cb: seq<EdgeRow>)
    requires Leading(router, count, home, a, ca) && Leading(router, count, home, b, cb)
    ensures Leading(router, count, home, a + b, ca + cb)
  {
    forall e: EdgeRow
      ensures multiset(ca + cb)[e] == if DomainOf(router, count, e.to) == home then 0 else multiset(a + b)[e]
    {
      assert multiset(ca + cb)[e] == multiset(ca)[e] + multiset(cb)[e];
      assert multiset(a + b)[e] == multiset(a)[e] + multiset(b)[e];
    }
  }

  /** Remote nodes are touched by the crossing relations only. */
  lemma {:induction false} RelationTouch(router: Router, count: nat, home: nat, req: Request,
      rels: seq<RelationInput>, n: Node)
    ensures
      var events, cs := RelationEvents(req, rels), CrossingsIn(router, count, home, req, rels);
      && (DomainOf(router, count, n) != home ==> FirstSource(events, n) == FirstTarget(cs, n))
      && Leading(router, count, home, LinksOf(events), CrossEdges(cs))
      && (forall e :: e in LinksOf(events) ==> e.from == NodeOf(req))
      && NotesOf(events) == []
    decreases |rels|
  {
    hide Leading, FirstSource, LinksOf, NotesOf, FirstTarget, CrossEdges, DomainOf;
    if rels == [] {
      NothingTouched(router, count, home, n);
    } else {
      var init, rel := rels[..|rels| - 1], rels[|rels| - 1];
      RelationTouch(router, count, home, req, init, n);
      var events, cs := RelationEvents(req, init), CrossingsIn(router, count, home, req, init);
      var added := if DomainOf(router, count, TargetOf(rel)) == home then [] else [Crossing(req, rel)];
      var more := [Touch(TargetOf(rel), SourceFor(req, rel)), Relate(EdgeFor(req, rel))];
      EventsAppend(events, more, n);
      CrossAppend(cs, added, n);
      OneRelation(router, count, home, req, rel, n);
      LeadingAppend(router, count, home, LinksOf(events), [EdgeFor(req, rel)], CrossEdges(cs), CrossEdges(added));
    }
  }

  lemma {:induction false} NothingTouched(router: Router, count: nat, home: nat, n: Node)
    ensures FirstSource([], n) == None && LinksOf([]) == [] && NotesOf([]) == []
    ensures FirstTarget([], n) == None && CrossEdges([]) == [] && Leading(router, count, home, [], [])
  {
  }

  lemma {:induction false} OneRelation(router: Router, count: nat, home: nat, req: Request, rel: RelationInput, n: Node)
    ensures
      var more := [Touch(TargetOf(rel), SourceFor(req, rel)), Relate(EdgeFor(req, rel))];
      var added := if DomainOf(router, count, TargetOf(rel)) == home then [] else [Crossing(req, rel)];
      && FirstSource(more, n) == (if n == TargetOf(rel) then Some(SourceFor(req, rel)) else None)
      && FirstTarget(added, n) == (if added != [] && n == TargetOf(rel) then Some(SourceFor(req, rel)) else None)
      && LinksOf(more) == [EdgeFor(req, rel)] && NotesOf(more) == []
      && Leading(router, count, home, [EdgeFor(req, rel)], CrossEdges(added))
  {
    var touch, link := Touch(TargetOf(rel), SourceFor(req, rel)), Relate(EdgeFor(req, rel));
    assert [touch, link] == [touch] + [link];
    EventsAppend([touch], [link], n);
    assert LinksOf([touch]) == [] && LinksOf([link]) == [EdgeFor(req, rel)];
    assert NotesOf([touch]) == [] && NotesOf([link]) == [];
    assert CrossEdges([Crossing(req, rel)]) == [EdgeFor(req, rel)];
  }

  ghost predicate Homed(router: Router, count: nat, home: nat, reqs: seq<Request>) {
    forall r :: r in reqs ==> DomainOf(router, count, NodeOf(r)) == home
  }

  ghost predicate HomedCrossings(router: Router, count: nat, home: nat, cs: seq<Crossing>) {
    forall c :: c in cs ==>
        DomainOf(router, count, NodeOf(c.req)) == home && DomainOf(router, count, TargetOf(c.rel)) != home
  }

  lemma {:induction false} BatchTouch(router: Router, count: nat, home: nat, reqs: seq<Request>, n: Node)
    requires Homed(router, count, home, reqs)
    ensures
      var events, cs := BatchEvents(reqs), Crossings(router, count, home, reqs);
      && (DomainOf(router, count, n) != home ==> FirstSource(events, n) == FirstTarget(cs, n))
      && Leading(router, count, home, LinksOf(events), CrossEdges(cs))
      && (forall e :: e in LinksOf(events) ==> DomainOf(router, count, e.from) == home)
      && (forall x :: x in NotesOf(events) ==> DomainOf(router, count, x.owner) == home)
    decreases |reqs|
  {
    hide Leading, RelationEvents, NoteEvents, CrossingsIn, GroupEvents, DomainOf, FirstSource, LinksOf, NotesOf,
      FirstTarget, CrossEdges;
    if reqs == [] {
      NothingTouched(router, count, home, n);
    } else {
      var init, req := reqs[..|reqs| - 1], reqs[|reqs| - 1];
      assert req in reqs && forall r :: r in init ==> r in reqs;
      BatchTouch(router, count, home, init, n);
      RelationTouch(router, count, home, req, req.relations, n);
      GroupTouch(req, n);
      var cs, more := Crossings(router, count, home, init), CrossingsIn(router, count, home, req, req.relations);
      EventsAppend(BatchEvents(init), GroupEvents(req), n);
      CrossAppend(cs, more, n);
      LeadingAppend(router, count, home, LinksOf(BatchEvents(init)), LinksOf(RelationEvents(req, req.relations)),
                    CrossEdges(cs), CrossEdges(more));
    }
  }

  lemma {:induction false} GroupTouch(req: Request, n: Node)
    ensures FirstSource(GroupEvents(req), n)
         == if n == NodeOf(req) then Some(req.source) else FirstSource(RelationEvents(req, req.relations), n)
    ensures LinksOf(GroupEvents(req)) == LinksOf(RelationEvents(req, req.relations))
    ensures NotesOf(GroupEvents(req))
        == NotesOf(NoteEvents(req, req.observations)) + NotesOf(RelationEvents(req, req.relations))
    ensures forall x :: x in NotesOf(NoteEvents(req, req.observations)) ==> x.owner == NodeOf(req)
  {
    hide RelationEvents, NoteEvents;
    var head := Touch(NodeOf(req), req.source);
    var notes, rels := NoteEvents(req, req.observations), RelationEvents(req, req.relations);
    NoteTouch(req, req.observations, n);
    EventsAppend([head], notes, n);
    EventsAppend([head] + notes, rels, n);
    assert [head][..0] == [];
  }

  // ---------------------------------------------------------------------
  // The events of stub rows and mirrors
  // ---------------------------------------------------------------------

  lemma {:induction false} BatchSnoc(reqs: seq<Request>, r: Request)
    ensures BatchEvents(reqs + [r]) == BatchEvents(reqs) + GroupEvents(r)
  {
    assert (reqs + [r])[..|reqs|] == reqs;
  }

  lemma {:induction false} BatchAppend(a: seq<Request>, b: seq<Request>)
    ensures BatchEvents(a + b) == BatchEvents(a) + BatchEvents(b)
    decreases |b|
  {
    hide GroupEvents;
    if b == [] {
      assert a + b == a;
    } else {
      var init, last := b[..|b| - 1], b[|b| - 1];
      BatchAppend(a, init);
      assert a + b == (a + init) + [last];
      BatchSnoc(a + init, last);
    }
  }

  ghost predicate IsStubNode(router: Router, cs: seq<Crossing>, n: Node) {
    exists r :: r in StubsFor(router, cs) && NodeOf(r) == n
  }

  /** Stub rows touch their own nodes, under the stub source, and do nothing else. */
  lemma {:induction false} StubTouch(router: Router, count: nat, home: nat, cs: seq<Crossing>, n: Node)
    requires HomedCrossings(router, count, home, cs)
    ensures
      var events := BatchEvents(StubsFor(router, cs));
      && FirstSource(events, n) == (if IsStubNode(router, cs, n) then Some(STUB_SOURCE) else None)
      && LinksOf(events) == [] && NotesOf(events) == []
      && (IsStubNode(router, cs, n) ==> DomainOf(router, count, n) != home)
    decreases |cs|
  {
    hide DomainOf, FoldOf, Folds;
    if cs != [] {
      var init, last := cs[..|cs| - 1], cs[|cs| - 1];
      assert last in cs && forall c :: c in init ==> c in cs;
      StubTouch(router, count, home, init, n);
      if FoldOf(router, last) !in Folds(router, init) {
        var stub := StubRequest(last);
        BatchSnoc(StubsFor(router, init), stub);
        StubGroup(stub, n);
        EventsAppend(BatchEvents(StubsFor(router, init)), GroupEvents(stub), n);
        assert StubsFor(router, cs) == StubsFor(router, init) + [stub];
        assert IsStubNode(router, cs, n) <==> IsStubNode(router, init, n) || NodeOf(stub) == n;
      } else {
        assert StubsFor(router, cs) == StubsFor(router, init);
        assert IsStubNode(router, cs, n) <==> IsStubNode(router, init, n);
      }
    }
  }

  lemma {:induction false} StubGroup(stub: Request, n: Node)
    requires stub.observations == [] && stub.relations == []
    ensures FirstSource(GroupEvents(stub), n) == if n == NodeOf(stub) then Some(stub.source) else None
    ensures LinksOf(GroupEvents(stub)) == [] && NotesOf(GroupEvents(stub)) == []
  {
    GroupTouch(stub, n);
  }

  /** What a crossing edge looks like in its mirror: an empty source becomes the stub source. */
  function MirrorEdge(e: EdgeRow): EdgeRow {
    e.(source := if e.source == "" then STUB_SOURCE else e.source)
  }

  lemma {:induction false} MirrorGroup(c: Crossing, n: Node)
    requires NodeOf(c.req) != TargetOf(c.rel)
    ensures
      var events, e := GroupEvents(MirrorRequest(c)), EdgeFor(c.req, c.rel);
      && FirstSource(events, n) == (if n == NodeOf(c.req) then Some(STUB_SOURCE)
                                    else if n == TargetOf(c.rel) then Some(MirrorEdge(e).source) else None)
      && LinksOf(events) == [MirrorEdge(e)] && NotesOf(events) == []
  {
    var m := MirrorRequest(c);
    var rel := m.relations[0];
    GroupTouch(m, n);
    assert RelationEvents(m, []) == [];
    assert m.relations[..0] == [];
    assert RelationEvents(m, m.relations) == [] + [Touch(TargetOf(rel), SourceFor(m, rel)), Relate(EdgeFor(m, rel))];
    OneRelation(Router(s => s, s => 0), 1, 0, m, rel, n);
    assert RelationEvents(m, m.relations) == [Touch(TargetOf(rel), SourceFor(m, rel)), Relate(EdgeFor(m, rel))];
  }

  /** In its own domain a mirror touches the canonical target as the caller would
      have; everything else it touches is a stub. */
  lemma {:induction false} MirrorTouch(router: Router, count: nat, home: nat, cs: seq<Crossing>, d: nat, n: Node)
    requires HomedCrossings(router, count, home, cs) && d != home
    ensures
      var events := BatchEvents(MirrorsFor(router, count, cs, d));
      && (DomainOf(router, count, n) == d ==> FirstSource(events, n) == MirrorSource(FirstTarget(cs, n)))
      && (DomainOf(router, count, n) != d ==>
          FirstSource(events, n) == None || FirstSource(events, n) == Some(STUB_SOURCE))
      && NotesOf(events) == []
    decreases |cs|
  {
    hide DomainOf, GroupEvents;
    if cs != [] {
      var init, last := cs[..|cs| - 1], cs[|cs| - 1];
      assert last in cs && forall c :: c in init ==> c in cs;
      MirrorTouch(router, count, home, init, d, n);
      if DomainOf(router, count, TargetOf(last.rel)) == d {
        BatchSnoc(MirrorsFor(router, count, init, d), MirrorRequest(last));
        MirrorGroup(last, n);
        EventsAppend(BatchEvents(MirrorsFor(router, count, init, d)), GroupEvents(MirrorRequest(last)), n);
        assert MirrorsFor(router, count, cs, d) == MirrorsFor(router, count, init, d) + [MirrorRequest(last)];
      } else {
        assert MirrorsFor(router, count, cs, d) == MirrorsFor(router, count, init, d);
      }
    }
  }

  function MirrorSource(source: Option<string>): Option<string> {
    if source == Some("") then Some(STUB_SOURCE) else source
  }

  lemma {:induction false} MirrorLinksStep(router: Router, count: nat, home: nat, cs: seq<Crossing>, d: nat)
    requires HomedCrossings(router, count, home, cs) && cs != []
    ensures
      var init, last := cs[..|cs| - 1], cs[|cs| - 1];
      LinksOf(BatchEvents(MirrorsFor(router, count, cs, d))) == LinksOf(BatchEvents(MirrorsFor(router, count, init, d)))
        + if DomainOf(router, count, TargetOf(last.rel)) == d then [MirrorEdge(EdgeFor(last.req, last.rel))] else []
  {
    hide DomainOf, GroupEvents, BatchEvents, LinksOf, MirrorEdge;
    var init, last := cs[..|cs| - 1], cs[|cs| - 1];
    assert last in cs;
    if DomainOf(router, count, TargetOf(last.rel)) == d {
      BatchSnoc(MirrorsFor(router, count, init, d), MirrorRequest(last));
      MirrorGroup(last, TargetOf(last.rel));
      EventsAppend(BatchEvents(MirrorsFor(router, count, init, d)), GroupEvents(MirrorRequest(last)),
                   TargetOf(last.rel));
      assert MirrorsFor(router, count, cs, d) == MirrorsFor(router, count, init, d) + [MirrorRequest(last)];
    } else {
      assert MirrorsFor(router, count, cs, d) == MirrorsFor(router, count, init, d);
    }
  }

  lemma {:induction false} NoMirrorLinks(router: Router, count: nat, d: nat)
    ensures LinksOf(BatchEvents(MirrorsFor(router, count, [], d))) == []
  {
  }

  /** Mirrors always carry a source, and cross from the home domain into their own. */
  lemma {:induction false} MirrorEnds(router: Router, count: nat, home: nat, cs: seq<Crossing>, d: nat, e: EdgeRow)
    requires HomedCrossings(router, count, home, cs) && d != home
    requires e in LinksOf(BatchEvents(MirrorsFor(router, count, cs, d)))
    ensures e.source != "" && DomainOf(router, count, e.to) == d && DomainOf(router, count, e.from) == home
    decreases |cs|
  {
    hide DomainOf, GroupEvents;
    var init, last := cs[..|cs| - 1], cs[|cs| - 1];
    assert last in cs && forall c :: c in init ==> c in cs;
    MirrorLinksStep(router, count, home, cs, d);
    if e in LinksOf(BatchEvents(MirrorsFor(router, count, init, d))) {
      MirrorEnds(router, count, home, init, d, e);
    }
  }

  /** The mirror batch of `d` writes the crossing edges that lead to `d`. */
  lemma {:induction false} MirrorLinks(router: Router, count: nat, home: nat, cs: seq<Crossing>, d: nat, e: EdgeRow)
    requires HomedCrossings(router, count, home, cs) && d != home && Sourced(cs)
    ensures multiset(LinksOf(BatchEvents(MirrorsFor(router, count, cs, d))))[e]
         == if DomainOf(router, count, e.to) == d then multiset(CrossEdges(cs))[e] else 0
    decreases |cs|
  {
    hide DomainOf, GroupEvents, MirrorsFor, LinksOf, BatchEvents;
    if cs == [] {
      NoMirrorLinks(router, count, d);
    } else {
      var init, last := cs[..|cs| - 1], cs[|cs| - 1];
      assert last in cs && forall c :: c in init ==> c in cs;
      MirrorLinks(router, count, home, init, d, e);
      MirrorLinksStep(router, count, home, cs, d);
      assert MirrorEdge(EdgeFor(last.req, last.rel)) == EdgeFor(last.req, last.rel);
    }
  }

  /** Every crossing edge carries a source, its own or its request's. */
  ghost predicate Sourced(cs: seq<Crossing>) {
    forall c :: c in cs ==> SourceFor(c.req, c.rel) != ""
  }

  // ---------------------------------------------------------------------
  // The refinement
  // ---------------------------------------------------------------------

  /** Home rows are the single store's; all other rows are stubs. */
  ghost predicate RowRefines(router: Router, count: nat, d: nat, rows: map<Node, string>, single: map<Node, string>,
      n: Node) {
    if DomainOf(router, count, n) == d then RowOf(rows, n) == RowOf(single, n)
    else n in rows ==> rows[n] == STUB_SOURCE
  }

  ghost predicate NoteRefines(router: Router, count: nat, d: nat, notes: seq<Note>, single: seq<Note>, x: Note) {
    multiset(notes)[x] == if DomainOf(router, count, x.owner) == d then multiset(single)[x] else 0
  }

  /** Edges that start here are the single store's; its edges that end here from
      elsewhere are mirrored, once (`exact`) or at least once; there are no others. */
  ghost predicate EdgeRefines(router: Router, count: nat, d: nat, edges: seq<EdgeRow>, single: seq<EdgeRow>,
      e: EdgeRow, exact: bool) {
    var have, want := multiset(edges)[e], multiset(single)[e];
    if DomainOf(router, count, e.from) == d then have == want
    else if DomainOf(router, count, e.to) == d then have >= want && (have > 0 ==> want > 0) && (exact ==> have == want)
    else have == 0
  }

  ghost predicate EndsPresent(s: Store) {
    forall e :: e in s.edges ==> e.from in s.rows && e.to in s.rows
  }

  ghost predicate StoreRefines(router: Router, count: nat, d: nat, s: Store, single: Store, exact: bool) {
    && (forall n :: RowRefines(router, count, d, s.rows, single.rows, n))
    && (forall x :: NoteRefines(router, count, d, s.notes, single.notes, x))
    && (forall e :: EdgeRefines(router, count, d, s.edges, single.edges, e, exact))
    && EndsPresent(s)
  }

  /** `stores` holds, partitioned, what `single` holds in one piece. */
  ghost predicate Partitioned(router: Router, count: nat, stores: seq<Store>, single: Store, exact: bool) {
    |stores| == count && forall d :: 0 <= d < count ==> StoreRefines(router, count, d, stores[d], single, exact)
  }

  /** No caller's row carries the source that marks stubs. */
  ghost predicate NoneReserved(single: Store) {
    forall n :: n in single.rows ==> single.rows[n] != STUB_SOURCE
  }

  /** The partition can be read back: what is marked as a stub is one. */
  ghost predicate Refines(router: Router, count: nat, stores: seq<Store>, single: Store, exact: bool) {
    Partitioned(router, count, stores, single, exact) && NoneReserved(single)
  }

  /** No row that the batch creates beside `rows` is first named under the reserved
      source.  Nothing in the code refuses that source from a caller. */
  ghost predicate CreatesNoReserved(reqs: seq<Request>, rows: map<Node, string>) {
    forall n :: n !in rows ==> FirstSource(BatchEvents(reqs), n) != Some(STUB_SOURCE)
  }

  /** Each remote target has a row in the home store already, or is spelled the way
      its stub row is, or is first named under the stub source. */
  ghost predicate Covered(router: Router, rows: map<Node, string>, cs: seq<Crossing>) {
    forall c :: c in cs ==>
      || TargetOf(c.rel) in rows
      || IsStubNode(router, cs, TargetOf(c.rel))
      || FirstTarget(cs, TargetOf(c.rel)) == Some(STUB_SOURCE)
  }

  lemma {:induction false} CrossingHomes(router: Router, count: nat, home: nat, reqs: seq<Request>, c: Crossing)
    requires c in Crossings(router, count, home, reqs)
    ensures c.req in reqs && c.rel in c.req.relations && DomainOf(router, count, TargetOf(c.rel)) != home
    decreases |reqs|
  {
    var init, req := reqs[..|reqs| - 1], reqs[|reqs| - 1];
    if c in Crossings(router, count, home, init) {
      CrossingHomes(router, count, home, init, c);
    } else {
      CrossingFrom(router, count, home, req, req.relations, c);
    }
  }

  lemma {:induction false} CrossingFrom(router: Router, count: nat, home: nat, req: Request, rels: seq<RelationInput>,
      c: Crossing)
    requires c in CrossingsIn(router, count, home, req, rels)
    ensures c.req == req && c.rel in rels && DomainOf(router, count, TargetOf(c.rel)) != home
    decreases |rels|
  {
    var init := rels[..|rels| - 1];
    if c in CrossingsIn(router, count, home, req, init) {
      CrossingFrom(router, count, home, req, init, c);
    }
  }

  lemma {:induction false} AllHomed(router: Router, count: nat, home: nat, reqs: seq<Request>)
    requires Homed(router, count, home, reqs)
    ensures HomedCrossings(router, count, home, Crossings(router, count, home, reqs))
  {
    hide Crossings;
    var cs := Crossings(router, count, home, reqs);
    forall c | c in cs
      ensures DomainOf(router, count, NodeOf(c.req)) == home && DomainOf(router, count, TargetOf(c.rel)) != home
    {
      CrossingHomes(router, count, home, reqs, c);
    }
  }

  lemma {:induction false} TargetFound(cs: seq<Crossing>, n: Node)
    ensures match FirstTarget(cs, n)
            case Some(source) => exists c :: c in cs && TargetOf(c.rel) == n && SourceFor(c.req, c.rel) == source
            case None => forall c :: c in cs ==> TargetOf(c.rel) != n
    decreases |cs|
  {
    if cs != [] {
      var init, last := cs[..|cs| - 1], cs[|cs| - 1];
      TargetFound(init, n);
      assert forall c :: c in cs <==> c in init || c == last;
    }
  }

  lemma {:induction false} RelationEndsTouched(req: Request, rels: seq<RelationInput>, e: EdgeRow)
    requires e in LinksOf(RelationEvents(req, rels))
    ensures e.from == NodeOf(req) && FirstSource(RelationEvents(req, rels), e.to).Some?
    decreases |rels|
  {
    hide FirstSource;
    if rels == [] {
      assert false;
    } else {
      var init, rel := rels[..|rels| - 1], rels[|rels| - 1];
      var more := [Touch(TargetOf(rel), SourceFor(req, rel)), Relate(EdgeFor(req, rel))];
      EventsAppend(RelationEvents(req, init), more, e.to);
      OneRelation(Router(s => s, s => 0), 1, 0, req, rel, e.to);
      if e in LinksOf(RelationEvents(req, init)) {
        RelationEndsTouched(req, init, e);
      }
    }
  }

  /** Every edge of a batch has both ends touched by the batch. */
  lemma {:induction false} EndsTouched(reqs: seq<Request>, e: EdgeRow)
    requires e in LinksOf(BatchEvents(reqs))
    ensures FirstSource(BatchEvents(reqs), e.from).Some? && FirstSource(BatchEvents(reqs), e.to).Some?
    decreases |reqs|
  {
    hide FirstSource, GroupEvents;
    if reqs == [] {
      assert false;
    } else {
      var init, req := reqs[..|reqs| - 1], reqs[|reqs| - 1];
      EventsAppend(BatchEvents(init), GroupEvents(req), e.from);
      EventsAppend(BatchEvents(init), GroupEvents(req), e.to);
      if e in LinksOf(BatchEvents(init)) {
        EndsTouched(init, e);
      } else {
        GroupTouch(req, e.from);
        GroupTouch(req, e.to);
        RelationEndsTouched(req, req.relations, e);
      }
    }
  }

  lemma {:induction false} EndsStay(s: Store, reqs: seq<Request>)
    requires EndsPresent(s)
    ensures EndsPresent(Perform(s, BatchEvents(reqs)))
  {
    hide Perform, BatchEvents, LinksOf, FirstSource;
    var after := Perform(s, BatchEvents(reqs));
    PerformLists(s, BatchEvents(reqs));
    forall e | e in after.edges ensures e.from in after.rows && e.to in after.rows {
      PerformRow(s, BatchEvents(reqs), e.from);
      PerformRow(s, BatchEvents(reqs), e.to);
      if e !in s.edges {
        EndsTouched(reqs, e);
      }
    }
  }

  // ---------------------------------------------------------------------
  // One batch, domain by domain
  // ---------------------------------------------------------------------

  /** What is written to domain `d` for a batch whose home is `home`. */
  function Share(router: Router, count: nat, home: nat, reqs: seq<Request>, d: nat): seq<Request> {
    var cs := Crossings(router, count, home, reqs);
    if d == home then StubsFor(router, cs) + reqs else MirrorsFor(router, count, cs, d)
  }

  lemma {:induction false} HomeRow(router: Router, count: nat, home: nat, reqs: seq<Request>, s: Store, single: Store,
      n: Node)
    requires Homed(router, count, home, reqs) && RowRefines(router, count, home, s.rows, single.rows, n)
    requires Covered(router, s.rows, Crossings(router, count, home, reqs))
    ensures RowRefines(router, count, home, Perform(s, BatchEvents(Share(router, count, home, reqs, home))).rows,
                       Perform(single, BatchEvents(reqs)).rows, n)
  {
    hide Perform, BatchEvents, FirstSource, Crossings, StubsFor, DomainOf, IsStubNode, Homed, HomedCrossings, LinksOf,
      NotesOf, FirstTarget, Leading;
    var cs := Crossings(router, count, home, reqs);
    AllHomed(router, count, home, reqs);
    PerformRow(s, BatchEvents(Share(router, count, home, reqs, home)), n);
    PerformRow(single, BatchEvents(reqs), n);
    BatchAppend(StubsFor(router, cs), reqs);
    EventsAppend(BatchEvents(StubsFor(router, cs)), BatchEvents(reqs), n);
    StubTouch(router, count, home, cs, n);
    BatchTouch(router, count, home, reqs, n);
    TargetFound(cs, n);
  }

  lemma {:induction false} MirrorRow(router: Router, count: nat, home: nat, reqs: seq<Request>, d: nat, s: Store,
      single: Store, n: Node)
    requires Homed(router, count, home, reqs) && d != home && RowRefines(router, count, d, s.rows, single.rows, n)
    requires Sourced(Crossings(router, count, home, reqs))
    ensures RowRefines(router, count, d, Perform(s, BatchEvents(Share(router, count, home, reqs, d))).rows,
                       Perform(single, BatchEvents(reqs)).rows, n)
  {
    hide Perform, BatchEvents, FirstSource, Crossings, StubsFor, DomainOf, IsStubNode, Homed, HomedCrossings, LinksOf,
      NotesOf, FirstTarget, Leading,
      MirrorsFor;
    var cs := Crossings(router, count, home, reqs);
    AllHomed(router, count, home, reqs);
    PerformRow(s, BatchEvents(MirrorsFor(router, count, cs, d)), n);
    PerformRow(single, BatchEvents(reqs), n);
    MirrorTouch(router, count, home, cs, d, n);
    BatchTouch(router, count, home, reqs, n);
    TargetFound(cs, n);
  }

  lemma {:induction false} ShareNote(router: Router, count: nat, home: nat, reqs: seq<Request>, d: nat, s: Store,
      single: Store, x: Note)
    requires Homed(router, count, home, reqs) && NoteRefines(router, count, d, s.notes, single.notes, x)
    ensures NoteRefines(router, count, d, Perform(s, BatchEvents(Share(router, count, home, reqs, d))).notes,
                        Perform(single, BatchEvents(reqs)).notes, x)
  {
    hide Perform, BatchEvents, FirstSource, Crossings, StubsFor, DomainOf, IsStubNode, Homed, HomedCrossings, LinksOf,
      NotesOf, FirstTarget, Leading,
      MirrorsFor;
    var cs := Crossings(router, count, home, reqs);
    AllHomed(router, count, home, reqs);
    PerformLists(s, BatchEvents(Share(router, count, home, reqs, d)));
    PerformLists(single, BatchEvents(reqs));
    BatchTouch(router, count, home, reqs, x.owner);
    if d == home {
      BatchAppend(StubsFor(router, cs), reqs);
      EventsAppend(BatchEvents(StubsFor(router, cs)), BatchEvents(reqs), x.owner);
      StubTouch(router, count, home, cs, x.owner);
    } else {
      MirrorTouch(router, count, home, cs, d, x.owner);
    }
  }

  lemma {:induction false} ShareEdge(router: Router, count: nat, home: nat, reqs: seq<Request>, d: nat, s: Store,
      single: Store, e: EdgeRow, exact: bool)
    requires Homed(router, count, home, reqs) && EdgeRefines(router, count, d, s.edges, single.edges, e, exact)
    requires Sourced(Crossings(router, count, home, reqs))
    ensures EdgeRefines(router, count, d, Perform(s, BatchEvents(Share(router, count, home, reqs, d))).edges,
                        Perform(single, BatchEvents(reqs)).edges, e, exact)
  {
    hide Perform, BatchEvents, FirstSource, Crossings, StubsFor, DomainOf, IsStubNode, Homed, HomedCrossings, LinksOf,
      NotesOf, FirstTarget,
      MirrorsFor, Sourced, CrossEdges;
    var cs := Crossings(router, count, home, reqs);
    AllHomed(router, count, home, reqs);
    PerformLists(s, BatchEvents(Share(router, count, home, reqs, d)));
    PerformLists(single, BatchEvents(reqs));
    BatchTouch(router, count, home, reqs, e.from);
    if d == home {
      BatchAppend(StubsFor(router, cs), reqs);
      EventsAppend(BatchEvents(StubsFor(router, cs)), BatchEvents(reqs), e.from);
      StubTouch(router, count, home, cs, e.from);
    } else {
      MirrorLinks(router, count, home, cs, d, e);
      if e in LinksOf(BatchEvents(MirrorsFor(router, count, cs, d))) {
        MirrorEnds(router, count, home, cs, d, e);
      }
    }
  }

  lemma {:induction false} HomeStore(router: Router, count: nat, home: nat, reqs: seq<Request>, s: Store,
      single: Store, exact: bool)
    requires Homed(router, count, home, reqs) && StoreRefines(router, count, home, s, single, exact)
    requires Covered(router, s.rows, Crossings(router, count, home, reqs))
        && Sourced(Crossings(router, count, home, reqs))
    ensures StoreRefines(router, count, home, Perform(s, BatchEvents(Share(router, count, home, reqs, home))),
                         Perform(single, BatchEvents(reqs)), exact)
  {
    hide Perform, BatchEvents, Crossings, Share, RowRefines, NoteRefines, EdgeRefines, Covered, Sourced, Homed,
      EndsPresent;
    var next, whole := Perform(s, BatchEvents(Share(router, count, home, reqs, home))),
        Perform(single, BatchEvents(reqs));
    EndsStay(s, Share(router, count, home, reqs, home));
    forall n ensures RowRefines(router, count, home, next.rows, whole.rows, n) {
      HomeRow(router, count, home, reqs, s, single, n);
    }
    forall x ensures NoteRefines(router, count, home, next.notes, whole.notes, x) {
      ShareNote(router, count, home, reqs, home, s, single, x);
    }
    forall e ensures EdgeRefines(router, count, home, next.edges, whole.edges, e, exact) {
      ShareEdge(router, count, home, reqs, home, s, single, e, exact);
    }
  }

  lemma {:induction false} MirrorStore(router: Router, count: nat, home: nat, reqs: seq<Request>, d: nat, s: Store,
      single: Store, exact: bool)
    requires Homed(router, count, home, reqs) && d != home && StoreRefines(router, count, d, s, single, exact)
    requires Sourced(Crossings(router, count, home, reqs))
    ensures StoreRefines(router, count, d, Perform(s, BatchEvents(Share(router, count, home, reqs, d))),
                         Perform(single, BatchEvents(reqs)), exact)
  {
    hide Perform, BatchEvents, Crossings, Share, RowRefines, NoteRefines, EdgeRefines, Sourced, Homed, EndsPresent;
    var next, whole := Perform(s, BatchEvents(Share(router, count, home, reqs, d))), Perform(single, BatchEvents(reqs));
    EndsStay(s, Share(router, count, home, reqs, d));
    forall n ensures RowRefines(router, count, d, next.rows, whole.rows, n) {
      MirrorRowShare(router, count, home, reqs, d, s, single, n);
    }
    forall x ensures NoteRefines(router, count, d, next.notes, whole.notes, x) {
      ShareNote(router, count, home, reqs, d, s, single, x);
    }
    forall e ensures EdgeRefines(router, count, d, next.edges, whole.edges, e, exact) {
      ShareEdge(router, count, home, reqs, d, s, single, e, exact);
    }
  }

  lemma {:induction false} MirrorRowShare(router: Router, count: nat, home: nat, reqs: seq<Request>, d: nat, s: Store,
      single: Store, n: Node)
    requires Homed(router, count, home, reqs) && d != home && RowRefines(router, count, d, s.rows, single.rows, n)
    requires Sourced(Crossings(router, count, home, reqs))
    ensures RowRefines(router, count, d, Perform(s, BatchEvents(Share(router, count, home, reqs, d))).rows,
                       Perform(single, BatchEvents(reqs)).rows, n)
  {
    hide RowRefines, Perform, BatchEvents, Crossings, Sourced, Homed;
    MirrorRow(router, count, home, reqs, d, s, single, n);
  }

  /** No request and no relation names the reserved source. */
  ghost predicate Unreserved(reqs: seq<Request>) {
    forall r :: r in reqs ==> r.source != STUB_SOURCE && forall rel :: rel in r.relations ==> rel.source != STUB_SOURCE
  }

  /** What a caller can check without looking at any store. */
  lemma {:induction false} TouchUnreserved(reqs: seq<Request>, n: Node)
    requires Unreserved(reqs)
    ensures FirstSource(BatchEvents(reqs), n) != Some(STUB_SOURCE)
    decreases |reqs|
  {
    hide GroupEvents;
    if reqs != [] {
      var init, req := reqs[..|reqs| - 1], reqs[|reqs| - 1];
      assert req in reqs && forall r :: r in init ==> r in reqs;
      TouchUnreserved(init, n);
      EventsAppend(BatchEvents(init), GroupEvents(req), n);
      GroupTouch(req, n);
      RelationUnreserved(req, req.relations, n);
    }
  }

  lemma {:induction false} RelationUnreserved(req: Request, rels: seq<RelationInput>, n: Node)
    requires req.source != STUB_SOURCE && forall rel :: rel in rels ==> rel.source != STUB_SOURCE
    ensures FirstSource(RelationEvents(req, rels), n) != Some(STUB_SOURCE)
    decreases |rels|
  {
    hide FirstSource;
    if rels == [] {
      NothingTouched(Router(s => s, s => 0), 1, 0, n);
    } else {
      var init, rel := rels[..|rels| - 1], rels[|rels| - 1];
      assert rel in rels && forall r :: r in init ==> r in rels;
      RelationUnreserved(req, init, n);
      EventsAppend(RelationEvents(req, init), [Touch(TargetOf(rel), SourceFor(req, rel)), Relate(EdgeFor(req, rel))],
                   n);
      OneRelation(Router(s => s, s => 0), 1, 0, req, rel, n);
    }
  }

  /** Rows keep their source: a reserved one is there already or created now. */
  lemma {:induction false} ReservedRows(reqs: seq<Request>, single: Store)
    ensures NoneReserved(Perform(single, BatchEvents(reqs)))
       <==> NoneReserved(single) && CreatesNoReserved(reqs, single.rows)
  {
    hide Perform, BatchEvents, FirstSource;
    var after := Perform(single, BatchEvents(reqs));
    forall n
      ensures RowOf(after.rows, n) == RowAfter(single.rows, BatchEvents(reqs), n)
    {
      PerformRow(single, BatchEvents(reqs), n);
    }
    if n :| n in single.rows && single.rows[n] == STUB_SOURCE {
      assert RowOf(after.rows, n) == Some(STUB_SOURCE);
    }
    if n :| n !in single.rows && FirstSource(BatchEvents(reqs), n) == Some(STUB_SOURCE) {
      assert RowOf(after.rows, n) == Some(STUB_SOURCE);
    }
    if n :| n in after.rows && after.rows[n] == STUB_SOURCE {
      assert RowAfter(single.rows, BatchEvents(reqs), n) == Some(STUB_SOURCE);
    }
  }

  // ---------------------------------------------------------------------
  // One batch, all domains
  // ---------------------------------------------------------------------

  /** Which transactions of a batch commit: any number of mirrors, and the home one. */
  datatype Fate = Fate(mirrors: set<nat>, home: bool)

  function Written(router: Router, home: nat, reqs: seq<Request>, fate: Fate, stores: seq<Store>): (r: seq<Store>)
    ensures |r| == |stores|
  {
    seq(|stores|, d requires 0 <= d < |stores| =>
      if (if d == home then fate.home else d in fate.mirrors)
      then Perform(stores[d], BatchEvents(Share(router, |stores|, home, reqs, d))) else stores[d])
  }

  /** Every mirror the batch needs commits, and so does the home transaction. */
  ghost predicate Lands(router: Router, count: nat, home: nat, reqs: seq<Request>, fate: Fate) {
    fate.home && forall d :: 0 <= d < count && d != home && Share(router, count, home, reqs, d) != [] ==>
      d in fate.mirrors
  }

  /** What a caller can check: each crossing edge carries a source, and the row of
      each remote target is, or will be, marked. */
  ghost predicate WellFormed(router: Router, count: nat, home: nat, reqs: seq<Request>, stores: seq<Store>)
    requires home < |stores|
  {
    Sourced(Crossings(router, count, home, reqs))
      && Covered(router, stores[home].rows, Crossings(router, count, home, reqs))
  }

  lemma {:induction false} LandedStore(router: Router, count: nat, home: nat, reqs: seq<Request>, fate: Fate,
      stores: seq<Store>, single: Store, exact: bool, d: nat)
    requires Partitioned(router, count, stores, single, exact) && home < count && d < count
    requires Homed(router, count, home, reqs) && Lands(router, count, home, reqs, fate)
    requires WellFormed(router, count, home, reqs, stores)
    ensures StoreRefines(router, count, d, Written(router, home, reqs, fate, stores)[d],
                         Perform(single, BatchEvents(reqs)), exact)
  {
    hide StoreRefines, Covered, Sourced, Crossings, Homed, Share;
    assert StoreRefines(router, count, d, stores[d], single, exact);
    if d == home {
      HomeStore(router, count, home, reqs, stores[d], single, exact);
    } else {
      MirrorStore(router, count, home, reqs, d, stores[d], single, exact);
      if Share(router, count, home, reqs, d) == [] {
        assert Perform(stores[d], BatchEvents([])) == stores[d];
      }
    }
  }

  /** A batch whose transactions all commit keeps the partition, and can be read
      back if it creates no row under the reserved source. */
  lemma {:induction false} BatchRefines(router: Router, count: nat, home: nat, reqs: seq<Request>, fate: Fate,
      stores: seq<Store>, single: Store, exact: bool)
    requires Partitioned(router, count, stores, single, exact) && home < count
    requires Homed(router, count, home, reqs) && Lands(router, count, home, reqs, fate)
    requires WellFormed(router, count, home, reqs, stores)
    ensures Partitioned(router, count, Written(router, home, reqs, fate, stores), Perform(single, BatchEvents(reqs)),
                        exact)
    ensures Refines(router, count, Written(router, home, reqs, fate, stores), Perform(single, BatchEvents(reqs)), exact)
       <==> NoneReserved(single) && CreatesNoReserved(reqs, single.rows)
  {
    hide StoreRefines, Covered, Sourced, Crossings, Homed, Perform, BatchEvents, WellFormed, Lands, Written,
      NoneReserved, CreatesNoReserved;
    ReservedRows(reqs, single);
    forall d | 0 <= d < count
      ensures StoreRefines(router, count, d, Written(router, home, reqs, fate, stores)[d],
                           Perform(single, BatchEvents(reqs)), exact)
    {
      LandedStore(router, count, home, reqs, fate, stores, single, exact, d);
    }
  }
}
