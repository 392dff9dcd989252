/** Migration keeps the meaning of a profile: whatever the domain count, the new
    layout holds the same entities, observations, canonical edges and live index
    rows, and can always be migrated again. */
module MigrationMeaning {
  import opened Prelude
  import opened Requests
  import opened MigrationRoute

  datatype Meaning = Meaning(
    entities: multiset<Entity>,
    observations: multiset<Observation>,
    edges: multiset<Edge>,
    vectors: multiset<IndexEntry>,
    fts: multiset<IndexEntry>,
    sources: multiset<SourceRecord>)

  /** An id names one observation. */
  ghost predicate OneObservationPerId(observations: seq<Observation>) {
    forall a, b :: a in observations && b in observations && a.id == b.id ==> a == b
  }

  /** An index row still describes something: a live observation, or no observation at all. */
  predicate LiveUri(observed: map<nat, Observation>, uri: Uri) {
    uri.ObservationUri? ==> uri.observation in observed && !observed[uri.observation].tombstoned
  }

  function Live(observed: map<nat, Observation>, entries: seq<IndexEntry>): seq<IndexEntry> {
    if entries == [] then []
    else
      var last := entries[|entries| - 1];
      Live(observed, entries[..|entries| - 1]) + if LiveUri(observed, last.uri) then [last] else []
  }

  /** The one graph the rows of a layout stand for. */
  ghost function MeaningOf(router: Router, rows: Rows): Meaning {
    var observed := ObservationsById(rows.observations);
    Meaning(
      multiset(Canonicals(rows.entities)),
      multiset(rows.observations),
      multiset(Graph(router, rows)),
      multiset(Live(observed, rows.vectors)),
      multiset(Live(observed, rows.fts)),
      multiset(rows.sources))
  }

  // ---------------------------------------------------------------------
  // Gathering what the domains hold
  // ---------------------------------------------------------------------

  /** `part` is what the first `n` domains hold of `whole`. */
  ghost predicate Gathered<T(!new)>(whole: seq<T>, home: T -> nat, n: nat, part: seq<T>) {
    forall x: T :: multiset(part)[x] == if home(x) < n then multiset(whole)[x] else 0
  }

  lemma {:induction false} GatherOne<T(!new)>(whole: seq<T>, home: T -> nat, n: nat, part: seq<T>, column: seq<T>)
    requires Gathered(whole, home, n, part)
    requires multiset(column) == multiset(Pick(whole, home, n))
    ensures Gathered(whole, home, n + 1, part + column)
  {
    forall x: T
      ensures multiset(part + column)[x] == if home(x) < n + 1 then multiset(whole)[x] else 0
    {
      PickCount(whole, home, n, x);
      assert multiset(part + column)[x] == multiset(part)[x] + multiset(column)[x];
    }
  }

  lemma {:induction false} CanonicalsAppend(a: seq<Entity>, b: seq<Entity>)
    ensures Canonicals(a + b) == Canonicals(a) + Canonicals(b)
    decreases |b|
  {
    if b == [] {
      assert a + b == a;
    } else {
      var init, last := b[..|b| - 1], b[|b| - 1];
      assert a + b == (a + init) + [last];
      assert b == init + [last];
      CanonicalsAppend(a, init);
      DirectorySnoc(a + init, last);
    }
  }

  lemma {:induction false} EdgesAppend(router: Router, dir: map<nat, Entity>, a: seq<Relation>, b: seq<Relation>)
    ensures HomeEdges(router, dir, a + b) == HomeEdges(router, dir, a) + HomeEdges(router, dir, b)
    decreases |b|
  {
    if b == [] {
      assert a + b == a;
    } else {
      var init, last := b[..|b| - 1], b[|b| - 1];
      assert a + b == (a + init) + [last];
      assert b == init + [last];
      EdgesAppend(router, dir, a, init);
      EdgesSnoc(router, dir, a + init, last);
      EdgesSnoc(router, dir, init, last);
    }
  }

  lemma {:induction false} FlattenStep(plans: seq<Rows>, n: nat)
    requires n < |plans|
    ensures Flatten(plans[..n + 1]) == Join(Flatten(plans[..n]), plans[n])
  {
    assert plans[..n + 1][..n] == plans[..n];
  }

  /** The plan of a domain is part of the flattened layout. */
  lemma {:induction false} FlattenHolds(plans: seq<Rows>, d: nat, n: nat)
    requires d < n <= |plans|
    ensures forall e :: e in plans[d].entities ==> e in Flatten(plans[..n]).entities
    ensures forall r :: r in plans[d].relations ==> r in Flatten(plans[..n]).relations
    decreases n
  {
    FlattenStep(plans, n - 1);
    if d < n - 1 {
      FlattenHolds(plans, d, n - 1);
    }
  }

  ghost predicate ColumnsGathered(router: Router, rows: Rows, count: nat, n: nat, flat: Rows)
    requires count > 0
  {
    var dir := Directory(rows.entities);
    var observed := ObservationsById(rows.observations);
    && Gathered(Canonicals(rows.entities), EntityHome(router, count), n, Canonicals(flat.entities))
    && Gathered(rows.observations, ObservationHome(router, count, dir), n, flat.observations)
    && Gathered(rows.vectors, EntryHome(router, count, dir, observed), n, flat.vectors)
    && Gathered(rows.fts, EntryHome(router, count, dir, observed), n, flat.fts)
    && Gathered(rows.sources, SourceHome(router, count), n, flat.sources)
  }

  lemma {:induction false} NoCanonicals()
    ensures Canonicals([]) == []
  {
  }

  lemma {:induction false} GatherColumns(router: Router, rows: Rows, count: nat, plans: seq<Rows>, n: nat)
    requires count > 0 && n <= count == |plans|
    requires forall d :: 0 <= d < count ==> RowsPlaced(router, rows, count, d, plans[d])
    ensures ColumnsGathered(router, rows, count, n, Flatten(plans[..n]))
    decreases n
  {
    hide Gathered, Pick, EntityHome, ObservationHome, EntryHome, SourceHome, Directory, ObservationsById, Canonicals;
    if n == 0 {
      GatherNothing(Canonicals(rows.entities), EntityHome(router, count));
      GatherNothing(rows.observations, ObservationHome(router, count, Directory(rows.entities)));
      GatherNothing(rows.vectors,
                    EntryHome(router, count, Directory(rows.entities), ObservationsById(rows.observations)));
      GatherNothing(rows.fts, EntryHome(router, count, Directory(rows.entities), ObservationsById(rows.observations)));
      GatherNothing(rows.sources, SourceHome(router, count));
      NoCanonicals();
    } else {
      var m := n - 1;
      var dir, observed := Directory(rows.entities), ObservationsById(rows.observations);
      GatherColumns(router, rows, count, plans, m);
      FlattenStep(plans, m);
      var was := Flatten(plans[..m]);
      assert RowsPlaced(router, rows, count, m, plans[m]);
      CanonicalsAppend(was.entities, plans[m].entities);
      GatherOne(Canonicals(rows.entities), EntityHome(router, count), m, Canonicals(was.entities),
                Canonicals(plans[m].entities));
      GatherOne(rows.observations, ObservationHome(router, count, dir), m, was.observations, plans[m].observations);
      GatherOne(rows.vectors, EntryHome(router, count, dir, observed), m, was.vectors, plans[m].vectors);
      GatherOne(rows.fts, EntryHome(router, count, dir, observed), m, was.fts, plans[m].fts);
      GatherOne(rows.sources, SourceHome(router, count), m, was.sources, plans[m].sources);
    }
  }

  lemma {:induction false} GatherNothing<T(!new)>(whole: seq<T>, home: T -> nat)
    ensures Gathered(whole, home, 0, [])
  {
  }

  // ---------------------------------------------------------------------
  // The edges of all domains
  // ---------------------------------------------------------------------

  /** Every row of a domain is found under its id in the whole layout. */
  lemma {:induction false} PlanInLayout(plans: seq<Rows>, d: nat)
    requires d < |plans| && DistinctIds(Flatten(plans).entities)
    ensures forall id :: id in Directory(plans[d].entities) ==>
      id in Directory(Flatten(plans).entities)
        && Directory(Flatten(plans).entities)[id] == Directory(plans[d].entities)[id]
    ensures forall e :: e in plans[d].entities ==>
      e.id in Directory(Flatten(plans).entities) && Directory(Flatten(plans).entities)[e.id] == e
  {
    hide Flatten;
    assert plans[..|plans|] == plans;
    FlattenHolds(plans, d, |plans|);
    DirectoryRows(Flatten(plans).entities);
    DirectoryRows(plans[d].entities);
  }

  lemma {:induction false} GatherEdges(router: Router, rows: Rows, count: nat, plans: seq<Rows>, n: nat)
    requires count > 0 && n <= count && Routed(router, rows, count, plans)
    ensures Gathered(Graph(router, rows), EdgeHome(router, count), n,
                     HomeEdges(router, Directory(Flatten(plans).entities), Flatten(plans[..n]).relations))
    decreases n
  {
    hide Gathered, Pick, EdgeHome, Graph, RowsPlaced, StubsPlaced, Directory;
    var graph := Graph(router, rows);
    if n == 0 {
      GatherNothing(graph, EdgeHome(router, count));
    } else {
      var m := n - 1;
      var dir := Directory(Flatten(plans).entities);
      GatherEdges(router, rows, count, plans, m);
      FlattenStep(plans, m);
      assert EdgesPlaced(router, graph, count, m, plans[m]);
      PlanInLayout(plans, m);
      EdgesAgree(router, Directory(plans[m].entities), dir, plans[m].relations);
      EdgesAppend(router, dir, Flatten(plans[..m]).relations, plans[m].relations);
      GatherOne(graph, EdgeHome(router, count), m,
                HomeEdges(router, dir, Flatten(plans[..m]).relations), HomeEdges(router, dir, plans[m].relations));
    }
  }

  lemma {:induction false} GatheredAll<T(!new)>(whole: seq<T>, home: T -> nat, n: nat, part: seq<T>)
    requires Gathered(whole, home, n, part) && forall x :: x in whole ==> home(x) < n
    ensures multiset(part) == multiset(whole)
  {
    forall x: T ensures multiset(part)[x] == multiset(whole)[x] {
      if x !in whole {
        assert multiset(whole)[x] == 0;
      }
    }
    assert forall x: T :: (x in multiset(part) <==> x in multiset(whole));
  }

  // ---------------------------------------------------------------------
  // The new layout is consistent
  // ---------------------------------------------------------------------

  lemma {:induction false} EdgeRows(router: Router, dir: map<nat, Entity>, rels: seq<Relation>,
      e: Edge) returns (r: Relation)
    requires e in HomeEdges(router, dir, rels)
    ensures r in rels && !StubAt(dir, r.from) && e == Edge(r.id, LinkOf(router, dir, r))
    decreases |rels|
  {
    var last := rels[|rels| - 1];
    if !StubAt(dir, last.from) && e == Edge(last.id, LinkOf(router, dir, last)) {
      r := last;
    } else {
      r := EdgeRows(router, dir, rels[..|rels| - 1], e);
    }
  }

  /** The canonical edges of a consistent export run between canonical entities. */
  lemma {:induction false} GraphEnds(router: Router, rows: Rows, e: Edge)
    requires Consistent(router, rows) && e in Graph(router, rows)
    ensures HasCanonical(router, rows.entities, e.link.from) && HasCanonical(router, rows.entities, e.link.to)
  {
    var dir := Directory(rows.entities);
    DirectoryRows(rows.entities);
    var r := EdgeRows(router, dir, rows.relations, e);
    var i :| 0 <= i < |rows.relations| && rows.relations[i] == r;
    assert RelationOk(router, rows, r);
    assert dir[r.from] in rows.entities;
  }

  lemma {:induction false} NamedHome(router: Router, count: nat, entities: seq<Entity>, key: End)
    requires count > 0 && HasCanonical(router, entities, key)
    ensures key.Named? && DomainOf(router, count, key) < count
  {
  }

  /** A canonical entity of the export is found in the new layout, and the reverse. */
  lemma {:induction false} SameCanonicals(router: Router, rows: Rows, count: nat, plans: seq<Rows>)
    requires count > 0 && Routed(router, rows, count, plans)
    ensures multiset(Canonicals(Flatten(plans).entities)) == multiset(Canonicals(rows.entities))
    ensures forall e :: !IsStub(e) ==> (e in rows.entities <==> e in Flatten(plans).entities)
  {
    hide Gathered, Flatten, Canonicals, EdgesPlaced, StubsPlaced, RowsPlaced;
    assert plans[..count] == plans;
    GatherColumns(router, rows, count, plans, count);
    CanonicalRows(rows.entities);
    CanonicalRows(Flatten(plans).entities);
    GatheredAll(Canonicals(rows.entities), EntityHome(router, count), count, Canonicals(Flatten(plans).entities));
    SameMembers(Canonicals(rows.entities), Canonicals(Flatten(plans).entities));
  }

  lemma {:induction false} SameMembers<T>(a: seq<T>, b: seq<T>)
    requires multiset(a) == multiset(b)
    ensures forall x :: x in a <==> x in b
  {
    assert forall x :: x in multiset(a) <==> x in a;
  }

  lemma {:induction false} SameObservations(router: Router, rows: Rows, count: nat, plans: seq<Rows>)
    requires count > 0 && Consistent(router, rows) && Routed(router, rows, count, plans)
    ensures multiset(Flatten(plans).observations) == multiset(rows.observations)
  {
    hide Gathered, Flatten, Canonicals, EdgesPlaced, StubsPlaced, RowsPlaced, Directory;
    var dir := Directory(rows.entities);
    assert plans[..count] == plans;
    GatherColumns(router, rows, count, plans, count);
    forall o | o in rows.observations ensures ObservationHome(router, count, dir)(o) < count {
      var i :| 0 <= i < |rows.observations| && rows.observations[i] == o;
      assert ObservationOk(dir, rows.observations[i]);
    }
    GatheredAll(rows.observations, ObservationHome(router, count, dir), count, Flatten(plans).observations);
  }

  lemma {:induction false} SameEdges(router: Router, rows: Rows, count: nat, plans: seq<Rows>)
    requires count > 0 && Consistent(router, rows) && Routed(router, rows, count, plans)
    ensures multiset(Graph(router, Flatten(plans))) == multiset(Graph(router, rows))
  {
    hide Gathered, Flatten, Canonicals, EdgesPlaced, StubsPlaced, RowsPlaced, Directory, HasCanonical, Consistent;
    assert plans[..count] == plans;
    GatherEdges(router, rows, count, plans, count);
    forall e | e in Graph(router, rows) ensures EdgeHome(router, count)(e) < count {
      GraphEnds(router, rows, e);
      NamedHome(router, count, rows.entities, e.link.from);
    }
    GatheredAll(Graph(router, rows), EdgeHome(router, count), count, Graph(router, Flatten(plans)));
  }

  lemma {:induction false} FromPlan(plans: seq<Rows>, r: Relation) returns (d: nat)
    requires r in Flatten(plans).relations
    ensures d < |plans| && r in plans[d].relations
    decreases |plans|
  {
    var n := |plans| - 1;
    if r in plans[n].relations {
      d := n;
    } else {
      d := FromPlan(plans[..n], r);
    }
  }

  /** A migrated layout passes every check a migration makes. */
  lemma {:induction false} MigratedConsistent(router: Router, rows: Rows, count: nat, plans: seq<Rows>)
    requires count > 0 && Consistent(router, rows) && Routed(router, rows, count, plans)
    ensures Consistent(router, Flatten(plans))
  {
    hide Flatten, Canonicals, RowsPlaced, Directory, DistinctIds, HomeEdges, MirrorLinks, Pick, Links;
    var flat := Flatten(plans);
    var dir := Directory(flat.entities);
    SameCanonicals(router, rows, count, plans);
    SameObservations(router, rows, count, plans);
    SameMembers(flat.observations, rows.observations);
    DirectoryRows(rows.entities);
    DirectoryRows(flat.entities);
    forall i | 0 <= i < |flat.observations| ensures ObservationOk(dir, flat.observations[i]) {
      var o := flat.observations[i];
      assert o in rows.observations;
      var j :| 0 <= j < |rows.observations| && rows.observations[j] == o;
      assert ObservationOk(Directory(rows.entities), rows.observations[j]);
      assert Directory(rows.entities)[o.entityId] in flat.entities;
    }
    forall i | 0 <= i < |flat.relations| ensures RelationOk(router, flat, flat.relations[i]) {
      MigratedRelation(router, rows, count, plans, flat.relations[i]);
    }
  }

  lemma {:induction false} MigratedRelation(router: Router, rows: Rows, count: nat, plans: seq<Rows>, r: Relation)
    requires count > 0 && Routed(router, rows, count, plans) && r in Flatten(plans).relations
    ensures RelationOk(router, Flatten(plans), r)
  {
    hide Flatten, Canonicals, RowsPlaced, Directory, DistinctIds, HomeEdges, MirrorLinks, Pick, Links;
    var flat := Flatten(plans);
    var d := FromPlan(plans, r);
    SameCanonicals(router, rows, count, plans);
    PlanInLayout(plans, d);
    DirectoryRows(plans[d].entities);
    assert EdgesPlaced(router, Graph(router, rows), count, d, plans[d]);
    assert StubsPlaced(router, rows.entities, count, d, plans[d]);
    var target := Directory(plans[d].entities)[r.to];
    assert HasCanonical(router, rows.entities, Key(router, target)) by {
      if !IsStub(target) {
        DirectoryRows(flat.entities);
        assert target in flat.entities;
      }
    }
    var c :| c in rows.entities && !IsStub(c) && Key(router, c) == Key(router, target);
    assert c in flat.entities;
  }

  // ---------------------------------------------------------------------
  // Index rows
  // ---------------------------------------------------------------------

  lemma {:induction false} ObservationRows(observations: seq<Observation>)
    ensures forall id :: id in ObservationsById(observations) ==>
      ObservationsById(observations)[id] in observations && ObservationsById(observations)[id].id == id
    ensures forall o :: o in observations ==> o.id in ObservationsById(observations)
    decreases |observations|
  {
    if observations != [] {
      ObservationRows(observations[..|observations| - 1]);
      assert forall o :: o in observations ==>
          o in observations[..|observations| - 1] || o == observations[|observations| - 1];
    }
  }

  lemma {:induction false} SameObserved(a: seq<Observation>, b: seq<Observation>)
    requires multiset(a) == multiset(b) && OneObservationPerId(a)
    ensures ObservationsById(a) == ObservationsById(b)
  {
    ObservationRows(a);
    ObservationRows(b);
    SameMembers(a, b);
    assert forall id :: id in ObservationsById(a) ==> ObservationsById(a)[id] in b;
    assert forall id :: id in ObservationsById(b) ==> ObservationsById(b)[id] in a;
    assert forall id :: id in ObservationsById(a) ==> ObservationsById(a)[id] == ObservationsById(b)[id];
  }

  lemma {:induction false} LiveCount(observed: map<nat, Observation>, entries: seq<IndexEntry>, x: IndexEntry)
    ensures multiset(Live(observed, entries))[x] == if LiveUri(observed, x.uri) then multiset(entries)[x] else 0
    decreases |entries|
  {
    if entries != [] {
      var init, last := entries[..|entries| - 1], entries[|entries| - 1];
      LiveCount(observed, init, x);
      assert entries == init + [last];
    }
  }

  /** The index rows of the new layout are the live ones of the old, and stay live. */
  lemma {:induction false} SameIndex(router: Router, rows: Rows, count: nat, before: seq<IndexEntry>,
      after: seq<IndexEntry>)
    requires count > 0 && Consistent(router, rows)
    requires Gathered(before, EntryHome(router, count, Directory(rows.entities), ObservationsById(rows.observations)),
                      count, after)
    ensures multiset(after) == multiset(Live(ObservationsById(rows.observations), before))
    ensures multiset(Live(ObservationsById(rows.observations), after)) == multiset(after)
  {
    hide Directory, ObservationsById, Live;
    var dir, observed := Directory(rows.entities), ObservationsById(rows.observations);
    ObservationRows(rows.observations);
    forall x: IndexEntry
      ensures multiset(after)[x] == multiset(Live(observed, before))[x]
      ensures multiset(Live(observed, after))[x] == multiset(after)[x]
    {
      LiveCount(observed, before, x);
      LiveCount(observed, after, x);
      if LiveUri(observed, x.uri) && x.uri.ObservationUri? {
        var o := observed[x.uri.observation];
        var i :| 0 <= i < |rows.observations| && rows.observations[i] == o;
        assert ObservationOk(dir, rows.observations[i]);
      }
      assert LiveUri(observed, x.uri) <==> EntryHome(router, count, dir, observed)(x) < count;
    }
    assert forall x: IndexEntry :: x in multiset(after) <==> x in multiset(Live(observed, before));
    assert forall x: IndexEntry :: x in multiset(after) <==> x in multiset(Live(observed, after));
  }

  // ---------------------------------------------------------------------
  // The next export
  // ---------------------------------------------------------------------

  /** The same rows, in another order perhaps. */
  ghost predicate Permuted(a: Rows, b: Rows) {
    && multiset(a.entities) == multiset(b.entities)
    && multiset(a.observations) == multiset(b.observations)
    && multiset(a.relations) == multiset(b.relations)
    && multiset(a.vectors) == multiset(b.vectors)
    && multiset(a.fts) == multiset(b.fts)
    && multiset(a.sources) == multiset(b.sources)
  }

  ghost predicate ById(entities: seq<Entity>) {
    forall i, j :: 0 <= i < j < |entities| ==> entities[i].id <= entities[j].id
  }

  /** What the stores that hold the plans export: each the rows of its plan, the
      entities by id. */
  ghost predicate Exported(plans: seq<Rows>, exports: seq<Rows>) {
    && |exports| == |plans|
    && forall d :: 0 <= d < |plans| ==> Permuted(plans[d], exports[d]) && ById(exports[d].entities)
  }

  lemma {:induction false} ExportPermutes(plans: seq<Rows>, exports: seq<Rows>)
    requires Exported(plans, exports)
    ensures Permuted(Flatten(plans), Flatten(exports))
    decreases |plans|
  {
    hide ById;
    if plans != [] {
      var n := |plans| - 1;
      ExportPermutes(plans[..n], exports[..n]);
      assert Permuted(plans[n], exports[n]);
    }
  }

  /** The last item of `a` is somewhere in `b`, and the others are the others. */
  lemma {:induction false} Elsewhere<T>(a: seq<T>, b: seq<T>) returns (k: nat)
    requires multiset(a) == multiset(b) && a != []
    ensures k < |b| && b[k] == a[|a| - 1]
    ensures multiset(a[..|a| - 1]) == multiset(b[..k] + b[k + 1..])
  {
    var init, last := a[..|a| - 1], a[|a| - 1];
    assert a == init + [last];
    assert last in multiset(b);
    k :| 0 <= k < |b| && b[k] == last;
    var rest := b[..k] + b[k + 1..];
    assert b == b[..k] + [last] + b[k + 1..];
    assert multiset(rest) == multiset(b) - multiset{last};
    assert multiset(init) == multiset(a) - multiset{last};
  }

  /** What a rule makes of each item, one after the other. */
  function Collect<T, U>(s: seq<T>, rule: T -> seq<U>): seq<U> {
    if s == [] then [] else Collect(s[..|s| - 1], rule) + rule(s[|s| - 1])
  }

  lemma {:induction false} CollectAppend<T, U>(a: seq<T>, b: seq<T>, rule: T -> seq<U>)
    ensures Collect(a + b, rule) == Collect(a, rule) + Collect(b, rule)
    decreases |b|
  {
    if b == [] {
      assert a + b == a;
    } else {
      var init := b[..|b| - 1];
      assert (a + b)[..|a + b| - 1] == a + init;
      CollectAppend(a, init, rule);
    }
  }

  /** The order of the items does not matter. */
  lemma {:induction false} CollectPermutes<T, U>(a: seq<T>, b: seq<T>, rule: T -> seq<U>)
    requires multiset(a) == multiset(b)
    ensures multiset(Collect(a, rule)) == multiset(Collect(b, rule))
    decreases |a|
  {
    if a == [] {
      assert |multiset(b)| == 0;
      assert b == [];
    } else {
      var k := Elsewhere(a, b);
      CollectPermutes(a[..|a| - 1], b[..k] + b[k + 1..], rule);
      CollectWithout(b, k, rule);
    }
  }

  lemma {:induction false} CollectWithout<T, U>(s: seq<T>, k: nat, rule: T -> seq<U>)
    requires k < |s|
    ensures multiset(Collect(s, rule)) == multiset(Collect(s[..k] + s[k + 1..], rule)) + multiset(rule(s[k]))
  {
    hide Collect;
    CollectAppend(s[..k], s[k + 1..], rule);
    CollectAppend(s[..k + 1], s[k + 1..], rule);
    assert s == s[..k + 1] + s[k + 1..];
    CollectSnoc(s, k, rule);
  }

  lemma {:induction false} CollectSnoc<T, U>(s: seq<T>, k: nat, rule: T -> seq<U>)
    requires k < |s|
    ensures Collect(s[..k + 1], rule) == Collect(s[..k], rule) + rule(s[k])
  {
    assert s[..k + 1][..k] == s[..k];
  }

  function EdgeRule(router: Router, dir: map<nat, Entity>): Relation -> seq<Edge> {
    (r: Relation) => if StubAt(dir, r.from) then [] else [Edge(r.id, LinkOf(router, dir, r))]
  }

  lemma {:induction false} EdgesCollected(router: Router, dir: map<nat, Entity>, rels: seq<Relation>)
    ensures HomeEdges(router, dir, rels) == Collect(rels, EdgeRule(router, dir))
    decreases |rels|
  {
    if rels != [] {
      EdgesCollected(router, dir, rels[..|rels| - 1]);
    }
  }

  function CanonicalRule(): Entity -> seq<Entity> { (e: Entity) => if IsStub(e) then [] else [e] }

  lemma {:induction false} CanonicalsCollected(entities: seq<Entity>)
    ensures Canonicals(entities) == Collect(entities, CanonicalRule())
    decreases |entities|
  {
    if entities != [] {
      CanonicalsCollected(entities[..|entities| - 1]);
    }
  }

  /** Ids that name one row each do so in any order. */
  lemma {:induction false} DistinctAlike(a: seq<Entity>, b: seq<Entity>)
    requires DistinctIds(a) && multiset(a) == multiset(b)
    ensures DistinctIds(b) && Directory(a) == Directory(b)
  {
    SameMembers(a, b);
    DirectoryRows(a);
    forall i, j | 0 <= i < j < |b| ensures b[i].id != b[j].id {
      AtMostOnce(a, b[i]);
      OnceOnly(b, i, j);
      assert b[i] in a && b[j] in a;
    }
    DirectoryRows(b);
    assert forall id :: id in Directory(a) ==> Directory(a)[id] in b;
    assert forall id :: id in Directory(b) ==> Directory(b)[id] in a;
  }

  lemma {:induction false} OnceOnly<T>(s: seq<T>, i: nat, j: nat)
    requires i < j < |s| && multiset(s)[s[i]] <= 1
    ensures s[i] != s[j]
  {
    assert s == s[..j] + s[j..];
    assert s[i] in multiset(s[..j]) && s[j] in multiset(s[j..]);
  }

  lemma {:induction false} AtMostOnce(entities: seq<Entity>, e: Entity)
    requires DistinctIds(entities)
    ensures multiset(entities)[e] <= 1
    decreases |entities|
  {
    if entities != [] {
      var init := entities[..|entities| - 1];
      AtMostOnce(init, e);
      assert entities == init + [entities[|entities| - 1]];
    }
  }

  lemma {:induction false} LivePermutes(observed: map<nat, Observation>, a: seq<IndexEntry>, b: seq<IndexEntry>)
    requires multiset(a) == multiset(b)
    ensures multiset(Live(observed, a)) == multiset(Live(observed, b))
  {
    hide Live;
    forall x: IndexEntry ensures multiset(Live(observed, a))[x] == multiset(Live(observed, b))[x] {
      LiveCount(observed, a, x);
      LiveCount(observed, b, x);
    }
    assert forall x: IndexEntry :: x in multiset(Live(observed, a)) <==> x in multiset(Live(observed, b));
  }

  /** The order of the rows means nothing. */
  lemma {:induction false} OrderMeansNothing(router: Router, a: Rows, b: Rows)
    requires Permuted(a, b) && DistinctIds(a.entities) && OneObservationPerId(a.observations)
    ensures MeaningOf(router, a) == MeaningOf(router, b)
    ensures DistinctIds(b.entities) && OneObservationPerId(b.observations)
    ensures Directory(a.entities) == Directory(b.entities)
    ensures multiset(Canonicals(a.entities)) == multiset(Canonicals(b.entities))
  {
    hide Directory, Canonicals, HomeEdges, Live, ObservationsById, Collect, DistinctIds;
    DistinctAlike(a.entities, b.entities);
    var dir := Directory(a.entities);
    CanonicalsCollected(a.entities);
    CanonicalsCollected(b.entities);
    CollectPermutes(a.entities, b.entities, CanonicalRule());
    EdgesCollected(router, dir, a.relations);
    EdgesCollected(router, dir, b.relations);
    CollectPermutes(a.relations, b.relations, EdgeRule(router, dir));
    SameMembers(a.observations, b.observations);
    SameObserved(a.observations, b.observations);
    LivePermutes(ObservationsById(a.observations), a.vectors, b.vectors);
    LivePermutes(ObservationsById(a.observations), a.fts, b.fts);
  }

  lemma {:induction false} OrderKeepsConsistent(router: Router, a: Rows, b: Rows)
    requires Permuted(a, b) && DistinctIds(a.entities) && Consistent(router, a)
    ensures Consistent(router, b)
  {
    hide Directory, DistinctIds;
    DistinctAlike(a.entities, b.entities);
    SameMembers(a.entities, b.entities);
    SameMembers(a.observations, b.observations);
    SameMembers(a.relations, b.relations);
    forall i | 0 <= i < |b.observations| ensures ObservationOk(Directory(b.entities), b.observations[i]) {
      assert b.observations[i] in a.observations;
    }
    forall i | 0 <= i < |b.relations| ensures RelationOk(router, b, b.relations[i]) {
      assert b.relations[i] in a.relations;
      var j :| 0 <= j < |a.relations| && a.relations[j] == b.relations[i];
      assert RelationOk(router, a, a.relations[j]);
    }
  }

  // ---------------------------------------------------------------------
  // The theorems
  // ---------------------------------------------------------------------

  /** The plans mean what the export meant. */
  lemma {:induction false} PlansKeepMeaning(router: Router, rows: Rows, count: nat, plans: seq<Rows>)
    requires count > 0 && Consistent(router, rows) && OneObservationPerId(rows.observations)
    requires Routed(router, rows, count, plans)
    ensures MeaningOf(router, Flatten(plans)) == MeaningOf(router, rows)
    ensures Consistent(router, Flatten(plans)) && OneObservationPerId(Flatten(plans).observations)
    ensures DistinctIds(Flatten(plans).entities)
    ensures MeaningOf(router, Flatten(plans)).vectors == multiset(Flatten(plans).vectors)
    ensures MeaningOf(router, Flatten(plans)).fts == multiset(Flatten(plans).fts)
  {
    hide Flatten, Canonicals, RowsPlaced, EdgesPlaced, EndsPlaced, StubsPlaced, Directory, ObservationsById,
      Consistent, Graph, Live, Gathered, DistinctIds, Pick;
    var flat := Flatten(plans);
    MigratedConsistent(router, rows, count, plans);
    SameCanonicals(router, rows, count, plans);
    SameObservations(router, rows, count, plans);
    SameMembers(flat.observations, rows.observations);
    SameEdges(router, rows, count, plans);
    SameObserved(rows.observations, flat.observations);
    assert plans[..count] == plans;
    GatherColumns(router, rows, count, plans, count);
    SameIndex(router, rows, count, rows.vectors, flat.vectors);
    SameIndex(router, rows, count, rows.fts, flat.fts);
    forall s | s in rows.sources ensures SourceHome(router, count)(s) < count {
    }
    GatheredAll(rows.sources, SourceHome(router, count), count, flat.sources);
  }

  lemma {:induction false} RowFromPlan(plans: seq<Rows>, e: Entity) returns (d: nat)
    requires e in Flatten(plans).entities
    ensures d < |plans| && e in plans[d].entities
    decreases |plans|
  {
    var n := |plans| - 1;
    if e in plans[n].entities {
      d := n;
    } else {
      d := RowFromPlan(plans[..n], e);
    }
  }

  /** Every row of the new layout has the key of a canonical row of the old. */
  lemma {:induction false} OldKey(router: Router, rows: Rows, count: nat, plans: seq<Rows>, e: Entity)
    requires count > 0 && Routed(router, rows, count, plans) && e in Flatten(plans).entities
    ensures HasCanonical(router, rows.entities, Key(router, e))
  {
    hide Flatten, Canonicals, RowsPlaced, EdgesPlaced, EndsPlaced, DistinctIds, Key;
    SameCanonicals(router, rows, count, plans);
    var d := RowFromPlan(plans, e);
    assert StubsPlaced(router, rows.entities, count, d, plans[d]);
  }

  /** Rows that fold alike still hash alike. */
  lemma {:induction false} StaysCoherent(router: Router, rows: Rows, count: nat, plans: seq<Rows>, exports: seq<Rows>)
    requires count > 0 && Routed(router, rows, count, plans) && Exported(plans, exports)
    requires Coherent(router, rows.entities)
    ensures Coherent(router, Flatten(exports).entities)
  {
    hide Flatten, Routed, Exported;
    ExportPermutes(plans, exports);
    SameMembers(Flatten(plans).entities, Flatten(exports).entities);
    forall a, b | a in Flatten(exports).entities && b in Flatten(exports).entities && Fold(router, a) == Fold(router, b)
      ensures Key(router, a) == Key(router, b)
    {
      OldKey(router, rows, count, plans, a);
      OldKey(router, rows, count, plans, b);
      var x :| x in rows.entities && !IsStub(x) && Key(router, x) == Key(router, a);
      var y :| y in rows.entities && !IsStub(y) && Key(router, y) == Key(router, b);
      assert Fold(router, x) == Fold(router, y);
    }
  }

  /** Re-homing a profile keeps its entities, observations, canonical edges and
      live index rows, and leaves a layout that can be migrated again: no later
      migration will refuse what it exports, and none will find an index row to drop. */
  lemma {:induction false} MigrationKeepsMeaning(router: Router, rows: Rows, count: nat, plans: seq<Rows>,
      exports: seq<Rows>)
    requires count > 0 && Consistent(router, rows) && OneObservationPerId(rows.observations)
    requires Routed(router, rows, count, plans) && Exported(plans, exports)
    ensures MeaningOf(router, Flatten(exports)) == MeaningOf(router, rows)
    ensures Consistent(router, Flatten(exports)) && OneObservationPerId(Flatten(exports).observations)
    ensures DistinctIds(Flatten(exports).entities)
    ensures MeaningOf(router, Flatten(exports)).vectors == multiset(Flatten(exports).vectors)
    ensures MeaningOf(router, Flatten(exports)).fts == multiset(Flatten(exports).fts)
    ensures Coherent(router, rows.entities) ==> Coherent(router, Flatten(exports).entities)
  {
    hide Flatten, MeaningOf, Exported, RowsPlaced, EdgesPlaced, EndsPlaced, StubsPlaced, Consistent,
      OneObservationPerId, DistinctIds, Coherent;
    if Coherent(router, rows.entities) {
      StaysCoherent(router, rows, count, plans, exports);
    }
    PlansKeepMeaning(router, rows, count, plans);
    ExportPermutes(plans, exports);
    OrderMeansNothing(router, Flatten(plans), Flatten(exports));
    OrderKeepsConsistent(router, Flatten(plans), Flatten(exports));
  }

  /** Migrating through an intermediate count means the same as migrating directly. */
  lemma {:induction false} MigrationComposes(router: Router, rows: Rows, via: nat, count: nat,
      first: seq<Rows>, between: seq<Rows>, second: seq<Rows>, after: seq<Rows>, direct: seq<Rows>, other: seq<Rows>)
    requires via > 0 && count > 0 && Consistent(router, rows) && OneObservationPerId(rows.observations)
    requires Routed(router, rows, via, first) && Exported(first, between)
    requires Routed(router, Flatten(between), count, second) && Exported(second, after)
    requires Routed(router, rows, count, direct) && Exported(direct, other)
    ensures MeaningOf(router, Flatten(after)) == MeaningOf(router, Flatten(other)) == MeaningOf(router, rows)
  {
    hide MeaningOf, Routed, Consistent, Flatten, Exported;
    MigrationKeepsMeaning(router, rows, via, first, between);
    MigrationKeepsMeaning(router, Flatten(between), count, second, after);
    MigrationKeepsMeaning(router, rows, count, direct, other);
  }

  lemma {:induction false} PickAll<T>(s: seq<T>, home: T -> nat, d: nat)
    requires forall x :: x in s ==> home(x) == d
    ensures Pick(s, home, d) == s
    decreases |s|
  {
    if s != [] {
      PickAll(s[..|s| - 1], home, d);
      assert s == s[..|s| - 1] + [s[|s| - 1]];
    }
  }

  lemma {:induction false} PickNone<T>(s: seq<T>, home: T -> nat, d: nat)
    requires forall x :: x in s ==> home(x) != d
    ensures Pick(s, home, d) == []
    decreases |s|
  {
    if s != [] {
      PickNone(s[..|s| - 1], home, d);
    }
  }

  lemma {:induction false} NoMirrors(router: Router, dir: map<nat, Entity>, rels: seq<Relation>)
    requires MirrorLinks(router, dir, rels) == []
    ensures forall r :: r in rels ==> !StubAt(dir, r.from)
    decreases |rels|
  {
    if rels != [] {
      NoMirrors(router, dir, rels[..|rels| - 1]);
      assert forall r :: r in rels ==> r in rels[..|rels| - 1] || r == rels[|rels| - 1];
    }
  }

  lemma {:induction false} ObservationsOwned(router: Router, rows: Rows)
    requires Consistent(router, rows)
    ensures forall o :: o in rows.observations ==> ObservationHome(router, 1, Directory(rows.entities))(o) == 0
  {
    hide Directory;
    forall o | o in rows.observations ensures ObservationHome(router, 1, Directory(rows.entities))(o) == 0 {
      var i :| 0 <= i < |rows.observations| && rows.observations[i] == o;
      assert ObservationOk(Directory(rows.entities), rows.observations[i]);
    }
  }

  /** In a single domain there are no stubs and no mirrors: the plan holds the
      export's canonical edges and observations, all of them and in order. */
  lemma {:induction false} OneDomainIsWhole(router: Router, rows: Rows, plans: seq<Rows>)
    requires Consistent(router, rows) && Routed(router, rows, 1, plans)
    ensures forall e :: e in plans[0].entities ==> !IsStub(e)
    ensures forall r :: r in plans[0].relations ==>
      CanonicalAt(Directory(plans[0].entities), r.from) && CanonicalAt(Directory(plans[0].entities), r.to)
    ensures Graph(router, plans[0]) == Graph(router, rows)
    ensures plans[0].observations == rows.observations
  {
    hide Canonicals, Directory, Pick, HomeEdges, MirrorLinks, Consistent, Flatten, DistinctIds;
    var graph := Graph(router, rows);
    var dir := Directory(plans[0].entities);
    assert RowsPlaced(router, rows, 1, 0, plans[0]) && EdgesPlaced(router, graph, 1, 0, plans[0])
        && StubsPlaced(router, rows.entities, 1, 0, plans[0]);
    DirectoryRows(plans[0].entities);
    forall e | e in graph ensures EdgeHome(router, 1)(e) == 0 && MirrorHome(router, 1)(e) == 1 {
      GraphEnds(router, rows, e);
      NamedHome(router, 1, rows.entities, e.link.from);
      NamedHome(router, 1, rows.entities, e.link.to);
    }
    PickAll(graph, EdgeHome(router, 1), 0);
    PickNone(graph, MirrorHome(router, 1), 0);
    NoMirrors(router, dir, plans[0].relations);
    ObservationsOwned(router, rows);
    PickAll(rows.observations, ObservationHome(router, 1, Directory(rows.entities)), 0);
  }

  // ---------------------------------------------------------------------
  // Staging verification
  // ---------------------------------------------------------------------

  /** Raw row counts of one staged domain. */
  predicate SameCounts(staged: Rows, plan: Rows) {
    && |staged.entities| == |plan.entities| && |staged.observations| == |plan.observations|
    && |staged.relations| == |plan.relations|
    && |staged.vectors| == |plan.vectors| && |staged.fts| == |plan.fts|
  }

  predicate Resolvable(staged: Rows, e: Entity) {
    exists x :: x in staged.entities && x.name == e.name
  }

  const SAMPLE: nat := 32

  function Sample(plan: Rows): seq<Entity> {
    var canonicals := Canonicals(plan.entities);
    if |canonicals| <= SAMPLE then canonicals else canonicals[..SAMPLE]
  }

  /** A staged domain has as many rows of each kind as its plan, and knows the names of
      the first canonical rows of it. */
  ghost predicate StagedAlike(staged: Rows, plan: Rows) {
    && |staged.entities| == |plan.entities| && |staged.observations| == |plan.observations|
    && |staged.relations| == |plan.relations|
    && |staged.vectors| == |plan.vectors| && |staged.fts| == |plan.fts|
    && forall i :: 0 <= i < |Canonicals(plan.entities)| && i < 32 ==>
         exists x :: x in staged.entities && x.name == Canonicals(plan.entities)[i].name
  }

  lemma {:induction false} AlikeIff(staged: Rows, plan: Rows)
    ensures StagedAlike(staged, plan) <==>
      SameCounts(staged, plan) && forall e :: e in Sample(plan) ==> Resolvable(staged, e)
  {
    hide Canonicals;
    var all := Canonicals(plan.entities);
    if SameCounts(staged, plan) && forall e :: e in Sample(plan) ==> Resolvable(staged, e) {
      forall i | 0 <= i < |all| && i < 32 ensures exists x :: x in staged.entities && x.name == all[i].name {
        assert all[i] == Sample(plan)[i];
        assert Resolvable(staged, Sample(plan)[i]);
      }
    }
    if StagedAlike(staged, plan) {
      forall e | e in Sample(plan) ensures Resolvable(staged, e) {
        var i :| 0 <= i < |Sample(plan)| && Sample(plan)[i] == e;
        assert all[i] == e;
      }
    }
  }

  /** The check before the swap: counts per domain, a sample of names, and the
      number of canonical entities overall. */
  method VerifyStaging(staged: seq<Rows>, plans: seq<Rows>, exported: Rows) returns (ok: bool)
    requires |staged| == |plans|
    ensures ok <==>
      && (forall d :: 0 <= d < |plans| ==> StagedAlike(staged[d], plans[d]))
      && |Canonicals(Flatten(plans).entities)| == |Canonicals(exported.entities)|
  {
    hide SameCounts, Resolvable, Canonicals, Sample, Join, StagedAlike;
    forall d | 0 <= d < |plans| {
      AlikeIff(staged[d], plans[d]);
    }
    var routed := 0;
    var d := 0;
    assert plans[..0] == [];
    NoCanonicals();
    while d < |plans|
      invariant d <= |plans| && routed == |Canonicals(Flatten(plans[..d]).entities)|
      invariant forall c :: 0 <= c < d ==> SameCounts(staged[c], plans[c])
      invariant forall c :: 0 <= c < d ==> forall e :: e in Sample(plans[c]) ==> Resolvable(staged[c], e)
    {
      if !SameCounts(staged[d], plans[d]) {
        return false;
      }
      var found := AllResolvable(staged[d], Sample(plans[d]));
      if !found {
        return false;
      }
      RoutedStep(plans, d);
      routed := routed + |Canonicals(plans[d].entities)|;
      d := d + 1;
    }
    assert plans[..d] == plans;
    ok := routed == |Canonicals(exported.entities)|;
  }

  lemma {:induction false} RoutedStep(plans: seq<Rows>, d: nat)
    requires d < |plans|
    ensures |Canonicals(Flatten(plans[..d + 1]).entities)|
         == |Canonicals(Flatten(plans[..d]).entities)| + |Canonicals(plans[d].entities)|
  {
    hide Flatten;
    FlattenStep(plans, d);
    CanonicalsAppend(Flatten(plans[..d]).entities, plans[d].entities);
  }

  method AllResolvable(staged: Rows, sample: seq<Entity>) returns (ok: bool)
    ensures ok <==> forall e :: e in sample ==> Resolvable(staged, e)
  {
    var n := 0;
    while n < |sample|
      invariant n <= |sample| && forall e :: e in sample[..n] ==> Resolvable(staged, e)
    {
      if !Resolvable(staged, sample[n]) {
        return false;
      }
      n := n + 1;
    }
    ok := true;
  }

  /** Staging that stores the plans as they are passes the check, whatever the counts. */
  lemma {:induction false} FaithfulStagingPasses(router: Router, rows: Rows, count: nat, plans: seq<Rows>)
    requires count > 0 && Routed(router, rows, count, plans)
    ensures forall d :: 0 <= d < count ==> StagedAlike(plans[d], plans[d])
    ensures |Canonicals(Flatten(plans).entities)| == |Canonicals(rows.entities)|
  {
    hide Routed, Flatten, StagedAlike;
    SameCanonicals(router, rows, count, plans);
    assert |multiset(Canonicals(Flatten(plans).entities))| == |multiset(Canonicals(rows.entities))|;
    forall d | 0 <= d < |plans| ensures StagedAlike(plans[d], plans[d]) {
      CanonicalRows(plans[d].entities);
      AlikeIff(plans[d], plans[d]);
      forall e | e in Sample(plans[d]) ensures Resolvable(plans[d], e) {
        assert e in Canonicals(plans[d].entities);
      }
    }
    RoutedSize(router, rows, count, plans);
  }

  lemma {:induction false} RoutedSize(router: Router, rows: Rows, count: nat, plans: seq<Rows>)
    requires count > 0 && Routed(router, rows, count, plans)
    ensures |plans| == count
  {
  }
}
