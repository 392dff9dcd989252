/** Where a migration puts each row, read off the rows themselves: by the hash of the
    name or text that decides it, without the planner's own notion of a home. */
module MigrationLayout {
  import opened Prelude
  import opened Requests
  import opened MigrationRoute
  import opened MigrationMeaning
  import opened MigrationRows

  /** A row that stands for the entity `e`: the same folded name and the same kind. */
  predicate StandsFor(router: Router, x: Entity, e: Entity) {
    router.lower(x.name) == router.lower(e.name) && x.kind == e.kind
  }

  /** Two stubs of one name. */
  predicate SameStub(router: Router, s: Entity, t: Entity) {
    && s.source == "partition:stub" && t.source == "partition:stub"
    && StandsFor(router, s, t) && router.hash(s.name) == router.hash(t.name)
  }

  /** Each canonical row is in the domain its own name hashes to, under its id, and
      there only; what else a domain holds are stubs of canonical rows of others, one
      for each folded name and kind. */
  lemma {:induction false} EntitiesAtHome(router: Router, rows: Rows, count: nat, plans: seq<Rows>, d: nat)
    requires count > 0 && d < count && Routed(router, rows, count, plans)
    ensures forall e: Entity :: e.source != "partition:stub" ==>
      (e in plans[d].entities <==> e in rows.entities && router.hash(e.name) % count == d)
    ensures forall s :: s in plans[d].entities && s.source == "partition:stub" ==>
      && router.hash(s.name) % count != d
      && exists e :: e in rows.entities && e.source != "partition:stub" && StandsFor(router, s, e)
    ensures forall s, t :: s in plans[d].entities && t in plans[d].entities && SameStub(router, s, t) ==> s == t
  {
    hide DistinctIds, EdgesPlaced, EndsPlaced, Canonicals, Pick, Flatten;
    assert RowsPlaced(router, rows, count, d, plans[d]) && StubsPlaced(router, rows.entities, count, d, plans[d]);
    CanonicalRows(plans[d].entities);
    CanonicalRows(rows.entities);
    SameMembers(Canonicals(plans[d].entities), Pick(Canonicals(rows.entities), EntityHome(router, count), d));
    forall e: Entity | e.source != "partition:stub"
      ensures e in plans[d].entities <==> e in rows.entities && router.hash(e.name) % count == d
    {
      Picked(Canonicals(rows.entities), EntityHome(router, count), d, e);
    }
    forall s | s in plans[d].entities && s.source == "partition:stub"
      ensures exists e :: e in rows.entities && e.source != "partition:stub" && StandsFor(router, s, e)
    {
      var c :| c in rows.entities && !IsStub(c) && Key(router, c) == Key(router, s);
      assert StandsFor(router, s, c);
    }
  }

  /** Each observation is in the domain that its owner's name hashes to, next to its
      owner's canonical row, as often as it was exported, and in no other. */
  lemma {:induction false} ObservationsAtHome(router: Router, rows: Rows, count: nat, plans: seq<Rows>, d: nat,
      o: Observation)
    requires count > 0 && d < count && Consistent(router, rows) && DistinctIds(rows.entities)
    requires Routed(router, rows, count, plans)
    ensures o in rows.observations ==> o.entityId in Directory(rows.entities)
    ensures multiset(plans[d].observations)[o]
         == if o in rows.observations && router.hash(Directory(rows.entities)[o.entityId].name) % count == d
            then multiset(rows.observations)[o] else 0
    ensures o in plans[d].observations ==>
      CanonicalAt(Directory(plans[d].entities), o.entityId)
        && Directory(plans[d].entities)[o.entityId] == Directory(rows.entities)[o.entityId]
  {
    hide DistinctIds, EdgesPlaced, EndsPlaced, StubsPlaced, Canonicals, Pick, Flatten, Directory;
    var dir := Directory(rows.entities);
    assert RowsPlaced(router, rows, count, d, plans[d]);
    PickCount(rows.observations, ObservationHome(router, count, dir), d, o);
    if o in rows.observations {
      var i :| 0 <= i < |rows.observations| && rows.observations[i] == o;
      assert ObservationOk(dir, rows.observations[i]);
    }
    if o in plans[d].observations {
      assert o in multiset(plans[d].observations);
      assert multiset(rows.observations)[o] > 0;
      DirectoryRows(rows.entities);
      EntitiesAtHome(router, rows, count, plans, d);
      RowsFound(plans, d);
      assert dir[o.entityId] in plans[d].entities;
    }
  }

  /** Rows of a plan are found under their ids. */
  lemma {:induction false} RowsFound(plans: seq<Rows>, d: nat)
    requires d < |plans| && DistinctIds(Flatten(plans).entities)
    ensures forall e :: e in plans[d].entities ==>
      e.id in Directory(plans[d].entities) && Directory(plans[d].entities)[e.id] == e
  {
    PlanInLayout(plans, d);
    DirectoryRows(plans[d].entities);
  }

  /** An index row that is named after an observation is in the domain that holds this
      observation, which is live; every other one is in the domain its own name hashes
      to. */
  lemma {:induction false} EntryAtHome(router: Router, rows: Rows, count: nat, plans: seq<Rows>, d: nat,
      before: seq<IndexEntry>, after: seq<IndexEntry>, x: IndexEntry)
    requires count > 0 && d < count && Consistent(router, rows) && DistinctIds(rows.entities)
    requires Routed(router, rows, count, plans)
    requires (before == rows.vectors && after == plans[d].vectors) || (before == rows.fts && after == plans[d].fts)
    requires x in after
    ensures x in before
    ensures match x.uri
      case ObservationUri(id) => exists o :: o in plans[d].observations && o.id == id && !o.tombstoned
      case OtherUri(text) => router.hash(text) % count == d
  {
    hide DistinctIds, EdgesPlaced, EndsPlaced, StubsPlaced, Canonicals, Pick, Flatten, Directory, ObservationsById;
    var dir, observed := Directory(rows.entities), ObservationsById(rows.observations);
    assert RowsPlaced(router, rows, count, d, plans[d]);
    Picked(before, EntryHome(router, count, dir, observed), d, x);
    ObservationRows(rows.observations);
    if x.uri.ObservationUri? {
      var o := observed[x.uri.observation];
      Picked(rows.observations, ObservationHome(router, count, dir), d, o);
      assert o in plans[d].observations;
    }
  }

  /** And none is missing: a row named after a live observation is where that is, every
      other one where its name hashes to, as often as it was exported. */
  lemma {:induction false} EntryKept(router: Router, rows: Rows, count: nat, plans: seq<Rows>, d: nat,
      before: seq<IndexEntry>, after: seq<IndexEntry>, x: IndexEntry)
    requires count > 0 && d < count && Consistent(router, rows) && DistinctIds(rows.entities)
    requires OneObservationPerId(rows.observations) && Routed(router, rows, count, plans)
    requires (before == rows.vectors && after == plans[d].vectors) || (before == rows.fts && after == plans[d].fts)
    requires match x.uri
      case ObservationUri(id) => exists o :: o in plans[d].observations && o.id == id && !o.tombstoned
      case OtherUri(text) => router.hash(text) % count == d
    ensures multiset(after)[x] == multiset(before)[x]
  {
    hide DistinctIds, EdgesPlaced, EndsPlaced, StubsPlaced, Canonicals, Pick, Flatten, Directory, ObservationsById;
    var dir, observed := Directory(rows.entities), ObservationsById(rows.observations);
    assert RowsPlaced(router, rows, count, d, plans[d]);
    PickCount(before, EntryHome(router, count, dir, observed), d, x);
    ObservationRows(rows.observations);
    if x.uri.ObservationUri? {
      var o :| o in plans[d].observations && o.id == x.uri.observation && !o.tombstoned;
      Picked(rows.observations, ObservationHome(router, count, dir), d, o);
      assert observed[o.id] == o;
    }
  }

  /** Source records are in the domain their URI hashes to, in the order of the export. */
  lemma {:induction false} SourcesAtHome(router: Router, rows: Rows, count: nat, plans: seq<Rows>, d: nat,
      s: SourceRecord)
    requires count > 0 && d < count && Routed(router, rows, count, plans)
    ensures multiset(plans[d].sources)[s]
         == if router.hash(s.uri) % count == d then multiset(rows.sources)[s] else 0
  {
    hide DistinctIds, EdgesPlaced, EndsPlaced, StubsPlaced, Canonicals, Pick, Flatten;
    assert RowsPlaced(router, rows, count, d, plans[d]);
    PickCount(rows.sources, SourceHome(router, count), d, s);
  }

  // ---------------------------------------------------------------------
  // Edges
  // ---------------------------------------------------------------------

  /** `e` is the edge `r` as its origin's domain stores it: from the same row, and to the
      target's own row if that is at home here, to a stub of it otherwise. */
  ghost predicate StoredAs(router: Router, dir: map<nat, Entity>, r: Relation, here: map<nat, Entity>, e: Relation,
                           near: bool)
    requires r.to in dir
  {
    && e.id == r.id && e.from == r.from && e.data == r.data
    && e.to in here && StandsFor(router, here[e.to], dir[r.to])
    && if near then here[e.to].source != "partition:stub" && (dir[r.to].source != "partition:stub" ==> e.to == r.to)
       else here[e.to].source == "partition:stub"
  }

  /** `m` is its mirror: from a stub of the origin to the target's own row. */
  ghost predicate MirroredAs(router: Router, dir: map<nat, Entity>, r: Relation, here: map<nat, Entity>, m: Relation)
    requires r.from in dir && r.to in dir
  {
    && m.from in here && here[m.from].source == "partition:stub" && StandsFor(router, here[m.from], dir[r.from])
    && m.to in here && here[m.to].source != "partition:stub" && StandsFor(router, here[m.to], dir[r.to])
    && m.data == r.data
  }

  lemma {:induction false} RowEdgeIn(router: Router, entities: seq<Entity>, rels: seq<Relation>, r: Relation)
    requires r in rels && !StubAt(Directory(entities), r.from)
    ensures RowEdge(r.id, ResolveId(router, entities, r.from), ResolveId(router, entities, r.to), r.data)
         in RowEdgesOf(router, entities, rels)
    decreases |rels|
  {
    hide Directory, ResolveId;
    var init, last := rels[..|rels| - 1], rels[|rels| - 1];
    if r in init {
      RowEdgeIn(router, entities, init, r);
    }
  }

  lemma {:induction false} LandIn(router: Router, count: nat, dir: map<nat, Entity>, edges: seq<RowEdge>, e: RowEdge)
    requires count > 0 && e in edges
    ensures Land(router, count, dir, e) in LandAll(router, count, dir, edges)
    decreases |edges|
  {
    hide Land;
    if e in edges[..|edges| - 1] {
      LandIn(router, count, dir, edges[..|edges| - 1], e);
    }
  }

  lemma {:induction false} LandedRow(router: Router, dir: map<nat, Entity>, rels: seq<Relation>, x: Landed)
    returns (r: Relation)
    requires x in Landeds(router, dir, rels)
    ensures r in rels && !StubAt(dir, r.from) && x == LandedOf(router, dir, r)
    decreases |rels|
  {
    hide LandedOf;
    var init, last := rels[..|rels| - 1], rels[|rels| - 1];
    if x in Landeds(router, dir, init) {
      r := LandedRow(router, dir, init, x);
    } else {
      r := last;
    }
  }

  /** The row that the far end of an edge resolves to carries the name of that end. */
  lemma {:induction false} ResolvedKey(router: Router, rows: Rows, r: Relation) returns (t: nat)
    requires Consistent(router, rows) && DistinctIds(rows.entities)
    requires r in rows.relations && CanonicalAt(Directory(rows.entities), r.from)
    ensures var dir := Directory(rows.entities);
      && r.to in dir && ResolveId(router, rows.entities, r.to) == Some(t)
      && CanonicalAt(dir, t) && Key(router, dir[t]) == Key(router, dir[r.to])
      && (dir[r.to].source != STUB_SOURCE ==> t == r.to)
  {
    hide Directory, LastByKey, Key, DistinctIds;
    var dir := Directory(rows.entities);
    var i :| 0 <= i < |rows.relations| && rows.relations[i] == r;
    assert RelationOk(router, rows, rows.relations[i]);
    DirectoryRows(rows.entities);
    LastIsCanonical(router, rows.entities, Key(router, dir[r.to]));
    t := ResolveId(router, rows.entities, r.to).value;
  }

  /** Every canonical edge is stored in the domain its origin's name hashes to. */
  lemma {:induction false} EdgeAtHome(router: Router, rows: Rows, count: nat, plans: seq<Rows>, r: Relation)
    returns (e: Relation)
    requires count > 0 && Consistent(router, rows) && DistinctIds(rows.entities) && Routed(router, rows, count, plans)
    requires r in rows.relations && CanonicalAt(Directory(rows.entities), r.from)
    ensures r.to in Directory(rows.entities)
    ensures
      var dir := Directory(rows.entities);
      var home, away := router.hash(dir[r.from].name) % count, router.hash(dir[r.to].name) % count;
      e in plans[home].relations && StoredAs(router, dir, r, Directory(plans[home].entities), e, home == away)
  {
    hide DistinctIds, RowsPlaced, StubsPlaced, Canonicals, Pick, Flatten, Directory, Landeds, LandAll, HomeEdges,
      MirrorLinks, RowEdgesOf, ResolveId, Consistent;
    var dir := Directory(rows.entities);
    var t := ResolvedKey(router, rows, r);
    var home := router.hash(dir[r.from].name) % count;
    var edge := RowEdge(r.id, Some(r.from), Some(t), r.data);
    assert ResolveId(router, rows.entities, r.from) == Some(r.from) by {
      OwnRow(router, rows.entities, r.from);
    }
    RowEdgeIn(router, rows.entities, rows.relations, r);
    LandIn(router, count, dir, RowEdges(router, rows), edge);
    var x := Land(router, count, dir, edge);
    var lands := LandAll(router, count, dir, RowEdges(router, rows));
    Picked(lands, LandedHome(router, count, dir), home, x);
    assert EndsPlaced(router, rows, count, home, plans[home]) && Local(plans[home]) by {
      assert EdgesPlaced(router, Graph(router, rows), count, home, plans[home]);
    }
    e := LandedRow(router, Directory(plans[home].entities), plans[home].relations, x);
    SameRow(router, rows, count, plans, home, e.to, t);
  }

  lemma {:induction false} OwnRow(router: Router, entities: seq<Entity>, id: nat)
    requires CanonicalAt(Directory(entities), id)
    ensures ResolveId(router, entities, id) == Some(id)
  {
  }

  /** A canonical row of a plan is the row of the export with its id. */
  lemma {:induction false} SameRow(router: Router, rows: Rows, count: nat, plans: seq<Rows>, d: nat, id: nat, t: nat)
    requires count > 0 && d < count && DistinctIds(rows.entities) && Routed(router, rows, count, plans)
    requires id in Directory(plans[d].entities)
    ensures !IsStub(Directory(plans[d].entities)[id]) ==>
      CanonicalAt(Directory(rows.entities), id) && Directory(rows.entities)[id] == Directory(plans[d].entities)[id]
  {
    hide Flatten, Canonicals, EdgesPlaced, EndsPlaced, StubsPlaced, RowsPlaced, Directory;
    DirectoryRows(plans[d].entities);
    DirectoryRows(rows.entities);
    EntitiesAtHome(router, rows, count, plans, d);
  }

  lemma {:induction false} LinkIn(edges: seq<Edge>, e: Edge)
    requires e in edges
    ensures e.link in Links(edges)
    decreases |edges|
  {
    if e in edges[..|edges| - 1] {
      LinkIn(edges[..|edges| - 1], e);
    }
  }

  lemma {:induction false} LinkFrom(edges: seq<Edge>, l: Link) returns (e: Edge)
    requires l in Links(edges)
    ensures e in edges && e.link == l
    decreases |edges|
  {
    if l in Links(edges[..|edges| - 1]) {
      e := LinkFrom(edges[..|edges| - 1], l);
    } else {
      e := edges[|edges| - 1];
    }
  }

  lemma {:induction false} EdgeIn(router: Router, dir: map<nat, Entity>, rels: seq<Relation>, r: Relation)
    requires r in rels && !StubAt(dir, r.from)
    ensures Edge(r.id, LinkOf(router, dir, r)) in HomeEdges(router, dir, rels)
    decreases |rels|
  {
    hide LinkOf;
    if r in rels[..|rels| - 1] {
      EdgeIn(router, dir, rels[..|rels| - 1], r);
    }
  }

  lemma {:induction false} MirrorRow(router: Router, dir: map<nat, Entity>, rels: seq<Relation>, l: Link)
    returns (m: Relation)
    requires l in MirrorLinks(router, dir, rels)
    ensures m in rels && StubAt(dir, m.from) && l == LinkOf(router, dir, m)
    decreases |rels|
  {
    hide LinkOf;
    var init, last := rels[..|rels| - 1], rels[|rels| - 1];
    if l in MirrorLinks(router, dir, init) {
      m := MirrorRow(router, dir, init, l);
    } else {
      m := last;
    }
  }

  /** If it crosses, the target's domain has its mirror. */
  lemma {:induction false} MirrorAtTarget(router: Router, rows: Rows, count: nat, plans: seq<Rows>, r: Relation)
    returns (m: Relation)
    requires count > 0 && Consistent(router, rows) && DistinctIds(rows.entities) && Routed(router, rows, count, plans)
    requires r in rows.relations && CanonicalAt(Directory(rows.entities), r.from)
    requires r.to in Directory(rows.entities)
    requires router.hash(Directory(rows.entities)[r.from].name) % count
          != router.hash(Directory(rows.entities)[r.to].name) % count
    ensures
      var dir := Directory(rows.entities);
      var away := router.hash(dir[r.to].name) % count;
      m in plans[away].relations && MirroredAs(router, dir, r, Directory(plans[away].entities), m)
  {
    hide DistinctIds, RowsPlaced, EndsPlaced, Canonicals, Pick, Flatten, Directory, HomeEdges, MirrorLinks, Links,
      Consistent, HasCanonical;
    var dir := Directory(rows.entities);
    var away := router.hash(dir[r.to].name) % count;
    var e := Edge(r.id, LinkOf(router, dir, r));
    EdgeIn(router, dir, rows.relations, r);
    Picked(Graph(router, rows), MirrorHome(router, count), away, e);
    LinkIn(Pick(Graph(router, rows), MirrorHome(router, count), away), e);
    assert EdgesPlaced(router, Graph(router, rows), count, away, plans[away]);
    assert StubsPlaced(router, rows.entities, count, away, plans[away]);
    var here := Directory(plans[away].entities);
    m := MirrorRow(router, here, plans[away].relations, e.link);
    DirectoryRows(plans[away].entities);
    assert Key(router, here[m.to]) == Key(router, dir[r.to]) && Key(router, here[m.from]) == Key(router, dir[r.from]);
  }

  /** Nothing else is stored: every edge of a domain that starts at a canonical row is an
      exported one, and every other is the mirror of one that crosses into the domain. */
  lemma {:induction false} StoredFrom(router: Router, rows: Rows, count: nat, plans: seq<Rows>, d: nat, e: Relation)
    returns (r: Relation)
    requires count > 0 && d < count && Consistent(router, rows) && DistinctIds(rows.entities)
    requires Routed(router, rows, count, plans) && e in plans[d].relations
    ensures r in rows.relations && r.data == e.data && CanonicalAt(Directory(rows.entities), r.from)
    ensures r.to in Directory(rows.entities) && e.from in Directory(plans[d].entities)
    ensures
      var dir, here := Directory(rows.entities), Directory(plans[d].entities);
      if here[e.from].source != "partition:stub" then
        r.id == e.id && StandsFor(router, here[e.from], dir[r.from]) && router.hash(dir[r.from].name) % count == d
      else
        StandsFor(router, here[e.from], dir[r.from]) && router.hash(dir[r.to].name) % count == d
          && router.hash(dir[r.from].name) % count != d
  {
    hide DistinctIds, RowsPlaced, EndsPlaced, StubsPlaced, Canonicals, Pick, Flatten, Directory, HomeEdges,
      MirrorLinks, Links, Consistent, HasCanonical;
    var dir, here := Directory(rows.entities), Directory(plans[d].entities);
    assert EdgesPlaced(router, Graph(router, rows), count, d, plans[d]) && Local(plans[d]);
    var edge: Edge;
    if StubAt(here, e.from) {
      MirrorIn(router, here, plans[d].relations, e);
      edge := LinkFrom(Pick(Graph(router, rows), MirrorHome(router, count), d), LinkOf(router, here, e));
      Picked(Graph(router, rows), MirrorHome(router, count), d, edge);
    } else {
      EdgeIn(router, here, plans[d].relations, e);
      edge := Edge(e.id, LinkOf(router, here, e));
      Picked(Graph(router, rows), EdgeHome(router, count), d, edge);
    }
    r := EdgeRows(router, dir, rows.relations, edge);
    var t := EndsResolved(router, rows, r);
    assert Key(router, here[e.from]) == Key(router, dir[r.from]);
  }

  lemma {:induction false} EndsResolved(router: Router, rows: Rows, r: Relation) returns (t: nat)
    requires Consistent(router, rows) && DistinctIds(rows.entities)
    requires r in rows.relations && !StubAt(Directory(rows.entities), r.from)
    ensures CanonicalAt(Directory(rows.entities), r.from) && r.to in Directory(rows.entities)
  {
    hide Directory, DistinctIds;
    var i :| 0 <= i < |rows.relations| && rows.relations[i] == r;
    assert RelationOk(router, rows, rows.relations[i]);
    t := ResolvedKey(router, rows, r);
  }

  lemma {:induction false} MirrorIn(router: Router, dir: map<nat, Entity>, rels: seq<Relation>, m: Relation)
    requires m in rels && StubAt(dir, m.from)
    ensures LinkOf(router, dir, m) in MirrorLinks(router, dir, rels)
    decreases |rels|
  {
    hide LinkOf;
    if m in rels[..|rels| - 1] {
      MirrorIn(router, dir, rels[..|rels| - 1], m);
    }
  }
}
