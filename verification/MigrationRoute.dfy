/** What the domain-count migration reads, what it writes, and the graph both mean.

    An export and a per-domain plan hold the same kinds of rows, so the plans of
    one migration can be flattened into the export of the next. */
module MigrationRoute {
  import opened Prelude
  import opened Requests

  datatype Entity = Entity(
    id: nat, name: string, kind: nat, createdAt: nat, updatedAt: nat, confidence: real, source: string)

  datatype Observation = Observation(id: nat, entityId: nat, content: string, tombstoned: bool)

  datatype EdgeData = EdgeData(
    relation: string, weight: real, createdAt: nat, validFrom: nat, validUntil: nat, source: string)

  datatype Relation = Relation(id: nat, from: nat, to: nat, data: EdgeData)

  /** Index rows of observations are named after the observation; all others carry
      a name of their own. */
  datatype Uri = ObservationUri(observation: nat) | OtherUri(text: string)

  datatype IndexEntry = IndexEntry(uri: Uri, body: string)

  datatype SourceRecord = SourceRecord(uri: string, body: string)

  datatype Rows = Rows(
    entities: seq<Entity>,
    observations: seq<Observation>,
    relations: seq<Relation>,
    vectors: seq<IndexEntry>,
    fts: seq<IndexEntry>,
    sources: seq<SourceRecord>)

  const NO_ROWS := Rows([], [], [], [], [], [])

  // ---------------------------------------------------------------------
  // Entities by id and by name
  // ---------------------------------------------------------------------

  /** What an endpoint stands for: a folded name and a kind, with what the name hashes
      to, or nothing. */
  datatype End = Named(folded: Folded, spot: nat) | Dangling

  /** What the planner compares entities by. */
  datatype Folded = Folded(lower: string, kind: nat)

  predicate IsStub(e: Entity) { e.source == STUB_SOURCE }

  function Key(router: Router, e: Entity): End { Named(Fold(router, e), router.hash(e.name)) }

  function Fold(router: Router, e: Entity): Folded { Folded(router.lower(e.name), e.kind) }

  /** Rows that fold alike hash alike, so that a key is a folded name and a kind. */
  ghost predicate Coherent(router: Router, entities: seq<Entity>) {
    forall a, b :: a in entities && b in entities && Fold(router, a) == Fold(router, b) ==>
      Key(router, a) == Key(router, b)
  }

  function Directory(entities: seq<Entity>): map<nat, Entity> {
    if entities == [] then map[]
    else
      var last := entities[|entities| - 1];
      Directory(entities[..|entities| - 1])[last.id := last]
  }

  /** The rows that are not stubs. */
  function Canonicals(entities: seq<Entity>): seq<Entity> {
    if entities == [] then []
    else
      var last := entities[|entities| - 1];
      Canonicals(entities[..|entities| - 1]) + if IsStub(last) then [] else [last]
  }

  ghost predicate DistinctIds(entities: seq<Entity>) {
    forall i, j :: 0 <= i < j < |entities| ==> entities[i].id != entities[j].id
  }

  /** One canonical row for each folded name and kind. */
  ghost predicate UniqueKeys(router: Router, entities: seq<Entity>) {
    forall a, b :: a in entities && b in entities && !IsStub(a) && !IsStub(b) && Key(router, a) == Key(router, b) ==>
        a == b
  }

  predicate StubAt(dir: map<nat, Entity>, id: nat) { id in dir && IsStub(dir[id]) }

  predicate CanonicalAt(dir: map<nat, Entity>, id: nat) { id in dir && !IsStub(dir[id]) }

  function EndAt(router: Router, dir: map<nat, Entity>, id: nat): End {
    if id in dir then Key(router, dir[id]) else Dangling
  }

  ghost predicate HasCanonical(router: Router, entities: seq<Entity>, key: End) {
    exists e :: e in entities && !IsStub(e) && Key(router, e) == key
  }

  // ---------------------------------------------------------------------
  // Edges
  // ---------------------------------------------------------------------

  /** An edge with both ends resolved by folded name and kind. */
  datatype Link = Link(from: End, to: End, data: EdgeData)

  datatype Edge = Edge(id: nat, link: Link)

  function LinkOf(router: Router, dir: map<nat, Entity>, r: Relation): Link {
    Link(EndAt(router, dir, r.from), EndAt(router, dir, r.to), r.data)
  }

  /** The canonical edges: those that do not originate from a stub. */
  function HomeEdges(router: Router, dir: map<nat, Entity>, rels: seq<Relation>): seq<Edge> {
    if rels == [] then []
    else
      var last := rels[|rels| - 1];
      HomeEdges(router, dir, rels[..|rels| - 1])
      + if StubAt(dir, last.from) then [] else [Edge(last.id, LinkOf(router, dir, last))]
  }

  /** The mirrors: the edges that do originate from a stub. */
  function MirrorLinks(router: Router, dir: map<nat, Entity>, rels: seq<Relation>): seq<Link> {
    if rels == [] then []
    else
      var last := rels[|rels| - 1];
      MirrorLinks(router, dir, rels[..|rels| - 1])
      + if StubAt(dir, last.from) then [LinkOf(router, dir, last)] else []
  }

  function Links(edges: seq<Edge>): seq<Link> {
    if edges == [] then [] else Links(edges[..|edges| - 1]) + [edges[|edges| - 1].link]
  }

  /** The canonical edges of an export. */
  function Graph(router: Router, rows: Rows): seq<Edge> {
    HomeEdges(router, Directory(rows.entities), rows.relations)
  }

  // ---------------------------------------------------------------------
  // Which rows the edges join
  // ---------------------------------------------------------------------

  /** The canonical row a name resolves to: the last one read. */
  function LastByKey(router: Router, entities: seq<Entity>, key: End): Option<Entity> {
    if entities == [] then None
    else
      var last := entities[|entities| - 1];
      if !IsStub(last) && Key(router, last) == key then Some(last)
      else LastByKey(router, entities[..|entities| - 1], key)
  }

  function IdOfKey(router: Router, entities: seq<Entity>, key: End): Option<nat> {
    match LastByKey(router, entities, key)
    case Some(e) => Some(e.id)
    case None => None
  }

  /** The canonical row an id leads to: its own, or, through a stub, the one that the
      stub's name resolves to. */
  function ResolveId(router: Router, entities: seq<Entity>, id: nat): Option<nat> {
    var dir := Directory(entities);
    if CanonicalAt(dir, id) then Some(id)
    else if id in dir then IdOfKey(router, entities, Key(router, dir[id]))
    else None
  }

  /** An edge between rows. */
  datatype RowEdge = RowEdge(id: nat, from: Option<nat>, to: Option<nat>, data: EdgeData)

  function RowEdgesOf(router: Router, entities: seq<Entity>, rels: seq<Relation>): seq<RowEdge> {
    if rels == [] then []
    else
      var last := rels[|rels| - 1];
      RowEdgesOf(router, entities, rels[..|rels| - 1])
      + if StubAt(Directory(entities), last.from) then []
        else [RowEdge(last.id, ResolveId(router, entities, last.from), ResolveId(router, entities, last.to), last.data)]
  }

  /** The canonical edges of a layout, each with the rows it joins. */
  function RowEdges(router: Router, rows: Rows): seq<RowEdge> { RowEdgesOf(router, rows.entities, rows.relations) }

  /** The far end of an edge as a domain stores it: the row itself, or a stub that
      carries its name. */
  datatype Landing = Near(row: Option<nat>) | Far(key: End)

  /** An edge as the domain it starts in stores it. */
  datatype Landed = Landed(id: nat, from: Option<nat>, to: Landing, data: EdgeData)

  function LandedOf(router: Router, dir: map<nat, Entity>, r: Relation): Landed {
    Landed(r.id, Some(r.from), if StubAt(dir, r.to) then Far(Key(router, dir[r.to])) else Near(Some(r.to)), r.data)
  }

  function Landeds(router: Router, dir: map<nat, Entity>, rels: seq<Relation>): seq<Landed> {
    if rels == [] then []
    else
      var last := rels[|rels| - 1];
      Landeds(router, dir, rels[..|rels| - 1]) + if StubAt(dir, last.from) then [] else [LandedOf(router, dir, last)]
  }

  // ---------------------------------------------------------------------
  // Where everything goes
  // ---------------------------------------------------------------------

  /** The items of `s` whose home is `d`, in order. */
  function Pick<T>(s: seq<T>, home: T -> nat, d: nat): seq<T> {
    if s == [] then []
    else
      var last := s[|s| - 1];
      Pick(s[..|s| - 1], home, d) + if home(last) == d then [last] else []
  }

  function DomainOf(router: Router, count: nat, end: End): nat
    requires count > 0
  {
    match end
    case Named(_, spot) => spot % count
    case Dangling => count
  }

  function EntityHome(router: Router, count: nat): Entity -> nat
    requires count > 0
  {
    (e: Entity) => DomainOf(router, count, Key(router, e))
  }

  function ObservationHome(router: Router, count: nat, dir: map<nat, Entity>): Observation -> nat
    requires count > 0
  {
    (o: Observation) => DomainOf(router, count, EndAt(router, dir, o.entityId))
  }

  function EdgeHome(router: Router, count: nat): Edge -> nat
    requires count > 0
  {
    (e: Edge) => DomainOf(router, count, e.link.from)
  }

  /** Where the mirror of an edge goes; `count`, which is no domain, if it has none. */
  function MirrorHome(router: Router, count: nat): Edge -> nat
    requires count > 0
  {
    (e: Edge) =>
      if DomainOf(router, count, e.link.from) == DomainOf(router, count, e.link.to) then count
      else DomainOf(router, count, e.link.to)
  }

  function EndOf(router: Router, dir: map<nat, Entity>, row: Option<nat>): End {
    if row.Some? then EndAt(router, dir, row.value) else Dangling
  }

  /** Whether an edge between two rows leads from one domain into another. */
  predicate Crosses(router: Router, count: nat, dir: map<nat, Entity>, e: RowEdge)
    requires count > 0
  {
    DomainOf(router, count, EndOf(router, dir, e.from)) != DomainOf(router, count, EndOf(router, dir, e.to))
  }

  /** How an edge between two rows is to be stored: by row within a domain, by name
      across domains. */
  function Land(router: Router, count: nat, dir: map<nat, Entity>, e: RowEdge): Landed
    requires count > 0
  {
    Landed(e.id, e.from, if Crosses(router, count, dir, e) then Far(EndOf(router, dir, e.to)) else Near(e.to), e.data)
  }

  function LandAll(router: Router, count: nat, dir: map<nat, Entity>, edges: seq<RowEdge>): seq<Landed>
    requires count > 0
  {
    if edges == [] then []
    else
      LandAll(router, count, dir, edges[..|edges| - 1]) + [Land(router, count, dir, edges[|edges| - 1])]
  }

  function LandedHome(router: Router, count: nat, dir: map<nat, Entity>): Landed -> nat
    requires count > 0
  {
    (e: Landed) => DomainOf(router, count, EndOf(router, dir, e.from))
  }

  /** The observations an index row may belong to: the last row of each id. */
  function ObservationsById(observations: seq<Observation>): map<nat, Observation> {
    if observations == [] then map[]
    else
      var last := observations[|observations| - 1];
      ObservationsById(observations[..|observations| - 1])[last.id := last]
  }

  /** Where an index row goes; `count`, which is no domain, if it is orphaned. */
  function EntryDomain(router: Router, count: nat, dir: map<nat, Entity>, observed: map<nat, Observation>,
      uri: Uri): nat
    requires count > 0
  {
    match uri
    case ObservationUri(id) =>
      if id in observed && !observed[id].tombstoned
      then DomainOf(router, count, EndAt(router, dir, observed[id].entityId))
      else count
    case OtherUri(text) => router.DomainFor(text, count)
  }

  function EntryHome(router: Router, count: nat, dir: map<nat, Entity>,
                     observed: map<nat, Observation>): IndexEntry -> nat
    requires count > 0
  {
    (e: IndexEntry) => EntryDomain(router, count, dir, observed, e.uri)
  }

  function SourceHome(router: Router, count: nat): SourceRecord -> nat
    requires count > 0
  {
    (s: SourceRecord) => router.DomainFor(s.uri, count)
  }

  // ---------------------------------------------------------------------
  // What the router of rows refuses
  // ---------------------------------------------------------------------

  datatype Fault =
    | OrphanObservation(observation: nat)
    | MissingOrigin(relation: nat)
    | StubOnlyTarget(relation: nat)
    | MissingTarget(relation: nat)

  ghost predicate ObservationOk(dir: map<nat, Entity>, o: Observation) { CanonicalAt(dir, o.entityId) }

  ghost predicate OriginOk(dir: map<nat, Entity>, r: Relation) { r.from in dir }

  ghost predicate TargetOk(router: Router, rows: Rows, r: Relation) {
    var dir := Directory(rows.entities);
    || StubAt(dir, r.from)
    || (r.to in dir && HasCanonical(router, rows.entities, Key(router, dir[r.to])))
  }

  ghost predicate RelationOk(router: Router, rows: Rows, r: Relation) {
    OriginOk(Directory(rows.entities), r) && TargetOk(router, rows, r)
  }

  /** Every observation has a canonical owner; every edge starts at a known row
      and, unless it is a mirror, ends at an entity that has a canonical row. */
  ghost predicate Consistent(router: Router, rows: Rows) {
    && (forall i :: 0 <= i < |rows.observations| ==> ObservationOk(Directory(rows.entities), rows.observations[i]))
    && (forall i :: 0 <= i < |rows.relations| ==> RelationOk(router, rows, rows.relations[i]))
  }

  /** `fault` names the first row that is not consistent, and says why. */
  ghost predicate Blames(router: Router, rows: Rows, fault: Fault) {
    var dir := Directory(rows.entities);
    if fault.OrphanObservation? then
      exists i :: 0 <= i < |rows.observations| && rows.observations[i].id == fault.observation
        && !ObservationOk(dir, rows.observations[i])
        && forall j :: 0 <= j < i ==> ObservationOk(dir, rows.observations[j])
    else
      && (forall i :: 0 <= i < |rows.observations| ==> ObservationOk(dir, rows.observations[i]))
      && exists i :: 0 <= i < |rows.relations| && rows.relations[i].id == fault.relation
           && BlamesRelation(router, rows, rows.relations[i], fault)
           && forall j :: 0 <= j < i ==> RelationOk(router, rows, rows.relations[j])
  }

  ghost predicate BlamesRelation(router: Router, rows: Rows, r: Relation, fault: Fault) {
    var dir := Directory(rows.entities);
    match fault
    case OrphanObservation(_) => false
    case MissingOrigin(_) => !OriginOk(dir, r)
    case MissingTarget(_) => CanonicalAt(dir, r.from) && r.to !in dir
    case StubOnlyTarget(_) =>
      CanonicalAt(dir, r.from) && StubAt(dir, r.to) && !HasCanonical(router, rows.entities, Key(router, dir[r.to]))
  }

  // ---------------------------------------------------------------------
  // What a migration produces
  // ---------------------------------------------------------------------

  /** Both ends of every relation are rows of the same domain. */
  ghost predicate Local(plan: Rows) {
    forall r :: r in plan.relations ==> r.from in Directory(plan.entities) && r.to in Directory(plan.entities)
  }

  /** The relations of domain `d`: the canonical edges that start there, and one
      mirror for each edge that comes in from another domain. */
  ghost predicate EdgesPlaced(router: Router, graph: seq<Edge>, count: nat, d: nat, plan: Rows)
    requires count > 0
  {
    var dir := Directory(plan.entities);
    && Local(plan)
    && HomeEdges(router, dir, plan.relations) == Pick(graph, EdgeHome(router, count), d)
    && MirrorLinks(router, dir, plan.relations) == Links(Pick(graph, MirrorHome(router, count), d))
  }

  /** The canonical edges of domain `d` lead to the rows they led to before, or to
      stubs with the names of those. */
  ghost predicate EndsPlaced(router: Router, rows: Rows, count: nat, d: nat, plan: Rows)
    requires count > 0
  {
    var dir := Directory(rows.entities);
    Landeds(router, Directory(plan.entities), plan.relations)
      == Pick(LandAll(router, count, dir, RowEdges(router, rows)), LandedHome(router, count, dir), d)
  }

  /** A stub stands for a canonical entity of another domain, once. */
  ghost predicate StubsPlaced(router: Router, entities: seq<Entity>, count: nat, d: nat, plan: Rows)
    requires count > 0
  {
    && (forall s :: s in plan.entities && IsStub(s) ==>
          DomainOf(router, count, Key(router, s)) != d && HasCanonical(router, entities, Key(router, s)))
    && (forall s, t :: s in plan.entities && t in plan.entities ==>
          IsStub(s) && IsStub(t) && Key(router, s) == Key(router, t) ==> s == t)
  }

  ghost predicate RowsPlaced(router: Router, rows: Rows, count: nat, d: nat, plan: Rows)
    requires count > 0
  {
    var dir := Directory(rows.entities);
    var observed := ObservationsById(rows.observations);
    && multiset(Canonicals(plan.entities)) == multiset(Pick(Canonicals(rows.entities), EntityHome(router, count), d))
    && plan.observations == Pick(rows.observations, ObservationHome(router, count, dir), d)
    && plan.vectors == Pick(rows.vectors, EntryHome(router, count, dir, observed), d)
    && plan.fts == Pick(rows.fts, EntryHome(router, count, dir, observed), d)
    && plan.sources == Pick(rows.sources, SourceHome(router, count), d)
  }

  function Join(a: Rows, b: Rows): Rows {
    Rows(a.entities + b.entities, a.observations + b.observations, a.relations + b.relations,
         a.vectors + b.vectors, a.fts + b.fts, a.sources + b.sources)
  }

  /** Exporting the new layout: all domains, one after the other. */
  function Flatten(plans: seq<Rows>): Rows {
    if plans == [] then NO_ROWS else Join(Flatten(plans[..|plans| - 1]), plans[|plans| - 1])
  }

  /** `plans` is a migration of `rows` to `count` domains. */
  ghost predicate Routed(router: Router, rows: Rows, count: nat, plans: seq<Rows>)
    requires count > 0
  {
    && |plans| == count
    && DistinctIds(Flatten(plans).entities)
    && forall d :: 0 <= d < count ==>
         && RowsPlaced(router, rows, count, d, plans[d])
         && EdgesPlaced(router, Graph(router, rows), count, d, plans[d])
         && EndsPlaced(router, rows, count, d, plans[d])
         && StubsPlaced(router, rows.entities, count, d, plans[d])
  }

  // ---------------------------------------------------------------------
  // Small facts
  // ---------------------------------------------------------------------

  lemma {:induction false} DirectorySnoc(entities: seq<Entity>, e: Entity)
    ensures Directory(entities + [e]) == Directory(entities)[e.id := e]
    ensures Canonicals(entities + [e]) == Canonicals(entities) + if IsStub(e) then [] else [e]
  {
    assert (entities + [e])[..|entities|] == entities;
  }

  /** The directory lists the rows and nothing else. */
  lemma {:induction false} DirectoryRows(entities: seq<Entity>)
    ensures forall id :: id in Directory(entities) ==>
        Directory(entities)[id] in entities && Directory(entities)[id].id == id
    ensures forall e :: e in entities ==> e.id in Directory(entities)
    ensures DistinctIds(entities) ==> forall e :: e in entities ==> Directory(entities)[e.id] == e
    decreases |entities|
  {
    if entities != [] {
      var init := entities[..|entities| - 1];
      DirectoryRows(init);
      assert forall e :: e in entities ==> e in init || e == entities[|entities| - 1];
    }
  }

  lemma {:induction false} CanonicalRows(entities: seq<Entity>)
    ensures forall e :: e in Canonicals(entities) <==> e in entities && !IsStub(e)
    decreases |entities|
  {
    if entities != [] {
      CanonicalRows(entities[..|entities| - 1]);
      assert forall e :: e in entities <==> e in entities[..|entities| - 1] || e == entities[|entities| - 1];
    }
  }

  lemma {:induction false} EdgesSnoc(router: Router, dir: map<nat, Entity>, rels: seq<Relation>, r: Relation)
    ensures HomeEdges(router, dir, rels + [r])
         == HomeEdges(router, dir, rels) + if StubAt(dir, r.from) then [] else [Edge(r.id, LinkOf(router, dir, r))]
    ensures MirrorLinks(router, dir, rels + [r])
         == MirrorLinks(router, dir, rels) + if StubAt(dir, r.from) then [LinkOf(router, dir, r)] else []
    ensures Landeds(router, dir, rels + [r])
         == Landeds(router, dir, rels) + if StubAt(dir, r.from) then [] else [LandedOf(router, dir, r)]
  {
    assert (rels + [r])[..|rels|] == rels;
  }

  lemma {:induction false} PickSnoc<T>(s: seq<T>, x: T, home: T -> nat, d: nat)
    ensures Pick(s + [x], home, d) == Pick(s, home, d) + if home(x) == d then [x] else []
  {
    assert (s + [x])[..|s|] == s;
  }

  lemma {:induction false} LinksSnoc(edges: seq<Edge>, e: Edge)
    ensures Links(edges + [e]) == Links(edges) + [e.link]
  {
    assert (edges + [e])[..|edges|] == edges;
  }

  /** Edges mean the same in every directory that lists their ends alike. */
  lemma {:induction false} EdgesAgree(router: Router, dir: map<nat, Entity>, wider: map<nat, Entity>,
      rels: seq<Relation>)
    requires forall r :: r in rels ==> r.from in dir && r.to in dir
    requires forall id :: id in dir ==> id in wider && wider[id] == dir[id]
    ensures HomeEdges(router, wider, rels) == HomeEdges(router, dir, rels)
    ensures MirrorLinks(router, wider, rels) == MirrorLinks(router, dir, rels)
    ensures Landeds(router, wider, rels) == Landeds(router, dir, rels)
    decreases |rels|
  {
    if rels != [] {
      assert rels[|rels| - 1] in rels;
      EdgesAgree(router, dir, wider, rels[..|rels| - 1]);
    }
  }

  lemma {:induction false} RowEdgesSnoc(router: Router, entities: seq<Entity>, rels: seq<Relation>, r: Relation)
    ensures RowEdgesOf(router, entities, rels + [r])
         == RowEdgesOf(router, entities, rels)
          + if StubAt(Directory(entities), r.from) then []
            else [RowEdge(r.id, ResolveId(router, entities, r.from), ResolveId(router, entities, r.to), r.data)]
  {
    assert (rels + [r])[..|rels|] == rels;
  }

  lemma {:induction false} LandSnoc(router: Router, count: nat, dir: map<nat, Entity>, edges: seq<RowEdge>, e: RowEdge)
    requires count > 0
    ensures LandAll(router, count, dir, edges + [e])
         == LandAll(router, count, dir, edges) + [Land(router, count, dir, e)]
  {
    assert (edges + [e])[..|edges|] == edges;
  }

  lemma {:induction false} LastIsCanonical(router: Router, entities: seq<Entity>, key: End)
    ensures match LastByKey(router, entities, key)
            case Some(e) => e in entities && !IsStub(e) && Key(router, e) == key
            case None => !HasCanonical(router, entities, key)
    decreases |entities|
  {
    if entities != [] {
      var init := entities[..|entities| - 1];
      LastIsCanonical(router, init, key);
      assert forall e :: e in entities <==> e in init || e == entities[|entities| - 1];
    }
  }

  lemma {:induction false} Picked<T>(s: seq<T>, home: T -> nat, d: nat, x: T)
    ensures x in Pick(s, home, d) <==> x in s && home(x) == d
  {
    PickCount(s, home, d, x);
    assert x in multiset(Pick(s, home, d)) <==> x in Pick(s, home, d);
    assert x in multiset(s) <==> x in s;
  }

  /** No canonical row of the key is read after the one it resolves to. */
  lemma {:induction false} LastRead(router: Router, entities: seq<Entity>, key: End) returns (at: nat)
    requires HasCanonical(router, entities, key)
    ensures at < |entities| && LastByKey(router, entities, key) == Some(entities[at])
    ensures entities[at].source != "partition:stub" && Key(router, entities[at]) == key
    ensures forall i :: at < i < |entities| && entities[i].source != "partition:stub" ==>
      Key(router, entities[i]) != key
    decreases |entities|
  {
    hide Key;
    var n := |entities| - 1;
    if !IsStub(entities[n]) && Key(router, entities[n]) == key {
      at := n;
    } else {
      var e :| e in entities && !IsStub(e) && Key(router, e) == key;
      assert e in entities[..n];
      at := LastRead(router, entities[..n], key);
    }
  }

  /** How often an item is picked. */
  lemma {:induction false} PickCount<T>(s: seq<T>, home: T -> nat, d: nat, x: T)
    ensures multiset(Pick(s, home, d))[x] == if home(x) == d then multiset(s)[x] else 0
    decreases |s|
  {
    if s != [] {
      var init, last := s[..|s| - 1], s[|s| - 1];
      PickCount(init, home, d, x);
      assert s == init + [last];
    }
  }
}
