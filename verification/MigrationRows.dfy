/** Which rows the edges join.  An edge that crosses domains leads to a stub, and a stub
    leads to whatever row its name resolves to.  Here is what a migration makes of each
    edge, and exactly when every edge still joins the rows it joined before. */
module MigrationRows {
  import opened Prelude
  import opened Requests
  import opened MigrationRoute
  import opened MigrationMeaning

  // ---------------------------------------------------------------------
  // What a name resolves to
  // ---------------------------------------------------------------------

  lemma {:induction false} EndsKnown(router: Router, rows: Rows)
    requires Consistent(router, rows)
    ensures forall r :: r in rows.relations && !StubAt(Directory(rows.entities), r.from) ==>
      r.from in Directory(rows.entities) && r.to in Directory(rows.entities)
  {
    hide Directory, HasCanonical;
    forall r | r in rows.relations && !StubAt(Directory(rows.entities), r.from)
      ensures r.from in Directory(rows.entities) && r.to in Directory(rows.entities)
    {
      var i :| 0 <= i < |rows.relations| && rows.relations[i] == r;
      assert RelationOk(router, rows, rows.relations[i]);
    }
  }

  /** `e` has the greatest id of the canonical rows under its folded name and kind. */
  ghost predicate Greatest(router: Router, entities: seq<Entity>, key: End, e: Entity) {
    && e in entities && !IsStub(e) && Key(router, e) == key
    && forall x :: x in entities && !IsStub(x) && Key(router, x) == key ==> x.id <= e.id
  }

  lemma {:induction false} LastOfSorted(router: Router, entities: seq<Entity>, key: End)
    requires ById(entities)
    ensures match LastByKey(router, entities, key)
            case Some(e) => Greatest(router, entities, key, e)
            case None => !HasCanonical(router, entities, key)
    decreases |entities|
  {
    hide Key;
    if entities != [] {
      var init := entities[..|entities| - 1];
      LastOfSorted(router, init, key);
      assert forall e :: e in entities <==> e in init || e == entities[|entities| - 1];
      assert forall e :: e in init ==> e.id <= entities[|entities| - 1].id;
    }
  }

  lemma {:induction false} LastAppend(router: Router, a: seq<Entity>, b: seq<Entity>, key: End)
    ensures LastByKey(router, a + b, key)
         == if LastByKey(router, b, key).Some? then LastByKey(router, b, key) else LastByKey(router, a, key)
    decreases |b|
  {
    hide Key, IsStub;
    if b == [] {
      assert a + b == a;
    } else {
      var init := b[..|b| - 1];
      assert (a + b)[..|a + b| - 1] == a + init;
      LastAppend(router, a, init, key);
    }
  }

  /** A domain holds the canonical rows that are at home in it, and no others. */
  lemma {:induction false} HomeRows(router: Router, rows: Rows, count: nat, plans: seq<Rows>, exports: seq<Rows>,
      d: nat, e: Entity)
    requires count > 0 && d < count && Routed(router, rows, count, plans) && Exported(plans, exports)
    ensures e in exports[d].entities && !IsStub(e)
       <==> (e in rows.entities && !IsStub(e) && DomainOf(router, count, Key(router, e)) == d)
  {
    hide DistinctIds, EdgesPlaced, EndsPlaced, StubsPlaced, Canonicals, Pick, Flatten, IsStub, Key, DomainOf, ById;
    assert RowsPlaced(router, rows, count, d, plans[d]);
    PickCount(Canonicals(rows.entities), EntityHome(router, count), d, e);
    CanonicalRows(plans[d].entities);
    CanonicalRows(rows.entities);
    SameMembers(plans[d].entities, exports[d].entities);
    SameMembers(Canonicals(plans[d].entities), Pick(Canonicals(rows.entities), EntityHome(router, count), d));
    assert e in Canonicals(rows.entities) <==> multiset(Canonicals(rows.entities))[e] > 0;
    assert e in Pick(Canonicals(rows.entities), EntityHome(router, count), d)
      <==> multiset(Pick(Canonicals(rows.entities), EntityHome(router, count), d))[e] > 0;
  }

  lemma {:induction false} LastInPrefix(router: Router, rows: Rows, count: nat, plans: seq<Rows>, exports: seq<Rows>,
      n: nat, key: End)
    requires count > 0 && n <= count && Routed(router, rows, count, plans) && Exported(plans, exports)
    ensures |exports| == count
    ensures var d := DomainOf(router, count, key);
      LastByKey(router, Flatten(exports[..n]).entities, key)
        == if d < n then LastByKey(router, exports[d].entities, key) else None
    decreases n
  {
    hide LastByKey, Routed, Flatten, DomainOf, Permuted, ById;
    RoutedSize(router, rows, count, plans);
    if n == 0 {
      NothingByName(router, exports, key);
    } else {
      var m := n - 1;
      LastInPrefix(router, rows, count, plans, exports, m, key);
      FlattenStep(exports, m);
      LastAppend(router, Flatten(exports[..m]).entities, exports[m].entities, key);
      LastIsCanonical(router, exports[m].entities, key);
      if LastByKey(router, exports[m].entities, key).Some? {
        HomeRows(router, rows, count, plans, exports, m, LastByKey(router, exports[m].entities, key).value);
      }
    }
  }

  lemma {:induction false} NothingByName(router: Router, plans: seq<Rows>, key: End)
    ensures LastByKey(router, Flatten(plans[..0]).entities, key) == None
  {
    assert plans[..0] == [];
  }

  /** In the layout that a migration leaves, a name resolves to the canonical row with
      the greatest id of those under it, whatever order the planner wrote them in. */
  lemma {:induction false} NameFindsGreatest(router: Router, rows: Rows, count: nat, plans: seq<Rows>,
      exports: seq<Rows>, key: End)
    requires count > 0 && Routed(router, rows, count, plans) && Exported(plans, exports)
    requires HasCanonical(router, rows.entities, key)
    ensures var found := LastByKey(router, Flatten(exports).entities, key);
      found.Some? && Greatest(router, rows.entities, key, found.value)
  {
    hide LastByKey, Routed, Flatten, DomainOf, Permuted, ById, Key;
    LastInPrefix(router, rows, count, plans, exports, count, key);
    assert exports[..count] == exports;
    NamedHome(router, count, rows.entities, key);
    var d := DomainOf(router, count, key);
    assert ById(exports[d].entities);
    LastOfSorted(router, exports[d].entities, key);
    forall x | x in rows.entities && !IsStub(x) && Key(router, x) == key
      ensures x in exports[d].entities
    {
      HomeRows(router, rows, count, plans, exports, d, x);
    }
    var c :| c in rows.entities && !IsStub(c) && Key(router, c) == key;
    assert c in exports[d].entities && HasCanonical(router, exports[d].entities, key);
    HomeRows(router, rows, count, plans, exports, d, LastByKey(router, exports[d].entities, key).value);
  }

  lemma {:induction false} GatherLands(router: Router, rows: Rows, count: nat, plans: seq<Rows>, n: nat)
    requires count > 0 && n <= count && Routed(router, rows, count, plans)
    ensures Gathered(LandAll(router, count, Directory(rows.entities), RowEdges(router, rows)),
                     LandedHome(router, count, Directory(rows.entities)), n,
                     Landeds(router, Directory(Flatten(plans).entities), Flatten(plans[..n]).relations))
    decreases n
  {
    hide Gathered, Pick, LandedHome, RowsPlaced, StubsPlaced, Directory, HomeEdges, MirrorLinks, LandAll, RowEdgesOf;
    var lands, home := LandAll(router, count, Directory(rows.entities), RowEdges(router, rows)),
                       LandedHome(router, count, Directory(rows.entities));
    if n == 0 {
      GatherNothing(lands, home);
    } else {
      var m := n - 1;
      var dir := Directory(Flatten(plans).entities);
      GatherLands(router, rows, count, plans, m);
      FlattenStep(plans, m);
      assert EdgesPlaced(router, Graph(router, rows), count, m, plans[m]);
      assert EndsPlaced(router, rows, count, m, plans[m]);
      PlanInLayout(plans, m);
      EdgesAgree(router, Directory(plans[m].entities), dir, plans[m].relations);
      LandedsAppend(router, dir, Flatten(plans[..m]).relations, plans[m].relations);
      GatherOne(lands, home, m, Landeds(router, dir, Flatten(plans[..m]).relations),
                Landeds(router, dir, plans[m].relations));
    }
  }

  lemma {:induction false} LandedsAppend(router: Router, dir: map<nat, Entity>, a: seq<Relation>, b: seq<Relation>)
    ensures Landeds(router, dir, a + b) == Landeds(router, dir, a) + Landeds(router, dir, b)
    decreases |b|
  {
    hide LandedOf;
    if b == [] {
      assert a + b == a;
    } else {
      var init := b[..|b| - 1];
      assert (a + b)[..|a + b| - 1] == a + init;
      LandedsAppend(router, dir, a, init);
    }
  }

  /** The canonical edges of a consistent export join canonical rows. */
  lemma {:induction false} JoinedRows(router: Router, rows: Rows, e: RowEdge)
    requires Consistent(router, rows) && DistinctIds(rows.entities) && e in RowEdges(router, rows)
    ensures e.from.Some? && CanonicalAt(Directory(rows.entities), e.from.value)
    ensures e.to.Some? && CanonicalAt(Directory(rows.entities), e.to.value)
  {
    hide Directory, LastByKey, Key;
    var r := RowEdgeFrom(router, rows.entities, rows.relations, e);
    var i :| 0 <= i < |rows.relations| && rows.relations[i] == r;
    assert RelationOk(router, rows, rows.relations[i]);
    DirectoryRows(rows.entities);
    var key := EndAt(router, Directory(rows.entities), r.to);
    LastIsCanonical(router, rows.entities, key);
  }

  lemma {:induction false} RowEdgeFrom(router: Router, entities: seq<Entity>, rels: seq<Relation>, e: RowEdge)
    returns (r: Relation)
    requires e in RowEdgesOf(router, entities, rels)
    ensures r in rels && !StubAt(Directory(entities), r.from)
    ensures e == RowEdge(r.id, ResolveId(router, entities, r.from), ResolveId(router, entities, r.to), r.data)
    decreases |rels|
  {
    hide Directory, ResolveId;
    var init, last := rels[..|rels| - 1], rels[|rels| - 1];
    if e in RowEdgesOf(router, entities, init) {
      r := RowEdgeFrom(router, entities, init, e);
    } else {
      r := last;
    }
  }

  // ---------------------------------------------------------------------
  // What a migration makes of each edge
  // ---------------------------------------------------------------------

  /** The edge that a stored one is read as. */
  function Read(router: Router, entities: seq<Entity>, x: Landed): RowEdge {
    RowEdge(x.id, x.from, if x.to.Near? then x.to.row else IdOfKey(router, entities, x.to.key), x.data)
  }

  function ReadRule(router: Router, entities: seq<Entity>): Landed -> seq<RowEdge> {
    (x: Landed) => [Read(router, entities, x)]
  }

  /** What becomes of an edge: within a domain it stays, across domains its end is
      looked up by name. */
  function MovedRule(router: Router, count: nat, dir: map<nat, Entity>, entities: seq<Entity>): RowEdge -> seq<RowEdge>
    requires count > 0
  {
    (e: RowEdge) => [Read(router, entities, Land(router, count, dir, e))]
  }

  lemma {:induction false} ReadOne(router: Router, entities: seq<Entity>, r: Relation)
    requires !StubAt(Directory(entities), r.from) && r.from in Directory(entities) && r.to in Directory(entities)
    ensures Read(router, entities, LandedOf(router, Directory(entities), r))
         == RowEdge(r.id, ResolveId(router, entities, r.from), ResolveId(router, entities, r.to), r.data)
  {
    hide Directory, IdOfKey;
  }

  lemma {:induction false} CollectOne<T, U>(s: seq<T>, x: T, rule: T -> seq<U>)
    ensures Collect(s + [x], rule) == Collect(s, rule) + rule(x)
  {
    assert (s + [x])[..|s|] == s;
  }

  lemma {:induction false} ReadBack(router: Router, entities: seq<Entity>, rels: seq<Relation>)
    requires forall r :: r in rels && !StubAt(Directory(entities), r.from) ==>
      r.from in Directory(entities) && r.to in Directory(entities)
    ensures RowEdgesOf(router, entities, rels)
         == Collect(Landeds(router, Directory(entities), rels), ReadRule(router, entities))
    decreases |rels|
  {
    if rels != [] {
      hide Directory, ResolveId, Landeds, RowEdgesOf, Collect, Read;
      var init, last := rels[..|rels| - 1], rels[|rels| - 1];
      var dir := Directory(entities);
      assert last in rels && forall r :: r in init ==> r in rels;
      ReadBack(router, entities, init);
      assert rels == init + [last];
      EdgesSnoc(router, dir, init, last);
      RowEdgesSnoc(router, entities, init, last);
      if StubAt(dir, last.from) {
        assert Landeds(router, dir, init) + [] == Landeds(router, dir, init);
        assert RowEdgesOf(router, entities, init) + [] == RowEdgesOf(router, entities, init);
      } else {
        ReadOne(router, entities, last);
        CollectOne(Landeds(router, dir, init), LandedOf(router, dir, last), ReadRule(router, entities));
      }
    }
  }

  lemma {:induction false} LandAndRead(router: Router, count: nat, dir: map<nat, Entity>, entities: seq<Entity>,
      edges: seq<RowEdge>)
    requires count > 0
    ensures Collect(LandAll(router, count, dir, edges), ReadRule(router, entities))
         == Collect(edges, MovedRule(router, count, dir, entities))
    decreases |edges|
  {
    hide Read, Land;
    if edges != [] {
      var init, last := edges[..|edges| - 1], edges[|edges| - 1];
      LandAndRead(router, count, dir, entities, init);
      var lands, x := LandAll(router, count, dir, init), Land(router, count, dir, last);
      assert LandAll(router, count, dir, edges) == lands + [x];
      assert (lands + [x])[..|lands|] == lands;
    }
  }

  /** The edges of the layout that a migration leaves, one for one. */
  lemma {:induction false} EdgesMove(router: Router, rows: Rows, count: nat, plans: seq<Rows>, exports: seq<Rows>)
    requires count > 0 && Consistent(router, rows) && DistinctIds(rows.entities)
    requires Routed(router, rows, count, plans) && Exported(plans, exports)
    ensures multiset(RowEdges(router, Flatten(exports)))
         == multiset(Collect(RowEdges(router, rows),
                             MovedRule(router, count, Directory(rows.entities), Flatten(exports).entities)))
  {
    hide Routed, Flatten, Directory, Landeds, LandAll, RowEdgesOf, Collect, Consistent, DistinctIds, ById,
      LandedHome, Gathered;
    var flat, dir := Flatten(exports), Directory(rows.entities);
    var lands := LandAll(router, count, dir, RowEdges(router, rows));
    LayoutAlike(router, rows, count, plans, exports);
    EndsKnown(router, flat);
    ReadBack(router, flat.entities, flat.relations);
    AllLanded(router, rows, count, plans);
    LandedsCollected(router, Directory(flat.entities), flat.relations);
    LandedsCollected(router, Directory(flat.entities), Flatten(plans).relations);
    CollectPermutes(Flatten(plans).relations, flat.relations, LandRule(router, Directory(flat.entities)));
    CollectPermutes(lands, Landeds(router, Directory(flat.entities), flat.relations), ReadRule(router, flat.entities));
    LandAndRead(router, count, dir, flat.entities, RowEdges(router, rows));
  }

  lemma {:induction false} LayoutAlike(router: Router, rows: Rows, count: nat, plans: seq<Rows>, exports: seq<Rows>)
    requires count > 0 && Consistent(router, rows) && Routed(router, rows, count, plans) && Exported(plans, exports)
    ensures Permuted(Flatten(plans), Flatten(exports)) && Consistent(router, Flatten(exports))
    ensures Directory(Flatten(plans).entities) == Directory(Flatten(exports).entities)
  {
    hide Flatten, Directory, Consistent, DistinctIds, Exported, RowsPlaced, EdgesPlaced, EndsPlaced, StubsPlaced;
    ExportPermutes(plans, exports);
    MigratedConsistent(router, rows, count, plans);
    DistinctAlike(Flatten(plans).entities, Flatten(exports).entities);
    OrderKeepsConsistent(router, Flatten(plans), Flatten(exports));
  }

  function LandRule(router: Router, dir: map<nat, Entity>): Relation -> seq<Landed> {
    (r: Relation) => if StubAt(dir, r.from) then [] else [LandedOf(router, dir, r)]
  }

  lemma {:induction false} LandedsCollected(router: Router, dir: map<nat, Entity>, rels: seq<Relation>)
    ensures Landeds(router, dir, rels) == Collect(rels, LandRule(router, dir))
    decreases |rels|
  {
    hide LandedOf;
    if rels != [] {
      LandedsCollected(router, dir, rels[..|rels| - 1]);
    }
  }

  /** Every canonical edge is stored in some domain, as it should be. */
  lemma {:induction false} AllLanded(router: Router, rows: Rows, count: nat, plans: seq<Rows>)
    requires count > 0 && Consistent(router, rows) && DistinctIds(rows.entities) && Routed(router, rows, count, plans)
    ensures multiset(Landeds(router, Directory(Flatten(plans).entities), Flatten(plans).relations))
         == multiset(LandAll(router, count, Directory(rows.entities), RowEdges(router, rows)))
  {
    hide Routed, Flatten, Directory, Landeds, LandAll, RowEdgesOf, Consistent, Gathered, LandedHome;
    var dir := Directory(rows.entities);
    var lands, home := LandAll(router, count, dir, RowEdges(router, rows)), LandedHome(router, count, dir);
    RoutedSize(router, rows, count, plans);
    assert plans[..count] == plans;
    GatherLands(router, rows, count, plans, count);
    forall x | x in lands ensures home(x) < count {
      var e := LandedFrom(router, count, dir, RowEdges(router, rows), x);
      JoinedRows(router, rows, e);
      LandedInRange(router, count, dir, x);
    }
    GatheredAll(lands, home, count, Landeds(router, Directory(Flatten(plans).entities), Flatten(plans).relations));
  }

  lemma {:induction false} LandedInRange(router: Router, count: nat, dir: map<nat, Entity>, x: Landed)
    requires count > 0 && x.from.Some? && x.from.value in dir
    ensures LandedHome(router, count, dir)(x) < count
  {
  }

  lemma {:induction false} LandedFrom(router: Router, count: nat, dir: map<nat, Entity>, edges: seq<RowEdge>,
      x: Landed) returns (e: RowEdge)
    requires count > 0 && x in LandAll(router, count, dir, edges)
    ensures e in edges && x == Land(router, count, dir, e)
    decreases |edges|
  {
    hide Land;
    var init, last := edges[..|edges| - 1], edges[|edges| - 1];
    if x in LandAll(router, count, dir, init) {
      e := LandedFrom(router, count, dir, init, x);
    } else {
      e := last;
    }
  }

  // ---------------------------------------------------------------------
  // Exactly when the edges keep their rows
  // ---------------------------------------------------------------------

  /** The edge ends at the row with the greatest id of those that share its folded
      name and kind. */
  ghost predicate AtGreatest(router: Router, rows: Rows, e: RowEdge) {
    var key := EndOf(router, Directory(rows.entities), e.to);
    forall x :: x in rows.entities && !IsStub(x) && Key(router, x) == key && e.to.Some? ==> x.id <= e.to.value
  }

  /** Every edge that crosses domains at this count does. */
  ghost predicate EndsAtGreatest(router: Router, rows: Rows, count: nat)
    requires count > 0
  {
    forall e :: e in RowEdges(router, rows) && Crosses(router, count, Directory(rows.entities), e) ==>
      AtGreatest(router, rows, e)
  }

  function Weight(e: RowEdge): nat { if e.to.Some? then e.to.value else 0 }

  function WeightOf(edges: seq<RowEdge>): nat {
    if edges == [] then 0 else WeightOf(edges[..|edges| - 1]) + Weight(edges[|edges| - 1])
  }

  lemma {:induction false} WeightWithout(edges: seq<RowEdge>, k: nat)
    requires k < |edges|
    ensures WeightOf(edges) == WeightOf(edges[..k] + edges[k + 1..]) + Weight(edges[k])
    decreases |edges|
  {
    hide Weight;
    var n := |edges| - 1;
    if k == n {
      assert edges[..k] + edges[k + 1..] == edges[..n];
    } else {
      var rest := edges[..k] + edges[k + 1..];
      WeightWithout(edges[..n], k);
      assert rest[..|rest| - 1] == edges[..n][..k] + edges[..n][k + 1..] && rest[|rest| - 1] == edges[n];
    }
  }

  lemma {:induction false} WeightPermutes(a: seq<RowEdge>, b: seq<RowEdge>)
    requires multiset(a) == multiset(b)
    ensures WeightOf(a) == WeightOf(b)
    decreases |a|
  {
    if a == [] {
      assert |multiset(b)| == 0;
      assert b == [];
    } else {
      var k := Elsewhere(a, b);
      WeightPermutes(a[..|a| - 1], b[..k] + b[k + 1..]);
      WeightWithout(b, k);
    }
  }

  lemma {:induction false} MoveOne(edges: seq<RowEdge>, rule: RowEdge -> seq<RowEdge>)
    requires edges != [] && |rule(edges[|edges| - 1])| == 1
    ensures var init, last := edges[..|edges| - 1], edges[|edges| - 1];
      && Collect(edges, rule) == Collect(init, rule) + [rule(last)[0]]
      && WeightOf(Collect(edges, rule)) == WeightOf(Collect(init, rule)) + Weight(rule(last)[0])
      && WeightOf(edges) == WeightOf(init) + Weight(last)
  {
    hide Weight;
    var moved, x := Collect(edges[..|edges| - 1], rule), rule(edges[|edges| - 1])[0];
    assert Collect(edges, rule) == moved + [x];
    assert (moved + [x])[..|moved|] == moved;
  }

  /** Edges only ever move to rows of greater ids, so together they are where they
      were only if none has moved. */
  lemma {:induction false} NoneMoves(edges: seq<RowEdge>, rule: RowEdge -> seq<RowEdge>)
    requires forall e :: e in edges ==> |rule(e)| == 1 && Weight(rule(e)[0]) >= Weight(e)
    requires forall e :: e in edges && Weight(rule(e)[0]) == Weight(e) ==> rule(e) == [e]
    ensures WeightOf(Collect(edges, rule)) >= WeightOf(edges)
    ensures WeightOf(Collect(edges, rule)) == WeightOf(edges) ==> forall e :: e in edges ==> rule(e) == [e]
    ensures (forall e :: e in edges ==> rule(e) == [e]) ==> Collect(edges, rule) == edges
    decreases |edges|
  {
    if edges != [] {
      hide Weight, WeightOf, Collect;
      var init, last := edges[..|edges| - 1], edges[|edges| - 1];
      assert last in edges;
      LastApart(edges);
      NoneMoves(init, rule);
      MoveOne(edges, rule);
    }
  }

  lemma {:induction false} LastApart<T>(s: seq<T>)
    requires s != []
    ensures var init, last := s[..|s| - 1], s[|s| - 1];
      s == init + [last] && forall x :: x in s <==> x in init || x == last
  {
  }

  /** Where one edge goes, and when it stays. */
  lemma {:induction false} EdgeMoves(router: Router, rows: Rows, count: nat, plans: seq<Rows>, exports: seq<Rows>,
      e: RowEdge)
    requires count > 0 && Consistent(router, rows) && DistinctIds(rows.entities)
    requires Routed(router, rows, count, plans) && Exported(plans, exports) && e in RowEdges(router, rows)
    ensures
      var dir := Directory(rows.entities);
      var moved := Read(router, Flatten(exports).entities, Land(router, count, dir, e));
      && e.to.Some?
      && Weight(moved) >= Weight(e) && (Weight(moved) == Weight(e) ==> moved == e)
      && (moved == e <==> (Crosses(router, count, dir, e) ==> AtGreatest(router, rows, e)))
  {
    hide Routed, Exported, Consistent, Directory, DistinctIds, RowEdgesOf, LastByKey, Flatten, Crosses;
    JoinedRows(router, rows, e);
    DirectoryRows(rows.entities);
    var target := Directory(rows.entities)[e.to.value];
    assert HasCanonical(router, rows.entities, Key(router, target));
    NameFindsGreatest(router, rows, count, plans, exports, Key(router, target));
  }

  /** After a migration the canonical edges of the new layout join the rows they joined
      in the old if and only if each of them that crosses domains at this count ended at
      the row with the greatest id of its folded name and kind.  The order in which the
      planner wrote the rows makes no difference. */
  lemma {:induction false} EdgesKeepRows(router: Router, rows: Rows, count: nat, plans: seq<Rows>, exports: seq<Rows>)
    requires count > 0 && Consistent(router, rows) && DistinctIds(rows.entities)
    requires Routed(router, rows, count, plans) && Exported(plans, exports)
    ensures multiset(RowEdges(router, Flatten(exports))) == multiset(RowEdges(router, rows))
       <==> EndsAtGreatest(router, rows, count)
  {
    hide Routed, Exported, Consistent, Directory, DistinctIds, RowEdgesOf, Flatten, Crosses, Weight, Read, Land,
      WeightOf, Collect, AtGreatest;
    var edges, dir := RowEdges(router, rows), Directory(rows.entities);
    var rule := MovedRule(router, count, dir, Flatten(exports).entities);
    EdgesMove(router, rows, count, plans, exports);
    forall e | e in edges
      ensures |rule(e)| == 1 && Weight(rule(e)[0]) >= Weight(e)
      ensures Weight(rule(e)[0]) == Weight(e) ==> rule(e) == [e]
      ensures rule(e) == [e] <==> (Crosses(router, count, dir, e) ==> AtGreatest(router, rows, e))
    {
      EdgeMoves(router, rows, count, plans, exports, e);
    }
    NoneMoves(edges, rule);
    if multiset(Collect(edges, rule)) == multiset(edges) {
      WeightPermutes(Collect(edges, rule), edges);
    }
  }

  /** One canonical row for each folded name and kind is enough. */
  lemma {:induction false} UniqueKeysKeepRows(router: Router, rows: Rows, count: nat)
    requires count > 0 && Consistent(router, rows) && DistinctIds(rows.entities) && UniqueKeys(router, rows.entities)
    ensures EndsAtGreatest(router, rows, count)
  {
    hide Consistent, Directory, RowEdgesOf, Crosses, Key;
    var dir := Directory(rows.entities);
    DirectoryRows(rows.entities);
    forall e | e in RowEdges(router, rows) ensures AtGreatest(router, rows, e) {
      JoinedRows(router, rows, e);
      assert dir[e.to.value] in rows.entities;
    }
  }
}
