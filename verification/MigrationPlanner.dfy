/** The migration's row router: the loops that fill the plans of the new domains. */
module MigrationPlanner {
  import opened Prelude
  import opened Requests
  import opened MigrationRoute

  datatype Report = Report(
    entities: nat, observations: nat, relations: nat,
    stubsDropped: nat, mirrorsDropped: nat, stubsCreated: nat, mirrorsCreated: nat,
    indexEntries: nat, orphanedDropped: nat, sourceRecords: nat)

  datatype Outcome = Planned(plans: seq<Rows>, report: Report) | Failed(fault: Fault)

  datatype StubKey = StubKey(domain: nat, key: Folded)

  /** The plans under construction, the stubs created so far, and the next fresh id. */
  datatype Draft = Draft(plans: seq<Rows>, stubIds: map<StubKey, nat>, nextId: nat, stubsCreated: nat,
                         mirrorsCreated: nat)

  /** The ids of the export lie below `firstId`, where fresh ones start. */
  ghost predicate Below(entities: seq<Entity>, firstId: nat) {
    forall e :: e in entities ==> e.id < firstId
  }

  // ---------------------------------------------------------------------
  // Classifying the exported entities
  // ---------------------------------------------------------------------

  ghost predicate Classified(router: Router, entities: seq<Entity>, stubs: map<nat, Entity>,
                             canonicals: map<nat, Entity>, byKey: map<Folded, Entity>) {
    var dir := Directory(entities);
    && (forall id :: id in stubs <==> StubAt(dir, id))
    && (forall id :: id in stubs ==> stubs[id] == dir[id])
    && (forall id :: id in canonicals <==> CanonicalAt(dir, id))
    && (forall id :: id in canonicals ==> canonicals[id] == dir[id])
    && (forall f :: f in byKey ==> byKey[f] in entities && !IsStub(byKey[f]) && Fold(router, byKey[f]) == f)
    && (forall e :: e in entities && !IsStub(e) ==> Fold(router, e) in byKey)
    && (forall f :: LastByFold(router, entities, f) == if f in byKey then Some(byKey[f]) else None)
  }

  /** The last canonical row under a folded name and kind. */
  function LastByFold(router: Router, entities: seq<Entity>, f: Folded): Option<Entity> {
    if entities == [] then None
    else
      var last := entities[|entities| - 1];
      if !IsStub(last) && Fold(router, last) == f then Some(last)
      else LastByFold(router, entities[..|entities| - 1], f)
  }

  lemma {:induction false} FoldSnoc(router: Router, entities: seq<Entity>, e: Entity, f: Folded)
    ensures LastByFold(router, entities + [e], f)
         == if !IsStub(e) && Fold(router, e) == f then Some(e) else LastByFold(router, entities, f)
  {
    assert (entities + [e])[..|entities|] == entities;
  }

  /** Where rows that fold alike hash alike, the planner's lookup is the lookup by key. */
  lemma {:induction false} FoldIsKey(router: Router, entities: seq<Entity>, key: End)
    requires key.Named? && forall x :: x in entities && Fold(router, x) == key.folded ==> Key(router, x) == key
    ensures LastByFold(router, entities, key.folded) == LastByKey(router, entities, key)
    decreases |entities|
  {
    hide Fold, IsStub;
    if entities != [] {
      assert entities[|entities| - 1] in entities;
      FoldIsKey(router, entities[..|entities| - 1], key);
    }
  }

  lemma {:induction false} NewId(entities: seq<Entity>, e: Entity)
    requires forall x :: x in entities ==> x.id != e.id
    ensures e.id !in Directory(entities)
  {
    DirectoryRows(entities);
  }

  lemma {:induction false} NothingClassified(router: Router)
    ensures Classified(router, [], map[], map[], map[]) && Canonicals([]) == []
  {
  }

  lemma {:induction false} CanonicalsNext(entities: seq<Entity>, n: nat)
    requires n < |entities|
    ensures entities[..n + 1] == entities[..n] + [entities[n]]
    ensures |Canonicals(entities[..n + 1])| == |Canonicals(entities[..n])| + if IsStub(entities[n]) then 0 else 1
  {
    assert entities[..n + 1] == entities[..n] + [entities[n]];
    DirectorySnoc(entities[..n], entities[n]);
  }

  lemma {:induction false} NextIsNew(entities: seq<Entity>, n: nat)
    requires n < |entities| && DistinctIds(entities)
    ensures forall x :: x in entities[..n] ==> x.id != entities[n].id
  {
  }

  lemma {:induction false} ClassifyStub(router: Router, entities: seq<Entity>, e: Entity, stubs: map<nat, Entity>,
                                        canonicals: map<nat, Entity>, byKey: map<Folded, Entity>)
    requires (forall x :: x in entities ==> x.id != e.id) && Classified(router, entities, stubs, canonicals, byKey)
    requires IsStub(e)
    ensures Classified(router, entities + [e], stubs[e.id := e], canonicals, byKey)
  {
    hide Directory, Canonicals, IsStub, Fold, LastByFold;
    DirectorySnoc(entities, e);
    NewId(entities, e);
    forall f {
      FoldSnoc(router, entities, e, f);
    }
  }

  lemma {:induction false} ClassifyCanonical(router: Router, entities: seq<Entity>, e: Entity, stubs: map<nat, Entity>,
                                             canonicals: map<nat, Entity>, byKey: map<Folded, Entity>)
    requires (forall x :: x in entities ==> x.id != e.id) && Classified(router, entities, stubs, canonicals, byKey)
    requires !IsStub(e)
    ensures Classified(router, entities + [e], stubs, canonicals[e.id := e], byKey[Fold(router, e) := e])
    ensures e.id !in canonicals
  {
    hide Directory, Canonicals, IsStub, Fold, LastByFold;
    DirectorySnoc(entities, e);
    NewId(entities, e);
    forall f {
      FoldSnoc(router, entities, e, f);
    }
  }

  method Classify(router: Router, entities: seq<Entity>)
    returns (stubs: map<nat, Entity>, canonicals: map<nat, Entity>, byKey: map<Folded, Entity>, dropped: nat)
    requires DistinctIds(entities)
    ensures Classified(router, entities, stubs, canonicals, byKey)
    ensures dropped + |Canonicals(entities)| == |entities|
    ensures |canonicals| == |Canonicals(entities)|
  {
    hide Directory, Canonicals, Classified, DistinctIds, IsStub, Fold;
    stubs, canonicals, byKey, dropped := map[], map[], map[], 0;
    var n := 0;
    NothingClassified(router);
    assert entities[..0] == [];
    while n < |entities|
      invariant n <= |entities|
      invariant Classified(router, entities[..n], stubs, canonicals, byKey)
      invariant dropped + |Canonicals(entities[..n])| == n
      invariant |canonicals| == |Canonicals(entities[..n])|
    {
      var entity := entities[n];
      NextIsNew(entities, n);
      CanonicalsNext(entities, n);
      if IsStub(entity) {
        ClassifyStub(router, entities[..n], entity, stubs, canonicals, byKey);
        stubs := stubs[entity.id := entity];
        dropped := dropped + 1;
      } else {
        ClassifyCanonical(router, entities[..n], entity, stubs, canonicals, byKey);
        canonicals := canonicals[entity.id := entity];
        byKey := byKey[Fold(router, entity) := entity];
      }
      n := n + 1;
    }
    assert entities[..|entities|] == entities;
  }

  // ---------------------------------------------------------------------
  // Canonical entities
  // ---------------------------------------------------------------------

  /** Exactly the canonical rows of `ids` whose home is `d`, each once. */
  ghost predicate Housed(router: Router, count: nat, canonicals: map<nat, Entity>, ids: set<nat>, d: nat,
      plan: seq<Entity>)
    requires count > 0
  {
    && DistinctIds(plan)
    && forall e :: e in plan <==>
      e.id in ids && e.id in canonicals && canonicals[e.id] == e && DomainOf(router, count, Key(router, e)) == d
  }

  /** Entities are visited in no particular order. */
  method PlaceEntities(router: Router, count: nat, canonicals: map<nat, Entity>)
    returns (plans: seq<Rows>, names: map<nat, string>)
    requires count > 0
    requires forall id :: id in canonicals ==> canonicals[id].id == id
    ensures |plans| == count
    ensures forall d :: 0 <= d < count ==>
      && plans[d] == NO_ROWS.(entities := plans[d].entities)
      && Housed(router, count, canonicals, canonicals.Keys, d, plans[d].entities)
    ensures names.Keys == canonicals.Keys && forall id :: id in names ==> names[id] == canonicals[id].name
    ensures |Flatten(plans).entities| == |canonicals| && |Flatten(plans).relations| == 0
  {
    hide Flatten;
    plans := seq(count, _ => NO_ROWS);
    names := map[];
    var pending := canonicals.Keys;
    EmptyPlans(plans);
    assert |pending| == |canonicals|;
    while pending != {}
      invariant |plans| == count
      invariant pending <= canonicals.Keys
      invariant forall d :: 0 <= d < count ==>
        && plans[d] == NO_ROWS.(entities := plans[d].entities)
        && Housed(router, count, canonicals, canonicals.Keys - pending, d, plans[d].entities)
      invariant names.Keys == canonicals.Keys - pending && forall id :: id in names ==> names[id] == canonicals[id].name
      invariant |Flatten(plans).entities| + |pending| == |canonicals| && |Flatten(plans).relations| == 0
      decreases pending
    {
      var id :| id in pending;
      var entity := canonicals[id];
      var domain := router.DomainFor(entity.name, count);
      names := names[id := entity.name];
      FlattenGrows(plans, domain, plans[domain].(entities := plans[domain].entities + [entity]));
      plans := plans[domain := plans[domain].(entities := plans[domain].entities + [entity])];
      pending := pending - {id};
    }
  }

  // ---------------------------------------------------------------------
  // Sizes of the flattened plans
  // ---------------------------------------------------------------------

  lemma {:induction false} EmptyPlans(plans: seq<Rows>)
    requires forall d :: 0 <= d < |plans| ==> plans[d] == NO_ROWS
    ensures Flatten(plans) == NO_ROWS
    decreases |plans|
  {
    if plans != [] {
      EmptyPlans(plans[..|plans| - 1]);
    }
  }

  /** Growing one plan grows the whole by as much. */
  lemma {:induction false} FlattenGrows(plans: seq<Rows>, d: nat, plan: Rows)
    requires d < |plans|
    ensures var before, after := Flatten(plans), Flatten(plans[d := plan]);
      && |after.entities| - |before.entities| == |plan.entities| - |plans[d].entities|
      && |after.observations| - |before.observations| == |plan.observations| - |plans[d].observations|
      && |after.relations| - |before.relations| == |plan.relations| - |plans[d].relations|
      && |after.vectors| - |before.vectors| == |plan.vectors| - |plans[d].vectors|
      && |after.fts| - |before.fts| == |plan.fts| - |plans[d].fts|
      && |after.sources| - |before.sources| == |plan.sources| - |plans[d].sources|
    decreases |plans|
  {
    var n := |plans| - 1;
    if d == n {
      assert plans[d := plan][..n] == plans[..n];
    } else {
      FlattenGrows(plans[..n], d, plan);
      assert plans[d := plan][..n] == plans[..n][d := plan];
    }
  }

  // ---------------------------------------------------------------------
  // Stubs
  // ---------------------------------------------------------------------

  ghost predicate PlanTidy(router: Router, entities: seq<Entity>, count: nat, firstId: nat, d: nat, plan: seq<Entity>,
                           stubIds: map<StubKey, nat>, nextId: nat)
    requires count > 0
  {
    && DistinctIds(plan)
    && (forall e :: e in plan ==> e.id < nextId)
    && (forall e :: !IsStub(e) ==> (e in plan <==> e in entities && DomainOf(router, count, Key(router, e)) == d))
    && (forall e :: e in plan && IsStub(e) ==> StubTidy(router, entities, count, firstId, d, e, stubIds))
  }

  ghost predicate StubTidy(router: Router, entities: seq<Entity>, count: nat, firstId: nat, d: nat, e: Entity,
                           stubIds: map<StubKey, nat>)
    requires count > 0
  {
    var key := Key(router, e);
    && firstId <= e.id
    && DomainOf(router, count, key) != d && HasCanonical(router, entities, key)
    && StubKey(d, Fold(router, e)) in stubIds && stubIds[StubKey(d, Fold(router, e))] == e.id
  }

  ghost predicate StubNamed(router: Router, plan: Rows, id: nat, key: End) {
    var dir := Directory(plan.entities);
    StubAt(dir, id) && Key(router, dir[id]) == key
  }

  ghost predicate StubFolded(router: Router, plan: Rows, id: nat, f: Folded) {
    var dir := Directory(plan.entities);
    StubAt(dir, id) && Fold(router, dir[id]) == f
  }

  ghost predicate StubsRecorded(router: Router, plans: seq<Rows>, stubIds: map<StubKey, nat>, firstId: nat,
      nextId: nat) {
    && (forall k :: k in stubIds ==> k.domain < |plans| && StubFolded(router, plans[k.domain], stubIds[k], k.key))
    && (forall k :: k in stubIds ==> firstId <= stubIds[k] < nextId)
    && (forall k, l :: k in stubIds && l in stubIds && stubIds[k] == stubIds[l] ==> k == l)
  }

  ghost predicate DraftOk(router: Router, entities: seq<Entity>, count: nat, firstId: nat, draft: Draft)
    requires count > 0
  {
    && |draft.plans| == count && firstId <= draft.nextId
    && (forall d :: 0 <= d < count ==>
          PlanTidy(router, entities, count, firstId, d, draft.plans[d].entities, draft.stubIds, draft.nextId))
    && StubsRecorded(router, draft.plans, draft.stubIds, firstId, draft.nextId)
  }

  /** `b` has every row `a` has, found under the same id. */
  ghost predicate Wider(a: Rows, b: Rows) {
    && b == a.(entities := b.entities)
    && forall id :: id in Directory(a.entities) ==>
      id in Directory(b.entities) && Directory(b.entities)[id] == Directory(a.entities)[id]
  }

  /** A stub with a fresh id leaves every other row where it was. */
  lemma {:induction false} AddStub(router: Router, entities: seq<Entity>, count: nat, firstId: nat, draft: Draft,
      domain: nat, stub: Entity)
    returns (next: Draft)
    requires count > 0 && DraftOk(router, entities, count, firstId, draft) && domain < count
    requires IsStub(stub) && stub.id == draft.nextId
    requires DomainOf(router, count, Key(router, stub)) != domain && HasCanonical(router, entities, Key(router, stub))
    requires StubKey(domain, Fold(router, stub)) !in draft.stubIds
    ensures next == Draft(
      draft.plans[domain := draft.plans[domain].(entities := draft.plans[domain].entities + [stub])],
      draft.stubIds[StubKey(domain, Fold(router, stub)) := stub.id], draft.nextId + 1, draft.stubsCreated + 1,
        draft.mirrorsCreated)
    ensures DraftOk(router, entities, count, firstId, next)
    ensures Wider(draft.plans[domain], next.plans[domain])
    ensures StubNamed(router, next.plans[domain], stub.id, Key(router, stub))
  {
    hide Directory, PlanTidy, IsStub, Key, DomainOf, HasCanonical;
    var key := StubKey(domain, Fold(router, stub));
    var plan := draft.plans[domain].entities;
    next := Draft(draft.plans[domain := draft.plans[domain].(entities := plan + [stub])],
                  draft.stubIds[key := stub.id], draft.nextId + 1, draft.stubsCreated + 1, draft.mirrorsCreated);
    NextIdUnused(router, entities, count, firstId, domain, plan, draft.stubIds, draft.nextId);
    DirectorySnoc(plan, stub);
    NewId(plan, stub);
    forall d | 0 <= d < count
      ensures PlanTidy(router, entities, count, firstId, d, next.plans[d].entities, next.stubIds, next.nextId)
    {
      AddStubTidy(router, entities, count, firstId, d, draft.plans[d].entities, draft.stubIds, domain, stub);
    }
    AddStubRecorded(router, draft.plans, draft.stubIds, firstId, domain, stub, next.plans);
  }

  lemma {:induction false} DistinctWith(plan: seq<Entity>, e: Entity)
    requires DistinctIds(plan) && forall x :: x in plan ==> x.id != e.id
    ensures DistinctIds(plan + [e])
  {
  }

  lemma {:induction false} NextIdUnused(router: Router, entities: seq<Entity>, count: nat, firstId: nat, d: nat,
      plan: seq<Entity>, stubIds: map<StubKey, nat>, nextId: nat)
    requires count > 0 && PlanTidy(router, entities, count, firstId, d, plan, stubIds, nextId)
    ensures DistinctIds(plan) && forall x :: x in plan ==> x.id != nextId
  {
  }

  lemma {:induction false} AddStubTidy(router: Router, entities: seq<Entity>, count: nat, firstId: nat, d: nat,
      plan: seq<Entity>, stubIds: map<StubKey, nat>, domain: nat, stub: Entity)
    requires count > 0 && PlanTidy(router, entities, count, firstId, d, plan, stubIds, stub.id)
    requires IsStub(stub) && firstId <= stub.id
    requires DomainOf(router, count, Key(router, stub)) != domain && HasCanonical(router, entities, Key(router, stub))
    requires StubKey(domain, Fold(router, stub)) !in stubIds
    ensures PlanTidy(router, entities, count, firstId, d, if d == domain then plan + [stub] else plan,
                     stubIds[StubKey(domain, Fold(router, stub)) := stub.id], stub.id + 1)
  {
    hide HasCanonical, IsStub, Key, DomainOf, DistinctIds;
    var grown := if d == domain then plan + [stub] else plan;
    assert forall e :: e in grown ==> e in plan || (d == domain && e == stub);
    DistinctWith(plan, stub);
  }

  lemma {:induction false} AddStubRecorded(router: Router, plans: seq<Rows>, stubIds: map<StubKey, nat>, firstId: nat,
                                           domain: nat, stub: Entity, next: seq<Rows>)
    requires StubsRecorded(router, plans, stubIds, firstId, stub.id) && domain < |plans| == |next|
    requires IsStub(stub) && firstId <= stub.id && StubKey(domain, Fold(router, stub)) !in stubIds
    requires forall d :: 0 <= d < |plans| && d != domain ==> next[d] == plans[d]
    requires Directory(next[domain].entities) == Directory(plans[domain].entities)[stub.id := stub]
    ensures StubsRecorded(router, next, stubIds[StubKey(domain, Fold(router, stub)) := stub.id], firstId, stub.id + 1)
  {
    hide Directory, IsStub, Key;
    var key := StubKey(domain, Fold(router, stub));
    forall k | k in stubIds[key := stub.id]
      ensures k.domain < |next| && StubFolded(router, next[k.domain], stubIds[key := stub.id][k], k.key)
    {
      if k != key {
        assert StubFolded(router, plans[k.domain], stubIds[k], k.key);
      }
    }
  }

  /** The stub found under a folded name stands for the entity that was folded. */
  lemma {:induction false} StubStandsFor(router: Router, entities: seq<Entity>, count: nat, firstId: nat,
      draft: Draft, domain: nat, of: Entity)
    requires count > 0 && DraftOk(router, entities, count, firstId, draft) && domain < count
    requires Coherent(router, entities) && of in entities && StubKey(domain, Fold(router, of)) in draft.stubIds
    ensures StubNamed(router, draft.plans[domain], draft.stubIds[StubKey(domain, Fold(router, of))], Key(router, of))
  {
    hide Directory, IsStub, DomainOf, DistinctIds;
    var id, plan := draft.stubIds[StubKey(domain, Fold(router, of))], draft.plans[domain];
    assert StubFolded(router, plan, id, Fold(router, of));
    DirectoryRows(plan.entities);
    var stub := Directory(plan.entities)[id];
    assert PlanTidy(router, entities, count, firstId, domain, plan.entities, draft.stubIds, draft.nextId);
    assert StubTidy(router, entities, count, firstId, domain, stub, draft.stubIds);
    var c :| c in entities && !IsStub(c) && Key(router, c) == Key(router, stub);
    assert Fold(router, c) == Fold(router, of);
  }

  method SynthesizeStub(router: Router, ghost entities: seq<Entity>, count: nat, ghost firstId: nat, draft: Draft,
      domain: nat, of: Entity)
    returns (next: Draft, id: nat)
    requires count > 0 && DraftOk(router, entities, count, firstId, draft) && domain < count
    requires of in entities && !IsStub(of) && DomainOf(router, count, Key(router, of)) != domain
    requires Coherent(router, entities)
    ensures DraftOk(router, entities, count, firstId, next)
    ensures StubNamed(router, next.plans[domain], id, Key(router, of))
    ensures forall d :: 0 <= d < count && d != domain ==> next.plans[d] == draft.plans[d]
    ensures Wider(draft.plans[domain], next.plans[domain])
    ensures next.mirrorsCreated == draft.mirrorsCreated
    ensures |Flatten(next.plans).entities| - |Flatten(draft.plans).entities| == next.stubsCreated - draft.stubsCreated
    ensures |Flatten(next.plans).relations| == |Flatten(draft.plans).relations|
  {
    hide Directory, Flatten, PlanTidy, DomainOf;
    var key := StubKey(domain, Fold(router, of));
    if key in draft.stubIds {
      next, id := draft, draft.stubIds[key];
      StubStandsFor(router, entities, count, firstId, draft, domain, of);
    } else {
      var stub := Entity(draft.nextId, of.name, of.kind, of.createdAt, of.updatedAt, 1.0, STUB_SOURCE);
      id := stub.id;
      var plan := draft.plans[domain].(entities := draft.plans[domain].entities + [stub]);
      FlattenGrows(draft.plans, domain, plan);
      next := Draft(draft.plans[domain := plan], draft.stubIds[key := id], draft.nextId + 1,
                    draft.stubsCreated + 1, draft.mirrorsCreated);
      assert HasCanonical(router, entities, Key(router, of));
      ghost var added := AddStub(router, entities, count, firstId, draft, domain, stub);
    }
  }

  // ---------------------------------------------------------------------
  // Relations
  // ---------------------------------------------------------------------

  /** The edges to be placed, by name and as their domains are to store them. */
  datatype Wanted = Wanted(graph: seq<Edge>, lands: seq<Landed>)

  ghost predicate EdgesAt(router: Router, entities: seq<Entity>, edges: Wanted, count: nat, d: nat, plan: Rows)
    requires count > 0
  {
    && EdgesPlaced(router, edges.graph, count, d, plan)
    && Landeds(router, Directory(plan.entities), plan.relations)
         == Pick(edges.lands, LandedHome(router, count, Directory(entities)), d)
  }

  lemma {:induction false} Widen(router: Router, entities: seq<Entity>, edges: Wanted, count: nat, d: nat, a: Rows,
      b: Rows)
    requires count > 0 && EdgesAt(router, entities, edges, count, d, a) && Wider(a, b)
    ensures EdgesAt(router, entities, edges, count, d, b)
  {
    hide Directory, HomeEdges, MirrorLinks, Landeds, Pick, Links;
    EdgesAgree(router, Directory(a.entities), Directory(b.entities), a.relations);
  }

  /** One more canonical edge: the domain it starts in gets the edge, the domain
      it crosses into gets its mirror, and the others get nothing. */
  lemma {:induction false} AppendEdge(router: Router, graph: seq<Edge>, e: Edge, count: nat, d: nat, plan: Rows,
      next: Rows, r: Relation)
    requires d < count && EdgesPlaced(router, graph, count, d, plan)
    requires e.link.from.Named? && e.link.to.Named?
    requires
      var dir := Directory(plan.entities);
      if EdgeHome(router, count)(e) == d || MirrorHome(router, count)(e) == d then
        && next == plan.(relations := plan.relations + [r])
        && r.from in dir && r.to in dir && LinkOf(router, dir, r) == e.link
        && (if EdgeHome(router, count)(e) == d then !StubAt(dir, r.from) && r.id == e.id else StubAt(dir, r.from))
      else next == plan
    ensures EdgesPlaced(router, graph + [e], count, d, next)
  {
    hide Directory, HomeEdges, MirrorLinks, Pick, Links;
    PickSnoc(graph, e, EdgeHome(router, count), d);
    PickSnoc(graph, e, MirrorHome(router, count), d);
    LinksSnoc(Pick(graph, MirrorHome(router, count), d), e);
    var dir := Directory(plan.entities);
    EdgesSnoc(router, dir, plan.relations, r);
    assert forall x :: x in next.relations ==> x in plan.relations || (x == r && next != plan);
    assert Local(next);
    assert HomeEdges(router, dir, next.relations) == Pick(graph + [e], EdgeHome(router, count), d);
    if MirrorHome(router, count)(e) != d {
      assert Pick(graph + [e], MirrorHome(router, count), d) == Pick(graph, MirrorHome(router, count), d);
    }
  }

  /** And the domain it starts in stores it as it should. */
  lemma {:induction false} AppendLanded(router: Router, lands: seq<Landed>, x: Landed, home: Landed -> nat, d: nat,
      plan: Rows, next: Rows, r: Relation)
    requires Landeds(router, Directory(plan.entities), plan.relations) == Pick(lands, home, d)
    requires next == plan || next == plan.(relations := plan.relations + [r])
    requires var dir := Directory(plan.entities);
      if home(x) == d then next != plan && !StubAt(dir, r.from) && LandedOf(router, dir, r) == x
      else next == plan || StubAt(dir, r.from)
    ensures Landeds(router, Directory(next.entities), next.relations) == Pick(lands + [x], home, d)
  {
    hide Directory, Landeds, Pick;
    PickSnoc(lands, x, home, d);
    EdgesSnoc(router, Directory(plan.entities), plan.relations, r);
    assert |plan.relations + [r]| != |plan.relations|;
  }

  ghost predicate EdgesDone(router: Router, entities: seq<Entity>, edges: Wanted, count: nat, plans: seq<Rows>)
    requires count > 0
  {
    |plans| == count && forall d :: 0 <= d < count ==> EdgesAt(router, entities, edges, count, d, plans[d])
  }

  /** The edges with one more, between two rows. */
  function More(router: Router, entities: seq<Entity>, count: nat, edges: Wanted, id: nat, from: Entity,
                target: Entity, data: EdgeData): Wanted
    requires count > 0
  {
    Wanted(edges.graph + [Edge(id, Link(Key(router, from), Key(router, target), data))],
           edges.lands + [Land(router, count, Directory(entities), RowEdge(id, Some(from.id), Some(target.id), data))])
  }

  lemma {:induction false} Listed(entities: seq<Entity>, e: Entity)
    requires DistinctIds(entities) && e in entities
    ensures e.id in Directory(entities) && Directory(entities)[e.id] == e
  {
    DirectoryRows(entities);
  }

  lemma {:induction false} CanonicalHere(router: Router, entities: seq<Entity>, count: nat, firstId: nat,
      draft: Draft, d: nat, e: Entity)
    requires count > 0 && d < count && DraftOk(router, entities, count, firstId, draft)
    requires e in entities && !IsStub(e) && DomainOf(router, count, Key(router, e)) == d
    ensures e.id in Directory(draft.plans[d].entities) && Directory(draft.plans[d].entities)[e.id] == e
  {
    hide Directory, StubsRecorded, IsStub, Key, DomainOf, StubTidy;
    assert PlanTidy(router, entities, count, firstId, d, draft.plans[d].entities, draft.stubIds, draft.nextId);
    DirectoryRows(draft.plans[d].entities);
  }

  /** Adding relations to a plan disturbs no row of it. */
  lemma {:induction false} RelationsKeepDraft(router: Router, entities: seq<Entity>, count: nat, firstId: nat,
      draft: Draft, next: Draft)
    requires count > 0 && DraftOk(router, entities, count, firstId, draft)
    requires |next.plans| == count && next.stubIds == draft.stubIds && next.nextId >= draft.nextId
    requires forall d :: 0 <= d < count ==> next.plans[d].entities == draft.plans[d].entities
    ensures DraftOk(router, entities, count, firstId, next)
  {
    hide Directory, IsStub, Key, DomainOf, StubTidy, DistinctIds;
    forall d | 0 <= d < count
      ensures PlanTidy(router, entities, count, firstId, d, next.plans[d].entities, next.stubIds, next.nextId)
    {
      assert PlanTidy(router, entities, count, firstId, d, draft.plans[d].entities, draft.stubIds, draft.nextId);
    }
    forall k | k in next.stubIds ensures StubFolded(router, next.plans[k.domain], next.stubIds[k], k.key) {
      assert StubFolded(router, draft.plans[k.domain], draft.stubIds[k], k.key);
    }
  }

  lemma {:induction false} PlaceHome(router: Router, entities: seq<Entity>, count: nat, firstId: nat, edges: Wanted,
      draft: Draft, r: Relation, from: Entity, target: Entity, next: seq<Rows>)
    requires count > 0 && DraftOk(router, entities, count, firstId, draft) && DistinctIds(entities)
    requires EdgesDone(router, entities, edges, count, draft.plans)
    requires from in entities && !IsStub(from) && target in entities && !IsStub(target)
    requires var home := DomainOf(router, count, Key(router, from));
      && home < count && DomainOf(router, count, Key(router, target)) == home
      && r.from == from.id && r.to == target.id
      && next == draft.plans[home := draft.plans[home].(relations := draft.plans[home].relations + [r])]
    ensures EdgesDone(router, entities, More(router, entities, count, edges, r.id, from, target, r.data), count, next)
  {
    hide DraftOk, Directory, EdgesPlaced, DistinctIds, Pick, Landeds;
    var home := DomainOf(router, count, Key(router, from));
    var e := Edge(r.id, Link(Key(router, from), Key(router, target), r.data));
    var x := Landed(r.id, Some(from.id), Near(Some(target.id)), r.data);
    Listed(entities, from);
    Listed(entities, target);
    CanonicalHere(router, entities, count, firstId, draft, home, from);
    CanonicalHere(router, entities, count, firstId, draft, home, target);
    assert More(router, entities, count, edges, r.id, from, target, r.data)
        == Wanted(edges.graph + [e], edges.lands + [x]);
    forall d | 0 <= d < count
      ensures EdgesAt(router, entities, Wanted(edges.graph + [e], edges.lands + [x]), count, d, next[d])
    {
      assert EdgesAt(router, entities, edges, count, d, draft.plans[d]);
      AppendEdge(router, edges.graph, e, count, d, draft.plans[d], next[d], r);
      AppendLanded(router, edges.lands, x, LandedHome(router, count, Directory(entities)), d, draft.plans[d], next[d],
                   r);
    }
  }

  lemma {:induction false} PlaceCrossing(router: Router, entities: seq<Entity>, count: nat, firstId: nat,
      edges: Wanted, draft: Draft, r: Relation, m: Relation, from: Entity, target: Entity, next: seq<Rows>)
    requires count > 0 && DraftOk(router, entities, count, firstId, draft) && DistinctIds(entities)
    requires EdgesDone(router, entities, edges, count, draft.plans)
    requires from in entities && !IsStub(from) && target in entities && !IsStub(target)
    requires var home, away := DomainOf(router, count, Key(router, from)), DomainOf(router, count, Key(router, target));
      && home < count && away < count && home != away
      && StubNamed(router, draft.plans[home], r.to, Key(router, target))
      && StubNamed(router, draft.plans[away], m.from, Key(router, from))
      && r.from == from.id && m.to == target.id && m.data == r.data
      && next == draft.plans[away := draft.plans[away].(relations := draft.plans[away].relations + [m])]
                            [home := draft.plans[home].(relations := draft.plans[home].relations + [r])]
    ensures EdgesDone(router, entities, More(router, entities, count, edges, r.id, from, target, r.data), count, next)
  {
    hide DraftOk, Directory, EdgesPlaced, DistinctIds, Pick, Landeds;
    var home, away := DomainOf(router, count, Key(router, from)), DomainOf(router, count, Key(router, target));
    var e := Edge(r.id, Link(Key(router, from), Key(router, target), r.data));
    var x := Landed(r.id, Some(from.id), Far(Key(router, target)), r.data);
    Listed(entities, from);
    Listed(entities, target);
    CanonicalHere(router, entities, count, firstId, draft, home, from);
    CanonicalHere(router, entities, count, firstId, draft, away, target);
    assert More(router, entities, count, edges, r.id, from, target, r.data)
        == Wanted(edges.graph + [e], edges.lands + [x]);
    forall d | 0 <= d < count
      ensures EdgesAt(router, entities, Wanted(edges.graph + [e], edges.lands + [x]), count, d, next[d])
    {
      assert EdgesAt(router, entities, edges, count, d, draft.plans[d]);
      AppendEdge(router, edges.graph, e, count, d, draft.plans[d], next[d], if d == home then r else m);
      AppendLanded(router, edges.lands, x, LandedHome(router, count, Directory(entities)), d, draft.plans[d], next[d],
                   if d == home then r else m);
    }
  }

  lemma {:induction false} WidenAll(router: Router, entities: seq<Entity>, edges: Wanted, count: nat, a: seq<Rows>,
      b: seq<Rows>, domain: nat)
    requires count > 0 && EdgesDone(router, entities, edges, count, a) && |b| == count && domain < count
    requires Wider(a[domain], b[domain]) && forall d :: 0 <= d < count && d != domain ==> b[d] == a[d]
    ensures EdgesDone(router, entities, edges, count, b)
  {
    hide EdgesAt, Wider;
    forall d | 0 <= d < count ensures EdgesAt(router, entities, edges, count, d, b[d]) {
      if d == domain {
        Widen(router, entities, edges, count, d, a[d], b[d]);
      }
    }
  }

  /** The columns a relation does not touch. */
  ghost predicate SameRows(a: seq<Rows>, b: seq<Rows>) {
    |a| == |b| && forall d :: 0 <= d < |a| ==> b[d] == a[d].(entities := b[d].entities, relations := b[d].relations)
  }

  /** The canonical edge stays in its origin's domain; if the target lives
      elsewhere the edge points at a stub, and the target's domain gets a mirror
      that starts at a stub of the origin. */
  method RouteRelation(router: Router, ghost entities: seq<Entity>, count: nat, ghost firstId: nat,
                       ghost edges: Wanted, draft: Draft, rel: Relation, from: Entity, target: Entity)
    returns (next: Draft)
    requires count > 0 && DraftOk(router, entities, count, firstId, draft) && DistinctIds(entities)
    requires EdgesDone(router, entities, edges, count, draft.plans)
    requires from in entities && !IsStub(from) && target in entities && !IsStub(target) && rel.from == from.id
    requires Coherent(router, entities)
    ensures DraftOk(router, entities, count, firstId, next)
    ensures EdgesDone(router, entities, More(router, entities, count, edges, rel.id, from, target, rel.data), count,
                      next.plans)
    ensures SameRows(draft.plans, next.plans)
    ensures |Flatten(next.plans).entities| - |Flatten(draft.plans).entities| == next.stubsCreated - draft.stubsCreated
    ensures |Flatten(next.plans).relations| - |Flatten(draft.plans).relations|
        == 1 + next.mirrorsCreated - draft.mirrorsCreated
  {
    hide Directory, Flatten, PlanTidy, IsStub, StubsRecorded, EdgesAt, StubNamed, DistinctIds, More;
    var home := router.DomainFor(from.name, count);
    var away := router.DomainFor(target.name, count);
    if home == away {
      var edge := rel.(to := target.id);
      var plan := draft.plans[home].(relations := draft.plans[home].relations + [edge]);
      FlattenGrows(draft.plans, home, plan);
      next := draft.(plans := draft.plans[home := plan]);
      PlaceHome(router, entities, count, firstId, edges, draft, edge, from, target, next.plans);
      RelationsKeepDraft(router, entities, count, firstId, draft, next);
    } else {
      var there, to := SynthesizeStub(router, entities, count, firstId, draft, home, target);
      WidenAll(router, entities, edges, count, draft.plans, there.plans, home);
      var both, origin := SynthesizeStub(router, entities, count, firstId, there, away, from);
      WidenAll(router, entities, edges, count, there.plans, both.plans, away);
      var mirror := Relation(both.nextId, origin, target.id, rel.data);
      var edge := rel.(to := to);
      var awayPlan := both.plans[away].(relations := both.plans[away].relations + [mirror]);
      FlattenGrows(both.plans, away, awayPlan);
      var plans := both.plans[away := awayPlan];
      var homePlan := plans[home].(relations := plans[home].relations + [edge]);
      FlattenGrows(plans, home, homePlan);
      next := both.(plans := plans[home := homePlan], nextId := both.nextId + 1,
                    mirrorsCreated := both.mirrorsCreated + 1);
      PlaceCrossing(router, entities, count, firstId, edges, both, edge, mirror, from, target, next.plans);
      RelationsKeepDraft(router, entities, count, firstId, both, next);
    }
  }

  /** The edges of the first relations of an export. */
  ghost function WantedOf(router: Router, rows: Rows, count: nat, rels: seq<Relation>): Wanted
    requires count > 0
  {
    var dir := Directory(rows.entities);
    Wanted(HomeEdges(router, dir, rels), LandAll(router, count, dir, RowEdgesOf(router, rows.entities, rels)))
  }

  lemma {:induction false} NoEdges(router: Router, rows: Rows, count: nat)
    requires count > 0
    ensures WantedOf(router, rows, count, []) == Wanted([], [])
  {
  }

  lemma {:induction false} NextEdge(router: Router, rows: Rows, count: nat, n: nat, ends: Ends)
    requires count > 0 && n < |rows.relations|
    requires ends.Mirror? <==> StubAt(Directory(rows.entities), rows.relations[n].from)
    requires ends.Ends? ==> Resolved(router, rows, rows.relations[n], ends.from, ends.target)
    requires !ends.Refused?
    ensures var rel, before, after := rows.relations[n], WantedOf(router, rows, count, rows.relations[..n]),
                                      WantedOf(router, rows, count, rows.relations[..n + 1]);
      && (ends.Mirror? ==> after == before)
      && (ends.Ends? ==> after == More(router, rows.entities, count, before, rel.id, ends.from, ends.target, rel.data))
  {
    hide Directory, HomeEdges, RowEdgesOf, LandAll, Land, ResolveId;
    var rel, dir := rows.relations[n], Directory(rows.entities);
    var done := RowEdgesOf(router, rows.entities, rows.relations[..n]);
    assert rows.relations[..n + 1] == rows.relations[..n] + [rel];
    EdgesSnoc(router, dir, rows.relations[..n], rel);
    RowEdgesSnoc(router, rows.entities, rows.relations[..n], rel);
    if ends.Ends? {
      assert !StubAt(dir, rel.from);
      LandSnoc(router, count, dir, done, RowEdge(rel.id, Some(ends.from.id), Some(ends.target.id), rel.data));
    } else {
      assert forall a: seq<Edge> :: a + [] == a;
      assert forall a: seq<RowEdge> :: a + [] == a;
    }
  }

  /** The rows an edge joins, as the export resolves its ends. */
  ghost predicate Resolved(router: Router, rows: Rows, rel: Relation, from: Entity, target: Entity) {
    && LinkOf(router, Directory(rows.entities), rel) == Link(Key(router, from), Key(router, target), rel.data)
    && ResolveId(router, rows.entities, rel.from) == Some(from.id)
    && ResolveId(router, rows.entities, rel.to) == Some(target.id)
  }

  /** The relations loop: mirrors are dropped, every other edge is resolved through
      the old stubs and placed; the first edge that cannot be resolved is refused. */
  method PlaceRelations(router: Router, rows: Rows, count: nat, ghost firstId: nat, start: Draft,
                        stubs: map<nat, Entity>, canonicals: map<nat, Entity>, byKey: map<Folded, Entity>)
    returns (fault: Option<Fault>, draft: Draft, placed: nat, dropped: nat)
    requires count > 0 && DraftOk(router, rows.entities, count, firstId, start)
    requires EdgesDone(router, rows.entities, Wanted([], []), count, start.plans)
    requires DistinctIds(rows.entities) && Coherent(router, rows.entities)
    requires Classified(router, rows.entities, stubs, canonicals, byKey)
    ensures fault.None? ==>
      && (forall i :: 0 <= i < |rows.relations| ==> RelationOk(router, rows, rows.relations[i]))
      && DraftOk(router, rows.entities, count, firstId, draft)
      && EdgesDone(router, rows.entities, WantedOf(router, rows, count, rows.relations), count, draft.plans)
      && SameRows(start.plans, draft.plans)
      && placed == |Graph(router, rows)| && placed + dropped == |rows.relations|
      && |Flatten(draft.plans).entities| - |Flatten(start.plans).entities| == draft.stubsCreated - start.stubsCreated
      && |Flatten(draft.plans).relations| - |Flatten(start.plans).relations|
        == placed + draft.mirrorsCreated - start.mirrorsCreated
    ensures fault.Some? ==> RelationsBlamed(router, rows, fault.value)
  {
    hide Directory, Flatten, DraftOk, EdgesDone, IsStub, HomeEdges, RowEdgesOf, LandAll, Classified, RelationOk,
      Resolved, DistinctIds;
    fault, draft, placed, dropped := None, start, 0, 0;
    var n := 0;
    assert rows.relations[..0] == [];
    NoEdges(router, rows, count);
    while n < |rows.relations|
      invariant n <= |rows.relations|
      invariant forall i :: 0 <= i < n ==> RelationOk(router, rows, rows.relations[i])
      invariant DraftOk(router, rows.entities, count, firstId, draft)
      invariant EdgesDone(router, rows.entities, WantedOf(router, rows, count, rows.relations[..n]), count,
                          draft.plans)
      invariant SameRows(start.plans, draft.plans)
      invariant placed == |WantedOf(router, rows, count, rows.relations[..n]).graph| && placed + dropped == n
      invariant |Flatten(draft.plans).entities| - |Flatten(start.plans).entities|
          == draft.stubsCreated - start.stubsCreated
      invariant |Flatten(draft.plans).relations| - |Flatten(start.plans).relations|
             == placed + draft.mirrorsCreated - start.mirrorsCreated
    {
      var rel := rows.relations[n];
      var found := ResolveEnds(router, rows, rel, stubs, canonicals, byKey);
      match found {
        case Refused(why) =>
          fault := Some(why);
          assert BlamesRelation(router, rows, rows.relations[n], why);
          return;
        case Mirror =>
          NextEdge(router, rows, count, n, found);
          dropped := dropped + 1;
        case Ends(from, target) =>
          NextEdge(router, rows, count, n, found);
          ghost var edges := WantedOf(router, rows, count, rows.relations[..n]);
          draft := RouteRelation(router, rows.entities, count, firstId, edges, draft, rel, from, target);
          placed := placed + 1;
      }
      n := n + 1;
    }
    assert rows.relations[..|rows.relations|] == rows.relations;
  }

  ghost predicate RelationsBlamed(router: Router, rows: Rows, fault: Fault) {
    && !fault.OrphanObservation?
    && exists i ::
         && 0 <= i < |rows.relations| && rows.relations[i].id == fault.relation
         && BlamesRelation(router, rows, rows.relations[i], fault)
         && forall j :: 0 <= j < i ==> RelationOk(router, rows, rows.relations[j])
  }

  datatype Ends = Mirror | Ends(from: Entity, target: Entity) | Refused(why: Fault)

  /** What the planner finds behind a stub. */
  lemma {:induction false} StubTarget(router: Router, entities: seq<Entity>, stub: Entity, byKey: map<Folded, Entity>)
    requires Coherent(router, entities) && stub in entities
    requires forall f :: LastByFold(router, entities, f) == if f in byKey then Some(byKey[f]) else None
    ensures var f, key := Fold(router, stub), Key(router, stub);
      && LastByKey(router, entities, key) == (if f in byKey then Some(byKey[f]) else None)
      && (f in byKey ==> Key(router, byKey[f]) == key)
      && (f in byKey <==> HasCanonical(router, entities, key))
  {
    hide LastByFold, LastByKey;
    FoldIsKey(router, entities, Key(router, stub));
    LastIsCanonical(router, entities, Key(router, stub));
  }

  method ResolveEnds(router: Router, ghost rows: Rows, rel: Relation,
                     stubs: map<nat, Entity>, canonicals: map<nat, Entity>, byKey: map<Folded, Entity>)
    returns (ends: Ends)
    requires DistinctIds(rows.entities) && Coherent(router, rows.entities)
    requires Classified(router, rows.entities, stubs, canonicals, byKey)
    ensures ends.Refused? <==> !RelationOk(router, rows, rel)
    ensures ends.Refused? ==>
        BlamesRelation(router, rows, rel, ends.why) && !ends.why.OrphanObservation? && ends.why.relation == rel.id
    ensures ends.Mirror? <==> StubAt(Directory(rows.entities), rel.from)
    ensures ends.Ends? ==>
      && ends.from in rows.entities && !IsStub(ends.from) && ends.from.id == rel.from
      && ends.target in rows.entities && !IsStub(ends.target)
      && Resolved(router, rows, rel, ends.from, ends.target)
  {
    hide Directory, Coherent, Key, LastByFold, LastByKey, IsStub;
    DirectoryRows(rows.entities);
    if rel.from in stubs {
      ends := Mirror;
    } else if rel.from !in canonicals {
      ends := Refused(MissingOrigin(rel.id));
    } else if rel.to in canonicals {
      ends := Ends(canonicals[rel.from], canonicals[rel.to]);
    } else if rel.to in stubs {
      var f := Fold(router, stubs[rel.to]);
      StubTarget(router, rows.entities, stubs[rel.to], byKey);
      ends := if f in byKey then Ends(canonicals[rel.from], byKey[f]) else Refused(StubOnlyTarget(rel.id));
    } else {
      ends := Refused(MissingTarget(rel.id));
    }
  }

  lemma {:induction false} PickSnocAll<T>(s: seq<T>, n: nat, home: T -> nat, count: nat)
    requires n < |s|
    ensures forall d :: 0 <= d < count ==>
      Pick(s[..n + 1], home, d) == Pick(s[..n], home, d) + if home(s[n]) == d then [s[n]] else []
  {
    forall d | 0 <= d < count
      ensures Pick(s[..n + 1], home, d) == Pick(s[..n], home, d) + if home(s[n]) == d then [s[n]] else []
    {
      PickSnoc(s[..n], s[n], home, d);
      assert s[..n + 1] == s[..n] + [s[n]];
    }
  }

  // ---------------------------------------------------------------------
  // Observations, index rows, source records
  // ---------------------------------------------------------------------

  /** The owner's name and the tombstone of every observation. */
  ghost predicate Described(dir: map<nat, Entity>, observations: seq<Observation>, meta: map<nat, (string, bool)>) {
    var observed := ObservationsById(observations);
    && (forall id :: id in meta <==> id in observed)
    && (forall id :: id in meta ==> observed[id].entityId in dir)
    && (forall id :: id in meta ==> meta[id] == (dir[observed[id].entityId].name, observed[id].tombstoned))
  }

  lemma {:induction false} OrphanBlamed(router: Router, rows: Rows, n: nat)
    requires n < |rows.observations| && !ObservationOk(Directory(rows.entities), rows.observations[n])
    requires forall i :: 0 <= i < n ==> ObservationOk(Directory(rows.entities), rows.observations[i])
    ensures Blames(router, rows, OrphanObservation(rows.observations[n].id))
  {
  }

  lemma {:induction false} NothingDescribed(dir: map<nat, Entity>)
    ensures Described(dir, [], map[])
  {
  }

  lemma {:induction false} PickNothing<T>(home: T -> nat)
    ensures forall d :: Pick([], home, d) == []
  {
  }

  lemma {:induction false} DescribedSnoc(dir: map<nat, Entity>, observations: seq<Observation>,
      meta: map<nat, (string, bool)>, obs: Observation)
    requires Described(dir, observations, meta) && obs.entityId in dir
    ensures Described(dir, observations + [obs], meta[obs.id := (dir[obs.entityId].name, obs.tombstoned)])
  {
    assert (observations + [obs])[..|observations|] == observations;
  }

  method PlaceObservations(router: Router, ghost rows: Rows, count: nat, observations: seq<Observation>,
                           names: map<nat, string>, start: seq<Rows>)
    returns (fault: Option<Fault>, plans: seq<Rows>, meta: map<nat, (string, bool)>)
    requires count > 0 && |start| == count && observations == rows.observations
    requires forall d :: 0 <= d < count ==> start[d].observations == []
    requires forall id :: id in names <==> CanonicalAt(Directory(rows.entities), id)
    requires forall id :: id in names ==>
        id in Directory(rows.entities) && names[id] == Directory(rows.entities)[id].name
    ensures fault.None? ==>
      && (forall i :: 0 <= i < |observations| ==> ObservationOk(Directory(rows.entities), observations[i]))
      && Described(Directory(rows.entities), observations, meta)
      && |plans| == count
      && (forall d :: 0 <= d < count ==> plans[d] == start[d].(
            observations := Pick(observations, ObservationHome(router, count, Directory(rows.entities)), d)))
      && |Flatten(plans).entities| == |Flatten(start).entities|
        && |Flatten(plans).relations| == |Flatten(start).relations|
      && ByOwner(router, Directory(rows.entities), count, observations, plans)
    ensures fault.Some? ==> Blames(router, rows, fault.value)
  {
    hide Directory, Flatten, Pick, Described, Blames, ObservationsById, ByOwner;
    ghost var dir := Directory(rows.entities);
    ghost var home := ObservationHome(router, count, dir);
    fault, plans, meta := None, start, map[];
    var n := 0;
    assert observations[..0] == [];
    NothingDescribed(dir);
    PickNothing(home);
    while n < |observations|
      invariant n <= |observations| && |plans| == count
      invariant forall i :: 0 <= i < n ==> ObservationOk(dir, observations[i])
      invariant Described(dir, observations[..n], meta)
      invariant forall d :: 0 <= d < count ==> plans[d] == start[d].(observations := Pick(observations[..n], home, d))
      invariant |Flatten(plans).entities| == |Flatten(start).entities|
          && |Flatten(plans).relations| == |Flatten(start).relations|
    {
      var obs := observations[n];
      if obs.entityId !in names {
        fault := Some(OrphanObservation(obs.id));
        OrphanBlamed(router, rows, n);
        return;
      }
      var name := names[obs.entityId];
      assert observations[..n + 1] == observations[..n] + [obs];
      DescribedSnoc(dir, observations[..n], meta, obs);
      meta := meta[obs.id := (name, obs.tombstoned)];
      var domain := router.DomainFor(name, count);
      PickSnocAll(observations, n, home, count);
      FlattenGrows(plans, domain, plans[domain].(observations := plans[domain].observations + [obs]));
      plans := plans[domain := plans[domain].(observations := plans[domain].observations + [obs])];
      n := n + 1;
    }
    assert observations[..|observations|] == observations;
    OwnersDecide(router, dir, count, observations, plans);
  }

  /** Each domain has the observations whose owner's name hashes to it. */
  ghost predicate ByOwner(router: Router, dir: map<nat, Entity>, count: nat, observations: seq<Observation>,
                          plans: seq<Rows>)
    requires count > 0
  {
    |plans| == count && forall d, o :: 0 <= d < count ==>
      (o in plans[d].observations <==>
         o in observations && o.entityId in dir && router.hash(dir[o.entityId].name) % count == d)
  }

  lemma {:induction false} OwnersDecide(router: Router, dir: map<nat, Entity>, count: nat,
      observations: seq<Observation>, plans: seq<Rows>)
    requires count > 0 && |plans| == count
    requires forall d :: 0 <= d < count ==>
      plans[d].observations == Pick(observations, ObservationHome(router, count, dir), d)
    ensures ByOwner(router, dir, count, observations, plans)
  {
    hide Pick;
    forall d, o | 0 <= d < count
      ensures o in plans[d].observations <==>
        o in observations && o.entityId in dir && router.hash(dir[o.entityId].name) % count == d
    {
      Picked(observations, ObservationHome(router, count, dir), d, o);
    }
  }

  datatype Arm = Vector | Fulltext

  function Column(plan: Rows, arm: Arm): seq<IndexEntry> { if arm.Vector? then plan.vectors else plan.fts }

  function WithColumn(plan: Rows, arm: Arm, entries: seq<IndexEntry>): Rows {
    if arm.Vector? then plan.(vectors := entries) else plan.(fts := entries)
  }

  /** Index rows follow their observation, or hash by their own name; rows of
      unknown or tombstoned observations are dropped and counted. */
  method PlaceEntries(router: Router, ghost dir: map<nat, Entity>, ghost observations: seq<Observation>, count: nat,
                      meta: map<nat, (string, bool)>, entries: seq<IndexEntry>, arm: Arm, start: seq<Rows>)
    returns (plans: seq<Rows>, kept: nat, orphaned: nat)
    requires count > 0 && |start| == count && Described(dir, observations, meta)
    requires forall d :: 0 <= d < count ==> Column(start[d], arm) == []
    ensures |plans| == count
    ensures forall d :: 0 <= d < count ==> plans[d] == WithColumn(start[d], arm,
      Pick(entries, EntryHome(router, count, dir, ObservationsById(observations)), d))
    ensures ByUri(router, meta, count, entries, arm, plans)
    ensures kept + orphaned == |entries|
    ensures |Column(Flatten(plans), arm)| == |Column(Flatten(start), arm)| + kept
    ensures SameSizes(Flatten(start), Flatten(plans), arm)
  {
    hide Flatten, Pick, EntryHome, ObservationsById, Described, ByUri;
    ghost var observed := ObservationsById(observations);
    ghost var home := EntryHome(router, count, dir, observed);
    plans, kept, orphaned := start, 0, 0;
    var n := 0;
    assert entries[..0] == [];
    PickNothing(home);
    while n < |entries|
      invariant n <= |entries| && |plans| == count && kept + orphaned == n
      invariant forall d :: 0 <= d < count ==> plans[d] == WithColumn(start[d], arm, Pick(entries[..n], home, d))
      invariant |Column(Flatten(plans), arm)| == |Column(Flatten(start), arm)| + kept
      invariant SameSizes(Flatten(start), Flatten(plans), arm)
    {
      var entry := entries[n];
      assert entries[..n + 1] == entries[..n] + [entry];
      var domain := EntryTarget(router, dir, observations, count, meta, entry);
      PickSnocAll(entries, n, home, count);
      match domain {
        case None =>
          orphaned := orphaned + 1;
        case Some(d) =>
          var plan := WithColumn(plans[d], arm, Column(plans[d], arm) + [entry]);
          FlattenGrows(plans, d, plan);
          plans := plans[d := plan];
          kept := kept + 1;
      }
      n := n + 1;
    }
    assert entries[..|entries|] == entries;
    UrisDecide(router, dir, observations, count, meta, entries, arm, plans);
  }

  /** Where an index row belongs: with the observation it is named after, if that is
      live, or where its own name hashes to. */
  ghost predicate UriAt(router: Router, meta: map<nat, (string, bool)>, count: nat, uri: Uri, d: nat)
    requires count > 0
  {
    match uri
    case ObservationUri(id) => id in meta && !meta[id].1 && router.hash(meta[id].0) % count == d
    case OtherUri(text) => router.hash(text) % count == d
  }

  ghost predicate ByUri(router: Router, meta: map<nat, (string, bool)>, count: nat, entries: seq<IndexEntry>, arm: Arm,
                        plans: seq<Rows>)
    requires count > 0
  {
    |plans| == count && forall d, x :: 0 <= d < count ==>
      (x in Column(plans[d], arm) <==> x in entries && UriAt(router, meta, count, x.uri, d))
  }

  lemma {:induction false} UrisDecide(router: Router, dir: map<nat, Entity>, observations: seq<Observation>,
      count: nat, meta: map<nat, (string, bool)>, entries: seq<IndexEntry>, arm: Arm, plans: seq<Rows>)
    requires count > 0 && |plans| == count && Described(dir, observations, meta)
    requires forall d :: 0 <= d < count ==>
      Column(plans[d], arm) == Pick(entries, EntryHome(router, count, dir, ObservationsById(observations)), d)
    ensures ByUri(router, meta, count, entries, arm, plans)
  {
    hide Pick, ObservationsById;
    forall d, x | 0 <= d < count
      ensures x in Column(plans[d], arm) <==> x in entries && UriAt(router, meta, count, x.uri, d)
    {
      Picked(entries, EntryHome(router, count, dir, ObservationsById(observations)), d, x);
    }
  }

  ghost predicate SameSizes(a: Rows, b: Rows, arm: Arm) {
    && |a.entities| == |b.entities| && |a.relations| == |b.relations|
    && (arm.Vector? ==> |a.fts| == |b.fts|) && (arm.Fulltext? ==> |a.vectors| == |b.vectors|)
  }

  method EntryTarget(router: Router, ghost dir: map<nat, Entity>, ghost observations: seq<Observation>, count: nat,
                     meta: map<nat, (string, bool)>, entry: IndexEntry)
    returns (domain: Option<nat>)
    requires count > 0 && Described(dir, observations, meta)
    ensures domain == (var home := EntryHome(router, count, dir, ObservationsById(observations))(entry);
                       if home < count then Some(home) else None)
  {
    match entry.uri {
      case ObservationUri(id) =>
        if id in meta && !meta[id].1 {
          domain := Some(router.DomainFor(meta[id].0, count));
        } else {
          domain := None;
        }
      case OtherUri(text) =>
        domain := Some(router.DomainFor(text, count));
    }
  }

  /** Each domain has the records whose URI hashes to it. */
  ghost predicate ByText(router: Router, count: nat, sources: seq<SourceRecord>, plans: seq<Rows>)
    requires count > 0
  {
    |plans| == count && forall d, s :: 0 <= d < count ==>
      (s in plans[d].sources <==> s in sources && router.hash(s.uri) % count == d)
  }

  method PlaceSources(router: Router, count: nat, sources: seq<SourceRecord>, start: seq<Rows>)
    returns (plans: seq<Rows>)
    requires count > 0 && |start| == count
    requires forall d :: 0 <= d < count ==> start[d].sources == []
    ensures |plans| == count
    ensures forall d :: 0 <= d < count ==> plans[d] == start[d].(sources := Pick(sources, SourceHome(router, count), d))
    ensures ByText(router, count, sources, plans)
    ensures |Flatten(plans).entities| == |Flatten(start).entities|
        && |Flatten(plans).relations| == |Flatten(start).relations|
    ensures |Flatten(plans).vectors| == |Flatten(start).vectors| && |Flatten(plans).fts| == |Flatten(start).fts|
  {
    hide Flatten, Pick;
    ghost var home := SourceHome(router, count);
    plans := start;
    var n := 0;
    assert sources[..0] == [];
    PickNothing(home);
    while n < |sources|
      invariant n <= |sources| && |plans| == count
      invariant forall d :: 0 <= d < count ==> plans[d] == start[d].(sources := Pick(sources[..n], home, d))
      invariant |Flatten(plans).entities| == |Flatten(start).entities|
          && |Flatten(plans).relations| == |Flatten(start).relations|
      invariant |Flatten(plans).vectors| == |Flatten(start).vectors| && |Flatten(plans).fts| == |Flatten(start).fts|
    {
      var record := sources[n];
      assert sources[..n + 1] == sources[..n] + [record];
      var domain := router.DomainFor(record.uri, count);
      PickSnocAll(sources, n, home, count);
      var plan := plans[domain].(sources := plans[domain].sources + [record]);
      FlattenGrows(plans, domain, plan);
      plans := plans[domain := plan];
      n := n + 1;
    }
    assert sources[..|sources|] == sources;
    forall d, s | 0 <= d < count
      ensures s in plans[d].sources <==> s in sources && router.hash(s.uri) % count == d
    {
      Picked(sources, SourceHome(router, count), d, s);
    }
  }

  // ---------------------------------------------------------------------
  // The whole router
  // ---------------------------------------------------------------------

  /** The counts of the report balance: what was kept and what was dropped make
      the export, what was kept and what was created make the plans. */
  ghost predicate Tallied(router: Router, rows: Rows, plans: seq<Rows>, report: Report) {
    var whole := Flatten(plans);
    && report.entities == |Canonicals(rows.entities)|
    && report.entities + report.stubsDropped == |rows.entities|
    && report.observations == |rows.observations|
    && report.relations == |Graph(router, rows)|
    && report.relations + report.mirrorsDropped == |rows.relations|
    && |whole.entities| == report.entities + report.stubsCreated
    && |whole.relations| == report.relations + report.mirrorsCreated
    && report.indexEntries + report.orphanedDropped == |rows.vectors| + |rows.fts|
    && |whole.vectors| + |whole.fts| == report.indexEntries
    && report.sourceRecords == |rows.sources|
  }

  lemma {:induction false} StartOk(router: Router, rows: Rows, count: nat, firstId: nat, stubs: map<nat, Entity>,
                                   canonicals: map<nat, Entity>, byKey: map<Folded, Entity>,
                                   plans: seq<Rows>) returns (draft: Draft)
    requires count > 0 && DistinctIds(rows.entities) && Below(rows.entities, firstId)
    requires Classified(router, rows.entities, stubs, canonicals, byKey)
    requires |plans| == count && forall d :: 0 <= d < count ==>
      plans[d].relations == [] && Housed(router, count, canonicals, canonicals.Keys, d, plans[d].entities)
    ensures draft == Draft(plans, map[], firstId, 0, 0)
    ensures DraftOk(router, rows.entities, count, firstId, draft)
    ensures EdgesDone(router, rows.entities, Wanted([], []), count, plans)
  {
    hide Directory, DistinctIds, Key, DomainOf, HasCanonical, StubTidy, EdgeHome, MirrorHome;
    draft := Draft(plans, map[], firstId, 0, 0);
    DirectoryRows(rows.entities);
    forall d | 0 <= d < count
      ensures PlanTidy(router, rows.entities, count, firstId, d, plans[d].entities, map[], firstId)
      ensures EdgesAt(router, rows.entities, Wanted([], []), count, d, plans[d])
    {
      assert Housed(router, count, canonicals, canonicals.Keys, d, plans[d].entities);
    }
  }

  lemma {:induction false} CountCanonical(entities: seq<Entity>, e: Entity)
    requires DistinctIds(entities)
    ensures multiset(Canonicals(entities))[e] == if e in entities && !IsStub(e) then 1 else 0
    decreases |entities|
  {
    if entities != [] {
      var init, last := entities[..|entities| - 1], entities[|entities| - 1];
      CountCanonical(init, e);
      assert entities == init + [last];
    }
  }

  lemma {:induction false} CanonicalsHoused(router: Router, entities: seq<Entity>, count: nat, firstId: nat, d: nat,
      plan: seq<Entity>, stubIds: map<StubKey, nat>, nextId: nat)
    requires count > 0 && DistinctIds(entities) && PlanTidy(router, entities, count, firstId, d, plan, stubIds, nextId)
    ensures multiset(Canonicals(plan)) == multiset(Pick(Canonicals(entities), EntityHome(router, count), d))
  {
    hide Canonicals, Pick, DomainOf, Key, StubTidy, DistinctIds;
    forall e: Entity
      ensures multiset(Canonicals(plan))[e] == multiset(Pick(Canonicals(entities), EntityHome(router, count), d))[e]
    {
      CountCanonical(plan, e);
      CountCanonical(entities, e);
      PickCount(Canonicals(entities), EntityHome(router, count), d, e);
    }
    assert forall e: Entity ::
      e in multiset(Canonicals(plan)) <==> e in multiset(Pick(Canonicals(entities), EntityHome(router, count), d));
  }

  /** No id is used in two domains. */
  lemma {:induction false} CrossDistinct(router: Router, entities: seq<Entity>, count: nat, firstId: nat, draft: Draft,
                                         c: nat, d: nat, x: Entity, y: Entity)
    requires count > 0 && c < d < count && DistinctIds(entities) && Below(entities, firstId)
    requires DraftOk(router, entities, count, firstId, draft)
    requires x in draft.plans[c].entities && y in draft.plans[d].entities
    ensures x.id != y.id
  {
    assert PlanTidy(router, entities, count, firstId, c, draft.plans[c].entities, draft.stubIds, draft.nextId);
    assert PlanTidy(router, entities, count, firstId, d, draft.plans[d].entities, draft.stubIds, draft.nextId);
    if IsStub(x) && IsStub(y) {
      assert StubTidy(router, entities, count, firstId, c, x, draft.stubIds);
      assert StubTidy(router, entities, count, firstId, d, y, draft.stubIds);
      assert StubKey(c, Fold(router, x)) != StubKey(d, Fold(router, y));
    }
  }

  lemma {:induction false} FlattenDistinct(router: Router, entities: seq<Entity>, count: nat, firstId: nat,
      draft: Draft, n: nat)
    requires count > 0 && n <= count && DistinctIds(entities) && Below(entities, firstId)
    requires DraftOk(router, entities, count, firstId, draft)
    ensures DistinctIds(Flatten(draft.plans[..n]).entities)
    ensures forall e :: e in Flatten(draft.plans[..n]).entities ==>
        exists c :: 0 <= c < n && e in draft.plans[c].entities
    decreases n
  {
    hide PlanTidy, StubsRecorded;
    if n > 0 {
      var m := n - 1;
      FlattenDistinct(router, entities, count, firstId, draft, m);
      assert draft.plans[..n][..m] == draft.plans[..m];
      var before, last := Flatten(draft.plans[..m]).entities, draft.plans[m].entities;
      assert Flatten(draft.plans[..n]).entities == before + last;
      NextIdUnused(router, entities, count, firstId, m, last, draft.stubIds, draft.nextId);
      forall x, y | x in before && y in last ensures x.id != y.id {
        var c :| 0 <= c < m && x in draft.plans[c].entities;
        CrossDistinct(router, entities, count, firstId, draft, c, m, x, y);
      }
      DistinctAppend(before, last);
      forall e | e in before + last ensures exists c :: 0 <= c < n && e in draft.plans[c].entities {
        if e in before {
          var c :| 0 <= c < m && e in draft.plans[c].entities;
          assert 0 <= c < n;
        } else {
          assert e in draft.plans[m].entities;
        }
      }
    }
  }

  lemma {:induction false} DistinctAppend(a: seq<Entity>, b: seq<Entity>)
    requires DistinctIds(a) && DistinctIds(b) && forall x, y :: x in a && y in b ==> x.id != y.id
    ensures DistinctIds(a + b)
  {
    forall i, j | 0 <= i < j < |a + b| ensures (a + b)[i].id != (a + b)[j].id {
      if i < |a| <= j {
        assert a[i] in a && b[j - |a|] in b;
      } else if |a| <= i {
        assert b[i - |a|].id != b[j - |a|].id;
      }
    }
  }

  /** Stubs of one key share an id, hence a row. */
  lemma {:induction false} TidyStubsPlaced(router: Router, entities: seq<Entity>, count: nat, firstId: nat, d: nat,
      plan: Rows, stubIds: map<StubKey, nat>, nextId: nat)
    requires count > 0 && PlanTidy(router, entities, count, firstId, d, plan.entities, stubIds, nextId)
    ensures StubsPlaced(router, entities, count, d, plan)
  {
    hide Directory, IsStub, Fold, DomainOf, HasCanonical;
    forall s, t | s in plan.entities && t in plan.entities && IsStub(s) && IsStub(t) && Key(router, s) == Key(router, t)
      ensures s == t
    {
      assert StubTidy(router, entities, count, firstId, d, s, stubIds);
      assert StubTidy(router, entities, count, firstId, d, t, stubIds);
      DirectoryRows(plan.entities);
    }
  }

  lemma {:induction false} RoutedFrom(router: Router, rows: Rows, count: nat, firstId: nat, draft: Draft,
      plans: seq<Rows>)
    requires count > 0 && DistinctIds(rows.entities) && Below(rows.entities, firstId)
    requires DraftOk(router, rows.entities, count, firstId, draft)
    requires EdgesDone(router, rows.entities, WantedOf(router, rows, count, rows.relations), count, draft.plans)
    requires |plans| == count
    requires
      var dir, observed := Directory(rows.entities), ObservationsById(rows.observations);
      forall d :: 0 <= d < count ==> plans[d] == Rows(
        draft.plans[d].entities,
        Pick(rows.observations, ObservationHome(router, count, dir), d),
        draft.plans[d].relations,
        Pick(rows.vectors, EntryHome(router, count, dir, observed), d),
        Pick(rows.fts, EntryHome(router, count, dir, observed), d),
        Pick(rows.sources, SourceHome(router, count), d))
    ensures Routed(router, rows, count, plans)
  {
    hide Directory, ObservationsById, PlanTidy, StubsRecorded, Pick, Canonicals, HomeEdges, MirrorLinks, DistinctIds,
      Flatten, Landeds, LandAll, RowEdgesOf;
    assert draft.plans[..count] == draft.plans;
    FlattenDistinct(router, rows.entities, count, firstId, draft, count);
    SameEntities(draft.plans, plans);
    forall d | 0 <= d < count
      ensures RowsPlaced(router, rows, count, d, plans[d])
      ensures EdgesPlaced(router, Graph(router, rows), count, d, plans[d])
      ensures EndsPlaced(router, rows, count, d, plans[d])
      ensures StubsPlaced(router, rows.entities, count, d, plans[d])
    {
      CanonicalsHoused(router, rows.entities, count, firstId, d, draft.plans[d].entities, draft.stubIds, draft.nextId);
      TidyStubsPlaced(router, rows.entities, count, firstId, d, plans[d], draft.stubIds, draft.nextId);
      assert EdgesAt(router, rows.entities, WantedOf(router, rows, count, rows.relations), count, d, draft.plans[d]);
    }
  }

  lemma {:induction false} SameEntities(a: seq<Rows>, b: seq<Rows>)
    requires |a| == |b| && forall d :: 0 <= d < |a| ==> a[d].entities == b[d].entities
    ensures Flatten(a).entities == Flatten(b).entities
    decreases |a|
  {
    if a != [] {
      SameEntities(a[..|a| - 1], b[..|b| - 1]);
    }
  }

  lemma {:induction false} BlamedInconsistent(router: Router, rows: Rows, fault: Fault)
    requires Blames(router, rows, fault)
    ensures !Consistent(router, rows)
  {
    hide Directory, HasCanonical;
    if fault.OrphanObservation? {
    } else {
      var i :| 0 <= i < |rows.relations| && rows.relations[i].id == fault.relation
        && BlamesRelation(router, rows, rows.relations[i], fault);
      var r := rows.relations[i];
      assert TargetOk(router, rows, r) ==> !OriginOk(Directory(rows.entities), r);
      assert !RelationOk(router, rows, r);
    }
  }

  lemma {:induction false} CanonicalIds(router: Router, entities: seq<Entity>, stubs: map<nat, Entity>,
                                        canonicals: map<nat, Entity>, byKey: map<Folded, Entity>)
    requires Classified(router, entities, stubs, canonicals, byKey)
    ensures forall id :: id in canonicals ==> canonicals[id].id == id
    ensures forall id :: id in canonicals <==> CanonicalAt(Directory(entities), id)
    ensures forall id :: id in canonicals ==> canonicals[id] == Directory(entities)[id]
  {
    DirectoryRows(entities);
  }

  /** Entities, observations and relations are placed; index rows are not yet. */
  ghost predicate GraphPlaced(router: Router, rows: Rows, count: nat, firstId: nat, draft: Draft)
    requires count > 0
  {
    && DraftOk(router, rows.entities, count, firstId, draft)
    && EdgesDone(router, rows.entities, WantedOf(router, rows, count, rows.relations), count, draft.plans)
    && |draft.plans| == count
    && forall d :: 0 <= d < count ==> draft.plans[d] == NO_ROWS.(
         entities := draft.plans[d].entities,
         observations := Pick(rows.observations, ObservationHome(router, count, Directory(rows.entities)), d),
         relations := draft.plans[d].relations)
  }

  ghost predicate GraphTallied(router: Router, rows: Rows, plans: seq<Rows>, report: Report) {
    && report.entities == |Canonicals(rows.entities)|
    && report.entities + report.stubsDropped == |rows.entities|
    && report.observations == |rows.observations|
    && report.relations == |Graph(router, rows)|
    && report.relations + report.mirrorsDropped == |rows.relations|
    && |Flatten(plans).entities| == report.entities + report.stubsCreated
    && |Flatten(plans).relations| == report.relations + report.mirrorsCreated
    && report.indexEntries == report.orphanedDropped == report.sourceRecords == 0
  }

  method RouteGraph(router: Router, rows: Rows, count: nat, firstId: nat)
    returns (fault: Option<Fault>, draft: Draft, meta: map<nat, (string, bool)>, report: Report)
    requires count > 0 && DistinctIds(rows.entities) && Below(rows.entities, firstId)
    requires Coherent(router, rows.entities)
    ensures fault.None? <==> Consistent(router, rows)
    ensures fault.Some? ==> Blames(router, rows, fault.value)
    ensures fault.None? ==>
      && GraphPlaced(router, rows, count, firstId, draft)
      && GraphTallied(router, rows, draft.plans, report)
      && Described(Directory(rows.entities), rows.observations, meta)
  {
    hide Directory, ObservationsById, Flatten, Pick, Canonicals, DistinctIds, Below, DraftOk, EdgesDone, Housed,
      Graph, Described, RelationOk, ObservationOk, BlamesRelation, Classified, ObservationHome;
    draft, meta, report := Draft([], map[], 0, 0, 0), map[], Report(0, 0, 0, 0, 0, 0, 0, 0, 0, 0);
    var stubs, canonicals, byKey, stubsDropped := Classify(router, rows.entities);
    CanonicalIds(router, rows.entities, stubs, canonicals, byKey);
    var housed, names := PlaceEntities(router, count, canonicals);
    var observed;
    fault, observed, meta := PlaceObservations(router, rows, count, rows.observations, names, housed);
    if fault.Some? {
      BlamedInconsistent(router, rows, fault.value);
      return;
    }
    draft := Draft(observed, map[], firstId, 0, 0);
    ghost var started := StartOk(router, rows, count, firstId, stubs, canonicals, byKey, observed);
    var relations, mirrorsDropped;
    fault, draft, relations,
      mirrorsDropped := PlaceRelations(router, rows, count, firstId, draft, stubs, canonicals, byKey);
    if fault.Some? {
      assert Blames(router, rows, fault.value);
      BlamedInconsistent(router, rows, fault.value);
      return;
    }
    report := Report(|canonicals|, |rows.observations|, relations, stubsDropped, mirrorsDropped,
                     draft.stubsCreated, draft.mirrorsCreated, 0, 0, 0);
  }

  /** Routing succeeds exactly on consistent exports, and then produces a migration
      whose report balances; otherwise it names the first row that stands in the way. */
  method Route(router: Router, rows: Rows, count: nat, firstId: nat) returns (outcome: Outcome)
    requires count > 0 && DistinctIds(rows.entities) && Below(rows.entities, firstId)
    requires Coherent(router, rows.entities)
    ensures outcome.Planned? <==> Consistent(router, rows)
    ensures outcome.Planned? ==> Routed(router, rows, count, outcome.plans)
    ensures outcome.Planned? ==> Tallied(router, rows, outcome.plans, outcome.report)
    ensures outcome.Failed? ==> Blames(router, rows, outcome.fault)
  {
    hide Directory, ObservationsById, Pick, Canonicals, DistinctIds, Below, DraftOk, EdgesDone, Routed, Consistent,
      Blames,
      Graph, Described, EntryHome, ObservationHome, SourceHome, Flatten;
    var fault, draft, meta, report := RouteGraph(router, rows, count, firstId);
    if fault.Some? {
      return Failed(fault.value);
    }
    EmptyColumns(draft.plans);
    var vectored, vectors,
        vectorOrphans := PlaceEntries(router, Directory(rows.entities), rows.observations, count, meta,
      rows.vectors, Vector, draft.plans);
    var indexed, fts, ftsOrphans := PlaceEntries(router, Directory(rows.entities), rows.observations, count, meta,
      rows.fts, Fulltext, vectored);
    var plans := PlaceSources(router, count, rows.sources, indexed);
    RoutedFrom(router, rows, count, firstId, draft, plans);
    outcome := Planned(plans, report.(
      indexEntries := vectors + fts, orphanedDropped := vectorOrphans + ftsOrphans, sourceRecords := |rows.sources|));
  }

  lemma {:induction false} EmptyColumns(plans: seq<Rows>)
    requires forall d :: 0 <= d < |plans| ==> plans[d].vectors == [] && plans[d].fts == []
    ensures Flatten(plans).vectors == [] && Flatten(plans).fts == []
    decreases |plans|
  {
    if plans != [] {
      EmptyColumns(plans[..|plans| - 1]);
    }
  }
}
