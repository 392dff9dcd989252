/** An export with two canonical rows of one folded name, and a migration of it after
    which the next migration joins an edge to the other of the two; and two exports
    that no migration accepts. */
module MigrationWitness {
  import opened Prelude
  import opened Requests
  import opened MigrationRoute
  import opened MigrationMeaning
  import opened MigrationRows

  /** "A" folds to "a", which lives in domain 0; all else lives in domain 1. */
  const FOLDING := Router(s => if s == "A" then "a" else s, s => if s == "a" || s == "A" then 0 else 1)

  const A := Named(Folded("a", 0), 0)
  const C := Named(Folded("c", 0), 1)

  function Person(id: nat, name: string, source: string): Entity { Entity(id, name, 0, 0, 0, 1.0, source) }

  const LOWER := Person(1, "a", "u")
  const UPPER := Person(2, "A", "u")
  const OTHER := Person(3, "c", "u")
  const LOWER_STUB := Person(4, "a", STUB_SOURCE)
  const OTHER_STUB := Person(5, "c", STUB_SOURCE)

  const DATA := EdgeData("knows", 1.0, 0, 0, 0, "u")
  const EDGE := Relation(7, 3, 1, DATA)
  const CANONICAL_EDGE := Relation(7, 3, 4, DATA)
  const MIRROR := Relation(8, 5, 1, DATA)

  /** The edge runs from "c" to the row spelled "a". */
  const EXPORT := Rows([LOWER, UPPER, OTHER], [], [EDGE], [], [], [])

  const FIRST := Rows([LOWER, UPPER, OTHER_STUB], [], [MIRROR], [], [], [])
  const SECOND := Rows([OTHER, LOWER_STUB], [], [CANONICAL_EDGE], [], [], [])
  const PLANS := [FIRST, SECOND]

  lemma {:induction false} Distinguished()
    ensures !IsStub(LOWER) && !IsStub(UPPER) && !IsStub(OTHER) && IsStub(LOWER_STUB) && IsStub(OTHER_STUB)
    ensures Key(FOLDING, LOWER) == Key(FOLDING, UPPER) == Key(FOLDING, LOWER_STUB) == A
    ensures Key(FOLDING, OTHER) == Key(FOLDING, OTHER_STUB) == C
    ensures DomainOf(FOLDING, 2, A) == 0 && DomainOf(FOLDING, 2, C) == 1
  {
    assert "u" != STUB_SOURCE by {
      assert |"u"| != |STUB_SOURCE|;
    }
  }

  lemma {:induction false} TwoOf<T>(a: T, b: T)
    ensures [a, b] == [] + [a] + [b]
  {
  }

  lemma {:induction false} ThreeOf<T>(a: T, b: T, c: T)
    ensures [a, b, c] == [] + [a] + [b] + [c]
  {
  }

  lemma {:induction false} Directories()
    ensures Directory(EXPORT.entities) == map[1 := LOWER, 2 := UPPER, 3 := OTHER]
    ensures Canonicals(EXPORT.entities) == [LOWER, UPPER, OTHER]
    ensures Directory(FIRST.entities) == map[1 := LOWER, 2 := UPPER, 5 := OTHER_STUB]
    ensures Canonicals(FIRST.entities) == [LOWER, UPPER]
    ensures Directory(SECOND.entities) == map[3 := OTHER, 4 := LOWER_STUB]
    ensures Canonicals(SECOND.entities) == [OTHER]
  {
    hide Directory, Canonicals, IsStub;
    Distinguished();
    Empty();
    ThreeOf(LOWER, UPPER, OTHER);
    DirectorySnoc([], LOWER);
    DirectorySnoc([] + [LOWER], UPPER);
    DirectorySnoc([] + [LOWER] + [UPPER], OTHER);
    ThreeOf(LOWER, UPPER, OTHER_STUB);
    DirectorySnoc([] + [LOWER] + [UPPER], OTHER_STUB);
    TwoOf(OTHER, LOWER_STUB);
    DirectorySnoc([], OTHER);
    DirectorySnoc([] + [OTHER], LOWER_STUB);
  }

  lemma {:induction false} Empty()
    ensures Directory([]) == map[] && Canonicals([]) == []
  {
  }

  function TheLink(): Link { Link(C, A, DATA) }

  lemma {:induction false} Edges()
    ensures Graph(FOLDING, EXPORT) == [Edge(7, TheLink())]
    ensures HomeEdges(FOLDING, Directory(FIRST.entities), FIRST.relations) == []
    ensures MirrorLinks(FOLDING, Directory(FIRST.entities), FIRST.relations) == [TheLink()]
    ensures HomeEdges(FOLDING, Directory(SECOND.entities), SECOND.relations) == [Edge(7, TheLink())]
    ensures MirrorLinks(FOLDING, Directory(SECOND.entities), SECOND.relations) == []
  {
    hide Directory, IsStub, Key, HomeEdges, MirrorLinks;
    Distinguished();
    Directories();
    NoRelations(Directory(EXPORT.entities));
    NoRelations(Directory(FIRST.entities));
    NoRelations(Directory(SECOND.entities));
    assert [] + [EDGE] == [EDGE] && [] + [MIRROR] == [MIRROR] && [] + [CANONICAL_EDGE] == [CANONICAL_EDGE];
    EdgesSnoc(FOLDING, Directory(EXPORT.entities), [], EDGE);
    EdgesSnoc(FOLDING, Directory(FIRST.entities), [], MIRROR);
    EdgesSnoc(FOLDING, Directory(SECOND.entities), [], CANONICAL_EDGE);
  }

  lemma {:induction false} NoRelations(dir: map<nat, Entity>)
    ensures HomeEdges(FOLDING, dir, []) == [] && MirrorLinks(FOLDING, dir, []) == []
  {
  }

  lemma {:induction false} Flat()
    ensures Flatten(PLANS).entities == [LOWER, UPPER, OTHER_STUB, OTHER, LOWER_STUB]
    ensures Flatten(PLANS).relations == [MIRROR, CANONICAL_EDGE]
    ensures Flatten(PLANS).observations == []
  {
    assert PLANS[..1] == [FIRST] && [FIRST][..0] == [];
    assert Flatten([]) == NO_ROWS;
    assert Flatten([FIRST]) == FIRST;
  }

  lemma {:induction false} RowsHome(d: nat)
    requires d < 2
    ensures RowsPlaced(FOLDING, EXPORT, 2, d, PLANS[d])
  {
    hide Directory, Canonicals, IsStub, Key, Pick, DomainOf;
    Distinguished();
    Directories();
    ThreeOf(LOWER, UPPER, OTHER);
    PickNothing(EntityHome(FOLDING, 2), d);
    PickNothing(ObservationHome(FOLDING, 2, Directory(EXPORT.entities)), d);
    PickNothing(EntryHome(FOLDING, 2, Directory(EXPORT.entities), ObservationsById([])), d);
    PickNothing(SourceHome(FOLDING, 2), d);
    PickSnoc([], LOWER, EntityHome(FOLDING, 2), d);
    PickSnoc([] + [LOWER], UPPER, EntityHome(FOLDING, 2), d);
    PickSnoc([] + [LOWER] + [UPPER], OTHER, EntityHome(FOLDING, 2), d);
    assert Pick([LOWER, UPPER, OTHER], EntityHome(FOLDING, 2), d) == if d == 0 then [LOWER, UPPER] else [OTHER];
  }

  lemma {:induction false} PickNothing<T>(home: T -> nat, d: nat)
    ensures Pick([], home, d) == []
  {
  }

  lemma {:induction false} EdgesHome(d: nat)
    requires d < 2
    ensures EdgesPlaced(FOLDING, Graph(FOLDING, EXPORT), 2, d, PLANS[d])
  {
    hide Directory, IsStub, Key, Pick, DomainOf, HomeEdges, MirrorLinks, Links;
    Distinguished();
    Directories();
    Edges();
    var e := Edge(7, TheLink());
    assert [] + [e] == [e];
    PickNothing(EdgeHome(FOLDING, 2), d);
    PickNothing(MirrorHome(FOLDING, 2), d);
    PickSnoc([], e, EdgeHome(FOLDING, 2), d);
    PickSnoc([], e, MirrorHome(FOLDING, 2), d);
    NoLinks();
    LinksSnoc([], e);
  }

  lemma {:induction false} EndsHome(d: nat)
    requires d < 2
    ensures EndsPlaced(FOLDING, EXPORT, 2, d, PLANS[d])
  {
    hide Directory, IsStub, Key, Pick, DomainOf, Landeds, RowEdges;
    Distinguished();
    Directories();
    EdgeBefore();
    NoLanded(Directory(FIRST.entities));
    NoLanded(Directory(SECOND.entities));
    assert [] + [MIRROR] == [MIRROR] && [] + [CANONICAL_EDGE] == [CANONICAL_EDGE];
    EdgesSnoc(FOLDING, Directory(FIRST.entities), [], MIRROR);
    EdgesSnoc(FOLDING, Directory(SECOND.entities), [], CANONICAL_EDGE);
    var dir, e := Directory(EXPORT.entities), RowEdge(7, Some(3), Some(1), DATA);
    var x := Landed(7, Some(3), Far(A), DATA);
    assert [] + [e] == [e] && [] + [x] == [x];
    assert LandAll(FOLDING, 2, dir, []) == [];
    LandSnoc(FOLDING, 2, dir, [], e);
    PickNothing(LandedHome(FOLDING, 2, dir), d);
    PickSnoc([], x, LandedHome(FOLDING, 2, dir), d);
  }

  lemma {:induction false} NoLanded(dir: map<nat, Entity>)
    ensures Landeds(FOLDING, dir, []) == []
  {
  }

  lemma {:induction false} NoLinks()
    ensures Links([]) == []
  {
  }

  lemma {:induction false} StubsHome(d: nat)
    requires d < 2
    ensures StubsPlaced(FOLDING, EXPORT.entities, 2, d, PLANS[d])
  {
    hide IsStub, Key, DomainOf;
    Distinguished();
    assert LOWER in EXPORT.entities && OTHER in EXPORT.entities;
    assert HasCanonical(FOLDING, EXPORT.entities, A);
    assert HasCanonical(FOLDING, EXPORT.entities, C);
  }

  /** The migration is one the planner may produce, and the edge has changed hands:
      it joined row 3 to row 1, and the next migration will join row 3 to row 2. */
  lemma {:induction false} EdgeChangesRow()
    ensures Consistent(FOLDING, EXPORT) && DistinctIds(EXPORT.entities) && Coherent(FOLDING, EXPORT.entities)
    ensures Routed(FOLDING, EXPORT, 2, PLANS) && Exported(PLANS, PLANS)
    ensures !EndsAtGreatest(FOLDING, EXPORT, 2)
    ensures RowEdges(FOLDING, EXPORT) == [RowEdge(7, Some(3), Some(1), DATA)]
    ensures RowEdges(FOLDING, Flatten(PLANS)) == [RowEdge(7, Some(3), Some(2), DATA)]
  {
    hide Routed, Exported, Flatten, RowEdges, Consistent, Coherent, DistinctIds, EndsAtGreatest;
    PlansRouted();
    ExportConsistent();
    EdgeBefore();
    EdgeAfter();
    EdgesKeepRows(FOLDING, EXPORT, 2, PLANS, PLANS);
    DifferentEdges(RowEdges(FOLDING, EXPORT)[0], RowEdges(FOLDING, Flatten(PLANS))[0]);
  }

  lemma {:induction false} PlansRouted()
    ensures Routed(FOLDING, EXPORT, 2, PLANS) && Exported(PLANS, PLANS)
  {
    hide RowsPlaced, EdgesPlaced, EndsPlaced, StubsPlaced, Flatten;
    Flat();
    RowsHome(0);
    RowsHome(1);
    EdgesHome(0);
    EdgesHome(1);
    EndsHome(0);
    EndsHome(1);
    StubsHome(0);
    StubsHome(1);
  }

  lemma {:induction false} DifferentEdges(a: RowEdge, b: RowEdge)
    requires a != b
    ensures multiset([a]) != multiset([b])
  {
    assert a in multiset([a]) && a !in multiset([b]);
  }

  /** An edge whose target is a stub that no canonical row stands behind, as a mirror
      commit leaves it whose home transaction never landed. */
  const STUB_ONLY := SECOND

  /** Such an export is refused, for that reason and no other: the edge is not saved by
      making the stub canonical. */
  lemma {:induction false} StubOnlyRefused()
    ensures DistinctIds(STUB_ONLY.entities) && Coherent(FOLDING, STUB_ONLY.entities) && !Consistent(FOLDING, STUB_ONLY)
    ensures forall fault :: Blames(FOLDING, STUB_ONLY, fault) <==> fault == StubOnlyTarget(7)
  {
    hide Directory, IsStub, Key;
    Distinguished();
    Directories();
    assert forall e :: e in STUB_ONLY.entities ==> e == OTHER || e == LOWER_STUB;
    assert !HasCanonical(FOLDING, STUB_ONLY.entities, A);
    assert !RelationOk(FOLDING, STUB_ONLY, STUB_ONLY.relations[0]);
    assert BlamesRelation(FOLDING, STUB_ONLY, STUB_ONLY.relations[0], StubOnlyTarget(7));
  }

  /** A caller's row under the reserved source, and what the caller said about it. */
  const RESERVED := Rows([LOWER_STUB], [Observation(9, 4, "seen", false)], [], [], [], [])

  /** It is taken for a stub: with its observation it stops every migration, and without
      one nothing is left of it. */
  lemma {:induction false} ReservedLost()
    ensures DistinctIds(RESERVED.entities) && Coherent(FOLDING, RESERVED.entities)
    ensures !Consistent(FOLDING, RESERVED) && Blames(FOLDING, RESERVED, OrphanObservation(9))
    ensures var silent := RESERVED.(observations := []);
      Consistent(FOLDING, silent) && MeaningOf(FOLDING, silent) == MeaningOf(FOLDING, NO_ROWS)
  {
    hide IsStub, Key;
    Distinguished();
    Empty();
    assert [LOWER_STUB] == [] + [LOWER_STUB];
    DirectorySnoc([], LOWER_STUB);
    assert !ObservationOk(Directory(RESERVED.entities), RESERVED.observations[0]);
  }

  lemma {:induction false} ExportConsistent()
    ensures Consistent(FOLDING, EXPORT) && DistinctIds(EXPORT.entities) && Coherent(FOLDING, EXPORT.entities)
  {
    hide IsStub, Key, Directory;
    Distinguished();
    Directories();
    assert LOWER in EXPORT.entities && UPPER in EXPORT.entities;
    assert HasCanonical(FOLDING, EXPORT.entities, A);
  }

  lemma {:induction false} EdgeBefore()
    ensures RowEdges(FOLDING, EXPORT) == [RowEdge(7, Some(3), Some(1), DATA)]
  {
    hide IsStub, Key, Directory;
    Distinguished();
    Directories();
    assert [EDGE][..0] == [];
    assert RowEdgesOf(FOLDING, EXPORT.entities, []) == [];
  }

  lemma {:induction false} EdgeAfter()
    ensures RowEdges(FOLDING, Flatten(PLANS)) == [RowEdge(7, Some(3), Some(2), DATA)]
  {
    hide IsStub, Key, Directory, LastByKey, Flatten;
    Distinguished();
    Flat();
    var entities := Flatten(PLANS).entities;
    FlatDirectory();
    FlatLookup();
    assert [MIRROR, CANONICAL_EDGE][..1] == [MIRROR] && [MIRROR][..0] == [];
    assert RowEdgesOf(FOLDING, entities, []) == [];
    assert RowEdgesOf(FOLDING, entities, [MIRROR]) == [];
  }

  lemma {:induction false} FlatDirectory()
    ensures Directory([LOWER, UPPER, OTHER_STUB, OTHER, LOWER_STUB])
         == map[1 := LOWER, 2 := UPPER, 5 := OTHER_STUB, 3 := OTHER, 4 := LOWER_STUB]
  {
    hide Directory, Canonicals, IsStub;
    Directories();
    DirectorySnoc(FIRST.entities, OTHER);
    DirectorySnoc(FIRST.entities + [OTHER], LOWER_STUB);
    assert FIRST.entities + [OTHER] + [LOWER_STUB] == [LOWER, UPPER, OTHER_STUB, OTHER, LOWER_STUB];
  }

  lemma {:induction false} FlatLookup()
    ensures LastByKey(FOLDING, [LOWER, UPPER, OTHER_STUB, OTHER, LOWER_STUB], A) == Some(UPPER)
  {
    hide IsStub, Key;
    Distinguished();
    var all := [LOWER, UPPER, OTHER_STUB, OTHER, LOWER_STUB];
    assert all[..4] == [LOWER, UPPER, OTHER_STUB, OTHER];
    assert all[..4][..3] == [LOWER, UPPER, OTHER_STUB];
    assert all[..4][..3][..2] == [LOWER, UPPER];
    assert LastByKey(FOLDING, [LOWER, UPPER], A) == Some(UPPER);
    assert LastByKey(FOLDING, all[..4][..3], A) == Some(UPPER);
    assert LastByKey(FOLDING, all[..4], A) == Some(UPPER);
  }
}
