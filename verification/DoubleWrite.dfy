/** The double-write of cross-domain edges: how a batch is split into home requests,
    stub rows and mirror batches, and what the member stores then hold.

    A store is its entity rows (with the source that created each), its
    observations and its edges.  Writing a batch is a list of events. */
module DoubleWrite {
  import opened Requests

  datatype Node = Node(name: string, kind: nat)

  datatype EdgeRow = EdgeRow(from: Node, to: Node, relation: string, source: string)

  datatype Note = Note(owner: Node, content: string)

  datatype Store = Store(rows: map<Node, string>, notes: seq<Note>, edges: seq<EdgeRow>)

  const EMPTY_STORE := Store(map[], [], [])

  datatype Event = Touch(node: Node, source: string) | Observe(note: Note) | Relate(edge: EdgeRow)

  /** An entity row is matched by exact name and kind, and keeps the source of
      whoever wrote it first. */
  function Do(s: Store, ev: Event): Store {
    match ev
    case Touch(node, source) => if node in s.rows then s else s.(rows := s.rows[node := source])
    case Observe(note) => s.(notes := s.notes + [note])
    case Relate(edge) => s.(edges := s.edges + [edge])
  }

  function Perform(s: Store, events: seq<Event>): Store {
    if events == [] then s else Do(Perform(s, events[..|events| - 1]), events[|events| - 1])
  }

  // ---------------------------------------------------------------------
  // The events of a batch
  // ---------------------------------------------------------------------

  function NodeOf(req: Request): Node { Node(req.name, req.kind) }

  function TargetOf(rel: RelationInput): Node { Node(rel.targetName, rel.targetKind) }

  /** A relation without a source of its own takes the request's. */
  function SourceFor(req: Request, rel: RelationInput): string {
    if rel.source == "" then req.source else rel.source
  }

  function EdgeFor(req: Request, rel: RelationInput): EdgeRow {
    EdgeRow(NodeOf(req), TargetOf(rel), rel.relation, SourceFor(req, rel))
  }

  function NoteEvents(req: Request, observations: seq<string>): seq<Event> {
    if observations == [] then []
    else
      NoteEvents(req, observations[..|observations| - 1])
      + [Observe(Note(NodeOf(req), observations[|observations| - 1]))]
  }

  function RelationEvents(req: Request, rels: seq<RelationInput>): seq<Event> {
    if rels == [] then []
    else
      var rel := rels[|rels| - 1];
      RelationEvents(req, rels[..|rels| - 1]) + [Touch(TargetOf(rel), SourceFor(req, rel)), Relate(EdgeFor(req, rel))]
  }

  function GroupEvents(req: Request): seq<Event> {
    [Touch(NodeOf(req), req.source)] + NoteEvents(req, req.observations) + RelationEvents(req, req.relations)
  }

  function BatchEvents(reqs: seq<Request>): seq<Event> {
    if reqs == [] then [] else BatchEvents(reqs[..|reqs| - 1]) + GroupEvents(reqs[|reqs| - 1])
  }

  // ---------------------------------------------------------------------
  // Splitting a batch
  // ---------------------------------------------------------------------

  datatype Crossing = Crossing(req: Request, rel: RelationInput)

  function DomainOf(router: Router, count: nat, node: Node): nat { router.DomainFor(node.name, count) }

  /** The relations of `req` whose target lives elsewhere, in order. */
  function CrossingsIn(router: Router, count: nat, home: nat, req: Request, rels: seq<RelationInput>): seq<Crossing> {
    if rels == [] then []
    else
      var rel := rels[|rels| - 1];
      CrossingsIn(router, count, home, req, rels[..|rels| - 1])
      + if DomainOf(router, count, TargetOf(rel)) == home then [] else [Crossing(req, rel)]
  }

  function Crossings(router: Router, count: nat, home: nat, reqs: seq<Request>): seq<Crossing> {
    if reqs == [] then []
    else
      var req := reqs[|reqs| - 1];
      Crossings(router, count, home, reqs[..|reqs| - 1]) + CrossingsIn(router, count, home, req, req.relations)
  }

  datatype FoldKey = FoldKey(lower: string, kind: nat)

  function FoldOf(router: Router, c: Crossing): FoldKey { FoldKey(router.lower(c.rel.targetName), c.rel.targetKind) }

  function StubRequest(c: Crossing): Request {
    Request(c.rel.targetName, c.rel.targetKind, [], [], STUB_SOURCE)
  }

  /** One stub row per folded name and kind, spelled as first met. */
  function StubsFor(router: Router, cs: seq<Crossing>): seq<Request> {
    if cs == [] then []
    else
      var init, last := cs[..|cs| - 1], cs[|cs| - 1];
      StubsFor(router, init) + if FoldOf(router, last) in Folds(router, init) then [] else [StubRequest(last)]
  }

  function Folds(router: Router, cs: seq<Crossing>): set<FoldKey> {
    set c | c in cs :: FoldOf(router, c)
  }

  /** A stub of the origin that relates to the canonical target. */
  function MirrorRequest(c: Crossing): Request {
    Request(c.req.name, c.req.kind, [], [c.rel.(source := SourceFor(c.req, c.rel))], STUB_SOURCE)
  }

  function MirrorsFor(router: Router, count: nat, cs: seq<Crossing>, d: nat): seq<Request> {
    if cs == [] then []
    else
      var last := cs[|cs| - 1];
      MirrorsFor(router, count, cs[..|cs| - 1], d)
      + if DomainOf(router, count, TargetOf(last.rel)) == d then [MirrorRequest(last)] else []
  }

  // ---------------------------------------------------------------------
  // What a group adds to a store, item by item
  // ---------------------------------------------------------------------

  /** `after` is `before` with one group written: one note for each observation, one
      edge for each relation, and a row for the entity and for every target.  Rows that
      were there keep their source; a new one has the source of whoever named it first. */
  ghost predicate GroupWritten(before: Store, req: Request, after: Store) {
    && |after.notes| == |before.notes| + |req.observations| && before.notes <= after.notes
    && (forall i :: 0 <= i < |req.observations| ==>
          after.notes[|before.notes| + i] == Note(Node(req.name, req.kind), req.observations[i]))
    && |after.edges| == |before.edges| + |req.relations| && before.edges <= after.edges
    && (forall j :: 0 <= j < |req.relations| ==>
          var rel := req.relations[j];
          after.edges[|before.edges| + j]
            == EdgeRow(Node(req.name, req.kind), Node(rel.targetName, rel.targetKind), rel.relation,
                       if rel.source == "" then req.source else rel.source))
    && RowsWritten(before.rows, req, |req.relations|, after.rows)
  }

  /** The rows after the entity and the first `n` relations of a group. */
  ghost predicate RowsWritten(before: map<Node, string>, req: Request, n: nat, after: map<Node, string>)
    requires n <= |req.relations|
  {
    var entity := Node(req.name, req.kind);
    && (forall x :: x in before ==> x in after && after[x] == before[x])
    && entity in after && (entity !in before ==> after[entity] == req.source)
    && (forall j :: 0 <= j < n ==> Node(req.relations[j].targetName, req.relations[j].targetKind) in after)
    && (forall x :: x in after && x !in before && x != entity ==>
          exists j :: 0 <= j < n && NamedFirst(req, j, x) && after[x] == EffectiveSource(req, j))
  }

  function EffectiveSource(req: Request, j: nat): string
    requires j < |req.relations|
  {
    if req.relations[j].source == "" then req.source else req.relations[j].source
  }

  /** Relation `j` is the first of the group that names `x`. */
  ghost predicate NamedFirst(req: Request, j: nat, x: Node)
    requires j < |req.relations|
  {
    && Node(req.relations[j].targetName, req.relations[j].targetKind) == x
    && forall i :: 0 <= i < j ==> Node(req.relations[i].targetName, req.relations[i].targetKind) != x
  }

  /** `after` is `before` with the groups written one after the other. */
  ghost predicate BatchWritten(before: Store, reqs: seq<Request>, after: Store) {
    exists states: seq<Store> :: Chain(before, reqs, after, states)
  }

  ghost predicate Chain(before: Store, reqs: seq<Request>, after: Store, states: seq<Store>) {
    && |states| == |reqs| + 1 && states[0] == before && states[|reqs|] == after
    && forall i :: 0 <= i < |reqs| ==> GroupWritten(states[i], reqs[i], states[i + 1])
  }

  lemma {:induction false} NotesWritten(s: Store, req: Request, n: nat)
    requires n <= |req.observations|
    ensures
      var r := Perform(s, NoteEvents(req, req.observations[..n]));
      && r.rows == s.rows && r.edges == s.edges && |r.notes| == |s.notes| + n && s.notes <= r.notes
      && forall i :: 0 <= i < n ==> r.notes[|s.notes| + i] == Note(Node(req.name, req.kind), req.observations[i])
    decreases n
  {
    if n > 0 {
      NotesWritten(s, req, n - 1);
      assert req.observations[..n][..n - 1] == req.observations[..n - 1];
      PerformSnoc(s, NoteEvents(req, req.observations[..n - 1]), Observe(Note(NodeOf(req), req.observations[n - 1])));
    }
  }

  lemma {:induction false} RelationsWritten(s: Store, rows: map<Node, string>, req: Request, n: nat)
    requires n <= |req.relations| && RowsWritten(rows, req, 0, s.rows)
    ensures
      var r := Perform(s, RelationEvents(req, req.relations[..n]));
      && r.notes == s.notes && |r.edges| == |s.edges| + n && s.edges <= r.edges
      && (forall j :: 0 <= j < n ==>
            var rel := req.relations[j];
            r.edges[|s.edges| + j]
              == EdgeRow(Node(req.name, req.kind), Node(rel.targetName, rel.targetKind), rel.relation,
                         if rel.source == "" then req.source else rel.source))
      && RowsWritten(rows, req, n, r.rows)
    decreases n
  {
    hide RowsWritten, Perform;
    if n > 0 {
      var rel := req.relations[n - 1];
      RelationsWritten(s, rows, req, n - 1);
      assert req.relations[..n][..n - 1] == req.relations[..n - 1];
      var done := RelationEvents(req, req.relations[..n - 1]);
      var touch, link := Touch(TargetOf(rel), SourceFor(req, rel)), Relate(EdgeFor(req, rel));
      PerformSnoc(s, done, touch);
      PerformSnoc(s, done + [touch], link);
      assert RelationEvents(req, req.relations[..n]) == done + [touch] + [link];
      TargetWritten(rows, req, n - 1, Perform(s, done), SourceFor(req, rel));
    } else {
      assert req.relations[..0] == [];
      PerformNone(s);
    }
  }

  lemma {:induction false} PerformNone(s: Store)
    ensures Perform(s, []) == s
  {
  }

  lemma {:induction false} TargetWritten(rows: map<Node, string>, req: Request, n: nat, s: Store, source: string)
    requires n < |req.relations| && RowsWritten(rows, req, n, s.rows) && source == EffectiveSource(req, n)
    ensures RowsWritten(rows, req, n + 1, Do(s, Touch(TargetOf(req.relations[n]), source)).rows)
  {
    var target, after := TargetOf(req.relations[n]), Do(s, Touch(TargetOf(req.relations[n]), source)).rows;
    var entity := Node(req.name, req.kind);
    forall x | x in after && x !in rows && x != entity
      ensures exists j :: 0 <= j < n + 1 && NamedFirst(req, j, x) && after[x] == EffectiveSource(req, j)
    {
      if x in s.rows {
        var j :| 0 <= j < n && NamedFirst(req, j, x) && s.rows[x] == EffectiveSource(req, j);
        assert j < n + 1;
      } else {
        assert x == target && NamedFirst(req, n, x);
      }
    }
  }

  /** One group adds what it says, in its order, and nothing else. */
  lemma {:induction false} GroupWrites(s: Store, req: Request)
    ensures GroupWritten(s, req, Perform(s, GroupEvents(req)))
  {
    hide RowsWritten, Perform;
    var touch := [Touch(NodeOf(req), req.source)];
    var notes, rels := NoteEvents(req, req.observations), RelationEvents(req, req.relations);
    assert req.observations[..|req.observations|] == req.observations;
    assert req.relations[..|req.relations|] == req.relations;
    PerformAppend(s, touch, notes);
    PerformAppend(s, touch + notes, rels);
    PerformOne(s, touch[0]);
    EntityWritten(s, req);
    NotesWritten(Perform(s, touch), req, |req.observations|);
    RelationsWritten(Perform(s, touch + notes), s.rows, req, |req.relations|);
  }

  lemma {:induction false} EntityWritten(s: Store, req: Request)
    ensures RowsWritten(s.rows, req, 0, Do(s, Touch(NodeOf(req), req.source)).rows)
  {
  }

  /** A batch adds what its groups say, one after the other. */
  lemma {:induction false} BatchWrites(s: Store, reqs: seq<Request>)
    ensures BatchWritten(s, reqs, Perform(s, BatchEvents(reqs)))
  {
    var states := BatchStates(s, reqs);
    assert Chain(s, reqs, Perform(s, BatchEvents(reqs)), states);
  }

  lemma {:induction false} BatchStates(s: Store, reqs: seq<Request>) returns (states: seq<Store>)
    ensures Chain(s, reqs, Perform(s, BatchEvents(reqs)), states)
    decreases |reqs|
  {
    hide GroupEvents, GroupWritten;
    if reqs == [] {
      states := [s];
    } else {
      var n := |reqs| - 1;
      states := BatchStates(s, reqs[..n]);
      PerformAppend(s, BatchEvents(reqs[..n]), GroupEvents(reqs[n]));
      GroupWrites(states[n], reqs[n]);
      states := states + [Perform(s, BatchEvents(reqs))];
    }
  }

  // ---------------------------------------------------------------------
  // Methods
  // ---------------------------------------------------------------------

  method EnsureEntity(s: Store, node: Node, source: string) returns (r: Store)
    ensures r == Do(s, Touch(node, source))
    ensures node in r.rows && (forall x :: x in s.rows ==> x in r.rows && r.rows[x] == s.rows[x])
    ensures node !in s.rows ==> r.rows[node] == source && r.rows.Keys == s.rows.Keys + {node}
    ensures r.notes == s.notes && r.edges == s.edges
  {
    r := s;
    if node !in r.rows {
      r := r.(rows := r.rows[node := source]);
    }
  }

  /** One entity group inside the transaction. */
  method WriteGroup(s: Store, req: Request) returns (r: Store)
    ensures r == Perform(s, GroupEvents(req)) && GroupWritten(s, req, r)
  {
    hide Do, Perform, NoteEvents, RelationEvents, GroupWritten;
    GroupWrites(s, req);
    r := EnsureEntity(s, NodeOf(req), req.source);
    PerformOne(s, Touch(NodeOf(req), req.source));
    r := WriteNotes(r, req);
    PerformAppend(s, [Touch(NodeOf(req), req.source)], NoteEvents(req, req.observations));
    r := WriteRelations(r, req);
    PerformAppend(s, [Touch(NodeOf(req), req.source)] + NoteEvents(req, req.observations),
                  RelationEvents(req, req.relations));
  }

  method WriteNotes(s: Store, req: Request) returns (r: Store)
    ensures r == Perform(s, NoteEvents(req, req.observations))
  {
    hide Do;
    r := s;
    var i := 0;
    while i < |req.observations|
      invariant i <= |req.observations|
      invariant r == Perform(s, NoteEvents(req, req.observations[..i]))
    {
      ghost var done := NoteEvents(req, req.observations[..i]);
      ghost var ev := Observe(Note(NodeOf(req), req.observations[i]));
      r := r.(notes := r.notes + [Note(NodeOf(req), req.observations[i])]);
      PerformSnoc(s, done, ev);
      Appended(Perform(s, done), ev);
      assert req.observations[..i + 1][..i] == req.observations[..i];
      i := i + 1;
    }
    assert req.observations[..i] == req.observations;
  }

  method WriteRelations(s: Store, req: Request) returns (r: Store)
    ensures r == Perform(s, RelationEvents(req, req.relations))
  {
    hide Do;
    r := s;
    var j := 0;
    while j < |req.relations|
      invariant j <= |req.relations|
      invariant r == Perform(s, RelationEvents(req, req.relations[..j]))
    {
      var rel := req.relations[j];
      ghost var done := RelationEvents(req, req.relations[..j]);
      var source := if rel.source == "" then req.source else rel.source;
      r := EnsureEntity(r, TargetOf(rel), source);
      PerformSnoc(s, done, Touch(TargetOf(rel), source));
      r := r.(edges := r.edges + [EdgeRow(NodeOf(req), TargetOf(rel), rel.relation, source)]);
      PerformSnoc(s, done + [Touch(TargetOf(rel), source)], Relate(EdgeFor(req, rel)));
      Appended(Perform(s, done + [Touch(TargetOf(rel), source)]), Relate(EdgeFor(req, rel)));
      assert req.relations[..j + 1][..j] == req.relations[..j];
      assert done + [Touch(TargetOf(rel), source)] + [Relate(EdgeFor(req, rel))]
          == RelationEvents(req, req.relations[..j + 1]);
      j := j + 1;
    }
    assert req.relations[..j] == req.relations;
  }

  lemma {:induction false} Appended(s: Store, ev: Event)
    requires !ev.Touch?
    ensures Do(s, ev) == if ev.Observe? then s.(notes := s.notes + [ev.note]) else s.(edges := s.edges + [ev.edge])
  {
  }

  /** A batch is one transaction: all of it, or nothing.  The caller gets an error for
      a batch that is rolled back, and for one that is committed but cannot be marked
      in the index tables afterwards; an empty batch needs no mark. */
  method RememberBatch(s: Store, reqs: seq<Request>, verdict: Verdict) returns (r: Store, ok: bool)
    ensures r == if verdict == RolledBack then s else Perform(s, BatchEvents(reqs))
    ensures verdict != RolledBack ==> BatchWritten(s, reqs, r)
    ensures ok <==> verdict == Committed || (verdict == LateError && reqs == [])
  {
    hide GroupEvents, GroupWritten, BatchWritten;
    BatchWrites(s, reqs);
    r := s;
    var i := 0;
    while i < |reqs|
      invariant i <= |reqs|
      invariant r == Perform(s, BatchEvents(reqs[..i]))
    {
      r := WriteGroup(r, reqs[i]);
      PerformAppend(s, BatchEvents(reqs[..i]), GroupEvents(reqs[i]));
      assert reqs[..i + 1][..i] == reqs[..i];
      i := i + 1;
    }
    assert reqs[..i] == reqs;
    if verdict == RolledBack {
      return s, false;
    }
    ok := reqs == [] || verdict == Committed;
  }

  lemma {:induction false} PerformOne(s: Store, ev: Event)
    ensures Perform(s, [ev]) == Do(s, ev)
  {
    assert [ev][..0] == [];
  }

  lemma {:induction false} PerformSnoc(s: Store, events: seq<Event>, ev: Event)
    ensures Perform(s, events + [ev]) == Do(Perform(s, events), ev)
  {
    assert (events + [ev])[..|events|] == events;
  }

  lemma {:induction false} PerformAppend(s: Store, a: seq<Event>, b: seq<Event>)
    ensures Perform(s, a + b) == Perform(Perform(s, a), b)
    decreases |b|
  {
    if b == [] {
      assert a + b == a;
    } else {
      var init, last := b[..|b| - 1], b[|b| - 1];
      assert a + b == (a + init) + [last] && b == init + [last];
      PerformAppend(s, a, init);
      PerformSnoc(s, a + init, last);
    }
  }

  /** Splits a batch into stub rows for the home domain and one mirror batch for
      each domain an edge leads to. */
  method PlanBatch(router: Router, count: nat, home: nat, reqs: seq<Request>)
    returns (stubs: seq<Request>, mirrors: map<nat, seq<Request>>)
    requires count > 1
    ensures stubs == StubsFor(router, Crossings(router, count, home, reqs))
    ensures forall d :: MirrorsFor(router, count, Crossings(router, count, home, reqs), d)
                     == if d in mirrors then mirrors[d] else []
    ensures home !in mirrors && forall d :: d in mirrors ==> d < count
  {
    hide StubsFor, MirrorsFor, Crossings, CrossingsIn, Folds;
    stubs, mirrors := [], map[];
    var seen: set<FoldKey> := {};
    var i := 0;
    PlanNothing(router, count, home);
    assert reqs[..0] == [];
    while i < |reqs|
      invariant i <= |reqs|
      invariant PlannedFor(router, count, home, Crossings(router, count, home, reqs[..i]), seen, stubs, mirrors)
    {
      var req := reqs[i];
      ghost var before := Crossings(router, count, home, reqs[..i]);
      var j := 0;
      CrossingsStep(router, count, home, reqs, i, 0);
      while j < |req.relations|
        invariant j <= |req.relations|
        invariant PlannedFor(router, count, home, before + CrossingsIn(router, count, home, req, req.relations[..j]),
                             seen, stubs, mirrors)
      {
        var rel := req.relations[j];
        CrossingsStep(router, count, home, reqs, i, j);
        ghost var cs := before + CrossingsIn(router, count, home, req, req.relations[..j]);
        var target := router.DomainFor(rel.targetName, count);
        if target != home {
          PlanOne(router, count, home, cs, Crossing(req, rel), seen, stubs, mirrors);
          var key := FoldKey(router.lower(rel.targetName), rel.targetKind);
          ghost var was := stubs;
          if key !in seen {
            stubs := stubs + [Request(rel.targetName, rel.targetKind, [], [], STUB_SOURCE)];
          }
          assert stubs == was + if key in seen then [] else [StubRequest(Crossing(req, rel))];
          seen := seen + {key};
          var mirrorRel := rel;
          if mirrorRel.source == "" {
            mirrorRel := mirrorRel.(source := req.source);
          }
          var mirror := Request(req.name, req.kind, [], [mirrorRel], STUB_SOURCE);
          mirrors := mirrors[target := (if target in mirrors then mirrors[target] else []) + [mirror]];
          assert cs + [Crossing(req, rel)] == before + CrossingsIn(router, count, home, req, req.relations[..j + 1]);
        } else {
          assert cs == before + CrossingsIn(router, count, home, req, req.relations[..j + 1]);
        }
        j := j + 1;
      }
      CrossingsStep(router, count, home, reqs, i, j);
      i := i + 1;
    }
    assert reqs[..i] == reqs;
  }

  ghost predicate PlannedFor(router: Router, count: nat, home: nat, cs: seq<Crossing>, seen: set<FoldKey>,
                             stubs: seq<Request>, mirrors: map<nat, seq<Request>>) {
    && seen == Folds(router, cs)
    && stubs == StubsFor(router, cs)
    && (forall d :: MirrorsFor(router, count, cs, d) == if d in mirrors then mirrors[d] else [])
    && home !in mirrors && forall d :: d in mirrors ==> d < count
  }

  lemma {:induction false} PlanNothing(router: Router, count: nat, home: nat)
    ensures PlannedFor(router, count, home, [], {}, [], map[]) && Crossings(router, count, home, []) == []
  {
  }

  lemma {:induction false} PlanOne(router: Router, count: nat, home: nat, cs: seq<Crossing>, c: Crossing,
      seen: set<FoldKey>, stubs: seq<Request>, mirrors: map<nat, seq<Request>>)
    requires count > 1 && PlannedFor(router, count, home, cs, seen, stubs, mirrors)
    requires DomainOf(router, count, TargetOf(c.rel)) != home
    ensures
      var target := DomainOf(router, count, TargetOf(c.rel));
      PlannedFor(router, count, home, cs + [c], seen + {FoldOf(router, c)},
        stubs + if FoldOf(router, c) in seen then [] else [StubRequest(c)],
        mirrors[target := (if target in mirrors then mirrors[target] else []) + [MirrorRequest(c)]])
  {
    hide FoldOf, MirrorRequest, StubRequest, Folds, StubsFor, MirrorsFor;
    FoldsSnoc(router, cs, c);
    forall d
      ensures MirrorsFor(router, count, cs + [c], d)
           == MirrorsFor(router, count, cs, d) + if DomainOf(router, count, TargetOf(c.rel)) == d
             then [MirrorRequest(c)] else []
    {
      MirrorsSnoc(router, count, cs, c, d);
    }
  }

  lemma {:induction false} FoldsSnoc(router: Router, cs: seq<Crossing>, c: Crossing)
    ensures Folds(router, cs + [c]) == Folds(router, cs) + {FoldOf(router, c)}
    ensures StubsFor(router, cs + [c]) == StubsFor(router, cs) + if FoldOf(router, c) in Folds(router, cs) then []
        else [StubRequest(c)]
  {
    assert (cs + [c])[..|cs|] == cs;
    assert forall x :: x in cs + [c] <==> x in cs || x == c;
  }

  lemma {:induction false} MirrorsSnoc(router: Router, count: nat, cs: seq<Crossing>, c: Crossing, d: nat)
    ensures MirrorsFor(router, count, cs + [c], d)
         == MirrorsFor(router, count, cs, d) + if DomainOf(router, count, TargetOf(c.rel)) == d
           then [MirrorRequest(c)] else []
  {
    assert (cs + [c])[..|cs|] == cs;
  }

  lemma {:induction false} CrossingsStep(router: Router, count: nat, home: nat, reqs: seq<Request>, i: nat, j: nat)
    requires i < |reqs| && j <= |reqs[i].relations|
    ensures
      var req := reqs[i];
      var before := Crossings(router, count, home, reqs[..i]);
      && (j == 0 ==> before + CrossingsIn(router, count, home, req, req.relations[..0]) == before)
      && (j < |req.relations| ==>
           CrossingsIn(router, count, home, req, req.relations[..j + 1])
             == CrossingsIn(router, count, home, req, req.relations[..j])
           + if DomainOf(router, count, TargetOf(req.relations[j])) == home then []
             else [Crossing(req, req.relations[j])])
      && (j == |req.relations| ==>
           Crossings(router, count, home, reqs[..i + 1])
             == before + CrossingsIn(router, count, home, req, req.relations[..j]))
  {
    var req := reqs[i];
    assert reqs[..i + 1][..i] == reqs[..i];
    if j < |req.relations| {
      assert req.relations[..j + 1][..j] == req.relations[..j];
    } else {
      assert req.relations[..j] == req.relations;
    }
  }
}
