/** The facade's recall cache as an interleaving of writers and readers.

    A write commits to one domain after another and then bumps the write version; a
    recall loads the version, looks the key up, and on a miss searches the domains
    one by one and stores the merged answer under the version it loaded.  Any two of
    these steps may have steps of other threads between them. */
module RecallCache {
  import opened FanOut
  import opened Prelude

  datatype Hit = Hit(id: nat, score: int)

  datatype Query = Query(text: string, topK: nat, filters: nat)

  /** How a domain answers a query, as a function of how many commits it has seen. */
  type Search = (Query, nat, nat) -> seq<Hit>

  /** The stored answer, and (as history) the commits of each domain it was computed from. */
  datatype Entry = Entry(version: nat, results: seq<Hit>, view: seq<nat>)

  datatype Reader =
    | Begun(query: Query, floor: seq<nat>)
    | Loaded(query: Query, floor: seq<nat>, version: nat)
    | Searching(query: Query, floor: seq<nat>, version: nat, lists: seq<seq<Hit>>, view: seq<nat>)
    | Returned(query: Query, floor: seq<nat>, results: seq<Hit>, view: seq<nat>)

  /** `bumped[v]` is, per domain, the number of commits that belong to writes which
      had bumped the version when it reached `v`.  A write in progress is the
      commits it has made so far. */
  datatype State = State(
    commits: seq<nat>,
    bumped: seq<seq<nat>>,
    writers: map<nat, seq<nat>>,
    readers: map<nat, Reader>,
    cache: map<Query, Entry>)
  {
    function Version(): int { |bumped| - 1 }
  }

  datatype Op =
    | StartWrite(w: nat)
    | Commit(w: nat, domain: nat)
    | Bump(w: nat)
    | FailWrite(w: nat)
    | Begin(r: nat, query: Query)
    | Load(r: nat)
    | Lookup(r: nat, alive: bool)
    | SearchNext(r: nat)
    | Insert(r: nat)
    | Evict(query: Query)

  predicate Enabled(s: State, op: Op) {
    match op
    case StartWrite(w) => w !in s.writers
    case Commit(w, d) => w in s.writers && d < |s.commits| && |s.writers[w]| == |s.commits|
    case Bump(w) => w in s.writers && |s.bumped| > 0 && |s.writers[w]| == |s.commits| == |s.bumped[|s.bumped| - 1]|
    case FailWrite(w) => w in s.writers
    case Begin(r, _) => |s.bumped| > 0 && (r in s.readers ==> s.readers[r].Returned?)
    case Load(r) => r in s.readers && s.readers[r].Begun? && |s.bumped| > 0
    case Lookup(r, _) => r in s.readers && s.readers[r].Loaded?
    case SearchNext(r) => r in s.readers && s.readers[r].Searching? && |s.readers[r].view| < |s.commits|
    case Insert(r) => r in s.readers && s.readers[r].Searching? && |s.readers[r].view| == |s.commits|
    case Evict(q) => q in s.cache
  }

  function Pointwise(a: seq<nat>, b: seq<nat>): (c: seq<nat>)
    requires |a| == |b|
    ensures |c| == |a|
  {
    seq(|a|, d requires 0 <= d < |a| => Max(a[d], b[d]))
  }

  /** What the fan-out returns for domain answers `lists`. */
  function Answer(lists: seq<seq<Hit>>, topK: nat): seq<Hit> {
    Take(Sort((h: Hit) => h.score, Concat(lists)), if topK == 0 then 1 else topK)
  }

  /** What the domains answer at the commits of `view`. */
  function Lists(search: Search, query: Query, view: seq<nat>): seq<seq<Hit>> {
    if view == [] then []
    else Lists(search, query, view[..|view| - 1]) + [search(query, |view| - 1, view[|view| - 1])]
  }

  // ---------------------------------------------------------------------
  // What an answer is, hit by hit
  // ---------------------------------------------------------------------

  /** `results` are the hits at `picks`, none twice, highest score first and equal scores
      in the order of the domains; as many as were asked for, at least one, or all there
      are; and no hit that is left out belongs before any of them. */
  ghost predicate BestAt(answers: seq<seq<Hit>>, topK: nat, results: seq<Hit>, picks: seq<(nat, nat)>) {
    var limit := if topK == 0 then 1 else topK;
    && |picks| == |results| <= limit
    && (forall i :: 0 <= i < |picks| ==>
          && picks[i].0 < |answers| && picks[i].1 < |answers[picks[i].0]|
          && results[i] == answers[picks[i].0][picks[i].1])
    && (forall i, j :: 0 <= i < j < |results| ==>
          || results[i].score > results[j].score
          || (results[i].score == results[j].score && Earlier(picks[i], picks[j])))
    && forall d: nat, n: nat :: d < |answers| && n < |answers[d]| && (d, n) !in picks ==>
         && |results| == limit
         && forall i :: 0 <= i < |results| ==>
              || results[i].score > answers[d][n].score
              || (results[i].score == answers[d][n].score && Earlier(picks[i], (d, n)))
  }

  ghost predicate Best(answers: seq<seq<Hit>>, topK: nat, results: seq<Hit>) {
    exists picks: seq<(nat, nat)> :: BestAt(answers, topK, results, picks)
  }

  /** The best of what each domain answers after the commits of `view`. */
  ghost predicate Reflects(search: Search, query: Query, view: seq<nat>, results: seq<Hit>) {
    exists answers: seq<seq<Hit>> :: AnswersAt(search, query, view, answers) && Best(answers, query.topK, results)
  }

  ghost predicate AnswersAt(search: Search, query: Query, view: seq<nat>, answers: seq<seq<Hit>>) {
    |answers| == |view| && forall d :: 0 <= d < |view| ==> answers[d] == search(query, d, view[d])
  }

  lemma {:induction false} ListsAt(search: Search, query: Query, view: seq<nat>)
    ensures AnswersAt(search, query, view, Lists(search, query, view))
    decreases |view|
  {
    if view != [] {
      ListsAt(search, query, view[..|view| - 1]);
    }
  }

  lemma {:induction false} AnswerIsBest(lists: seq<seq<Hit>>, topK: nat)
    ensures Best(lists, topK, Answer(lists, topK))
  {
    hide Sort, Concat, Take;
    var rank, limit := (h: Hit) => h.score, if topK == 0 then 1 else topK;
    var picks := TopIsBest(rank, lists, limit);
    var results := Answer(lists, topK);
    assert results == Take(Sort(rank, Concat(lists)), limit);
    forall d: nat, n: nat | d < |lists| && n < |lists[d]| && (d, n) !in picks
      ensures |results| == limit
      ensures forall i :: 0 <= i < |results| ==>
        || results[i].score > lists[d][n].score
        || (results[i].score == lists[d][n].score && Earlier(picks[i], (d, n)))
    {
      assert IsSpot(lists, (d, n));
    }
    assert BestAt(lists, topK, results, picks);
  }

  lemma {:induction false} AnswerReflects(search: Search, query: Query, view: seq<nat>)
    ensures Reflects(search, query, view, Answer(Lists(search, query, view), query.topK))
  {
    hide Answer, Lists, Best;
    ListsAt(search, query, view);
    AnswerIsBest(Lists(search, query, view), query.topK);
  }

  function Apply(search: Search, s: State, op: Op): State
    requires Enabled(s, op)
  {
    match op
    case StartWrite(w) =>
      s.(writers := s.writers[w := seq(|s.commits|, _ => 0)])
    case Commit(w, d) =>
      var n := s.commits[d] + 1;
      s.(commits := s.commits[d := n], writers := s.writers[w := s.writers[w][d := n]])
    case Bump(w) =>
      s.(bumped := s.bumped + [Pointwise(s.bumped[|s.bumped| - 1], s.writers[w])], writers := s.writers - {w})
    case FailWrite(w) =>
      s.(writers := s.writers - {w})
    case Begin(r, query) =>
      s.(readers := s.readers[r := Begun(query, s.bumped[|s.bumped| - 1])])
    case Load(r) =>
      var Begun(query, floor) := s.readers[r];
      s.(readers := s.readers[r := Loaded(query, floor, |s.bumped| - 1)])
    case Lookup(r, alive) =>
      var Loaded(query, floor, version) := s.readers[r];
      if query in s.cache && s.cache[query].version == version && alive then
        s.(readers := s.readers[r := Returned(query, floor, s.cache[query].results, s.cache[query].view)])
      else
        s.(cache := s.cache - {query}, readers := s.readers[r := Searching(query, floor, version, [], [])])
    case SearchNext(r) =>
      var Searching(query, floor, version, lists, view) := s.readers[r];
      var d := |view|;
      s.(readers := s.readers[r := Searching(query, floor, version,
        lists + [search(query, d, s.commits[d])], view + [s.commits[d]])])
    case Insert(r) =>
      var Searching(query, floor, version, lists, view) := s.readers[r];
      var merged := Answer(lists, query.topK);
      s.(cache := s.cache[query := Entry(version, merged, view)],
         readers := s.readers[r := Returned(query, floor, merged, view)])
    case Evict(query) =>
      s.(cache := s.cache - {query})
  }

  /** A facade over `count` domains with nothing written yet. */
  function Fresh(count: nat): State {
    State(seq(count, _ => 0), [seq(count, _ => 0)], map[], map[], map[])
  }

  // ---------------------------------------------------------------------
  // The invariant
  // ---------------------------------------------------------------------

  /** `a` covers `b`, domain by domain. */
  ghost predicate Covers(a: seq<nat>, b: seq<nat>) {
    |a| == |b| && forall d :: 0 <= d < |a| ==> a[d] >= b[d]
  }

  /** The first domains are covered. */
  ghost predicate CoversPart(a: seq<nat>, b: seq<nat>) {
    |a| <= |b| && forall d :: 0 <= d < |a| ==> a[d] >= b[d]
  }

  ghost predicate EntryOk(search: Search, s: State, query: Query, e: Entry) {
    && e.version < |s.bumped|
    && Covers(e.view, s.bumped[e.version]) && Covers(s.commits, e.view)
    && e.results == Answer(Lists(search, query, e.view), query.topK)
  }

  ghost predicate ReaderOk(search: Search, s: State, r: Reader) {
    match r
    case Begun(_, floor) => |s.bumped| > 0 && Covers(s.bumped[|s.bumped| - 1], floor)
    case Loaded(_, floor, version) => version < |s.bumped| && Covers(s.bumped[version], floor)
    case Searching(query, floor, version, lists, view) =>
      && version < |s.bumped| && Covers(s.bumped[version], floor)
      && CoversPart(view, s.bumped[version])
      && |view| <= |s.commits| && (forall d :: 0 <= d < |view| ==> view[d] <= s.commits[d])
      && lists == Lists(search, query, view)
    case Returned(query, floor, results, view) =>
      Covers(view, floor) && results == Answer(Lists(search, query, view), query.topK)
  }

  ghost predicate Inv(search: Search, s: State) {
    && |s.bumped| > 0
    && (forall v :: 0 <= v < |s.bumped| ==> Covers(s.commits, s.bumped[v]))
    && (forall v, w :: 0 <= v <= w < |s.bumped| ==> Covers(s.bumped[w], s.bumped[v]))
    && (forall w :: w in s.writers ==> Covers(s.commits, s.writers[w]))
    && (forall q :: q in s.cache ==> EntryOk(search, s, q, s.cache[q]))
    && (forall r :: r in s.readers ==> ReaderOk(search, s, s.readers[r]))
  }

  lemma {:induction false} CoversTrans(a: seq<nat>, b: seq<nat>, c: seq<nat>)
    requires Covers(a, b) && Covers(b, c)
    ensures Covers(a, c)
  {
  }

  lemma {:induction false} WriterInv(search: Search, s: State, op: Op)
    requires Inv(search, s) && Enabled(s, op)
    requires op.StartWrite? || op.Commit? || op.FailWrite?
    ensures Inv(search, Apply(search, s, op))
  {
    hide Answer, Lists;
    var n := Apply(search, s, op);
    assert n.bumped == s.bumped && n.cache == s.cache && n.readers == s.readers;
    assert Covers(n.commits, s.commits);
    forall v | 0 <= v < |n.bumped| ensures Covers(n.commits, n.bumped[v]) {
      CoversTrans(n.commits, s.commits, s.bumped[v]);
    }
    forall w | w in n.writers ensures Covers(n.commits, n.writers[w]) {
      if w in s.writers {
        CoversTrans(n.commits, s.commits, s.writers[w]);
      }
    }
    forall q | q in n.cache ensures EntryOk(search, n, q, n.cache[q]) {
      assert EntryOk(search, s, q, s.cache[q]);
      CoversTrans(n.commits, s.commits, s.cache[q].view);
    }
    forall r | r in n.readers ensures ReaderOk(search, n, n.readers[r]) {
      assert ReaderOk(search, s, s.readers[r]);
    }
  }

  lemma {:induction false} BumpInv(search: Search, s: State, w: nat)
    requires Inv(search, s) && Enabled(s, Bump(w))
    ensures Inv(search, Apply(search, s, Bump(w)))
  {
    hide Answer, Lists;
    var n := Apply(search, s, Bump(w));
    var last, next := s.bumped[|s.bumped| - 1], n.bumped[|s.bumped|];
    assert Covers(s.commits, last) && Covers(s.commits, s.writers[w]);
    assert Covers(next, last) && Covers(n.commits, next);
    forall v, x | 0 <= v <= x < |n.bumped| ensures Covers(n.bumped[x], n.bumped[v]) {
      if x == |s.bumped| && v < x {
        CoversTrans(next, last, s.bumped[v]);
      }
    }
    forall q | q in n.cache ensures EntryOk(search, n, q, n.cache[q]) {
      assert EntryOk(search, s, q, s.cache[q]);
    }
    forall r | r in n.readers ensures ReaderOk(search, n, n.readers[r]) {
      assert ReaderOk(search, s, s.readers[r]);
      if n.readers[r].Begun? {
        CoversTrans(next, last, n.readers[r].floor);
      }
    }
  }

  lemma {:induction false} ReaderInv(search: Search, s: State, op: Op)
    requires Inv(search, s) && Enabled(s, op)
    requires op.Begin? || op.Load? || op.Evict?
    ensures Inv(search, Apply(search, s, op))
  {
    hide Answer, Lists;
    var n := Apply(search, s, op);
    forall q | q in n.cache ensures EntryOk(search, n, q, n.cache[q]) {
      assert EntryOk(search, s, q, s.cache[q]);
    }
    forall r | r in n.readers ensures ReaderOk(search, n, n.readers[r]) {
      assert r in s.readers ==> ReaderOk(search, s, s.readers[r]);
    }
  }

  lemma {:induction false} SearchInv(search: Search, s: State, r: nat)
    requires Inv(search, s) && Enabled(s, SearchNext(r))
    ensures Inv(search, Apply(search, s, SearchNext(r)))
  {
    hide Answer, Lists;
    var n := Apply(search, s, SearchNext(r));
    var Searching(query, floor, version, lists, view) := s.readers[r];
    assert ReaderOk(search, s, s.readers[r]);
    assert Covers(s.commits, s.bumped[version]);
    ListsSnoc(search, query, view, s.commits[|view|]);
    forall q | q in n.cache ensures EntryOk(search, n, q, n.cache[q]) {
      assert EntryOk(search, s, q, s.cache[q]);
    }
    forall x | x in n.readers ensures ReaderOk(search, n, n.readers[x]) {
      assert ReaderOk(search, s, s.readers[x]);
    }
  }

  lemma {:induction false} ListsSnoc(search: Search, query: Query, view: seq<nat>, at: nat)
    ensures Lists(search, query, view + [at]) == Lists(search, query, view) + [search(query, |view|, at)]
  {
    assert (view + [at])[..|view|] == view;
  }

  lemma {:induction false} LookupInv(search: Search, s: State, r: nat, alive: bool)
    requires Inv(search, s) && Enabled(s, Lookup(r, alive))
    ensures Inv(search, Apply(search, s, Lookup(r, alive)))
  {
    hide Answer;
    var n := Apply(search, s, Lookup(r, alive));
    var Loaded(query, floor, version) := s.readers[r];
    forall q | q in n.cache ensures EntryOk(search, n, q, n.cache[q]) {
      assert EntryOk(search, s, q, s.cache[q]);
    }
    forall x | x in n.readers ensures ReaderOk(search, n, n.readers[x]) {
      assert ReaderOk(search, s, s.readers[x]);
      if x == r && n.readers[x].Returned? {
        assert EntryOk(search, s, query, s.cache[query]);
        CoversTrans(s.cache[query].view, s.bumped[version], floor);
      }
    }
  }

  lemma {:induction false} InsertInv(search: Search, s: State, r: nat)
    requires Inv(search, s) && Enabled(s, Insert(r))
    ensures Inv(search, Apply(search, s, Insert(r)))
  {
    hide Answer;
    var n := Apply(search, s, Insert(r));
    var Searching(query, floor, version, lists, view) := s.readers[r];
    assert ReaderOk(search, s, s.readers[r]);
    assert Covers(s.commits, s.bumped[version]);
    forall q | q in n.cache ensures EntryOk(search, n, q, n.cache[q]) {
      if q != query {
        assert EntryOk(search, s, q, s.cache[q]);
      }
    }
    forall x | x in n.readers ensures ReaderOk(search, n, n.readers[x]) {
      assert ReaderOk(search, s, s.readers[x]);
      if x == r {
        CoversTrans(view, s.bumped[version], floor);
      }
    }
  }

  lemma {:induction false} StepInv(search: Search, s: State, op: Op)
    requires Inv(search, s) && Enabled(s, op)
    ensures Inv(search, Apply(search, s, op))
  {
    hide Inv, Apply;
    match op
    case Bump(w) => BumpInv(search, s, w);
    case Lookup(r, alive) => LookupInv(search, s, r, alive);
    case Insert(r) => InsertInv(search, s, r);
    case SearchNext(r) => SearchInv(search, s, r);
    case StartWrite(_) => WriterInv(search, s, op);
    case Commit(_, _) => WriterInv(search, s, op);
    case FailWrite(_) => WriterInv(search, s, op);
    case _ => ReaderInv(search, s, op);
  }

  // ---------------------------------------------------------------------
  // Runs
  // ---------------------------------------------------------------------

  ghost predicate Legal(search: Search, s: State, ops: seq<Op>)
    decreases |ops|, 0
  {
    ops == [] || (Legal(search, s, ops[..|ops| - 1]) && Enabled(Final(search, s, ops[..|ops| - 1]), ops[|ops| - 1]))
  }

  ghost function Final(search: Search, s: State, ops: seq<Op>): State
    requires Legal(search, s, ops)
    decreases |ops|, 1
  {
    if ops == [] then s else Apply(search, Final(search, s, ops[..|ops| - 1]), ops[|ops| - 1])
  }

  lemma {:induction false} RunInv(search: Search, count: nat, ops: seq<Op>)
    requires Legal(search, Fresh(count), ops)
    ensures Inv(search, Final(search, Fresh(count), ops))
    decreases |ops|
  {
    hide Inv, Apply;
    if ops == [] {
      FreshInv(search, count);
    } else {
      RunInv(search, count, ops[..|ops| - 1]);
      StepInv(search, Final(search, Fresh(count), ops[..|ops| - 1]), ops[|ops| - 1]);
    }
  }

  lemma {:induction false} FreshInv(search: Search, count: nat)
    ensures Inv(search, Fresh(count))
  {
  }

  lemma {:induction false} LegalPrefix(search: Search, s: State, a: seq<Op>, b: seq<Op>)
    requires Legal(search, s, a + b)
    ensures Legal(search, s, a)
    decreases |b|
  {
    hide Apply, Enabled;
    if b == [] {
      assert a + b == a;
    } else {
      assert (a + b)[..|a + b| - 1] == a + b[..|b| - 1];
      LegalPrefix(search, s, a, b[..|b| - 1]);
    }
  }

  lemma {:induction false} StepAppended(search: Search, s: State, a: seq<Op>, b: seq<Op>)
    requires Legal(search, s, a + b) && b != []
    ensures Legal(search, s, a + b[..|b| - 1]) && Enabled(Final(search, s, a + b[..|b| - 1]), b[|b| - 1])
    ensures Final(search, s, a + b) == Apply(search, Final(search, s, a + b[..|b| - 1]), b[|b| - 1])
  {
    hide Apply, Enabled;
    assert (a + b)[..|a + b| - 1] == a + b[..|b| - 1];
  }

  function Latest(s: State): seq<nat>
    requires |s.bumped| > 0
  {
    s.bumped[|s.bumped| - 1]
  }

  /** What a write has bumped stays part of the latest version. */
  lemma {:induction false} BumpedStays(search: Search, count: nat, ops: seq<Op>, w: nat, later: seq<Op>)
    requires Legal(search, Fresh(count), ops + [Bump(w)] + later) && Legal(search, Fresh(count), ops)
    requires Enabled(Final(search, Fresh(count), ops), Bump(w))
    ensures |Final(search, Fresh(count), ops + [Bump(w)] + later).bumped| > 0
    ensures Covers(Latest(Final(search, Fresh(count), ops + [Bump(w)] + later)),
                   Final(search, Fresh(count), ops).writers[w])
    decreases |later|
  {
    hide Inv;
    var run := ops + [Bump(w)];
    var s := Final(search, Fresh(count), ops);
    if later == [] {
      assert run + later == run && run[..|ops|] == ops;
    } else {
      var init := later[..|later| - 1];
      StepAppended(search, Fresh(count), run, later);
      BumpedStays(search, count, ops, w, init);
      var before := Final(search, Fresh(count), run + init);
      LatestGrows(search, before, later[|later| - 1]);
      CoversTrans(Latest(Final(search, Fresh(count), run + later)), Latest(before), s.writers[w]);
    }
  }

  lemma {:induction false} LatestGrows(search: Search, s: State, op: Op)
    requires |s.bumped| > 0 && Enabled(s, op)
    ensures |Apply(search, s, op).bumped| > 0 && Covers(Latest(Apply(search, s, op)), Latest(s))
  {
  }

  /** A recall keeps its floor and its query until the reader begins another. */
  lemma {:induction false} FloorStays(search: Search, s: State, run: seq<Op>, r: nat, rest: seq<Op>)
    requires Legal(search, s, run) && Legal(search, s, run + rest)
    requires r in Final(search, s, run).readers && forall op :: op in rest && op.Begin? ==> op.r != r
    ensures r in Final(search, s, run + rest).readers
    ensures Final(search, s, run + rest).readers[r].floor == Final(search, s, run).readers[r].floor
    ensures Final(search, s, run + rest).readers[r].query == Final(search, s, run).readers[r].query
    decreases |rest|
  {
    hide Apply, Enabled;
    if rest == [] {
      assert run + rest == run;
    } else {
      StepAppended(search, s, run, rest);
      FloorStays(search, s, run, r, rest[..|rest| - 1]);
      assert rest[|rest| - 1] in rest;
      FloorStep(search, Final(search, s, run + rest[..|rest| - 1]), r, rest[|rest| - 1]);
    }
  }

  lemma {:induction false} FloorStep(search: Search, s: State, r: nat, op: Op)
    requires Enabled(s, op) && r in s.readers && (op.Begin? ==> op.r != r)
    ensures r in Apply(search, s, op).readers && Apply(search, s, op).readers[r].floor == s.readers[r].floor
    ensures Apply(search, s, op).readers[r].query == s.readers[r].query
  {
    hide Answer, Lists;
  }

  /** In every interleaving, a recall that began after a write had bumped the version
      reflects all of that write's commits, whether it hits or misses and whatever
      else was cached, evicted or overwritten meanwhile; and what it returns is the
      best of what the domains answer to its query, at one state of each. */
  lemma {:induction false} ReadYourWrites(search: Search, count: nat, ops: seq<Op>, w: nat, between: seq<Op>, r: nat,
      query: Query, rest: seq<Op>)
    requires
      var run := ops + [Bump(w)] + between + [Begin(r, query)] + rest;
      && Legal(search, Fresh(count), run)
      && (forall op :: op in rest && op.Begin? ==> op.r != r)
      && r in Final(search, Fresh(count), run).readers && Final(search, Fresh(count), run).readers[r].Returned?
    ensures Legal(search, Fresh(count), ops) && w in Final(search, Fresh(count), ops).writers
    ensures
      var Returned(asked, _, results, view) := Final(search, Fresh(count),
                                                     ops + [Bump(w)] + between + [Begin(r, query)] + rest).readers[r];
      && asked == query && |view| == count
      && Covers(view, Final(search, Fresh(count), ops).writers[w])
      && Reflects(search, query, view, results)
  {
    hide Answer, Lists, Inv, Reflects;
    var head := ops + [Bump(w)] + between;
    var begun := head + [Begin(r, query)];
    LegalPrefix(search, Fresh(count), begun, rest);
    LegalPrefix(search, Fresh(count), head, [Begin(r, query)]);
    LegalPrefix(search, Fresh(count), ops + [Bump(w)], between);
    LegalPrefix(search, Fresh(count), ops, [Bump(w)]);
    assert (ops + [Bump(w)])[..|ops|] == ops && begun[..|head|] == head;
    BumpedStays(search, count, ops, w, between);
    FloorStays(search, Fresh(count), begun, r, rest);
    RunInv(search, count, begun + rest);
    ReturnedReflects(search, Final(search, Fresh(count), begun + rest), r);
    var floor := Final(search, Fresh(count), begun).readers[r].floor;
    assert floor == Latest(Final(search, Fresh(count), head));
    CoversTrans(Final(search, Fresh(count), begun + rest).readers[r].view, floor,
                Final(search, Fresh(count), ops).writers[w]);
    LatestSize(search, count, head);
  }

  lemma {:induction false} LatestSize(search: Search, count: nat, ops: seq<Op>)
    requires Legal(search, Fresh(count), ops) && |Final(search, Fresh(count), ops).bumped| > 0
    ensures |Latest(Final(search, Fresh(count), ops))| == count
  {
    hide EntryOk, ReaderOk;
    RunInv(search, count, ops);
    DomainsStay(search, count, ops);
    var s := Final(search, Fresh(count), ops);
    assert Covers(s.commits, s.bumped[|s.bumped| - 1]);
  }

  lemma {:induction false} ReturnedReflects(search: Search, s: State, r: nat)
    requires Inv(search, s) && r in s.readers && s.readers[r].Returned?
    ensures
      var Returned(query, floor, results, view) := s.readers[r];
      Covers(view, floor) && Reflects(search, query, view, results)
  {
    hide Answer, Lists, Reflects;
    assert ReaderOk(search, s, s.readers[r]);
    AnswerReflects(search, s.readers[r].query, s.readers[r].view);
  }

  /** The number of domains never changes. */
  lemma {:induction false} DomainsStay(search: Search, count: nat, ops: seq<Op>)
    requires Legal(search, Fresh(count), ops)
    ensures |Final(search, Fresh(count), ops).commits| == count
    decreases |ops|
  {
    hide Answer, Lists;
    if ops != [] {
      DomainsStay(search, count, ops[..|ops| - 1]);
    }
  }

  /** A recall whose three first steps meet nothing in between is answered without a search
      exactly if its query is cached under the present version and has not expired; and
      then with what is cached. */
  lemma {:induction false} HitIff(search: Search, s: State, r: nat, query: Query, alive: bool)
    requires |s.bumped| > 0 && (r in s.readers ==> s.readers[r].Returned?)
    ensures Enabled(s, Begin(r, query)) && Enabled(Apply(search, s, Begin(r, query)), Load(r))
    ensures Enabled(Apply(search, Apply(search, s, Begin(r, query)), Load(r)), Lookup(r, alive))
    ensures
      var after := Apply(search, Apply(search, Apply(search, s, Begin(r, query)), Load(r)), Lookup(r, alive));
      && r in after.readers && after.readers[r].query == query
      && (after.readers[r].Returned? <==>
            query in s.cache && s.cache[query].version == |s.bumped| - 1 && alive)
      && (after.readers[r].Returned? ==> after.readers[r].results == s.cache[query].results)
      && (!after.readers[r].Returned? ==> after.readers[r].Searching? && after.readers[r].view == [])
  {
    hide Answer, Lists;
    var begun := Apply(search, s, Begin(r, query));
    var loaded := Apply(search, begun, Load(r));
    assert begun.readers[r] == Begun(query, Latest(s));
    assert loaded.readers[r] == Loaded(query, Latest(s), |s.bumped| - 1);
  }

  /** While no write is between its commits and its bump, a hit is exactly what the
      fan-out would return now. */
  lemma {:induction false} QuietHitIsCurrent(search: Search, s: State, query: Query)
    requires Inv(search, s) && query in s.cache && s.cache[query].version == s.Version()
    requires s.commits == Latest(s)
    ensures Reflects(search, query, s.commits, s.cache[query].results)
  {
    hide Answer, Lists, Reflects;
    AnswerReflects(search, query, s.commits);
    var e := s.cache[query];
    assert EntryOk(search, s, query, e);
    assert e.view == s.commits;
  }
}
