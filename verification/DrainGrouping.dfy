/** Drain grouping: the requests of one drain are merged by folded name, kind and
    source, so that many requests about one entity become one group. */
module DrainGrouping {
  import opened Prelude
  import opened Requests

  datatype GroupKey = GroupKey(nameLower: string, kind: nat, source: string)

  function KeyOf(router: Router, req: Request): GroupKey {
    GroupKey(router.lower(req.name), req.kind, req.source)
  }

  /** Everything `reqs` observe under `key`, in order. */
  function Observed(router: Router, reqs: seq<Request>, key: GroupKey): seq<string> {
    if reqs == [] then []
    else
      var last := reqs[|reqs| - 1];
      Observed(router, reqs[..|reqs| - 1], key) + if KeyOf(router, last) == key then last.observations else []
  }

  /** Everything `reqs` relate under `key`, in order. */
  function Related(router: Router, reqs: seq<Request>, key: GroupKey): seq<RelationInput> {
    if reqs == [] then []
    else
      var last := reqs[|reqs| - 1];
      Related(router, reqs[..|reqs| - 1], key) + if KeyOf(router, last) == key then last.relations else []
  }

  ghost predicate DistinctKeys(router: Router, reqs: seq<Request>) {
    forall i, j :: 0 <= i < j < |reqs| ==> KeyOf(router, reqs[i]) != KeyOf(router, reqs[j])
  }

  /** No two requests of one group spell the entity differently. */
  predicate OneSpelling(router: Router, reqs: seq<Request>) {
    forall i, j :: 0 <= i < j < |reqs| && KeyOf(router, reqs[i]) == KeyOf(router, reqs[j]) ==>
      reqs[i].name == reqs[j].name
  }

  /** The entity rows the store will look for: it matches names exactly. */
  function Headers(reqs: seq<Request>): set<(string, nat, string)> {
    set i | 0 <= i < |reqs| :: Header(reqs[i])
  }

  lemma {:induction false} ObservedSnoc(router: Router, reqs: seq<Request>, r: Request, key: GroupKey)
    ensures Observed(router, reqs + [r], key)
         == Observed(router, reqs, key) + if KeyOf(router, r) == key then r.observations else []
    ensures Related(router, reqs + [r], key)
         == Related(router, reqs, key) + if KeyOf(router, r) == key then r.relations else []
  {
    assert (reqs + [r])[..|reqs|] == reqs;
  }

  /** A key without a group observes nothing. */
  lemma {:induction false} NoGroup(router: Router, reqs: seq<Request>, key: GroupKey)
    requires forall i :: 0 <= i < |reqs| ==> KeyOf(router, reqs[i]) != key
    ensures Observed(router, reqs, key) == [] && Related(router, reqs, key) == []
    decreases |reqs|
  {
    if reqs != [] {
      NoGroup(router, reqs[..|reqs| - 1], key);
    }
  }

  /** The one group of a key observes what the key observes. */
  lemma {:induction false} OneGroup(router: Router, reqs: seq<Request>, i: nat)
    requires i < |reqs| && DistinctKeys(router, reqs)
    ensures Observed(router, reqs, KeyOf(router, reqs[i])) == reqs[i].observations
    ensures Related(router, reqs, KeyOf(router, reqs[i])) == reqs[i].relations
    decreases |reqs|
  {
    var n := |reqs| - 1;
    if i == n {
      NoGroup(router, reqs[..n], KeyOf(router, reqs[i]));
    } else {
      OneGroup(router, reqs[..n], i);
    }
  }

  /** What one key of a batch says in total. */
  ghost predicate SameContent(router: Router, a: seq<Request>, b: seq<Request>) {
    forall key :: Observed(router, a, key) == Observed(router, b, key)
               && Related(router, a, key) == Related(router, b, key)
  }

  ghost predicate HasKey(router: Router, reqs: seq<Request>, key: GroupKey) {
    exists i :: 0 <= i < |reqs| && KeyOf(router, reqs[i]) == key
  }

  ghost predicate SameKeys(router: Router, a: seq<Request>, b: seq<Request>) {
    forall key :: HasKey(router, a, key) <==> HasKey(router, b, key)
  }

  /** Merging one more request into its group, or giving it a group of its own. */
  lemma {:induction false} MergeContent(router: Router, batch: seq<Request>, next: seq<Request>, seen: seq<Request>,
      r: Request, at: int)
    requires DistinctKeys(router, batch) && SameContent(router, batch, seen)
    requires if at < 0 then
        && next == batch + [r]
        && forall i :: 0 <= i < |batch| ==> KeyOf(router, batch[i]) != KeyOf(router, r)
      else
        && at < |batch| && KeyOf(router, batch[at]) == KeyOf(router, r)
        && next == batch[at := batch[at].(observations := batch[at].observations + r.observations,
                                          relations := batch[at].relations + r.relations)]
    ensures DistinctKeys(router, next) && SameContent(router, next, seen + [r])
  {
    assert at >= 0 ==> forall i :: 0 <= i < |next| ==> KeyOf(router, next[i]) == KeyOf(router, batch[i]);
    forall key
      ensures Observed(router, next, key) == Observed(router, seen + [r], key)
      ensures Related(router, next, key) == Related(router, seen + [r], key)
    {
      ObservedSnoc(router, seen, r, key);
      if at < 0 {
        ObservedSnoc(router, batch, r, key);
      } else if key == KeyOf(router, r) {
        OneGroup(router, batch, at);
        OneGroup(router, next, at);
      } else if i :| 0 <= i < |batch| && KeyOf(router, batch[i]) == key {
        OneGroup(router, batch, i);
        OneGroup(router, next, i);
      } else {
        NoGroup(router, batch, key);
        NoGroup(router, next, key);
      }
    }
  }

  /** The request belongs to the group of `name`, `kind` and `source`. */
  predicate Belongs(router: Router, r: Request, nameLower: string, kind: nat, source: string) {
    router.lower(r.name) == nameLower && r.kind == kind && r.source == source
  }

  lemma {:induction false} ObservedHolds(router: Router, reqs: seq<Request>, key: GroupKey) returns (cuts: seq<nat>)
    ensures |cuts| == |reqs| + 1 && cuts[0] == 0 && cuts[|reqs|] == |Observed(router, reqs, key)|
    ensures forall i :: 0 <= i < |reqs| ==>
      Fills(reqs[i].observations, Belongs(router, reqs[i], key.nameLower, key.kind, key.source),
            Observed(router, reqs, key), cuts[i], cuts[i + 1])
    decreases |reqs|
  {
    hide Fills, Belongs;
    if reqs == [] {
      cuts := [0];
    } else {
      var n := |reqs| - 1;
      cuts := ObservedHolds(router, reqs[..n], key);
      var whole, mine := Observed(router, reqs[..n], key), KeyOf(router, reqs[n]) == key;
      var more := if mine then reqs[n].observations else [];
      forall i | 0 <= i < n
        ensures Fills(reqs[i].observations, Belongs(router, reqs[i], key.nameLower, key.kind, key.source),
                      whole + more, cuts[i], cuts[i + 1])
      {
        FillsStill(reqs[i].observations, Belongs(router, reqs[i], key.nameLower, key.kind, key.source), whole,
                   cuts[i], cuts[i + 1], more);
      }
      FillsLast(whole, reqs[n].observations, mine);
      BelongsToKey(router, reqs[n], key);
      cuts := cuts + [|whole + more|];
    }
  }

  lemma {:induction false} BelongsToKey(router: Router, r: Request, key: GroupKey)
    ensures Belongs(router, r, key.nameLower, key.kind, key.source) <==> KeyOf(router, r) == key
  {
  }

  lemma {:induction false} FillsLast<T(!new)>(whole: seq<T>, part: seq<T>, mine: bool)
    ensures Fills(part, mine, whole + if mine then part else [], |whole|, |whole| + if mine then |part| else 0)
  {
  }

  lemma {:induction false} RelatedHolds(router: Router, reqs: seq<Request>, key: GroupKey) returns (cuts: seq<nat>)
    ensures |cuts| == |reqs| + 1 && cuts[0] == 0 && cuts[|reqs|] == |Related(router, reqs, key)|
    ensures forall i :: 0 <= i < |reqs| ==>
      Fills(reqs[i].relations, Belongs(router, reqs[i], key.nameLower, key.kind, key.source),
            Related(router, reqs, key), cuts[i], cuts[i + 1])
    decreases |reqs|
  {
    hide Fills, Belongs;
    if reqs == [] {
      cuts := [0];
    } else {
      var n := |reqs| - 1;
      cuts := RelatedHolds(router, reqs[..n], key);
      var whole, mine := Related(router, reqs[..n], key), KeyOf(router, reqs[n]) == key;
      var more := if mine then reqs[n].relations else [];
      forall i | 0 <= i < n
        ensures Fills(reqs[i].relations, Belongs(router, reqs[i], key.nameLower, key.kind, key.source),
                      whole + more, cuts[i], cuts[i + 1])
      {
        FillsStill(reqs[i].relations, Belongs(router, reqs[i], key.nameLower, key.kind, key.source), whole,
                   cuts[i], cuts[i + 1], more);
      }
      FillsLast(whole, reqs[n].relations, mine);
      BelongsToKey(router, reqs[n], key);
      cuts := cuts + [|whole + more|];
    }
  }

  /** What a group holds, piece by piece: the observations of the requests with its
      folded name, kind and source, one request after the other, and nothing else; and
      their relations likewise. */
  lemma {:induction false} GroupHolds(router: Router, batch: seq<Request>, reqs: seq<Request>, g: nat)
    returns (observed: seq<nat>, related: seq<nat>)
    requires g < |batch| && DistinctKeys(router, batch) && SameContent(router, batch, reqs)
    ensures |observed| == |related| == |reqs| + 1 && observed[0] == related[0] == 0
    ensures observed[|reqs|] == |batch[g].observations| && related[|reqs|] == |batch[g].relations|
    ensures forall i :: 0 <= i < |reqs| ==>
      var mine := Belongs(router, reqs[i], router.lower(batch[g].name), batch[g].kind, batch[g].source);
      && Fills(reqs[i].observations, mine, batch[g].observations, observed[i], observed[i + 1])
      && Fills(reqs[i].relations, mine, batch[g].relations, related[i], related[i + 1])
  {
    hide Observed, Related, Fills, Belongs;
    OneGroup(router, batch, g);
    observed := ObservedHolds(router, reqs, KeyOf(router, batch[g]));
    related := RelatedHolds(router, reqs, KeyOf(router, batch[g]));
  }

  function Header(r: Request): (string, nat, string) { (r.name, r.kind, r.source) }

  /** The first request of its key. */
  ghost predicate First(router: Router, reqs: seq<Request>, j: int) {
    0 <= j < |reqs| && forall i :: 0 <= i < j ==> KeyOf(router, reqs[i]) != KeyOf(router, reqs[j])
  }

  /** The group carries the header of the request that opened it. */
  ghost predicate Opened(router: Router, reqs: seq<Request>, group: Request) {
    exists j :: First(router, reqs, j) && Header(reqs[j]) == Header(group)
  }

  /** State of the grouping loop after the requests `seen`. */
  ghost predicate Grouped(router: Router, seen: seq<Request>, batch: seq<Request>, groups: map<GroupKey, nat>) {
    && (forall k :: k in groups ==> groups[k] < |batch| && KeyOf(router, batch[groups[k]]) == k)
    && (forall i :: 0 <= i < |batch| ==> KeyOf(router, batch[i]) in groups && groups[KeyOf(router, batch[i])] == i)
    && SameContent(router, batch, seen)
    && (forall j :: 0 <= j < |seen| ==> KeyOf(router, seen[j]) in groups)
    && (forall i :: 0 <= i < |batch| ==> Opened(router, seen, batch[i]))
  }

  lemma {:induction false} MergeHeads(router: Router, seen: seq<Request>, batch: seq<Request>, next: seq<Request>,
      r: Request)
    requires forall i :: 0 <= i < |batch| ==> Opened(router, seen, batch[i])
    requires |batch| <= |next| && forall i :: 0 <= i < |batch| ==> Header(next[i]) == Header(batch[i])
    requires forall i :: |batch| <= i < |next| ==> Header(next[i]) == Header(r)
    requires |batch| < |next| ==> forall j :: 0 <= j < |seen| ==> KeyOf(router, seen[j]) != KeyOf(router, r)
    ensures forall i :: 0 <= i < |next| ==> Opened(router, seen + [r], next[i])
  {
    forall i | 0 <= i < |next| ensures Opened(router, seen + [r], next[i]) {
      if i < |batch| {
        assert Opened(router, seen, batch[i]);
        var j :| First(router, seen, j) && Header(seen[j]) == Header(batch[i]);
        assert First(router, seen + [r], j);
      } else {
        assert First(router, seen + [r], |seen|);
      }
    }
  }

  lemma {:induction false} GroupNothing(router: Router)
    ensures Grouped(router, [], [], map[])
  {
  }

  /** One turn of the grouping loop. */
  lemma {:induction false} GroupStep(router: Router, seen: seq<Request>, batch: seq<Request>,
      groups: map<GroupKey, nat>, r: Request, next: seq<Request>, nextGroups: map<GroupKey, nat>)
    requires Grouped(router, seen, batch, groups)
    requires var key := KeyOf(router, r);
      if key in groups then
        && nextGroups == groups
        && next == batch[groups[key] := batch[groups[key]].(
                     observations := batch[groups[key]].observations + r.observations,
                     relations := batch[groups[key]].relations + r.relations)]
      else
        nextGroups == groups[key := |batch|] && next == batch + [r]
    ensures Grouped(router, seen + [r], next, nextGroups)
  {
    hide Observed, Related, Opened;
    var key := KeyOf(router, r);
    var at := if key in groups then groups[key] else -1;
    assert forall i :: 0 <= i < |batch| ==> KeyOf(router, next[i]) == KeyOf(router, batch[i]);
    MergeContent(router, batch, next, seen, r, at);
    MergeHeads(router, seen, batch, next, r);
  }

  /** The grouping loop of a drain.  Each key keeps exactly what its requests say,
      in submission order.  The rows the store will touch are those the requests
      name exactly when no key is spelled in two ways: the group takes the first
      spelling, while the store matches names exactly. */
  method GroupDrained(router: Router, drained: seq<Request>) returns (batch: seq<Request>)
    ensures DistinctKeys(router, batch)
    ensures SameKeys(router, batch, drained)
    ensures SameContent(router, batch, drained)
    ensures Headers(batch) <= Headers(drained)
    ensures OneSpelling(router, drained) <==> Headers(batch) == Headers(drained)
  {
    hide Observed, Related, SameContent, SameKeys, Opened, OneSpelling, DistinctKeys, Headers;
    batch := [];
    var groups: map<GroupKey, nat> := map[];
    var n := 0;
    GroupNothing(router);
    assert drained[..0] == [];
    while n < |drained|
      invariant n <= |drained|
      invariant Grouped(router, drained[..n], batch, groups)
    {
      var req := drained[n];
      var key := KeyOf(router, req);
      assert drained[..n + 1] == drained[..n] + [req];
      ghost var was, index := batch, groups;
      if key in groups {
        var existing := batch[groups[key]];
        existing := existing.(observations := existing.observations + req.observations,
                              relations := existing.relations + req.relations);
        batch := batch[groups[key] := existing];
      } else {
        groups := groups[key := |batch|];
        batch := batch + [req];
      }
      GroupStep(router, drained[..n], was, index, req, batch, groups);
      n := n + 1;
    }
    assert drained[..|drained|] == drained;
    GroupedKeys(router, drained, batch, groups);
    HeadersSpelling(router, drained, batch);
  }

  lemma {:induction false} GroupedKeys(router: Router, drained: seq<Request>, batch: seq<Request>,
      groups: map<GroupKey, nat>)
    requires Grouped(router, drained, batch, groups)
    ensures DistinctKeys(router, batch) && SameKeys(router, batch, drained)
  {
    hide SameContent;
    forall key ensures HasKey(router, batch, key) <==> HasKey(router, drained, key) {
      if i :| 0 <= i < |batch| && KeyOf(router, batch[i]) == key {
        assert Opened(router, drained, batch[i]);
        var j :| First(router, drained, j) && Header(drained[j]) == Header(batch[i]);
        assert KeyOf(router, drained[j]) == key;
      }
      if j :| 0 <= j < |drained| && KeyOf(router, drained[j]) == key {
        assert KeyOf(router, batch[groups[key]]) == key;
      }
    }
  }

  lemma {:induction false} InHeaders(reqs: seq<Request>, i: nat)
    requires i < |reqs|
    ensures Header(reqs[i]) in Headers(reqs)
  {
  }

  /** The headers of the groups are the headers of the first requests. */
  lemma {:induction false} HeadersSpelling(router: Router, drained: seq<Request>, batch: seq<Request>)
    requires SameKeys(router, batch, drained) && DistinctKeys(router, batch)
    requires forall i :: 0 <= i < |batch| ==> Opened(router, drained, batch[i])
    ensures Headers(batch) <= Headers(drained)
    ensures OneSpelling(router, drained) <==> Headers(batch) == Headers(drained)
  {
    forall h | h in Headers(batch) ensures h in Headers(drained) {
      var i :| 0 <= i < |batch| && h == Header(batch[i]);
      assert Opened(router, drained, batch[i]);
      var j :| First(router, drained, j) && Header(drained[j]) == Header(batch[i]);
      InHeaders(drained, j);
    }
    if OneSpelling(router, drained) {
      forall h | h in Headers(drained) ensures h in Headers(batch) {
        var j :| 0 <= j < |drained| && h == Header(drained[j]);
        var i := GroupOf(router, drained, batch, j);
        InHeaders(batch, i);
      }
    } else {
      var i, j :| 0 <= i < j < |drained| && KeyOf(router, drained[i]) == KeyOf(router, drained[j])
        && drained[i].name != drained[j].name;
      var key := KeyOf(router, drained[i]);
      assert HasKey(router, drained, key);
      assert HasKey(router, batch, key);
      var g :| 0 <= g < |batch| && KeyOf(router, batch[g]) == key;
      var odd := if drained[i].name == batch[g].name then j else i;
      InHeaders(drained, odd);
      forall b | 0 <= b < |batch| ensures Header(batch[b]) != Header(drained[odd]) {
        assert b != g ==> KeyOf(router, batch[b]) != key;
      }
      assert Header(drained[odd]) !in Headers(batch);
    }
  }

  lemma {:induction false} GroupOf(router: Router, drained: seq<Request>, batch: seq<Request>, j: nat) returns (i: nat)
    requires SameKeys(router, batch, drained) && OneSpelling(router, drained) && j < |drained|
    requires forall i :: 0 <= i < |batch| ==> Opened(router, drained, batch[i])
    ensures i < |batch| && Header(batch[i]) == Header(drained[j])
  {
    assert HasKey(router, drained, KeyOf(router, drained[j]));
    assert HasKey(router, batch, KeyOf(router, drained[j]));
    i :| 0 <= i < |batch| && KeyOf(router, batch[i]) == KeyOf(router, drained[j]);
    assert Opened(router, drained, batch[i]);
    var f :| First(router, drained, f) && Header(drained[f]) == Header(batch[i]);
    assert KeyOf(router, drained[f]) == KeyOf(router, drained[j]);
    assert f <= j;
    assert f < j ==> drained[f].name == drained[j].name;
  }

  /** Two requests that spell one entity in two ways end in one group, and the row of
      one of them is not written. */
  lemma {:induction false} SpellingsShareGroup(router: Router, a: Request, b: Request, batch: seq<Request>)
    requires KeyOf(router, a) == KeyOf(router, b) && a.name != b.name
    requires DistinctKeys(router, batch) && SameKeys(router, batch, [a, b])
    ensures |batch| == 1
    ensures Header(a) !in Headers(batch) || Header(b) !in Headers(batch)
  {
    var key := KeyOf(router, a);
    assert |batch| > 1 ==> KeyOf(router, batch[0]) != KeyOf(router, batch[1]);
    forall i | 0 <= i < |batch| ensures KeyOf(router, batch[i]) == key {
      assert HasKey(router, batch, KeyOf(router, batch[i]));
      assert HasKey(router, [a, b], KeyOf(router, batch[i]));
    }
    assert KeyOf(router, [a, b][0]) == key;
    assert HasKey(router, [a, b], key);
    assert HasKey(router, batch, key);
  }

  /** Such requests exist as soon as folding folds anything. */
  lemma {:induction false} TwoSpellings(batch: seq<Request>)
    ensures
      var router := Router(s => if s == "Ada" then "ada" else s, s => 0);
      var a, b := Request("Ada", 0, ["x"], [], "u"), Request("ada", 0, ["y"], [], "u");
      && !OneSpelling(router, [a, b])
      && (DistinctKeys(router, batch) && SameKeys(router, batch, [a, b]) ==> Headers(batch) != Headers([a, b]))
  {
    var router := Router(s => if s == "Ada" then "ada" else s, s => 0);
    var a, b := Request("Ada", 0, ["x"], [], "u"), Request("ada", 0, ["y"], [], "u");
    assert [a, b][0].name != [a, b][1].name && KeyOf(router, [a, b][0]) == KeyOf(router, [a, b][1]);
    InHeaders([a, b], 0);
    InHeaders([a, b], 1);
    if DistinctKeys(router, batch) && SameKeys(router, batch, [a, b]) {
      SpellingsShareGroup(router, a, b, batch);
    }
  }
}
