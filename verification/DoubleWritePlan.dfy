/** What the split of a batch must be, relation by relation: which stubs and which mirrors
    a caller's relations call for, stated by their position in the batch. */
module DoubleWritePlan {
  import opened Requests
  import opened DoubleWrite

  /** Relation `j` of request `i`. */
  type Spot = (nat, nat)

  predicate IsSpot(reqs: seq<Request>, at: Spot) { at.0 < |reqs| && at.1 < |reqs[at.0].relations| }

  function RelationAt(reqs: seq<Request>, at: Spot): RelationInput
    requires IsSpot(reqs, at)
  {
    reqs[at.0].relations[at.1]
  }

  predicate Precedes(a: Spot, b: Spot) { a.0 < b.0 || (a.0 == b.0 && a.1 < b.1) }

  /** Spots of the batch, in the order of its relations. */
  ghost predicate InOrder(reqs: seq<Request>, spots: seq<Spot>) {
    && (forall k :: 0 <= k < |spots| ==> IsSpot(reqs, spots[k]))
    && forall k, l :: 0 <= k < l < |spots| ==> Precedes(spots[k], spots[l])
  }

  /** Exactly the relations whose target hashes to `d`, in order, each as a stub of its
      origin that relates to the target under the source it takes effect with. */
  ghost predicate MirrorsPlanned(router: Router, count: nat, reqs: seq<Request>, d: nat, mirrors: seq<Request>)
    requires count > 0
  {
    exists spots: seq<Spot> :: MirrorsAt(router, count, reqs, d, mirrors, spots)
  }

  ghost predicate MirrorsAt(router: Router, count: nat, reqs: seq<Request>, d: nat, mirrors: seq<Request>,
                            spots: seq<Spot>)
    requires count > 0
  {
    && InOrder(reqs, spots) && |mirrors| == |spots|
    && (forall k :: 0 <= k < |spots| ==>
          var req, rel := reqs[spots[k].0], RelationAt(reqs, spots[k]);
          mirrors[k] == Request(req.name, req.kind, [],
                                [rel.(source := if rel.source == "" then req.source else rel.source)],
                                "partition:stub"))
    && forall at: Spot | IsSpot(reqs, at) ::
         at in spots <==> router.hash(RelationAt(reqs, at).targetName) % count == d
  }

  /** One stub for each folded name and kind of a target that does not hash to `home`,
      spelled as the first relation that names it. */
  ghost predicate StubsPlanned(router: Router, count: nat, home: nat, reqs: seq<Request>, stubs: seq<Request>)
    requires count > 0
  {
    exists spots: seq<Spot> :: StubsAt(router, count, home, reqs, stubs, spots)
  }

  ghost predicate StubsAt(router: Router, count: nat, home: nat, reqs: seq<Request>, stubs: seq<Request>,
                          spots: seq<Spot>)
    requires count > 0
  {
    && InOrder(reqs, spots) && |stubs| == |spots|
    && (forall k :: 0 <= k < |spots| ==>
          var rel := RelationAt(reqs, spots[k]);
          && router.hash(rel.targetName) % count != home
          && stubs[k] == Request(rel.targetName, rel.targetKind, [], [], "partition:stub"))
    && (forall k, l :: 0 <= k < l < |spots| ==>
          router.lower(stubs[k].name) != router.lower(stubs[l].name) || stubs[k].kind != stubs[l].kind)
    && forall at: Spot | IsSpot(reqs, at) && router.hash(RelationAt(reqs, at).targetName) % count != home ::
         StubbedBy(router, stubs, spots, at, router.lower(RelationAt(reqs, at).targetName),
                   RelationAt(reqs, at).targetKind)
  }

  /** Some stub has this folded name and kind, first named no later than `at`. */
  ghost predicate StubbedBy(router: Router, stubs: seq<Request>, firsts: seq<Spot>, at: Spot, lower: string, kind: nat)
    requires |stubs| == |firsts|
  {
    exists k :: 0 <= k < |stubs| && !Precedes(at, firsts[k])
      && router.lower(stubs[k].name) == lower && stubs[k].kind == kind
  }

  /** Where the crossings of a batch are. */
  ghost predicate CrossingsAt(router: Router, count: nat, home: nat, reqs: seq<Request>, cs: seq<Crossing>,
                              spots: seq<Spot>) {
    && InOrder(reqs, spots) && |cs| == |spots|
    && (forall k :: 0 <= k < |spots| ==> cs[k] == Crossing(reqs[spots[k].0], RelationAt(reqs, spots[k])))
    && forall at: Spot | IsSpot(reqs, at) ::
         at in spots <==> DomainOf(router, count, TargetOf(RelationAt(reqs, at))) != home
  }

  lemma {:induction false} CrossingSpotsIn(router: Router, count: nat, home: nat, req: Request, i: nat, n: nat)
    returns (spots: seq<Spot>)
    requires n <= |req.relations|
    ensures var cs := CrossingsIn(router, count, home, req, req.relations[..n]);
      && |cs| == |spots|
      && (forall k :: 0 <= k < |spots| ==>
            spots[k].0 == i && spots[k].1 < n && cs[k] == Crossing(req, req.relations[spots[k].1]))
      && (forall k, l :: 0 <= k < l < |spots| ==> Precedes(spots[k], spots[l]))
      && forall j: nat :: j < n ==>
           ((i, j) in spots <==> DomainOf(router, count, TargetOf(req.relations[j])) != home)
    decreases n
  {
    hide DomainOf;
    if n == 0 {
      spots := [];
    } else {
      spots := CrossingSpotsIn(router, count, home, req, i, n - 1);
      assert req.relations[..n][..n - 1] == req.relations[..n - 1];
      if DomainOf(router, count, TargetOf(req.relations[n - 1])) != home {
        spots := spots + [(i, n - 1)];
      }
    }
  }

  lemma {:induction false} CrossingSpots(router: Router, count: nat, home: nat, reqs: seq<Request>)
    returns (spots: seq<Spot>)
    ensures CrossingsAt(router, count, home, reqs, Crossings(router, count, home, reqs), spots)
    decreases |reqs|
  {
    hide DomainOf;
    if reqs == [] {
      spots := [];
    } else {
      var n := |reqs| - 1;
      var before := CrossingSpots(router, count, home, reqs[..n]);
      var more := CrossingSpotsIn(router, count, home, reqs[n], n, |reqs[n].relations|);
      assert reqs[n].relations[..|reqs[n].relations|] == reqs[n].relations;
      spots := before + more;
      SpotsJoin(router, count, home, reqs, before, more, spots);
    }
  }

  lemma {:induction false} SpotsJoin(router: Router, count: nat, home: nat, reqs: seq<Request>, before: seq<Spot>,
      more: seq<Spot>, spots: seq<Spot>)
    requires reqs != [] && spots == before + more
    requires var n := |reqs| - 1;
      && CrossingsAt(router, count, home, reqs[..n], Crossings(router, count, home, reqs[..n]), before)
      && |more| == |CrossingsIn(router, count, home, reqs[n], reqs[n].relations)|
      && (forall k :: 0 <= k < |more| ==>
            more[k].0 == n && more[k].1 < |reqs[n].relations|
            && CrossingsIn(router, count, home, reqs[n], reqs[n].relations)[k]
               == Crossing(reqs[n], reqs[n].relations[more[k].1]))
      && (forall k, l :: 0 <= k < l < |more| ==> Precedes(more[k], more[l]))
      && forall j: nat :: j < |reqs[n].relations| ==>
           ((n, j) in more <==> DomainOf(router, count, TargetOf(reqs[n].relations[j])) != home)
    ensures CrossingsAt(router, count, home, reqs, Crossings(router, count, home, reqs), spots)
  {
    hide DomainOf, CrossingsIn;
    var n := |reqs| - 1;
    forall k | 0 <= k < |before| ensures IsSpot(reqs, before[k]) && before[k].0 < n {
      assert IsSpot(reqs[..n], before[k]);
    }
    forall at: Spot | IsSpot(reqs, at)
      ensures at in spots <==> DomainOf(router, count, TargetOf(RelationAt(reqs, at))) != home
    {
      if at.0 < n {
        assert IsSpot(reqs[..n], at) && RelationAt(reqs[..n], at) == RelationAt(reqs, at);
        assert forall k :: 0 <= k < |more| ==> more[k] != at;
      } else {
        assert at == (n, at.1);
        assert forall k :: 0 <= k < |before| ==> before[k] != at;
      }
    }
  }

  ghost predicate MirrorFrom(router: Router, count: nat, cs: seq<Crossing>, spots: seq<Spot>, d: nat, at: Spot,
                             mirror: Request)
    requires |cs| == |spots|
  {
    exists m :: 0 <= m < |cs| && DomainOf(router, count, TargetOf(cs[m].rel)) == d
      && at == spots[m] && mirror == MirrorRequest(cs[m])
  }

  lemma {:induction false} MirrorSpots(router: Router, count: nat, cs: seq<Crossing>, spots: seq<Spot>, d: nat)
    returns (picks: seq<Spot>)
    requires |cs| == |spots| && forall k, l :: 0 <= k < l < |spots| ==> Precedes(spots[k], spots[l])
    ensures |picks| == |MirrorsFor(router, count, cs, d)|
    ensures forall k :: 0 <= k < |picks| ==>
      MirrorFrom(router, count, cs, spots, d, picks[k], MirrorsFor(router, count, cs, d)[k])
    ensures forall k, l :: 0 <= k < l < |picks| ==> Precedes(picks[k], picks[l])
    ensures forall m :: 0 <= m < |cs| && DomainOf(router, count, TargetOf(cs[m].rel)) == d ==> spots[m] in picks
    decreases |cs|
  {
    hide DomainOf, MirrorRequest;
    picks := [];
    if cs != [] {
      var n := |cs| - 1;
      picks := MirrorSpots(router, count, cs[..n], spots[..n], d);
      forall k | 0 <= k < |picks|
        ensures MirrorFrom(router, count, cs, spots, d, picks[k], MirrorsFor(router, count, cs[..n], d)[k])
      {
        var m :| 0 <= m < n && DomainOf(router, count, TargetOf(cs[..n][m].rel)) == d && picks[k] == spots[..n][m]
          && MirrorsFor(router, count, cs[..n], d)[k] == MirrorRequest(cs[..n][m]);
        assert cs[m] == cs[..n][m];
      }
      if DomainOf(router, count, TargetOf(cs[n].rel)) == d {
        picks := picks + [spots[n]];
      }
    }
  }

  /** The mirrors of a plan are what they should be. */
  lemma {:induction false} MirrorsAsPlanned(router: Router, count: nat, home: nat, reqs: seq<Request>, d: nat)
    requires count > 0 && d != home
    ensures MirrorsPlanned(router, count, reqs, d,
                           MirrorsFor(router, count, Crossings(router, count, home, reqs), d))
  {
    hide MirrorsFor, Crossings;
    var cs := Crossings(router, count, home, reqs);
    var spots := CrossingSpots(router, count, home, reqs);
    var picks := MirrorSpots(router, count, cs, spots, d);
    forall at: Spot | IsSpot(reqs, at)
      ensures at in picks <==> router.hash(RelationAt(reqs, at).targetName) % count == d
    {
      if at in picks {
        var k :| 0 <= k < |picks| && picks[k] == at;
      }
      if router.hash(RelationAt(reqs, at).targetName) % count == d {
        assert at in spots;
        var m :| 0 <= m < |spots| && spots[m] == at;
        assert cs[m].rel == RelationAt(reqs, at);
      }
    }
    assert MirrorsAt(router, count, reqs, d, MirrorsFor(router, count, cs, d), picks);
  }

  ghost predicate StubFrom(cs: seq<Crossing>, spots: seq<Spot>, at: Spot, stub: Request)
    requires |cs| == |spots|
  {
    exists m :: 0 <= m < |cs| && at == spots[m] && stub == StubRequest(cs[m])
  }

  ghost predicate Stubbed(router: Router, stubs: seq<Request>, firsts: seq<Spot>, at: Spot, c: Crossing)
    requires |stubs| == |firsts|
  {
    StubbedBy(router, stubs, firsts, at, router.lower(c.rel.targetName), c.rel.targetKind)
  }

  ghost predicate SameStub(router: Router, a: Request, b: Request) {
    router.lower(a.name) == router.lower(b.name) && a.kind == b.kind
  }

  ghost predicate StubsFrom(router: Router, cs: seq<Crossing>, spots: seq<Spot>, stubs: seq<Request>,
                            firsts: seq<Spot>) {
    && |cs| == |spots| && |stubs| == |firsts|
    && (forall k :: 0 <= k < |firsts| ==> StubFrom(cs, spots, firsts[k], stubs[k]))
    && (forall k, l :: 0 <= k < l < |firsts| ==> Precedes(firsts[k], firsts[l]))
    && (forall k, l :: 0 <= k < l < |stubs| ==> !SameStub(router, stubs[k], stubs[l]))
    && forall m :: 0 <= m < |cs| ==> Stubbed(router, stubs, firsts, spots[m], cs[m])
  }

  lemma {:induction false} StubSpots(router: Router, cs: seq<Crossing>, spots: seq<Spot>)
    returns (firsts: seq<Spot>)
    requires |cs| == |spots| && forall k, l :: 0 <= k < l < |spots| ==> Precedes(spots[k], spots[l])
    ensures StubsFrom(router, cs, spots, StubsFor(router, cs), firsts)
    decreases |cs|
  {
    hide Precedes, FoldOf, SameStub, Stubbed;
    if cs == [] {
      firsts := [];
    } else {
      hide StubsFrom, StubsFor, Folds;
      var n := |cs| - 1;
      var init, last, before, at := cs[..n], cs[n], spots[..n], spots[n];
      firsts := StubSpots(router, init, before);
      assert cs == init + [last] && spots == before + [at];
      FoldsSnoc(router, init, last);
      if FoldOf(router, last) in Folds(router, init) {
        StubThere(router, init, before, StubsFor(router, init), firsts, last, at);
        assert StubsFor(router, init) + [] == StubsFor(router, init);
      } else {
        StubAdded(router, init, before, StubsFor(router, init), firsts, last, at);
        firsts := firsts + [at];
      }
    }
  }

  lemma {:induction false} StubThere(router: Router, cs: seq<Crossing>, spots: seq<Spot>, stubs: seq<Request>,
      firsts: seq<Spot>, c: Crossing, at: Spot)
    requires StubsFrom(router, cs, spots, stubs, firsts) && FoldOf(router, c) in Folds(router, cs)
    requires forall k :: 0 <= k < |spots| ==> Precedes(spots[k], at)
    ensures StubsFrom(router, cs + [c], spots + [at], stubs, firsts)
  {
    hide StubRequest;
    StubsStay(cs, spots, stubs, firsts, c, at);
    forall m | 0 <= m < |cs| + 1 ensures Stubbed(router, stubs, firsts, (spots + [at])[m], (cs + [c])[m]) {
      if m < |cs| {
        assert Stubbed(router, stubs, firsts, spots[m], cs[m]);
      } else {
        var i :| 0 <= i < |cs| && FoldOf(router, cs[i]) == FoldOf(router, c);
        assert Stubbed(router, stubs, firsts, spots[i], cs[i]);
      }
    }
  }

  lemma {:induction false} StubsStay(cs: seq<Crossing>, spots: seq<Spot>, stubs: seq<Request>, firsts: seq<Spot>,
      c: Crossing, at: Spot)
    requires |cs| == |spots| && |stubs| == |firsts|
    requires forall k :: 0 <= k < |firsts| ==> StubFrom(cs, spots, firsts[k], stubs[k])
    ensures forall k :: 0 <= k < |firsts| ==> StubFrom(cs + [c], spots + [at], firsts[k], stubs[k])
  {
    hide StubRequest;
    forall k | 0 <= k < |firsts| ensures StubFrom(cs + [c], spots + [at], firsts[k], stubs[k]) {
      var m :| 0 <= m < |cs| && firsts[k] == spots[m] && stubs[k] == StubRequest(cs[m]);
      assert (cs + [c])[m] == cs[m] && (spots + [at])[m] == spots[m];
    }
  }

  lemma {:induction false} NewStub(router: Router, cs: seq<Crossing>, spots: seq<Spot>, c: Crossing, at: Spot,
      first: Spot, stub: Request)
    requires |cs| == |spots| && StubFrom(cs, spots, first, stub) && FoldOf(router, c) !in Folds(router, cs)
    requires forall k :: 0 <= k < |spots| ==> Precedes(spots[k], at)
    ensures Precedes(first, at) && !SameStub(router, stub, StubRequest(c))
  {
    var m :| 0 <= m < |cs| && first == spots[m] && stub == StubRequest(cs[m]);
    assert FoldOf(router, cs[m]) in Folds(router, cs);
  }

  lemma {:induction false} StubbedStill(router: Router, stubs: seq<Request>, firsts: seq<Spot>, at: Spot, c: Crossing,
      stub: Request, first: Spot)
    requires |stubs| == |firsts| && Stubbed(router, stubs, firsts, at, c)
    ensures Stubbed(router, stubs + [stub], firsts + [first], at, c)
  {
    var k :| 0 <= k < |stubs| && !Precedes(at, firsts[k])
      && router.lower(stubs[k].name) == router.lower(c.rel.targetName) && stubs[k].kind == c.rel.targetKind;
    assert (stubs + [stub])[k] == stubs[k] && (firsts + [first])[k] == firsts[k];
  }

  lemma {:induction false} StubbedNow(router: Router, stubs: seq<Request>, firsts: seq<Spot>, at: Spot, c: Crossing)
    requires |stubs| == |firsts|
    ensures Stubbed(router, stubs + [StubRequest(c)], firsts + [at], at, c)
  {
    assert (stubs + [StubRequest(c)])[|stubs|] == StubRequest(c) && (firsts + [at])[|stubs|] == at;
  }

  lemma {:induction false} StubAdded(router: Router, cs: seq<Crossing>, spots: seq<Spot>, stubs: seq<Request>,
      firsts: seq<Spot>, c: Crossing, at: Spot)
    requires StubsFrom(router, cs, spots, stubs, firsts) && FoldOf(router, c) !in Folds(router, cs)
    requires forall k :: 0 <= k < |spots| ==> Precedes(spots[k], at)
    ensures StubsFrom(router, cs + [c], spots + [at], stubs + [StubRequest(c)], firsts + [at])
  {
    hide Precedes, SameStub, Stubbed, StubRequest, Folds, FoldOf;
    var grown, more := stubs + [StubRequest(c)], firsts + [at];
    StubsStay(cs, spots, stubs, firsts, c, at);
    assert (cs + [c])[|cs|] == c && (spots + [at])[|cs|] == at;
    assert StubFrom(cs + [c], spots + [at], at, StubRequest(c));
    forall k | 0 <= k < |firsts| ensures Precedes(firsts[k], at) && !SameStub(router, stubs[k], StubRequest(c)) {
      NewStub(router, cs, spots, c, at, firsts[k], stubs[k]);
    }
    forall m | 0 <= m < |cs| + 1 ensures Stubbed(router, grown, more, (spots + [at])[m], (cs + [c])[m]) {
      if m < |cs| {
        StubbedStill(router, stubs, firsts, spots[m], cs[m], StubRequest(c), at);
      } else {
        StubbedNow(router, stubs, firsts, at, c);
      }
    }
  }

  lemma {:induction false} StubAsPlanned(reqs: seq<Request>, cs: seq<Crossing>, spots: seq<Spot>, at: Spot,
      stub: Request)
    requires |cs| == |spots| && StubFrom(cs, spots, at, stub)
    requires forall k :: 0 <= k < |spots| ==>
      IsSpot(reqs, spots[k]) && cs[k] == Crossing(reqs[spots[k].0], RelationAt(reqs, spots[k]))
    ensures at in spots && IsSpot(reqs, at)
    ensures stub == Request(RelationAt(reqs, at).targetName, RelationAt(reqs, at).targetKind, [], [], "partition:stub")
  {
  }

  /** And so are the stubs. */
  lemma {:induction false} StubsAsPlanned(router: Router, count: nat, home: nat, reqs: seq<Request>)
    requires count > 0
    ensures StubsPlanned(router, count, home, reqs, StubsFor(router, Crossings(router, count, home, reqs)))
  {
    hide StubsFor, Crossings, StubFrom, StubbedBy, IsSpot, RelationAt, Precedes;
    var cs := Crossings(router, count, home, reqs);
    var stubs := StubsFor(router, cs);
    var spots := CrossingSpots(router, count, home, reqs);
    var firsts := StubSpots(router, cs, spots);
    forall k | 0 <= k < |firsts|
      ensures firsts[k] in spots && IsSpot(reqs, firsts[k])
      ensures stubs[k]
           == Request(RelationAt(reqs, firsts[k]).targetName, RelationAt(reqs, firsts[k]).targetKind, [], [],
                      "partition:stub")
    {
      StubAsPlanned(reqs, cs, spots, firsts[k], stubs[k]);
    }
    forall k, l | 0 <= k < l < |firsts|
      ensures router.lower(stubs[k].name) != router.lower(stubs[l].name) || stubs[k].kind != stubs[l].kind
    {
      assert !SameStub(router, stubs[k], stubs[l]);
    }
    forall at: Spot | IsSpot(reqs, at) && router.hash(RelationAt(reqs, at).targetName) % count != home
      ensures StubbedBy(router, stubs, firsts, at, router.lower(RelationAt(reqs, at).targetName),
                        RelationAt(reqs, at).targetKind)
    {
      assert at in spots;
      var m :| 0 <= m < |spots| && spots[m] == at;
      assert Stubbed(router, stubs, firsts, spots[m], cs[m]);
    }
    assert StubsAt(router, count, home, reqs, stubs, firsts);
  }
}
