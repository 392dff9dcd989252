/** The bounded registry of open spaces: five budgets, least-recently-used eviction,
    request leases, and the gate that keeps a space closed for maintenance.

    Each method is one critical section under the registry's lock, so any order of
    calls is an interleaving of its users. */
module SpaceRegistry {
  import opened Prelude

  type Id = nat

  datatype Limits = Limits(spaces: nat, domains: nat, connections: nat, handles: nat, engines: nat, flushers: nat)

  predicate ValidLimits(l: Limits) {
    && 0 < l.spaces <= 64 && 0 < l.domains <= 512 && 0 < l.connections <= 1024 && 0 < l.handles <= 512
    && l.engines <= 8 && l.flushers <= 16
  }

  datatype Runtime = Runtime(domains: nat, connections: nat, handles: nat)

  datatype Demand = Demand(domains: nat, connections: nat, handles: nat, engines: nat, flushers: nat)

  datatype Inner = Inner(
    runtimes: map<Id, Runtime>,
    leases: map<Id, nat>,
    lastUsed: map<Id, nat>,
    openDomains: nat,
    connections: nat,
    handles: nat,
    engines: nat,
    flushers: nat,
    tick: nat,
    closing: set<Id>)

  datatype Error = Inactive | Closing | Capacity | Leased | Flush(id: Id) | Open

  datatype Result = Ok | Err(error: Error)

  datatype Catalog = Catalog(active: bool, domains: nat)

  function SaturatingSub(a: nat, b: nat): nat { if a < b then 0 else a - b }

  function SaturatingAdd(a: nat, b: nat): nat { if a + b > U64_MAX then U64_MAX else a + b }

  function LeaseCount(inner: Inner, id: Id): nat { if id in inner.leases then inner.leases[id] else 0 }

  // ---------------------------------------------------------------------
  // Sums over the resident runtimes
  // ---------------------------------------------------------------------

  datatype Usage = Usage(domains: nat, connections: nat, handles: nat)

  function Plus(a: Usage, r: Runtime): Usage {
    Usage(a.domains + r.domains, a.connections + r.connections, a.handles + r.handles)
  }

  ghost function Total(m: map<Id, Runtime>): Usage
    decreases |m|
  {
    if m == map[] then Usage(0, 0, 0)
    else
      var id :| id in m;
      Plus(Total(m - {id}), m[id])
  }

  lemma {:induction false} TotalWithout(m: map<Id, Runtime>, id: Id)
    requires id in m
    ensures Total(m) == Plus(Total(m - {id}), m[id])
    decreases |m|
  {
    var x :| x in m && Total(m) == Plus(Total(m - {x}), m[x]);
    if x != id {
      TotalWithout(m - {x}, id);
      TotalWithout(m - {id}, x);
      assert m - {x} - {id} == m - {id} - {x};
      var rest := Total(m - {x} - {id});
      assert Total(m - {x}) == Plus(rest, m[id]);
      assert Total(m - {id}) == Plus(rest, m[x]);
      assert Plus(Plus(rest, m[id]), m[x]) == Plus(Plus(rest, m[x]), m[id]);
    } else {
      assert Total(m) == Plus(Total(m - {id}), m[id]);
    }
  }

  lemma {:induction false} TotalWith(m: map<Id, Runtime>, id: Id, r: Runtime)
    requires id !in m
    ensures Total(m[id := r]) == Plus(Total(m), r)
  {
    TotalWithout(m[id := r], id);
    assert m[id := r] - {id} == m;
  }

  ghost predicate Within(part: map<Id, Runtime>, whole: map<Id, Runtime>) {
    forall id :: id in part ==> id in whole && whole[id] == part[id]
  }

  lemma {:induction false} TotalWithin(part: map<Id, Runtime>, whole: map<Id, Runtime>)
    requires Within(part, whole)
    ensures |part| <= |whole|
    ensures Total(part).domains <= Total(whole).domains
    ensures Total(part).connections <= Total(whole).connections
    ensures Total(part).handles <= Total(whole).handles
    decreases |whole|
  {
    if part == whole {
    } else if part == map[] {
    } else {
      var id :| id in part;
      TotalWithout(part, id);
      TotalWithout(whole, id);
      TotalWithin(part - {id}, whole - {id});
      assert |part| == |part - {id}| + 1 && |whole| == |whole - {id}| + 1 by {
        Removed(part, id);
        Removed(whole, id);
      }
    }
  }

  lemma {:induction false} Removed(m: map<Id, Runtime>, id: Id)
    requires id in m
    ensures |m - {id}| == |m| - 1
  {
    assert (m - {id}).Keys == m.Keys - {id};
    assert |m| == |m.Keys| && |m - {id}| == |(m - {id}).Keys|;
  }

  // ---------------------------------------------------------------------
  // The invariant
  // ---------------------------------------------------------------------

  /** Counters are the sums over what is open, and within limits; resident spaces
      and use stamps coincide; lease counts are the live leases, which only resident
      spaces have; a closing space is neither resident nor leased. */
  ghost predicate Exact(limits: Limits, inner: Inner, live: multiset<Id>) {
    && Usage(inner.openDomains, inner.connections, inner.handles) == Total(inner.runtimes)
    && inner.engines == 0 && inner.flushers == 0
    && |inner.runtimes| <= limits.spaces && inner.openDomains <= limits.domains
    && inner.connections <= limits.connections && inner.handles <= limits.handles
    && inner.lastUsed.Keys == inner.runtimes.Keys
    && (forall id :: LeaseCount(inner, id) == live[id])
    && (forall id :: id in live ==> id in inner.runtimes)
    && (forall id :: id in inner.closing ==> id !in inner.runtimes)
    && inner.tick <= U64_MAX && forall id :: id in inner.lastUsed ==> inner.lastUsed[id] <= inner.tick
  }

  predicate Evictable(inner: Inner, legacy: Id, id: Id) {
    id in inner.lastUsed && id != legacy && LeaseCount(inner, id) == 0
  }

  /** What eviction may not touch: leased spaces and the legacy one. */
  function Pinned(inner: Inner, legacy: Id): map<Id, Runtime> {
    map id | id in inner.runtimes && !(id != legacy && LeaseCount(inner, id) == 0) :: inner.runtimes[id]
  }

  predicate Fits(limits: Limits, inner: Inner, d: Demand) {
    && |inner.runtimes| < limits.spaces
    && inner.openDomains + d.domains <= limits.domains
    && inner.connections + d.connections <= limits.connections
    && inner.handles + d.handles <= limits.handles
    && inner.engines + d.engines <= limits.engines
    && inner.flushers + d.flushers <= limits.flushers
  }

  /** The demand fits beside what cannot be evicted. */
  ghost predicate FitsBeside(limits: Limits, pinned: map<Id, Runtime>, d: Demand) {
    && |pinned| < limits.spaces
    && Total(pinned).domains + d.domains <= limits.domains
    && Total(pinned).connections + d.connections <= limits.connections
    && Total(pinned).handles + d.handles <= limits.handles
    && d.engines <= limits.engines && d.flushers <= limits.flushers
  }

  /** The legacy space and those with live leases. */
  function InUse(runtimes: map<Id, Runtime>, legacy: Id, live: multiset<Id>): map<Id, Runtime> {
    map id | id in runtimes && (id == legacy || live[id] > 0) :: runtimes[id]
  }

  /** A space of so many domains and connections has room beside the legacy space and
      those with live leases. */
  ghost predicate RoomFor(limits: Limits, runtimes: map<Id, Runtime>, legacy: Id, live: multiset<Id>, domains: nat,
                          connections: nat) {
    var kept := InUse(runtimes, legacy, live);
    && |kept| + 1 <= limits.spaces
    && Total(kept).domains + domains <= limits.domains
    && Total(kept).connections + connections <= limits.connections
    && Total(kept).handles + domains <= limits.handles
  }

  /** It has room as things are, and nothing need be evicted. */
  predicate RoomNow(limits: Limits, inner: Inner, domains: nat, connections: nat) {
    && |inner.runtimes| + 1 <= limits.spaces
    && inner.openDomains + domains <= limits.domains
    && inner.connections + connections <= limits.connections
    && inner.handles + domains <= limits.handles
  }

  lemma {:induction false} RoomIsFit(limits: Limits, inner: Inner, live: multiset<Id>, legacy: Id, r: Runtime)
    requires Exact(limits, inner, live) && r.handles == r.domains
    ensures FitsBeside(limits, Pinned(inner, legacy), DemandOf(r))
       <==> RoomFor(limits, inner.runtimes, legacy, live, r.domains, r.connections)
    ensures Fits(limits, inner, DemandOf(r)) <==> RoomNow(limits, inner, r.domains, r.connections)
  {
    hide Total;
    forall id ensures LeaseCount(inner, id) == live[id] {
    }
    assert InUse(inner.runtimes, legacy, live) == Pinned(inner, legacy);
  }

  /** The space was used last. */
  predicate MostRecent(inner: Inner, id: Id) {
    id in inner.lastUsed && forall x :: x in inner.lastUsed ==> inner.lastUsed[x] <= inner.lastUsed[id]
  }

  /** `after` is `before` with some evictable spaces evicted, none of them used more
      recently than one that was kept. */
  ghost predicate Evicted(before: Inner, after: Inner, legacy: Id) {
    && Within(after.runtimes, before.runtimes)
    && Pinned(after, legacy) == Pinned(before, legacy)
    && (forall id :: id in after.lastUsed ==> id in before.lastUsed && before.lastUsed[id] == after.lastUsed[id])
    && (forall id :: id in after.runtimes ==> LeaseCount(after, id) == LeaseCount(before, id))
    && (forall x, y :: x in before.lastUsed && x !in after.lastUsed && Evictable(after, legacy, y) ==>
          before.lastUsed[x] <= before.lastUsed[y])
    && after.closing == before.closing && after.tick == before.tick
  }

  // ---------------------------------------------------------------------
  // Eviction
  // ---------------------------------------------------------------------

  function ReleaseResources(inner: Inner, r: Runtime): Inner {
    inner.(openDomains := SaturatingSub(inner.openDomains, r.domains),
           connections := SaturatingSub(inner.connections, r.connections),
           handles := SaturatingSub(inner.handles, r.handles))
  }

  function Evict(inner: Inner, id: Id): Inner {
    var gone := if id in inner.runtimes then ReleaseResources(inner, inner.runtimes[id]) else inner;
    gone.(runtimes := inner.runtimes - {id}, lastUsed := inner.lastUsed - {id}, leases := inner.leases - {id})
  }

  /** No subtraction of a release saturates, and the counters stay exact. */
  lemma {:induction false} EvictExact(limits: Limits, inner: Inner, live: multiset<Id>, legacy: Id, id: Id)
    requires Exact(limits, inner, live) && Evictable(inner, legacy, id)
    ensures Exact(limits, Evict(inner, id), live)
    ensures inner.runtimes[id].domains <= inner.openDomains && inner.runtimes[id].connections <= inner.connections
      && inner.runtimes[id].handles <= inner.handles
  {
    hide Total;
    TotalWithout(inner.runtimes, id);
    Removed(inner.runtimes, id);
    var next := Evict(inner, id);
    forall x ensures LeaseCount(next, x) == live[x] {
      assert LeaseCount(inner, x) == live[x];
    }
  }

  /** The least recently used evictable space. */
  ghost predicate Oldest(inner: Inner, legacy: Id, id: Id) {
    && Evictable(inner, legacy, id)
    && forall x :: Evictable(inner, legacy, x) ==> inner.lastUsed[id] <= inner.lastUsed[x]
  }

  method LeastRecentlyUsed(inner: Inner, legacy: Id) returns (candidate: Option<Id>)
    ensures candidate.Some? ==> Oldest(inner, legacy, candidate.value)
    ensures candidate.None? ==> forall x :: !Evictable(inner, legacy, x)
  {
    candidate := None;
    var pending := inner.lastUsed.Keys;
    while pending != {}
      invariant pending <= inner.lastUsed.Keys
      invariant match candidate
        case Some(id) => Evictable(inner, legacy, id)
          && forall x :: Evictable(inner, legacy, x) && x !in pending ==> inner.lastUsed[id] <= inner.lastUsed[x]
        case None => forall x :: Evictable(inner, legacy, x) ==> x in pending
      decreases pending
    {
      var id :| id in pending;
      pending := pending - {id};
      if id != legacy && LeaseCount(inner, id) == 0 {
        if candidate.None? || inner.lastUsed[id] < inner.lastUsed[candidate.value] {
          candidate := Some(id);
        }
      }
    }
  }

  lemma {:induction false} EvictKeepsPinned(inner: Inner, legacy: Id, id: Id)
    requires Evictable(inner, legacy, id)
    ensures Pinned(Evict(inner, id), legacy) == Pinned(inner, legacy)
  {
    hide Total;
    var next := Evict(inner, id);
    assert forall x :: x != id ==> LeaseCount(next, x) == LeaseCount(inner, x);
    assert id !in Pinned(inner, legacy) && id !in Pinned(next, legacy);
    forall x ensures x in Pinned(next, legacy) <==> x in Pinned(inner, legacy) {
    }
    forall x | x in Pinned(next, legacy) ensures Pinned(next, legacy)[x] == Pinned(inner, legacy)[x] {
    }
  }

  lemma {:induction false} EvictKeepsIdle(inner: Inner, legacy: Id, id: Id)
    requires Evictable(inner, legacy, id)
    ensures id in inner.lastUsed
    ensures forall y :: Evictable(Evict(inner, id), legacy, y) ==>
        Evictable(inner, legacy, y) && y != id && y in inner.lastUsed
    ensures forall x :: x != id ==> LeaseCount(Evict(inner, id), x) == LeaseCount(inner, x)
  {
    hide Total;
  }

  lemma {:induction false} EvictOldest(before: Inner, inner: Inner, legacy: Id, id: Id)
    requires Evicted(before, inner, legacy) && Oldest(inner, legacy, id)
    requires inner.lastUsed.Keys == inner.runtimes.Keys
    ensures Evicted(before, Evict(inner, id), legacy)
  {
    hide Total, Pinned, Evictable, LeaseCount;
    var next := Evict(inner, id);
    EvictKeepsPinned(inner, legacy, id);
    EvictKeepsIdle(inner, legacy, id);
    forall x, y | x in before.lastUsed && x !in next.lastUsed && Evictable(next, legacy, y)
      ensures before.lastUsed[x] <= before.lastUsed[y]
    {
      if x == id {
        assert inner.lastUsed[id] <= inner.lastUsed[y];
      }
    }
  }

  /** Makes room by evicting least-recently-used spaces that are neither leased nor
      legacy.  `healthy` are the spaces that flush without error. */
  method ReserveCapacity(limits: Limits, legacy: Id, before: Inner, d: Demand, healthy: set<Id>,
      ghost live: multiset<Id>)
    returns (result: Result, inner: Inner)
    requires Exact(limits, before, live)
    ensures Exact(limits, inner, live) && Evicted(before, inner, legacy)
    ensures result.Ok? ==> Fits(limits, inner, d) && FitsBeside(limits, Pinned(before, legacy), d)
    ensures result == Err(Capacity) ==> !FitsBeside(limits, Pinned(before, legacy), d)
    ensures Fits(limits, before, d) ==> result == Ok && inner == before
    ensures result.Err? && result != Err(Capacity) ==>
      && result.error.Flush? && result.error.id !in healthy && result.error.id in before.runtimes
      && Oldest(inner, legacy, result.error.id)
    ensures result.Ok? ==> inner == before || exists last :: Overfull(limits, before, last, inner, legacy, d)
  {
    hide Exact, Evicted, FitsBeside, Pinned, Oldest, Evict;
    inner := before;
    EvictedNothing(before, legacy);
    if d.domains > limits.domains || d.connections > limits.connections || d.handles > limits.handles
      || d.engines > limits.engines || d.flushers > limits.flushers {
      TooLarge(limits, Pinned(before, legacy), d);
      return Err(Capacity), inner;
    }
    ghost var last := before;
    while !Fits(limits, inner, d)
      invariant Exact(limits, inner, live) && Evicted(before, inner, legacy)
      invariant Fits(limits, before, d) ==> inner == before
      invariant inner == before || Overfull(limits, before, last, inner, legacy, d)
      decreases |inner.runtimes|
    {
      var candidate := LeastRecentlyUsed(inner, legacy);
      if candidate.None? {
        NothingLeft(limits, before, inner, legacy, d, live);
        return Err(Capacity), inner;
      }
      var id := candidate.value;
      if id !in healthy {
        OldestResident(limits, before, inner, legacy, id, live);
        return Err(Flush(id)), inner;
      }
      last := inner;
      EvictStep(limits, before, inner, legacy, id, d, live);
      inner := Evict(inner, id);
    }
    RoomBeside(limits, before, inner, legacy, d, live);
    result := Ok;
  }

  /** One eviction earlier the demand did not fit. */
  ghost predicate Overfull(limits: Limits, before: Inner, last: Inner, inner: Inner, legacy: Id, d: Demand) {
    && Evicted(before, last, legacy) && !Fits(limits, last, d)
    && exists id :: Oldest(last, legacy, id) && inner == Evict(last, id)
  }

  lemma {:induction false} OldestResident(limits: Limits, before: Inner, inner: Inner, legacy: Id, id: Id,
      live: multiset<Id>)
    requires Exact(limits, inner, live) && Evicted(before, inner, legacy) && Oldest(inner, legacy, id)
    ensures id in before.runtimes
  {
  }

  lemma {:induction false} EvictedNothing(before: Inner, legacy: Id)
    ensures Evicted(before, before, legacy)
  {
  }

  lemma {:induction false} TooLarge(limits: Limits, pinned: map<Id, Runtime>, d: Demand)
    requires d.domains > limits.domains || d.connections > limits.connections || d.handles > limits.handles
      || d.engines > limits.engines || d.flushers > limits.flushers
    ensures !FitsBeside(limits, pinned, d)
  {
  }

  lemma {:induction false} EvictStep(limits: Limits, before: Inner, inner: Inner, legacy: Id, id: Id, d: Demand,
      live: multiset<Id>)
    requires Exact(limits, inner, live) && Evicted(before, inner, legacy) && Oldest(inner, legacy, id)
        && !Fits(limits, inner, d)
    ensures Exact(limits, Evict(inner, id), live) && Evicted(before, Evict(inner, id), legacy)
    ensures Overfull(limits, before, inner, Evict(inner, id), legacy, d)
    ensures |Evict(inner, id).runtimes| < |inner.runtimes|
  {
    EvictExact(limits, inner, live, legacy, id);
    EvictOldest(before, inner, legacy, id);
    Removed(inner.runtimes, id);
  }

  lemma {:induction false} NothingLeft(limits: Limits, before: Inner, inner: Inner, legacy: Id, d: Demand,
      live: multiset<Id>)
    requires Exact(limits, inner, live) && Evicted(before, inner, legacy) && !Fits(limits, inner, d)
    requires forall x :: !Evictable(inner, legacy, x)
    ensures !FitsBeside(limits, Pinned(before, legacy), d)
  {
    assert Pinned(inner, legacy) == inner.runtimes by {
      forall id | id in inner.runtimes ensures id in Pinned(inner, legacy) {
        assert !Evictable(inner, legacy, id);
      }
    }
  }

  lemma {:induction false} RoomBeside(limits: Limits, before: Inner, inner: Inner, legacy: Id, d: Demand,
      live: multiset<Id>)
    requires Exact(limits, inner, live) && Evicted(before, inner, legacy) && Fits(limits, inner, d)
    ensures FitsBeside(limits, Pinned(before, legacy), d)
  {
    assert Within(Pinned(inner, legacy), inner.runtimes);
    TotalWithin(Pinned(inner, legacy), inner.runtimes);
  }

  // ---------------------------------------------------------------------
  // Leases
  // ---------------------------------------------------------------------

  function IncrementLease(inner: Inner, id: Id): Inner {
    var tick := SaturatingAdd(inner.tick, 1);
    inner.(leases := inner.leases[id := LeaseCount(inner, id) + 1], tick := tick,
           lastUsed := inner.lastUsed[id := tick])
  }

  function DecrementLease(inner: Inner, id: Id): Inner {
    var tick := SaturatingAdd(inner.tick, 1);
    inner.(leases := if id in inner.leases then inner.leases[id := SaturatingSub(inner.leases[id], 1)]
           else inner.leases,
           tick := tick, lastUsed := inner.lastUsed[id := tick])
  }

  lemma {:induction false} IncrementExact(limits: Limits, inner: Inner, live: multiset<Id>, id: Id)
    requires Exact(limits, inner, live) && id in inner.runtimes
    ensures Exact(limits, IncrementLease(inner, id), live + multiset{id})
    ensures MostRecent(IncrementLease(inner, id), id)
  {
    hide Total, LeaseCount;
    LeasesWith(limits, inner, inner, live, id);
  }

  /** The count of a leased space never saturates at zero. */
  lemma {:induction false} DecrementExact(limits: Limits, inner: Inner, live: multiset<Id>, id: Id)
    requires Exact(limits, inner, live) && id in live
    ensures Exact(limits, DecrementLease(inner, id), live - multiset{id})
    ensures id in inner.leases && inner.leases[id] >= 1
    ensures MostRecent(DecrementLease(inner, id), id)
  {
    var next, fewer := DecrementLease(inner, id), live - multiset{id};
    assert LeaseCount(inner, id) == live[id];
    forall x ensures LeaseCount(next, x) == fewer[x] {
      assert LeaseCount(inner, x) == live[x];
    }
  }

  lemma {:induction false} InsertExact(limits: Limits, inner: Inner, live: multiset<Id>, id: Id, r: Runtime)
    requires Exact(limits, inner, live) && id !in inner.runtimes && id !in inner.closing
    requires Fits(limits, inner, DemandOf(r))
    ensures Exact(limits, IncrementLease(Opened(inner, id, r), id), live + multiset{id})
    ensures MostRecent(IncrementLease(Opened(inner, id, r), id), id)
  {
    hide Total, LeaseCount;
    TotalWith(inner.runtimes, id, r);
    SizeWith(inner.runtimes, id, r);
    LeasesWith(limits, inner, Opened(inner, id, r), live, id);
  }

  lemma {:induction false} SizeWith(m: map<Id, Runtime>, id: Id, r: Runtime)
    requires id !in m
    ensures |m[id := r]| == |m| + 1
  {
    Removed(m[id := r], id);
    assert m[id := r] - {id} == m;
  }

  /** Counting a lease in. */
  lemma {:induction false} LeasesWith(limits: Limits, before: Inner, inner: Inner, live: multiset<Id>, id: Id)
    requires Exact(limits, before, live) && inner.leases == before.leases
    ensures forall x :: LeaseCount(IncrementLease(inner, id), x) == (live + multiset{id})[x]
  {
    hide Total;
    forall x ensures LeaseCount(IncrementLease(inner, id), x) == (live + multiset{id})[x] {
      assert LeaseCount(before, x) == live[x];
    }
  }

  function Opened(inner: Inner, id: Id, r: Runtime): Inner {
    inner.(openDomains := inner.openDomains + r.domains, connections := inner.connections + r.connections,
           handles := inner.handles + r.handles, runtimes := inner.runtimes[id := r])
  }

  /** What opening a space costs; nothing if the product overflows. */
  function CostOf(domains: nat, jobs: nat): Option<Runtime> {
    var perDomain := if jobs + 1 > USIZE_MAX then USIZE_MAX else jobs + 1;
    if domains * perDomain > USIZE_MAX then None else Some(Runtime(domains, domains * perDomain, domains))
  }

  function DemandOf(r: Runtime): Demand { Demand(r.domains, r.connections, r.handles, 0, 0) }

  // ---------------------------------------------------------------------
  // Closing
  // ---------------------------------------------------------------------

  function MarkClosing(inner: Inner, id: Id): Inner {
    var marked := inner.(closing := inner.closing + {id});
    if id in inner.runtimes then
      ReleaseResources(marked, inner.runtimes[id]).(runtimes := inner.runtimes - {id},
                                                    lastUsed := inner.lastUsed - {id})
    else marked
  }

  lemma {:induction false} LeasesAreLive(limits: Limits, inner: Inner, live: multiset<Id>, id: Id)
    requires Exact(limits, inner, live)
    ensures LeaseCount(inner, id) == live[id]
  {
  }

  lemma {:induction false} MarkExact(limits: Limits, inner: Inner, live: multiset<Id>, id: Id)
    requires Exact(limits, inner, live) && LeaseCount(inner, id) == 0
    ensures Exact(limits, MarkClosing(inner, id), live)
    ensures MarkClosing(inner, id).runtimes == inner.runtimes - {id}
    ensures MarkClosing(inner, id).closing == inner.closing + {id}
  {
    hide Total, ReleaseResources;
    LeasesAreLive(limits, inner, live, id);
    if id in inner.runtimes {
      ReleaseExact(limits, inner, live, id);
    } else {
      assert inner.runtimes - {id} == inner.runtimes;
      assert forall x :: LeaseCount(MarkClosing(inner, id), x) == LeaseCount(inner, x);
    }
  }

  lemma {:induction false} ReleaseExact(limits: Limits, inner: Inner, live: multiset<Id>, id: Id)
    requires Exact(limits, inner, live) && id in inner.runtimes && live[id] == 0
    ensures Exact(limits, MarkClosing(inner, id), live) && MarkClosing(inner, id).closing == inner.closing + {id}
  {
    hide Total;
    TotalWithout(inner.runtimes, id);
    Removed(inner.runtimes, id);
    assert forall x :: LeaseCount(MarkClosing(inner, id), x) == LeaseCount(inner, x);
  }

  class Registry {
    const limits: Limits
    const legacy: Id
    var inner: Inner
    ghost var live: multiset<Id>        // request leases handed out and not dropped
    ghost var underway: set<Id>         // closes between their two critical sections
    ghost var maintained: set<Id>       // exclusive leases handed out and not dropped

    ghost predicate Valid()
      reads this
    {
      && ValidLimits(limits)
      && Exact(limits, inner, live)
      && inner.closing == underway + maintained && underway !! maintained
    }

    constructor (limits: Limits, legacy: Id)
      requires ValidLimits(limits)
      ensures Valid() && this.limits == limits && this.legacy == legacy
      ensures live == multiset{} && inner.runtimes == map[] && inner.closing == {}
    {
      this.limits, this.legacy := limits, legacy;
      inner := Inner(map[], map[], map[], 0, 0, 0, 0, 0, 0, {});
      live, underway, maintained := multiset{}, {}, {};
    }

    /** Hands out a lease on a space, opening it if it is not resident.  `catalog` is
        what the catalog knows, `opens` whether its store can be opened. */
    method Acquire(id: Id, catalog: Option<Catalog>, jobs: nat, healthy: set<Id>, opens: bool) returns (result: Result)
      requires Valid()
      modifies this
      ensures Valid() && underway == old(underway) && maintained == old(maintained)
          && inner.closing == old(inner.closing)
      ensures live == if result.Ok? then old(live) + multiset{id} else old(live)
      ensures result.Ok? ==> id in inner.runtimes && id in inner.lastUsed
      ensures result.Ok? ==> forall x :: x in inner.lastUsed ==> inner.lastUsed[x] <= inner.lastUsed[id]
      ensures id in old(inner.closing) ==> result == Err(Closing)
      ensures id !in old(inner.closing) && id in old(inner.runtimes) ==>
          result.Ok? && inner == IncrementLease(old(inner), id)
      ensures id !in old(inner.closing) && id !in old(inner.runtimes) ==>
        if catalog.None? || !catalog.value.active then result == Err(Inactive)
        else
          var domains := catalog.value.domains;
          var connections := domains * if jobs + 1 > USIZE_MAX then USIZE_MAX else jobs + 1;
          var fits := connections <= USIZE_MAX
                      && RoomFor(limits, old(inner.runtimes), legacy, old(live), domains, connections);
          && (result.Ok? ==> inner.runtimes[id] == Runtime(domains, connections, domains))
          && (result == Err(Capacity) ==> !fits)
          && (result == Err(Open) || result.Ok? ==> fits && (result.Ok? <==> opens))
          && (result.Err? && !result.error.Capacity? && !result.error.Open? ==>
                result.error.Flush? && result.error.id in old(inner.runtimes) && result.error.id !in healthy)
          && (connections > USIZE_MAX ==> result == Err(Capacity))
          && (connections <= USIZE_MAX && RoomNow(limits, old(inner), domains, connections) ==>
                (result.Ok? || result == Err(Open)) && old(inner.runtimes.Keys) <= inner.runtimes.Keys)
      ensures forall x :: x in inner.runtimes && x != id ==>
          x in old(inner.runtimes) && inner.runtimes[x] == old(inner.runtimes)[x]
      ensures forall x :: x in old(inner.runtimes) && x !in inner.runtimes ==> x != legacy && old(live)[x] == 0
    {
      hide Exact, Evicted, FitsBeside, Fits, Pinned, RoomFor, RoomNow, IncrementLease, Opened;
      if id in inner.closing {
        return Err(Closing);
      }
      if id in inner.runtimes {
        IncrementExact(limits, inner, live, id);
        IncrementKeeps(inner, id);
        inner := IncrementLease(inner, id);
        live := live + multiset{id};
        return Ok;
      }
      if catalog.None? || !catalog.value.active {
        return Err(Inactive);
      }
      var cost := CostOf(catalog.value.domains, jobs);
      if cost.None? {
        return Err(Capacity);
      }
      var r := cost.value;
      RoomIsFit(limits, inner, live, legacy, r);
      var reserved, room := ReserveCapacity(limits, legacy, inner, DemandOf(r), healthy, live);
      OnlyIdleEvicted(limits, inner, room, legacy, live);
      if reserved.Err? {
        inner := room;
        return reserved;
      }
      if !opens {
        inner := room;
        return Err(Open);
      }
      InsertExact(limits, room, live, id, r);
      InsertKeeps(room, id, r);
      inner := IncrementLease(Opened(room, id, r), id);
      live := live + multiset{id};
      result := Ok;
    }

    /** A lease is dropped: its count goes down by exactly one. */
    method DropLease(id: Id)
      requires Valid() && id in live
      modifies this
      ensures Valid() && live == old(live) - multiset{id}
      ensures inner == DecrementLease(old(inner), id) && LeaseCount(inner, id) == LeaseCount(old(inner), id) - 1
      ensures underway == old(underway) && maintained == old(maintained)
      ensures id in inner.lastUsed && forall x :: x in inner.lastUsed ==> inner.lastUsed[x] <= inner.lastUsed[id]
    {
      DecrementExact(limits, inner, live, id);
      inner := DecrementLease(inner, id);
      live := live - multiset{id};
    }

    /** The first critical section of a close: refuses leased and closing spaces, and
        takes the runtime out of the registry before the mark is set. */
    method BeginClose(id: Id, active: bool, healthy: set<Id>) returns (result: Result)
      requires Valid()
      modifies this
      ensures Valid() && live == old(live) && maintained == old(maintained)
      ensures result
           == if !active then Err(Inactive)
              else if id in old(inner.closing) then Err(Closing)
              else if old(live)[id] > 0 then Err(Leased)
              else if id in old(inner.runtimes) && id !in healthy then Err(Flush(id))
              else Ok
      ensures result.Err? ==> inner == old(inner) && underway == old(underway)
      ensures result.Ok? ==> underway == old(underway) + {id} && id in inner.closing && id !in inner.runtimes
      ensures result.Ok? ==> inner.runtimes == old(inner.runtimes) - {id}
    {
      hide Exact, MarkClosing;
      if !active {
        return Err(Inactive);
      }
      if id in inner.closing {
        return Err(Closing);
      }
      LeasesAreLive(limits, inner, live, id);
      if LeaseCount(inner, id) != 0 {
        return Err(Leased);
      }
      if id in inner.runtimes && id !in healthy {
        return Err(Flush(id));
      }
      MarkExact(limits, inner, live, id);
      inner := MarkClosing(inner, id);
      underway := underway + {id};
      result := Ok;
    }

    /** The second: the exclusive lease, or the mark removed again. */
    method FinishClose(id: Id, locked: bool)
      requires Valid() && id in underway
      modifies this
      ensures Valid() && live == old(live) && underway == old(underway) - {id}
      ensures maintained == if locked then old(maintained) + {id} else old(maintained)
      ensures inner == if locked then old(inner) else old(inner).(closing := old(inner).closing - {id})
    {
      underway := underway - {id};
      if locked {
        maintained := maintained + {id};
      } else {
        inner := inner.(closing := inner.closing - {id});
        assert forall x :: LeaseCount(inner, x) == LeaseCount(old(inner), x);
      }
    }

    /** Closes a space for maintenance; a failed close leaves no mark behind. */
    method CloseForMaintenance(id: Id, active: bool, healthy: set<Id>, locked: bool) returns (result: Result)
      requires Valid()
      modifies this
      ensures Valid() && live == old(live) && underway == old(underway)
      ensures result.Ok? ==> maintained == old(maintained) + {id} && id in inner.closing
      ensures result.Err? ==> inner.closing == old(inner.closing) && maintained == old(maintained)
      ensures result.Ok? <==>
        && locked && active && id !in old(inner.closing) && old(live)[id] == 0
        && (id in old(inner.runtimes) ==> id in healthy)
    {
      hide Exact;
      result := BeginClose(id, active, healthy);
      if result.Ok? {
        FinishClose(id, locked);
        result := if locked then Ok else Err(Open);
      }
    }

    /** The exclusive lease is dropped: the space can be opened again. */
    method DropExclusive(id: Id)
      requires Valid() && id in maintained
      modifies this
      ensures Valid() && live == old(live) && underway == old(underway) && maintained == old(maintained) - {id}
      ensures inner == old(inner).(closing := old(inner).closing - {id})
    {
      maintained := maintained - {id};
      inner := inner.(closing := inner.closing - {id});
      assert forall x :: LeaseCount(inner, x) == LeaseCount(old(inner), x);
    }
  }

  lemma {:induction false} IncrementKeeps(inner: Inner, id: Id)
    ensures IncrementLease(inner, id).runtimes == inner.runtimes && IncrementLease(inner, id).closing == inner.closing
  {
  }

  lemma {:induction false} InsertKeeps(inner: Inner, id: Id, r: Runtime)
    ensures IncrementLease(Opened(inner, id, r), id).runtimes == inner.runtimes[id := r]
    ensures IncrementLease(Opened(inner, id, r), id).closing == inner.closing
  {
  }

  /** Eviction takes neither the legacy space nor a leased one. */
  lemma {:induction false} OnlyIdleEvicted(limits: Limits, before: Inner, after: Inner, legacy: Id, live: multiset<Id>)
    requires Exact(limits, before, live) && Evicted(before, after, legacy)
    ensures forall x :: x in before.runtimes && x !in after.runtimes ==> x != legacy && live[x] == 0
    ensures after.closing == before.closing
    ensures forall x :: x in after.runtimes ==> x in before.runtimes && after.runtimes[x] == before.runtimes[x]
  {
    forall x | x in before.runtimes && x !in after.runtimes ensures x != legacy && live[x] == 0 {
      assert x !in Pinned(after, legacy);
      assert x !in Pinned(before, legacy);
      assert LeaseCount(before, x) == live[x];
    }
  }
}
