/** All shards of a running engine, the admission gate, and any number of
    overlapping pausers, through any number of ends and starts of the process.  No
    event is left out: torn journals are appended to, errors are reported late, and
    commits follow them. */
module Engine {
  import opened Prelude
  import opened Requests
  import opened Journal
  import opened ShardMachine
  import opened ShardSafety
  import opened ShardTheorems
  import opened ShardMemory

  /** How far one caller of the pause has got: the gate is raised and it reads the
      shards' counters; it waits for each watermark in turn; it holds the guard. */
  datatype Pauser = Reading(seen: seq<nat>) | Waiting(seen: seq<nat>, confirmed: nat) | Holding

  /** The engine of the running process, or, while no process is `open`, what the
      next one starts from. */
  datatype Engine = Engine(
    router: Router,
    domains: nat,
    shards: seq<Shard>,
    open: bool,
    paused: nat,
    pausers: map<nat, Pauser>)

  datatype Event =
    | OnShard(index: nat, op: Op)
    | Open
    | Halt(faults: seq<Op>)
    | Raise(who: nat)
    | ReadCounter(who: nat)
    | Confirm(who: nat)
    | Return(who: nat)
    | Resume(who: nat)

  function ShardFor(e: Engine, name: string): nat
    requires e.shards != []
  {
    e.router.hash(name) % |e.shards|
  }

  /** The domain that owns shard `index`. */
  function DomainOfShard(e: Engine, index: nat): nat
    requires e.domains > 0
  {
    index % e.domains
  }

  /** What the end of a process does to one shard; a shard that was not opened yet
      only suffers from a loss of power. */
  predicate Suffers(s: Shard, fault: Op) {
    IsFault(fault) && ((s.mode == Down && fault.ProcessCrash?) || Enabled(s, fault))
  }

  function Suffered(s: Shard, fault: Op): Shard
    requires Suffers(s, fault)
  {
    if s.mode == Down && fault.ProcessCrash? then s else Apply(s, fault)
  }

  predicate Can(e: Engine, event: Event) {
    match event
    case OnShard(i, op) =>
      && i < |e.shards| && Enabled(e.shards[i], op) && !IsFault(op) && !op.FinishBoot?
      && (op.Submit? ==> e.paused == 0 && i == ShardFor(e, op.req.name))
    case Open => !e.open && forall i :: 0 <= i < |e.shards| ==> Enabled(e.shards[i], FinishBoot)
    case Halt(faults) =>
      |faults| == |e.shards| && forall i :: 0 <= i < |faults| ==> Suffers(e.shards[i], faults[i])
    case Raise(p) => e.open && p !in e.pausers
    case ReadCounter(p) => p in e.pausers && e.pausers[p].Reading? && |e.pausers[p].seen| < |e.shards|
    case Confirm(p) =>
      p in e.pausers &&
      (match e.pausers[p]
       case Reading(seen) => |seen| == |e.shards|
       case Waiting(seen, k) => k < |seen| == |e.shards| && seen[k] <= e.shards[k].durable
       case Holding => false)
    case Return(p) => p in e.pausers && e.pausers[p].Waiting? && e.pausers[p].confirmed == |e.shards|
    case Resume(p) => p in e.pausers && e.pausers[p].Holding?
  }

  function Do(e: Engine, event: Event): Engine
    requires Can(e, event)
  {
    match event
    case OnShard(i, op) => e.(shards := e.shards[i := Apply(e.shards[i], op)])
    case Open =>
      e.(open := true,
         shards := seq(|e.shards|, i requires 0 <= i < |e.shards| => Apply(e.shards[i], FinishBoot)))
    case Halt(faults) =>
      Engine(e.router, e.domains,
             seq(|e.shards|, i requires 0 <= i < |e.shards| => Suffered(e.shards[i], faults[i])),
             false, 0, map[])
    case Raise(p) => e.(paused := e.paused + 1, pausers := e.pausers[p := Reading([])])
    case ReadCounter(p) =>
      var seen := e.pausers[p].seen;
      e.(pausers := e.pausers[p := Reading(seen + [e.shards[|seen|].nextSeq])])
    case Confirm(p) =>
      (match e.pausers[p]
       case Reading(seen) => e.(pausers := e.pausers[p := Pauser.Waiting(seen, 0)])
       case Waiting(seen, k) => e.(pausers := e.pausers[p := Pauser.Waiting(seen, k + 1)]))
    case Return(p) => e.(pausers := e.pausers[p := Holding])
    case Resume(p) =>
      e.(paused := if e.paused == 0 then 0 else e.paused - 1, pausers := e.pausers - {p})
  }

  // ---------------------------------------------------------------------
  // The invariant
  // ---------------------------------------------------------------------

  /** The requests whose name hashes to shard `i` of `count`. */
  function HashedTo(router: Router, count: nat, i: nat): Request -> bool
    requires count > 0
  {
    (r: Request) => router.hash(r.name) % count == i
  }

  /** Whatever shard `i` holds, has journalled or has committed hashes to it. */
  ghost predicate Routed(e: Engine, i: nat)
    requires i < |e.shards|
  {
    AllOf(e.shards[i], HashedTo(e.router, |e.shards|, i))
  }

  ghost predicate PauserOk(shards: seq<Shard>, p: Pauser) {
    match p
    case Reading(seen) =>
      |seen| <= |shards| && forall i :: 0 <= i < |seen| ==> seen[i] == shards[i].nextSeq
    case Waiting(seen, k) =>
      && k <= |seen| == |shards|
      && (forall i :: 0 <= i < |seen| ==> seen[i] == shards[i].nextSeq)
      && (forall i :: 0 <= i < k ==> shards[i].durable == shards[i].nextSeq)
    case Holding =>
      forall i :: 0 <= i < |shards| ==> shards[i].durable == shards[i].nextSeq
  }

  ghost predicate EngineInv(e: Engine) {
    && e.shards != [] && e.domains > 0 && |e.shards| % e.domains == 0
    && (forall i :: 0 <= i < |e.shards| ==>
          MemoryInv(e.shards[i]) && (e.open <==> e.shards[i].mode == Serving) && Routed(e, i))
    && e.paused == |e.pausers| && (!e.open ==> e.pausers == map[])
    && (forall p :: p in e.pausers ==> PauserOk(e.shards, e.pausers[p]))
  }

  /** A step of one shard, seen from the gate: the counter moves only by an
      admission, the watermark only up and never past the counter. */
  lemma {:induction false} ShardStep(s: Shard, op: Op, ok: Request -> bool)
    requires MemoryInv(s) && AllOf(s, ok) && Enabled(s, op) && !IsFault(op) && !op.FinishBoot?
    requires op.Submit? ==> ok(op.req)
    ensures var t := Apply(s, op);
      && MemoryInv(t) && AllOf(t, ok) && (t.mode == Serving <==> s.mode == Serving)
      && (s.mode == Serving ==> s.durable <= t.durable <= t.nextSeq)
      && (s.mode == Serving && !op.Submit? ==> t.nextSeq == s.nextSeq)
      && (op.Submit? ==> s.mode == Serving)
  {
    hide MemoryInv, AllOf, Halted, Read, Above, HighestSeq, Checkpoint;
    StepMemory(s, op);
    StepAllOf(s, op, ok);
    if s.mode == Serving {
      WatermarkMonotone(s, op);
    }
  }

  lemma {:induction false} OnShardInv(e: Engine, i: nat, op: Op)
    requires EngineInv(e) && Can(e, OnShard(i, op))
    ensures EngineInv(Do(e, OnShard(i, op)))
  {
    hide MemoryInv, AllOf, Apply, Enabled;
    var s, t := e.shards[i], Apply(e.shards[i], op);
    var next := Do(e, OnShard(i, op));
    assert Routed(e, i);
    ShardStep(s, op, HashedTo(e.router, |e.shards|, i));
    forall j | 0 <= j < |next.shards| ensures Routed(next, j) {
      assert Routed(e, j);
    }
    assert e.paused == 0 ==> e.pausers == map[];
    if !op.Submit? {
      forall p | p in next.pausers ensures PauserOk(next.shards, next.pausers[p]) {
        assert PauserOk(e.shards, e.pausers[p]);
      }
    }
  }

  /** The end of the process leaves every shard stopped, with nothing that does not
      belong to it. */
  lemma {:induction false} HaltInv(e: Engine, faults: seq<Op>)
    requires EngineInv(e) && Can(e, Halt(faults))
    ensures EngineInv(Do(e, Halt(faults)))
  {
    hide MemoryInv, AllOf, Apply, Enabled, Suffers;
    var next := Do(e, Halt(faults));
    forall i | 0 <= i < |next.shards|
      ensures MemoryInv(next.shards[i]) && next.shards[i].mode == Down && Routed(next, i)
    {
      assert Routed(e, i);
      SufferedInv(e.shards[i], faults[i], HashedTo(e.router, |e.shards|, i));
    }
  }

  lemma {:induction false} SufferedInv(s: Shard, fault: Op, ok: Request -> bool)
    requires MemoryInv(s) && AllOf(s, ok) && Suffers(s, fault)
    ensures var t := Suffered(s, fault); MemoryInv(t) && t.mode == Down && AllOf(t, ok)
  {
    hide MemoryInv, AllOf, Read, Checkpoint, Cut;
    if s.mode != Down || fault.PowerLoss? {
      FaultMemory(s, fault);
      StepAllOf(s, fault, ok);
    }
  }

  lemma {:induction false} OpenInv(e: Engine)
    requires EngineInv(e) && Can(e, Open)
    ensures EngineInv(Do(e, Open))
  {
    hide MemoryInv, AllOf, Apply, Enabled;
    var next := Do(e, Open);
    forall i | 0 <= i < |next.shards|
      ensures MemoryInv(next.shards[i]) && next.shards[i].mode == Serving && Routed(next, i)
    {
      assert Routed(e, i);
      OpenedShard(e.shards[i], HashedTo(e.router, |e.shards|, i));
    }
  }

  lemma {:induction false} OpenedShard(s: Shard, ok: Request -> bool)
    requires MemoryInv(s) && AllOf(s, ok) && Enabled(s, FinishBoot)
    ensures var t := Apply(s, FinishBoot); MemoryInv(t) && t.mode == Serving && AllOf(t, ok)
  {
    hide MemoryInv, AllOf;
    StepMemory(s, FinishBoot);
    StepAllOf(s, FinishBoot, ok);
  }

  predicate AtGate(event: Event) { !event.OnShard? && !event.Open? && !event.Halt? }

  lemma {:induction false} GateInv(e: Engine, event: Event)
    requires EngineInv(e) && Can(e, event) && AtGate(event)
    ensures EngineInv(Do(e, event))
  {
    hide MemoryInv, AllOf, Enabled, Apply;
    var next, p := Do(e, event), event.who;
    assert next.shards == e.shards;
    forall j | 0 <= j < |next.shards| ensures Routed(next, j) {
      assert Routed(e, j);
    }
    GuardCount(e, event);
    forall q | q in next.pausers ensures PauserOk(next.shards, next.pausers[q]) {
      assert q in e.pausers ==> PauserOk(e.shards, e.pausers[q]);
      if q == p {
        OwnPauserOk(e, event);
      }
    }
  }

  lemma {:induction false} OwnPauserOk(e: Engine, event: Event)
    requires EngineInv(e) && Can(e, event) && AtGate(event) && event.who in Do(e, event).pausers
    ensures PauserOk(e.shards, Do(e, event).pausers[event.who])
  {
    hide MemoryInv, AllOf, Enabled, Apply;
    var p := event.who;
    assert p in e.pausers ==> PauserOk(e.shards, e.pausers[p]);
    if event.Confirm? && e.pausers[p].Waiting? {
      CounterBound(e.shards[e.pausers[p].confirmed]);
    }
  }

  lemma {:induction false} CounterBound(s: Shard)
    requires MemoryInv(s) && s.mode != Down
    ensures s.durable <= s.nextSeq
  {
    hide Checkpoint, Applied, Rejected, Own;
  }

  lemma {:induction false} GuardCount(e: Engine, event: Event)
    requires Can(e, event) && AtGate(event) && e.paused == |e.pausers|
    ensures Do(e, event).paused == |Do(e, event).pausers|
  {
    var next, p := Do(e, event), event.who;
    assert next.pausers.Keys == if event.Resume? then e.pausers.Keys - {p} else e.pausers.Keys + {p};
    assert |next.pausers.Keys| == |next.pausers| && |e.pausers.Keys| == |e.pausers|;
  }

  /** Every event of every interleaving of submitters, flushers, maintenance,
      pausers, ends of the process and restarts keeps the invariant. */
  lemma {:induction false} EventInv(e: Engine, event: Event)
    requires EngineInv(e) && Can(e, event)
    ensures EngineInv(Do(e, event))
  {
    match event
    case OnShard(i, op) => OnShardInv(e, i, op);
    case Halt(faults) => HaltInv(e, faults);
    case Open => OpenInv(e);
    case _ => GateInv(e, event);
  }

  // ---------------------------------------------------------------------
  // What a pause guarantees
  // ---------------------------------------------------------------------

  /** While any guard is held, every shard is drained: nothing is queued or in flight,
      every request this process has admitted is settled in its database, and nothing
      can be admitted. */
  lemma {:induction false} PauseIsConsistentCut(e: Engine, p: nat)
    requires EngineInv(e) && p in e.pausers && e.pausers[p] == Holding
    ensures forall i :: 0 <= i < |e.shards| ==> Drained(e.shards[i])
    ensures forall i, req, spill :: !Can(e, OnShard(i, Submit(req, spill)))
  {
    hide MemoryInv, AllOf, Enabled, Apply, Drained;
    assert PauserOk(e.shards, e.pausers[p]);
    forall i | 0 <= i < |e.shards| ensures Drained(e.shards[i]) {
      CaughtUpIsDrained(e.shards[i]);
    }
    assert e.pausers.Keys != {};
  }

  /** In a shard whose journal was appended to at line boundaries only, and whose
      processes committed nothing after a late error, the cut is everything ever
      accepted. */
  lemma {:induction false} CutIsEverything(e: Engine, p: nat, i: nat)
    requires EngineInv(e) && p in e.pausers && e.pausers[p] == Holding && i < |e.shards| && Inv(e.shards[i])
    ensures var s := e.shards[i];
      && |s.accepted| == Checkpoint(s.log) && AppliedExactlyOnce(s.log, s.accepted)
  {
    hide MemoryInv, AllOf, Enabled, Apply, Inv, Checkpoint, AppliedExactlyOnce;
    assert PauserOk(e.shards, e.pausers[p]);
    var s := e.shards[i];
    CaughtUpIsDrained(s);
    AcceptedCount(s);
  }

  lemma {:induction false} AcceptedCount(s: Shard)
    requires Inv(s) && s.mode == Serving
    ensures s.nextSeq == |s.accepted| && AppliedExactlyOnce(s.log, s.accepted)
  {
    hide Read, Render, Holds, LogOk, Checkpoint, Applied, Rejected, AppliedExactlyOnce;
    LogExactlyOnce(s.log, s.accepted);
  }

  /** No database and no counter differs. */
  ghost predicate Frozen(a: Engine, b: Engine) {
    |a.shards| == |b.shards| && forall i :: 0 <= i < |a.shards| ==>
      b.shards[i].log == a.shards[i].log && b.shards[i].accepted == a.shards[i].accepted
        && b.shards[i].nextSeq == a.shards[i].nextSeq
  }

  /** The cut does not move: no event changes any database or any counter as long
      as the guard is held and the process lives. */
  lemma {:induction false} PauseFreezesStores(e: Engine, p: nat, event: Event)
    requires EngineInv(e) && Can(e, event) && p in e.pausers && e.pausers[p] == Holding && !event.Halt?
    ensures Frozen(e, Do(e, event))
    ensures event != Resume(p) ==> p in Do(e, event).pausers && Do(e, event).pausers[p] == Holding
  {
    hide MemoryInv, AllOf, Apply, Enabled, Drained;
    PauseIsConsistentCut(e, p);
    if event.OnShard? {
      var i, op := event.index, event.op;
      assert Drained(e.shards[i]);
      assert e.paused > 0 by {
        assert e.pausers.Keys != {};
      }
      assert e.open;
      DrainedStep(e.shards[i], op);
    }
  }

  // ---------------------------------------------------------------------
  // Whole runs
  // ---------------------------------------------------------------------

  /** An engine that has never run, over `shards` shards, at least one; `None` if it
      refuses to start. */
  function Start(router: Router, shards: nat, domains: nat): Option<Engine>
    requires domains > 0
  {
    var count := if shards == 0 then 1 else shards;
    if count % domains != 0 then None
    else Some(Engine(router, domains, seq(count, _ => FRESH), false, 0, map[]))
  }

  ghost predicate LegalEvents(e: Engine, events: seq<Event>)
    decreases |events|
  {
    events == [] || (Can(e, events[0]) && LegalEvents(Do(e, events[0]), events[1..]))
  }

  ghost function After(e: Engine, events: seq<Event>): Engine
    requires LegalEvents(e, events)
    decreases |events|
  {
    if events == [] then e else After(Do(e, events[0]), events[1..])
  }

  ghost predicate Paused(e: Engine) {
    exists p :: p in e.pausers && e.pausers[p] == Holding
  }

  /** Some guard, not always the same one, is held all along. */
  ghost predicate HeldThroughout(e: Engine, events: seq<Event>)
    requires LegalEvents(e, events)
    decreases |events|
  {
    Paused(e) && (events == [] || HeldThroughout(Do(e, events[0]), events[1..]))
  }

  /** From the start, through any interleaving, the engine keeps its invariant; and
      as long as guards overlap, however many and in whatever order they drop, no
      database and no counter moves. */
  lemma {:induction false} RunKeepsCut(e: Engine, events: seq<Event>)
    requires EngineInv(e) && LegalEvents(e, events)
    ensures EngineInv(After(e, events)) && |After(e, events).shards| == |e.shards|
    ensures HeldThroughout(e, events) ==> Frozen(e, After(e, events))
    decreases |events|
  {
    hide EngineInv, Can, Do;
    if events != [] {
      var next := Do(e, events[0]);
      EventInv(e, events[0]);
      SameShards(e, events[0]);
      RunKeepsCut(next, events[1..]);
      if HeldThroughout(e, events) {
        var p :| p in e.pausers && e.pausers[p] == Holding;
        HaltUnpauses(e, events[0]);
        PauseFreezesStores(e, p, events[0]);
      }
    }
  }

  lemma {:induction false} HaltUnpauses(e: Engine, event: Event)
    requires Can(e, event) && Paused(Do(e, event))
    ensures !event.Halt?
  {
  }

  lemma {:induction false} SameShards(e: Engine, event: Event)
    requires Can(e, event)
    ensures |Do(e, event).shards| == |e.shards|
  {
  }

  /** An engine agrees to start exactly if, for every hash, the shard a name goes to belongs
      to the domain the name belongs to. */
  lemma {:induction false} StartsIff(router: Router, shards: nat, domains: nat)
    requires domains > 0
    ensures
      var count := if shards == 0 then 1 else shards;
      && (Start(router, shards, domains).Some? <==> forall h: nat :: Agree(h, count, domains))
      && (Start(router, shards, domains).Some? ==> |Start(router, shards, domains).value.shards| == count)
  {
    AgreeIff(if shards == 0 then 1 else shards, domains);
  }

  lemma {:induction false} Append(e: Engine, a: seq<Event>, event: Event)
    requires LegalEvents(e, a) && Can(After(e, a), event)
    ensures LegalEvents(e, a + [event]) && After(e, a + [event]) == Do(After(e, a), event)
    decreases |a|
  {
    hide Can, Do;
    if a == [] {
      assert [] + [event] == [event] && [event][1..] == [];
    } else {
      Append(Do(e, a[0]), a[1..], event);
      assert (a + [event])[0] == a[0] && (a + [event])[1..] == a[1..] + [event];
    }
  }

  /** A pause goes through as soon as nothing is left to wait for, whoever else is
      pausing: from there the pauser alone takes the guard, and nothing else moves. */
  lemma {:induction false} PauseCompletes(e: Engine, p: nat) returns (events: seq<Event>)
    requires e.open && p !in e.pausers
    requires forall i :: 0 <= i < |e.shards| ==> e.shards[i].durable == e.shards[i].nextSeq
    ensures LegalEvents(e, events)
    ensures After(e, events) == e.(paused := e.paused + 1, pausers := e.pausers[p := Holding])
  {
    hide Can, Do, LegalEvents, After;
    events := [Raise(p)];
    Raised(e, p);
    var seen: seq<nat> := [];
    while |seen| < |e.shards|
      invariant |seen| <= |e.shards| && LegalEvents(e, events) && After(e, events) == WithPauser(e, p, Reading(seen))
      invariant forall i :: 0 <= i < |seen| ==> seen[i] == e.shards[i].nextSeq
    {
      PauserMoves(e, p, Reading(seen));
      Append(e, events, ReadCounter(p));
      events, seen := events + [ReadCounter(p)], seen + [e.shards[|seen|].nextSeq];
    }
    PauserMoves(e, p, Reading(seen));
    Append(e, events, Confirm(p));
    events := events + [Confirm(p)];
    var k := 0;
    while k < |e.shards|
      invariant k <= |e.shards| && LegalEvents(e, events)
      invariant After(e, events) == WithPauser(e, p, Pauser.Waiting(seen, k))
    {
      PauserMoves(e, p, Pauser.Waiting(seen, k));
      Append(e, events, Confirm(p));
      events, k := events + [Confirm(p)], k + 1;
    }
    PauserMoves(e, p, Pauser.Waiting(seen, k));
    Append(e, events, Return(p));
    events := events + [Return(p)];
  }

  function WithPauser(e: Engine, p: nat, pauser: Pauser): Engine {
    e.(paused := e.paused + 1, pausers := e.pausers[p := pauser])
  }

  lemma {:induction false} Raised(e: Engine, p: nat)
    requires e.open && p !in e.pausers
    ensures LegalEvents(e, [Raise(p)]) && After(e, [Raise(p)]) == WithPauser(e, p, Reading([]))
  {
    assert [Raise(p)][1..] == [];
  }

  /** The next step of a pauser when every watermark has caught up. */
  lemma {:induction false} PauserMoves(e: Engine, p: nat, pauser: Pauser)
    requires forall i :: 0 <= i < |e.shards| ==> e.shards[i].durable == e.shards[i].nextSeq
    ensures var now := WithPauser(e, p, pauser);
      match pauser
      case Reading(seen) =>
        if |seen| < |e.shards| then
          Can(now, ReadCounter(p))
            && Do(now, ReadCounter(p)) == WithPauser(e, p, Reading(seen + [e.shards[|seen|].nextSeq]))
        else |seen| == |e.shards| ==>
          Can(now, Confirm(p)) && Do(now, Confirm(p)) == WithPauser(e, p, Pauser.Waiting(seen, 0))
      case Waiting(seen, k) =>
        |seen| == |e.shards| && (forall i :: 0 <= i < |seen| ==> seen[i] == e.shards[i].nextSeq) ==>
          if k < |seen| then
            Can(now, Confirm(p)) && Do(now, Confirm(p)) == WithPauser(e, p, Pauser.Waiting(seen, k + 1))
          else k == |seen| ==>
            Can(now, Return(p)) && Do(now, Return(p)) == WithPauser(e, p, Holding)
      case Holding => true
  {
  }

  lemma {:induction false} StartInv(router: Router, shards: nat, domains: nat)
    requires domains > 0 && Start(router, shards, domains).Some?
    ensures EngineInv(Start(router, shards, domains).value)
  {
    hide MemoryInv, AllOf;
    FreshMemory();
    var e := Start(router, shards, domains).value;
    forall i | 0 <= i < |e.shards| ensures Routed(e, i) {
      FreshAllOf(HashedTo(router, |e.shards|, i));
    }
  }

  // ---------------------------------------------------------------------
  // Routing
  // ---------------------------------------------------------------------

  /** Hashing to a shard and then to its domain agrees with hashing to a domain
      directly, whenever the domain count divides the shard count. */
  lemma {:induction false} HashesAgree(h: nat, shards: nat, domains: nat)
    requires domains > 0 && shards > 0 && shards % domains == 0
    ensures (h % shards) % domains == h % domains
  {
    var q, m := h / shards, shards / domains;
    assert shards == m * domains;
    assert h == q * shards + h % shards;
    assert q * shards == (q * m) * domains by {
      assert q * (m * domains) == (q * m) * domains;
    }
    ModMultiple(h % shards, q * m, domains);
  }

  predicate Agree(h: nat, shards: nat, domains: nat)
    requires domains > 0 && shards > 0
  {
    (h % shards) % domains == h % domains
  }

  /** The divisibility the engine insists on at start is exactly what this takes. */
  lemma {:induction false} AgreeIff(shards: nat, domains: nat)
    requires domains > 0 && shards > 0
    ensures (forall h: nat :: Agree(h, shards, domains)) <==> shards % domains == 0
  {
    if shards % domains == 0 {
      forall h: nat ensures Agree(h, shards, domains) {
        HashesAgree(h, shards, domains);
      }
    } else {
      DivisionUnique(shards, 1, 0, shards);
      assert !Agree(shards, shards, domains);
    }
  }

  lemma {:induction false} ModMultiple(a: nat, k: nat, d: nat)
    requires d > 0
    ensures (k * d + a) % d == a % d
    decreases k
  {
    if k > 0 {
      ModMultiple(a, k - 1, d);
      assert k * d == (k - 1) * d + d;
      ModPlus((k - 1) * d + a, d);
    }
  }

  lemma {:induction false} ModPlus(x: nat, d: nat)
    requires d > 0
    ensures (x + d) % d == x % d
  {
    var q, r := x / d, x % d;
    assert x + d == d * (q + 1) + r;
    DivisionUnique(x + d, q + 1, r, d);
  }

  lemma {:induction false} DivisionUnique(x: nat, q: nat, r: nat, d: nat)
    requires d > 0 && r < d && x == d * q + r
    ensures x % d == r
  {
    var q2 := x / d;
    Euclid(x, d);
    Spread(d, q, q2);
    Spread(d, q2, q);
  }

  lemma {:induction false} Euclid(x: nat, d: nat)
    requires d > 0
    ensures x == d * (x / d) + x % d && x % d < d
  {
  }

  lemma {:induction false} Spread(d: nat, a: nat, b: nat)
    requires d > 0
    ensures a > b ==> d * a >= d * b + d
    ensures a == b ==> d * a == d * b
  {
    if a > b {
      assert d * a == d * b + d * (a - b);
      assert d * (a - b) >= d * 1 by {
        assert (a - b) >= 1;
      }
    }
  }

  /** Every request a shard has ever committed belongs to the domain the shard
      commits into. */
  lemma {:induction false} CommitsAtHome(e: Engine, i: nat)
    requires EngineInv(e) && i < |e.shards|
    ensures forall x :: x in Applied(e.shards[i].log) ==>
      e.router.DomainFor(x.req.name, e.domains) == DomainOfShard(e, i)
  {
    hide MemoryInv, Applied;
    assert Routed(e, i);
    forall x | x in Applied(e.shards[i].log)
      ensures e.router.DomainFor(x.req.name, e.domains) == DomainOfShard(e, i)
    {
      assert HashedTo(e.router, |e.shards|, i)(x.req);
      HashesAgree(e.router.hash(x.req.name), |e.shards|, e.domains);
    }
  }

  /** In every state of every run from the first start on, with any number of
      crashes, power losses and replays, a domain holds requests of its own only. */
  lemma {:induction false} CommitsGoHome(router: Router, shards: nat, domains: nat, events: seq<Event>, i: nat)
    requires domains > 0 && Start(router, shards, domains).Some?
    requires LegalEvents(Start(router, shards, domains).value, events)
    ensures var e := After(Start(router, shards, domains).value, events);
      i < |e.shards| ==> forall x :: x in Applied(e.shards[i].log) ==>
        router.DomainFor(x.req.name, domains) == i % domains
  {
    hide EngineInv, LegalEvents, After, Applied;
    var start := Start(router, shards, domains).value;
    StartInv(router, shards, domains);
    RunKeepsCut(start, events);
    SameConfig(start, events);
    if i < |After(start, events).shards| {
      CommitsAtHome(After(start, events), i);
    }
  }

  lemma {:induction false} SameConfig(e: Engine, events: seq<Event>)
    requires LegalEvents(e, events)
    ensures After(e, events).router == e.router && After(e, events).domains == e.domains
    decreases |events|
  {
    hide Can;
    if events != [] {
      SameConfig(Do(e, events[0]), events[1..]);
    }
  }
}
