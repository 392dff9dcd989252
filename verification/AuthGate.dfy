/** The revocation gate: leases are counted in and out, a revocation waits for them
    to drain before it changes the catalog, and a lease is rechecked before anything
    is published under it.

    The gate's own methods are critical sections; what lies between them, including
    any number of revokers at once, is an interleaving of the operations below. */
module AuthGate {
  import opened Prelude

  datatype GateState = GateState(active: nat, revoking: bool, epoch: nat)

  function Release(g: GateState): GateState { g.(active := if g.active == 0 then 0 else g.active - 1) }

  function Finish(g: GateState): GateState {
    g.(epoch := if g.epoch >= U64_MAX then U64_MAX else g.epoch + 1, revoking := false)
  }

  // ---------------------------------------------------------------------
  // The service as a state machine
  // ---------------------------------------------------------------------

  type Principal = nat

  type Role = nat

  /** Memberships, and the generation every change of the catalog advances. */
  datatype Catalog = Catalog(roles: map<Principal, Role>, generation: nat)

  datatype Grant = Grant(role: Role, generation: nat)

  /** Where a lease is: counted, its role read, live; and, once live, where its
      latest reauthorization is.  `seen` is history: the generation at which the role
      was read. */
  datatype Phase =
    | Counted
    | RoleRead(role: Role, seen: nat)
    | Live(grant: Grant)
    | EpochPassed(grant: Grant)
    | RoleReread(grant: Grant, role: Role, seen: nat)
    | Reauthorized(grant: Grant, current: Grant)

  /** `countedAt` is history: how many revocations had finished when it was counted. */
  datatype Lease = Lease(principal: Principal, epoch: nat, countedAt: nat, phase: Phase)

  /** `undercut` is history: another revocation has finished since this one began. */
  datatype Revoker = Waiting(undercut: bool) | InTransaction(undercut: bool)

  datatype State = State(
    gate: GateState,
    catalog: Catalog,
    leases: map<nat, Lease>,
    revokers: map<nat, Revoker>,
    finished: nat)

  datatype Op =
    | Count(l: nat, principal: Principal)
    | ReadRole(l: nat, allowed: bool)
    | ReadSnapshot(l: nat)
    | Drop(l: nat)
    | CheckEpoch(l: nat)
    | RereadRole(l: nat, allowed: bool)
    | RereadSnapshot(l: nat)
    | EndReauthorize(l: nat)
    | Begin(r: nat)
    | Drained(r: nat)
    | Transact(r: nat, principal: Principal)
    | FinishRevoking(r: nat)
    | GrantRole(principal: Principal, role: Role)

  predicate At(s: State, l: nat) { l in s.leases }

  predicate Enabled(s: State, op: Op) {
    match op
    case Count(l, _) => l !in s.leases && !s.gate.revoking
    case ReadRole(l, _) => At(s, l) && s.leases[l].phase.Counted?
    case ReadSnapshot(l) => At(s, l) && s.leases[l].phase.RoleRead?
    case Drop(l) => At(s, l) && (s.leases[l].phase.Live? || s.leases[l].phase.Reauthorized?)
    case CheckEpoch(l) => At(s, l) && s.leases[l].phase.Live?
    case RereadRole(l, _) => At(s, l) && s.leases[l].phase.EpochPassed?
    case RereadSnapshot(l) => At(s, l) && s.leases[l].phase.RoleReread?
    case EndReauthorize(l) => At(s, l) && s.leases[l].phase.Reauthorized?
    case Begin(r) => r !in s.revokers
    case Drained(r) => r in s.revokers && s.revokers[r].Waiting? && s.gate.active == 0
    case Transact(r, _) => r in s.revokers && s.revokers[r].InTransaction?
    case FinishRevoking(r) => r in s.revokers && s.revokers[r].InTransaction?
    case GrantRole(_, _) => true
  }

  function To(s: State, l: nat, phase: Phase): State
    requires l in s.leases
  {
    s.(leases := s.leases[l := s.leases[l].(phase := phase)])
  }

  function Without(s: State, l: nat): State {
    s.(gate := Release(s.gate), leases := s.leases - {l})
  }

  function Apply(s: State, op: Op): State
    requires Enabled(s, op)
  {
    match op
    case Count(l, p) =>
      s.(gate := s.gate.(active := s.gate.active + 1),
         leases := s.leases[l := Lease(p, s.gate.epoch, s.finished, Counted)])
    case ReadRole(l, allowed) =>
      var p := s.leases[l].principal;
      if allowed && p in s.catalog.roles then To(s, l, RoleRead(s.catalog.roles[p], s.catalog.generation))
        else Without(s, l)
    case ReadSnapshot(l) =>
      var p, phase := s.leases[l].principal, s.leases[l].phase;
      if p in s.catalog.roles then To(s, l, Live(Grant(phase.role, s.catalog.generation))) else Without(s, l)
    case Drop(l) => Without(s, l)
    case CheckEpoch(l) =>
      if s.leases[l].epoch == s.gate.epoch then To(s, l, EpochPassed(s.leases[l].phase.grant)) else s
    case RereadRole(l, allowed) =>
      var p, grant := s.leases[l].principal, s.leases[l].phase.grant;
      if allowed && p in s.catalog.roles then To(s, l, RoleReread(grant, s.catalog.roles[p], s.catalog.generation))
      else To(s, l, Live(grant))
    case RereadSnapshot(l) =>
      var p, phase := s.leases[l].principal, s.leases[l].phase;
      if p in s.catalog.roles && s.catalog.generation == phase.grant.generation
      then To(s, l, Reauthorized(phase.grant, Grant(phase.role, s.catalog.generation)))
      else To(s, l, Live(phase.grant))
    case EndReauthorize(l) => To(s, l, Live(s.leases[l].phase.grant))
    case Begin(r) =>
      s.(gate := s.gate.(revoking := true), revokers := s.revokers[r := Waiting(false)])
    case Drained(r) =>
      s.(revokers := s.revokers[r := InTransaction(s.revokers[r].undercut)])
    case Transact(r, p) =>
      if p in s.catalog.roles then s.(catalog := Catalog(s.catalog.roles - {p}, s.catalog.generation + 1)) else s
    case FinishRevoking(r) =>
      s.(gate := Finish(s.gate), finished := s.finished + 1,
         revokers := map x | x in s.revokers && x != r :: s.revokers[x].(undercut := true))
    case GrantRole(p, role) =>
      s.(catalog := Catalog(s.catalog.roles[p := role], s.catalog.generation + 1))
  }

  const INITIAL := State(GateState(0, false, 0), Catalog(map[], 0), map[], map[], 0)

  // ---------------------------------------------------------------------
  // The invariant
  // ---------------------------------------------------------------------

  function EpochAt(finished: nat): nat { if finished > U64_MAX then U64_MAX else finished }

  /** A role read at the present generation is the present role. */
  ghost predicate RoleTrue(c: Catalog, p: Principal, role: Role, seen: nat) {
    seen <= c.generation && (seen == c.generation ==> p in c.roles && c.roles[p] == role)
  }

  ghost predicate LeaseOk(s: State, lease: Lease) {
    && lease.countedAt <= s.finished && lease.epoch == EpochAt(lease.countedAt)
    && match lease.phase
       case Counted => true
       case RoleRead(role, seen) => RoleTrue(s.catalog, lease.principal, role, seen)
       case Live(grant) => grant.generation <= s.catalog.generation
       case EpochPassed(grant) => grant.generation <= s.catalog.generation
       case RoleReread(grant, role, seen) =>
         grant.generation <= seen && RoleTrue(s.catalog, lease.principal, role, seen)
       case Reauthorized(grant, current) =>
         && grant.generation == current.generation
         && RoleTrue(s.catalog, lease.principal, current.role, current.generation)
  }

  /** A revocation that was not undercut keeps the gate shut, and once drained there
      is no lease at all. */
  ghost predicate RevokerOk(s: State, r: Revoker) {
    !r.undercut ==> s.gate.revoking && (r.InTransaction? ==> s.leases == map[])
  }

  ghost predicate Inv(s: State) {
    && s.gate.active == |s.leases|
    && s.gate.epoch == EpochAt(s.finished)
    && (forall l :: l in s.leases ==> LeaseOk(s, s.leases[l]))
    && (forall r :: r in s.revokers ==> RevokerOk(s, s.revokers[r]))
    && (s.gate.revoking ==> s.revokers != map[])
  }

  lemma {:induction false} SizeWithout(m: map<nat, Lease>, l: nat)
    requires l in m
    ensures |m - {l}| == |m| - 1
  {
    assert (m - {l}).Keys == m.Keys - {l};
    assert |m| == |m.Keys| && |m - {l}| == |(m - {l}).Keys|;
  }

  lemma {:induction false} SizeSame(m: map<nat, Lease>, l: nat, lease: Lease)
    ensures |m[l := lease]| == if l in m then |m| else |m| + 1
  {
    assert m[l := lease].Keys == m.Keys + {l};
    assert |m| == |m.Keys| && |m[l := lease]| == |m[l := lease].Keys|;
  }

  lemma {:induction false} LeaseStays(s: State, n: State, lease: Lease)
    requires LeaseOk(s, lease) && s.finished <= n.finished
    requires n.catalog == s.catalog || n.catalog.generation > s.catalog.generation
    ensures LeaseOk(n, lease)
  {
  }

  lemma {:induction false} LeaseMoves(s: State, op: Op, l: nat)
    requires l in s.leases && LeaseOk(s, s.leases[l]) && Enabled(s, op)
    requires l in Apply(s, op).leases && Apply(s, op).leases[l] != s.leases[l]
    ensures LeaseOk(Apply(s, op), Apply(s, op).leases[l])
  {
    hide Release, Finish, EpochAt;
  }

  lemma {:induction false} LeaseCounted(s: State, op: Op, l: nat)
    requires Inv(s) && Enabled(s, op) && l !in s.leases && l in Apply(s, op).leases
    ensures LeaseOk(Apply(s, op), Apply(s, op).leases[l])
  {
    hide RevokerOk, Release, Finish, EpochAt;
  }

  lemma {:induction false} LeaseStep(s: State, op: Op, l: nat)
    requires Inv(s) && Enabled(s, op) && l in Apply(s, op).leases
    ensures LeaseOk(Apply(s, op), Apply(s, op).leases[l])
  {
    var n := Apply(s, op);
    if l in s.leases && n.leases[l] == s.leases[l] {
      hide LeaseOk;
      LeaseStays(s, n, s.leases[l]);
    } else if l in s.leases {
      LeaseMoves(s, op, l);
    } else {
      LeaseCounted(s, op, l);
    }
  }

  lemma {:induction false} GateStep(s: State, op: Op)
    requires Inv(s) && Enabled(s, op)
    ensures var n := Apply(s, op); n.gate.active == |n.leases| && n.gate.epoch == EpochAt(n.finished)
  {
    hide LeaseOk, RevokerOk;
    match op
    case Count(l, p) => SizeSame(s.leases, l, Lease(p, s.gate.epoch, s.finished, Counted));
    case ReadRole(l, _) => GateLease(s, op, l);
    case ReadSnapshot(l) => GateLease(s, op, l);
    case Drop(l) => GateLease(s, op, l);
    case CheckEpoch(l) => GateLease(s, op, l);
    case RereadRole(l, _) => GateLease(s, op, l);
    case RereadSnapshot(l) => GateLease(s, op, l);
    case EndReauthorize(l) => GateLease(s, op, l);
    case _ => GateOnly(s, op);
  }

  lemma {:induction false} GateOnly(s: State, op: Op)
    requires Enabled(s, op) && s.gate.epoch == EpochAt(s.finished)
    requires op.Begin? || op.Drained? || op.Transact? || op.FinishRevoking? || op.GrantRole?
    ensures var n := Apply(s, op);
      n.leases == s.leases && n.gate.active == s.gate.active && n.gate.epoch == EpochAt(n.finished)
  {
  }

  lemma {:induction false} GateLease(s: State, op: Op, l: nat)
    requires Enabled(s, op) && l in s.leases
    requires Apply(s, op) == Without(s, l) || Apply(s, op) == s
      || (l in Apply(s, op).leases && Apply(s, op) == To(s, l, Apply(s, op).leases[l].phase))
    ensures |Apply(s, op).leases| == if l in Apply(s, op).leases then |s.leases| else |s.leases| - 1
  {
    hide Apply, Enabled;
    SizeWithout(s.leases, l);
    if l in Apply(s, op).leases {
      SizeSame(s.leases, l, s.leases[l].(phase := Apply(s, op).leases[l].phase));
    }
  }

  lemma {:induction false} RevokersStep(s: State, op: Op)
    requires Inv(s) && Enabled(s, op)
    ensures forall r :: r in Apply(s, op).revokers ==> RevokerOk(Apply(s, op), Apply(s, op).revokers[r])
    ensures Apply(s, op).gate.revoking ==> Apply(s, op).revokers != map[]
  {
    hide LeaseOk;
    var n := Apply(s, op);
    if op.Drained? {
      assert s.leases == map[];
    }
    forall r | r in n.revokers ensures RevokerOk(n, n.revokers[r]) {
      assert r in s.revokers ==> RevokerOk(s, s.revokers[r]);
    }
    if op.Begin? || op.Drained? {
      assert op.r in n.revokers;
    }
  }

  lemma {:induction false} StepInv(s: State, op: Op)
    requires Inv(s) && Enabled(s, op)
    ensures Inv(Apply(s, op))
  {
    hide LeaseOk, RevokerOk, Apply, Enabled;
    GateStep(s, op);
    RevokersStep(s, op);
    forall l | l in Apply(s, op).leases ensures LeaseOk(Apply(s, op), Apply(s, op).leases[l]) {
      LeaseStep(s, op, l);
    }
  }

  // ---------------------------------------------------------------------
  // The gate object
  // ---------------------------------------------------------------------

  /** The gate as the service shares it.  Each method is the gate's part of one step,
      in whatever state the rest of the service is. */
  class AuthorizationGate {
    var state: GateState

    constructor ()
      ensures state == INITIAL.gate
    {
      state := GateState(0, false, 0);
    }

    /** Counts a lease in, unless a revocation is under way. */
    method Admit() returns (epoch: Option<nat>)
      modifies this
      ensures epoch == None ==> state == old(state)
      ensures forall s: State, l, p :: s.gate == old(state) && l !in s.leases ==>
        && (Enabled(s, Count(l, p)) <==> epoch.Some?)
        && (epoch.Some? ==>
              state == Apply(s, Count(l, p)).gate && epoch.value == Apply(s, Count(l, p)).leases[l].epoch)
    {
      if state.revoking {
        return None;
      }
      state := state.(active := state.active + 1);
      epoch := Some(state.epoch);
    }

    /** Counts a lease out.  The count never saturates in a state that a run reaches,
        and `drained` says that this was the last lease. */
    method ReleaseLease() returns (drained: bool)
      modifies this
      ensures forall s: State, l :: s.gate == old(state) && Enabled(s, Drop(l)) ==> state == Apply(s, Drop(l)).gate
      ensures forall s: State, l :: Inv(s) && s.gate == old(state) && Enabled(s, Drop(l)) ==>
        && state.active == old(state).active - 1 == |Apply(s, Drop(l)).leases|
        && (drained <==> Apply(s, Drop(l)).leases == map[])
    {
      state := Release(state);
      drained := state.active == 0;
      forall s: State, l | Inv(s) && s.gate == old(state) && Enabled(s, Drop(l))
        ensures state.active == old(state).active - 1 == |Apply(s, Drop(l)).leases|
      {
        SizeWithout(s.leases, l);
      }
    }

    /** Shuts the gate; `drained` says that the revocation need not wait. */
    method BeginRevocation() returns (drained: bool)
      modifies this
      ensures forall s: State, r :: s.gate == old(state) && Enabled(s, Begin(r)) ==>
        && state == Apply(s, Begin(r)).gate
        && (drained <==> Enabled(Apply(s, Begin(r)), Drained(r)))
      ensures forall s: State, l, p :: s.gate == state ==> !Enabled(s, Count(l, p))
    {
      state := state.(revoking := true);
      drained := state.active == 0;
    }

    /** Opens the gate, whoever else is still revoking, in the next epoch. */
    method FinishRevocation()
      modifies this
      ensures forall s: State, r :: s.gate == old(state) && Enabled(s, FinishRevoking(r)) ==>
        && state == Apply(s, FinishRevoking(r)).gate
        && (Inv(s) && s.finished < U64_MAX ==> state.epoch == s.finished + 1)
      ensures forall s: State, l, p :: s.gate == state && l !in s.leases ==> Enabled(s, Count(l, p))
    {
      var epoch := if state.epoch >= U64_MAX then U64_MAX else state.epoch + 1;
      state := state.(epoch := epoch, revoking := false);
    }
  }

  // ---------------------------------------------------------------------
  // Runs
  // ---------------------------------------------------------------------

  ghost predicate Legal(ops: seq<Op>)
    decreases |ops|, 0
  {
    ops == [] || (Legal(ops[..|ops| - 1]) && Enabled(Final(ops[..|ops| - 1]), ops[|ops| - 1]))
  }

  ghost function Final(ops: seq<Op>): State
    requires Legal(ops)
    decreases |ops|, 1
  {
    if ops == [] then INITIAL else Apply(Final(ops[..|ops| - 1]), ops[|ops| - 1])
  }

  /** Never more than one revocation at a time. */
  ghost predicate Serialized(ops: seq<Op>)
    requires Legal(ops)
    decreases |ops|
  {
    ops == [] || (Serialized(ops[..|ops| - 1]) && (ops[|ops| - 1].Begin? ==> Final(ops[..|ops| - 1]).revokers == map[]))
  }

  lemma {:induction false} RunInv(ops: seq<Op>)
    requires Legal(ops)
    ensures Inv(Final(ops))
    decreases |ops|
  {
    hide Inv, Apply, Enabled;
    if ops == [] {
      InitialInv();
    } else {
      RunInv(ops[..|ops| - 1]);
      StepInv(Final(ops[..|ops| - 1]), ops[|ops| - 1]);
    }
  }

  lemma {:induction false} InitialInv()
    ensures Inv(INITIAL)
  {
  }

  /** The count is the leases there are, so taking one away never saturates. */
  lemma {:induction false} CountIsExact(ops: seq<Op>, op: Op)
    requires Legal(ops) && Enabled(Final(ops), op)
    ensures Final(ops).gate.active == |Final(ops).leases|
    ensures |Apply(Final(ops), op).leases| < |Final(ops).leases| ==> Final(ops).gate.active >= 1
  {
    hide Apply, Enabled;
    RunInv(ops);
  }

  lemma {:induction false} NoneUndercut(ops: seq<Op>)
    requires Legal(ops) && Serialized(ops)
    ensures |Final(ops).revokers| <= 1 && forall r :: r in Final(ops).revokers ==> !Final(ops).revokers[r].undercut
    decreases |ops|
  {
    if ops != [] {
      var init, op := ops[..|ops| - 1], ops[|ops| - 1];
      NoneUndercut(init);
      var s, n := Final(init), Final(ops);
      if op.FinishRevoking? {
        OnlyOne(s.revokers, op.r);
        assert n.revokers == map[];
      } else if op.Drained? {
        assert n.revokers.Keys == s.revokers.Keys;
        assert |n.revokers| == |n.revokers.Keys| && |s.revokers| == |s.revokers.Keys|;
      }
    }
  }

  lemma {:induction false} OnlyOne(m: map<nat, Revoker>, r: nat)
    requires r in m && |m| <= 1
    ensures forall x :: x in m ==> x == r
  {
    var others := m.Keys - {r};
    assert m.Keys == others + {r};
    assert |m| == |m.Keys| == |others| + 1;
    assert others == {};
    assert forall x :: x in m ==> x in others || x == r;
  }

  /** With one revocation at a time, no lease, live or on its way, exists while the
      catalog transaction runs. */
  lemma {:induction false} SerializedDrains(ops: seq<Op>, r: nat)
    requires Legal(ops) && Serialized(ops)
    requires r in Final(ops).revokers && Final(ops).revokers[r].InTransaction?
    ensures Final(ops).leases == map[] && Final(ops).gate.revoking
  {
    RunInv(ops);
    NoneUndercut(ops);
    assert RevokerOk(Final(ops), Final(ops).revokers[r]);
  }

  /** With any number of revokers, the same holds for a revocation during which no
      other has finished. */
  lemma {:induction false} DrainedUnlessUndercut(ops: seq<Op>, r: nat)
    requires Legal(ops)
    requires r in Final(ops).revokers && Final(ops).revokers[r].InTransaction? && !Final(ops).revokers[r].undercut
    ensures Final(ops).leases == map[] && Final(ops).gate.revoking
  {
    RunInv(ops);
    assert RevokerOk(Final(ops), Final(ops).revokers[r]);
  }

  lemma {:induction false} NoOps()
    ensures Legal([]) && Final([]) == INITIAL
  {
  }

  lemma {:induction false} Extend(ops: seq<Op>, s: State, op: Op)
    requires Legal(ops) && Final(ops) == s && Enabled(s, op)
    ensures Legal(ops + [op]) && Final(ops + [op]) == Apply(s, op)
  {
    hide Enabled, Apply;
    assert (ops + [op])[..|ops|] == ops;
  }

  /** Two revocations overlap; the one that finishes first opens the gate while the
      other is in its transaction. */
  lemma {:induction false} GateReopens() returns (ops: seq<Op>)
    ensures Legal(ops)
    ensures Final(ops)
         == State(GateState(0, false, 1), Catalog(map[7 := 1], 1), map[], map[2 := InTransaction(true)], 1)
  {
    hide Legal, Final;
    var s := INITIAL;
    ops := [];
    NoOps();
    Extend(ops, s, GrantRole(7, 1));
    ops, s := ops + [GrantRole(7, 1)], Apply(s, GrantRole(7, 1));
    Extend(ops, s, Begin(1));
    ops, s := ops + [Begin(1)], Apply(s, Begin(1));
    Extend(ops, s, Begin(2));
    ops, s := ops + [Begin(2)], Apply(s, Begin(2));
    Extend(ops, s, Drained(1));
    ops, s := ops + [Drained(1)], Apply(s, Drained(1));
    Extend(ops, s, Drained(2));
    ops, s := ops + [Drained(2)], Apply(s, Drained(2));
    Extend(ops, s, FinishRevoking(1));
    ops := ops + [FinishRevoking(1)];
  }

  /** So a lease can be live, with the very role that is being taken away, while a
      revocation's transaction runs. */
  lemma {:induction false} LiveDuringTransaction() returns (ops: seq<Op>)
    ensures Legal(ops)
    ensures
      var s := Final(ops);
      && 2 in s.revokers && s.revokers[2].InTransaction? && 7 !in s.catalog.roles
      && 0 in s.leases && s.leases[0].principal == 7 && s.leases[0].phase.Live?
  {
    hide Legal, Final;
    ops := GateReopens();
    var s := Final(ops);
    Extend(ops, s, Count(0, 7));
    ops, s := ops + [Count(0, 7)], Apply(s, Count(0, 7));
    Extend(ops, s, ReadRole(0, true));
    ops, s := ops + [ReadRole(0, true)], Apply(s, ReadRole(0, true));
    Extend(ops, s, ReadSnapshot(0));
    ops, s := ops + [ReadSnapshot(0)], Apply(s, ReadSnapshot(0));
    Extend(ops, s, Transact(2, 7));
    ops := ops + [Transact(2, 7)];
  }

  /** And whenever a revocation in its transaction has been undercut and the gate is
      open, a lease can do that: for every principal with a role, and for the very
      one the transaction is about to remove. */
  lemma {:induction false} UndercutAdmits(ops: seq<Op>, r: nat, l: nat, p: Principal)
    requires Legal(ops) && r in Final(ops).revokers && Final(ops).revokers[r] == InTransaction(true)
    requires !Final(ops).gate.revoking && l !in Final(ops).leases && p in Final(ops).catalog.roles
    ensures var run := ops + [Count(l, p)] + [ReadRole(l, true)] + [ReadSnapshot(l)];
      && Legal(run) && Enabled(Final(run), Transact(r, p))
      && l in Final(run).leases && Final(run).leases[l].phase.Live? && Final(run).leases[l].principal == p
      && var after := Apply(Final(run), Transact(r, p));
         p !in after.catalog.roles && l in after.leases && after.leases[l].phase.Live?
  {
    hide Legal, Final;
    var s := Final(ops);
    var a := Apply(s, Count(l, p));
    Extend(ops, s, Count(l, p));
    var b := Apply(a, ReadRole(l, true));
    Extend(ops + [Count(l, p)], a, ReadRole(l, true));
    Extend(ops + [Count(l, p)] + [ReadRole(l, true)], b, ReadSnapshot(l));
  }

  // ---------------------------------------------------------------------
  // What a recheck is worth
  // ---------------------------------------------------------------------

  /** The epoch check passes exactly if no revocation has finished since the lease was
      counted, as long as the epoch counter is not exhausted. */
  lemma {:induction false} EpochCheckIff(ops: seq<Op>, l: nat)
    requires Legal(ops) && Enabled(Final(ops), CheckEpoch(l)) && Final(ops).finished <= U64_MAX
    ensures
      var s := Final(ops);
      Apply(s, CheckEpoch(l)).leases[l].phase.EpochPassed? <==> s.finished == s.leases[l].countedAt
  {
    RunInv(ops);
    assert LeaseOk(Final(ops), Final(ops).leases[l]);
  }

  lemma {:induction false} LegalPrefix(a: seq<Op>, b: seq<Op>)
    requires Legal(a + b)
    ensures Legal(a)
    decreases |b|
  {
    hide Apply, Enabled;
    if b == [] {
      assert a + b == a;
    } else {
      assert (a + b)[..|a + b| - 1] == a + b[..|b| - 1];
      LegalPrefix(a, b[..|b| - 1]);
    }
  }

  /** A lease that is never dropped keeps the moment it was counted; revocations only
      finish. */
  lemma {:induction false} CountedAtStays(a: seq<Op>, b: seq<Op>, l: nat)
    requires Legal(a + b) && Legal(a) && l in Final(a).leases
    requires forall op :: op in b && op.Count? ==> op.l != l
    ensures Final(a).finished <= Final(a + b).finished
    ensures l in Final(a + b).leases ==> Final(a + b).leases[l].countedAt == Final(a).leases[l].countedAt
    decreases |b|
  {
    if b == [] {
      assert a + b == a;
    } else {
      var init, op := b[..|b| - 1], b[|b| - 1];
      assert (a + b)[..|a + b| - 1] == a + init;
      assert op in b;
      CountedAtStays(a, init, l);
      LeaseKept(Final(a + init), op, l);
    }
  }

  lemma {:induction false} LeaseKept(s: State, op: Op, l: nat)
    requires Enabled(s, op) && (op.Count? ==> op.l != l)
    ensures s.finished <= Apply(s, op).finished
    ensures l in Apply(s, op).leases ==> l in s.leases && Apply(s, op).leases[l].countedAt == s.leases[l].countedAt
  {
  }

  /** Once a revocation has returned, no lease counted before can pass the check that
      precedes a publication, however many revocations overlapped. */
  lemma {:induction false} OldLeasesCannotPublish(a: seq<Op>, r: nat, b: seq<Op>, l: nat)
    requires Legal(a + [FinishRevoking(r)] + b) && Legal(a)
    requires l in Final(a).leases && forall op :: op in b && op.Count? ==> op.l != l
    requires Final(a + [FinishRevoking(r)] + b).finished <= U64_MAX
    requires Enabled(Final(a + [FinishRevoking(r)] + b), CheckEpoch(l))
    ensures !Apply(Final(a + [FinishRevoking(r)] + b), CheckEpoch(l)).leases[l].phase.EpochPassed?
  {
    hide Inv;
    var mid := a + [FinishRevoking(r)];
    LegalPrefix(mid, b);
    assert mid[..|a|] == a;
    RunInv(a);
    CountedNoLater(Final(a), l);
    CountedAtStays(mid, b, l);
    EpochCheckIff(mid + b, l);
  }

  lemma {:induction false} CountedNoLater(s: State, l: nat)
    requires Inv(s) && l in s.leases
    ensures s.leases[l].countedAt <= s.finished
  {
    assert LeaseOk(s, s.leases[l]);
  }

  /** A reauthorization that succeeds returns the role the catalog holds at that
      moment, although role and snapshot are read separately; and the catalog has not
      changed since the lease was granted. */
  lemma {:induction false} ReauthorizedIsCurrent(ops: seq<Op>, l: nat)
    requires Legal(ops) && Enabled(Final(ops), RereadSnapshot(l))
    requires Apply(Final(ops), RereadSnapshot(l)).leases[l].phase.Reauthorized?
    ensures
      var s := Final(ops);
      var lease := Apply(s, RereadSnapshot(l)).leases[l];
      && lease.principal in s.catalog.roles && s.catalog.roles[lease.principal] == lease.phase.current.role
      && lease.phase.current.generation == s.catalog.generation == lease.phase.grant.generation
  {
    RunInv(ops);
    assert LeaseOk(Final(ops), Final(ops).leases[l]);
  }

  /** When a lease is granted, step by step: it can be counted exactly while the gate is
      open, it passes the first read exactly if the action is allowed and the role held,
      and the second exactly if the role is held; otherwise it is gone and no longer
      counted.  A revocation takes the role away, and nothing else. */
  lemma {:induction false} GrantedIff(ops: seq<Op>, l: nat, p: Principal, allowed: bool, r: nat)
    requires Legal(ops)
    ensures
      var s := Final(ops);
      && (l !in s.leases ==> (Enabled(s, Count(l, p)) <==> !s.gate.revoking))
      && (Enabled(s, ReadRole(l, allowed)) ==>
           var t := Apply(s, ReadRole(l, allowed));
           if allowed && s.leases[l].principal in s.catalog.roles
           then l in t.leases && t.leases[l].phase
                == RoleRead(s.catalog.roles[s.leases[l].principal], s.catalog.generation)
           else l !in t.leases && t.gate.active == s.gate.active - 1)
      && (Enabled(s, ReadSnapshot(l)) ==>
           var t := Apply(s, ReadSnapshot(l));
           if s.leases[l].principal in s.catalog.roles
           then l in t.leases
                && t.leases[l].phase == Live(Grant(s.leases[l].phase.role, s.catalog.generation))
           else l !in t.leases && t.gate.active == s.gate.active - 1)
      && (Enabled(s, Transact(r, p)) ==>
           p !in Apply(s, Transact(r, p)).catalog.roles
           && forall q :: q != p ==> RoleOf(Apply(s, Transact(r, p)).catalog, q) == RoleOf(s.catalog, q))
  {
    RunInv(ops);
    var s := Final(ops);
    if l in s.leases {
      SizeWithout(s.leases, l);
    }
  }

  /** When it succeeds: the action must be allowed and the role held at the first read,
      and the generation must be that of the grant at the second, which implies that
      the role is held there too.  A recheck that fails leaves the lease as it was. */
  lemma {:induction false} ReauthorizeIff(ops: seq<Op>, l: nat, allowed: bool)
    requires Legal(ops) && l in Final(ops).leases
    ensures
      var s := Final(ops);
      var lease := s.leases[l];
      && (lease.phase.EpochPassed? ==>
           var next := Apply(s, RereadRole(l, allowed)).leases[l].phase;
           && (next.RoleReread? <==> allowed && lease.principal in s.catalog.roles)
           && (!next.RoleReread? ==> next == Live(lease.phase.grant)))
      && (lease.phase.RoleReread? ==>
           var next := Apply(s, RereadSnapshot(l)).leases[l].phase;
           if s.catalog.generation == lease.phase.grant.generation then
             && lease.principal in s.catalog.roles
             && next == Reauthorized(lease.phase.grant,
                                     Grant(s.catalog.roles[lease.principal], s.catalog.generation))
           else next == Live(lease.phase.grant))
  {
    RunInv(ops);
    assert LeaseOk(Final(ops), Final(ops).leases[l]);
  }

  lemma {:induction false} RoleReadFirst() returns (ops: seq<Op>)
    ensures Legal(ops)
    ensures Final(ops) == State(GateState(1, false, 0), Catalog(map[7 := 1], 1),
                                map[0 := Lease(7, 0, 0, RoleRead(1, 1))], map[], 0)
  {
    hide Legal, Final;
    var s := INITIAL;
    ops := [];
    NoOps();
    Extend(ops, s, GrantRole(7, 1));
    ops, s := ops + [GrantRole(7, 1)], Apply(s, GrantRole(7, 1));
    Extend(ops, s, Count(0, 7));
    ops, s := ops + [Count(0, 7)], Apply(s, Count(0, 7));
    Extend(ops, s, ReadRole(0, true));
    ops := ops + [ReadRole(0, true)];
  }

  // ---------------------------------------------------------------------
  // What the first grant is worth
  // ---------------------------------------------------------------------

  /** The operation is a step of lease `l`. */
  predicate Moves(op: Op, l: nat) {
    match op
    case Count(x, _) => x == l
    case ReadRole(x, _) => x == l
    case ReadSnapshot(x) => x == l
    case Drop(x) => x == l
    case CheckEpoch(x) => x == l
    case RereadRole(x, _) => x == l
    case RereadSnapshot(x) => x == l
    case EndReauthorize(x) => x == l
    case _ => false
  }

  /** The role that the operations leave `p` with. */
  function RoleAfter(ops: seq<Op>, p: Principal, role: Option<Role>): Option<Role> {
    if ops == [] then role
    else
      match ops[|ops| - 1]
      case GrantRole(q, given) => if q == p then Some(given) else RoleAfter(ops[..|ops| - 1], p, role)
      case Transact(_, q) => if q == p then None else RoleAfter(ops[..|ops| - 1], p, role)
      case _ => RoleAfter(ops[..|ops| - 1], p, role)
  }

  function RoleOf(c: Catalog, p: Principal): Option<Role> { if p in c.roles then Some(c.roles[p]) else None }

  lemma {:induction false} RoleStep(s: State, op: Op, p: Principal)
    requires Enabled(s, op)
    ensures RoleOf(Apply(s, op).catalog, p)
         == match op
            case GrantRole(q, given) => if q == p then Some(given) else RoleOf(s.catalog, p)
            case Transact(_, q) => if q == p then None else RoleOf(s.catalog, p)
            case _ => RoleOf(s.catalog, p)
  {
  }

  lemma {:induction false} LeaseRests(s: State, op: Op, l: nat)
    requires Enabled(s, op) && !Moves(op, l)
    ensures l in Apply(s, op).leases <==> l in s.leases
    ensures l in s.leases ==> Apply(s, op).leases[l] == s.leases[l]
  {
  }

  /** While others act, a lease stays as it is and the catalog follows the grants and
      revocations. */
  lemma {:induction false} Meanwhile(a: seq<Op>, b: seq<Op>, l: nat, p: Principal)
    requires Legal(a + b) && Legal(a) && forall op :: op in b ==> !Moves(op, l)
    ensures RoleOf(Final(a + b).catalog, p) == RoleAfter(b, p, RoleOf(Final(a).catalog, p))
    ensures l in Final(a + b).leases <==> l in Final(a).leases
    ensures l in Final(a).leases ==> Final(a + b).leases[l] == Final(a).leases[l]
    decreases |b|
  {
    hide Apply, Enabled, Moves, RoleOf;
    if b == [] {
      assert a + b == a;
    } else {
      var init, op := b[..|b| - 1], b[|b| - 1];
      assert (a + b)[..|a + b| - 1] == a + init;
      assert op in b;
      Meanwhile(a, init, l, p);
      RoleStep(Final(a + init), op, p);
      LeaseRests(Final(a + init), op, l);
    }
  }

  /** The exact condition: between the two reads the grants and revocations of the
      principal must leave it with the role it had.  With no role left there is no
      grant. */
  lemma {:induction false} FirstGrantIff(a: seq<Op>, b: seq<Op>, l: nat)
    requires Legal(a + [ReadRole(l, true)] + b) && Legal(a)
    requires forall op :: op in b ==> !Moves(op, l)
    requires Enabled(Final(a + [ReadRole(l, true)] + b), ReadSnapshot(l))
    ensures l in Final(a).leases
    ensures
      var p := Final(a).leases[l].principal;
      var role := RoleOf(Final(a).catalog, p);
      var t := Apply(Final(a + [ReadRole(l, true)] + b), ReadSnapshot(l));
      && role.Some?
      && (l in t.leases <==> RoleAfter(b, p, role).Some?)
      && (l in t.leases ==>
            && t.leases[l].principal == p && t.leases[l].phase.Live?
            && (RoleOf(t.catalog, p) == Some(t.leases[l].phase.grant.role) <==> RoleAfter(b, p, role) == role))
  {
    hide Legal, Moves, RoleAfter;
    var mid := a + [ReadRole(l, true)];
    LegalPrefix(mid, b);
    LegalLast(a, ReadRole(l, true));
    Meanwhile(mid, b, l, Final(a).leases[l].principal);
  }

  lemma {:induction false} LegalLast(a: seq<Op>, op: Op)
    requires Legal(a + [op])
    ensures Legal(a) && Enabled(Final(a), op) && Final(a + [op]) == Apply(Final(a), op)
  {
    hide Apply, Enabled;
    assert (a + [op])[..|a|] == a;
  }

  /** What a caller can check: if the catalog's generation at the snapshot is the one
      at which the role was read, the grant carries the catalog's role. */
  lemma {:induction false} SameGenerationIsCurrent(ops: seq<Op>, l: nat)
    requires Legal(ops) && Enabled(Final(ops), ReadSnapshot(l))
    requires Final(ops).leases[l].phase.seen == Final(ops).catalog.generation
    ensures
      var t := Apply(Final(ops), ReadSnapshot(l));
      && l in t.leases && t.leases[l].phase.Live?
      && RoleOf(t.catalog, t.leases[l].principal) == Some(t.leases[l].phase.grant.role)
  {
    RunInv(ops);
    assert LeaseOk(Final(ops), Final(ops).leases[l]);
  }

  /** And it fails: a role changed between the two reads is recorded, in its old value,
      under the new generation. */
  lemma {:induction false} FirstGrantMayBeStale() returns (ops: seq<Op>)
    ensures Legal(ops)
    ensures
      var s := Final(ops);
      && 0 in s.leases && s.leases[0].phase.Live? && s.leases[0].phase.grant.generation == s.catalog.generation
      && s.leases[0].principal in s.catalog.roles
      && s.catalog.roles[s.leases[0].principal] != s.leases[0].phase.grant.role
  {
    hide Legal, Final;
    ops := RoleReadFirst();
    var s := Final(ops);
    Extend(ops, s, GrantRole(7, 2));
    ops, s := ops + [GrantRole(7, 2)], Apply(s, GrantRole(7, 2));
    Extend(ops, s, ReadSnapshot(0));
    ops := ops + [ReadSnapshot(0)];
  }
}
