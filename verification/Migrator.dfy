/** The versioned schema migrator: ordered steps, one transaction each, with the
    version recorded in a metadata row and, on request, in `user_version` too. */
module Migrator {
  import opened Prelude

  datatype Step = Step(version: nat, sql: string)

  /** The metadata table: absent, without a version row, or holding one. */
  datatype Meta = NoTable | NoRow | Version(number: nat) | Unreadable

  /** A database: its version markers and the steps whose effects are committed. */
  datatype Db = Db(meta: Meta, userVersion: nat, applied: seq<Step>)

  const FRESH_DB := Db(NoTable, 0, [])

  datatype Error =
    | BadVersionRow
    | MarkersDisagree(current: nat, userVersion: nat)
    | TooNew(current: nat, max: nat)
    | StepsIncomplete(current: nat)
    | StepFailed(version: nat)

  datatype Outcome = Outcome(db: Db, error: Option<Error>)

  function CurrentOf(db: Db): Option<nat> {
    match db.meta
    case NoTable => Some(0)
    case NoRow => Some(0)
    case Version(v) => Some(v)
    case Unreadable => None
  }

  function Due(step: Step, current: nat, target: nat): bool { current < step.version <= target }

  /** The versions that are due, in the order given. */
  function Pending(steps: seq<Step>, current: nat, target: nat): seq<nat> {
    if steps == [] then []
    else
      var last := steps[|steps| - 1];
      Pending(steps[..|steps| - 1], current, target) + if Due(last, current, target) then [last.version] else []
  }

  function Range(current: nat, target: nat): seq<nat> {
    if target <= current then [] else Range(current, target - 1) + [target]
  }

  /** Running the due steps until one fails; a failing step is rolled back. */
  function Walk(db: Db, steps: seq<Step>, current: nat, target: nat, markUser: bool, runs: Step -> bool): Outcome {
    if steps == [] then Outcome(db, None)
    else
      var before := Walk(db, steps[..|steps| - 1], current, target, markUser, runs);
      var last := steps[|steps| - 1];
      if before.error.Some? || !Due(last, current, target) then before
      else if !runs(last) then Outcome(before.db, Some(StepFailed(last.version)))
      else Outcome(Commit(before.db, last, markUser), None)
  }

  function Commit(db: Db, step: Step, markUser: bool): Db {
    Db(Version(step.version), if markUser then step.version else db.userVersion, db.applied + [step])
  }

  function Mark(db: Db, version: nat, markUser: bool): Db {
    db.(meta := Version(version), userVersion := if markUser then version else db.userVersion)
  }

  /** What is refused before any step runs. */
  function Refusal(db: Db, target: nat, steps: seq<Step>, markUser: bool): Option<Error> {
    match CurrentOf(db)
    case None => Some(BadVersionRow)
    case Some(current) =>
      if markUser && db.userVersion != 0
        && db.userVersion != current then Some(MarkersDisagree(current, db.userVersion))
      else if current > target then Some(TooNew(current, target))
      else if markUser && Pending(steps, current, target) != Range(current, target) then Some(StepsIncomplete(current))
      else None
  }

  function WithTable(db: Db): Db { if db.meta.NoTable? then db.(meta := NoRow) else db }

  function Applied(db: Db, target: nat, steps: seq<Step>, markUser: bool, runs: Step -> bool): Outcome {
    var ready := WithTable(db);
    var refusal := Refusal(ready, target, steps, markUser);
    if refusal.Some? then Outcome(ready, refusal)
    else
      var walked := Walk(ready, steps, CurrentOf(ready).value, target, markUser, runs);
      if walked.error.None? && CurrentOf(walked.db).Some? && CurrentOf(walked.db).value < target
      then Outcome(Mark(walked.db, target, markUser), None)
      else walked
  }

  // ---------------------------------------------------------------------
  // What a call does, step by step
  // ---------------------------------------------------------------------

  /** Where the due steps are, in order. */
  ghost predicate DueAt(steps: seq<Step>, current: nat, target: nat, due: seq<nat>) {
    && (forall i, j :: 0 <= i < j < |due| ==> due[i] < due[j])
    && (forall i :: 0 <= i < |due| ==> due[i] < |steps|)
    && forall n: nat :: n < |steps| ==> (n in due <==> current < steps[n].version <= target)
  }

  /** One for each version after `current` up to `target`, in order. */
  ghost predicate Covering(steps: seq<Step>, current: nat, target: nat, due: seq<nat>)
    requires forall i :: 0 <= i < |due| ==> due[i] < |steps|
  {
    |due| == target - current && forall i :: 0 <= i < |due| ==> steps[due[i]].version == current + 1 + i
  }

  /** The first `k` due steps are committed, and the markers say so. */
  ghost predicate Ran(before: Db, steps: seq<Step>, due: seq<nat>, k: nat, markUser: bool, after: Db)
    requires k <= |due| && forall i :: 0 <= i < |due| ==> due[i] < |steps|
  {
    && before.applied <= after.applied && |after.applied| == |before.applied| + k
    && (forall i :: 0 <= i < k ==> after.applied[|before.applied| + i] == steps[due[i]])
    && after.meta == (if k == 0 then before.meta else Version(steps[due[k - 1]].version))
    && after.userVersion == (if k == 0 || !markUser then before.userVersion else steps[due[k - 1]].version)
  }

  /** A call, from its inputs to what it leaves behind: each error has its own condition,
      in the order they are checked, and without one every due step is committed and
      the target is recorded. */
  ghost predicate CallAt(before: Db, target: nat, steps: seq<Step>, markUser: bool, runs: Step -> bool, after: Db,
                         error: Option<Error>, due: seq<nat>, k: nat) {
    var current := if before.meta.Version? then before.meta.number else 0;
    var ready := if before.meta.NoTable? then before.(meta := NoRow) else before;
    && DueAt(steps, current, target, due)
    && if before.meta.Unreadable? then error == Some(BadVersionRow) && after == before
       else if markUser && before.userVersion != 0 && before.userVersion != current then
         error == Some(MarkersDisagree(current, before.userVersion)) && after == ready
       else if current > target then error == Some(TooNew(current, target)) && after == ready
       else if markUser && !Covering(steps, current, target, due) then
         error == Some(StepsIncomplete(current)) && after == ready
       else
         && k <= |due| && (forall i :: 0 <= i < k ==> runs(steps[due[i]]))
         && if k < |due| then
              && !runs(steps[due[k]]) && error == Some(StepFailed(steps[due[k]].version))
              && Ran(ready, steps, due, k, markUser, after)
            else
              && error == None
              && after.applied == ready.applied + seq(k, i requires 0 <= i < k => steps[due[i]])
              && (if due == [] && current == target then after == ready
                  else after.meta == Version(target)
                       && after.userVersion == if markUser then target else ready.userVersion)
  }

  ghost predicate Called(before: Db, target: nat, steps: seq<Step>, markUser: bool, runs: Step -> bool, after: Db,
                         error: Option<Error>) {
    exists due: seq<nat>, k: nat :: CallAt(before, target, steps, markUser, runs, after, error, due, k)
  }

  ghost predicate WalkedAt(db: Db, steps: seq<Step>, markUser: bool, runs: Step -> bool, out: Outcome,
                           due: seq<nat>, k: nat) {
    && (forall i :: 0 <= i < |due| ==> due[i] < |steps|)
    && k <= |due| && (forall i :: 0 <= i < k ==> runs(steps[due[i]]))
    && (k < |due| ==> !runs(steps[due[k]]))
    && out.error == (if k < |due| then Some(StepFailed(steps[due[k]].version)) else None)
    && Ran(db, steps, due, k, markUser, out.db)
  }

  lemma {:induction false} WalkSnoc(db: Db, steps: seq<Step>, step: Step, current: nat, target: nat, markUser: bool,
      runs: Step -> bool)
    ensures
      var before := Walk(db, steps, current, target, markUser, runs);
      Walk(db, steps + [step], current, target, markUser, runs)
        == if before.error.Some? || !Due(step, current, target) then before
           else if !runs(step) then Outcome(before.db, Some(StepFailed(step.version)))
           else Outcome(Commit(before.db, step, markUser), None)
    ensures Pending(steps + [step], current, target)
         == Pending(steps, current, target) + if Due(step, current, target) then [step.version] else []
  {
    assert (steps + [step])[..|steps|] == steps;
  }

  lemma {:induction false} WalkAt(db: Db, steps: seq<Step>, current: nat, target: nat, markUser: bool,
      runs: Step -> bool) returns (due: seq<nat>, k: nat)
    ensures DueAt(steps, current, target, due)
    ensures WalkedAt(db, steps, markUser, runs, Walk(db, steps, current, target, markUser, runs), due, k)
    decreases |steps|
  {
    if steps == [] {
      due, k := [], 0;
    } else {
      hide DueAt, WalkedAt, Walk, Due;
      var init, last := steps[..|steps| - 1], steps[|steps| - 1];
      assert init + [last] == steps;
      due, k := WalkAt(db, init, current, target, markUser, runs);
      due, k := WalkMore(db, init, current, target, markUser, runs, due, k, last);
    }
  }

  lemma {:induction false} WalkMore(db: Db, steps: seq<Step>, current: nat, target: nat, markUser: bool,
      runs: Step -> bool, before: seq<nat>, n: nat, step: Step) returns (due: seq<nat>, k: nat)
    requires DueAt(steps, current, target, before)
    requires WalkedAt(db, steps, markUser, runs, Walk(db, steps, current, target, markUser, runs), before, n)
    ensures DueAt(steps + [step], current, target, due)
    ensures WalkedAt(db, steps + [step], markUser, runs,
                     Walk(db, steps + [step], current, target, markUser, runs), due, k)
  {
    hide DueAt, WalkedAt, Commit, Walk, Due, Pending;
    DueNext(steps, current, target, before, step);
    WalkSnoc(db, steps, step, current, target, markUser, runs);
    WalkedNext(db, steps, markUser, runs, Walk(db, steps, current, target, markUser, runs), before, n, step);
    due, k := before, n;
    if Due(step, current, target) {
      due, k := before + [|steps|], if n == |before| && runs(step) then n + 1 else n;
    }
  }

  lemma {:induction false} PendingAt(steps: seq<Step>, current: nat, target: nat) returns (due: seq<nat>)
    ensures DueAt(steps, current, target, due) && VersionsAt(steps, due, Pending(steps, current, target))
    decreases |steps|
  {
    if steps == [] {
      due := [];
    } else {
      hide DueAt, VersionsAt, Pending, Due;
      var init, last := steps[..|steps| - 1], steps[|steps| - 1];
      assert init + [last] == steps;
      due := PendingAt(init, current, target);
      due := PendingMore(init, current, target, due, last);
    }
  }

  lemma {:induction false} PendingMore(steps: seq<Step>, current: nat, target: nat, before: seq<nat>, step: Step)
    returns (due: seq<nat>)
    requires DueAt(steps, current, target, before) && VersionsAt(steps, before, Pending(steps, current, target))
    ensures DueAt(steps + [step], current, target, due)
    ensures VersionsAt(steps + [step], due, Pending(steps + [step], current, target))
  {
    hide DueAt, Pending, Due;
    DueNext(steps, current, target, before, step);
    WalkSnoc(FRESH_DB, steps, step, current, target, true, (step: Step) => true);
    due := if Due(step, current, target) then before + [|steps|] else before;
  }

  /** `versions` are those of the steps at `due`. */
  ghost predicate VersionsAt(steps: seq<Step>, due: seq<nat>, versions: seq<nat>) {
    && |versions| == |due|
    && forall i :: 0 <= i < |due| ==> due[i] < |steps| && versions[i] == steps[due[i]].version
  }

  /** One more step of the list, due or not. */
  lemma {:induction false} WalkedNext(db: Db, steps: seq<Step>, markUser: bool, runs: Step -> bool, out: Outcome,
      due: seq<nat>, k: nat, step: Step)
    requires WalkedAt(db, steps, markUser, runs, out, due, k)
    ensures out.error.None? <==> k == |due|
    ensures WalkedAt(db, steps + [step], markUser, runs, out, due, k)
    ensures k < |due| ==> WalkedAt(db, steps + [step], markUser, runs, out, due + [|steps|], k)
    ensures k == |due| && !runs(step) ==>
      WalkedAt(db, steps + [step], markUser, runs, Outcome(out.db, Some(StepFailed(step.version))), due + [|steps|], k)
    ensures k == |due| && runs(step) ==>
      WalkedAt(db, steps + [step], markUser, runs, Outcome(Commit(out.db, step, markUser), None), due + [|steps|],
               k + 1)
  {
    RanMore(db, steps, due, k, markUser, out.db, step);
  }

  lemma {:induction false} RanMore(before: Db, steps: seq<Step>, due: seq<nat>, k: nat, markUser: bool, after: Db,
      step: Step)
    requires k <= |due| && forall i :: 0 <= i < |due| ==> due[i] < |steps|
    requires Ran(before, steps, due, k, markUser, after)
    ensures Ran(before, steps + [step], due, k, markUser, after)
    ensures Ran(before, steps + [step], due + [|steps|], k, markUser, after)
    ensures k == |due| ==>
      Ran(before, steps + [step], due + [|steps|], k + 1, markUser, Commit(after, step, markUser))
  {
    assert forall i :: 0 <= i < |due| ==> (due + [|steps|])[i] == due[i] && (steps + [step])[due[i]] == steps[due[i]];
  }

  lemma {:induction false} DueNext(steps: seq<Step>, current: nat, target: nat, due: seq<nat>, step: Step)
    requires DueAt(steps, current, target, due)
    ensures DueAt(steps + [step], current, target, if Due(step, current, target) then due + [|steps|] else due)
  {
    assert |steps| !in due;
    assert forall n: nat :: n < |steps| ==> (n in due <==> current < steps[n].version <= target);
  }

  lemma {:induction false} CoversIff(steps: seq<Step>, current: nat, target: nat, due: seq<nat>)
    requires current <= target && VersionsAt(steps, due, Pending(steps, current, target))
    ensures Pending(steps, current, target) == Range(current, target) <==> Covering(steps, current, target, due)
  {
    RangeLength(current, target);
    forall i | 0 <= i < target - current ensures Range(current, target)[i] == current + i + 1 {
      RangeAt(current, target, i);
    }
  }

  /** The walk of the specification is that call. */
  lemma {:induction false} CallIs(db: Db, target: nat, steps: seq<Step>, markUser: bool, runs: Step -> bool)
    ensures var done := Applied(db, target, steps, markUser, runs);
      Called(db, target, steps, markUser, runs, done.db, done.error)
  {
    hide Walk, Pending, Range, WalkedAt, DueAt, Covering;
    var ready, done := WithTable(db), Applied(db, target, steps, markUser, runs);
    var current := if db.meta.Version? then db.meta.number else 0;
    var due, k := WalkAt(ready, steps, current, target, markUser, runs);
    DueInRange(steps, current, target, due);
    if current <= target && !db.meta.Unreadable? {
      var pending := PendingAt(steps, current, target);
      OneDue(steps, current, target, due, pending);
      CoversIff(steps, current, target, due);
      WalkEnds(ready, steps, current, target, markUser, runs, due, k);
    }
    assert CallAt(db, target, steps, markUser, runs, done.db, done.error, due, k);
  }

  lemma {:induction false} DueInRange(steps: seq<Step>, current: nat, target: nat, due: seq<nat>)
    requires DueAt(steps, current, target, due)
    ensures forall i :: 0 <= i < |due| ==> due[i] < |steps| && current < steps[due[i]].version <= target
  {
    assert forall i :: 0 <= i < |due| ==> due[i] in due;
  }

  lemma {:induction false} WalkEnds(ready: Db, steps: seq<Step>, current: nat, target: nat, markUser: bool,
      runs: Step -> bool, due: seq<nat>, k: nat)
    requires forall i :: 0 <= i < |due| ==> due[i] < |steps| && current < steps[due[i]].version <= target
    requires WalkedAt(ready, steps, markUser, runs, Walk(ready, steps, current, target, markUser, runs), due, k)
    requires current <= target && CurrentOf(ready) == Some(current)
    ensures
      var walked := Walk(ready, steps, current, target, markUser, runs);
      var after := if walked.error.None? && CurrentOf(walked.db).value < target
                   then Mark(walked.db, target, markUser) else walked.db;
      && CurrentOf(walked.db).Some?
      && k <= |due| && (forall i :: 0 <= i < k ==> runs(steps[due[i]]))
      && if k < |due| then
           && !runs(steps[due[k]]) && walked.error == Some(StepFailed(steps[due[k]].version))
           && Ran(ready, steps, due, k, markUser, after)
         else
           && walked.error == None
           && after.applied == ready.applied + seq(k, i requires 0 <= i < k => steps[due[i]])
           && (if due == [] && current == target then after == ready
               else after.meta == Version(target)
                    && after.userVersion == if markUser then target else ready.userVersion)
  {
    hide Walk;
  }

  /** The due steps are one for each version, in order, and each of them runs. */
  ghost predicate Runnable(steps: seq<Step>, current: nat, target: nat, runs: Step -> bool, due: seq<nat>) {
    && DueAt(steps, current, target, due) && Covering(steps, current, target, due)
    && forall i :: 0 <= i < |due| ==> runs(steps[due[i]])
  }

  ghost predicate CanRun(steps: seq<Step>, current: nat, target: nat, runs: Step -> bool) {
    exists due: seq<nat> :: Runnable(steps, current, target, runs, due)
  }

  /** Every due step is committed behind what was there, one for each version. */
  ghost predicate AllCommitted(before: Db, target: nat, steps: seq<Step>, runs: Step -> bool, after: Db) {
    exists due: seq<nat> :: Runnable(steps, |before.applied|, target, runs, due)
      && before.applied <= after.applied && |after.applied| == |before.applied| + |due|
      && forall i :: 0 <= i < |due| ==> after.applied[|before.applied| + i] == steps[due[i]]
  }

  lemma {:induction false} SomeMember(s: seq<nat>)
    ensures s != [] ==> s[0] in s && s[|s| - 1] in s
  {
  }

  /** There is only one way to list numbers in order. */
  lemma {:induction false} OneOrder(a: seq<nat>, b: seq<nat>)
    requires forall i, j :: 0 <= i < j < |a| ==> a[i] < a[j]
    requires forall i, j :: 0 <= i < j < |b| ==> b[i] < b[j]
    requires forall n :: n in a <==> n in b
    ensures a == b
    decreases |a|
  {
    SomeMember(a);
    SomeMember(b);
    if a != [] && b != [] {
      var x, y := a[|a| - 1], b[|b| - 1];
      assert x == y;
      var c, d := a[..|a| - 1], b[..|b| - 1];
      assert a == c + [x] && b == d + [y];
      forall n | n in c ensures n in d {
        assert n in a && n < x;
      }
      forall n | n in d ensures n in c {
        assert n in b && n < y;
      }
      OneOrder(c, d);
    }
  }

  lemma {:induction false} OneDue(steps: seq<Step>, current: nat, target: nat, a: seq<nat>, b: seq<nat>)
    requires DueAt(steps, current, target, a) && DueAt(steps, current, target, b)
    ensures a == b
  {
    forall n ensures n in a <==> n in b {
      if n in a {
        assert n < |steps|;
      }
      if n in b {
        assert n < |steps|;
      }
    }
    OneOrder(a, b);
  }

  /** When a call on a tracked database succeeds, and what it has committed then. */
  lemma {:induction false} SucceedsIff(before: Db, target: nat, steps: seq<Step>, runs: Step -> bool, after: Db,
      error: Option<Error>)
    requires Tracks(before) && |before.applied| <= target
    requires Called(before, target, steps, true, runs, after, error)
    ensures error.None? <==> CanRun(steps, |before.applied|, target, runs)
    ensures error.None? ==> AllCommitted(before, target, steps, runs, after)
  {
    hide DueAt, Covering;
    var current := |before.applied|;
    var due, k :| CallAt(before, target, steps, true, runs, after, error, due, k);
    DueInRange(steps, current, target, due);
    if error.None? {
      assert Runnable(steps, current, target, runs, due);
    }
    if other :| Runnable(steps, current, target, runs, other) {
      OneDue(steps, current, target, due, other);
    }
  }

  class Connection {
    var db: Db

    constructor ()
      ensures db == FRESH_DB
    {
      db := FRESH_DB;
    }

    /** Creates the metadata table if needed, checks the markers, then runs the due
        steps, each in a transaction of its own. */
    method ApplyInner(target: nat, steps: seq<Step>, markUser: bool, runs: Step -> bool) returns (error: Option<Error>)
      modifies this
      ensures Outcome(db, error) == Applied(old(db), target, steps, markUser, runs)
      ensures Called(old(db), target, steps, markUser, runs, db, error)
    {
      hide Called;
      CallIs(db, target, steps, markUser, runs);
      if db.meta.NoTable? {
        db := db.(meta := NoRow);
      }
      ghost var ready := db;
      if db.meta.Unreadable? {
        return Some(BadVersionRow);
      }
      var current := if db.meta.Version? then db.meta.number else 0;
      if markUser && db.userVersion != 0 && db.userVersion != current {
        return Some(MarkersDisagree(current, db.userVersion));
      }
      if current > target {
        return Some(TooNew(current, target));
      }
      if markUser {
        var covered := CoversEach(steps, current, target);
        if !covered {
          return Some(StepsIncomplete(current));
        }
      }
      error := None;
      var n := 0;
      while n < |steps|
        invariant n <= |steps|
        invariant Walk(ready, steps[..n], current, target, markUser, runs) == Outcome(db, None)
      {
        var step := steps[n];
        assert steps[..n + 1][..n] == steps[..n];
        if current < step.version <= target {
          var before := db;
          // one transaction: the step, the metadata row, the user version
          db := db.(applied := db.applied + [step]);
          db := db.(meta := Version(step.version));
          if markUser {
            db := db.(userVersion := step.version);
          }
          if !runs(step) {
            db := before;
            WalkFailed(ready, steps, n, current, target, markUser, runs);
            return Some(StepFailed(step.version));
          }
        }
        n := n + 1;
      }
      assert steps[..n] == steps;
      WalkReadable(ready, steps, current, target, markUser, runs);
      if (if db.meta.Version? then db.meta.number else 0) < target {
        db := db.(meta := Version(target));
        if markUser {
          db := db.(userVersion := target);
        }
      }
    }

    method Apply(target: nat, steps: seq<Step>, runs: Step -> bool) returns (error: Option<Error>)
      modifies this
      ensures Outcome(db, error) == Applied(old(db), target, steps, false, runs)
      ensures Called(old(db), target, steps, false, runs, db, error)
    {
      error := ApplyInner(target, steps, false, runs);
    }

    method ApplyWithUserVersion(target: nat, steps: seq<Step>, runs: Step -> bool) returns (error: Option<Error>)
      modifies this
      ensures Outcome(db, error) == Applied(old(db), target, steps, true, runs)
      ensures Called(old(db), target, steps, true, runs, db, error)
      ensures Tracks(old(db)) && |old(db).applied| <= target ==>
        && (error.None? <==> CanRun(steps, |old(db).applied|, target, runs))
        && (error.None? ==> AllCommitted(old(db), target, steps, runs, db))
      ensures Tracks(old(db)) ==> Tracks(db)
      ensures Tracks(old(db)) && error.None? ==> CurrentOf(db) == Some(target)
      ensures Tracks(old(db)) && error.Some? && error.value.StepFailed? ==>
          CurrentOf(db) == Some(error.value.version - 1)
    {
      hide Called, CanRun, AllCommitted, Applied;
      error := ApplyInner(target, steps, true, runs);
      if Tracks(old(db)) {
        if |old(db).applied| <= target {
          SucceedsIff(old(db), target, steps, runs, db, error);
        }
        KeepsHistory(old(db), target, steps, runs);
      }
    }
  }

  /** Whether the due steps are one for each version, in order. */
  method CoversEach(steps: seq<Step>, current: nat, target: nat) returns (ok: bool)
    ensures ok <==> Pending(steps, current, target) == Range(current, target)
  {
    var pending := DueVersions(steps, current, target);
    var expected := Upwards(current, target);
    ok := pending == expected;
  }

  method DueVersions(steps: seq<Step>, current: nat, target: nat) returns (pending: seq<nat>)
    ensures pending == Pending(steps, current, target)
  {
    pending := [];
    var n := 0;
    while n < |steps|
      invariant n <= |steps| && pending == Pending(steps[..n], current, target)
    {
      assert steps[..n + 1][..n] == steps[..n];
      if current < steps[n].version <= target {
        pending := pending + [steps[n].version];
      }
      n := n + 1;
    }
    assert steps[..n] == steps;
  }

  method Upwards(current: nat, target: nat) returns (expected: seq<nat>)
    ensures expected == Range(current, target)
  {
    expected := [];
    if target <= current {
      return;
    }
    var v := current;
    while v < target
      invariant current <= v <= target && expected == Range(current, v)
    {
      v := v + 1;
      expected := expected + [v];
    }
  }

  /** A failing step ends the walk, and what it did is undone. */
  lemma {:induction false} WalkFailed(db: Db, steps: seq<Step>, n: nat, current: nat, target: nat, markUser: bool,
      runs: Step -> bool)
    requires n < |steps| && Walk(db, steps[..n], current, target, markUser, runs).error.None?
    requires Due(steps[n], current, target) && !runs(steps[n])
    ensures Walk(db, steps, current, target, markUser, runs)
         == Outcome(Walk(db, steps[..n], current, target, markUser, runs).db, Some(StepFailed(steps[n].version)))
    decreases |steps|
  {
    var m := |steps| - 1;
    if n < m {
      assert steps[..m][..n] == steps[..n];
      WalkFailed(db, steps[..m], n, current, target, markUser, runs);
    }
  }

  lemma {:induction false} WalkReadable(db: Db, steps: seq<Step>, current: nat, target: nat, markUser: bool,
      runs: Step -> bool)
    requires !db.meta.Unreadable? && !db.meta.NoTable?
    ensures !Walk(db, steps, current, target, markUser, runs).db.meta.Unreadable?
    ensures !Walk(db, steps, current, target, markUser, runs).db.meta.NoTable?
    decreases |steps|
  {
    if steps != [] {
      WalkReadable(db, steps[..|steps| - 1], current, target, markUser, runs);
    }
  }

  // ---------------------------------------------------------------------
  // History
  // ---------------------------------------------------------------------

  /** Exactly the steps 1 to the current version are committed, each once and in
      order, and both markers say so. */
  ghost predicate Tracks(db: Db) {
    && CurrentOf(db) == Some(|db.applied|) && db.userVersion == |db.applied|
    && forall i :: 0 <= i < |db.applied| ==> db.applied[i].version == i + 1
  }

  lemma {:induction false} RangeAt(current: nat, target: nat, i: nat)
    requires i < |Range(current, target)|
    ensures |Range(current, target)| == target - current && Range(current, target)[i] == current + i + 1
    decreases target
  {
    RangeLength(current, target);
    if i < |Range(current, target)| - 1 {
      RangeAt(current, target - 1, i);
    }
  }

  lemma {:induction false} RangeLength(current: nat, target: nat)
    ensures |Range(current, target)| == if target <= current then 0 else target - current
    decreases target
  {
    if current < target {
      RangeLength(current, target - 1);
    }
  }

  /** Walking part of the steps appends the next versions, one by one. */
  lemma {:induction false} WalkTracks(db: Db, steps: seq<Step>, n: nat, current: nat, target: nat, runs: Step -> bool)
    requires Tracks(db) && CurrentOf(db) == Some(current) && !db.meta.NoTable? && n <= |steps|
    requires Pending(steps, current, target) == Range(current, target)
    ensures
      var walked := Walk(db, steps[..n], current, target, true, runs);
      && Tracks(walked.db) && db.applied <= walked.db.applied
      && (walked.error.None? ==> |walked.db.applied| == current + |Pending(steps[..n], current, target)|)
      && (walked.error.Some? ==> walked.error == Some(StepFailed(|walked.db.applied| + 1)))
    decreases n
  {
    if n > 0 {
      var m := n - 1;
      assert steps[..n][..m] == steps[..m];
      WalkTracks(db, steps, m, current, target, runs);
      if Due(steps[m], current, target) {
        PendingPrefix(steps, n, current, target);
        var p := |Pending(steps[..m], current, target)|;
        assert Pending(steps, current, target)[p] == steps[m].version;
        RangeAt(current, target, p);
      }
    }
  }

  lemma {:induction false} PendingPrefix(steps: seq<Step>, n: nat, current: nat, target: nat)
    requires n <= |steps|
    ensures Pending(steps[..n], current, target) <= Pending(steps, current, target)
    decreases |steps|
  {
    if n < |steps| {
      assert steps[..|steps| - 1][..n] == steps[..n];
      PendingPrefix(steps[..|steps| - 1], n, current, target);
    } else {
      assert steps[..n] == steps;
    }
  }

  /** A call with user version keeps the history exact whatever happens: success
      means the target is reached, a failing step leaves its predecessor's state. */
  lemma {:induction false} KeepsHistory(db: Db, target: nat, steps: seq<Step>, runs: Step -> bool)
    requires Tracks(db)
    ensures
      var done := Applied(db, target, steps, true, runs);
      && Tracks(done.db) && db.applied <= done.db.applied
      && (done.error.None? ==> CurrentOf(done.db) == Some(target))
      && (done.error.Some? && done.error.value.StepFailed? ==> CurrentOf(done.db) == Some(done.error.value.version - 1))
  {
    var ready := WithTable(db);
    if Refusal(ready, target, steps, true).None? {
      var current := CurrentOf(ready).value;
      assert steps[..|steps|] == steps;
      WalkTracks(ready, steps, |steps|, current, target, runs);
      RangeLength(current, target);
    }
  }

  datatype Call = Call(target: nat, steps: seq<Step>, runs: Step -> bool)

  function AfterCalls(db: Db, calls: seq<Call>): Db {
    if calls == [] then db
    else
      var c := calls[|calls| - 1];
      Applied(AfterCalls(db, calls[..|calls| - 1]), c.target, c.steps, true, c.runs).db
  }

  /** Over any sequence of calls on a fresh database, with failing steps, growing or
      shrinking lists and any targets, the committed steps are exactly 1 to current. */
  lemma {:induction false} HistoryIsExact(calls: seq<Call>)
    ensures Tracks(AfterCalls(FRESH_DB, calls))
    decreases |calls|
  {
    if calls != [] {
      var c := calls[|calls| - 1];
      HistoryIsExact(calls[..|calls| - 1]);
      KeepsHistory(AfterCalls(FRESH_DB, calls[..|calls| - 1]), c.target, c.steps, c.runs);
    }
  }

  // ---------------------------------------------------------------------
  // Mixing the two ways of applying
  // ---------------------------------------------------------------------

  /** On a database that was migrated without user version so far, a successful call
      with it leaves the markers agreeing exactly if it had anything to do, or there
      is nothing to mark. */
  lemma {:induction false} MarkersAgreeIff(db: Db, current: nat, target: nat, steps: seq<Step>, runs: Step -> bool)
    requires CurrentOf(db) == Some(current) && db.userVersion == 0
    requires Applied(db, target, steps, true, runs).error.None?
    ensures
      var after := Applied(db, target, steps, true, runs).db;
      CurrentOf(after) == Some(target) && (after.userVersion == target <==> current < target || current == 0)
  {
    var ready := WithTable(db);
    WalkMarks(ready, steps, current, target, runs);
    RangeLength(current, target);
    if current < target {
      LastPending(steps, current, target);
    }
  }

  /** The markers part when a database is first migrated without the user version and
      then, being current, with it: the second call succeeds and marks nothing. */
  lemma {:induction false} MarkersPart()
    ensures
      var steps, runs := [Step(1, "create")], (step: Step) => true;
      var first := Applied(FRESH_DB, 1, steps, false, runs);
      var second := Applied(first.db, 1, steps, true, runs);
      && first.error == None && second.error == None
      && CurrentOf(second.db) == Some(1) && second.db.userVersion == 0
  {
    var steps, runs := [Step(1, "create")], (step: Step) => true;
    assert steps[..0] == [];
    var first := Applied(FRESH_DB, 1, steps, false, runs);
    assert Walk(FRESH_DB.(meta := NoRow), [], 0, 1, false, runs) == Outcome(FRESH_DB.(meta := NoRow), None);
    assert Pending([], 0, 1) == [] && Pending(steps, 0, 1) == [1];
    assert first == Outcome(Db(Version(1), 0, steps), None);
    assert Pending([], 1, 1) == [] && Pending(steps, 1, 1) == [];
    assert Walk(first.db, [], 1, 1, true, runs) == Outcome(first.db, None);
  }

  lemma {:induction false} LastPending(steps: seq<Step>, current: nat, target: nat)
    requires Pending(steps, current, target) == Range(current, target) && current < target
    ensures Pending(steps, current, target) != []
        && Pending(steps, current, target)[|Pending(steps, current, target)| - 1] == target
  {
  }

  /** After a walk both markers hold the last version that was due. */
  lemma {:induction false} WalkMarks(db: Db, steps: seq<Step>, current: nat, target: nat, runs: Step -> bool)
    requires Walk(db, steps, current, target, true, runs).error.None?
    ensures
      var walked, pending := Walk(db, steps, current, target, true, runs).db, Pending(steps, current, target);
      if pending == [] then walked == db
      else walked.meta == Version(pending[|pending| - 1]) && walked.userVersion == pending[|pending| - 1]
    decreases |steps|
  {
    if steps != [] {
      WalkMarks(db, steps[..|steps| - 1], current, target, runs);
    }
  }
}
