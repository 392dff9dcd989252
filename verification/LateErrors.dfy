/** A store transaction can report an error although it has committed: the index
    bookkeeping that follows the commit of a batch runs in a transaction of its own.
    The engine takes every error for a rollback.  Here is what this costs, and when
    it costs nothing. */
module LateErrors {
  import opened Prelude
  import opened Requests
  import opened Journal
  import opened ShardMachine
  import opened ShardSafety
  import opened ShardTheorems

  /** In every state of the run the database holds each resolved request exactly
      once, or not at all if it was refused. */
  ghost predicate ExactAlways(s: Shard, ops: seq<Op>)
    requires Runs(s, ops)
    decreases |ops|
  {
    AppliedExactlyOnce(s.log, s.accepted) && (ops == [] || ExactAlways(Apply(s, ops[0]), ops[1..]))
  }

  lemma {:induction false} InvExact(s: Shard)
    requires Inv(s)
    ensures AppliedExactlyOnce(s.log, s.accepted)
  {
    hide AppliedExactlyOnce, Checkpoint, Holds, LogOk, Read, Applied, Rejected;
    LogExactlyOnce(s.log, s.accepted);
  }

  // ---------------------------------------------------------------------
  // The first commit that must not happen
  // ---------------------------------------------------------------------

  lemma {:induction false} AppliedTwice(log: seq<Commit>, accepted: seq<Entry>, c: Commit)
    requires c.applied != [] && c.applied[0] in Applied(log)
    ensures !AppliedExactlyOnce(log + [c], accepted)
  {
    hide Applied, Rejected, Checkpoint;
    LogSnoc(log, c);
    var now := Applied(log + [c]);
    var i :| 0 <= i < |Applied(log)| && Applied(log)[i] == c.applied[0];
    assert now[i] == c.applied[0] == now[|Applied(log)|];
  }

  lemma {:induction false} RefusedThoughApplied(log: seq<Commit>, accepted: seq<Entry>, e: Entry)
    requires e in Applied(log)
    ensures !AppliedExactlyOnce(log + [Commit([], e.num)], accepted)
  {
    hide Applied, Rejected, Checkpoint;
    LogSnoc(log, Commit([], e.num));
    assert e in Applied(log + [Commit([], e.num)]);
    assert e.num in Rejected(log + [Commit([], e.num)]);
  }

  /** After a late error the next request to be resolved is already in the
      database. */
  lemma {:induction false} HeldInDatabase(s: Shard)
    requires Inv(s) && s.tainted && InFlight(s.drain) != []
    ensures InFlight(s.drain)[0] in Applied(s.log)
  {
    hide Checkpoint, Holds, LogOk, Read, Applied, Rejected;
    var b := Believed(s);
    assert (InFlight(s.drain) + s.queue)[0] == s.accepted[b];
  }

  lemma {:induction false} UnsoundBreaks(s: Shard, op: Op)
    requires Inv(s) && Enabled(s, op) && !Sound(s, op)
    ensures !AppliedExactlyOnce(Apply(s, op).log, Apply(s, op).accepted)
  {
    hide AppliedExactlyOnce, Applied, Rejected, Checkpoint, Inv;
    match op
    case CommitBatch(_) =>
      SyncedBatch(s);
      HeldInDatabase(s);
      AppliedTwice(s.log, s.accepted, Commit(s.drain.batch, LastSeq(s.drain.batch)));
    case RetryOne(attempt) =>
      var e := s.drain.batch[s.drain.position];
      assert InFlight(s.drain)[0] == e;
      if s.tainted {
        HeldInDatabase(s);
      }
      LogSnoc(s.log, Commit([e], e.num));
      match attempt {
        case Stored => AppliedTwice(s.log, s.accepted, Commit([e], e.num));
        case Refused => RefusedThoughApplied(s.log, s.accepted, e);
        case LateDown => AppliedTwice(s.log, s.accepted, Commit([e], e.num));
        case LateRefused => RefusedThoughApplied(s.log + [Commit([e], e.num)], s.accepted, e);
      }
  }

  lemma {:induction false} SyncedBatch(s: Shard)
    requires Inv(s) && s.drain.Synced?
    ensures s.drain.batch != []
  {
    hide Checkpoint, Holds, LogOk, Read, Applied, Rejected;
  }

  /** The exact condition: the database holds everything exactly once in every state
      of an orderly run if and only if no process commits a transaction after one of
      its transactions has reported an error late. */
  lemma {:induction false} ExactlyOnceIff(s: Shard, ops: seq<Op>)
    requires Inv(s) && Orderly(s, ops)
    ensures ExactAlways(s, ops) <==> Legal(s, ops)
    decreases |ops|
  {
    hide Inv, Apply, Enabled, Tidy, Sound, AppliedExactlyOnce;
    InvExact(s);
    if ops != [] {
      var m := Apply(s, ops[0]);
      if Sound(s, ops[0]) {
        StepInv(s, ops[0]);
        ExactlyOnceIff(m, ops[1..]);
      } else {
        UnsoundBreaks(s, ops[0]);
      }
    }
  }

  /** In particular every guarantee holds for a run without late errors. */
  lemma {:induction false} NoLateErrors(s: Shard, ops: seq<Op>)
    requires Orderly(s, ops) && !s.tainted && forall op :: op in ops ==> !Late(op)
    ensures Legal(s, ops)
    decreases |ops|
  {
    if ops != [] {
      hide Enabled, Tidy;
      StaysClean(s, ops[0]);
      assert Sound(s, ops[0]);
      hide Apply, Sound;
      NoLateErrors(Apply(s, ops[0]), ops[1..]);
    }
  }

  lemma {:induction false} StaysClean(s: Shard, op: Op)
    requires Enabled(s, op) && !s.tainted && !Late(op)
    ensures !Apply(s, op).tainted
  {
    hide Read, Above, HighestSeq, Checkpoint;
  }

  // ---------------------------------------------------------------------
  // What the engine does next
  // ---------------------------------------------------------------------

  /** A grouped batch that commits and reports an error is retried request by
      request; unless the store fails at the very first retry, that request is then
      in the database twice, or is refused although it is there. */
  lemma {:induction false} LateBatchRetried(s: Shard, attempt: Attempt)
    requires Inv(s) && s.drain.Synced? && !s.tainted
    ensures var m := Apply(s, CommitBatch(LateError));
      && Enabled(m, RetryOne(attempt))
      && (AppliedExactlyOnce(Apply(m, RetryOne(attempt)).log, m.accepted) <==> attempt == StoreDown)
  {
    hide Inv, AppliedExactlyOnce, Applied, Checkpoint;
    SyncedBatch(s);
    var m := Apply(s, CommitBatch(LateError));
    StepInv(s, CommitBatch(LateError));
    if attempt == StoreDown {
      InvExact(m);
    } else {
      UnsoundBreaks(m, RetryOne(attempt));
    }
  }

  /** A retry that commits and reports an error, followed by its checkpoint: the
      ticket comes back as failed, and the request is in the database. */
  lemma {:induction false} FailedTicketApplied(s: Shard)
    requires Inv(s) && s.drain.Retrying? && s.drain.position < |s.drain.batch|
    ensures var e := s.drain.batch[s.drain.position];
      var ops := [RetryOne(LateRefused),
                  if s.drain.position + 1 < |s.drain.batch| then RetryOne(StoreDown) else FinishRetry, Publish];
      && Runs(s, ops)
      && Wait(Final(s, ops), e.num) == Failed && e in Applied(Final(s, ops).log)
  {
    hide Inv, Applied, Checkpoint, Runs, Final, Enabled;
    var e := s.drain.batch[s.drain.position];
    RetriedNumber(s);
    EnabledRetry(s, RetryOne(LateRefused));
    var a := Apply(s, RetryOne(LateRefused));
    LogSnoc(s.log, Commit([e], e.num));
    LogSnoc(s.log + [Commit([e], e.num)], Commit([], e.num));
    var next := if s.drain.position + 1 < |s.drain.batch| then RetryOne(StoreDown) else FinishRetry;
    EnabledRetry(a, next);
    var b := Apply(a, next);
    assert b.drain == Publishing(e.num) && b.log == a.log && b.failures == a.failures;
    EnabledRetry(b, Publish);
    RunOf3(s, RetryOne(LateRefused), next, Publish);
  }

  lemma {:induction false} EnabledRetry(s: Shard, op: Op)
    requires match op
             case RetryOne(_) => s.drain.Retrying? && s.drain.position < |s.drain.batch|
             case FinishRetry => s.drain.Retrying? && s.drain.position == |s.drain.batch|
             case Publish => s.drain.Publishing?
             case _ => false
    ensures Enabled(s, op)
  {
  }

  lemma {:induction false} RetriedNumber(s: Shard)
    requires Inv(s) && s.drain.Retrying? && s.drain.position < |s.drain.batch|
    ensures s.drain.batch[s.drain.position].num > 0
  {
    hide Checkpoint, Holds, LogOk, Read, Applied, Rejected;
    var rest := s.drain.batch[s.drain.position..] + s.queue;
    assert rest[0] == s.drain.batch[s.drain.position];
  }

  lemma {:induction false} RunOf3(s: Shard, x: Op, y: Op, z: Op)
    requires Enabled(s, x) && Enabled(Apply(s, x), y) && Enabled(Apply(Apply(s, x), y), z)
    ensures Runs(s, [x, y, z]) && Final(s, [x, y, z]) == Apply(Apply(Apply(s, x), y), z)
  {
    var a := Apply(s, x);
    var b := Apply(a, y);
    hide Apply, Enabled;
    assert [x, y, z][1..] == [y, z] && [y, z][1..] == [z] && [z][1..] == [];
    assert Runs(b, [z]) && Final(b, [z]) == Apply(b, z);
    assert Runs(a, [y, z]) && Final(a, [y, z]) == Apply(b, z);
  }

  /** The very first request a shard takes meets both: the states the last two
      lemmas start from are reached from a fresh shard. */
  lemma {:induction false} FirstRequest(req: Request)
    ensures var ops := [Restart(Committed)] + ([FinishBoot] + ([Submit(req, 0)] + ([TakeQueue] + [SyncJournal])));
      && Legal(FRESH, ops)
      && Final(FRESH, ops).drain == Synced([Entry(1, req)]) && !Final(FRESH, ops).tainted
      && Apply(Final(FRESH, ops), CommitBatch(RolledBack)).drain == Retrying([Entry(1, req)], 0, 0)
  {
    hide Legal, Final, Read, AtLineStart, Above, HighestSeq, Checkpoint, Halted;
    FreshBoot();
    var a := FRESH.(mode := Booting);
    var b := FRESH.(mode := Serving);
    var c := Apply(b, Submit(req, 0));
    var d := Apply(c, TakeQueue);
    var e := Apply(d, SyncJournal);
    EmptyRun(e);
    LegalCons(d, SyncJournal, []);
    assert [SyncJournal] + [] == [SyncJournal];
    LegalCons(c, TakeQueue, [SyncJournal]);
    LegalCons(b, Submit(req, 0), [TakeQueue] + [SyncJournal]);
    LegalCons(a, FinishBoot, [Submit(req, 0)] + ([TakeQueue] + [SyncJournal]));
    LegalCons(FRESH, Restart(Committed), [FinishBoot] + ([Submit(req, 0)] + ([TakeQueue] + [SyncJournal])));
  }
}
