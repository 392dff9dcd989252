/** What a shard keeps in every run whatsoever: torn journals, late errors and commits
    after them included.  Nothing here speaks of what was accepted before the process
    began; it is about what the process holds, what it has told, and where the
    requests it handles belong. */
module ShardMemory {
  import opened Prelude
  import opened Requests
  import opened Journal
  import opened ShardMachine
  import opened ShardSafety
  import opened ShardTheorems

  /** The requests the process has not resolved yet: in flight, then queued. */
  function Held(s: Shard): seq<Entry> { InFlight(s.drain) + s.queue }

  /** How many requests this process has admitted. */
  function Admitted(s: Shard): int { s.nextSeq - s.bootSeq }

  /** The requests this process has admitted, in order. */
  function Own(s: Shard): seq<Entry>
    requires 0 <= Admitted(s) <= |s.accepted|
  {
    s.accepted[|s.accepted| - Admitted(s)..]
  }

  /** The database holds the request, or a refusal of it has been recorded. */
  predicate Settled(s: Shard, e: Entry) { e in Applied(s.log) || e.num in s.failures }

  /** What the process has admitted is numbered consecutively up to the counter, and
      what it still holds is the end of that. */
  ghost predicate HeldInOrder(s: Shard) {
    && 0 <= |Held(s)| <= Admitted(s) <= |s.accepted|
    && (forall k :: 0 <= k < Admitted(s) ==> Own(s)[k].num == s.bootSeq + 1 + k)
    && Held(s) == Own(s)[Admitted(s) - |Held(s)|..]
  }

  /** Whatever it does not hold any more is settled, and refusals are recorded in the
      database too. */
  ghost predicate OthersSettled(s: Shard)
    requires 0 <= |Held(s)| <= Admitted(s) <= |s.accepted|
  {
    && (forall k :: 0 <= k < Admitted(s) - |Held(s)| ==> Settled(s, Own(s)[k]))
    && (forall q :: q in s.failures ==> q in Rejected(s.log))
  }

  /** The watermark is at `low`, the last number settled, or is about to be moved
      there; and it is never moved past the checkpoint. */
  predicate DrainAt(drain: Drain, durable: nat, low: int, cp: nat) {
    match drain
    case Idle => durable == low
    case Taken(batch) => batch != [] && durable == low
    case Synced(batch) => batch != [] && durable == low
    case Retrying(batch, position, published) =>
      && position <= |batch| && batch != [] && published <= cp
      && if position == 0 then published == 0 && durable == low else published == low > 0
    case Publishing(upTo) => upTo == low && upTo <= cp
  }

  ghost predicate MemoryInv(s: Shard) {
    if s.mode == Down then s.queue == [] && s.drain == Idle && s.upkeep == Resting && s.failures == {}
    else
      var low, cp := s.nextSeq - |Held(s)|, Checkpoint(s.log);
      && HeldInOrder(s) && OthersSettled(s)
      && s.bootSeq <= s.durable <= low && s.durable <= cp <= s.nextSeq
      && DrainAt(s.drain, s.durable, low, cp)
      && (s.mode == Booting ==> s.drain == Idle && s.queue == [])
  }

  // ---------------------------------------------------------------------
  // Every operation keeps it
  // ---------------------------------------------------------------------

  /** The log only grows while the process lives, and so do the refusals. */
  lemma {:induction false} LogKeeps(s: Shard, t: Shard, more: seq<Commit>)
    requires t.log == s.log + more
    ensures forall e :: e in Applied(s.log) ==> e in Applied(t.log)
    ensures forall q :: q in Rejected(s.log) ==> q in Rejected(t.log)
    decreases |more|
  {
    hide Applied, Rejected, Checkpoint;
    if more == [] {
      assert s.log + [] == s.log;
    } else {
      var n := |more| - 1;
      var before := t.(log := s.log + more[..n]);
      LogKeeps(s, before, more[..n]);
      LogSnoc(before.log, more[n]);
      assert t.log == before.log + [more[n]];
    }
  }

  /** Nothing is taken back and nothing is admitted: what was settled stays so. */
  lemma {:induction false} StaySettled(s: Shard, t: Shard, more: seq<Commit>)
    requires HeldInOrder(s) && OthersSettled(s)
    requires t.log == s.log + more && s.failures <= t.failures
    requires t.accepted == s.accepted && t.nextSeq == s.nextSeq && t.bootSeq == s.bootSeq
    requires forall q :: q in t.failures ==> q in s.failures || q in Rejected(t.log)
    ensures forall k :: 0 <= k < Admitted(s) - |Held(s)| ==> Settled(t, Own(t)[k])
    ensures forall q :: q in t.failures ==> q in Rejected(t.log)
  {
    hide Applied, Rejected, Checkpoint;
    LogKeeps(s, t, more);
    forall k | 0 <= k < Admitted(s) - |Held(s)| ensures Settled(t, Own(t)[k]) {
      assert Settled(s, Own(s)[k]);
    }
  }

  /** Resolving the first `n` requests held keeps the rest in order. */
  lemma {:induction false} OrderAfter(s: Shard, t: Shard, n: nat)
    requires HeldInOrder(s) && n <= |Held(s)| && Held(t) == Held(s)[n..]
    requires t.accepted == s.accepted && t.nextSeq == s.nextSeq && t.bootSeq == s.bootSeq
    ensures HeldInOrder(t) && Admitted(t) == Admitted(s) && Own(t) == Own(s)
  {
  }

  lemma {:induction false} SubmitMemory(s: Shard, req: Request, spill: nat)
    requires MemoryInv(s) && Enabled(s, Submit(req, spill))
    ensures MemoryInv(Apply(s, Submit(req, spill)))
  {
    hide Checkpoint, Applied, Rejected;
    var t := Apply(s, Submit(req, spill));
    var e := Entry(s.nextSeq + 1, req);
    assert Held(t) == Held(s) + [e];
    assert Own(t) == Own(s) + [e];
    forall k | 0 <= k < Admitted(t) - |Held(t)| ensures Settled(t, Own(t)[k]) {
      assert Settled(s, Own(s)[k]);
    }
  }

  lemma {:induction false} SameMemory(s: Shard, op: Op) returns (t: Shard)
    requires MemoryInv(s) && Enabled(s, op)
    requires op.TakeQueue? || op.SyncJournal? || op.FinishRetry? || op.Publish? || op.Snapshot? || op.WalCheckpoint?
          || op.AbandonUpkeep? || op.Reclaim? || op.FinishBoot?
    ensures t == Apply(s, op) && Held(t) == Held(s) && t.log == s.log && t.failures == s.failures
    ensures t.accepted == s.accepted && t.nextSeq == s.nextSeq && t.bootSeq == s.bootSeq && s.mode != Down
    ensures t.mode == s.mode || (op.FinishBoot? && s.mode == Booting && t.mode == Serving)
    ensures s.durable <= t.durable && t.durable <= s.nextSeq - |Held(s)| && t.durable <= Checkpoint(s.log)
    ensures DrainAt(t.drain, t.durable, s.nextSeq - |Held(s)|, Checkpoint(s.log))
    ensures t.mode == Booting ==> t.drain == Idle && t.queue == []
  {
    hide Checkpoint, Applied, Rejected, Read, Halted, Above, HighestSeq, HeldInOrder, OthersSettled;
    t := Apply(s, op);
    assert Held(t) == Held(s);
  }

  /** Steps that resolve nothing. */
  lemma {:induction false} SameHeld(s: Shard, op: Op)
    requires MemoryInv(s) && Enabled(s, op)
    requires op.TakeQueue? || op.SyncJournal? || op.FinishRetry? || op.Publish? || op.Snapshot? || op.WalCheckpoint?
          || op.AbandonUpkeep? || op.Reclaim? || op.FinishBoot?
    ensures MemoryInv(Apply(s, op))
  {
    var t := SameMemory(s, op);
    hide Checkpoint, Applied, Rejected, Apply, Enabled, HeldInOrder, OthersSettled, DrainAt, Own, Held;
    SameSettled(s, t);
  }

  lemma {:induction false} SameSettled(s: Shard, t: Shard)
    requires HeldInOrder(s) && OthersSettled(s)
    requires Held(t) == Held(s) && t.log == s.log && t.failures == s.failures
    requires t.accepted == s.accepted && t.nextSeq == s.nextSeq && t.bootSeq == s.bootSeq
    ensures HeldInOrder(t) && OthersSettled(t)
  {
    hide Checkpoint, Applied, Rejected, HeldInOrder, OthersSettled, Settled;
    assert s.log == s.log + [] && Held(s) == Held(s)[0..];
    OrderAfter(s, t, 0);
    StaySettled(s, t, []);
    NowSettled(t);
  }

  /** The first request held is the next one to be settled. */
  lemma {:induction false} FirstHeld(s: Shard)
    requires MemoryInv(s) && s.mode != Down && Held(s) != []
    ensures var low := Admitted(s) - |Held(s)|;
      && Own(s)[low] == Held(s)[0] && Held(s)[0].num == s.nextSeq - |Held(s)| + 1
      && Held(s)[1..] == Own(s)[low + 1..]
  {
    hide Checkpoint, Applied, Rejected, DrainAt, OthersSettled;
  }

  lemma {:induction false} BatchMemory(s: Shard, verdict: Verdict)
    requires MemoryInv(s) && s.drain.Synced?
    ensures MemoryInv(Apply(s, CommitBatch(verdict)))
  {
    hide Checkpoint, Applied, Rejected, HeldInOrder, OthersSettled;
    BatchNumbers(s);
    BatchSettled(s, verdict);
    LogSnoc(s.log, Commit(s.drain.batch, LastSeq(s.drain.batch)));
  }

  lemma {:induction false} BatchSettled(s: Shard, verdict: Verdict)
    requires MemoryInv(s) && s.drain.Synced?
    ensures var t := Apply(s, CommitBatch(verdict));
      && HeldInOrder(t) && OthersSettled(t)
      && |Held(t)| == if verdict == Committed then |s.queue| else |Held(s)|
  {
    hide Checkpoint, Applied, Rejected, HeldInOrder, OthersSettled, DrainAt;
    var batch, t := s.drain.batch, Apply(s, CommitBatch(verdict));
    BatchNumbers(s);
    var more := if verdict == RolledBack then [] else [Commit(batch, LastSeq(batch))];
    assert t.log == s.log + more;
    StaySettled(s, t, more);
    assert batch[0..] == batch && Held(s)[0..] == Held(s) && Held(s)[|batch|..] == s.queue;
    OrderAfter(s, t, if verdict == Committed then |batch| else 0);
    if verdict == Committed {
      BatchIsSettled(s, t);
    }
    NowSettled(t);
  }

  lemma {:induction false} BatchIsSettled(s: Shard, t: Shard)
    requires MemoryInv(s) && s.drain.Synced? && t == Apply(s, CommitBatch(Committed))
    requires forall k :: 0 <= k < Admitted(s) - |Held(s)| ==> Settled(t, Own(t)[k])
    ensures forall k :: 0 <= k < Admitted(t) - |s.queue| ==> Settled(t, Own(t)[k])
  {
    hide Checkpoint, Applied, Rejected, HeldInOrder, OthersSettled, DrainAt;
    var batch, low := s.drain.batch, Admitted(s) - |Held(s)|;
    BatchNumbers(s);
    LogSnoc(s.log, Commit(batch, LastSeq(batch)));
    forall k | 0 <= k < Admitted(t) - |s.queue| ensures Settled(t, Own(t)[k]) {
      if k >= low {
        assert Own(s)[low + (k - low)] == batch[k - low];
      }
    }
  }

  lemma {:induction false} NowSettled(t: Shard)
    requires HeldInOrder(t)
    requires forall k :: 0 <= k < Admitted(t) - |Held(t)| ==> Settled(t, Own(t)[k])
    requires forall q :: q in t.failures ==> q in Rejected(t.log)
    ensures OthersSettled(t)
  {
    hide Applied, Rejected;
  }

  lemma {:induction false} BatchNumbers(s: Shard)
    requires MemoryInv(s) && s.drain.Synced?
    ensures var batch, low := s.drain.batch, Admitted(s) - |Held(s)|;
      && s.mode != Down && batch != [] && LastSeq(batch) == s.bootSeq + low + |batch|
      && 0 <= low && low + |batch| <= Admitted(s) <= |s.accepted|
      && (forall k :: 0 <= k < |batch| ==> Own(s)[low + k] == batch[k])
      && s.queue == Own(s)[low + |batch|..]
  {
    hide Checkpoint, Applied, Rejected, OthersSettled;
    var batch, low := s.drain.batch, Admitted(s) - |Held(s)|;
    assert forall k :: 0 <= k < |batch| ==> Held(s)[k] == batch[k];
    assert s.queue == Held(s)[|batch|..] == Own(s)[low..][|batch|..];
  }

  lemma {:induction false} RetryMemory(s: Shard, attempt: Attempt)
    requires MemoryInv(s) && Enabled(s, RetryOne(attempt))
    ensures MemoryInv(Apply(s, RetryOne(attempt)))
  {
    hide Checkpoint, Applied, Rejected, HeldInOrder, OthersSettled, Own, Settled;
    var t := Apply(s, RetryOne(attempt));
    assert Held(s)[0] == s.drain.batch[s.drain.position];
    FirstHeld(s);
    RetriedCommits(s, t, attempt);
    RetrySettled(s, t, attempt);
  }

  lemma {:induction false} RetrySettled(s: Shard, t: Shard, attempt: Attempt)
    requires MemoryInv(s) && Enabled(s, RetryOne(attempt)) && t == Apply(s, RetryOne(attempt))
    ensures HeldInOrder(t) && OthersSettled(t) && |Held(t)| == |Held(s)| - if Stops(attempt) then 0 else 1
  {
    hide Checkpoint, Applied, Rejected, HeldInOrder, OthersSettled, DrainAt;
    var e := s.drain.batch[s.drain.position];
    var n := if Stops(attempt) then 0 else 1;
    assert Held(s)[0] == e && Held(t) == Held(s)[n..];
    RetriedCommits(s, t, attempt);
    FirstSettled(s, t, n);
  }

  /** The first `n` requests held, none or one, are settled now. */
  lemma {:induction false} FirstSettled(s: Shard, t: Shard, n: nat)
    requires MemoryInv(s) && s.mode != Down && n <= 1 && n <= |Held(s)| && Held(t) == Held(s)[n..]
    requires t.accepted == s.accepted && t.nextSeq == s.nextSeq && t.bootSeq == s.bootSeq
    requires n == 1 ==> Settled(t, Held(s)[0])
    requires forall k :: 0 <= k < Admitted(s) - |Held(s)| ==> Settled(t, Own(t)[k])
    requires forall q :: q in t.failures ==> q in Rejected(t.log)
    ensures HeldInOrder(t) && OthersSettled(t)
  {
    hide Applied, Rejected, OthersSettled, DrainAt, Settled, Held;
    OrderAfter(s, t, n);
    if n == 1 {
      FirstHeld(s);
    }
    NowSettled(t);
  }

  lemma {:induction false} RetriedCommits(s: Shard, t: Shard, attempt: Attempt)
    requires MemoryInv(s) && Enabled(s, RetryOne(attempt)) && t == Apply(s, RetryOne(attempt))
    ensures var e := s.drain.batch[s.drain.position];
      && Checkpoint(t.log) == (if attempt == StoreDown then Checkpoint(s.log) else Max(Checkpoint(s.log), e.num))
      && (Stores(attempt) ==> e in Applied(t.log)) && (Refuses(attempt) ==> e.num in t.failures)
      && (forall k :: 0 <= k < Admitted(s) - |Held(s)| ==> Settled(t, Own(t)[k]))
      && (forall q :: q in t.failures ==> q in Rejected(t.log))
  {
    hide Checkpoint, Applied, Rejected;
    var e := s.drain.batch[s.drain.position];
    var put, mark := Commit([e], e.num), Commit([], e.num);
    LogSnoc(s.log, put);
    LogSnoc(s.log, mark);
    LogSnoc(s.log + [put], mark);
    var more := match attempt
      case Stored => [put]
      case Refused => [mark]
      case StoreDown => []
      case LateRefused => [put] + [mark]
      case LateDown => [put];
    assert t.log == s.log + more by {
      assert s.log + [] == s.log && s.log + ([put] + [mark]) == s.log + [put] + [mark];
    }
    StaySettled(s, t, more);
  }

  lemma {:induction false} FaultMemory(s: Shard, op: Op)
    requires Enabled(s, op) && (op.ProcessCrash? || op.PowerLoss?)
    ensures MemoryInv(Apply(s, op)) && Apply(s, op).mode == Down
  {
    hide Checkpoint, Read, Cut;
  }

  /** The scan of a journal whose records are all at or below the checkpoint stops at
      the checkpoint. */
  lemma {:induction false} NothingAbove(entries: seq<Entry>, cp: nat)
    requires Above(entries, cp) == []
    ensures HighestSeq(entries, cp) == cp
    decreases |entries|
  {
    if entries != [] {
      NothingAbove(entries[..|entries| - 1], cp);
    }
  }

  lemma {:induction false} RestartMemory(s: Shard, verdict: Verdict)
    requires MemoryInv(s) && s.mode == Down
    ensures MemoryInv(Apply(s, Restart(verdict)))
  {
    hide Checkpoint, Applied, Rejected, Read, Above, HighestSeq;
    var entries := Read(s.file);
    var cp := Checkpoint(s.log);
    var pending, last := Above(entries, cp), HighestSeq(entries, cp);
    if pending == [] {
      NothingAbove(entries, cp);
    }
    LogSnoc(s.log, Commit(pending, last));
    var t := Apply(s, Restart(verdict));
    assert Held(t) == [] && t.failures == {};
    if t.mode != Down {
      assert t.nextSeq == t.bootSeq == t.durable == last == Checkpoint(t.log);
      JustBooted(t);
    }
  }

  lemma {:induction false} JustBooted(t: Shard)
    requires t.mode == Booting && t.queue == [] && t.drain == Idle && t.failures == {}
    requires t.nextSeq == t.bootSeq == t.durable == Checkpoint(t.log)
    ensures MemoryInv(t)
  {
    hide Checkpoint, Applied, Rejected, HeldInOrder, OthersSettled;
    assert Held(t) == [];
    NothingAdmitted(t);
  }

  lemma {:induction false} NothingAdmitted(t: Shard)
    requires t.nextSeq == t.bootSeq && Held(t) == [] && t.failures == {}
    ensures HeldInOrder(t) && OthersSettled(t)
  {
    hide Applied, Rejected, Held;
    assert Own(t) == [];
  }

  lemma {:induction false} StepMemory(s: Shard, op: Op)
    requires MemoryInv(s) && Enabled(s, op)
    ensures MemoryInv(Apply(s, op))
  {
    hide MemoryInv, Apply;
    match op
    case Submit(req, spill) => SubmitMemory(s, req, spill);
    case CommitBatch(verdict) => BatchMemory(s, verdict);
    case RetryOne(attempt) => RetryMemory(s, attempt);
    case ProcessCrash(_, _) => FaultMemory(s, op);
    case PowerLoss(_, _, _) => FaultMemory(s, op);
    case Restart(verdict) => RestartMemory(s, verdict);
    case _ => SameHeld(s, op);
  }

  /** In every run of a shard, with nothing said about what its operations are. */
  lemma {:induction false} RunMemory(s: Shard, ops: seq<Op>)
    requires MemoryInv(s) && Runs(s, ops)
    ensures MemoryInv(Final(s, ops))
    decreases |ops|
  {
    hide MemoryInv, Apply, Enabled;
    if ops != [] {
      StepMemory(s, ops[0]);
      RunMemory(Apply(s, ops[0]), ops[1..]);
    }
  }

  lemma {:induction false} FreshMemory()
    ensures MemoryInv(FRESH)
  {
  }

  // ---------------------------------------------------------------------
  // What follows
  // ---------------------------------------------------------------------

  predicate IsFault(op: Op) { op.ProcessCrash? || op.PowerLoss? }

  /** While the process lives its watermark never moves back, and it never passes the
      database's checkpoint or the counter. */
  lemma {:induction false} WatermarkMonotone(s: Shard, op: Op)
    requires MemoryInv(s) && Enabled(s, op) && s.mode != Down && !IsFault(op)
    ensures var t := Apply(s, op);
      && t.mode != Down && t.bootSeq == s.bootSeq
      && s.durable <= t.durable <= Checkpoint(t.log) <= t.nextSeq
      && (t.nextSeq == if op.Submit? then s.nextSeq + 1 else s.nextSeq)
  {
    hide Checkpoint, Applied, Rejected, Own;
    StepMemory(s, op);
    WatermarkRises(s, op);
    CounterMoves(s, op);
  }

  lemma {:induction false} CounterMoves(s: Shard, op: Op)
    requires Enabled(s, op) && s.mode != Down && !IsFault(op)
    ensures var t := Apply(s, op);
      && t.bootSeq == s.bootSeq && (t.mode == s.mode || (op.FinishBoot? && t.mode == Serving))
      && (t.nextSeq == if op.Submit? then s.nextSeq + 1 else s.nextSeq)
  {
    hide Halted, Read, Above, HighestSeq, Checkpoint;
  }

  /** In flight and queued are, in order, the last requests the process has admitted;
      all before them are settled, and everything at or below the watermark is one of
      those. */
  lemma {:induction false} AdmittedIsSettledOrHeld(s: Shard, k: nat)
    requires MemoryInv(s) && s.mode != Down && k < Admitted(s)
    ensures Own(s)[k].num == s.bootSeq + 1 + k
    ensures Held(s) == Own(s)[Admitted(s) - |Held(s)|..]
    ensures k < Admitted(s) - |Held(s)| ==> Settled(s, Own(s)[k])
    ensures Own(s)[k].num <= s.durable ==> k < Admitted(s) - |Held(s)|
  {
    hide Checkpoint, Applied, Rejected, DrainAt, Settled;
  }

  /** A ticket of this process is never reported durable unless its request is in the
      database, nor failed unless a refusal of it is recorded there; it waits exactly
      until the watermark reaches it. */
  lemma {:induction false} TicketIsHonest(s: Shard, q: nat)
    requires MemoryInv(s) && s.mode == Serving && s.bootSeq < q <= s.nextSeq
    ensures Wait(s, q) == Waiting <==> s.durable < q
    ensures Wait(s, q) == Durable ==> Own(s)[q - s.bootSeq - 1] in Applied(s.log)
    ensures Wait(s, q) == Failed ==> q in Rejected(s.log)
    ensures Own(s)[q - s.bootSeq - 1].num == q
  {
    hide Checkpoint, Applied, Rejected, DrainAt;
    AdmittedIsSettledOrHeld(s, q - s.bootSeq - 1);
  }

  /** Nothing queued, nothing in flight, and everything this process has admitted is
      settled in its database. */
  ghost predicate Drained(s: Shard) {
    && s.queue == [] && InFlight(s.drain) == []
    && s.durable == s.nextSeq == Checkpoint(s.log)
    && 0 <= Admitted(s) <= |s.accepted| && forall e :: e in Own(s) ==> Settled(s, e)
  }

  /** Between drains everything above the watermark is queued, in order. */
  lemma {:induction false} IdleQueue(s: Shard)
    requires MemoryInv(s) && s.mode != Down && s.drain == Idle
    ensures s.durable + |s.queue| == s.nextSeq
    ensures forall i :: 0 <= i < |s.queue| ==> s.queue[i].num == s.durable + 1 + i
  {
    hide Checkpoint, Applied, Rejected, OthersSettled;
    assert Held(s) == s.queue;
    assert forall i :: 0 <= i < |s.queue| ==> s.queue[i] == Own(s)[Admitted(s) - |s.queue| + i];
  }

  lemma {:induction false} CaughtUpIsDrained(s: Shard)
    requires MemoryInv(s) && s.mode != Down
    ensures s.durable == s.nextSeq <==> Drained(s)
  {
    hide Checkpoint, Applied, Rejected, DrainAt, Settled;
    if s.durable == s.nextSeq {
      assert |Held(s)| == 0;
      assert Held(s) == [];
    }
  }

  /** A drained shard changes only by an admission. */
  lemma {:induction false} DrainedStep(s: Shard, op: Op)
    requires MemoryInv(s) && s.mode != Down && Drained(s) && Enabled(s, op) && !op.Submit? && !IsFault(op)
    ensures var t := Apply(s, op);
      t.log == s.log && t.accepted == s.accepted && t.nextSeq == s.nextSeq && t.durable == s.durable
  {
    hide Checkpoint, Applied, Rejected, Own, Read, Halted, Above, HighestSeq;
  }

  // ---------------------------------------------------------------------
  // Where requests belong
  // ---------------------------------------------------------------------

  /** Every request that the shard holds, has journalled or has committed is `ok`. */
  ghost predicate AllOf(s: Shard, ok: Request -> bool) {
    && (forall e :: e in Held(s) ==> ok(e.req))
    && (forall t :: t in s.Written() && t.Body? ==> ok(t.entry.req))
    && (forall e :: e in Applied(s.log) ==> ok(e.req))
  }

  /** What is read from a journal was written to it. */
  lemma {:induction false} ReadWritten(ts: seq<Token>)
    ensures forall e :: e in Read(ts) ==> Body(e) in ts
  {
    var s := Split(ts);
    SplitHolds(ts);
    ParsedHolds(s.lines);
    forall e | e in Read(ts) ensures Body(e) in ts {
      if e in ParseLines(s.lines) {
        var line :| line in s.lines && Body(e) in line;
      } else {
        assert e in ParseLine(s.rest);
        assert Body(e) in s.rest;
      }
    }
  }

  lemma {:induction false} SplitHolds(ts: seq<Token>)
    ensures forall line, t :: line in Split(ts).lines && t in line ==> t in ts
    ensures forall t :: t in Split(ts).rest ==> t in ts
    decreases |ts|
  {
    if ts != [] {
      SplitHolds(ts[..|ts| - 1]);
    }
  }

  lemma {:induction false} ParsedHolds(lines: seq<seq<Token>>)
    ensures forall e :: e in ParseLines(lines) ==> exists line :: line in lines && Body(e) in line
    decreases |lines|
  {
    if lines != [] {
      var init, last := lines[..|lines| - 1], lines[|lines| - 1];
      ParsedHolds(init);
      forall e | e in ParseLines(lines) ensures exists line :: line in lines && Body(e) in line {
        if e in ParseLines(init) {
          var line :| line in init && Body(e) in line;
          assert line in lines;
        } else {
          assert last in lines && Body(e) in last;
        }
      }
    }
  }

  lemma {:induction false} AboveHolds(entries: seq<Entry>, cp: nat)
    ensures forall e :: e in Above(entries, cp) ==> e in entries
    decreases |entries|
  {
    if entries != [] {
      AboveHolds(entries[..|entries| - 1], cp);
    }
  }

  lemma {:induction false} AppliedPrefix(log: seq<Commit>, m: nat)
    requires m <= |log|
    ensures forall e :: e in Applied(log[..m]) ==> e in Applied(log)
    decreases |log|
  {
    if m == |log| {
      assert log[..m] == log;
    } else {
      AppliedPrefix(log[..|log| - 1], m);
      assert log[..|log| - 1][..m] == log[..m];
    }
  }

  lemma {:induction false} TakenAllOf(s: Shard, op: Op, ok: Request -> bool)
    requires AllOf(s, ok) && Enabled(s, op) && (op.Submit? ==> ok(op.req))
    requires op.Submit? || op.TakeQueue? || op.SyncJournal?
    ensures AllOf(Apply(s, op), ok)
  {
    hide Applied, Halted, Read, Above, HighestSeq, Checkpoint;
    var t := Apply(s, op);
    if op.Submit? {
      var e := Entry(s.nextSeq + 1, op.req);
      assert Held(t) == Held(s) + [e];
      assert t.Written() == s.Written() + [Body(e), Newline];
    } else {
      assert Held(t) == Held(s) && t.Written() == s.Written();
    }
  }

  lemma {:induction false} BatchAllOf(s: Shard, verdict: Verdict, ok: Request -> bool)
    requires AllOf(s, ok) && Enabled(s, CommitBatch(verdict))
    ensures AllOf(Apply(s, CommitBatch(verdict)), ok)
  {
    hide Applied, Checkpoint, Rejected;
    var t, batch := Apply(s, CommitBatch(verdict)), s.drain.batch;
    assert t.Written() == s.Written();
    LogSnoc(s.log, Commit(batch, LastSeq(batch)));
    assert forall e :: e in batch ==> e in Held(s);
    assert batch[0..] == batch;
  }

  lemma {:induction false} RetryAllOf(s: Shard, attempt: Attempt, ok: Request -> bool)
    requires AllOf(s, ok) && Enabled(s, RetryOne(attempt))
    ensures AllOf(Apply(s, RetryOne(attempt)), ok)
  {
    hide Applied, Checkpoint, Rejected;
    var t := Apply(s, RetryOne(attempt));
    assert t.Written() == s.Written();
    assert Held(s)[0] == s.drain.batch[s.drain.position];
    assert Held(t) == Held(s)[if Stops(attempt) then 0 else 1..];
    RetriedEntries(s, attempt);
  }

  lemma {:induction false} RetriedEntries(s: Shard, attempt: Attempt)
    requires Enabled(s, RetryOne(attempt))
    ensures forall e :: e in Applied(Apply(s, RetryOne(attempt)).log) ==>
      e in Applied(s.log) || e == s.drain.batch[s.drain.position]
  {
    hide Applied, Checkpoint, Rejected;
    var e := s.drain.batch[s.drain.position];
    LogSnoc(s.log, Commit([e], e.num));
    LogSnoc(s.log, Commit([], e.num));
    LogSnoc(s.log + [Commit([e], e.num)], Commit([], e.num));
  }

  lemma {:induction false} LocalAllOf(s: Shard, op: Op, ok: Request -> bool)
    requires AllOf(s, ok) && Enabled(s, op)
    requires op.FinishRetry? || op.Publish? || op.Snapshot? || op.WalCheckpoint? || op.AbandonUpkeep? || op.Reclaim?
          || op.FinishBoot?
    ensures AllOf(Apply(s, op), ok)
  {
    hide Applied, Halted, Read, Above, HighestSeq, Checkpoint;
    var t := Apply(s, op);
    assert Held(t) == Held(s) || Held(t) == [];
    assert t.Written() == s.Written() || t.Written() == [];
  }

  lemma {:induction false} FaultAllOf(s: Shard, op: Op, ok: Request -> bool)
    requires AllOf(s, ok) && Enabled(s, op) && IsFault(op)
    ensures AllOf(Apply(s, op), ok)
  {
    hide Applied, Read, Checkpoint;
    var t := Apply(s, op);
    assert Held(t) == [];
    match op
    case ProcessCrash(kept, torn) =>
      assert t.Written() == Cut(s.Written(), kept, torn);
    case PowerLoss(kept, torn, commits) =>
      assert t.Written() == Cut(s.file, kept, torn);
      assert forall x :: x in s.file ==> x in s.Written();
      AppliedPrefix(s.log, commits);
  }

  lemma {:induction false} RestartAllOf(s: Shard, verdict: Verdict, ok: Request -> bool)
    requires AllOf(s, ok) && s.mode == Down
    ensures AllOf(Apply(s, Restart(verdict)), ok)
  {
    hide Applied, Read, Above, HighestSeq, Checkpoint;
    var cp := Checkpoint(s.log);
    var pending := Above(Read(s.file), cp);
    ReadWritten(s.file);
    AboveHolds(Read(s.file), cp);
    assert forall x :: x in s.file ==> x in s.Written();
    LogSnoc(s.log, Commit(pending, HighestSeq(Read(s.file), cp)));
    assert Held(Apply(s, Restart(verdict))) == Held(s);
    assert Apply(s, Restart(verdict)).Written() == s.Written();
  }

  /** No operation brings in a request that is not `ok` but a submission. */
  lemma {:induction false} StepAllOf(s: Shard, op: Op, ok: Request -> bool)
    requires AllOf(s, ok) && Enabled(s, op) && (op.Submit? ==> ok(op.req))
    ensures AllOf(Apply(s, op), ok)
  {
    hide AllOf, Apply;
    match op
    case Submit(_, _) => TakenAllOf(s, op, ok);
    case TakeQueue => TakenAllOf(s, op, ok);
    case SyncJournal => TakenAllOf(s, op, ok);
    case CommitBatch(verdict) => BatchAllOf(s, verdict, ok);
    case RetryOne(attempt) => RetryAllOf(s, attempt, ok);
    case ProcessCrash(_, _) => FaultAllOf(s, op, ok);
    case PowerLoss(_, _, _) => FaultAllOf(s, op, ok);
    case Restart(verdict) => RestartAllOf(s, verdict, ok);
    case _ => LocalAllOf(s, op, ok);
  }

  lemma {:induction false} FreshAllOf(ok: Request -> bool)
    ensures AllOf(FRESH, ok)
  {
  }
}
