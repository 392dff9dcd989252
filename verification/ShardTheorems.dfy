/** What the shard promises over whole runs: exactly-once application, no lost
    publication, exact ticket outcomes. */
module ShardTheorems {
  import opened Prelude
  import opened Requests
  import opened Journal
  import opened ShardMachine
  import opened ShardSafety

  /** The operations can be performed in this order from `s`. */
  ghost predicate Runs(s: Shard, ops: seq<Op>)
    decreases |ops|
  {
    ops == [] || (Enabled(s, ops[0]) && Runs(Apply(s, ops[0]), ops[1..]))
  }

  ghost function Final(s: Shard, ops: seq<Op>): Shard
    requires Runs(s, ops)
    decreases |ops|
  {
    if ops == [] then s else Final(Apply(s, ops[0]), ops[1..])
  }

  /** A run that appends to the journal only at a line boundary. */
  ghost predicate Orderly(s: Shard, ops: seq<Op>): (ok: bool)
    ensures ok ==> Runs(s, ops)
    decreases |ops|
  {
    ops == [] || (Enabled(s, ops[0]) && Tidy(s, ops[0]) && Orderly(Apply(s, ops[0]), ops[1..]))
  }

  /** An orderly run in which no process commits anything after one of its
      transactions has reported an error late. */
  ghost predicate Legal(s: Shard, ops: seq<Op>): (ok: bool)
    ensures ok ==> Runs(s, ops) && Orderly(s, ops)
    decreases |ops|
  {
    ops == [] ||
    (Enabled(s, ops[0]) && Tidy(s, ops[0]) && Sound(s, ops[0]) && Legal(Apply(s, ops[0]), ops[1..]))
  }

  lemma {:induction false} RunInv(s: Shard, ops: seq<Op>)
    requires Inv(s) && Legal(s, ops)
    ensures Inv(Final(s, ops))
    decreases |ops|
  {
    hide Inv, Apply, Enabled, Tidy, Sound;
    if ops != [] {
      StepInv(s, ops[0]);
      RunInv(Apply(s, ops[0]), ops[1..]);
    }
  }

  lemma {:induction false} FreshInv()
    ensures Inv(FRESH)
  {
    EmptyJournal();
  }

  // ---------------------------------------------------------------------
  // Exactly once
  // ---------------------------------------------------------------------

  ghost predicate Increasing(entries: seq<Entry>) {
    forall i, j :: 0 <= i < j < |entries| ==> entries[i].num < entries[j].num
  }

  /** `applied` holds each number at most once, holds only accepted entries up
      to `cp`, and holds exactly those of them that were not refused. */
  ghost predicate Exact(applied: seq<Entry>, rejected: set<nat>, cp: nat, accepted: seq<Entry>) {
    && cp <= |accepted|
    && Increasing(applied)
    && (forall e :: e in applied ==> 1 <= e.num <= cp && e == accepted[e.num - 1])
    && (forall q :: 1 <= q <= cp ==> (accepted[q - 1] in applied <==> q !in rejected))
  }

  ghost predicate AppliedExactlyOnce(log: seq<Commit>, accepted: seq<Entry>) {
    Exact(Applied(log), Rejected(log), Checkpoint(log), accepted)
  }

  lemma {:induction false} LogExactlyOnce(log: seq<Commit>, accepted: seq<Entry>)
    requires LogOk(log, accepted) && Numbered(accepted, 1)
    ensures AppliedExactlyOnce(log, accepted)
    decreases |log|
  {
    if log != [] {
      var init, c := log[..|log| - 1], log[|log| - 1];
      assert log == init + [c];
      assert LogOk(init, accepted) && Checkpoint(init) < c.checkpoint <= |accepted|;
      assert c.applied == [] ==> c.checkpoint == Checkpoint(init) + 1;
      assert c.applied != [] ==> c.applied == accepted[Checkpoint(init)..c.checkpoint];
      hide LogOk, Checkpoint, Applied, Rejected, Exact;
      LogExactlyOnce(init, accepted);
      RejectedBound(init, accepted);
      LogSnoc(init, c);
      if c.applied == [] {
        SkipOne(Applied(init), Rejected(init), Checkpoint(init), accepted);
        assert Applied(init) + [] == Applied(init);
      } else {
        ApplyStretch(Applied(init), Rejected(init), Checkpoint(init), accepted, c.checkpoint);
        assert Rejected(init) + {} == Rejected(init);
      }
    }
  }

  lemma {:induction false} ApplyStretch(applied: seq<Entry>, rejected: set<nat>, before: nat, accepted: seq<Entry>,
      cp: nat)
    requires Exact(applied, rejected, before, accepted) && Numbered(accepted, 1)
    requires before < cp <= |accepted|
    requires forall q :: q in rejected ==> q <= before
    ensures Exact(applied + accepted[before..cp], rejected, cp, accepted)
  {
    var tail := accepted[before..cp];
    var now := applied + tail;
    assert forall i :: 0 <= i < |tail| ==> tail[i] == accepted[before + i] && tail[i].num == before + i + 1;
    assert Increasing(now) by {
      hide Numbered;
      assert forall i :: 0 <= i < |applied| ==> applied[i] in applied && applied[i].num <= before;
    }
    forall q | 1 <= q <= cp ensures accepted[q - 1] in now <==> q !in rejected {
      StretchHolds(applied, rejected, before, accepted, cp, q);
    }
  }

  lemma {:induction false} StretchHolds(applied: seq<Entry>, rejected: set<nat>, before: nat, accepted: seq<Entry>,
      cp: nat, q: nat)
    requires Exact(applied, rejected, before, accepted) && Numbered(accepted, 1)
    requires before < cp <= |accepted| && 1 <= q <= cp
    requires forall r :: r in rejected ==> r <= before
    ensures accepted[q - 1] in applied + accepted[before..cp] <==> q !in rejected
  {
    if q > before {
      assert accepted[before..cp][q - 1 - before] == accepted[q - 1];
    } else {
      assert accepted[q - 1] !in accepted[before..cp];
    }
  }

  lemma {:induction false} SkipOne(applied: seq<Entry>, rejected: set<nat>, before: nat, accepted: seq<Entry>)
    requires Exact(applied, rejected, before, accepted) && Numbered(accepted, 1)
    requires before < |accepted|
    ensures Exact(applied, rejected + {before + 1}, before + 1, accepted)
  {
    assert accepted[before] !in applied;
  }

  /** In every state of every run, whatever the faults. */
  lemma {:induction false} ExactlyOnce(ops: seq<Op>)
    requires Legal(FRESH, ops)
    ensures AppliedExactlyOnce(Final(FRESH, ops).log, Final(FRESH, ops).accepted)
  {
    hide AppliedExactlyOnce, Final, Legal, Checkpoint, Holds, LogOk;
    FreshInv();
    RunInv(FRESH, ops);
    var t := Final(FRESH, ops);
    LogExactlyOnce(t.log, t.accepted);
  }

  // ---------------------------------------------------------------------
  // Published writes survive
  // ---------------------------------------------------------------------

  /** One operation never takes back what a drain has published, and never
      refuses it afterwards. */
  lemma {:induction false} StepKeepsPromises(s: Shard, op: Op)
    requires Inv(s) && Enabled(s, op) && Tidy(s, op) && Sound(s, op)
    ensures var t := Apply(s, op);
      && s.promised <= t.promised
      && (s.accepted <= t.accepted || t.accepted <= s.accepted)
      && s.promised <= |s.accepted| && s.promised <= |t.accepted|
      && (forall q :: q in Rejected(t.log) ==> q in Rejected(s.log) || q > s.promised)
  {
    hide Inv, Apply, Tidy, Sound, Rejected;
    PromisedAccepted(s);
    match op
    case CommitBatch(_) => CommitKeepsPromises(s, op);
    case RetryOne(_) => CommitKeepsPromises(s, op);
    case ProcessCrash(_, _) => CrashKeepsPromises(s, op);
    case PowerLoss(_, _, _) => CrashKeepsPromises(s, op);
    case Restart(verdict) => RestartKeepsPromises(s, verdict);
    case _ => LocalKeepsPromises(s, op);
  }

  lemma {:induction false} LocalKeepsPromises(s: Shard, op: Op)
    requires Enabled(s, op) && !op.CommitBatch? && !op.RetryOne? && !op.ProcessCrash? && !op.PowerLoss? && !op.Restart?
    ensures var t := Apply(s, op);
      t.log == s.log && s.accepted <= t.accepted && s.promised <= t.promised
  {
    hide Halted, Read, Above, HighestSeq;
  }

  lemma {:induction false} CrashKeepsPromises(s: Shard, op: Op)
    requires Inv(s) && Enabled(s, op) && (op.ProcessCrash? || op.PowerLoss?)
    ensures var t := Apply(s, op);
      && t.promised == s.promised && t.accepted <= s.accepted && s.promised <= |t.accepted|
      && Rejected(t.log) <= Rejected(s.log)
  {
    hide Inv, Read, Rejected, Checkpoint;
    CrashInv(s, op);
    if op.PowerLoss? {
      RejectedPrefix(s.log, op.commits);
    }
  }

  lemma {:induction false} CommitKeepsPromises(s: Shard, op: Op)
    requires Inv(s) && Enabled(s, op) && Sound(s, op) && (op.CommitBatch? || op.RetryOne?)
    ensures var t := Apply(s, op);
      && t.promised == s.promised && t.accepted == s.accepted
      && (forall q :: q in Rejected(t.log) ==> q in Rejected(s.log) || q > s.promised)
  {
    hide Read, Render, Holds, LogOk, Rejected, Checkpoint;
    match op
    case CommitBatch(_) =>
      LogSnoc(s.log, Commit(s.drain.batch, LastSeq(s.drain.batch)));
    case RetryOne(attempt) =>
      if attempt != StoreDown {
        NextUnresolved(s);
        var e := s.drain.batch[s.drain.position];
        LogSnoc(s.log, Commit([e], e.num));
        LogSnoc(s.log, Commit([], e.num));
      }
  }

  lemma {:induction false} RestartKeepsPromises(s: Shard, verdict: Verdict)
    requires Inv(s) && s.mode == Down
    ensures var t := Apply(s, Restart(verdict));
      && t.promised == s.promised && t.accepted == s.accepted
      && (forall q :: q in Rejected(t.log) ==> q in Rejected(s.log))
  {
    hide Read, Render, Holds, LogOk, Rejected, Checkpoint, Above, HighestSeq;
    Pending(s);
    LogSnoc(s.log, Commit(s.accepted[Checkpoint(s.log)..], |s.accepted|));
  }

  lemma {:induction false} RejectedPrefix(log: seq<Commit>, m: nat)
    requires m <= |log|
    ensures Rejected(log[..m]) <= Rejected(log)
    decreases |log|
  {
    if m == |log| {
      assert log[..m] == log;
    } else {
      RejectedPrefix(log[..|log| - 1], m);
      assert log[..|log| - 1][..m] == log[..m];
    }
  }

  /** Whatever happens after a drain has published a number, the entry it named
      then is the entry it names ever after, and it is never refused later. */
  lemma {:induction false} RunKeepsPromises(s: Shard, ops: seq<Op>)
    requires Inv(s) && Legal(s, ops)
    ensures var t := Final(s, ops);
      && s.promised <= t.promised
      && s.promised <= |s.accepted| && s.promised <= |t.accepted|
      && s.accepted[..s.promised] == t.accepted[..s.promised]
      && (forall q :: q in Rejected(t.log) && q <= s.promised ==> q in Rejected(s.log))
    decreases |ops|
  {
    hide Inv, Apply, Enabled, Tidy, Sound, Rejected;
    if ops == [] {
      PromisedAccepted(s);
    } else {
      var m := Apply(s, ops[0]);
      StepInv(s, ops[0]);
      StepKeepsPromises(s, ops[0]);
      RunKeepsPromises(m, ops[1..]);
      var t := Final(s, ops);
      assert t == Final(m, ops[1..]);
      assert m.accepted[..s.promised] == m.accepted[..m.promised][..s.promised];
      assert t.accepted[..s.promised] == t.accepted[..m.promised][..s.promised];
    }
  }

  lemma {:induction false} PromisedAccepted(s: Shard)
    requires Inv(s)
    ensures s.promised <= |s.accepted|
  {
    hide Read, Render, Holds, LogOk, Checkpoint;
    FileGrows(s, s.synced);
  }

  /** A write a drain has published and not refused is in the database in every
      later state in which the shard is up, after any number of process crashes,
      power losses and replays, and it is there once. */
  lemma {:induction false} PublishedSurvives(s: Shard, ops: seq<Op>, q: nat)
    requires Inv(s) && Legal(s, ops)
    requires 1 <= q <= s.promised && q !in Rejected(s.log)
    ensures q <= |s.accepted|
    ensures var t := Final(s, ops);
      t.mode != Down ==>
        && s.accepted[q - 1] in Applied(t.log)
        && Increasing(Applied(t.log))
  {
    var t := Final(s, ops);
    RunInv(s, ops);
    RunKeepsPromises(s, ops);
    hide Legal, Final, Checkpoint, Holds, LogOk, Rejected, Applied;
    LogExactlyOnce(t.log, t.accepted);
    assert s.accepted[..s.promised][q - 1] == t.accepted[..s.promised][q - 1];
  }

  /** Without a power loss a refusal is final: the entry is never applied. */
  lemma {:induction false} RefusalIsFinal(s: Shard, ops: seq<Op>, q: nat)
    requires Inv(s) && Legal(s, ops) && q in Rejected(s.log)
    requires forall op :: op in ops ==> !op.PowerLoss?
    ensures s.log <= Final(s, ops).log
    ensures forall e :: e in Applied(Final(s, ops).log) ==> e.num != q
    decreases |ops|
  {
    if ops == [] {
      RefusedNotApplied(s, q);
    } else {
      hide Inv, Enabled, Tidy, Sound, Applied, Apply, Rejected;
      var m := Apply(s, ops[0]);
      StepInv(s, ops[0]);
      LogGrows(s, ops[0]);
      assert m.log[..|s.log|] == s.log;
      RejectedPrefix(m.log, |s.log|);
      RefusalIsFinal(m, ops[1..], q);
    }
  }

  lemma {:induction false} RefusedNotApplied(s: Shard, q: nat)
    requires Inv(s) && q in Rejected(s.log)
    ensures forall e :: e in Applied(s.log) ==> e.num != q
  {
    hide Checkpoint, Holds, Rejected, Applied, LogOk, Read;
    LogExactlyOnce(s.log, s.accepted);
    RejectedBound(s.log, s.accepted);
  }

  lemma {:induction false} LogGrows(s: Shard, op: Op)
    requires Enabled(s, op) && !op.PowerLoss?
    ensures s.log <= Apply(s, op).log
  {
    hide Halted, Read, Checkpoint, Above, HighestSeq, Cut, LastSeq;
    if op.ProcessCrash? {
      HaltedLog(s, op.kept, op.torn);
    }
  }

  lemma {:induction false} HaltedLog(s: Shard, kept: nat, torn: bool)
    requires Enabled(s, ProcessCrash(kept, torn))
    ensures Apply(s, ProcessCrash(kept, torn)).log == s.log
  {
    hide Read, Checkpoint, Cut;
  }

  // ---------------------------------------------------------------------
  // Tickets
  // ---------------------------------------------------------------------

  datatype Outcome = Waiting | Durable | Failed

  /** What a waiter on ticket `q` sees. */
  function Wait(s: Shard, q: nat): Outcome {
    if s.durable < q then Waiting else if q in s.failures then Failed else Durable
  }

  /** A ticket of this process is reported durable exactly when its request is
      in the database and published, and failed exactly when it was refused. */
  lemma {:induction false} TicketOutcome(s: Shard, q: nat)
    requires Inv(s) && s.mode == Serving && s.bootSeq < q <= s.nextSeq
    ensures Wait(s, q) == Durable <==> q <= s.durable && s.accepted[q - 1] in Applied(s.log)
    ensures Wait(s, q) == Failed <==> q <= s.durable && q in Rejected(s.log)
    ensures Wait(s, q) == Durable ==> PowerSafe(s, q)
  {
    hide Checkpoint, Holds, LogOk, Rejected, Applied, Read;
    LogExactlyOnce(s.log, s.accepted);
  }

  /** A power loss cannot reach the number: the synced journal or the
      checkpointed part of the database has it. */
  ghost predicate PowerSafe(s: Shard, q: nat)
    requires s.synced <= |s.file| && s.walBase <= |s.log|
  {
    q <= BaseCheckpoint(s) || q <= Secured(s)
  }

  lemma {:induction false} WatermarkRises(s: Shard, op: Op)
    requires Enabled(s, op) && s.mode != Down && !op.ProcessCrash? && !op.PowerLoss?
    ensures s.durable <= Apply(s, op).durable && Apply(s, op).mode != Down
  {
    hide Halted, Read, Above, HighestSeq;
  }

  /** What is in flight and what is queued are, in order, the last accepted requests;
      the database has resolved all before them, and, unless an error was reported
      late, none of them; between drains they are everything above the watermark. */
  lemma {:induction false} QueueCoversGap(s: Shard)
    requires Inv(s) && s.mode == Serving
    ensures s.nextSeq == |s.accepted| && 0 <= s.durable <= Believed(s) <= Checkpoint(s.log)
    ensures InFlight(s.drain) + s.queue == s.accepted[Believed(s)..]
    ensures Believed(s) == Checkpoint(s.log) <==> !s.tainted
    ensures !s.tainted && s.drain == Idle ==> s.queue == s.accepted[s.durable..]
    ensures s.durable == s.nextSeq ==> s.queue == [] && InFlight(s.drain) == [] && !s.tainted
  {
    hide Read, Render, Holds, LogOk, Checkpoint, Applied;
    var cp := Checkpoint(s.log);
    if !s.tainted {
      assert InFlight(s.drain) + s.queue == s.accepted[cp..];
      assert |s.accepted[cp..]| == |s.accepted| - cp;
    }
  }

  // ---------------------------------------------------------------------
  // Where the guarantee ends
  // ---------------------------------------------------------------------

  /** The watermark a restart publishes is safe against every power loss exactly
      when the journal has been synced that far or a complete WAL checkpoint has
      covered it: replay itself syncs nothing. */
  lemma {:induction false} WatermarkPowerSafe(s: Shard)
    requires Inv(s) && s.mode != Down
    ensures (forall kept: nat, torn: bool, commits: nat | Enabled(s, PowerLoss(kept, torn, commits)) ::
               s.durable <= |Apply(s, PowerLoss(kept, torn, commits)).accepted|)
        <==> s.durable <= BaseCheckpoint(s) || s.durable <= Secured(s)
  {
    hide Read, Render, Holds, LogOk, Checkpoint;
    if s.durable <= BaseCheckpoint(s) || s.durable <= Secured(s) {
      forall kept: nat, torn: bool, commits: nat | Enabled(s, PowerLoss(kept, torn, commits))
        ensures s.durable <= |Apply(s, PowerLoss(kept, torn, commits)).accepted|
      {
        PowerLossKeeps(s, kept, torn, commits);
      }
    } else {
      assert Enabled(s, PowerLoss(s.synced, false, s.walBase));
      assert Cut(s.file, s.synced, false) == s.file[..s.synced];
    }
  }

  lemma {:induction false} PowerLossKeeps(s: Shard, kept: nat, torn: bool, commits: nat)
    requires Inv(s) && Enabled(s, PowerLoss(kept, torn, commits))
    ensures var n := |Apply(s, PowerLoss(kept, torn, commits)).accepted|;
      BaseCheckpoint(s) <= n && Secured(s) <= n
  {
    hide Read, Render, Holds, LogOk, Checkpoint;
    var file := Cut(s.file, kept, torn);
    assert file == Cut(s.Written(), kept, torn);
    assert file[..|file|] == file;
    LogCut(s, commits, commits);
    FileCut(s, kept, torn);
    HaltedStorage(s, file, |file|, s.log[..commits], commits);
  }

  lemma {:induction false} LegalCons(s: Shard, op: Op, rest: seq<Op>)
    requires Enabled(s, op) && Tidy(s, op) && Sound(s, op) && Legal(Apply(s, op), rest)
    ensures Legal(s, [op] + rest) && Final(s, [op] + rest) == Final(Apply(s, op), rest)
  {
    assert ([op] + rest)[1..] == rest;
    hide Enabled, Tidy, Sound, Apply;
  }

  lemma {:induction false} EmptyRun(s: Shard)
    ensures Legal(s, []) && Final(s, []) == s
  {
  }

  /** A run can be continued by one more operation. */
  lemma {:induction false} OrderlySnoc(s: Shard, ops: seq<Op>, op: Op)
    requires Orderly(s, ops) && Enabled(Final(s, ops), op) && Tidy(Final(s, ops), op)
    ensures Orderly(s, ops + [op]) && Final(s, ops + [op]) == Apply(Final(s, ops), op)
    decreases |ops|
  {
    hide Enabled, Tidy, Apply;
    if ops == [] {
      assert [] + [op] == [op] && [op][1..] == [];
      EmptyRun(Apply(s, op));
    } else {
      OrderlySnoc(Apply(s, ops[0]), ops[1..], op);
      assert (ops + [op])[0] == ops[0] && (ops + [op])[1..] == ops[1..] + [op];
    }
  }

  lemma {:induction false} FragmentReads()
    ensures Read([Fragment]) == [] && !AtLineStart([Fragment]) && Read([]) == [] && AtLineStart([])
  {
    var e := Entry(0, Request("", 0, [], [], ""));
    UnfinishedTail([], e);
    assert [] + [Fragment] == [Fragment];
    EmptyJournal();
  }

  lemma {:induction false} FreshBoot()
    ensures Enabled(FRESH, Restart(Committed)) && Apply(FRESH, Restart(Committed)) == FRESH.(mode := Booting)
    ensures var a := FRESH.(mode := Booting);
      Enabled(a, FinishBoot) && Apply(a, FinishBoot) == FRESH.(mode := Serving)
    ensures AtLineStart([])
  {
    FragmentReads();
  }

  // The states of one short run.
  function FirstFile(req: Request): seq<Token> { [Body(Entry(1, req)), Newline] }

  function FirstTaken(req: Request): Shard {
    FRESH.(mode := Serving, nextSeq := 1, queue := [Entry(1, req)], file := FirstFile(req), accepted := [Entry(1, req)])
  }

  function FirstLeft(req: Request): Shard { FRESH.(file := FirstFile(req), accepted := [Entry(1, req)]) }

  function FirstReplayed(req: Request): Shard {
    FirstLeft(req).(mode := Booting, nextSeq := 1, durable := 1, bootSeq := 1, log := [Commit([Entry(1, req)], 1)])
  }

  lemma {:induction false} NothingScanned()
    ensures Above([], 0) == [] && HighestSeq([], 0) == 0 && Checkpoint([]) == 0 && Applied([]) == []
  {
  }

  lemma {:induction false} FirstRead(req: Request)
    ensures Read(FirstFile(req)) == [Entry(1, req)]
    ensures Above([Entry(1, req)], 0) == [Entry(1, req)] && HighestSeq([Entry(1, req)], 0) == 1
  {
    hide Read, AtLineStart, Above, HighestSeq;
    var e := Entry(1, req);
    FragmentReads();
    AppendReadable([], e);
    assert [] + [Body(e), Newline] == FirstFile(req) && [] + [e] == [e];
    NothingScanned();
    ScanSnoc([], e, 0);
  }

  lemma {:induction false} FirstSubmit(req: Request)
    ensures var b := FRESH.(mode := Serving);
      Enabled(b, Submit(req, 2)) && Tidy(b, Submit(req, 2)) && Apply(b, Submit(req, 2)) == FirstTaken(req)
  {
    hide AtLineStart, Halted, Read, Above, HighestSeq, Checkpoint;
    FragmentReads();
    var b, e, file := FRESH.(mode := Serving), Entry(1, req), FirstFile(req);
    assert b.Written() == [] && b.queue + [e] == [e] && b.accepted + [e] == [e];
    assert b.buffered + [Body(e), Newline] == file && file[..2] == file && file[2..] == [] && b.file + file == file;
  }

  lemma {:induction false} FirstCrash(req: Request)
    ensures var c := FirstTaken(req);
      Enabled(c, ProcessCrash(2, false)) && Apply(c, ProcessCrash(2, false)) == FirstLeft(req)
  {
    hide Read, Checkpoint, Above, HighestSeq;
    FirstRead(req);
    NothingScanned();
    var c, file := FirstTaken(req), FirstFile(req);
    assert c.Written() == file && Cut(file, 2, false) == file;
    assert c.reclaimed + |Read(file)| - |c.stale| == 1 && c.accepted[..1] == c.accepted;
    assert Apply(c, ProcessCrash(2, false)) == Halted(c, file, 0, [], 0);
  }

  lemma {:induction false} FirstReplay(req: Request)
    ensures var d := FirstLeft(req);
      Enabled(d, Restart(Committed)) && Apply(d, Restart(Committed)) == FirstReplayed(req)
    ensures Applied(FirstReplayed(req).log) == [Entry(1, req)]
  {
    hide Read, Checkpoint, Above, HighestSeq, Halted, Applied;
    FirstRead(req);
    NothingScanned();
    LogSnoc([], Commit([Entry(1, req)], 1));
    assert [] + [Commit([Entry(1, req)], 1)] == [Commit([Entry(1, req)], 1)];
  }

  lemma {:induction false} FirstLost(req: Request)
    ensures var t := FirstReplayed(req);
      && t.mode == Booting && t.durable == 1
      && Enabled(t, PowerLoss(0, false, 0)) && Apply(t, PowerLoss(0, false, 0)).accepted == []
  {
    hide Read, Checkpoint, AtLineStart;
    FragmentReads();
    NothingScanned();
    assert Cut(FirstFile(req), 0, false) == [];
    var t := FirstReplayed(req);
    assert t.log[..0] == [] && Cut(t.file, 0, false) == [];
    assert t.reclaimed + |Read([])| - |t.stale| == 0 == Checkpoint([]);
    assert Halted(t, [], 0, [], 0).accepted == t.accepted[..0] == [];
    assert Apply(t, PowerLoss(0, false, 0)) == Halted(t, [], 0, [], 0);
  }

  /** The unsafe case is reached: a submission that the system has but no disk, a
      crash of the process, a restart that replays and publishes it, a power loss. */
  lemma {:induction false} UnsyncedReplay(req: Request)
    ensures var ops := [Restart(Committed)] + ([FinishBoot] + ([Submit(req, 2)] + ([ProcessCrash(2, false)] +
                       [Restart(Committed)])));
      && Legal(FRESH, ops)
      && var t := Final(FRESH, ops);
         && t.mode == Booting && t.durable == 1 && Applied(t.log) == [Entry(1, req)]
         && Enabled(t, PowerLoss(0, false, 0)) && Apply(t, PowerLoss(0, false, 0)).accepted == []
  {
    hide Legal, Final, Apply, Enabled, Applied, AtLineStart, FirstTaken, FirstLeft, FirstReplayed, FirstFile, FRESH;
    var a := FRESH.(mode := Booting);
    FreshBoot();
    FirstSubmit(req);
    FirstCrash(req);
    FirstReplay(req);
    FirstLost(req);
    EmptyRun(FirstReplayed(req));
    LegalCons(FirstLeft(req), Restart(Committed), []);
    assert [Restart(Committed)] + [] == [Restart(Committed)];
    LegalCons(FirstTaken(req), ProcessCrash(2, false), [Restart(Committed)]);
    LegalCons(FRESH.(mode := Serving), Submit(req, 2), [ProcessCrash(2, false)] + [Restart(Committed)]);
    LegalCons(a, FinishBoot, [Submit(req, 2)] + ([ProcessCrash(2, false)] + [Restart(Committed)]));
    LegalCons(FRESH, Restart(Committed),
              [FinishBoot] + ([Submit(req, 2)] + ([ProcessCrash(2, false)] + [Restart(Committed)])));
  }
}
