/** Every operation keeps the shard invariant, whatever the interleaving. */
module ShardSafety {
  import opened Prelude
  import opened Requests
  import opened Journal
  import opened ShardMachine

  // ---------------------------------------------------------------------
  // The commit log
  // ---------------------------------------------------------------------

  lemma {:induction false} LogSnoc(log: seq<Commit>, c: Commit)
    ensures Checkpoint(log + [c]) == Max(Checkpoint(log), c.checkpoint)
    ensures Applied(log + [c]) == Applied(log) + c.applied
    ensures Rejected(log + [c]) == Rejected(log) + if c.applied == [] then {c.checkpoint} else {}
  {
    assert (log + [c])[..|log|] == log;
  }

  lemma {:induction false} LogOkSnoc(log: seq<Commit>, accepted: seq<Entry>, c: Commit)
    requires LogOk(log, accepted)
    requires Checkpoint(log) < c.checkpoint <= |accepted|
    requires c.applied == accepted[Checkpoint(log)..c.checkpoint]
          || (c.applied == [] && c.checkpoint == Checkpoint(log) + 1)
    ensures LogOk(log + [c], accepted)
  {
    assert (log + [c])[..|log|] == log;
  }

  /** A prefix of the log is a log, with no later checkpoint. */
  lemma {:induction false} LogPrefix(log: seq<Commit>, accepted: seq<Entry>, m: nat)
    requires LogOk(log, accepted) && m <= |log|
    ensures LogOk(log[..m], accepted)
    ensures Checkpoint(log[..m]) <= Checkpoint(log) <= |accepted|
    decreases |log| - m
  {
    if m == |log| {
      assert log[..m] == log;
      CheckpointBound(log, accepted);
    } else {
      LogPrefix(log, accepted, m + 1);
      assert log[..m + 1][..m] == log[..m];
    }
  }

  lemma {:induction false} CheckpointBound(log: seq<Commit>, accepted: seq<Entry>)
    requires LogOk(log, accepted)
    ensures Checkpoint(log) <= |accepted|
  {
  }

  /** Only the entries up to the checkpoint matter to the log. */
  lemma {:induction false} LogFrame(log: seq<Commit>, a: seq<Entry>, b: seq<Entry>)
    requires LogOk(log, a)
    requires Checkpoint(log) <= |a| && Checkpoint(log) <= |b|
    requires a[..Checkpoint(log)] == b[..Checkpoint(log)]
    ensures LogOk(log, b)
  {
    if log != [] {
      var cp := Checkpoint(log);
      var before, c := Checkpoint(log[..|log| - 1]), log[|log| - 1];
      assert a[..before] == a[..cp][..before];
      assert b[..before] == b[..cp][..before];
      LogFrame(log[..|log| - 1], a, b);
      assert a[before..c.checkpoint] == a[..cp][before..];
      assert b[before..c.checkpoint] == b[..cp][before..];
    }
  }

  // ---------------------------------------------------------------------
  // The journal under faults
  // ---------------------------------------------------------------------

  /** A longer prefix of the journal never reads fewer entries, and cutting
      keeps a prefix of them. */
  lemma {:induction false} PrefixReads(ts: seq<Token>, entries: seq<Entry>, n: nat, kept: nat, torn: bool)
    requires Holds(ts, entries) && n <= kept && CutAllowed(ts, kept, torn)
    ensures |Read(ts[..n])| <= |Read(Cut(ts, kept, torn))| <= |entries|
    ensures Read(Cut(ts, kept, torn)) == entries[..|Read(Cut(ts, kept, torn))|]
    ensures Holds(Cut(ts, kept, torn), Read(Cut(ts, kept, torn)))
  {
    hide Read, Render, Holds;
    CutHolds(ts, entries, n, false);
    assert Cut(ts, n, false) == ts[..n];
    CutHolds(ts, entries, kept, torn);
    assert n <= kept ==> Whole(n) <= Whole(kept);
  }

  /** The synced part of the journal is never longer than the rest. */
  lemma {:induction false} SecuredFlushed(s: Shard)
    requires StorageInv(s)
    ensures Secured(s) <= Flushed(s) <= |s.accepted|
    ensures Read(s.file) == OnFile(s)[..|Read(s.file)|]
  {
    assert s.Written()[..|s.file|] == s.file;
    assert s.Written()[..s.synced] == s.file[..s.synced];
    assert Cut(s.Written(), |s.file|, false) == s.file;
    PrefixReads(s.Written(), OnFile(s), s.synced, |s.file|, false);
  }

  /** What a power loss leaves of the commit log. */
  lemma {:induction false} LogCut(s: Shard, m: nat, w: nat)
    requires StorageInv(s) && s.walBase <= w <= m <= |s.log|
    ensures LogOk(s.log[..m], s.accepted)
    ensures BaseCheckpoint(s) <= Checkpoint(s.log[..m][..w]) <= Checkpoint(s.log[..m]) <= Checkpoint(s.log)
  {
    LogPrefix(s.log, s.accepted, m);
    LogPrefix(s.log[..m], s.accepted, w);
    assert s.log[..m][..w][..s.walBase] == s.log[..s.walBase];
    LogPrefix(s.log[..m][..w], s.accepted, s.walBase);
  }

  /** What a fault leaves of the journal. */
  lemma {:induction false} FileCut(s: Shard, kept: nat, torn: bool)
    requires StorageInv(s) && s.synced <= kept && CutAllowed(s.Written(), kept, torn)
    ensures var file := Cut(s.Written(), kept, torn);
      && |Read(s.file[..s.synced])| <= |Read(file)| <= |OnFile(s)|
      && Read(file) == OnFile(s)[..|Read(file)|]
      && Holds(file, Read(file))
      && file[..s.synced] == s.file[..s.synced]
      && (|s.file| <= kept ==> |Read(s.file)| <= |Read(file)|)
  {
    hide Read, Render, Holds, Checkpoint, LogOk, Min, Whole, Numbered, OnFile, BaseCheckpoint, Flushed, Secured;
    var file := Cut(s.Written(), kept, torn);
    assert s.Written()[..s.synced] == s.file[..s.synced] == file[..s.synced];
    PrefixReads(s.Written(), OnFile(s), s.synced, kept, torn);
    if |s.file| <= kept {
      assert s.Written()[..|s.file|] == s.file;
      PrefixReads(s.Written(), OnFile(s), |s.file|, kept, torn);
    }
  }

  /** A stopped shard with the given storage. */
  function Stopped(file: seq<Token>, synced: nat, log: seq<Commit>, w: nat,
                   accepted: seq<Entry>, reclaimed: nat, stale: seq<Entry>, promised: nat): Shard {
    Shard(Down, [], 0, [], 0, {}, Idle, Resting, false, 0, file, synced, log, w, accepted, reclaimed, stale, promised)
  }

  lemma {:induction false} StoppedInv(h: Shard, was: seq<Entry>)
    requires h == Stopped(h.file, h.synced, h.log, h.walBase, h.accepted, h.reclaimed, h.stale, h.promised)
    requires h.synced <= |h.file| && h.walBase <= |h.log|
    requires Numbered(was, 1) && h.accepted <= was && LogOk(h.log, was)
    requires h.reclaimed <= BaseCheckpoint(h) <= Checkpoint(h.log) <= |h.accepted|
    requires forall e :: e in h.stale ==> e.num <= h.reclaimed
    requires |h.stale| <= |Read(h.file[..h.synced])|
    requires Holds(h.file, Read(h.file)) && Read(h.file) == OnFile(h)
    requires h.promised <= BaseCheckpoint(h) || h.promised <= Secured(h)
    requires Checkpoint(h.log) <= Flushed(h)
    ensures Inv(h)
  {
    hide Read, Render, Holds, Checkpoint, LogOk;
    LogFrame(h.log, was, h.accepted);
    assert h.Written() == h.file;
  }

  /** The database is ahead of the journal: the whole journal is superseded. */
  lemma {:induction false} HaltedBehind(s: Shard, file: seq<Token>, log: seq<Commit>)
    requires StorageInv(s)
    requires LogOk(log, s.accepted)
    requires BaseCheckpoint(s) <= Checkpoint(log) <= Checkpoint(s.log)
    requires |Read(s.file[..s.synced])| <= |Read(file)| <= |OnFile(s)|
    requires Read(file) == OnFile(s)[..|Read(file)|] && Holds(file, Read(file))
    requires Checkpoint(log) > s.reclaimed + |Read(file)| - |s.stale|
    ensures var cp := Checkpoint(log);
      Inv(Stopped(file, |file|, log, |log|, s.accepted[..cp], cp, Read(file), s.promised))
  {
    hide Read, Render, Holds, Checkpoint, LogOk;
    var cp := Checkpoint(log);
    var h := Stopped(file, |file|, log, |log|, s.accepted[..cp], cp, Read(file), s.promised);
    assert log[..|log|] == log;
    assert file[..|file|] == file;
    assert OnFile(h) == Read(file);
    forall e | e in h.stale ensures e.num <= h.reclaimed {
      var i :| 0 <= i < |Read(file)| && OnFile(s)[i] == e;
      assert i >= |s.stale| ==> e == s.accepted[s.reclaimed + i - |s.stale|];
    }
    StoppedInv(h, s.accepted);
  }

  /** The journal reaches at least as far as the database. */
  lemma {:induction false} HaltedAhead(s: Shard, file: seq<Token>, synced: nat, log: seq<Commit>, w: nat)
    requires StorageInv(s)
    requires synced <= |file| && w <= |log|
    requires LogOk(log, s.accepted)
    requires BaseCheckpoint(s) <= Checkpoint(log[..w]) <= Checkpoint(log) <= Checkpoint(s.log)
    requires |Read(s.file[..s.synced])| <= |Read(file[..synced])| <= |Read(file)| <= |OnFile(s)|
    requires Read(file) == OnFile(s)[..|Read(file)|] && Holds(file, Read(file))
    requires Checkpoint(log) <= s.reclaimed + |Read(file)| - |s.stale|
    ensures s.reclaimed + |Read(file)| - |s.stale| <= |s.accepted|
    ensures Inv(Stopped(file, synced, log, w,
                        s.accepted[..s.reclaimed + |Read(file)| - |s.stale|], s.reclaimed, s.stale, s.promised))
  {
    hide Read, Render, Holds, Checkpoint, LogOk;
    var inFile := s.reclaimed + |Read(file)| - |s.stale|;
    var h := Stopped(file, synced, log, w, s.accepted[..inFile], s.reclaimed, s.stale, s.promised);
    assert OnFile(h) == OnFile(s)[..|Read(file)|];
    StoppedInv(h, s.accepted);
  }

  /** The process that comes next starts from a storage that keeps the invariant. */
  lemma {:induction false} HaltedStorage(s: Shard, file: seq<Token>, synced: nat, log: seq<Commit>, w: nat)
    requires StorageInv(s)
    requires synced <= |file| && w <= |log|
    requires LogOk(log, s.accepted)
    requires BaseCheckpoint(s) <= Checkpoint(log[..w]) <= Checkpoint(log) <= Checkpoint(s.log)
    requires |Read(s.file[..s.synced])| <= |Read(file[..synced])| <= |Read(file)| <= |OnFile(s)|
    requires Read(file) == OnFile(s)[..|Read(file)|] && Holds(file, Read(file))
    requires Checkpoint(log) <= s.reclaimed + |Read(file)| - |s.stale| || (w == |log| && synced == |file|)
    ensures var h := Halted(s, file, synced, log, w);
      && Inv(h) && h.accepted <= s.accepted && s.promised <= |h.accepted|
      && |h.accepted| == Max(Checkpoint(log), s.reclaimed + |Read(file)| - |s.stale|)
  {
    hide Read, Render, Holds, Checkpoint, LogOk;
    assert log[..|log|] == log;
    assert file[..|file|] == file;
    if Checkpoint(log) > s.reclaimed + |Read(file)| - |s.stale| {
      HaltedBehind(s, file, log);
    } else {
      HaltedAhead(s, file, synced, log, w);
    }
  }

  lemma {:induction false} CrashInv(s: Shard, op: Op)
    requires Inv(s) && Enabled(s, op) && (op.ProcessCrash? || op.PowerLoss?)
    ensures Inv(Apply(s, op))
    ensures Apply(s, op).accepted <= s.accepted
    ensures s.promised <= |Apply(s, op).accepted|
  {
    hide Read, Render, Holds, Checkpoint, LogOk;
    match op
    case ProcessCrash(kept, torn) =>
      LogCut(s, |s.log|, s.walBase);
      assert s.log[..|s.log|] == s.log;
      FileCut(s, kept, torn);
      HaltedStorage(s, Cut(s.Written(), kept, torn), s.synced, s.log, s.walBase);
    case PowerLoss(kept, torn, commits) =>
      var file := Cut(s.file, kept, torn);
      assert file == Cut(s.Written(), kept, torn);
      assert file[..|file|] == file;
      LogCut(s, commits, commits);
      FileCut(s, kept, torn);
      HaltedStorage(s, file, |file|, s.log[..commits], commits);
  }

  // ---------------------------------------------------------------------
  // The other operations
  // ---------------------------------------------------------------------

  lemma {:induction false} RejectedBound(log: seq<Commit>, accepted: seq<Entry>)
    requires LogOk(log, accepted)
    ensures forall q :: q in Rejected(log) ==> 0 < q <= Checkpoint(log)
  {
    if log != [] {
      RejectedBound(log[..|log| - 1], accepted);
    }
  }

  /** Growing the file cannot make the reader find less. */
  lemma {:induction false} FileGrows(t: Shard, n: nat)
    requires t.reclaimed <= |t.accepted| && Holds(t.Written(), OnFile(t)) && n <= |t.file|
    ensures |Read(t.file[..n])| <= |Read(t.file)| <= |OnFile(t)|
  {
    hide Read, Render, Holds;
    assert t.Written()[..n] == t.file[..n];
    assert Cut(t.Written(), |t.file|, false) == t.file;
    PrefixReads(t.Written(), OnFile(t), n, |t.file|, false);
  }

  /** Appending at a line boundary keeps the journal whole. */
  lemma {:induction false} SubmitHolds(ts: seq<Token>, entries: seq<Entry>, e: Entry)
    requires Holds(ts, entries) && AtLineStart(ts)
    ensures Holds(ts + [Body(e), Newline], entries + [e])
  {
    HoldsReads(ts, entries);
    assert (entries + [e])[..|entries|] == entries;
  }

  lemma {:induction false} SubmitStorage(s: Shard, req: Request, spill: nat)
    requires Inv(s) && Enabled(s, Submit(req, spill)) && Tidy(s, Submit(req, spill))
    ensures StorageInv(Apply(s, Submit(req, spill)))
    ensures Secured(Apply(s, Submit(req, spill))) == Secured(s)
    ensures Flushed(s) <= Flushed(Apply(s, Submit(req, spill)))
  {
    hide Read, Render, Holds, Checkpoint, LogOk, AtLineStart;
    var t := Apply(s, Submit(req, spill));
    var e := Entry(s.nextSeq + 1, req);
    assert OnFile(t) == OnFile(s) + [e];
    assert t.Written() == s.Written() + [Body(e), Newline];
    SubmitHolds(s.Written(), OnFile(s), e);
    assert t.file[..|s.file|] == s.file;
    FileGrows(t, |s.file|);
    assert t.file[..t.synced] == s.file[..s.synced];
    LogFrame(s.log, s.accepted, t.accepted);
  }

  lemma {:induction false} SubmitInv(s: Shard, req: Request, spill: nat)
    requires Inv(s) && Enabled(s, Submit(req, spill)) && Tidy(s, Submit(req, spill))
    ensures Inv(Apply(s, Submit(req, spill)))
  {
    hide Read, Render, Holds, Checkpoint, LogOk, AtLineStart, Rejected;
    SubmitStorage(s, req, spill);
    var t := Apply(s, Submit(req, spill));
    var e := Entry(s.nextSeq + 1, req);
    var cp := Checkpoint(s.log);
    assert t.accepted[cp..] == s.accepted[cp..] + [e];
    assert InFlight(t.drain) + t.queue == InFlight(s.drain) + s.queue + [e];
    if s.tainted {
      assert t.accepted[Believed(s)..] == s.accepted[Believed(s)..] + [e];
      return;
    }
    match s.drain
    case Idle =>
    case Taken(batch) => assert batch + t.queue == (batch + s.queue) + [e];
    case Synced(batch) => assert batch + t.queue == (batch + s.queue) + [e];
    case Retrying(batch, position, _) =>
      assert batch[position..] + t.queue == (batch[position..] + s.queue) + [e];
    case Publishing(_) =>
  }

  /** One more commit, covered by the synced journal, that takes the next
      stretch of accepted entries. */
  lemma {:induction false} NextCommit(s: Shard, t: Shard, c: Commit)
    requires Inv(s) && s.mode == Serving
    requires t == s.(log := s.log + [c], drain := t.drain, queue := t.queue, tainted := t.tainted,
                     failures := s.failures + if c.applied == [] then {c.checkpoint} else {})
    requires Checkpoint(s.log) < c.checkpoint <= |s.accepted|
    requires c.checkpoint <= Secured(s)
    requires c.applied == s.accepted[Checkpoint(s.log)..c.checkpoint]
          || (c.applied == [] && c.checkpoint == Checkpoint(s.log) + 1)
    ensures StorageInv(t) && UpkeepInv(t) && FailuresInv(t)
    ensures Checkpoint(t.log) == c.checkpoint <= Secured(t)
    ensures t.bootSeq < Checkpoint(t.log)
    ensures Applied(t.log) == Applied(s.log) + c.applied
  {
    hide Read, Render, Holds, Checkpoint, LogOk, Rejected, Applied;
    LogSnoc(s.log, c);
    LogOkSnoc(s.log, s.accepted, c);
    assert t.log[..s.walBase] == s.log[..s.walBase];
    RejectedBound(s.log, s.accepted);
    FileGrows(s, s.synced);
    assert t.bootSeq <= Checkpoint(s.log);
  }

  lemma {:induction false} BatchInv(s: Shard, verdict: Verdict)
    requires Inv(s) && Enabled(s, CommitBatch(verdict)) && Sound(s, CommitBatch(verdict))
    ensures Inv(Apply(s, CommitBatch(verdict)))
  {
    hide Read, Render, Holds, Checkpoint, LogOk, Rejected, Applied;
    assert s.drain.batch[0..] == s.drain.batch;
    if verdict == RolledBack {
      hide StorageInv, FailuresInv, UpkeepInv;
      var t := Apply(s, CommitBatch(verdict));
      assert StorageInv(t) && (FailuresInv(s) ==> FailuresInv(t)) by {
        SameStorage(s, t);
        SameFailures(s, t);
      }
    } else {
      BatchCommitted(s, verdict);
    }
  }

  lemma {:induction false} BatchCommitted(s: Shard, verdict: Verdict)
    requires Inv(s) && Enabled(s, CommitBatch(verdict)) && !s.tainted && verdict != RolledBack
    ensures Inv(Apply(s, CommitBatch(verdict)))
  {
    hide Read, Render, Holds, Checkpoint, LogOk, Rejected, Applied;
    var cp, batch := Checkpoint(s.log), s.drain.batch;
    var t := Apply(s, CommitBatch(verdict));
    assert batch == (batch + s.queue)[..|batch|] == s.accepted[cp..cp + |batch|];
    assert LastSeq(batch) == s.accepted[cp + |batch| - 1].num == cp + |batch|;
    NextCommit(s, t, Commit(batch, LastSeq(batch)));
    BatchDrain(s, t, verdict);
    hide StorageInv, FailuresInv, UpkeepInv, DrainInv;
  }

  lemma {:induction false} BatchDrain(s: Shard, t: Shard, verdict: Verdict)
    requires StorageInv(s) && CleanInv(s) && s.drain.Synced? && !s.tainted && verdict != RolledBack
    requires Enabled(s, CommitBatch(verdict)) && t == Apply(s, CommitBatch(verdict)) && StorageInv(t)
    requires s.durable <= Checkpoint(s.log) && s.bootSeq <= s.durable && |s.accepted| == s.nextSeq
    requires Checkpoint(t.log) == Checkpoint(s.log) + |s.drain.batch| == LastSeq(s.drain.batch)
    requires Applied(t.log) == Applied(s.log) + s.drain.batch
    ensures DrainInv(t)
  {
    hide Read, Render, Holds, Checkpoint, LogOk, Numbered, Applied, LastSeq;
    var cp, batch := Checkpoint(s.log), s.drain.batch;
    assert batch[0..] == batch;
    assert s.accepted[cp + |batch|..] == (batch + s.queue)[|batch|..] == s.queue;
    assert s.accepted[cp] == (batch + s.queue)[0] == batch[0];
  }

  lemma {:induction false} RetryInv(s: Shard, attempt: Attempt)
    requires Inv(s) && Enabled(s, RetryOne(attempt)) && Sound(s, RetryOne(attempt))
    ensures Inv(Apply(s, RetryOne(attempt)))
  {
    hide Read, Render, Holds, Checkpoint, LogOk, Rejected, Applied;
    var t := Apply(s, RetryOne(attempt));
    if attempt != StoreDown {
      NextUnresolved(s);
      var e := s.drain.batch[s.drain.position];
      NextCommit(s, t, if attempt == Refused then Commit([], e.num) else Commit([e], e.num));
      RetryDrain(s, t, attempt);
      hide StorageInv, FailuresInv, UpkeepInv, DrainInv;
    } else {
      SameStorage(s, t);
      RetryDrain(s, t, attempt);
      assert FailuresInv(s) ==> FailuresInv(t) by {
        SameFailures(s, t);
      }
      hide StorageInv, FailuresInv, UpkeepInv, DrainInv;
    }
  }

  lemma {:induction false} RetryDrain(s: Shard, t: Shard, attempt: Attempt)
    requires Inv(s) && Enabled(s, RetryOne(attempt)) && Sound(s, RetryOne(attempt))
    requires t == Apply(s, RetryOne(attempt)) && StorageInv(t)
    requires attempt != StoreDown ==> Checkpoint(t.log) == Checkpoint(s.log) + 1 <= Secured(t)
    requires attempt == LateDown ==> Applied(t.log) == Applied(s.log) + [s.drain.batch[s.drain.position]]
    ensures DrainInv(t)
  {
    hide Read, Render, Holds, Checkpoint, LogOk, Rejected, Numbered, FailuresInv, Applied;
    if attempt != StoreDown {
      NextUnresolved(s);
    }
  }

  /** The request a retry is about is the next one the database has to resolve. */
  lemma {:induction false} NextUnresolved(s: Shard)
    requires Inv(s) && !s.tainted && s.drain.Retrying? && s.drain.position < |s.drain.batch|
    ensures var Retrying(batch, position, _) := s.drain;
      var cp := Checkpoint(s.log);
      && cp < |s.accepted| && batch[position].num == cp + 1
      && [batch[position]] == s.accepted[cp..cp + 1]
      && batch[position + 1..] + s.queue == s.accepted[cp + 1..]
  {
    hide Read, Render, Holds, Checkpoint, LogOk, Rejected;
    var rest := s.drain.batch[s.drain.position..] + s.queue;
    var cp := Checkpoint(s.log);
    assert rest == s.accepted[cp..];
    assert rest[0] == s.drain.batch[s.drain.position] == s.accepted[cp];
    assert s.drain.batch[s.drain.position + 1..] + s.queue == rest[1..] == s.accepted[cp + 1..];
  }

  lemma {:induction false} RestartInv(s: Shard, verdict: Verdict)
    requires Inv(s) && s.mode == Down
    ensures Inv(Apply(s, Restart(verdict)))
  {
    hide Read, Render, Holds, Checkpoint, LogOk, Rejected, Above, HighestSeq, StorageInv;
    Pending(s);
    RestartStorage(s, verdict);
  }

  /** The replay transaction as a commit. */
  lemma {:induction false} ReplayCommit(log: seq<Commit>, accepted: seq<Entry>, w: nat)
    requires LogOk(log, accepted) && Checkpoint(log) < |accepted| && w <= |log|
    ensures var after := log + [Commit(accepted[Checkpoint(log)..], |accepted|)];
      && LogOk(after, accepted) && Checkpoint(after) == |accepted|
      && after[..w] == log[..w] && Rejected(after) == Rejected(log)
      && Applied(after) == Applied(log) + accepted[Checkpoint(log)..]
  {
    hide Checkpoint, LogOk, Rejected, Applied;
    var tail := accepted[Checkpoint(log)..];
    assert tail == accepted[Checkpoint(log)..|accepted|];
    LogSnoc(log, Commit(tail, |accepted|));
    LogOkSnoc(log, accepted, Commit(tail, |accepted|));
  }

  lemma {:induction false} RestartStorage(s: Shard, verdict: Verdict)
    requires Inv(s) && s.mode == Down
    ensures var t := Apply(s, Restart(verdict));
      && StorageInv(t)
      && (t.mode == Booting ==> Checkpoint(t.log) == |t.accepted| && t.accepted[|t.accepted|..] == [])
      && forall q :: q in Rejected(t.log) ==> q <= Checkpoint(t.log)
  {
    hide Read, Render, Holds, Checkpoint, LogOk, Rejected, Above, HighestSeq, FailuresInv, DrainInv, UpkeepInv,
      StorageInv;
    Pending(s);
    StoredLog(s);
    RejectedBound(s.log, s.accepted);
    var t := Apply(s, Restart(verdict));
    if Checkpoint(s.log) < |s.accepted| {
      ReplayCommit(s.log, s.accepted, s.walBase);
      if verdict == RolledBack {
        SameStorage(s, t);
      } else {
        ReplayedStorage(s, t);
      }
    } else {
      SameStorage(s, t);
    }
  }

  lemma {:induction false} StoredLog(s: Shard)
    requires StorageInv(s)
    ensures LogOk(s.log, s.accepted) && Checkpoint(s.log) <= |s.accepted| && s.walBase <= |s.log|
  {
  }

  /** Storage does not depend on what the process remembers. */
  lemma {:induction false} SameStorage(s: Shard, t: Shard)
    requires StorageInv(s)
    requires t.file == s.file && t.buffered == s.buffered && t.synced == s.synced && t.log == s.log
        && t.walBase == s.walBase
    requires t.accepted == s.accepted && t.reclaimed == s.reclaimed && t.stale == s.stale && t.promised == s.promised
    ensures StorageInv(t)
  {
    hide Read, Render, Holds, Checkpoint, LogOk, Numbered;
  }

  /** Nor does it suffer from the commit of everything the journal holds. */
  lemma {:induction false} ReplayedStorage(s: Shard, t: Shard)
    requires StorageInv(s) && Read(s.file) == OnFile(s) && Checkpoint(s.log) <= |s.accepted|
    requires t.file == s.file && t.buffered == s.buffered && t.synced == s.synced && t.walBase == s.walBase
    requires t.accepted == s.accepted && t.reclaimed == s.reclaimed && t.stale == s.stale && t.promised == s.promised
    requires LogOk(t.log, t.accepted) && Checkpoint(t.log) == |t.accepted| && s.walBase <= |t.log|
        && t.log[..s.walBase] == s.log[..s.walBase]
    ensures StorageInv(t)
  {
    hide Read, Render, Holds, Checkpoint, LogOk, Numbered;
  }

  /** A restart applies exactly what the checkpoint does not cover, or nothing; and
      it opens the shard unless its transaction has reported an error. */
  lemma {:induction false} RestartApplies(s: Shard, verdict: Verdict)
    requires Inv(s) && s.mode == Down
    ensures var t := Apply(s, Restart(verdict));
      && t.accepted == s.accepted && s.log <= t.log
      && (t.mode == Booting <==> verdict == Committed || Checkpoint(s.log) == |s.accepted|)
      && (t.mode == Booting ==> t.durable == t.nextSeq == |t.accepted|)
      && (if verdict == RolledBack then t.log == s.log
          else
            && Checkpoint(t.log) == |t.accepted|
            && Applied(t.log) == Applied(s.log) + s.accepted[Checkpoint(s.log)..])
  {
    hide Read, Render, Holds, Checkpoint, LogOk, Rejected, Applied, Above, HighestSeq;
    Pending(s);
    if Checkpoint(s.log) < |s.accepted| {
      ReplayCommit(s.log, s.accepted, s.walBase);
    } else {
      assert Applied(s.log) + [] == Applied(s.log);
    }
  }

  /** The replay scan finds exactly the accepted entries above the checkpoint. */
  lemma {:induction false} Pending(s: Shard)
    requires Inv(s) && s.mode == Down
    ensures Above(Read(s.file), Checkpoint(s.log)) == s.accepted[Checkpoint(s.log)..]
    ensures HighestSeq(Read(s.file), Checkpoint(s.log)) == |s.accepted|
    ensures Read(s.file) == OnFile(s)
    ensures s.promised <= |s.accepted|
  {
    hide Read, Render, Holds, Checkpoint, LogOk, Rejected, Above, HighestSeq;
    FileGrows(s, s.synced);
    assert s.Written() == s.file;
    HoldsReads(s.file, OnFile(s));
    ScanTail(s.stale, s.accepted, s.reclaimed, Checkpoint(s.log));
  }

  lemma {:induction false} ScanTail(stale: seq<Entry>, accepted: seq<Entry>, reclaimed: nat, cp: nat)
    requires Numbered(accepted, 1) && reclaimed <= cp <= |accepted|
    requires forall e :: e in stale ==> e.num <= reclaimed
    ensures Above(stale + accepted[reclaimed..], cp) == accepted[cp..]
    ensures HighestSeq(stale + accepted[reclaimed..], cp) == |accepted|
  {
    hide Above, HighestSeq;
    var tail := accepted[reclaimed..];
    AboveNumbered(tail, reclaimed + 1, cp);
    SkipStale(stale, tail, cp);
    if cp < |accepted| {
      assert tail[cp - reclaimed..] == accepted[cp..];
    } else {
      assert accepted[cp..] == [];
    }
  }

  /** Records at or below the checkpoint change nothing. */
  lemma {:induction false} SkipStale(stale: seq<Entry>, tail: seq<Entry>, cp: nat)
    requires forall e :: e in stale ==> e.num <= cp
    ensures Above(stale + tail, cp) == Above(tail, cp)
    ensures HighestSeq(stale + tail, cp) == HighestSeq(tail, cp)
    decreases |stale| + |tail|
  {
    hide Above, HighestSeq;
    if tail != [] {
      var init, last := tail[..|tail| - 1], tail[|tail| - 1];
      SkipStale(stale, init, cp);
      ScanSnoc(stale + init, last, cp);
      ScanSnoc(init, last, cp);
      assert stale + tail == stale + init + [last];
      assert tail == init + [last];
    } else if stale != [] {
      var init, last := stale[..|stale| - 1], stale[|stale| - 1];
      SkipStale(init, [], cp);
      ScanSnoc(init, last, cp);
      assert stale + tail == init + [last];
      assert init + [] == init;
    } else {
      assert stale + tail == tail;
    }
  }

  lemma {:induction false} EmptyJournal()
    ensures Read([]) == [] && Holds([], [])
  {
  }

  /** Truncation: an empty queue and an unmoved sequence counter mean that
      everything in the journal was committed before the checkpoint ran. */
  lemma {:induction false} ReclaimInv(s: Shard)
    requires Inv(s) && s.upkeep.Covered?
    ensures Inv(Apply(s, Reclaim))
    ensures s.queue == [] && s.nextSeq == s.upkeep.watermark ==> BaseCheckpoint(s) == |s.accepted|
  {
    hide Read, Holds, Checkpoint, LogOk, Rejected, Numbered, Applied, FailuresInv, DrainInv;
    var t := Apply(s, Reclaim);
    WatermarkBound(s);
    SameFailures(s, t);
    if s.queue == [] && s.nextSeq == s.upkeep.watermark {
      EmptiedStorage(s, t);
      EmptiedDrain(s, t);
      hide StorageInv;
    } else {
      SameStorage(s, t);
      SameDrain(s, t);
    }
  }

  /** The journal is empty and the database has everything. */
  lemma {:induction false} EmptiedStorage(s: Shard, t: Shard)
    requires Inv(s) && s.mode != Down && BaseCheckpoint(s) == |s.accepted|
    requires t == s.(file := [], buffered := [], synced := 0, reclaimed := |s.accepted|, stale := [], upkeep := Resting)
    ensures StorageInv(t) && Secured(t) == Flushed(t) == |s.accepted|
  {
    hide Read, Holds, Checkpoint, LogOk, Rejected, Numbered, Applied, FailuresInv, DrainInv;
    EmptyJournal();
    assert OnFile(t) == [];
    assert t.file[..0] == [] == t.Written();
  }

  lemma {:induction false} EmptiedDrain(s: Shard, t: Shard)
    requires Inv(s) && s.mode != Down && StorageInv(t)
    requires t == s.(file := [], buffered := [], synced := 0, reclaimed := |s.accepted|, stale := [], upkeep := Resting)
    requires Secured(t) == Flushed(t) == |s.accepted| == BaseCheckpoint(s)
    ensures DrainInv(t)
  {
    hide Read, Holds, Checkpoint, LogOk, Rejected, Numbered, Applied, FailuresInv, Render, Secured, Flushed;
    assert s.accepted[Checkpoint(s.log)..] == [];
  }

  /** Handing the journal buffer to the system, or syncing it. */
  lemma {:induction false} JournalInv(s: Shard, op: Op)
    requires Inv(s) && Enabled(s, op) && (op.TakeQueue? || op.SyncJournal?)
    ensures Inv(Apply(s, op))
  {
    hide Read, Render, Holds, Checkpoint, LogOk, Rejected, Numbered, Applied, FailuresInv, DrainInv;
    var t := Apply(s, op);
    WatermarkBound(s);
    SameFailures(s, t);
    JournalStorage(s, op);
    JournalDrain(s, op);
    hide StorageInv;
  }

  lemma {:induction false} JournalStorage(s: Shard, op: Op)
    requires Inv(s) && Enabled(s, op) && (op.TakeQueue? || op.SyncJournal?)
    ensures var t := Apply(s, op);
      && StorageInv(t)
      && (if op.TakeQueue? then Secured(t) == Secured(s) && Flushed(t) == |s.accepted|
          else Secured(s) <= Secured(t) == Flushed(s))
  {
    hide Read, Render, Holds, Checkpoint, LogOk, Rejected, Numbered, Applied, FailuresInv, DrainInv;
    var t := Apply(s, op);
    if op.TakeQueue? {
      assert t.Written() == s.Written() == t.file;
      HoldsReads(s.Written(), OnFile(s));
      SecuredFlushed(s);
      assert t.file[..s.synced] == s.file[..s.synced];
    } else {
      SecuredFlushed(s);
      assert s.file[..|s.file|] == s.file;
    }
  }

  lemma {:induction false} JournalDrain(s: Shard, op: Op)
    requires Inv(s) && Enabled(s, op) && (op.TakeQueue? || op.SyncJournal?)
    requires StorageInv(Apply(s, op))
    requires var t := Apply(s, op);
      if op.TakeQueue? then Secured(t) == Secured(s) && Flushed(t) == |s.accepted|
      else Secured(s) <= Secured(t) == Flushed(s)
    ensures DrainInv(Apply(s, op))
  {
    hide Read, Render, Holds, Checkpoint, LogOk, Rejected, Numbered, Applied, FailuresInv, Secured, Flushed;
  }

  /** The watermark is never ahead of the database. */
  lemma {:induction false} WatermarkBound(s: Shard)
    requires Inv(s) && s.mode != Down
    ensures s.durable <= Checkpoint(s.log) <= s.nextSeq
    ensures s.drain.Publishing? ==> s.drain.upTo <= Checkpoint(s.log) && s.bootSeq < Checkpoint(s.log)
  {
    hide Read, Render, Holds, LogOk, Checkpoint, Applied, Rejected, Numbered;
  }

  lemma {:induction false} UpkeepStepInv(s: Shard, op: Op)
    requires Inv(s) && Enabled(s, op) && (op.Snapshot? || op.WalCheckpoint? || op.AbandonUpkeep?)
    ensures Inv(Apply(s, op))
  {
    hide Read, Render, Holds, Checkpoint, LogOk, Rejected, Numbered, FailuresInv, OnFile, DrainInv;
    var t := Apply(s, op);
    assert s.log[..|s.log|] == s.log;
    WatermarkBound(s);
    assert FailuresInv(s) ==> FailuresInv(t) by {
      SameFailures(s, t);
    }
    assert OnFile(t) == OnFile(s) by {
      SameOnFile(s, t);
    }
    assert StorageInv(t);
    SameDrain(s, t);
  }

  lemma {:induction false} SameDrain(s: Shard, t: Shard)
    requires StorageInv(s) && StorageInv(t)
    requires t == s.(walBase := t.walBase, upkeep := t.upkeep)
    ensures DrainInv(s) ==> DrainInv(t)
  {
    hide Read, Render, Holds, Checkpoint, LogOk, Numbered, Applied;
    assert Believed(t) == Believed(s) && Secured(t) == Secured(s) && Flushed(t) == Flushed(s);
    assert TaintedInv(s) ==> TaintedInv(t);
    assert CleanInv(s) ==> CleanInv(t);
  }

  lemma {:induction false} SameFailures(s: Shard, t: Shard)
    requires t.failures == s.failures && t.bootSeq == s.bootSeq && t.log == s.log
    ensures FailuresInv(s) ==> FailuresInv(t)
  {
  }

  lemma {:induction false} SameOnFile(s: Shard, t: Shard)
    requires s.reclaimed <= |s.accepted| && t.reclaimed == s.reclaimed && t.accepted == s.accepted && t.stale == s.stale
    ensures OnFile(t) == OnFile(s)
  {
  }

  lemma {:induction false} LocalInv(s: Shard, op: Op)
    requires Inv(s) && Enabled(s, op) && (op.FinishRetry? || op.Publish? || op.FinishBoot?)
    ensures Inv(Apply(s, op))
  {
    hide Read, Render, Holds, Checkpoint, LogOk, Rejected, Numbered, FailuresInv, OnFile, DrainInv;
    var t := Apply(s, op);
    WatermarkBound(s);
    assert FailuresInv(s) ==> FailuresInv(t) by {
      SameFailures(s, t);
    }
    assert OnFile(t) == OnFile(s) by {
      SameOnFile(s, t);
    }
    assert StorageInv(t);
    LocalDrain(s, op, t);
  }

  lemma {:induction false} LocalDrain(s: Shard, op: Op, t: Shard)
    requires Inv(s) && Enabled(s, op) && (op.FinishRetry? || op.Publish? || op.FinishBoot?)
    requires t == Apply(s, op) && StorageInv(t)
    ensures DrainInv(t) && s.bootSeq <= t.durable
  {
    hide Read, Render, Holds, Checkpoint, LogOk, Rejected, Numbered, FailuresInv, Applied;
    if op.FinishRetry? {
      assert s.drain.batch[s.drain.position..] + s.queue == s.queue;
    }
  }

  /** Every operation keeps the invariant, provided the journal is only ever
      appended to at a line boundary and nothing is committed after a late error. */
  lemma {:induction false} StepInv(s: Shard, op: Op)
    requires Inv(s) && Enabled(s, op) && Tidy(s, op) && Sound(s, op)
    ensures Inv(Apply(s, op))
  {
    hide Inv, Apply, Tidy, Sound;
    match op
    case Submit(req, spill) => SubmitInv(s, req, spill);
    case Snapshot => UpkeepStepInv(s, op);
    case WalCheckpoint(_) => UpkeepStepInv(s, op);
    case AbandonUpkeep => UpkeepStepInv(s, op);
    case TakeQueue => JournalInv(s, op);
    case SyncJournal => JournalInv(s, op);
    case CommitBatch(verdict) => BatchInv(s, verdict);
    case RetryOne(attempt) => RetryInv(s, attempt);
    case Reclaim => assert s.upkeep.Covered?; ReclaimInv(s);
    case ProcessCrash(_, _) => CrashInv(s, op);
    case PowerLoss(_, _, _) => CrashInv(s, op);
    case Restart(verdict) => RestartInv(s, verdict);
    case _ => LocalInv(s, op);
  }
}
