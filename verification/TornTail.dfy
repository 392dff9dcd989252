/** A journal whose last line a crash has torn: when a submission may be appended to
    it, and what is lost when one is appended all the same. */
module TornTail {
  import opened Prelude
  import opened Requests
  import opened Journal
  import opened ShardMachine
  import opened ShardSafety
  import opened ShardTheorems
  import opened LateErrors

  // ---------------------------------------------------------------------
  // A run to rest
  // ---------------------------------------------------------------------

  /** What a healthy shard does next, if anything: finish the drain, then drain what
      is queued.  A sequential fallback that is under way is given up for a new
      grouped batch. */
  function NextOp(s: Shard): Option<Op> {
    match s.drain
    case Idle => if s.queue == [] then None else Some(TakeQueue)
    case Taken(_) => Some(SyncJournal)
    case Synced(_) => Some(CommitBatch(Committed))
    case Retrying(batch, position, _) => Some(if position < |batch| then RetryOne(StoreDown) else FinishRetry)
    case Publishing(_) => Some(Publish)
  }

  /** How far the shard is from rest. */
  function Rank(s: Shard): nat {
    match s.drain
    case Idle => if s.queue == [] then 0 else 4
    case Publishing(_) => if s.queue == [] then 1 else 5
    case Synced(_) => if s.queue == [] then 2 else 6
    case Taken(_) => if s.queue == [] then 3 else 7
    case Retrying(_, _, _) => 8
  }

  /** The last number issued is queued, in flight, about to be published or
      published. */
  ghost predicate Draining(s: Shard) {
    && s.mode == Serving
    && (s.queue == [] ==> s.buffered == [])
    && (s.queue != [] ==> s.queue[|s.queue| - 1].num == s.nextSeq)
    && s.nextSeq > 0 && s.synced <= |s.file|
    && match s.drain
       case Idle => s.queue == [] ==> s.nextSeq <= s.durable && s.nextSeq <= s.promised
       case Taken(batch) => batch != [] && (s.queue == [] ==> LastSeq(batch) == s.nextSeq)
       case Synced(batch) => batch != [] && (s.queue == [] ==> LastSeq(batch) == s.nextSeq)
       case Retrying(batch, position, _) => position <= |batch| && s.queue != []
       case Publishing(upTo) => s.queue == [] ==> upTo == s.nextSeq
  }

  /** Everything but queue, watermark and database is as it was. */
  predicate SameRest(s: Shard, t: Shard) {
    && t.Written() == s.Written() && t.walBase == s.walBase && s.log <= t.log
    && t.accepted == s.accepted && t.reclaimed == s.reclaimed && t.stale == s.stale
    && t.nextSeq == s.nextSeq && t.failures == s.failures
  }

  lemma {:induction false} NextOpDrains(s: Shard)
    requires Draining(s) && NextOp(s).Some?
    ensures var op := NextOp(s).value;
      && Enabled(s, op) && Tidy(s, op) && !Late(op)
      && Draining(Apply(s, op)) && SameRest(s, Apply(s, op)) && Rank(Apply(s, op)) < Rank(s)
  {
    hide Halted, Read, Above, HighestSeq, Checkpoint;
  }

  /** A healthy shard comes to rest, with everything it has accepted published. */
  lemma {:induction false} Settle(s: Shard) returns (ops: seq<Op>)
    requires Draining(s)
    ensures Orderly(s, ops) && forall op :: op in ops ==> !Late(op)
    ensures var t := Final(s, ops);
      && Draining(t) && SameRest(s, t) && t.drain == Idle && t.queue == []
    decreases Rank(s)
  {
    hide Enabled, Tidy, Apply, Draining;
    if NextOp(s) == None {
      ops := [];
    } else {
      var op := NextOp(s).value;
      NextOpDrains(s);
      var rest := Settle(Apply(s, op));
      ops := [op] + rest;
      assert ops[1..] == rest;
      SameRestTrans(s, Apply(s, op), Final(Apply(s, op), rest));
    }
  }

  lemma {:induction false} SameRestTrans(a: Shard, b: Shard, c: Shard)
    requires SameRest(a, b) && SameRest(b, c)
    ensures SameRest(a, c)
  {
  }

  // ---------------------------------------------------------------------
  // An untidy submission
  // ---------------------------------------------------------------------

  lemma {:induction false} WrittenReads(s: Shard)
    requires StorageInv(s)
    ensures Read(s.Written()) == OnFile(s)
    ensures BaseCheckpoint(s) <= Checkpoint(s.log) <= |s.accepted|
  {
    HoldsReads(s.Written(), OnFile(s));
  }

  lemma {:induction false} AppendAtMost(ts: seq<Token>, e: Entry)
    requires !AtLineStart(ts)
    ensures |Read(ts + [Body(e), Newline])| <= |Read(ts)|
  {
    hide Split, ParseLines;
    AppendReadable(ts, e);
    var s := Split(ts);
    SplitSnoc(ts, Body(e));
    SplitSnoc(ts + [Body(e)], Newline);
    assert ts + [Body(e)] + [Newline] == ts + [Body(e), Newline];
    ParseSnoc(s.lines, s.rest + [Body(e)]);
    assert |s.rest + [Body(e)]| > 1;
  }

  lemma {:induction false} SubmittedUntidy(s: Shard, req: Request) returns (a: Shard)
    requires Inv(s) && s.mode == Serving && !AtLineStart(s.Written())
    ensures Enabled(s, Submit(req, 0)) && a == Apply(s, Submit(req, 0))
    ensures Draining(a) && a.nextSeq == s.nextSeq + 1 == |s.accepted| + 1
    ensures a.walBase == s.walBase && a.log == s.log && a.reclaimed == s.reclaimed && a.stale == s.stale
    ensures a.failures == s.failures && a.nextSeq !in a.failures
    ensures |Read(a.Written())| <= |OnFile(s)|
  {
    hide Render, Holds, LogOk, Checkpoint, Read, Split, Applied, Rejected;
    a := Apply(s, Submit(req, 0));
    var e := Entry(s.nextSeq + 1, req);
    assert a.Written() == s.Written() + [Body(e), Newline];
    WrittenReads(s);
    AppendAtMost(s.Written(), e);
  }

  lemma {:induction false} SettledLoses(s: Shard, a: Shard, t: Shard)
    requires Inv(s) && s.mode == Serving
    requires a.nextSeq == |s.accepted| + 1 && a.nextSeq !in a.failures && |Read(a.Written())| <= |OnFile(s)|
    requires a.walBase == s.walBase && a.log == s.log && a.reclaimed == s.reclaimed && a.stale == s.stale
    requires Draining(t) && SameRest(a, t) && t.drain == Idle && t.queue == []
    ensures Wait(t, a.nextSeq) == Durable && Enabled(t, PowerLoss(|t.file|, false, t.walBase))
    ensures |Apply(t, PowerLoss(|t.file|, false, t.walBase)).accepted| < t.promised
  {
    hide Render, Holds, LogOk, Checkpoint, Read, Split, Applied, Rejected, Numbered;
    assert t.file == a.Written();
    assert Cut(t.file, |t.file|, false) == t.file;
    assert t.log[..t.walBase] == s.log[..s.walBase];
  }

  /** In every serving state: if the journal does not end at a line boundary, a
      submission is lost.  It is committed and published, and a power loss that takes
      nothing from the journal takes it back. */
  lemma {:induction false} UntidySubmitLoses(s: Shard, req: Request) returns (ops: seq<Op>)
    requires Inv(s) && s.mode == Serving && !AtLineStart(s.Written())
    ensures Enabled(s, Submit(req, 0))
    ensures Orderly(Apply(s, Submit(req, 0)), ops) && forall op :: op in ops ==> !Late(op)
    ensures var t := Final(Apply(s, Submit(req, 0)), ops);
      && t.mode == Serving && Wait(t, s.nextSeq + 1) == Durable
      && Enabled(t, PowerLoss(|t.file|, false, t.walBase))
      && |Apply(t, PowerLoss(|t.file|, false, t.walBase)).accepted| < t.promised
  {
    hide Orderly, Final, Read, Split, Checkpoint, LogOk, Holds, Apply;
    var a := SubmittedUntidy(s, req);
    ops := Settle(a);
    SettledLoses(s, a, Final(a, ops));
  }

  /** Whatever happens after the submission of `req`, within the other rules, every
      number that has ever been published still names an accepted entry. */
  ghost predicate SubmissionSafe(s: Shard, req: Request)
    requires Enabled(s, Submit(req, 0))
  {
    forall ops :: Legal(Apply(s, Submit(req, 0)), ops) ==>
      Final(Apply(s, Submit(req, 0)), ops).promised <= |Final(Apply(s, Submit(req, 0)), ops).accepted|
  }

  /** The exact condition on a submission. */
  lemma {:induction false} SubmissionSafeIff(s: Shard, req: Request)
    requires Inv(s) && s.mode == Serving && !s.tainted
    ensures Enabled(s, Submit(req, 0))
    ensures SubmissionSafe(s, req) <==> AtLineStart(s.Written())
  {
    hide Inv, Apply, AtLineStart, Legal, Final, Orderly;
    var a := Apply(s, Submit(req, 0));
    if AtLineStart(s.Written()) {
      StepInv(s, Submit(req, 0));
      forall ops | Legal(a, ops) ensures Final(a, ops).promised <= |Final(a, ops).accepted| {
        RunInv(a, ops);
        PromisedAccepted(Final(a, ops));
      }
    } else {
      var ops := UntidySubmitLoses(s, req);
      var t := Final(a, ops);
      var loss := PowerLoss(|t.file|, false, t.walBase);
      OrderlySnoc(a, ops, loss);
      StaysClean(s, Submit(req, 0));
      NoLateErrors(a, ops + [loss]);
      LossPublishes(t, loss);
    }
  }

  lemma {:induction false} LossPublishes(t: Shard, loss: Op)
    requires loss.PowerLoss? && Enabled(t, loss)
    ensures Apply(t, loss).promised == t.promised
  {
  }

  // ---------------------------------------------------------------------
  // At startup
  // ---------------------------------------------------------------------

  /** A start: replay, one maintenance pass, and the doors open. */
  function Boot(complete: bool): seq<Op> {
    [Restart(Committed)] +
    ([Snapshot] + ([WalCheckpoint(complete)] + (if complete then [Reclaim] + [FinishBoot] else [FinishBoot])))
  }

  lemma {:induction false} BootState(s: Shard)
    requires Inv(s) && s.mode == Down
    ensures var a := Apply(s, Restart(Committed));
      && a.mode == Booting && a.upkeep == Resting && a.queue == [] && a.durable == a.nextSeq && !a.tainted
      && a.Written() == s.file
  {
    hide Read, Render, Holds, LogOk, Checkpoint, Above, HighestSeq;
  }

  /** The startup pass empties the journal if its checkpoint is complete, and leaves
      it alone otherwise. */
  lemma {:induction false} BootJournal(s: Shard, complete: bool)
    requires Inv(s) && s.mode == Down
    ensures Legal(s, Boot(complete))
    ensures var b := Final(s, Boot(complete));
      b.mode == Serving && !b.tainted && b.Written() == if complete then [] else s.file
  {
    hide Read, Render, Holds, LogOk, Checkpoint, Above, HighestSeq, Inv, Legal, Final;
    BootState(s);
    var a := Apply(s, Restart(Committed));
    var b := Apply(a, Snapshot);
    var c := Apply(b, WalCheckpoint(complete));
    var d := if complete then Apply(c, Reclaim) else c;
    EmptyRun(Apply(d, FinishBoot));
    LegalCons(d, FinishBoot, []);
    assert [FinishBoot] + [] == [FinishBoot];
    if complete {
      LegalCons(c, Reclaim, [FinishBoot]);
    }
    var rest := if complete then [Reclaim] + [FinishBoot] else [FinishBoot];
    LegalCons(b, WalCheckpoint(complete), rest);
    LegalCons(a, Snapshot, [WalCheckpoint(complete)] + rest);
    LegalCons(s, Restart(Committed), [Snapshot] + ([WalCheckpoint(complete)] + rest));
  }

  /** The first submission after a start is safe if and only if the crash before it
      left the journal at a line boundary or the startup checkpoint was complete. */
  lemma {:induction false} FirstSubmissionIff(s: Shard, complete: bool, req: Request)
    requires Inv(s) && s.mode == Down
    ensures Legal(s, Boot(complete)) && Enabled(Final(s, Boot(complete)), Submit(req, 0))
    ensures SubmissionSafe(Final(s, Boot(complete)), req) <==> complete || AtLineStart(s.file)
  {
    hide Inv, Legal, Final, AtLineStart;
    BootJournal(s, complete);
    RunInv(s, Boot(complete));
    SubmissionSafeIff(Final(s, Boot(complete)), req);
    FragmentReads();
  }

  /** The shard after a crash has torn its very first record. */
  const TORN := FRESH.(file := [Fragment])

  lemma {:induction false} TornReachable(req: Request)
    ensures var ops := [Restart(Committed)] + ([FinishBoot] + ([Submit(req, 0)] + [ProcessCrash(0, true)]));
      Legal(FRESH, ops) && Final(FRESH, ops) == TORN
  {
    hide Legal, Final, Read, AtLineStart, Above, HighestSeq, Checkpoint;
    FreshBoot();
    FragmentReads();
    var a := FRESH.(mode := Booting);
    var b := FRESH.(mode := Serving);
    var c := Apply(b, Submit(req, 0));
    assert c.Written() == [Body(Entry(1, req)), Newline];
    assert Cut(c.Written(), 0, true) == [Fragment];
    var d := Apply(c, ProcessCrash(0, true));
    assert d == TORN;
    EmptyRun(d);
    LegalCons(c, ProcessCrash(0, true), []);
    assert [ProcessCrash(0, true)] + [] == [ProcessCrash(0, true)];
    LegalCons(b, Submit(req, 0), [ProcessCrash(0, true)]);
    LegalCons(a, FinishBoot, [Submit(req, 0)] + [ProcessCrash(0, true)]);
    LegalCons(FRESH, Restart(Committed), [FinishBoot] + ([Submit(req, 0)] + [ProcessCrash(0, true)]));
  }

  /** So the unsafe start is reached: a crash tears the first line, the next start's
      checkpoint is incomplete, and the submission after it is lost. */
  lemma {:induction false} TornStartUnsafe(req: Request)
    ensures Inv(TORN) && Legal(TORN, Boot(false))
    ensures Enabled(Final(TORN, Boot(false)), Submit(req, 0)) && !SubmissionSafe(Final(TORN, Boot(false)), req)
  {
    hide Inv, Legal, Final, AtLineStart, SubmissionSafe;
    TornReachable(req);
    FreshInv();
    RunInv(FRESH, [Restart(Committed)] + ([FinishBoot] + ([Submit(req, 0)] + [ProcessCrash(0, true)])));
    FragmentReads();
    FirstSubmissionIff(TORN, false, req);
  }
}
