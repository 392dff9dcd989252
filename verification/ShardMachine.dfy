/** One shard of the write-behind engine as a state machine.

    Every operation is one critical section of the engine (or one fault), so a
    sequence of operations is any interleaving of submitters, the flusher, the
    maintenance thread, crashes and restarts.  The home database is its commit
    log; a commit holds the entries it applied and the checkpoint written in the
    same transaction. */
module ShardMachine {
  import opened Prelude
  import opened Requests
  import opened Journal

  datatype Commit = Commit(applied: seq<Entry>, checkpoint: nat)

  /** Where the drain that holds the shard's drain lock has got to. */
  datatype Drain =
    | Idle
    | Taken(batch: seq<Entry>)
    | Synced(batch: seq<Entry>)
    | Retrying(batch: seq<Entry>, position: nat, published: nat)
    | Publishing(upTo: nat)

  /** Where the maintenance pass has got to, for this shard. */
  datatype Upkeep = Resting | Snapped(watermark: nat) | Covered(watermark: nat)

  datatype Mode = Down | Booting | Serving

  datatype Shard = Shard(
    mode: Mode,
    // memory of the process
    queue: seq<Entry>,
    nextSeq: nat,
    buffered: seq<Token>,     // journal writes not yet handed to the system
    durable: nat,
    failures: set<nat>,
    drain: Drain,
    upkeep: Upkeep,
    tainted: bool,            // history: this process saw a late error
    bootSeq: nat,             // `durable` when this process opened the shard
    // the journal file; its first `synced` tokens survive a power loss
    file: seq<Token>,
    synced: nat,
    // the home database; its first `walBase` commits survive a power loss
    log: seq<Commit>,
    walBase: nat,
    // history: every accepted entry that can still take effect, in order; how
    // many of them the journal no longer needs; the superseded records that are
    // still in its way; and the highest number a drain has ever published
    accepted: seq<Entry>,
    reclaimed: nat,
    stale: seq<Entry>,
    promised: nat)
  {
    function Written(): seq<Token> { file + buffered }
  }

  /** How one sequential retry ends: the request's own transaction, and, if that
      reports an error, the one that writes the checkpoint alone.  The latter writes
      no rows and has no late error. */
  datatype Attempt = Stored | Refused | StoreDown | LateRefused | LateDown

  /** The retry leaves its request, and the rest of the batch, for a later drain. */
  predicate Stops(attempt: Attempt) { attempt.StoreDown? || attempt.LateDown? }

  /** The retry records a refusal. */
  predicate Refuses(attempt: Attempt) { attempt.Refused? || attempt.LateRefused? }

  /** The retry puts its request into the database. */
  predicate Stores(attempt: Attempt) { attempt.Stored? || attempt.LateRefused? || attempt.LateDown? }

  datatype Op =
    | Submit(req: Request, spill: nat)
    | TakeQueue
    | SyncJournal
    | CommitBatch(verdict: Verdict)
    | RetryOne(attempt: Attempt)
    | FinishRetry
    | Publish
    | Snapshot
    | WalCheckpoint(complete: bool)
    | AbandonUpkeep
    | Reclaim
    | FinishBoot
    | ProcessCrash(kept: nat, torn: bool)
    | PowerLoss(kept: nat, torn: bool, commits: nat)
    | Restart(verdict: Verdict)

  // ---------------------------------------------------------------------
  // The home database
  // ---------------------------------------------------------------------

  /** The checkpoint row: a monotone upsert over the commits. */
  function Checkpoint(log: seq<Commit>): nat {
    if log == [] then 0
    else
      var before := Checkpoint(log[..|log| - 1]);
      var c := log[|log| - 1].checkpoint;
      if c > before then c else before
  }

  /** Everything the database has applied for this shard, in commit order. */
  function Applied(log: seq<Commit>): seq<Entry> {
    if log == [] then [] else Applied(log[..|log| - 1]) + log[|log| - 1].applied
  }

  /** The sequence numbers whose checkpoint was committed without their data. */
  function Rejected(log: seq<Commit>): set<nat> {
    if log == [] then {}
    else
      var c := log[|log| - 1];
      Rejected(log[..|log| - 1]) + if c.applied == [] then {c.checkpoint} else {}
  }

  // ---------------------------------------------------------------------
  // The operations
  // ---------------------------------------------------------------------

  function LastSeq(batch: seq<Entry>): nat {
    if batch == [] then 0 else batch[|batch| - 1].num
  }

  predicate Enabled(s: Shard, op: Op) {
    match op
    case Submit(_, spill) => s.mode == Serving && spill <= |s.buffered| + 2
    case TakeQueue => s.mode == Serving && s.drain.Idle? && s.queue != []
    case SyncJournal => s.drain.Taken?
    case CommitBatch(_) => s.drain.Synced?
    case RetryOne(_) => s.drain.Retrying? && s.drain.position < |s.drain.batch|
    case FinishRetry => s.drain.Retrying? && s.drain.position == |s.drain.batch|
    case Publish => s.drain.Publishing?
    case Snapshot => s.mode != Down && s.upkeep.Resting?
    case WalCheckpoint(_) => s.upkeep.Snapped?
    case AbandonUpkeep => s.mode != Down
    case Reclaim => s.upkeep.Covered?
    case FinishBoot => s.mode == Booting && s.upkeep.Resting?
    case ProcessCrash(kept, torn) =>
      s.mode != Down && |s.file| <= kept && CutAllowed(s.Written(), kept, torn)
    case PowerLoss(kept, torn, commits) =>
      && s.synced <= kept && CutAllowed(s.file, kept, torn)
      && s.walBase <= commits <= |s.log|
    case Restart(_) => s.mode == Down
  }

  /** Process memory is gone; what the next process will find is `file` and
      `log`.  Entries that appear in neither are forgotten, and their numbers
      are issued again. */
  function Halted(s: Shard, file: seq<Token>, synced: nat, log: seq<Commit>, walBase: nat): Shard {
    var inFile := s.reclaimed + |Read(file)| - |s.stale|;
    var cp := Checkpoint(log);
    if cp > inFile then
      Shard(Down, [], 0, [], 0, {}, Idle, Resting, false, 0, file, synced, log, walBase,
            s.accepted[..Min(cp, |s.accepted|)], cp, Read(file), s.promised)
    else
      Shard(Down, [], 0, [], 0, {}, Idle, Resting, false, 0, file, synced, log, walBase,
            s.accepted[..Min(inFile, |s.accepted|)], s.reclaimed, s.stale, s.promised)
  }

  function Apply(s: Shard, op: Op): Shard
    requires Enabled(s, op)
  {
    match op
    case Submit(req, spill) =>
      var e := Entry(s.nextSeq + 1, req);
      var tokens := s.buffered + [Body(e), Newline];
      s.(nextSeq := s.nextSeq + 1, queue := s.queue + [e],
         file := s.file + tokens[..spill], buffered := tokens[spill..],
         accepted := s.accepted + [e])
    case TakeQueue =>
      s.(file := s.file + s.buffered, buffered := [], drain := Taken(s.queue), queue := [])
    case SyncJournal =>
      s.(synced := |s.file|, drain := Synced(s.drain.batch))
    case CommitBatch(verdict) =>
      var batch := s.drain.batch;
      (match verdict
       case Committed =>
         s.(log := s.log + [Commit(batch, LastSeq(batch))], drain := Publishing(LastSeq(batch)))
       case RolledBack =>
         s.(drain := Retrying(batch, 0, 0))
       case LateError =>
         s.(log := s.log + [Commit(batch, LastSeq(batch))], drain := Retrying(batch, 0, 0), tainted := true))
    case RetryOne(attempt) =>
      var Retrying(batch, position, published) := s.drain;
      var e := batch[position];
      (match attempt
       case Stored =>
         s.(log := s.log + [Commit([e], e.num)], drain := Retrying(batch, position + 1, e.num))
       case Refused =>
         s.(log := s.log + [Commit([], e.num)], failures := s.failures + {e.num},
            drain := Retrying(batch, position + 1, e.num))
       case StoreDown =>
         s.(queue := batch[position..] + s.queue,
            drain := if published > 0 then Publishing(published) else Idle)
       case LateRefused =>
         s.(log := s.log + [Commit([e], e.num)] + [Commit([], e.num)], failures := s.failures + {e.num},
            drain := Retrying(batch, position + 1, e.num), tainted := true)
       case LateDown =>
         s.(log := s.log + [Commit([e], e.num)], queue := batch[position..] + s.queue,
            drain := if published > 0 then Publishing(published) else Idle, tainted := true))
    case FinishRetry =>
      s.(drain := if s.drain.published > 0 then Publishing(s.drain.published) else Idle)
    case Publish =>
      var watermark := Max(s.durable, s.drain.upTo);
      s.(durable := watermark, drain := Idle, promised := Max(s.promised, watermark))
    case Snapshot =>
      s.(upkeep := Snapped(s.durable))
    case WalCheckpoint(complete) =>
      if complete then s.(walBase := |s.log|, upkeep := Covered(s.upkeep.watermark))
      else s.(upkeep := Resting)
    case AbandonUpkeep =>
      s.(upkeep := Resting)
    case Reclaim =>
      if s.queue == [] && s.nextSeq == s.upkeep.watermark then
        s.(file := [], buffered := [], synced := 0,
           reclaimed := |s.accepted|, stale := [], upkeep := Resting)
      else
        s.(upkeep := Resting)
    case FinishBoot =>
      s.(mode := Serving)
    case ProcessCrash(kept, torn) =>
      Halted(s, Cut(s.Written(), kept, torn), s.synced, s.log, s.walBase)
    case PowerLoss(kept, torn, commits) =>
      var file := Cut(s.file, kept, torn);
      Halted(s, file, |file|, s.log[..commits], commits)
    case Restart(verdict) =>
      var entries := Read(s.file);
      var pending := Above(entries, Checkpoint(s.log));
      var last := HighestSeq(entries, Checkpoint(s.log));
      if pending == [] then s.(mode := Booting, nextSeq := last, durable := last, bootSeq := last)
      else
        (match verdict
         case Committed =>
           s.(mode := Booting, nextSeq := last, durable := last, bootSeq := last,
              log := s.log + [Commit(pending, last)])
         case RolledBack => s
         case LateError => s.(log := s.log + [Commit(pending, last)]))
  }

  const FRESH := Shard(Down, [], 0, [], 0, {}, Idle, Resting, false, 0, [], 0, [], 0, [], 0, [], 0)

  // ---------------------------------------------------------------------
  // The invariant
  // ---------------------------------------------------------------------

  /** Each commit takes the next stretch of accepted entries: all of them, or
      a single refused one. */
  ghost predicate LogOk(log: seq<Commit>, accepted: seq<Entry>) {
    log == [] ||
    (var before, c := Checkpoint(log[..|log| - 1]), log[|log| - 1];
     && LogOk(log[..|log| - 1], accepted)
     && before < c.checkpoint <= |accepted|
     && (c.applied == accepted[before..c.checkpoint] || (c.applied == [] && c.checkpoint == before + 1)))
  }

  /** The entries a reader of the whole journal would find. */
  function OnFile(s: Shard): seq<Entry>
    requires s.reclaimed <= |s.accepted|
  {
    s.stale + s.accepted[s.reclaimed..]
  }

  /** How far the part of the journal handed to the system reaches. */
  function Flushed(s: Shard): int {
    s.reclaimed + |Read(s.file)| - |s.stale|
  }

  /** How far the part of the journal that survives a power loss reaches. */
  function Secured(s: Shard): int
    requires s.synced <= |s.file|
  {
    s.reclaimed + |Read(s.file[..s.synced])| - |s.stale|
  }

  /** The checkpoint every power loss leaves in the home database. */
  function BaseCheckpoint(s: Shard): nat
    requires s.walBase <= |s.log|
  {
    Checkpoint(s.log[..s.walBase])
  }

  ghost predicate StorageInv(s: Shard) {
    && s.synced <= |s.file| && s.walBase <= |s.log|
    && Numbered(s.accepted, 1)
    && LogOk(s.log, s.accepted)
    && s.reclaimed <= BaseCheckpoint(s) <= Checkpoint(s.log) <= |s.accepted|
    && (forall e :: e in s.stale ==> e.num <= s.reclaimed)
    && |s.stale| <= |Read(s.file[..s.synced])|
    && Holds(s.Written(), OnFile(s))
    && Checkpoint(s.log) <= Flushed(s)
    && (s.promised <= BaseCheckpoint(s) || s.promised <= Secured(s))
  }

  /** The requests the running drain has not resolved yet. */
  function InFlight(drain: Drain): seq<Entry> {
    match drain
    case Taken(batch) => batch
    case Synced(batch) => batch
    case Retrying(batch, position, _) => if position <= |batch| then batch[position..] else []
    case _ => []
  }

  ghost predicate DrainInv(s: Shard)
    requires StorageInv(s)
  {
    if s.tainted then TaintedInv(s) else CleanInv(s)
  }

  /** How far the process believes to have resolved its requests. */
  function Believed(s: Shard): int { |s.accepted| - |InFlight(s.drain)| - |s.queue| }

  /** After a late error the process still holds, first of all, a request that is
      in the database already. */
  ghost predicate TaintedInv(s: Shard)
    requires StorageInv(s)
  {
    var b := Believed(s);
    && 0 <= b < Checkpoint(s.log)
    && InFlight(s.drain) + s.queue == s.accepted[b..]
    && s.accepted[b] in Applied(s.log)
    && s.durable <= b
    && match s.drain
       case Idle => true
       case Taken(batch) => batch != []
       case Synced(batch) => batch != []
       case Retrying(batch, position, published) => position <= |batch| && published <= b
       case Publishing(upTo) => upTo <= b
  }

  ghost predicate CleanInv(s: Shard)
    requires StorageInv(s)
  {
    var cp := Checkpoint(s.log);
    match s.drain
    case Idle => s.queue == s.accepted[cp..] && s.durable == cp
    case Taken(batch) =>
      && batch != [] && batch + s.queue == s.accepted[cp..] && s.durable == cp
      && cp + |batch| <= Flushed(s)
    case Synced(batch) =>
      && batch != [] && batch + s.queue == s.accepted[cp..] && s.durable == cp
      && cp + |batch| <= Secured(s)
    case Retrying(batch, position, published) =>
      && position <= |batch| && batch != [] && batch[position..] + s.queue == s.accepted[cp..]
      && cp + |batch| - position <= Secured(s)
      && (if position == 0 then published == 0 && s.durable == cp
          else published == cp && s.bootSeq < cp && s.durable <= cp)
    case Publishing(upTo) =>
      s.queue == s.accepted[cp..] && upTo == cp && s.bootSeq < cp && s.durable <= cp
  }

  ghost predicate FailuresInv(s: Shard) {
    && (forall q :: q in s.failures ==> s.bootSeq < q <= Checkpoint(s.log))
    && forall q :: s.bootSeq < q <= Checkpoint(s.log) ==> (q in s.failures <==> q in Rejected(s.log))
  }

  ghost predicate UpkeepInv(s: Shard)
    requires s.walBase <= |s.log|
  {
    match s.upkeep
    case Resting => true
    case Snapped(w) => w <= s.durable
    case Covered(w) => w <= BaseCheckpoint(s)
  }

  ghost predicate Inv(s: Shard) {
    && StorageInv(s)
    && if s.mode == Down then
         s.queue == [] && s.buffered == [] && s.drain == Idle && s.upkeep == Resting
         && s.failures == {} && s.durable == s.bootSeq == s.nextSeq == 0 && !s.tainted
       else
         && s.nextSeq == |s.accepted|
         && s.bootSeq <= s.durable && s.promised <= Checkpoint(s.log)
         && (s.bootSeq < Checkpoint(s.log) ==> Checkpoint(s.log) <= Secured(s))
         && DrainInv(s) && FailuresInv(s) && UpkeepInv(s)
         && (s.mode == Booting ==> s.drain == Idle && !s.tainted)
         && (s.tainted ==> s.bootSeq < Checkpoint(s.log))
  }

  /** The operation commits a store transaction of a running process. */
  predicate Commits(op: Op) {
    match op
    case CommitBatch(verdict) => verdict != RolledBack
    case RetryOne(attempt) => attempt != StoreDown
    case _ => false
  }

  /** A transaction of this kind reports an error after it has committed. */
  predicate Late(op: Op) {
    match op
    case CommitBatch(verdict) => verdict == LateError
    case RetryOne(attempt) => attempt == LateRefused || attempt == LateDown
    case _ => false
  }

  /** No transaction is committed after one that reported an error late, until the
      process ends. */
  predicate Sound(s: Shard, op: Op) {
    && op != RetryOne(LateRefused)
    && (s.tainted ==> !Commits(op))
  }

  /** The journal is appended to only at a line boundary. */
  predicate Tidy(s: Shard, op: Op) {
    op.Submit? ==> AtLineStart(s.Written())
  }
}
