/** The shard as the engine runs it: queue, journal writer and watermark as
    fields, drains as one method with its sequential fallback.

    Every method is shown to perform operations of the shard machine, one after
    the other, and the home database is shown to hold exactly what those
    operations applied although drains write grouped batches. */
module EngineShard {
  import opened Prelude
  import opened Requests
  import opened Journal
  import opened DrainGrouping
  import opened ShardMachine
  import opened ShardSafety
  import opened ShardTheorems
  import opened ShardMemory

  datatype Said = Said(observations: seq<string>, relations: seq<RelationInput>)

  /** What the store looks a group up by: it matches names exactly. */
  type Row = (string, nat, string)

  function Reqs(entries: seq<Entry>): seq<Request> {
    seq(|entries|, i requires 0 <= i < |entries| => entries[i].req)
  }

  function Lookup(content: map<Row, Said>, row: Row): Said {
    if row in content then content[row] else Said([], [])
  }

  function Extend(a: Said, b: Said): Said {
    Said(a.observations + b.observations, a.relations + b.relations)
  }

  /** What `reqs` say under the exact header `row`, in order. */
  function SaidUnder(reqs: seq<Request>, row: Row): Said {
    if reqs == [] then Said([], [])
    else
      var last := reqs[|reqs| - 1];
      Extend(SaidUnder(reqs[..|reqs| - 1], row),
             if Header(last) == row then Said(last.observations, last.relations) else Said([], []))
  }

  lemma {:induction false} SaidSnoc(reqs: seq<Request>, r: Request, row: Row)
    ensures SaidUnder(reqs + [r], row)
         == Extend(SaidUnder(reqs, row), if Header(r) == row then Said(r.observations, r.relations) else Said([], []))
  {
    assert (reqs + [r])[..|reqs|] == reqs;
  }

  /** What a row says, piece by piece: the observations of the requests with exactly its
      name, kind and source, one request after the other, and nothing else; and their
      relations likewise. */
  lemma {:induction false} RowHolds(reqs: seq<Request>, row: Row) returns (observed: seq<nat>, related: seq<nat>)
    ensures |observed| == |related| == |reqs| + 1 && observed[0] == related[0] == 0
    ensures observed[|reqs|] == |SaidUnder(reqs, row).observations|
    ensures related[|reqs|] == |SaidUnder(reqs, row).relations|
    ensures forall i :: 0 <= i < |reqs| ==> RowPart(reqs[i], row, SaidUnder(reqs, row), observed, related, i)
    decreases |reqs|
  {
    hide RowPart;
    if reqs == [] {
      observed, related := [0], [0];
    } else {
      var n := |reqs| - 1;
      observed, related := RowHolds(reqs[..n], row);
      var before, mine := SaidUnder(reqs[..n], row), Header(reqs[n]) == row;
      var more := if mine then Said(reqs[n].observations, reqs[n].relations) else Said([], []);
      var whole := Extend(before, more);
      var o, l := observed + [|whole.observations|], related + [|whole.relations|];
      forall i | 0 <= i < n ensures RowPart(reqs[i], row, whole, o, l, i) {
        assert RowPart(reqs[..n][i], row, before, observed, related, i);
        RowPartStays(reqs[i], row, before, more, observed, related, o, l, i);
      }
      RowPartNew(reqs[n], row, before, o, l, n);
      observed, related := o, l;
    }
  }

  ghost predicate RowPart(r: Request, row: Row, said: Said, observed: seq<nat>, related: seq<nat>, i: nat)
    requires i + 1 < |observed| == |related|
  {
    var mine := r.name == row.0 && r.kind == row.1 && r.source == row.2;
    && Fills(r.observations, mine, said.observations, observed[i], observed[i + 1])
    && Fills(r.relations, mine, said.relations, related[i], related[i + 1])
  }

  lemma {:induction false} RowPartStays(r: Request, row: Row, before: Said, more: Said, observed: seq<nat>,
      related: seq<nat>, o: seq<nat>, l: seq<nat>, i: nat)
    requires i + 1 < |observed| == |related| && RowPart(r, row, before, observed, related, i)
    requires observed <= o && related <= l && |o| == |l|
    ensures RowPart(r, row, Extend(before, more), o, l, i)
  {
    hide Fills;
    var mine := r.name == row.0 && r.kind == row.1 && r.source == row.2;
    FillsStill(r.observations, mine, before.observations, observed[i], observed[i + 1], more.observations);
    FillsStill(r.relations, mine, before.relations, related[i], related[i + 1], more.relations);
  }

  lemma {:induction false} RowPartNew(r: Request, row: Row, before: Said, o: seq<nat>, l: seq<nat>, i: nat)
    requires i + 1 < |o| == |l| && o[i] == |before.observations| && l[i] == |before.relations|
    requires var said := Extend(before, if Header(r) == row then Said(r.observations, r.relations) else Said([], []));
      o[i + 1] == |said.observations| && l[i + 1] == |said.relations|
    ensures var said := Extend(before, if Header(r) == row then Said(r.observations, r.relations) else Said([], []));
      RowPart(r, row, said, o, l, i)
  {
    hide Fills;
    FillsLast(before.observations, r.observations, Header(r) == row);
    FillsLast(before.relations, r.relations, Header(r) == row);
  }

  lemma {:induction false} ExtendAssoc(a: Said, b: Said, c: Said)
    ensures Extend(Extend(a, b), c) == Extend(a, Extend(b, c)) && Extend(a, Said([], [])) == a
  {
    assert a.observations + b.observations + c.observations == a.observations + (b.observations + c.observations);
    assert a.relations + b.relations + c.relations == a.relations + (b.relations + c.relations);
  }

  lemma {:induction false} SaidConcat(a: seq<Request>, b: seq<Request>, row: Row)
    ensures SaidUnder(a + b, row) == Extend(SaidUnder(a, row), SaidUnder(b, row))
    decreases |b|
  {
    hide SaidUnder, Extend;
    if b == [] {
      assert a + b == a;
      NothingSaid(row);
      ExtendAssoc(SaidUnder(a, row), Said([], []), Said([], []));
    } else {
      var n := |b| - 1;
      SaidConcat(a, b[..n], row);
      SaidSnoc(a + b[..n], b[n], row);
      SaidSnoc(b[..n], b[n], row);
      assert a + b == a + b[..n] + [b[n]] && b == b[..n] + [b[n]];
      var said := if Header(b[n]) == row then Said(b[n].observations, b[n].relations) else Said([], []);
      ExtendAssoc(SaidUnder(a, row), SaidUnder(b[..n], row), said);
    }
  }

  lemma {:induction false} ContentConcat(router: Router, a: seq<Request>, b: seq<Request>, key: GroupKey)
    ensures Observed(router, a + b, key) == Observed(router, a, key) + Observed(router, b, key)
    ensures Related(router, a + b, key) == Related(router, a, key) + Related(router, b, key)
    decreases |b|
  {
    hide Observed, Related;
    if b == [] {
      assert a + b == a;
      SaysNothing(router, key);
    } else {
      var n := |b| - 1;
      ContentConcat(router, a, b[..n], key);
      ObservedSnoc(router, a + b[..n], b[n], key);
      assert a + b == a + b[..n] + [b[n]];
      assert b == b[..n] + [b[n]];
      ObservedSnoc(router, b[..n], b[n], key);
    }
  }

  lemma {:induction false} SaysNothing(router: Router, key: GroupKey)
    ensures Observed(router, [], key) == [] && Related(router, [], key) == []
  {
  }

  lemma {:induction false} NothingSaid(row: Row)
    ensures SaidUnder([], row) == Said([], [])
  {
  }

  /** One group written. */
  lemma {:induction false} WriteGroup(content: map<Row, Said>, rows: map<Row, Said>, batch: seq<Request>, i: nat)
    requires i < |batch|
    requires forall row :: Lookup(rows, row) == Extend(Lookup(content, row), SaidUnder(batch[..i], row))
    ensures var h := Header(batch[i]);
      var next := rows[h := Extend(Lookup(rows, h), Said(batch[i].observations, batch[i].relations))];
      forall row :: Lookup(next, row) == Extend(Lookup(content, row), SaidUnder(batch[..i + 1], row))
  {
    hide SaidUnder;
    assert batch[..i + 1] == batch[..i] + [batch[i]];
    forall row {
      SaidSnoc(batch[..i], batch[i], row);
    }
  }

  /** The rows after every group of a batch has been written, in order. */
  method WriteGroups(content: map<Row, Said>, batch: seq<Request>) returns (rows: map<Row, Said>)
    ensures forall row :: Lookup(rows, row) == Extend(Lookup(content, row), SaidUnder(batch, row))
  {
    hide SaidUnder;
    rows := content;
    forall row {
      NothingSaid(row);
    }
    assert batch[..0] == [];
    var i := 0;
    while i < |batch|
      invariant i <= |batch|
      invariant forall row :: Lookup(rows, row) == Extend(Lookup(content, row), SaidUnder(batch[..i], row))
    {
      WriteGroup(content, rows, batch, i);
      var row := Header(batch[i]);
      rows := rows[row := Extend(Lookup(rows, row), Said(batch[i].observations, batch[i].relations))];
      i := i + 1;
    }
    assert batch[..|batch|] == batch;
  }

  /** `groups` are the entries applied, grouped one way or another: they say the
      same under every key, and under no header that was not submitted. */
  ghost predicate Regroups(router: Router, groups: seq<Request>, applied: seq<Entry>) {
    SameContent(router, groups, Reqs(applied)) && Headers(groups) <= Headers(Reqs(applied))
  }

  /** Batches that regroup what they apply, one after the other. */
  lemma {:induction false} RegroupsConcat(router: Router, groups: seq<Request>, log: seq<Commit>, batch: seq<Request>,
                                          c: Commit)
    requires Regroups(router, groups, Applied(log)) && Regroups(router, batch, c.applied)
    ensures Regroups(router, groups + batch, Applied(log + [c]))
    ensures Checkpoint(log + [c]) == Max(Checkpoint(log), c.checkpoint)
  {
    hide Observed, Related, Applied;
    LogSnoc(log, c);
    var before, now := Reqs(Applied(log)), Reqs(c.applied);
    assert Reqs(Applied(log + [c])) == before + now;
    forall key
      ensures Observed(router, groups + batch, key) == Observed(router, before + now, key)
      ensures Related(router, groups + batch, key) == Related(router, before + now, key)
    {
      ContentConcat(router, groups, batch, key);
      ContentConcat(router, before, now, key);
    }
    HeadersConcat(groups, batch);
    HeadersConcat(before, now);
  }

  lemma {:induction false} HeadersConcat(a: seq<Request>, b: seq<Request>)
    ensures Headers(a + b) == Headers(a) + Headers(b)
  {
    assert forall i :: 0 <= i < |a| ==> (a + b)[i] == a[i];
    assert forall i :: 0 <= i < |b| ==> (a + b)[|a| + i] == b[i];
  }

  lemma {:induction false} RowsExtend(content: map<Row, Said>, rows: map<Row, Said>, groups: seq<Request>,
                                      batch: seq<Request>)
    requires forall row :: Lookup(content, row) == SaidUnder(groups, row)
    requires forall row :: Lookup(rows, row) == Extend(Lookup(content, row), SaidUnder(batch, row))
    ensures forall row :: Lookup(rows, row) == SaidUnder(groups + batch, row)
  {
    hide SaidUnder;
    forall row {
      SaidConcat(groups, batch, row);
    }
  }

  // ---------------------------------------------------------------------
  // Grouping and spelling
  // ---------------------------------------------------------------------

  function KeyOfRow(router: Router, row: Row): GroupKey { GroupKey(router.lower(row.0), row.1, row.2) }

  /** If every request of a key carries the header `row`, the row says what the key
      says. */
  lemma {:induction false} RowOfKey(router: Router, reqs: seq<Request>, row: Row)
    requires forall i :: 0 <= i < |reqs| && KeyOf(router, reqs[i]) == KeyOfRow(router, row) ==> Header(reqs[i]) == row
    ensures SaidUnder(reqs, row)
         == Said(Observed(router, reqs, KeyOfRow(router, row)), Related(router, reqs, KeyOfRow(router, row)))
    decreases |reqs|
  {
    if reqs != [] {
      var n := |reqs| - 1;
      RowOfKey(router, reqs[..n], row);
      assert reqs == reqs[..n] + [reqs[n]];
      SaidSnoc(reqs[..n], reqs[n], row);
      ObservedSnoc(router, reqs[..n], reqs[n], KeyOfRow(router, row));
      assert Header(reqs[n]) == row ==> KeyOf(router, reqs[n]) == KeyOfRow(router, row);
    }
  }

  lemma {:induction false} RowAbsent(reqs: seq<Request>, row: Row)
    requires row !in Headers(reqs)
    ensures SaidUnder(reqs, row) == Said([], [])
    decreases |reqs|
  {
    if reqs != [] {
      var n := |reqs| - 1;
      assert forall i :: 0 <= i < n ==> reqs[..n][i] == reqs[i];
      RowAbsent(reqs[..n], row);
      InHeaders(reqs, n);
    }
  }

  /** As long as every entity is spelled in one way, grouping is invisible: the rows
      are those of a store that applied the requests one by one. */
  lemma {:induction false} GroupingInvisible(router: Router, groups: seq<Request>, applied: seq<Entry>, row: Row)
    requires Regroups(router, groups, applied) && OneSpelling(router, Reqs(applied))
    ensures SaidUnder(groups, row) == SaidUnder(Reqs(applied), row)
  {
    hide SaidUnder, Observed, Related;
    var reqs := Reqs(applied);
    if row in Headers(reqs) {
      var j :| 0 <= j < |reqs| && Header(reqs[j]) == row;
      forall i | 0 <= i < |reqs| && KeyOf(router, reqs[i]) == KeyOfRow(router, row) ensures Header(reqs[i]) == row {
        assert KeyOf(router, reqs[i]) == KeyOf(router, reqs[j]);
        assert i < j || i == j || j < i;
      }
      forall i | 0 <= i < |groups| && KeyOf(router, groups[i]) == KeyOfRow(router, row)
        ensures Header(groups[i]) == row
      {
        InHeaders(groups, i);
        var k :| 0 <= k < |reqs| && Header(reqs[k]) == Header(groups[i]);
        assert KeyOf(router, reqs[k]) == KeyOfRow(router, row);
      }
      RowOfKey(router, reqs, row);
      RowOfKey(router, groups, row);
    } else {
      RowAbsent(reqs, row);
      RowAbsent(groups, row);
    }
  }

  /** The home database of a shard. */
  class HomeStore {
    var content: map<Row, Said>
    var checkpoint: nat
    ghost var groups: seq<Request>
    ghost var log: seq<Commit>
    ghost var walBase: nat

    /** The rows are exactly what the committed groups say, each once and in order;
        the groups regroup the committed entries; and the checkpoint row is that of
        the log. */
    ghost predicate Faithful(router: Router)
      reads this
    {
      && checkpoint == Checkpoint(log)
      && (forall row :: Lookup(content, row) == SaidUnder(groups, row))
      && Regroups(router, groups, Applied(log))
    }

    constructor ()
      ensures content == map[] && checkpoint == 0 && groups == [] && log == [] && walBase == 0
    {
      content, checkpoint, groups, log, walBase := map[], 0, [], [], 0;
    }

    /** One transaction: all groups and the checkpoint, or nothing.  The batch may
        be any regrouping of the entries it applies.  After the commit a batch that
        is not empty is marked in the index tables, and if that fails the caller gets
        an error all the same. */
    method RememberBatch(router: Router, batch: seq<Request>, ghost applied: seq<Entry>, mark: nat, verdict: Verdict)
      returns (ok: bool)
      requires Faithful(router) && Regroups(router, batch, applied)
      modifies this
      ensures Faithful(router) && walBase == old(walBase)
      ensures ok <==> verdict == Committed || (verdict == LateError && batch == [])
      ensures log == if verdict == RolledBack then old(log) else old(log) + [Commit(applied, mark)]
      ensures groups == if verdict == RolledBack then old(groups) else old(groups) + batch
    {
      hide Observed, Related, Applied, Checkpoint, SameContent, SaidUnder, Regroups;
      if verdict == RolledBack {
        return false;
      }
      content := WriteGroups(content, batch);
      checkpoint := Max(checkpoint, mark);
      RowsExtend(old(content), content, groups, batch);
      RegroupsConcat(router, groups, log, batch, Commit(applied, mark));
      groups := groups + batch;
      log := log + [Commit(applied, mark)];
      ok := batch == [] || verdict == Committed;
    }
  }

  // ---------------------------------------------------------------------
  // The shard
  // ---------------------------------------------------------------------

  /** `ops`, in order, lead from `a` to `b`. */
  ghost predicate Performs(a: Shard, ops: seq<Op>, b: Shard) {
    Orderly(a, ops) && Final(a, ops) == b
  }

  lemma {:induction false} PerformsNothing(a: Shard)
    ensures Performs(a, [], a)
  {
  }

  /** How many leading attempts resolved their request. */
  function Resolved(attempts: seq<Attempt>): (n: nat)
    ensures n <= |attempts|
    ensures forall i :: 0 <= i < n ==> !Stops(attempts[i])
    ensures n < |attempts| ==> Stops(attempts[n])
  {
    if attempts == [] || Stops(attempts[0]) then 0 else 1 + Resolved(attempts[1..])
  }

  /** The outcomes of one drain commit nothing after a late error: `tainted` says
      whether the process has seen one before. */
  predicate Trusted(tainted: bool, batch: Verdict, attempts: seq<Attempt>) {
    if tainted then batch == RolledBack && (attempts != [] ==> attempts[0] == StoreDown)
    else
      match batch
      case Committed => true
      case RolledBack => LateRefused !in attempts
      case LateError => attempts != [] ==> attempts[0] == StoreDown
  }

  /** What the fallback makes of a drained batch: a prefix is resolved in order, the
      watermark moves by as many numbers, and the rest is queued again. */
  ghost predicate FellBack(drained: seq<Entry>, attempts: seq<Attempt>, durable: nat, failures: set<nat>,
                           applied: seq<Entry>, queueAfter: seq<Entry>, durableAfter: nat, failuresAfter: set<nat>,
                           appliedAfter: seq<Entry>)
    requires |drained| <= |attempts|
  {
    var n := Resolved(attempts[..|drained|]);
    && queueAfter == drained[n..]
    && durableAfter == durable + n
    && failuresAfter == failures + Refusals(drained[..n], attempts[..n])
    && appliedAfter == applied + Kept(drained[..n], attempts[..n]) + Orphan(drained, attempts, n)
  }

  class LiveShard {
    const router: Router
    const capacity: nat
    const home: HomeStore
    var mode: Mode
    var queue: seq<Entry>
    var nextSeq: nat
    var buffered: seq<Token>
    var durable: nat
    var failures: set<nat>
    var file: seq<Token>
    ghost var tainted: bool
    ghost var synced: nat
    ghost var bootSeq: nat
    ghost var accepted: seq<Entry>
    ghost var reclaimed: nat
    ghost var stale: seq<Entry>
    ghost var promised: nat

    ghost function View(): Shard
      reads this, home
    {
      Shard(mode, queue, nextSeq, buffered, durable, failures, Idle, Resting, tainted, bootSeq,
            file, synced, home.log, home.walBase, accepted, reclaimed, stale, promised)
    }

    /** What holds after any calls at all.  Whether `Inv(View())` holds too is a matter
        of what went wrong before: each method says when it keeps it. */
    ghost predicate Valid()
      reads this, home
    {
      MemoryInv(View()) && home.Faithful(router)
    }

    /** A shard that has never run. */
    constructor (router: Router, capacity: nat)
      ensures Valid() && View() == FRESH && Inv(View()) && this.router == router
      ensures this.capacity == if capacity == 0 then 1 else capacity
    {
      this.router := router;
      this.capacity := if capacity == 0 then 1 else capacity;
      home := new HomeStore();
      mode, queue, nextSeq, buffered, durable, failures, file := Down, [], 0, [], 0, {}, [];
      tainted, synced, bootSeq, accepted, reclaimed, stale, promised := false, 0, 0, [], 0, [], 0;
      new;
      FreshInv();
      FreshMemory();
      NothingWritten(router);
    }

    /** Open the shard: apply every journalled request above the checkpoint in one
        transaction and continue the numbering.  When that transaction reports an
        error the shard stays closed; whatever it did, the next start continues from
        there. */
    method Start(verdict: Verdict) returns (started: bool, replayed: nat)
      requires Valid() && mode == Down
      modifies this, home
      ensures Valid() && View() == Apply(old(View()), Restart(verdict))
      ensures started <==> mode == Booting
      ensures var pending := Above(Read(old(file)), Checkpoint(old(home.log)));
        && (started <==> verdict == Committed || pending == [])
        && (started ==> replayed == |pending| && durable == nextSeq == home.checkpoint)
        && (verdict != RolledBack ==> Applied(home.log) == Applied(old(home.log)) + pending)
        && (old(Inv(View())) ==> Inv(View()) && pending == old(accepted)[Checkpoint(old(home.log))..])
      ensures !started ==> View() == old(View()).(log := home.log)
    {
      hide Read, Render, Holds, LogOk, Checkpoint, Applied, Above, HighestSeq, Observed, Related, Inv, Apply, SaidUnder,
           Regroups, MemoryInv, Lookup;
      ghost var was := View();
      var last, pending, maxPending := Scan(file, home.checkpoint);
      StartShape(was, verdict, home.checkpoint);
      replayed := |pending|;
      started := true;
      if pending != [] {
        var batch := Reqs(pending);
        SameSelf(router, pending);
        started := home.RememberBatch(router, batch, pending, maxPending, verdict);
        if !started {
          return;
        }
      }
      mode, nextSeq, durable := Booting, last, last;
      bootSeq := last;
    }

    method FinishStart()
      requires Valid() && mode == Booting
      modifies this
      ensures View() == Apply(old(View()), FinishBoot)
      ensures Valid() && (old(Inv(View())) ==> Inv(View()))
    {
      hide Inv, MemoryInv, Lookup, SaidUnder, Regroups, Checkpoint, Applied;
      Booted(View());
      mode := Serving;
    }

    /** Admit a request unless the queue is full.  `spill` is how much of the
        journal writer's buffer the append pushes out to the file. */
    method TrySubmit(req: Request, spill: nat) returns (ticket: nat)
      requires Valid() && mode == Serving && |queue| < capacity
      requires spill <= |buffered| + 2
      modifies this
      ensures View() == Apply(old(View()), Submit(req, spill))
      ensures Valid() && (old(Inv(View())) && AtLineStart(old(View()).Written()) ==> Inv(View()))
      ensures ticket == old(nextSeq) + 1 && queue == old(queue) + [Entry(ticket, req)]
    {
      hide Read, Render, Holds, LogOk, Checkpoint, Inv, MemoryInv, AtLineStart;
      ghost var was := View();
      nextSeq := nextSeq + 1;
      ticket := nextSeq;
      var e := Entry(nextSeq, req);
      var tokens := buffered + [Body(e), Newline];
      file, buffered := file + tokens[..spill], tokens[spill..];
      queue := queue + [e];
      accepted := accepted + [e];
      assert View() == Apply(was, Submit(req, spill));
      StepMemory(was, Submit(req, spill));
      if Inv(was) && AtLineStart(was.Written()) {
        StepInv(was, Submit(req, spill));
      }
    }

    /** The terminal outcome of a ticket, if it has one yet. */
    method WaitResult(ticket: nat) returns (outcome: Outcome)
      requires Valid() && mode == Serving && bootSeq < ticket <= nextSeq
      ensures outcome == Waiting <==> durable < ticket
      ensures 0 <= Admitted(View()) <= |accepted| && Own(View())[ticket - bootSeq - 1].num == ticket
      ensures outcome == Durable ==> Own(View())[ticket - bootSeq - 1] in Applied(home.log)
      ensures outcome == Failed ==> ticket in Rejected(home.log)
      ensures Inv(View()) ==>
        && (outcome == Durable <==> ticket <= durable && accepted[ticket - 1] in Applied(home.log))
        && (outcome == Failed <==> ticket <= durable && ticket in Rejected(home.log))
    {
      hide Inv, Applied, Rejected, Checkpoint;
      TicketIsHonest(View(), ticket);
      if Inv(View()) {
        TicketOutcome(View(), ticket);
      }
      if durable < ticket {
        outcome := Waiting;
      } else if ticket in failures {
        outcome := Failed;
      } else {
        outcome := Durable;
      }
    }

    /** Take what is queued, hand the journal to the system and sync it. */
    method TakeSynced() returns (drained: seq<Entry>, ghost ops: seq<Op>)
      requires Valid() && mode == Serving && queue != []
      modifies this`file, this`buffered, this`queue, this`synced
      ensures drained == old(queue) && queue == []
      ensures var m := View().(drain := Synced(drained));
        MemoryInv(m) && Performs(old(View()), ops, m) && (old(Inv(View())) ==> Inv(m))
    {
      hide Inv, MemoryInv, Performs;
      ghost var was := View();
      PerformsNothing(was);
      drained := queue;
      ghost var m := DoTake(was, [], was);
      ops := [] + [TakeQueue];
      file, buffered, queue := file + buffered, [], [];
      m := DoSync(was, ops, m);
      ops := ops + [SyncJournal];
      synced := |file|;
      assert m == View().(drain := Synced(drained));
    }

    /** Commit what was taken, and publish it if the commit goes through. */
    method CommitTaken(drained: seq<Entry>, batch: Verdict, ghost was: Shard, ghost before: seq<Op>)
      returns (committed: bool, ghost ops: seq<Op>)
      requires home.Faithful(router) && drained != []
      requires MemoryInv(View().(drain := Synced(drained)))
      requires Performs(was, before, View().(drain := Synced(drained)))
      modifies this`tainted, this`durable, this`promised, home
      ensures home.Faithful(router) && (committed <==> batch == Committed)
      ensures tainted == (old(tainted) || batch == LateError)
      ensures durable == if committed then Max(old(durable), drained[|drained| - 1].num) else old(durable)
      ensures Applied(home.log) == Applied(old(home.log)) + if batch == RolledBack then [] else drained
      ensures var m := View().(drain := if committed then Idle else Retrying(drained, 0, 0));
        && Performs(was, ops, m) && MemoryInv(m)
        && (old(Inv(View().(drain := Synced(drained)))) && (old(tainted) ==> batch == RolledBack) ==> Inv(m))
    {
      hide Applied, Performs, Inv, MemoryInv, HomeStore.Faithful, Checkpoint, OneSpelling, SaidUnder, Lookup, Reqs;
      var maxSeq := drained[|drained| - 1].num;
      ghost var m := DoCommit(was, before, View().(drain := Synced(drained)), batch);
      ops := before + [CommitBatch(batch)];
      LogSnoc(home.log, Commit(drained, maxSeq));
      assert Applied(home.log) + [] == Applied(home.log);
      committed := CommitGrouped(drained, maxSeq, batch);
      tainted := tainted || batch == LateError;
      if committed {
        m := DoPublish(was, ops, m);
        ops := ops + [Publish];
        durable := Max(durable, maxSeq);
        promised := Max(promised, durable);
      }
      assert m == View().(drain := if committed then Idle else Retrying(drained, 0, 0));
    }

    /** One drain.  `batch` says how the grouped transaction ends; if it reports an
        error, `attempts` are the outcomes of the sequential retries.  Either
        everything that was queued is committed and published, or every request
        before the first that stops the fallback is resolved on its own, in order,
        and the rest is queued again in front.  What the database then holds is
        stated for late errors too. */
    method Drain(batch: Verdict, attempts: seq<Attempt>) returns (ghost ops: seq<Op>)
      requires Valid() && mode == Serving
      requires |attempts| >= |queue|
      modifies this, home
      ensures accepted == old(accepted) && nextSeq == old(nextSeq) && mode == Serving
      ensures batch == Committed ==>
        && queue == [] && durable == nextSeq && failures == old(failures)
        && Applied(home.log) == Applied(old(home.log)) + old(queue)
      ensures batch != Committed ==>
        FellBack(old(queue), attempts, old(durable), old(failures),
                 Applied(old(home.log)) + (if batch == LateError then old(queue) else []),
                 queue, durable, failures, Applied(home.log))
      ensures Performs(old(View()), ops, View()) && Valid()
      ensures old(Inv(View())) && Trusted(old(tainted), batch, attempts[..|old(queue)|]) ==> Inv(View())
    {
      hide Read, Render, Holds, LogOk, Checkpoint, Observed, Related, Halted, Applied, Rejected,
           SameContent, Performs, Inv, MemoryInv, Apply, Enabled, Kept, Refusals, HomeStore.Faithful, Reqs, Orphan,
           Resolved;
      ghost var was := View();
      IdleQueue(was);
      if queue == [] {
        ops := [];
        PerformsNothing(was);
        EmptyDrain(was, attempts);
        assert attempts[..0] == [] && queue[..0] == [];
        return;
      }
      var drained;
      drained, ops := TakeSynced();
      var committed;
      committed, ops := CommitTaken(drained, batch, was, ops);
      if committed {
        assert View() == View().(drain := Idle);
      } else {
        ops := RetrySequentially(drained, attempts, was, ops,
                                 Inv(was) && Trusted(was.tainted, batch, attempts[..|drained|]));
      }
    }

    /** One maintenance pass over this shard: note the watermark, checkpoint the
        write-ahead log, and truncate the journal if the checkpoint was complete,
        nothing is queued and no number was issued past the noted watermark. */
    method Maintain(complete: bool) returns (truncated: bool, ghost ops: seq<Op>)
      requires Valid() && mode != Down
      modifies this, home`walBase
      ensures Valid() && Performs(old(View()), ops, View()) && (old(Inv(View())) ==> Inv(View()))
      ensures truncated <==> complete && old(queue) == [] && old(nextSeq) == old(durable)
      ensures file == if truncated then [] else old(file)
      ensures home.log == old(home.log) && (complete ==> home.walBase == |home.log|)
      ensures truncated ==> Drained(View()) && BaseCheckpoint(View()) == nextSeq
      ensures truncated && Inv(View()) ==> nextSeq == |accepted|
      ensures queue == old(queue) && nextSeq == old(nextSeq) && durable == old(durable)
    {
      hide Read, Checkpoint, Applied, Performs, Inv, MemoryInv, Drained, BaseCheckpoint, Regroups, SaidUnder, Lookup;
      ghost var m;
      ops, m := DoMaintain(View(), complete);
      var watermark := durable;
      truncated := false;
      if complete {
        home.walBase := |home.log|;
        if queue == [] && nextSeq == watermark {
          file, buffered, truncated := [], [], true;
          synced, reclaimed, stale := 0, |accepted|, [];
        }
      }
      assert View() == m;
    }

    /** Group the drained requests and commit them as one transaction. */
    method CommitGrouped(drained: seq<Entry>, maxSeq: nat, verdict: Verdict) returns (committed: bool)
      requires home.Faithful(router) && drained != []
      modifies home
      ensures home.Faithful(router) && home.walBase == old(home.walBase)
      ensures committed <==> verdict == Committed
      ensures home.log == if verdict == RolledBack then old(home.log) else old(home.log) + [Commit(drained, maxSeq)]
      ensures OneSpelling(router, Reqs(Applied(home.log))) ==>
        forall row :: Lookup(home.content, row) == SaidUnder(Reqs(Applied(home.log)), row)
    {
      hide Observed, Related, SaidUnder, Applied, SameContent, Headers, OneSpelling, DistinctKeys, Checkpoint;
      var batch := GroupDrained(router, Reqs(drained));
      GroupsExist(router, batch, drained);
      committed := home.RememberBatch(router, batch, drained, maxSeq, verdict);
      if OneSpelling(router, Reqs(Applied(home.log))) {
        forall row {
          GroupingInvisible(router, home.groups, Applied(home.log), row);
        }
      }
    }

    /** One sequential retry: the request with its checkpoint, or, if that reports an
        error, the checkpoint alone and a recorded failure. */
    method RetryRequest(e: Entry, attempt: Attempt) returns (resolved: bool)
      requires home.Faithful(router)
      modifies this`failures, home
      ensures resolved <==> !Stops(attempt)
      ensures home.Faithful(router) && home.walBase == old(home.walBase)
      ensures home.log == match attempt
        case Stored => old(home.log) + [Commit([e], e.num)]
        case Refused => old(home.log) + [Commit([], e.num)]
        case StoreDown => old(home.log)
        case LateRefused => old(home.log) + [Commit([e], e.num)] + [Commit([], e.num)]
        case LateDown => old(home.log) + [Commit([e], e.num)]
      ensures failures == old(failures) + if Refuses(attempt) then {e.num} else {}
    {
      hide HomeStore.Faithful, Regroups, Applied, Checkpoint, SaidUnder, Lookup, Reqs;
      SingleReq(router, e);
      var first := if attempt == Stored then Committed else if Stores(attempt) then LateError else RolledBack;
      var stored := home.RememberBatch(router, [e.req], [e], e.num, first);
      if stored {
        return true;
      }
      var marked := home.RememberBatch(router, [], [], e.num, if Refuses(attempt) then Committed else RolledBack);
      if marked {
        failures := failures + {e.num};
      }
      return marked;
    }

    /** The fallback after a batch that reported an error: the original requests one
        by one, each in one transaction with its own checkpoint.  `trusted` says that
        nothing is committed after a late error. */
    method RetrySequentially(drained: seq<Entry>, attempts: seq<Attempt>, ghost was: Shard, ghost before: seq<Op>,
                             ghost trusted: bool)
      returns (ghost ops: seq<Op>)
      requires mode == Serving && 0 < |drained| <= |attempts| && queue == []
      requires home.Faithful(router)
      requires MemoryInv(View().(drain := Retrying(drained, 0, 0)))
      requires trusted ==> Inv(View().(drain := Retrying(drained, 0, 0)))
      requires trusted ==> if tainted then attempts[0] == StoreDown else LateRefused !in attempts[..|drained|]
      requires Performs(was, before, View().(drain := Retrying(drained, 0, 0)))
      requires Numbered(drained, durable + 1)
      modifies this, home
      ensures accepted == old(accepted) && nextSeq == old(nextSeq) && mode == Serving
      ensures FellBack(drained, attempts, old(durable), old(failures), Applied(old(home.log)), queue, durable, failures,
                       Applied(home.log))
      ensures Performs(was, ops, View()) && Valid() && (trusted ==> Inv(View()))
    {
      hide Read, Render, Holds, LogOk, Checkpoint, Halted, Applied, Rejected,
           Performs, Inv, MemoryInv, Apply, Enabled, Kept, Refusals, HomeStore.Faithful, Resolved, Orphan;
      var position;
      position, ops := RetryLoop(drained, attempts, was, before, trusted);
      ghost var m := View().(drain := Ending(drained, position));
      if position == |drained| {
        m := View().(drain := Retrying(drained, position, drained[position - 1].num));
        m := DoFinishRetry(was, ops, m);
        ops := ops + [FinishRetry];
      }
      if position > 0 {
        m := DoPublish(was, ops, m);
        ops := ops + [Publish];
        durable := Max(durable, drained[position - 1].num);
        promised := Max(promised, durable);
      }
      assert m == View();
    }

    /** One turn of the retry loop; it puts the rest back in front of the queue if the
        store cannot resolve the request. */
    method RetryTurn(drained: seq<Entry>, position: nat, attempt: Attempt, ghost was: Shard, ghost before: seq<Op>,
                     ghost trusted: bool)
      returns (resolved: bool, ghost ops: seq<Op>)
      requires position < |drained| && queue == [] && home.Faithful(router)
      requires Performs(was, before, View().(drain := Midway(drained, position)))
      requires MemoryInv(View().(drain := Midway(drained, position)))
      requires trusted ==>
        && Inv(View().(drain := Midway(drained, position)))
        && attempt != LateRefused && (tainted ==> attempt == StoreDown)
      modifies this`queue, this`failures, this`tainted, home
      ensures home.Faithful(router) && (resolved <==> !Stops(attempt))
      ensures queue == if resolved then [] else drained[position..]
      ensures tainted == (old(tainted) || Late(RetryOne(attempt)))
      ensures failures == old(failures) + if Refuses(attempt) then {drained[position].num} else {}
      ensures Applied(home.log) == Applied(old(home.log)) + if Stores(attempt) then [drained[position]] else []
      ensures var m := View().(drain := if resolved then Midway(drained, position + 1) else Ending(drained, position));
        Performs(was, ops, m) && MemoryInv(m) && (trusted ==> Inv(m))
    {
      hide Applied, Performs, Inv, MemoryInv, HomeStore.Faithful, Checkpoint, Halted, Read, Enabled, Apply;
      var e := drained[position];
      ghost var m := DoRetry(was, before, View().(drain := Midway(drained, position)), attempt);
      ops := before + [RetryOne(attempt)];
      RetriedLog(home.log, e);
      resolved := RetryRequest(e, attempt);
      tainted := tainted || Late(RetryOne(attempt));
      if !resolved {
        queue := drained[position..] + queue;
      }
      assert m.log == home.log && m.failures == failures && m.queue == queue && m.tainted == tainted;
      assert m == View().(drain := if resolved then Midway(drained, position + 1) else Ending(drained, position));
    }

    /** The retry loop; it stops at the first request the store cannot resolve. */
    method RetryLoop(drained: seq<Entry>, attempts: seq<Attempt>, ghost was: Shard, ghost before: seq<Op>,
                     ghost trusted: bool)
      returns (position: nat, ghost ops: seq<Op>)
      requires mode == Serving && 0 < |drained| <= |attempts| && queue == []
      requires home.Faithful(router)
      requires MemoryInv(View().(drain := Retrying(drained, 0, 0)))
      requires trusted ==> Inv(View().(drain := Retrying(drained, 0, 0)))
      requires trusted ==> if tainted then attempts[0] == StoreDown else LateRefused !in attempts[..|drained|]
      requires Performs(was, before, View().(drain := Retrying(drained, 0, 0)))
      modifies this`queue, this`failures, this`tainted, home
      ensures home.Faithful(router)
      ensures position == Resolved(attempts[..|drained|]) <= |drained|
      ensures queue == drained[position..]
      ensures failures == old(failures) + Refusals(drained[..position], attempts[..position])
      ensures Applied(home.log) == Applied(old(home.log)) + Kept(drained[..position], attempts[..position])
                                   + Orphan(drained, attempts, position)
      ensures var m := View().(drain := if position == |drained|
                                        then Retrying(drained, position, drained[position - 1].num)
                                        else Ending(drained, position));
        Performs(was, ops, m) && MemoryInv(m) && (trusted ==> Inv(m))
    {
      hide Read, Render, Holds, LogOk, Checkpoint, Halted, Applied, Rejected, View, Ending,
           Performs, Inv, MemoryInv, Apply, Enabled, Kept, Refusals, HomeStore.Faithful, Resolved, Orphan;
      ops, position := before, 0;
      ghost var last: seq<Entry> := [];
      NothingKept(home.log, failures);
      assert drained[..0] == [] && attempts[..0] == [];
      while position < |drained|
        invariant position <= |drained|
        invariant home.Faithful(router) && queue == []
        invariant MemoryInv(View().(drain := Midway(drained, position)))
        invariant trusted ==> Inv(View().(drain := Midway(drained, position)))
        invariant trusted && tainted ==> position == 0 && attempts[0] == StoreDown
        invariant Performs(was, ops, View().(drain := Midway(drained, position)))
        invariant forall i :: 0 <= i < position ==> !Stops(attempts[i])
        invariant failures == old(failures) + Refusals(drained[..position], attempts[..position])
        invariant Applied(home.log) == Applied(old(home.log)) + Kept(drained[..position], attempts[..position])
        invariant last == []
      {
        assert attempts[position] == attempts[..|drained|][position];
        KeptSnoc(drained, attempts, position);
        var resolved;
        resolved, ops := RetryTurn(drained, position, attempts[position], was, ops, trusted);
        if !resolved {
          last := if attempts[position] == LateDown then [drained[position]] else [];
          break;
        }
        position := position + 1;
      }
      ResolvedIs(attempts[..|drained|], position);
      OrphanIs(drained, attempts, position, last);
    }
  }

  /** Drain control in the middle of the retry loop. */
  function Midway(drained: seq<Entry>, position: nat): Drain
    requires position <= |drained|
  {
    Retrying(drained, position, if position == 0 then 0 else drained[position - 1].num)
  }

  /** Drain control when the retry loop has stopped short. */
  function Ending(drained: seq<Entry>, position: nat): Drain
    requires position <= |drained|
  {
    if position > 0 && drained[position - 1].num > 0 then Publishing(drained[position - 1].num) else Idle
  }

  lemma {:induction false} ResolvedIs(attempts: seq<Attempt>, n: nat)
    requires n <= |attempts| && (forall i :: 0 <= i < n ==> !Stops(attempts[i]))
    requires n < |attempts| ==> Stops(attempts[n])
    ensures Resolved(attempts) == n
    decreases n
  {
    if n > 0 {
      ResolvedIs(attempts[1..], n - 1);
    }
  }

  /** The request whose retry stopped the fallback, if it is in the database. */
  function Orphan(entries: seq<Entry>, attempts: seq<Attempt>, n: nat): seq<Entry>
    requires |entries| <= |attempts|
  {
    if n < |entries| && attempts[n] == LateDown then [entries[n]] else []
  }

  lemma {:induction false} OrphanIs(entries: seq<Entry>, attempts: seq<Attempt>, n: nat, last: seq<Entry>)
    requires |entries| <= |attempts|
    requires last == if n < |entries| && attempts[n] == LateDown then [entries[n]] else []
    ensures Orphan(entries, attempts, n) == last
  {
  }

  /** The entries whose retry put them into the database. */
  function Kept(entries: seq<Entry>, attempts: seq<Attempt>): seq<Entry>
    requires |entries| == |attempts|
  {
    if entries == [] then []
    else
      var n := |entries| - 1;
      Kept(entries[..n], attempts[..n]) + if Stores(attempts[n]) then [entries[n]] else []
  }

  /** The numbers whose retry was refused. */
  function Refusals(entries: seq<Entry>, attempts: seq<Attempt>): set<nat>
    requires |entries| == |attempts|
  {
    if entries == [] then {}
    else
      var n := |entries| - 1;
      Refusals(entries[..n], attempts[..n]) + if Refuses(attempts[n]) then {entries[n].num} else {}
  }

  lemma {:induction false} KeptSnoc(entries: seq<Entry>, attempts: seq<Attempt>, n: nat)
    requires n < |entries| <= |attempts|
    ensures Kept(entries[..n + 1], attempts[..n + 1])
         == Kept(entries[..n], attempts[..n]) + if Stores(attempts[n]) then [entries[n]] else []
    ensures Refusals(entries[..n + 1], attempts[..n + 1])
         == Refusals(entries[..n], attempts[..n]) + if Refuses(attempts[n]) then {entries[n].num} else {}
  {
    assert entries[..n + 1][..n] == entries[..n];
    assert attempts[..n + 1][..n] == attempts[..n];
  }

  lemma {:induction false} NothingKept(log: seq<Commit>, failures: set<nat>)
    ensures Applied(log) + Kept([], []) == Applied(log) && failures + Refusals([], []) == failures
  {
  }

  lemma {:induction false} SameSelf(router: Router, entries: seq<Entry>)
    ensures Regroups(router, Reqs(entries), entries)
  {
  }

  lemma {:induction false} SingleReq(router: Router, e: Entry)
    ensures Regroups(router, [e.req], [e]) && Regroups(router, [], [])
  {
    assert Reqs([e]) == [e.req];
    assert Reqs([]) == [];
  }

  lemma {:induction false} NothingWritten(router: Router)
    ensures Regroups(router, [], Applied([]))
    ensures forall row :: SaidUnder([], row) == Said([], [])
    ensures Checkpoint([]) == 0
  {
    assert Reqs([]) == [];
  }

  lemma {:induction false} GroupsExist(router: Router, batch: seq<Request>, drained: seq<Entry>)
    requires drained != [] && SameKeys(router, batch, Reqs(drained))
    ensures batch != []
  {
    assert KeyOf(router, Reqs(drained)[0]) == KeyOf(router, drained[0].req);
    assert HasKey(router, Reqs(drained), KeyOf(router, drained[0].req));
    assert HasKey(router, batch, KeyOf(router, drained[0].req));
  }

  /** What the commits of a retry add. */
  lemma {:induction false} RetriedLog(log: seq<Commit>, e: Entry)
    ensures Applied(log + [Commit([e], e.num)]) == Applied(log) + [e]
    ensures Applied(log + [Commit([], e.num)]) == Applied(log)
    ensures Applied(log + [Commit([e], e.num)] + [Commit([], e.num)]) == Applied(log) + [e]
  {
    hide Applied, Checkpoint, Rejected;
    LogSnoc(log, Commit([e], e.num));
    LogSnoc(log, Commit([], e.num));
    LogSnoc(log + [Commit([e], e.num)], Commit([], e.num));
  }

  /** What a restart makes of a stopped shard, in terms of what its scan finds. */
  lemma {:induction false} StartShape(s: Shard, verdict: Verdict, checkpoint: nat)
    requires MemoryInv(s) && s.mode == Down && checkpoint == Checkpoint(s.log)
    ensures
      var t := Apply(s, Restart(verdict));
      var last, pending := HighestSeq(Read(s.file), checkpoint), Above(Read(s.file), checkpoint);
      var log := if pending == [] || verdict == RolledBack then s.log else s.log + [Commit(pending, last)];
      && MemoryInv(t)
      && t == (if pending != [] && verdict != Committed then s.(log := log)
               else s.(mode := Booting, nextSeq := last, durable := last, bootSeq := last, log := log))
      && (verdict != RolledBack ==> Applied(log) == Applied(s.log) + pending)
      && (t.mode == Booting ==> Checkpoint(log) == last)
      && (Inv(s) ==> Inv(t) && pending == s.accepted[checkpoint..])
  {
    hide Read, Render, Holds, LogOk, Checkpoint, Applied, Above, HighestSeq, Inv;
    var last, pending := HighestSeq(Read(s.file), checkpoint), Above(Read(s.file), checkpoint);
    RestartMemory(s, verdict);
    LogSnoc(s.log, Commit(pending, last));
    if pending == [] {
      NothingAbove(Read(s.file), checkpoint);
      assert Applied(s.log) + [] == Applied(s.log);
    }
    if Inv(s) {
      RestartInv(s, verdict);
      Pending(s);
    }
  }

  lemma {:induction false} Booted(s: Shard)
    requires MemoryInv(s) && s.mode == Booting && s.upkeep == Resting
    ensures Enabled(s, FinishBoot) && Apply(s, FinishBoot) == s.(mode := Serving)
    ensures MemoryInv(s.(mode := Serving)) && (Inv(s) ==> Inv(s.(mode := Serving)))
  {
    hide Inv, MemoryInv;
    StepMemory(s, FinishBoot);
    if Inv(s) {
      StepInv(s, FinishBoot);
    }
  }

  /** A caught-up shard whose whole log is checkpointed has nothing left to lose. */
  lemma {:induction false} CoveredCut(s: Shard)
    requires MemoryInv(s) && s.mode != Down && s.durable == s.nextSeq && s.walBase == |s.log|
    ensures Drained(s) && BaseCheckpoint(s) == s.nextSeq
    ensures Inv(s) ==> s.nextSeq == |s.accepted|
  {
    hide MemoryInv, Read, Render, Holds, LogOk, Checkpoint, Applied, Rejected;
    CaughtUpIsDrained(s);
    assert s.log[..|s.log|] == s.log;
  }

  /** One machine step, with everything it keeps. */
  lemma {:induction false} Advance(was: Shard, ops: seq<Op>, m: Shard, op: Op) returns (next: Shard)
    requires Performs(was, ops, m) && Enabled(m, op) && Tidy(m, op)
    ensures next == Apply(m, op) && Performs(was, ops + [op], next)
    ensures MemoryInv(m) ==> MemoryInv(next)
    ensures Inv(m) && Sound(m, op) ==> Inv(next)
  {
    hide Inv, MemoryInv, Apply, Tidy, Sound, Orderly, Final;
    OrderlySnoc(was, ops, op);
    next := Apply(m, op);
    if MemoryInv(m) {
      StepMemory(m, op);
    }
    if Inv(m) && Sound(m, op) {
      StepInv(m, op);
    }
  }

  lemma {:induction false} DoTake(was: Shard, ops: seq<Op>, m: Shard) returns (next: Shard)
    requires Performs(was, ops, m) && m.mode == Serving && m.drain == Idle && m.queue != []
    ensures Performs(was, ops + [TakeQueue], next) && (MemoryInv(m) ==> MemoryInv(next)) && (Inv(m) ==> Inv(next))
    ensures next == m.(file := m.file + m.buffered, buffered := [], queue := [], drain := Taken(m.queue))
  {
    hide Inv, MemoryInv, Performs;
    next := Advance(was, ops, m, TakeQueue);
  }

  lemma {:induction false} DoSync(was: Shard, ops: seq<Op>, m: Shard) returns (next: Shard)
    requires Performs(was, ops, m) && m.drain.Taken?
    ensures Performs(was, ops + [SyncJournal], next) && (MemoryInv(m) ==> MemoryInv(next)) && (Inv(m) ==> Inv(next))
    ensures next == m.(synced := |m.file|, drain := Synced(m.drain.batch))
  {
    hide Inv, MemoryInv, Performs;
    next := Advance(was, ops, m, SyncJournal);
  }

  lemma {:induction false} DoCommit(was: Shard, ops: seq<Op>, m: Shard, verdict: Verdict) returns (next: Shard)
    requires Performs(was, ops, m) && m.drain.Synced? && m.drain.batch != []
    ensures Performs(was, ops + [CommitBatch(verdict)], next) && (MemoryInv(m) ==> MemoryInv(next))
    ensures Inv(m) && (m.tainted ==> verdict == RolledBack) ==> Inv(next)
    ensures var batch, maxSeq := m.drain.batch, m.drain.batch[|m.drain.batch| - 1].num;
      next == match verdict
        case Committed => m.(log := m.log + [Commit(batch, maxSeq)], drain := Publishing(maxSeq))
        case RolledBack => m.(drain := Retrying(batch, 0, 0))
        case LateError => m.(log := m.log + [Commit(batch, maxSeq)], drain := Retrying(batch, 0, 0), tainted := true)
  {
    hide Inv, MemoryInv, Performs;
    next := Advance(was, ops, m, CommitBatch(verdict));
  }

  lemma {:induction false} DoRetry(was: Shard, ops: seq<Op>, m: Shard, attempt: Attempt) returns (next: Shard)
    requires Performs(was, ops, m) && m.drain.Retrying? && m.drain.position < |m.drain.batch|
    ensures Performs(was, ops + [RetryOne(attempt)], next) && (MemoryInv(m) ==> MemoryInv(next))
    ensures Inv(m) && attempt != LateRefused && (m.tainted ==> attempt == StoreDown) ==> Inv(next)
    ensures var Retrying(batch, position, published) := m.drain;
      var e := batch[position];
      next == match attempt
        case Stored => m.(log := m.log + [Commit([e], e.num)], drain := Retrying(batch, position + 1, e.num))
        case Refused => m.(log := m.log + [Commit([], e.num)], failures := m.failures + {e.num},
                           drain := Retrying(batch, position + 1, e.num))
        case StoreDown => m.(queue := batch[position..] + m.queue,
                             drain := if published > 0 then Publishing(published) else Idle)
        case LateRefused => m.(log := m.log + [Commit([e], e.num)] + [Commit([], e.num)], tainted := true,
                               failures := m.failures + {e.num}, drain := Retrying(batch, position + 1, e.num))
        case LateDown => m.(log := m.log + [Commit([e], e.num)], tainted := true,
                            queue := batch[position..] + m.queue,
                            drain := if published > 0 then Publishing(published) else Idle)
  {
    hide Inv, MemoryInv, Performs;
    next := Advance(was, ops, m, RetryOne(attempt));
  }

  lemma {:induction false} DoFinishRetry(was: Shard, ops: seq<Op>, m: Shard) returns (next: Shard)
    requires Performs(was, ops, m) && m.drain.Retrying? && m.drain.position == |m.drain.batch|
    ensures Performs(was, ops + [FinishRetry], next) && (MemoryInv(m) ==> MemoryInv(next)) && (Inv(m) ==> Inv(next))
    ensures next == m.(drain := if m.drain.published > 0 then Publishing(m.drain.published) else Idle)
  {
    hide Inv, MemoryInv, Performs;
    next := Advance(was, ops, m, FinishRetry);
  }

  lemma {:induction false} DoSnapshot(was: Shard, ops: seq<Op>, m: Shard) returns (next: Shard)
    requires Performs(was, ops, m) && m.mode != Down && m.upkeep == Resting
    ensures Performs(was, ops + [Snapshot], next) && (MemoryInv(m) ==> MemoryInv(next)) && (Inv(m) ==> Inv(next))
    ensures next == m.(upkeep := Snapped(m.durable))
  {
    hide Inv, MemoryInv, Performs;
    next := Advance(was, ops, m, Snapshot);
  }

  lemma {:induction false} DoWalCheckpoint(was: Shard, ops: seq<Op>, m: Shard, complete: bool) returns (next: Shard)
    requires Performs(was, ops, m) && m.upkeep.Snapped?
    ensures Performs(was, ops + [WalCheckpoint(complete)], next)
    ensures (MemoryInv(m) ==> MemoryInv(next)) && (Inv(m) ==> Inv(next))
    ensures next == if complete then m.(walBase := |m.log|, upkeep := Covered(m.upkeep.watermark))
                    else m.(upkeep := Resting)
  {
    hide Inv, MemoryInv, Performs;
    next := Advance(was, ops, m, WalCheckpoint(complete));
  }

  lemma {:induction false} DoReclaim(was: Shard, ops: seq<Op>, m: Shard) returns (next: Shard)
    requires Performs(was, ops, m) && m.upkeep.Covered?
    ensures Performs(was, ops + [Reclaim], next) && (MemoryInv(m) ==> MemoryInv(next)) && (Inv(m) ==> Inv(next))
    ensures next == if m.queue == [] && m.nextSeq == m.upkeep.watermark
                    then m.(file := [], buffered := [], synced := 0, reclaimed := |m.accepted|, stale := [],
                            upkeep := Resting)
                    else m.(upkeep := Resting)
  {
    hide Inv, MemoryInv, Performs;
    next := Advance(was, ops, m, Reclaim);
  }

  /** What a whole maintenance pass makes of a resting shard. */
  lemma {:induction false} DoMaintain(was: Shard, complete: bool) returns (ops: seq<Op>, m: Shard)
    requires MemoryInv(was) && was.mode != Down && was.upkeep == Resting
    ensures Performs(was, ops, m) && MemoryInv(m) && (Inv(was) ==> Inv(m))
    ensures
      var quiet := was.queue == [] && was.nextSeq == was.durable;
      && (complete && quiet ==>
           && m == was.(walBase := |was.log|, file := [], buffered := [], synced := 0, reclaimed := |was.accepted|,
                        stale := [])
           && Drained(m) && BaseCheckpoint(m) == m.nextSeq && (Inv(m) ==> m.nextSeq == |m.accepted|))
      && (complete && !quiet ==> m == was.(walBase := |was.log|))
      && (!complete ==> m == was)
  {
    hide Inv, MemoryInv, Performs, Drained, BaseCheckpoint;
    PerformsNothing(was);
    m := DoSnapshot(was, [], was);
    ops := [] + [Snapshot];
    m := DoWalCheckpoint(was, ops, m, complete);
    ops := ops + [WalCheckpoint(complete)];
    if complete {
      m := DoReclaim(was, ops, m);
      ops := ops + [Reclaim];
      if was.queue == [] && was.nextSeq == was.durable {
        CoveredCut(m);
      }
    }
  }

  lemma {:induction false} DoPublish(was: Shard, ops: seq<Op>, m: Shard) returns (next: Shard)
    requires Performs(was, ops, m) && m.drain.Publishing?
    ensures Performs(was, ops + [Publish], next) && (MemoryInv(m) ==> MemoryInv(next)) && (Inv(m) ==> Inv(next))
    ensures var watermark := Max(m.durable, m.drain.upTo);
      next == m.(durable := watermark, drain := Idle, promised := Max(m.promised, watermark))
  {
    hide Inv, MemoryInv, Performs;
    next := Advance(was, ops, m, Publish);
  }

  lemma {:induction false} EmptyDrain(s: Shard, attempts: seq<Attempt>)
    ensures Applied(s.log) + [] == Applied(s.log)
    ensures Applied(s.log) + [] + Kept([], []) + Orphan([], attempts, 0) == Applied(s.log)
    ensures s.failures + Refusals([], []) == s.failures
    ensures Resolved([]) == 0
  {
  }
}
