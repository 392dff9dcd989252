/** Fan-out reads: each domain answers with its own best rows, and the facade merges
    the answers.  `rank` is whatever the rows are ordered by, best first. */
module FanOut {
  import opened Prelude

  /** Merges two lists, preferring the left one on ties. */
  function Merge<T>(rank: T -> int, a: seq<T>, b: seq<T>): seq<T> {
    if a == [] then b
    else if b == [] then a
    else if rank(a[0]) >= rank(b[0]) then [a[0]] + Merge(rank, a[1..], b)
    else [b[0]] + Merge(rank, a, b[1..])
  }

  /** The stable sort, best rank first. */
  function Sort<T>(rank: T -> int, s: seq<T>): seq<T> {
    if s == [] then [] else Merge(rank, Sort(rank, s[..|s| - 1]), [s[|s| - 1]])
  }

  function Take<T>(s: seq<T>, k: nat): seq<T> { if k <= |s| then s[..k] else s }

  function Concat<T>(lists: seq<seq<T>>): seq<T> {
    if lists == [] then [] else Concat(lists[..|lists| - 1]) + lists[|lists| - 1]
  }

  function Filter<T>(s: seq<T>, keep: T -> bool): seq<T> {
    if s == [] then []
    else Filter(s[..|s| - 1], keep) + if keep(s[|s| - 1]) then [s[|s| - 1]] else []
  }

  ghost predicate Sorted<T>(rank: T -> int, s: seq<T>) {
    forall i, j :: 0 <= i < j < |s| ==> rank(s[i]) >= rank(s[j])
  }

  // ---------------------------------------------------------------------
  // The stable sort
  // ---------------------------------------------------------------------

  lemma {:induction false} MergeSorted<T>(rank: T -> int, a: seq<T>, b: seq<T>)
    requires Sorted(rank, a) && Sorted(rank, b)
    ensures Sorted(rank, Merge(rank, a, b))
    decreases |a| + |b|
  {
    if a != [] && b != [] {
      if rank(a[0]) >= rank(b[0]) {
        MergeSorted(rank, a[1..], b);
        MergeMembers(rank, a[1..], b);
        SortedCons(rank, a[0], Merge(rank, a[1..], b));
      } else {
        MergeSorted(rank, a, b[1..]);
        MergeMembers(rank, a, b[1..]);
        SortedCons(rank, b[0], Merge(rank, a, b[1..]));
      }
    }
  }

  lemma {:induction false} SortedCons<T>(rank: T -> int, x: T, s: seq<T>)
    requires Sorted(rank, s) && forall y :: y in s ==> rank(x) >= rank(y)
    ensures Sorted(rank, [x] + s)
  {
  }

  lemma {:induction false} MergeMembers<T>(rank: T -> int, a: seq<T>, b: seq<T>)
    ensures forall x :: x in Merge(rank, a, b) ==> x in a || x in b
    decreases |a| + |b|
  {
    if a != [] && b != [] {
      if rank(a[0]) >= rank(b[0]) {
        MergeMembers(rank, a[1..], b);
      } else {
        MergeMembers(rank, a, b[1..]);
      }
    }
  }

  lemma {:induction false} CountHead<T>(s: seq<T>)
    requires s != []
    ensures multiset(s) == multiset{s[0]} + multiset(s[1..])
  {
    assert s == [s[0]] + s[1..];
  }

  lemma {:induction false} MergePermutes<T>(rank: T -> int, a: seq<T>, b: seq<T>)
    ensures multiset(Merge(rank, a, b)) == multiset(a) + multiset(b)
    decreases |a| + |b|
  {
    if a != [] && b != [] {
      if rank(a[0]) >= rank(b[0]) {
        MergePermutes(rank, a[1..], b);
        CountHead(a);
      } else {
        MergePermutes(rank, a, b[1..]);
        CountHead(b);
      }
    }
  }

  /** `Sort` sorts, loses nothing, and keeps rows of equal rank in order. */
  lemma {:induction false} SortSpec<T>(rank: T -> int, s: seq<T>, level: int)
    ensures Sorted(rank, Sort(rank, s)) && multiset(Sort(rank, s)) == multiset(s)
    ensures Filter(Sort(rank, s), (x: T) => rank(x) == level) == Filter(s, (x: T) => rank(x) == level)
    decreases |s|
  {
    if s != [] {
      var init, last := s[..|s| - 1], s[|s| - 1];
      SortSpec(rank, init, level);
      assert s == init + [last];
      MergeSorted(rank, Sort(rank, init), [last]);
      MergePermutes(rank, Sort(rank, init), [last]);
      MergeLevel(rank, Sort(rank, init), [last], level);
      FilterAppend(init, [last], (x: T) => rank(x) == level);
    }
  }

  lemma {:induction false} FilterAppend<T>(a: seq<T>, b: seq<T>, keep: T -> bool)
    ensures Filter(a + b, keep) == Filter(a, keep) + Filter(b, keep)
    decreases |b|
  {
    if b == [] {
      assert a + b == a;
    } else {
      var init, last := b[..|b| - 1], b[|b| - 1];
      FilterAppend(a, init, keep);
      assert (a + b)[..|a + b| - 1] == a + init;
    }
  }

  lemma {:induction false} FilterHead<T>(s: seq<T>, keep: T -> bool)
    requires s != []
    ensures Filter(s, keep) == (if keep(s[0]) then [s[0]] else []) + Filter(s[1..], keep)
  {
    assert s == [s[0]] + s[1..];
    FilterAppend([s[0]], s[1..], keep);
    assert [s[0]][..0] == [];
  }

  lemma {:induction false} NoneAtLevel<T>(rank: T -> int, s: seq<T>, level: int)
    requires forall x :: x in s ==> rank(x) != level
    ensures Filter(s, (x: T) => rank(x) == level) == []
    decreases |s|
  {
    if s != [] {
      NoneAtLevel(rank, s[..|s| - 1], level);
    }
  }

  lemma {:induction false} MergeLevel<T>(rank: T -> int, a: seq<T>, b: seq<T>, level: int)
    requires Sorted(rank, a) && Sorted(rank, b)
    ensures Filter(Merge(rank, a, b), (x: T) => rank(x) == level)
         == Filter(a, (x: T) => rank(x) == level) + Filter(b, (x: T) => rank(x) == level)
    decreases |a| + |b|
  {
    var at := (x: T) => rank(x) == level;
    if a != [] && b != [] {
      var m := Merge(rank, a, b);
      FilterHead(m, at);
      if rank(a[0]) >= rank(b[0]) {
        MergeLevel(rank, a[1..], b, level);
        FilterHead(a, at);
        assert m[1..] == Merge(rank, a[1..], b);
      } else {
        MergeLevel(rank, a, b[1..], level);
        FilterHead(b, at);
        assert m[1..] == Merge(rank, a, b[1..]);
        if at(b[0]) {
          NoneAtLevel(rank, a, level);
        }
      }
    }
  }

  // ---------------------------------------------------------------------
  // Merging what the domains return
  // ---------------------------------------------------------------------

  lemma {:induction false} MergeAssociates<T>(rank: T -> int, a: seq<T>, b: seq<T>, c: seq<T>)
    ensures Merge(rank, Merge(rank, a, b), c) == Merge(rank, a, Merge(rank, b, c))
    decreases |a| + |b| + |c|
  {
    if a != [] && b != [] && c != [] {
      var ab, bc := Merge(rank, a, b), Merge(rank, b, c);
      if rank(a[0]) >= rank(b[0]) {
        assert ab[1..] == Merge(rank, a[1..], b);
        if rank(a[0]) >= rank(c[0]) {
          MergeAssociates(rank, a[1..], b, c);
        } else {
          assert bc[1..] == Merge(rank, b, c[1..]);
          MergeAssociates(rank, a, b, c[1..]);
        }
      } else {
        assert ab[1..] == Merge(rank, a, b[1..]);
        if rank(b[0]) >= rank(c[0]) {
          assert bc[1..] == Merge(rank, b[1..], c);
          MergeAssociates(rank, a, b[1..], c);
        } else {
          assert bc[1..] == Merge(rank, b, c[1..]);
          MergeAssociates(rank, a, b, c[1..]);
        }
      }
    }
  }

  lemma {:induction false} SortAppend<T>(rank: T -> int, a: seq<T>, b: seq<T>)
    ensures Sort(rank, a + b) == Merge(rank, Sort(rank, a), Sort(rank, b))
    decreases |b|
  {
    if b == [] {
      assert a + b == a;
    } else {
      var init, last := b[..|b| - 1], b[|b| - 1];
      assert (a + b)[..|a + b| - 1] == a + init;
      SortAppend(rank, a, init);
      MergeAssociates(rank, Sort(rank, a), Sort(rank, init), [last]);
    }
  }

  /** A sorted list is left alone. */
  lemma {:induction false} SortSorted<T>(rank: T -> int, s: seq<T>)
    requires Sorted(rank, s)
    ensures Sort(rank, s) == s
    decreases |s|
  {
    if s != [] {
      var init, last := s[..|s| - 1], s[|s| - 1];
      SortSorted(rank, init);
      MergeAfter(rank, init, last);
      assert s == init + [last];
    }
  }

  lemma {:induction false} MergeAfter<T>(rank: T -> int, a: seq<T>, x: T)
    requires forall y :: y in a ==> rank(y) >= rank(x)
    ensures Merge(rank, a, [x]) == a + [x]
    decreases |a|
  {
    if a != [] {
      MergeAfter(rank, a[1..], x);
    }
  }

  /** The best `k` of a merge are among the best `k` of each side. */
  lemma {:induction false} TakeMerge<T>(rank: T -> int, a: seq<T>, b: seq<T>, k: nat, i: nat, j: nat)
    requires k <= i && k <= j
    ensures Take(Merge(rank, Take(a, i), Take(b, j)), k) == Take(Merge(rank, a, b), k)
    decreases |a| + |b|, k
  {
    hide Merge, Take;
    if k == 0 {
      TakeNothing(Merge(rank, Take(a, i), Take(b, j)));
      TakeNothing(Merge(rank, a, b));
    } else if a == [] || b == [] {
      TakeTwice(a, i, k);
      TakeTwice(b, j, k);
      MergeNothing(rank, if a == [] then b else a);
      MergeNothing(rank, if a == [] then Take(b, j) else Take(a, i));
    } else {
      TakeHead(a, i);
      TakeHead(b, j);
      MergeHead(rank, a, b);
      MergeHead(rank, Take(a, i), Take(b, j));
      if rank(a[0]) >= rank(b[0]) {
        TakeMerge(rank, a[1..], b, k - 1, i - 1, j);
        TakeCons(a[0], Merge(rank, a[1..], b), k);
        TakeCons(a[0], Merge(rank, Take(a[1..], i - 1), Take(b, j)), k);
      } else {
        TakeMerge(rank, a, b[1..], k - 1, i, j - 1);
        TakeCons(b[0], Merge(rank, a, b[1..]), k);
        TakeCons(b[0], Merge(rank, Take(a, i), Take(b[1..], j - 1)), k);
      }
    }
  }

  lemma {:induction false} MergeHead<T>(rank: T -> int, a: seq<T>, b: seq<T>)
    requires a != [] && b != []
    ensures Merge(rank, a, b)
        == if rank(a[0]) >= rank(b[0]) then [a[0]] + Merge(rank, a[1..], b) else [b[0]] + Merge(rank, a, b[1..])
  {
  }

  lemma {:induction false} TakeNothing<T>(s: seq<T>)
    ensures Take(s, 0) == []
  {
  }

  lemma {:induction false} TakeTwice<T>(s: seq<T>, i: nat, k: nat)
    requires k <= i
    ensures Take(Take(s, i), k) == Take(s, k) && (s == [] ==> Take(s, i) == [])
  {
  }

  lemma {:induction false} TakeHead<T>(s: seq<T>, k: nat)
    requires k > 0 && s != []
    ensures Take(s, k) != [] && Take(s, k)[0] == s[0] && Take(s, k)[1..] == Take(s[1..], k - 1)
  {
  }

  lemma {:induction false} TakeCons<T>(x: T, s: seq<T>, k: nat)
    requires k > 0
    ensures Take([x] + s, k) == [x] + Take(s, k - 1)
  {
  }

  /** What each domain returns: the best `k` of its own ordered answer. */
  ghost predicate Answers<T>(rank: T -> int, full: seq<seq<T>>, lists: seq<seq<T>>, k: nat) {
    && |full| == |lists|
    && forall d :: 0 <= d < |full| ==> Sorted(rank, full[d]) && lists[d] == Take(full[d], k)
  }

  /** The best `k` of the domains' best `k` are the best `k` of everything; ties are
      broken by domain, then by the domain's own order. */
  lemma {:induction false} FanOutIsGlobal<T>(rank: T -> int, full: seq<seq<T>>, lists: seq<seq<T>>, k: nat)
    requires Answers(rank, full, lists, k)
    ensures Take(Sort(rank, Concat(lists)), k) == Take(Sort(rank, Concat(full)), k)
    decreases |full|
  {
    hide Merge, Sort;
    if full != [] {
      var n := |full| - 1;
      var f, l := Concat(full[..n]), Concat(lists[..n]);
      FanOutIsGlobal(rank, full[..n], lists[..n], k);
      LastAnswer(rank, full, lists, k);
      MergeLast(rank, l, lists[n], k);
      MergeLast(rank, f, full[n], k);
    }
  }

  lemma {:induction false} LastAnswer<T>(rank: T -> int, full: seq<seq<T>>, lists: seq<seq<T>>, k: nat)
    requires Answers(rank, full, lists, k) && full != []
    ensures
      var n := |full| - 1;
      Sorted(rank, full[n]) && Sorted(rank, lists[n]) && Take(lists[n], k) == Take(full[n], k)
  {
  }

  /** The best `k` of a list with one more sorted answer. */
  lemma {:induction false} MergeLast<T>(rank: T -> int, before: seq<T>, last: seq<T>, k: nat)
    requires Sorted(rank, last)
    ensures Take(Sort(rank, before + last), k) == Take(Merge(rank, Take(Sort(rank, before), k), Take(last, k)), k)
  {
    hide Merge, Sort, Take;
    SortAppend(rank, before, last);
    SortSorted(rank, last);
    TakeMerge(rank, Sort(rank, before), last, k, k, k);
  }

  /** Merges the domains' answers: concatenate, sort by rank, cut. */
  method MergeAnswers<T>(rank: T -> int, lists: seq<seq<T>>, topK: nat) returns (merged: seq<T>)
    ensures merged == Take(Sort(rank, Concat(lists)), if topK == 0 then 1 else topK)
  {
    merged := [];
    var d := 0;
    while d < |lists|
      invariant d <= |lists| && merged == Concat(lists[..d])
    {
      assert lists[..d + 1][..d] == lists[..d];
      merged := merged + lists[d];
      d := d + 1;
    }
    assert lists[..d] == lists;
    merged := Sort(rank, merged);
    var keep := if topK == 0 then 1 else topK;
    if keep < |merged| {
      merged := merged[..keep];
    }
  }

  // ---------------------------------------------------------------------
  // What the merged answer is, row by row
  // ---------------------------------------------------------------------

  /** Row `at.1` of list `at.0`. */
  type Spot = (nat, nat)

  predicate IsSpot<T>(lists: seq<seq<T>>, at: Spot) { at.0 < |lists| && at.1 < |lists[at.0]| }

  predicate Earlier(a: Spot, b: Spot) { a.0 < b.0 || (a.0 == b.0 && a.1 < b.1) }

  ghost predicate Reads<T(!new)>(lists: seq<seq<T>>, spots: seq<Spot>, rows: seq<T>) {
    && |spots| == |rows|
    && forall i :: 0 <= i < |spots| ==> IsSpot(lists, spots[i]) && rows[i] == lists[spots[i].0][spots[i].1]
  }

  /** By rank, best first; equal ranks in the order of the lists. */
  ghost predicate Ranked(rank: Spot -> int, spots: seq<Spot>) {
    forall i, j :: 0 <= i < j < |spots| ==> Outranks(rank, spots[i], spots[j])
  }

  predicate Outranks(rank: Spot -> int, a: Spot, b: Spot) {
    rank(a) > rank(b) || (rank(a) == rank(b) && Earlier(a, b))
  }

  function Spots<T>(lists: seq<seq<T>>): seq<Spot> {
    if lists == [] then []
    else
      var d := |lists| - 1;
      Spots(lists[..d]) + seq(|lists[d]|, i requires 0 <= i < |lists[d]| => (d, i))
  }

  function RankAt<T>(rank: T -> int, lists: seq<seq<T>>): Spot -> int {
    (at: Spot) => if IsSpot(lists, at) then rank(lists[at.0][at.1]) else 0
  }

  lemma {:induction false} SpotsRead<T(!new)>(lists: seq<seq<T>>)
    ensures Reads(lists, Spots(lists), Concat(lists))
    ensures forall at: Spot :: at in Spots(lists) <==> IsSpot(lists, at)
    ensures forall i, j :: 0 <= i < j < |Spots(lists)| ==> Earlier(Spots(lists)[i], Spots(lists)[j])
    decreases |lists|
  {
    if lists != [] {
      var d := |lists| - 1;
      SpotsRead(lists[..d]);
      var last := seq(|lists[d]|, i requires 0 <= i < |lists[d]| => (d, i));
      forall at: Spot ensures at in Spots(lists) <==> IsSpot(lists, at) {
        assert at in Spots(lists[..d]) <==> IsSpot(lists[..d], at);
        assert at in last <==> at.0 == d && at.1 < |lists[d]| by {
          if at.0 == d && at.1 < |lists[d]| {
            assert last[at.1] == at;
          }
        }
      }
      forall i | 0 <= i < |Spots(lists[..d])| ensures Spots(lists[..d])[i].0 < d {
        assert Spots(lists[..d])[i] in Spots(lists[..d]);
      }
    }
  }

  lemma {:induction false} MergeReads<T(!new)>(rank: T -> int, lists: seq<seq<T>>, sa: seq<Spot>, a: seq<T>,
      sb: seq<Spot>, b: seq<T>)
    requires Reads(lists, sa, a) && Reads(lists, sb, b)
    ensures Reads(lists, Merge(RankAt(rank, lists), sa, sb), Merge(rank, a, b))
    decreases |a| + |b|
  {
    if a != [] && b != [] {
      if rank(a[0]) >= rank(b[0]) {
        MergeReads(rank, lists, sa[1..], a[1..], sb, b);
      } else {
        MergeReads(rank, lists, sa, a, sb[1..], b[1..]);
      }
    }
  }

  lemma {:induction false} SortReads<T(!new)>(rank: T -> int, lists: seq<seq<T>>, spots: seq<Spot>, rows: seq<T>)
    requires Reads(lists, spots, rows)
    ensures Reads(lists, Sort(RankAt(rank, lists), spots), Sort(rank, rows))
    decreases |rows|
  {
    if rows != [] {
      var n := |rows| - 1;
      SortReads(rank, lists, spots[..n], rows[..n]);
      MergeReads(rank, lists, Sort(RankAt(rank, lists), spots[..n]), Sort(rank, rows[..n]), [spots[n]], [rows[n]]);
    }
  }

  /** A later spot goes behind its equals. */
  lemma {:induction false} MergeRanked(rank: Spot -> int, a: seq<Spot>, x: Spot)
    requires Ranked(rank, a) && forall y :: y in a ==> Earlier(y, x)
    ensures Ranked(rank, Merge(rank, a, [x]))
    decreases |a|
  {
    if a != [] {
      if rank(a[0]) >= rank(x) {
        assert forall i, j :: 0 <= i < j < |a| - 1 ==> a[1..][i] == a[i + 1] && a[1..][j] == a[j + 1];
        MergeRanked(rank, a[1..], x);
        MergeMembers(rank, a[1..], [x]);
        var rest := Merge(rank, a[1..], [x]);
        forall y | y in rest ensures Outranks(rank, a[0], y) {
          if y in a[1..] {
            var i :| 0 <= i < |a| - 1 && a[1..][i] == y;
            assert Outranks(rank, a[0], a[i + 1]);
          }
        }
      } else {
        assert Merge(rank, a, [x]) == [x] + a;
        forall i | 0 <= i < |a| ensures Outranks(rank, x, a[i]) {
          assert i > 0 ==> Outranks(rank, a[0], a[i]);
        }
      }
    }
  }

  lemma {:induction false} SortRanked(rank: Spot -> int, spots: seq<Spot>)
    requires forall i, j :: 0 <= i < j < |spots| ==> Earlier(spots[i], spots[j])
    ensures Ranked(rank, Sort(rank, spots))
    ensures forall x :: x in Sort(rank, spots) <==> x in spots
    decreases |spots|
  {
    if spots != [] {
      var n := |spots| - 1;
      SortRanked(rank, spots[..n]);
      MergeRanked(rank, Sort(rank, spots[..n]), spots[n]);
      MergePermutes(rank, Sort(rank, spots[..n]), [spots[n]]);
      assert forall x :: x in Sort(rank, spots) <==> x in multiset(Sort(rank, spots));
      assert forall x :: x in spots <==> x in spots[..n] || x == spots[n];
    }
  }

  /** `rows` are the best `k` of the lists, each row at most once, best first and equal
      ranks in the order of the lists; what is left out ranks behind all of them. */
  ghost predicate BestRows<T(!new)>(rank: T -> int, lists: seq<seq<T>>, k: nat, rows: seq<T>, picks: seq<Spot>) {
    && Reads(lists, picks, rows) && |rows| <= k
    && (forall i, j :: 0 <= i < j < |rows| ==>
          rank(rows[i]) > rank(rows[j]) || (rank(rows[i]) == rank(rows[j]) && Earlier(picks[i], picks[j])))
    && forall at: Spot :: IsSpot(lists, at) && at !in picks ==>
         && |rows| == k
         && forall i :: 0 <= i < |rows| ==>
              || rank(rows[i]) > rank(lists[at.0][at.1])
              || (rank(rows[i]) == rank(lists[at.0][at.1]) && Earlier(picks[i], at))
  }

  /** And that is what merging, sorting and cutting gives. */
  lemma {:induction false} TopIsBest<T(!new)>(rank: T -> int, lists: seq<seq<T>>, k: nat) returns (picks: seq<Spot>)
    ensures BestRows(rank, lists, k, Take(Sort(rank, Concat(lists)), k), picks)
  {
    hide Sort, Concat, Spots;
    SpotsRead(lists);
    var all, sorted := Sort(RankAt(rank, lists), Spots(lists)), Sort(rank, Concat(lists));
    SortReads(rank, lists, Spots(lists), Concat(lists));
    SortRanked(RankAt(rank, lists), Spots(lists));
    picks := Take(all, k);
    TakenRanks(rank, lists, all, sorted, k);
  }

  lemma {:induction false} TakenRanks<T(!new)>(rank: T -> int, lists: seq<seq<T>>, all: seq<Spot>, sorted: seq<T>,
      k: nat)
    requires Reads(lists, all, sorted) && Ranked(RankAt(rank, lists), all)
    requires forall at: Spot :: IsSpot(lists, at) ==> at in all
    ensures BestRows(rank, lists, k, Take(sorted, k), Take(all, k))
  {
    var rows, picks := Take(sorted, k), Take(all, k);
    forall i, j | 0 <= i < j < |rows|
      ensures rank(rows[i]) > rank(rows[j]) || (rank(rows[i]) == rank(rows[j]) && Earlier(picks[i], picks[j]))
    {
      assert Outranks(RankAt(rank, lists), all[i], all[j]);
    }
    forall at: Spot | IsSpot(lists, at) && at !in picks
      ensures |rows| == k
      ensures forall i :: 0 <= i < |rows| ==>
        || rank(rows[i]) > rank(lists[at.0][at.1])
        || (rank(rows[i]) == rank(lists[at.0][at.1]) && Earlier(picks[i], at))
    {
      var m :| 0 <= m < |all| && all[m] == at;
      assert forall n :: 0 <= n < |picks| ==> all[n] == picks[n] && all[n] in picks;
      forall i | 0 <= i < |rows|
        ensures rank(rows[i]) > rank(lists[at.0][at.1])
             || (rank(rows[i]) == rank(lists[at.0][at.1]) && Earlier(picks[i], at))
      {
        assert Outranks(RankAt(rank, lists), all[i], all[m]);
      }
    }
  }

  // ---------------------------------------------------------------------
  // Entity pages
  // ---------------------------------------------------------------------

  datatype Row = Row(id: nat, updatedAt: int, stub: bool)

  function Stamp(): Row -> int { (r: Row) => r.updatedAt }

  function NotStub(): Row -> bool { (r: Row) => !r.stub }

  function Known(kept: set<nat>): Row -> bool { (r: Row) => r.id in kept }

  function Ids(s: seq<Row>): set<nat> { set r | r in s :: r.id }

  ghost predicate Distinct(s: seq<Row>) {
    forall i, j :: 0 <= i < j < |s| ==> s[i].id != s[j].id
  }

  function Slice<T>(s: seq<T>, offset: nat, limit: nat): seq<T> {
    if offset >= |s| then [] else Take(s[offset..], limit)
  }

  function Filtered(lists: seq<seq<Row>>): seq<seq<Row>> {
    seq(|lists|, d requires 0 <= d < |lists| => Filter(lists[d], NotStub()))
  }

  function Heads(lists: seq<seq<Row>>, n: nat): seq<seq<Row>> {
    seq(|lists|, d requires 0 <= d < |lists| => Take(lists[d], n))
  }

  /** The global listing: the canonical rows of all domains, latest first. */
  function Listing(lists: seq<seq<Row>>): seq<Row> {
    Sort(Stamp(), Concat(Filtered(lists)))
  }

  /** How many rows each domain is asked for: an addition that saturates. */
  function FetchSize(limit: nat, offset: nat): nat {
    if limit + offset > USIZE_MAX then USIZE_MAX else limit + offset
  }

  /** `kept` are the rows of `s` that are no stubs, in order: those at `at`. */
  ghost predicate KeptAt(s: seq<Row>, kept: seq<Row>, at: seq<nat>) {
    && |at| == |kept| && (forall i, j :: 0 <= i < j < |at| ==> at[i] < at[j])
    && (forall i :: 0 <= i < |at| ==> at[i] < |s| && kept[i] == s[at[i]])
    && forall n: nat :: n < |s| ==> (n in at <==> !s[n].stub)
  }

  ghost predicate Kept(s: seq<Row>, kept: seq<Row>) { exists at: seq<nat> :: KeptAt(s, kept, at) }

  lemma {:induction false} FilterKeeps(s: seq<Row>) returns (at: seq<nat>)
    ensures KeptAt(s, Filter(s, NotStub()), at)
    decreases |s|
  {
    at := [];
    if s != [] {
      var n := |s| - 1;
      at := FilterKeeps(s[..n]);
      KeptNext(s[..n], Filter(s[..n], NotStub()), at, s[n]);
      assert s[..n] + [s[n]] == s;
      if !s[n].stub {
        at := at + [n];
      }
    }
  }

  lemma {:induction false} KeptNext(s: seq<Row>, kept: seq<Row>, at: seq<nat>, row: Row)
    requires KeptAt(s, kept, at)
    ensures if row.stub then KeptAt(s + [row], kept, at) else KeptAt(s + [row], kept + [row], at + [|s|])
  {
    forall n: nat | n < |s| ensures n in at <==> !s[n].stub {
    }
    assert |s| !in at;
  }

  /** The listing holds the canonical rows of all lists, each once, latest first and, of
      the same time, in the order of the lists. */
  lemma {:induction false} ListingInOrder(lists: seq<seq<Row>>)
    returns (canonical: seq<seq<Row>>, picks: seq<Spot>)
    ensures |canonical| == |lists| && forall d :: 0 <= d < |lists| ==> Kept(lists[d], canonical[d])
    ensures Reads(canonical, picks, Listing(lists)) && forall at: Spot :: IsSpot(canonical, at) ==> at in picks
    ensures forall i, j :: 0 <= i < j < |picks| ==>
      || Listing(lists)[i].updatedAt > Listing(lists)[j].updatedAt
      || (Listing(lists)[i].updatedAt == Listing(lists)[j].updatedAt && Earlier(picks[i], picks[j]))
  {
    hide Sort, Concat, Filter, KeptAt;
    canonical := Filtered(lists);
    forall d | 0 <= d < |lists| ensures Kept(lists[d], canonical[d]) {
      var at := FilterKeeps(lists[d]);
    }
    var all := Listing(lists);
    picks := TopIsBest(Stamp(), canonical, |all| + 1);
    assert Take(all, |all| + 1) == all;
  }

  lemma {:induction false} PageInOrder(lists: seq<seq<Row>>, limit: nat, offset: nat)
    ensures var page := Slice(Listing(Heads(lists, FetchSize(limit, offset))), offset, limit);
      && (forall i, j :: 0 <= i < j < |page| ==> page[i].updatedAt >= page[j].updatedAt)
      && forall row :: row in page ==> !row.stub && exists d :: 0 <= d < |lists| && row in lists[d]
  {
    hide Listing, Kept;
    var heads := Heads(lists, FetchSize(limit, offset));
    var all, page := Listing(heads), Slice(Listing(heads), offset, limit);
    var canonical, picks := ListingInOrder(heads);
    assert forall i :: 0 <= i < |page| ==> page[i] == all[offset + i];
    forall row | row in page ensures !row.stub && exists d :: 0 <= d < |lists| && row in lists[d] {
      var i :| 0 <= i < |page| && page[i] == row;
      var d := picks[offset + i].0;
      KeptIn(heads[d], canonical[d], picks[offset + i].1);
      assert row in lists[d];
    }
  }

  lemma {:induction false} KeptIn(s: seq<Row>, kept: seq<Row>, i: nat)
    requires Kept(s, kept) && i < |kept|
    ensures kept[i] in s && !kept[i].stub
  {
    var at :| KeptAt(s, kept, at);
    assert at[i] in at;
  }

  /** A page: every domain lists its latest rows, stubs are dropped from those, and
      the rest is merged, skipped and cut.  A store with one domain lists its rows as
      they are. */
  method ListEntities(lists: seq<seq<Row>>, limit: nat, offset: nat) returns (page: seq<Row>)
    ensures page == if |lists| == 1 then Slice(lists[0], offset, limit)
                    else Slice(Listing(Heads(lists, FetchSize(limit, offset))), offset, limit)
    ensures |lists| != 1 ==>
      && (forall i, j :: 0 <= i < j < |page| ==> page[i].updatedAt >= page[j].updatedAt)
      && forall row :: row in page ==> !row.stub && exists d :: 0 <= d < |lists| && row in lists[d]
  {
    hide Listing, Heads, Slice;
    if |lists| == 1 {
      page := Cut(lists[0], limit, offset);
    } else {
      page := ListMerged(lists, limit, offset);
      PageInOrder(lists, limit, offset);
    }
  }

  method ListMerged(lists: seq<seq<Row>>, limit: nat, offset: nat) returns (page: seq<Row>)
    ensures page == Slice(Listing(Heads(lists, FetchSize(limit, offset))), offset, limit)
  {
    hide Slice;
    var fetch := if limit + offset > USIZE_MAX then USIZE_MAX else limit + offset;
    var merged: seq<Row> := [];
    ghost var parts := Filtered(Heads(lists, fetch));
    var d := 0;
    while d < |lists|
      invariant d <= |lists| && merged == Concat(parts[..d])
    {
      assert parts[..d + 1][..d] == parts[..d];
      merged := merged + Filter(if fetch <= |lists[d]| then lists[d][..fetch] else lists[d], NotStub());
      d := d + 1;
    }
    assert parts[..d] == parts;
    merged := Sort(Stamp(), merged);
    page := Cut(merged, limit, offset);
  }

  /** Skips, then takes. */
  method Cut(rows: seq<Row>, limit: nat, offset: nat) returns (page: seq<Row>)
    ensures page == Slice(rows, offset, limit)
  {
    page := if offset >= |rows| then [] else rows[offset..];
    page := if limit <= |page| then page[..limit] else page;
  }

  // ---------------------------------------------------------------------
  // Exactly when a page is right
  // ---------------------------------------------------------------------

  lemma {:induction false} FilterMerge<T>(rank: T -> int, a: seq<T>, b: seq<T>, keep: T -> bool)
    requires Sorted(rank, a) && Sorted(rank, b)
    ensures Filter(Merge(rank, a, b), keep) == Merge(rank, Filter(a, keep), Filter(b, keep))
    decreases |a| + |b|
  {
    hide Filter;
    if a == [] {
      FilterNothing(keep);
      MergeNothing(rank, Filter(b, keep));
    } else if b == [] {
      FilterNothing(keep);
      MergeNothing(rank, Filter(a, keep));
    } else {
      FilterHead(a, keep);
      FilterHead(b, keep);
      var m := Merge(rank, a, b);
      FilterHead(m, keep);
      assert !keep(a[0]) ==> Filter(a, keep) == Filter(a[1..], keep);
      assert !keep(b[0]) ==> Filter(b, keep) == Filter(b[1..], keep);
      assert !keep(m[0]) ==> Filter(m, keep) == Filter(m[1..], keep);
      if rank(a[0]) >= rank(b[0]) {
        assert m[1..] == Merge(rank, a[1..], b);
        FilterMerge(rank, a[1..], b, keep);
        if keep(a[0]) {
          FilterBound(rank, b, keep);
          MergeHeadLeft(rank, a[0], Filter(a[1..], keep), Filter(b, keep));
        }
      } else {
        assert m[1..] == Merge(rank, a, b[1..]);
        FilterMerge(rank, a, b[1..], keep);
        if keep(b[0]) {
          FilterBound(rank, a, keep);
          MergeHeadRight(rank, Filter(a, keep), b[0], Filter(b[1..], keep));
        }
      }
    }
  }

  lemma {:induction false} FilterNothing<T>(keep: T -> bool)
    ensures Filter([], keep) == []
  {
  }

  lemma {:induction false} MergeNothing<T>(rank: T -> int, s: seq<T>)
    ensures Merge(rank, [], s) == s == Merge(rank, s, [])
  {
  }

  lemma {:induction false} SortedPair<T>(rank: T -> int, s: seq<T>, i: nat, j: nat)
    requires Sorted(rank, s) && i < j < |s|
    ensures rank(s[i]) >= rank(s[j])
  {
  }

  lemma {:induction false} FilterBound<T>(rank: T -> int, s: seq<T>, keep: T -> bool)
    requires Sorted(rank, s) && s != []
    ensures forall x :: x in Filter(s, keep) ==> rank(x) <= rank(s[0])
  {
    forall x | x in Filter(s, keep) ensures rank(x) <= rank(s[0]) {
      FilterMember(s, keep, x);
      var i :| 0 <= i < |s| && s[i] == x;
      if i > 0 {
        SortedPair(rank, s, 0, i);
      }
    }
  }

  lemma {:induction false} MergeHeadLeft<T>(rank: T -> int, x: T, a: seq<T>, b: seq<T>)
    requires forall y :: y in b ==> rank(x) >= rank(y)
    ensures Merge(rank, [x] + a, b) == [x] + Merge(rank, a, b)
  {
    assert ([x] + a)[1..] == a;
    if b != [] {
      assert b[0] in b;
    }
  }

  lemma {:induction false} MergeHeadRight<T>(rank: T -> int, a: seq<T>, y: T, b: seq<T>)
    requires forall x :: x in a ==> rank(x) < rank(y)
    ensures Merge(rank, a, [y] + b) == [y] + Merge(rank, a, b)
  {
    assert ([y] + b)[1..] == b;
    if a != [] {
      assert a[0] in a;
    }
  }

  lemma {:induction false} FilterMember<T>(s: seq<T>, keep: T -> bool, x: T)
    ensures x in Filter(s, keep) <==> x in s && keep(x)
    decreases |s|
  {
    if s != [] {
      FilterMember(s[..|s| - 1], keep, x);
      assert s == s[..|s| - 1] + [s[|s| - 1]];
    }
  }

  /** Sorting and dropping commute. */
  lemma {:induction false} SortFilter<T>(rank: T -> int, s: seq<T>, keep: T -> bool)
    ensures Filter(Sort(rank, s), keep) == Sort(rank, Filter(s, keep))
    decreases |s|
  {
    if s != [] {
      var init, last := s[..|s| - 1], s[|s| - 1];
      SortFilter(rank, init, keep);
      SortSpec(rank, init, 0);
      FilterMerge(rank, Sort(rank, init), [last], keep);
      var kept := if keep(last) then [last] else [];
      assert Filter([last], keep) == kept by {
        FilterHead([last], keep);
      }
      SortAppend(rank, Filter(init, keep), kept);
      assert Sort(rank, kept) == kept by {
        SortSorted(rank, kept);
      }
    }
  }

  lemma {:induction false} FilterAll<T>(s: seq<T>, keep: T -> bool)
    requires forall x :: x in s ==> keep(x)
    ensures Filter(s, keep) == s
    decreases |s|
  {
    if s != [] {
      FilterAll(s[..|s| - 1], keep);
      assert s == s[..|s| - 1] + [s[|s| - 1]];
    }
  }

  lemma {:induction false} FilterNone<T>(s: seq<T>, keep: T -> bool)
    requires forall x :: x in s ==> !keep(x)
    ensures Filter(s, keep) == []
    decreases |s|
  {
    if s != [] {
      FilterNone(s[..|s| - 1], keep);
    }
  }

  lemma {:induction false} FilterShort<T>(s: seq<T>, keep: T -> bool)
    ensures |Filter(s, keep)| <= |s|
    ensures |Filter(s, keep)| == |s| ==> forall x :: x in s ==> keep(x)
    decreases |s|
  {
    if s != [] {
      FilterShort(s[..|s| - 1], keep);
      assert s == s[..|s| - 1] + [s[|s| - 1]];
    }
  }

  /** A row that keeps its place has only kept rows before it. */
  lemma {:induction false} KeptBefore(s: seq<Row>, kept: set<nat>, j: nat)
    requires Distinct(s) && j < |Filter(s, Known(kept))| && j < |s| && Filter(s, Known(kept))[j] == s[j]
    ensures forall i :: 0 <= i <= j ==> s[i].id in kept
    decreases |s|
  {
    var n := |s| - 1;
    var init, last := s[..n], s[n];
    FilterShort(init, Known(kept));
    if j < |Filter(init, Known(kept))| {
      KeptBefore(init, kept, j);
    } else {
      assert s[j] == last;
      assert j == n;
      assert forall i :: 0 <= i < n ==> s[i] in init;
    }
  }

  lemma {:induction false} KeptSlice(s: seq<Row>, kept: set<nat>, offset: nat, limit: nat)
    requires forall i :: 0 <= i < |s| && i < offset + limit ==> s[i].id in kept
    ensures Slice(Filter(s, Known(kept)), offset, limit) == Slice(s, offset, limit)
  {
    hide Slice, Filter;
    var m, n := Filter(s, Known(kept)), offset + limit;
    var head := Take(s, n);
    assert s == head + s[|head|..];
    FilterAppend(head, s[|head|..], Known(kept));
    FilterAll(head, Known(kept));
    if |s| <= n {
      assert s[|head|..] == [];
      FilterNothing(Known(kept));
    }
    assert Take(m, n) == head;
    SliceOfTake(m, offset, limit);
    SliceOfTake(s, offset, limit);
  }

  lemma {:induction false} SliceEmpty(s: seq<Row>, offset: nat, limit: nat)
    requires |s| <= offset || limit == 0
    ensures Slice(s, offset, limit) == []
  {
  }

  lemma {:induction false} SliceLast(s: seq<Row>, m: seq<Row>, offset: nat, limit: nat) returns (j: nat)
    requires offset < |s| && limit > 0 && Slice(m, offset, limit) == Slice(s, offset, limit)
    ensures j < |m| && j < |s| && m[j] == s[j] && j == (if offset + limit <= |s| then offset + limit else |s|) - 1
  {
    var size := |Slice(s, offset, limit)|;
    j := offset + size - 1;
    assert Slice(m, offset, limit)[size - 1] == m[j] && Slice(s, offset, limit)[size - 1] == s[j];
  }

  /** Dropping rows leaves a page as it is exactly if the page is empty anyway or
      every row up to its end stays. */
  lemma {:induction false} SliceOfKept(s: seq<Row>, kept: set<nat>, offset: nat, limit: nat)
    requires Distinct(s)
    ensures Slice(Filter(s, Known(kept)), offset, limit) == Slice(s, offset, limit) <==>
      || |s| <= offset || limit == 0
      || forall i :: 0 <= i < |s| && i < offset + limit ==> s[i].id in kept
  {
    hide Filter, Distinct, Slice;
    var m := Filter(s, Known(kept));
    if |s| <= offset || limit == 0 {
      FilterShort(s, Known(kept));
      SliceEmpty(m, offset, limit);
      SliceEmpty(s, offset, limit);
    } else {
      if forall i :: 0 <= i < |s| && i < offset + limit ==> s[i].id in kept {
        KeptSlice(s, kept, offset, limit);
      }
      if Slice(m, offset, limit) == Slice(s, offset, limit) {
        var j := SliceLast(s, m, offset, limit);
        KeptBefore(s, kept, j);
      }
    }
  }

  lemma {:induction false} SliceOfTake<T>(s: seq<T>, offset: nat, limit: nat)
    ensures Slice(s, offset, limit) == Slice(Take(s, offset + limit), offset, limit)
  {
  }

  lemma {:induction false} DistinctParts(a: seq<Row>, b: seq<Row>)
    requires Distinct(a + b)
    ensures Distinct(a) && Distinct(b) && forall x, y :: x in a && y in b ==> x.id != y.id
  {
    forall i, j | 0 <= i < |a| && 0 <= j < |b| ensures a[i].id != b[j].id {
      assert (a + b)[i] == a[i] && (a + b)[|a| + j] == b[j];
    }
    forall i, j | 0 <= i < j < |a| ensures a[i].id != a[j].id {
      assert (a + b)[i] == a[i] && (a + b)[j] == a[j];
    }
    forall i, j | 0 <= i < j < |b| ensures b[i].id != b[j].id {
      assert (a + b)[|a| + i] == b[i] && (a + b)[|a| + j] == b[j];
    }
  }

  /** Fetching the heads keeps, of the canonical rows, those among the heads. */
  lemma {:induction false} HeadsKept(lists: seq<seq<Row>>, n: nat, kept: set<nat>)
    requires Distinct(Concat(lists))
    requires forall r :: r in Concat(lists) ==> (r.id in kept <==> r in Concat(Heads(lists, n)))
    ensures Filter(Concat(Filtered(lists)), Known(kept)) == Concat(Filtered(Heads(lists, n)))
    decreases |lists|
  {
    hide Filter, Take;
    if lists == [] {
      FilterNothing(Known(kept));
    } else {
      var init, last := lists[..|lists| - 1], lists[|lists| - 1];
      DistinctParts(Concat(init), last);
      HeadsSplit(lists, n);
      HeadsInLists(init, n);
      HeadsKept(init, n, kept);
      FilterAppend(Concat(Filtered(init)), Filter(last, NotStub()), Known(kept));
      HeadKept(last, n, kept);
    }
  }

  lemma {:induction false} HeadsSplit(lists: seq<seq<Row>>, n: nat)
    requires lists != []
    ensures
      var init, last := lists[..|lists| - 1], lists[|lists| - 1];
      && Concat(Heads(lists, n)) == Concat(Heads(init, n)) + Take(last, n)
      && Concat(Filtered(lists)) == Concat(Filtered(init)) + Filter(last, NotStub())
      && Concat(Filtered(Heads(lists, n))) == Concat(Filtered(Heads(init, n))) + Filter(Take(last, n), NotStub())
      && (forall r :: r in Take(last, n) ==> r in last)
  {
    var m := |lists| - 1;
    assert Heads(lists, n)[..m] == Heads(lists[..m], n);
    assert Filtered(lists)[..m] == Filtered(lists[..m]);
    assert Filtered(Heads(lists, n))[..m] == Filtered(Heads(lists[..m], n));
  }

  lemma {:induction false} HeadsInLists(lists: seq<seq<Row>>, n: nat)
    ensures forall r :: r in Concat(Heads(lists, n)) ==> r in Concat(lists)
    decreases |lists|
  {
    if lists != [] {
      HeadsSplit(lists, n);
      HeadsInLists(lists[..|lists| - 1], n);
    }
  }

  lemma {:induction false} HeadKept(list: seq<Row>, n: nat, kept: set<nat>)
    requires Distinct(list)
    requires forall r :: r in list ==> (r.id in kept <==> r in Take(list, n))
    ensures Filter(Filter(list, NotStub()), Known(kept)) == Filter(Take(list, n), NotStub())
  {
    hide Filter;
    var head := Take(list, n);
    var rest := list[|head|..];
    assert list == head + rest;
    FilterAppend(head, rest, NotStub());
    FilterAppend(Filter(head, NotStub()), Filter(rest, NotStub()), Known(kept));
    DistinctParts(head, rest);
    forall r | r in Filter(head, NotStub()) ensures Known(kept)(r) {
      FilterMember(head, NotStub(), r);
    }
    FilterAll(Filter(head, NotStub()), Known(kept));
    forall r | r in Filter(rest, NotStub()) ensures !Known(kept)(r) {
      FilterMember(rest, NotStub(), r);
    }
    FilterNone(Filter(rest, NotStub()), Known(kept));
  }

  /** In terms of the listing: every row up to the end of the page is among the rows
      the domains were asked for. */
  lemma {:induction false} PageExactWhenFetched(lists: seq<seq<Row>>, limit: nat, offset: nat)
    requires Distinct(Concat(lists))
    ensures
      var fetch := FetchSize(limit, offset);
      var whole := Listing(lists);
      Slice(Listing(Heads(lists, fetch)), offset, limit) == Slice(whole, offset, limit) <==>
        || |whole| <= offset || limit == 0
        || forall i :: 0 <= i < |whole| && i < offset + limit ==> whole[i].id in Ids(Concat(Heads(lists, fetch)))
  {
    hide Slice, Filter;
    var fetch := FetchSize(limit, offset);
    var kept := Ids(Concat(Heads(lists, fetch)));
    HeadsInLists(lists, fetch);
    forall r | r in Concat(lists) && r.id in kept ensures r in Concat(Heads(lists, fetch)) {
      var h :| h in Concat(Heads(lists, fetch)) && h.id == r.id;
      SameRow(Concat(lists), h, r);
    }
    HeadsKept(lists, fetch, kept);
    SortFilter(Stamp(), Concat(Filtered(lists)), Known(kept));
    ListingDistinct(lists);
    SliceOfKept(Listing(lists), kept, offset, limit);
  }

  /** A row that its domain did not return is not among those returned. */
  lemma {:induction false} NotReturned(lists: seq<seq<Row>>, n: nat, d: nat, i: nat)
    requires Distinct(Concat(lists)) && d < |lists| && n <= i < |lists[d]|
    ensures lists[d][i] in Concat(lists)
    ensures lists[d][i] !in Concat(Heads(lists, n))
    decreases |lists|
  {
    var m := |lists| - 1;
    var init, last := lists[..m], lists[m];
    DistinctParts(Concat(init), last);
    HeadsSplit(lists, n);
    HeadsInLists(init, n);
    if d < m {
      NotReturned(init, n, d, i);
      assert init[d][i] in Concat(init);
    } else {
      forall j | 0 <= j < n ensures last[j] != last[i] {
        assert last[j].id != last[i].id;
      }
    }
  }

  /** Where a canonical row is listed. */
  lemma {:induction false} ListedAt(lists: seq<seq<Row>>, n: nat, r: Row) returns (d: nat, i: nat)
    requires r in Concat(Filtered(lists))
    ensures d < |lists| && i < |lists[d]| && lists[d][i] == r && !r.stub
    ensures i < n ==> r in Concat(Heads(lists, n))
    decreases |lists|
  {
    var m := |lists| - 1;
    HeadsSplit(lists, n);
    if r in Concat(Filtered(lists[..m])) {
      d, i := ListedAt(lists[..m], n, r);
    } else {
      d := m;
      FilterMember(lists[m], NotStub(), r);
      i :| 0 <= i < |lists[m]| && lists[m][i] == r;
      assert i < n ==> Take(lists[m], n)[i] == r;
    }
  }

  /** No canonical row that the domain has below its first `fetch` belongs on a page
      that ends where `page` ends. */
  ghost predicate HeadSuffices(list: seq<Row>, fetch: nat, page: seq<Row>) {
    forall i :: fetch <= i < |list| && !list[i].stub ==> list[i] !in page
  }

  /** A page is the right stretch of the global listing exactly when it is empty
      anyway, or, in every domain, the rows that were fetched contain all canonical
      rows that rank before the end of the page. */
  lemma {:induction false} PageExactIff(lists: seq<seq<Row>>, limit: nat, offset: nat)
    requires Distinct(Concat(lists))
    ensures
      var fetch := FetchSize(limit, offset);
      var whole := Listing(lists);
      Slice(Listing(Heads(lists, fetch)), offset, limit) == Slice(whole, offset, limit) <==>
        || |whole| <= offset || limit == 0
        || forall d :: 0 <= d < |lists| ==> HeadSuffices(lists[d], fetch, Take(whole, offset + limit))
  {
    hide Slice, Filter, Concat, Heads;
    var fetch := FetchSize(limit, offset);
    var whole := Listing(lists);
    var page := Take(whole, offset + limit);
    PageExactWhenFetched(lists, limit, offset);
    if forall i :: 0 <= i < |whole| && i < offset + limit ==> whole[i].id in Ids(Concat(Heads(lists, fetch))) {
      forall d, i | 0 <= d < |lists| && fetch <= i < |lists[d]| && !lists[d][i].stub ensures lists[d][i] !in page {
        NotReturned(lists, fetch, d, i);
        HeadsInLists(lists, fetch);
        if lists[d][i] in page {
          var h :| h in Concat(Heads(lists, fetch)) && h.id == lists[d][i].id;
          SameRow(Concat(lists), h, lists[d][i]);
          assert false;
        }
      }
    }
    if forall d :: 0 <= d < |lists| ==> HeadSuffices(lists[d], fetch, page) {
      forall i | 0 <= i < |whole| && i < offset + limit ensures whole[i].id in Ids(Concat(Heads(lists, fetch))) {
        ListingMember(lists, i);
        var d, j := ListedAt(lists, fetch, whole[i]);
        assert page[i] == whole[i];
        assert HeadSuffices(lists[d], fetch, page);
      }
    }
  }

  lemma {:induction false} ListingMember(lists: seq<seq<Row>>, i: nat)
    requires i < |Listing(lists)|
    ensures Listing(lists)[i] in Concat(Filtered(lists))
  {
    hide Concat, Filtered;
    SortSpec(Stamp(), Concat(Filtered(lists)), 0);
    assert Listing(lists)[i] in multiset(Listing(lists));
  }

  /** The domain returned no stub, or every canonical row it has. */
  predicate CleanHead(list: seq<Row>, fetch: nat) {
    || (forall i :: 0 <= i < |list| && i < fetch ==> !list[i].stub)
    || (forall i :: fetch <= i < |list| ==> list[i].stub)
  }

  /** What every domain can check of its own answer: pages are right as long as none
      of them has returned a stub in place of a canonical row further down. */
  lemma {:induction false} CleanHeadsExact(lists: seq<seq<Row>>, limit: nat, offset: nat)
    requires limit + offset <= USIZE_MAX
    requires forall d :: 0 <= d < |lists| ==> Sorted(Stamp(), lists[d]) && CleanHead(lists[d], limit + offset)
    ensures Slice(Listing(Heads(lists, FetchSize(limit, offset))), offset, limit)
         == Slice(Listing(lists), offset, limit)
  {
    hide Slice, Filter, Sort, Concat, Sorted, CleanHead, Take;
    var n := limit + offset;
    var full, heads := Filtered(lists), Filtered(Heads(lists, n));
    forall d | 0 <= d < |full| ensures Sorted(Stamp(), full[d]) && heads[d] == Take(full[d], n) {
      FilterSorted(lists[d]);
      CleanHeadTakes(lists[d], n);
    }
    FanOutIsGlobal(Stamp(), full, heads, n);
    SliceOfTake(Listing(Heads(lists, n)), offset, limit);
    SliceOfTake(Listing(lists), offset, limit);
  }

  lemma {:induction false} CleanHeadTakes(list: seq<Row>, n: nat)
    requires CleanHead(list, n)
    ensures Filter(Take(list, n), NotStub()) == Take(Filter(list, NotStub()), n)
  {
    hide Filter;
    var head := Take(list, n);
    var rest := list[|head|..];
    assert list == head + rest;
    FilterAppend(head, rest, NotStub());
    FilterShort(head, NotStub());
    if forall i :: 0 <= i < |list| && i < n ==> !list[i].stub {
      FilterAll(head, NotStub());
      if |list| <= n {
        FilterNothing(NotStub());
      }
    } else {
      FilterNone(rest, NotStub());
    }
  }

  lemma {:induction false} FilterSorted(s: seq<Row>)
    requires Sorted(Stamp(), s)
    ensures Sorted(Stamp(), Filter(s, NotStub()))
    ensures forall r :: r in Filter(s, NotStub()) ==> r in s
    decreases |s|
  {
    if s != [] {
      var n := |s| - 1;
      FilterSorted(s[..n]);
      var before := Filter(s[..n], NotStub());
      forall k | 0 <= k < |before| ensures Stamp()(before[k]) >= Stamp()(s[n]) {
        assert before[k] in s[..n];
        var i :| 0 <= i < n && s[i] == before[k];
        SortedPair(Stamp(), s, i, n);
      }
    }
  }

  /** Otherwise a stub can take the place of a row: the page is empty although the
      listing is not. */
  lemma {:induction false} StubHidesRow()
    ensures
      var stub, row := Row(1, 2, true), Row(2, 1, false);
      && Slice(Listing(Heads([[stub, row]], FetchSize(1, 0))), 0, 1) == []
      && Slice(Listing([[stub, row]]), 0, 1) == [row]
  {
    hide Sort, Merge;
    var stub, row := Row(1, 2, true), Row(2, 1, false);
    var lists := [[stub, row]];
    assert [stub, row][..1] == [stub];
    assert |Heads(lists, 1)| == 1 && Heads(lists, 1)[0] == [stub];
    assert Heads(lists, 1) == [[stub]];
    FilterTwo(stub, row);
    assert Filtered([[stub]])[0] == [] && Filtered(lists)[0] == [row];
    assert Filtered([[stub]]) == [[]] && Filtered(lists) == [[row]];
    ConcatOne([]);
    ConcatOne([row]);
    SortSorted(Stamp(), []);
    SortSorted(Stamp(), [row]);
  }

  lemma {:induction false} ConcatOne(s: seq<Row>)
    ensures Concat([s]) == s
  {
    assert [s][..0] == [];
  }

  lemma {:induction false} FilterTwo(a: Row, b: Row)
    requires a.stub && !b.stub
    ensures Filter([a], NotStub()) == [] && Filter([a, b], NotStub()) == [b]
  {
    assert [a, b][..1] == [a] && [a][..0] == [];
  }

  lemma {:induction false} SameRow(s: seq<Row>, a: Row, b: Row)
    requires Distinct(s) && a in s && b in s && a.id == b.id
    ensures a == b
  {
    var i :| 0 <= i < |s| && s[i] == a;
    var j :| 0 <= j < |s| && s[j] == b;
    if i < j {
      assert false;
    } else if j < i {
      assert false;
    }
  }

  lemma {:induction false} CountOnce(s: seq<Row>, x: Row)
    requires Distinct(s) && x in s
    ensures multiset(s)[x] == 1
  {
    var i :| 0 <= i < |s| && s[i] == x;
    assert s == s[..i] + [x] + s[i + 1..];
    assert forall y :: y in s[..i] || y in s[i + 1..] ==> y.id != x.id;
    assert multiset(s)[x] == multiset(s[..i])[x] + multiset([x])[x] + multiset(s[i + 1..])[x];
  }

  lemma {:induction false} CountTwice(s: seq<Row>, i: nat, j: nat)
    requires i < j < |s| && s[i] == s[j]
    ensures multiset(s)[s[i]] >= 2
  {
    assert s == s[..j] + s[j..];
    assert s[..j][i] == s[i] && s[j..][0] == s[i];
    assert multiset(s)[s[i]] == multiset(s[..j])[s[i]] + multiset(s[j..])[s[i]];
  }

  /** Distinct rows stay distinct in any order. */
  lemma {:induction false} DistinctPermuted(a: seq<Row>, b: seq<Row>)
    requires Distinct(a) && multiset(a) == multiset(b)
    ensures Distinct(b)
  {
    forall i, j | 0 <= i < j < |b| ensures b[i].id != b[j].id {
      assert b[i] in multiset(b) && b[j] in multiset(b);
      assert b[i] in a && b[j] in a;
      if b[i].id == b[j].id {
        SameRow(a, b[i], b[j]);
        CountTwice(b, i, j);
        CountOnce(a, b[i]);
      }
    }
  }

  lemma {:induction false} FilteredRows(lists: seq<seq<Row>>)
    requires Distinct(Concat(lists))
    ensures Distinct(Concat(Filtered(lists)))
    ensures forall r :: r in Concat(Filtered(lists)) ==> r in Concat(lists)
    decreases |lists|
  {
    if lists != [] {
      var init, last := lists[..|lists| - 1], lists[|lists| - 1];
      HeadsSplit(lists, 0);
      DistinctParts(Concat(init), last);
      FilteredRows(init);
      FilterDistinct(last);
      DistinctJoin(Concat(Filtered(init)), Filter(last, NotStub()));
    }
  }

  lemma {:induction false} FilterDistinct(s: seq<Row>)
    requires Distinct(s)
    ensures Distinct(Filter(s, NotStub())) && forall r :: r in Filter(s, NotStub()) ==> r in s
    decreases |s|
  {
    if s != [] {
      var init, last := s[..|s| - 1], s[|s| - 1];
      assert s == init + [last];
      DistinctParts(init, [last]);
      FilterDistinct(init);
    }
  }

  lemma {:induction false} DistinctJoin(a: seq<Row>, b: seq<Row>)
    requires Distinct(a) && Distinct(b) && forall x, y :: x in a && y in b ==> x.id != y.id
    ensures Distinct(a + b)
  {
    forall i, j | 0 <= i < j < |a + b| ensures (a + b)[i].id != (a + b)[j].id {
      if i < |a| <= j {
        assert a[i] in a && b[j - |a|] in b;
      } else if |a| <= i {
        assert b[i - |a|].id != b[j - |a|].id;
      }
    }
  }

  lemma {:induction false} ListingDistinct(lists: seq<seq<Row>>)
    requires Distinct(Concat(lists))
    ensures Distinct(Listing(lists))
  {
    FilteredRows(lists);
    var s := Concat(Filtered(lists));
    SortSpec(Stamp(), s, 0);
    DistinctPermuted(s, Sort(Stamp(), s));
  }

  // ---------------------------------------------------------------------
  // Without stubs
  // ---------------------------------------------------------------------

  ghost predicate Stubless(lists: seq<seq<Row>>) {
    forall d :: 0 <= d < |lists| ==> Sorted(Stamp(), lists[d]) && forall r :: r in lists[d] ==> !r.stub
  }

  /** Where no stub is listed, every page is the right stretch of one global order. */
  lemma {:induction false} StublessPages(lists: seq<seq<Row>>, limit: nat, offset: nat)
    requires Stubless(lists) && limit + offset <= USIZE_MAX
    ensures Slice(Listing(Heads(lists, FetchSize(limit, offset))), offset, limit)
        == Slice(Listing(lists), offset, limit)
  {
    hide Slice, Filter, Sort, Concat;
    var n := limit + offset;
    var heads := Heads(lists, n);
    forall d | 0 <= d < |lists|
        ensures Filter(lists[d], NotStub()) == lists[d] && Filter(heads[d], NotStub()) == heads[d] {
      FilterAll(lists[d], NotStub());
      FilterAll(heads[d], NotStub());
    }
    assert Filtered(lists) == lists && Filtered(heads) == heads;
    FanOutIsGlobal(Stamp(), lists, heads, n);
    SliceOfTake(Listing(heads), offset, limit);
    SliceOfTake(Listing(lists), offset, limit);
  }

  /** The first `count` pages of `limit` rows, one after the other. */
  function Pages(lists: seq<seq<Row>>, limit: nat, count: nat): seq<Row> {
    if count == 0 then []
    else
      var offset := limit * (count - 1);
      Pages(lists, limit, count - 1) + Slice(Listing(Heads(lists, FetchSize(limit, offset))), offset, limit)
  }

  /** Successive pages neither overlap nor skip: together they are the listing. */
  lemma {:induction false} PagesTile(lists: seq<seq<Row>>, limit: nat, count: nat)
    requires Stubless(lists) && limit * count <= USIZE_MAX
    ensures Pages(lists, limit, count) == Take(Listing(lists), limit * count)
    decreases count
  {
    hide Listing;
    if count > 0 {
      var offset := limit * (count - 1);
      assert offset + limit == limit * count;
      PagesTile(lists, limit, count - 1);
      StublessPages(lists, limit, offset);
      TakeAndSlice(Listing(lists), offset, limit);
    }
  }

  lemma {:induction false} TakeAndSlice<T>(s: seq<T>, offset: nat, limit: nat)
    ensures Take(s, offset + limit) == Take(s, offset) + Slice(s, offset, limit)
  {
  }
}
