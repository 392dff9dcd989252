/** The two-level embedding cache: an in-memory LRU in front of a persistent map,
    both keyed by model fingerprint, purpose and text. */
module EmbedCache {
  import opened Prelude

  type Vector = seq<real>

  datatype Purpose = Raw | Query | Document

  function PurposeLabel(p: Purpose): string {
    match p
    case Raw => "raw"
    case Query => "query"
    case Document => "document"
  }

  function Key(fingerprint: string, p: Purpose, text: string): string {
    "om-embed-v1\0" + fingerprint + "\0" + PurposeLabel(p) + "\0" + text
  }

  // ---------------------------------------------------------------------
  // Keys
  // ---------------------------------------------------------------------

  /** Under one fingerprint a key stands for one purpose and one text. */
  lemma {:induction false} KeyInjective(fingerprint: string, p: Purpose, text: string, q: Purpose, other: string)
    requires Key(fingerprint, p, text) == Key(fingerprint, q, other)
    ensures p == q && text == other
  {
    var head := "om-embed-v1\0" + fingerprint + "\0";
    var a, b := PurposeLabel(p) + "\0" + text, PurposeLabel(q) + "\0" + other;
    assert Key(fingerprint, p, text) == head + a && Key(fingerprint, q, other) == head + b;
    assert (head + a)[|head|..] == a && (head + b)[|head|..] == b;
    assert a[0] == b[0];
    assert a[|PurposeLabel(p)| + 1..] == text && b[|PurposeLabel(q)| + 1..] == other;
  }

  /** What a model contributes to its fingerprint, already printed. */
  datatype Model = Model(name: string, dimensions: string, maxTokens: string, pooling: string, tensor: string,
                         searchPrefix: string, documentPrefix: string)

  function Fingerprint(m: Model): string {
    m.name + ":" + m.dimensions + ":" + m.maxTokens + ":" + m.pooling + ":" + m.tensor + ":" + m.searchPrefix + ":"
    + m.documentPrefix
  }

  // ---------------------------------------------------------------------
  // Fingerprints
  // ---------------------------------------------------------------------

  /** The parts of a text, one colon between any two. */
  function Join(parts: seq<string>): string {
    if parts == [] then ""
    else if |parts| == 1 then parts[0]
    else parts[0] + ":" + Join(parts[1..])
  }

  predicate ColonFree(parts: seq<string>) { forall i :: 0 <= i < |parts| ==> ':' !in parts[i] }

  lemma {:induction false} JoinCons(x: string, rest: seq<string>)
    requires rest != []
    ensures Join([x] + rest) == x + ":" + Join(rest)
  {
    assert ([x] + rest)[1..] == rest;
  }

  /** Where the first colon is. */
  lemma {:induction false} FirstColon(x: string, rest: string, y: string, other: string)
    requires ':' !in x && x + ":" + rest == y + ":" + other
    ensures |x| <= |y|
    ensures |x| == |y| ==> x == y && rest == other
    ensures |x| < |y| ==> x == y[..|x|] && y[|x|] == ':' && rest == y[|x| + 1..] + ":" + other
  {
    var whole := x + ":" + rest;
    assert whole[..|x|] == x && whole[|x|] == ':' && whole[|x| + 1..] == rest;
    assert whole == y + ":" + other && whole[..|y|] == y && whole[|y|] == ':' && whole[|y| + 1..] == other;
    assert forall k :: 0 <= k < |x| ==> whole[k] == x[k] && x[k] != ':';
    if |y| < |x| {
      assert false;
    } else if |x| < |y| {
      assert y == whole[..|y|];
      assert whole[|x| + 1..] == whole[|x| + 1..|y|] + [whole[|y|]] + whole[|y| + 1..];
    }
  }

  lemma {:induction false} HasColon(parts: seq<string>)
    requires |parts| > 1
    ensures ':' in Join(parts)
  {
    assert Join(parts)[|parts[0]|] == ':';
  }

  /** A text cannot be cut into more parts than its colons allow, and a cut into
      colon-free parts is the only one into so many. */
  lemma {:induction false} ColonFreeCut(a: seq<string>, b: seq<string>)
    requires a != [] && b != [] && ColonFree(a) && Join(a) == Join(b)
    ensures |b| <= |a| && (|b| == |a| ==> a == b)
    decreases |a|
  {
    if |b| == 1 {
      assert |a| == 1 ==> a[0] == b[0] && a == [a[0]] && b == [b[0]];
    } else {
      HasColon(b);
      if |a| == 1 {
        assert false;
      } else {
        FirstColon(a[0], Join(a[1..]), b[0], Join(b[1..]));
        assert a == [a[0]] + a[1..] && b == [b[0]] + b[1..];
        if |a[0]| == |b[0]| {
          ColonFreeCut(a[1..], b[1..]);
        } else {
          var rest := [b[0][|a[0]| + 1..]] + b[1..];
          JoinCons(b[0][|a[0]| + 1..], b[1..]);
          ColonFreeCut(a[1..], rest);
        }
      }
    }
  }

  /** A colon that is part of the text can move to the neighbouring part. */
  lemma {:induction false} ColonMoves(before: seq<string>, u: string, v: string, y: string, after: seq<string>)
    ensures Join(before + [u + ":" + v, y] + after) == Join(before + [u, v + ":" + y] + after)
    decreases |before|
  {
    if before == [] {
      var tail := Join([v + ":" + y] + after);
      assert [] + [u + ":" + v, y] + after == [u + ":" + v] + ([y] + after);
      assert [] + [u, v + ":" + y] + after == [u] + ([v + ":" + y] + after);
      JoinCons(u + ":" + v, [y] + after);
      JoinCons(u, [v + ":" + y] + after);
      if after != [] {
        JoinCons(y, after);
        JoinCons(v + ":" + y, after);
        assert v + ":" + (y + ":" + Join(after)) == (v + ":" + y) + ":" + Join(after);
      } else {
        assert [y] + after == [y] && [v + ":" + y] + after == [v + ":" + y];
      }
      assert u + ":" + v + ":" + Join([y] + after) == u + ":" + tail;
    } else {
      var rest := before[1..];
      ColonMoves(rest, u, v, y, after);
      JoinCons(before[0], rest + [u + ":" + v, y] + after);
      JoinCons(before[0], rest + [u, v + ":" + y] + after);
      assert before + [u + ":" + v, y] + after == [before[0]] + (rest + [u + ":" + v, y] + after);
      assert before + [u, v + ":" + y] + after == [before[0]] + (rest + [u, v + ":" + y] + after);
    }
  }

  /** Parts with a colon in them can be cut in another way. */
  lemma {:induction false} OtherCut(a: seq<string>) returns (b: seq<string>)
    requires |a| > 1 && !ColonFree(a)
    ensures |b| == |a| && b != a && Join(b) == Join(a)
  {
    var i :| 0 <= i < |a| && ':' in a[i];
    var k :| 0 <= k < |a[i]| && a[i][k] == ':';
    var u, v := a[i][..k], a[i][k + 1..];
    assert a[i] == u + ":" + v;
    if i + 1 < |a| {
      b := a[..i] + [u, v + ":" + a[i + 1]] + a[i + 2..];
      ColonMoves(a[..i], u, v, a[i + 1], a[i + 2..]);
      assert a == a[..i] + [u + ":" + v, a[i + 1]] + a[i + 2..];
      assert b[i] != a[i];
    } else {
      b := a[..i - 1] + [a[i - 1] + ":" + u, v] + [];
      ColonMoves(a[..i - 1], a[i - 1], u, v, []);
      assert a == a[..i - 1] + [a[i - 1], u + ":" + v] + [];
      assert b[i] != a[i];
    }
  }

  /** A list of parts is the only one of its length with its text exactly if no part
      has a colon. */
  lemma {:induction false} OnlyCutIff(a: seq<string>)
    requires |a| > 1
    ensures (forall b :: |b| == |a| && Join(b) == Join(a) ==> b == a) <==> ColonFree(a)
  {
    if ColonFree(a) {
      forall b | |b| == |a| && Join(b) == Join(a) ensures b == a {
        ColonFreeCut(a, b);
      }
    } else {
      var b := OtherCut(a);
      assert |b| == |a| && Join(b) == Join(a);
    }
  }

  function Parts(m: Model): seq<string> {
    [m.name, m.dimensions, m.maxTokens, m.pooling, m.tensor, m.searchPrefix, m.documentPrefix]
  }

  function FromParts(parts: seq<string>): Model
    requires |parts| == 7
  {
    Model(parts[0], parts[1], parts[2], parts[3], parts[4], parts[5], parts[6])
  }

  /** The parts that a configuration is free to choose. */
  function FreeParts(m: Model): seq<string> { [m.tensor, m.searchPrefix, m.documentPrefix] }

  function FixedText(m: Model): string {
    m.name + ":" + m.dimensions + ":" + m.maxTokens + ":" + m.pooling + ":"
  }

  lemma {:induction false} JoinThree(x: string, y: string, z: string)
    ensures Join([x, y, z]) == x + ":" + (y + ":" + z)
  {
    JoinCons(y, [z]);
    JoinCons(x, [y, z]);
    assert [x] + [y, z] == [x, y, z] && [y] + [z] == [y, z];
  }

  lemma {:induction false} FingerprintText(m: Model)
    ensures Fingerprint(m) == FixedText(m) + Join(FreeParts(m))
    ensures Fingerprint(m) == Join(Parts(m))
  {
    hide Join;
    var free := FreeParts(m);
    JoinThree(m.tensor, m.searchPrefix, m.documentPrefix);
    JoinCons(m.pooling, free);
    JoinCons(m.maxTokens, [m.pooling] + free);
    JoinCons(m.dimensions, [m.maxTokens] + ([m.pooling] + free));
    JoinCons(m.name, [m.dimensions] + ([m.maxTokens] + ([m.pooling] + free)));
    assert Parts(m) == [m.name] + ([m.dimensions] + ([m.maxTokens] + ([m.pooling] + free)));
    var inner := m.pooling + ":" + Join(free);
    assert Fingerprint(m) == m.name + ":" + (m.dimensions + ":" + (m.maxTokens + ":" + inner));
    assert Fingerprint(m) == FixedText(m) + Join(free);
  }

  /** The exact condition: a fingerprint belongs to one model if and only if no part
      of that model has a colon in it. */
  lemma {:induction false} FingerprintSeparatesIff(m: Model)
    ensures (forall n :: Fingerprint(n) == Fingerprint(m) ==> n == m) <==> ColonFree(Parts(m))
  {
    hide Fingerprint, Join, ColonFree;
    OnlyCutIff(Parts(m));
    FingerprintText(m);
    if ColonFree(Parts(m)) {
      forall n | Fingerprint(n) == Fingerprint(m) ensures n == m {
        FingerprintText(n);
        assert FromParts(Parts(n)) == n && FromParts(Parts(m)) == m;
      }
    } else {
      var b :| |b| == |Parts(m)| && Join(b) == Join(Parts(m)) && b != Parts(m);
      var n := FromParts(b);
      assert Parts(n) == b;
      FingerprintText(n);
      assert n != m;
    }
  }

  /** The same among models that agree in name, dimensions, token limit and pooling,
      of which the middle two are numbers: it is the output tensor and the two
      prefixes that must be free of colons. */
  lemma {:induction false} TaskSettingsSeparateIff(m: Model)
    ensures (forall n :: FixedText(n) == FixedText(m) && n.name == m.name && n.dimensions == m.dimensions
                      && n.maxTokens == m.maxTokens && n.pooling == m.pooling && Fingerprint(n) == Fingerprint(m)
                      ==> n == m)
       <==> ColonFree(FreeParts(m))
  {
    hide Fingerprint, Join, ColonFree, FixedText;
    OnlyCutIff(FreeParts(m));
    FingerprintText(m);
    if ColonFree(FreeParts(m)) {
      forall n | FixedText(n) == FixedText(m) && n.name == m.name && n.dimensions == m.dimensions
              && n.maxTokens == m.maxTokens && n.pooling == m.pooling && Fingerprint(n) == Fingerprint(m)
        ensures n == m
      {
        FingerprintText(n);
        SameTail(FixedText(m), Join(FreeParts(n)), Join(FreeParts(m)));
        assert FreeParts(n) == FreeParts(m);
        assert n.tensor == FreeParts(n)[0] && n.searchPrefix == FreeParts(n)[1] && n.documentPrefix == FreeParts(n)[2];
      }
    } else {
      var b :| |b| == |FreeParts(m)| && Join(b) == Join(FreeParts(m)) && b != FreeParts(m);
      var n := m.(tensor := b[0], searchPrefix := b[1], documentPrefix := b[2]);
      assert FreeParts(n) == b;
      SameFixed(n, m);
      FingerprintText(n);
      assert n != m;
    }
  }

  lemma {:induction false} SameTail(head: string, a: string, b: string)
    requires head + a == head + b
    ensures a == b
  {
    assert (head + a)[|head|..] == a && (head + b)[|head|..] == b;
  }

  lemma {:induction false} SameFixed(n: Model, m: Model)
    requires n.name == m.name && n.dimensions == m.dimensions && n.maxTokens == m.maxTokens && n.pooling == m.pooling
    ensures FixedText(n) == FixedText(m)
  {
  }

  /** The task prefixes of the default model. */
  const SEARCH_PREFIX := "search_query: "

  const DOCUMENT_PREFIX := "search_document: "

  /** The default model fails the condition: move the colon of its search prefix to the
      document prefix, and another configuration has its fingerprint. */
  lemma {:induction false} DefaultPrefixesCollide(m: Model)
    requires m.searchPrefix == SEARCH_PREFIX && m.documentPrefix == DOCUMENT_PREFIX
    ensures var n := m.(searchPrefix := "search_query", documentPrefix := " :search_document: ");
      n != m && Fingerprint(n) == Fingerprint(m)
    ensures !ColonFree(FreeParts(m))
  {
    hide Join;
    var n := m.(searchPrefix := "search_query", documentPrefix := " :search_document: ");
    assert |n.searchPrefix| < |m.searchPrefix|;
    var head := FixedText(m) + m.tensor + ":";
    assert Fingerprint(m) == head + (SEARCH_PREFIX + ":" + DOCUMENT_PREFIX);
    assert Fingerprint(n) == head + ("search_query" + ":" + " :search_document: ");
    assert SEARCH_PREFIX + ":" + DOCUMENT_PREFIX == "search_query" + ":" + " :search_document: ";
    assert SEARCH_PREFIX[12] == ':' && FreeParts(m)[1] == SEARCH_PREFIX;
  }

  // ---------------------------------------------------------------------
  // Grouping positions by key
  // ---------------------------------------------------------------------

  /** Each open position is listed under its key, and nothing else is. */
  ghost predicate Groups(keys: seq<string>, open: set<nat>, groups: map<string, seq<nat>>) {
    && (forall i :: i in open ==> i < |keys| && keys[i] in groups && i in groups[keys[i]])
    && (forall k :: k in groups ==> groups[k] != [])
    && (forall k, j :: k in groups && 0 <= j < |groups[k]| ==>
          groups[k][j] < |keys| && keys[groups[k][j]] == k && groups[k][j] in open)
  }

  function Open(results: seq<Option<Vector>>): set<nat> { set i | 0 <= i < |results| && results[i].None? }

  method GroupByKey(keys: seq<string>, results: seq<Option<Vector>>) returns (groups: map<string, seq<nat>>)
    requires |keys| == |results|
    ensures Groups(keys, Open(results), groups)
  {
    groups := map[];
    var n := 0;
    while n < |keys|
      invariant n <= |keys|
      invariant Groups(keys, (set i | 0 <= i < n && results[i].None?), groups)
    {
      if results[n].None? {
        groups := groups[keys[n] := (if keys[n] in groups then groups[keys[n]] else []) + [n]];
      }
      n := n + 1;
    }
  }

  /** The positions of one key are exactly the open ones with that key. */
  lemma {:induction false} GroupPositions(keys: seq<string>, results: seq<Option<Vector>>,
      groups: map<string, seq<nat>>, k: string)
    requires |keys| == |results| && Groups(keys, Open(results), groups) && k in groups
    ensures forall i: nat :: i in groups[k] <==> i < |keys| && keys[i] == k && results[i].None?
  {
    forall i: nat | i < |keys| && keys[i] == k && results[i].None? ensures i in groups[k] {
      assert i in Open(results);
    }
  }

  method Fill(results: seq<Option<Vector>>, positions: seq<nat>, v: Vector) returns (filled: seq<Option<Vector>>)
    requires forall p :: p in positions ==> p < |results|
    ensures |filled| == |results|
    ensures forall i :: 0 <= i < |results| ==> filled[i] == if i in positions then Some(v) else results[i]
  {
    filled := results;
    var n := 0;
    while n < |positions|
      invariant n <= |positions| && |filled| == |results|
      invariant forall i :: 0 <= i < |results| ==> filled[i] == if i in positions[..n] then Some(v) else results[i]
    {
      assert positions[n] in positions;
      filled := filled[positions[n] := Some(v)];
      assert positions[..n + 1] == positions[..n] + [positions[n]];
      n := n + 1;
    }
    assert positions[..n] == positions;
  }

  /** The keys of a hash map, in whatever order it yields them. */
  method AnyOrder(keys: set<string>) returns (order: seq<string>)
    ensures Distinct(order) && forall k :: k in order <==> k in keys
  {
    order := [];
    var rest := keys;
    while rest != {}
      invariant rest <= keys && Distinct(order) && forall k :: k in order <==> k in keys - rest
      decreases rest
    {
      var k :| k in rest;
      assert k !in order;
      order := order + [k];
      rest := rest - {k};
    }
  }

  ghost predicate Distinct(s: seq<string>) {
    forall i, j :: 0 <= i < j < |s| ==> s[i] != s[j]
  }

  // ---------------------------------------------------------------------
  // The cache
  // ---------------------------------------------------------------------

  /** The cache holds nothing under our keys but the function's values. */
  ghost predicate Faithful(fingerprint: string, f: (Purpose, string) -> Vector, cache: map<string, Vector>) {
    forall p, text :: Key(fingerprint, p, text) in cache ==> cache[Key(fingerprint, p, text)] == f(p, text)
  }

  /** Every entry of `part` comes from one of the two. */
  ghost predicate From(part: map<string, Vector>, a: map<string, Vector>, b: map<string, Vector>) {
    forall k :: k in part ==> (k in a && part[k] == a[k]) || (k in b && part[k] == b[k])
  }

  function Find(cache: map<string, Vector>, k: string): Option<Vector> {
    if k in cache then Some(cache[k]) else None
  }

  /** What the two levels answer for a key, the persistent one where it can be read. */
  function Cached(memory: map<string, Vector>, persistent: map<string, Vector>, readable: set<string>,
      k: string): Option<Vector> {
    if k in memory then Some(memory[k]) else if k in readable then Find(persistent, k) else None
  }

  /** A key has an answer exactly if memory holds it or the persistent level can be read. */
  lemma {:induction false} CachedIff(memory: map<string, Vector>, persistent: map<string, Vector>,
      readable: set<string>, k: string)
    ensures Cached(memory, persistent, readable, k).Some? <==> k in memory || (k in readable && k in persistent)
  {
  }

  ghost predicate Pointwise(f: (Purpose, string) -> Vector, p: Purpose, compute: seq<string> -> seq<Vector>) {
    forall texts :: |compute(texts)| == |texts| ==> forall i :: 0 <= i < |texts| ==> compute(texts)[i] == f(p, texts[i])
  }

  lemma {:induction false} FromFaithful(fingerprint: string, f: (Purpose, string) -> Vector,
                                        part: map<string, Vector>, a: map<string, Vector>, b: map<string, Vector>)
    requires From(part, a, b) && Faithful(fingerprint, f, a) && Faithful(fingerprint, f, b)
    ensures Faithful(fingerprint, f, part)
  {
  }

  /** What is computed for the missing keys, as a cache of its own. */
  function Computed(order: seq<string>, vectors: seq<Vector>): map<string, Vector>
    requires |order| == |vectors|
  {
    if order == [] then map[]
    else Computed(order[..|order| - 1], vectors[..|order| - 1])[order[|order| - 1] := vectors[|order| - 1]]
  }

  lemma {:induction false} ComputedAt(order: seq<string>, vectors: seq<Vector>)
    requires |order| == |vectors| && Distinct(order)
    ensures Computed(order, vectors).Keys == set k | k in order
    ensures forall i :: 0 <= i < |order| ==>
        order[i] in Computed(order, vectors) && Computed(order, vectors)[order[i]] == vectors[i]
    decreases |order|
  {
    if order != [] {
      var n := |order| - 1;
      ComputedAt(order[..n], vectors[..n]);
      assert forall k :: k in order <==> k in order[..n] || k == order[n];
      forall i | 0 <= i < n
          ensures order[i] in Computed(order, vectors) && Computed(order, vectors)[order[i]] == vectors[i] {
        assert order[..n][i] == order[i];
      }
    }
  }

  /** What was asked for is in the persistent level now, and nothing else has changed there. */
  ghost predicate Kept(fingerprint: string, f: (Purpose, string) -> Vector, p: Purpose, asked: seq<string>,
                       before: map<string, Vector>, after: map<string, Vector>) {
    && (forall t :: t in asked ==> Key(fingerprint, p, t) in after && after[Key(fingerprint, p, t)] == f(p, t))
    && (forall k :: k in after ==> k in before || exists t :: t in asked && k == Key(fingerprint, p, t))
    && forall k :: k in before ==>
         k in after && (after[k] == before[k] || exists t :: t in asked && k == Key(fingerprint, p, t))
  }

  lemma {:induction false} ComputedKept(fingerprint: string, f: (Purpose, string) -> Vector, p: Purpose,
      asked: seq<string>, order: seq<string>, vectors: seq<Vector>, before: map<string, Vector>)
    requires |order| == |vectors| == |asked| && Distinct(order)
    requires forall i :: 0 <= i < |order| ==> order[i] == Key(fingerprint, p, asked[i])
    requires Faithful(fingerprint, f, Computed(order, vectors))
    ensures Kept(fingerprint, f, p, asked, before, before + Computed(order, vectors))
  {
    hide Key, Distinct;
    ComputedAt(order, vectors);
    forall k | k in Computed(order, vectors) ensures exists t :: t in asked && k == Key(fingerprint, p, t) {
      var i :| 0 <= i < |order| && order[i] == k;
      assert asked[i] in asked;
    }
    forall t | t in asked ensures Key(fingerprint, p, t) in Computed(order, vectors) {
      var i :| 0 <= i < |asked| && asked[i] == t;
      assert order[i] in order;
    }
  }

  /** So the same texts, where they can be read, are not computed again, whatever has
      been pushed out of memory in between. */
  lemma {:induction false} AskedOnce(fingerprint: string, f: (Purpose, string) -> Vector, p: Purpose,
      asked: seq<string>, before: map<string, Vector>, after: map<string, Vector>, memory: map<string, Vector>,
      readable: set<string>, t: string)
    requires Kept(fingerprint, f, p, asked, before, after) && t in asked && Key(fingerprint, p, t) in readable
    requires Faithful(fingerprint, f, memory)
    ensures Cached(memory, after, readable, Key(fingerprint, p, t)) == Some(f(p, t))
  {
    hide Key;
    assert Key(fingerprint, p, t) in after;
  }

  class CachedEmbedder {
    const fingerprint: string
    var memory: map<string, Vector>
    var persistent: map<string, Vector>

    constructor (fingerprint: string, persistent: map<string, Vector>)
      ensures this.fingerprint == fingerprint && memory == map[] && this.persistent == persistent
    {
      this.fingerprint := fingerprint;
      memory, this.persistent := map[], persistent;
    }

    /** Storing in the LRU may push anything else out. */
    method Put(k: string, v: Vector)
      modifies this`memory
      ensures k in memory && memory[k] == v
      ensures forall x :: x in memory && x != k ==> x in old(memory) && memory[x] == old(memory)[x]
    {
      var pushedOut: set<string> := *;
      memory := memory[k := v] - (pushedOut - {k});
    }

    method LookUp(keys: seq<string>) returns (results: seq<Option<Vector>>)
      ensures |results| == |keys|
      ensures forall i :: 0 <= i < |keys| ==>
        results[i] == Find(memory, keys[i]) == if keys[i] in memory then Some(memory[keys[i]]) else None
    {
      results := [];
      var n := 0;
      while n < |keys|
        invariant n <= |keys| && |results| == n
        invariant forall i :: 0 <= i < n ==> results[i] == Find(memory, keys[i])
      {
        results := results + [Find(memory, keys[n])];
        n := n + 1;
      }
    }

    /** Second level: fills what the persistent cache can answer, promotes it to the
        first, and returns the groups that are still missing. */
    method LoadPersistent(keys: seq<string>, before: seq<Option<Vector>>, uncached: map<string, seq<nat>>,
        readable: set<string>)
      returns (results: seq<Option<Vector>>, missing: map<string, seq<nat>>)
      requires |keys| == |before| && Groups(keys, Open(before), uncached)
      modifies this`memory
      ensures |results| == |keys| && Groups(keys, Open(results), missing)
      ensures forall i :: 0 <= i < |keys| ==>
        results[i] == if before[i].Some? then before[i] else if keys[i] in readable then Find(persistent, keys[i])
          else None
      ensures From(memory, old(memory), persistent)
      ensures forall k :: k in missing ==> !(k in readable && k in persistent)
    {
      results, missing := before, map[];
      var unique := AnyOrder(uncached.Keys);
      var n := 0;
      while n < |unique|
        invariant n <= |unique| && |results| == |keys|
        invariant forall i :: 0 <= i < |keys| ==>
          results[i] == if before[i].None? && keys[i] in unique[..n] && keys[i] in readable
            then Find(persistent, keys[i]) else before[i]
        invariant missing.Keys == set k | k in unique[..n] && !(k in readable && k in persistent)
        invariant forall k :: k in missing ==> k in uncached && missing[k] == uncached[k]
        invariant From(memory, old(memory), persistent)
      {
        var key := unique[n];
        assert unique[..n + 1] == unique[..n] + [key];
        var positions := uncached[key];
        GroupPositions(keys, before, uncached, key);
        if key in readable && key in persistent {
          results := Fill(results, positions, persistent[key]);
          Put(key, persistent[key]);
        } else {
          missing := missing[key := positions];
        }
        n := n + 1;
      }
      assert unique[..n] == unique;
    }

    /** Puts the computed vectors into both levels and into their positions. */
    method StoreComputed(keys: seq<string>, before: seq<Option<Vector>>, missing: map<string, seq<nat>>,
                         order: seq<string>, vectors: seq<Vector>)
      returns (results: seq<Option<Vector>>)
      requires |keys| == |before| && Groups(keys, Open(before), missing)
      requires |order| == |vectors| && Distinct(order) && forall k :: k in order <==> k in missing
      modifies this
      ensures |results| == |keys|
      ensures forall i :: 0 <= i < |keys| ==>
        results[i] == if before[i].Some? then before[i] else Find(Computed(order, vectors), keys[i])
      ensures persistent == old(persistent) + Computed(order, vectors)
      ensures From(memory, old(memory), Computed(order, vectors))
    {
      hide Computed, Groups, Open, Distinct;
      ghost var computed := Computed(order, vectors);
      ComputedAt(order, vectors);
      results := before;
      persistent := persistent + Computed(order, vectors);
      ghost var stored := persistent;
      var n := 0;
      while n < |order|
        invariant n <= |order| && |results| == |keys| && persistent == stored
        invariant forall i :: 0 <= i < |keys| ==>
          results[i] == if before[i].None? && keys[i] in order[..n] then Find(computed, keys[i]) else before[i]
        invariant From(memory, old(memory), computed)
      {
        assert order[..n + 1] == order[..n] + [order[n]];
        assert order[n] in missing;
        GroupPositions(keys, before, missing, order[n]);
        results := Fill(results, missing[order[n]], vectors[n]);
        Put(order[n], vectors[n]);
        n := n + 1;
      }
      assert order[..n] == order;
    }

    /** Both levels' answers, and the groups neither can answer. */
    method Gather(keys: seq<string>, readable: set<string>)
      returns (results: seq<Option<Vector>>, missing: map<string, seq<nat>>)
      modifies this`memory
      ensures |results| == |keys| && Groups(keys, Open(results), missing)
      ensures forall i :: 0 <= i < |keys| ==> results[i] == Cached(old(memory), persistent, readable, keys[i])
      ensures From(memory, old(memory), persistent)
    {
      results := LookUp(keys);
      var uncached := GroupByKey(keys, results);
      results, missing := LoadPersistent(keys, results, uncached, readable);
    }

    /** Asks for the missing texts and stores the answers, unless their number is wrong. */
    method ComputeMissing(texts: seq<string>, keys: seq<string>, p: Purpose, compute: seq<string> -> seq<Vector>,
        before: seq<Option<Vector>>, missing: map<string, seq<nat>>, ghost first: map<string, Vector>,
        ghost readable: set<string>, ghost f: (Purpose, string) -> Vector)
      returns (results: seq<Option<Vector>>, asked: seq<string>)
      requires KeysOf(fingerprint, p, texts, keys) && |before| == |keys| && Groups(keys, Open(before), missing)
      requires forall i :: 0 <= i < |keys| ==> before[i] == Cached(first, persistent, readable, keys[i])
      requires Faithful(fingerprint, f, memory) && Faithful(fingerprint, f, persistent) && Pointwise(f, p, compute)
      modifies this
      ensures Faithful(fingerprint, f, memory) && Faithful(fingerprint, f, persistent)
      ensures Distinct(asked) && forall t :: t in asked <==>
        t in texts && Cached(first, old(persistent), readable, Key(fingerprint, p, t)).None?
      ensures |results| == |texts|
      ensures |compute(asked)| == |asked| ==> forall i :: 0 <= i < |texts| && before[i].None? ==>
          results[i] == Some(f(p, texts[i]))
      ensures |compute(asked)| == |asked| ==> Kept(fingerprint, f, p, asked, old(persistent), persistent)
      ensures |compute(asked)| != |asked| ==>
          results == before && memory == old(memory) && persistent == old(persistent)
      ensures forall i :: 0 <= i < |texts| && before[i].Some? ==> results[i] == before[i]
    {
      hide Faithful, Pointwise, Key, Cached, From;
      var order := AnyOrder(missing.Keys);
      asked := TextsOf(texts, keys, missing, order);
      MissingTexts(fingerprint, p, texts, keys, first, persistent, readable, before, missing, order, asked);
      var vectors := compute(asked);
      if |vectors| != |asked| {
        return before, asked;
      }
      ghost var was := memory;
      ComputedFaithful(fingerprint, f, p, order, asked, vectors, compute);
      MergedFaithful(fingerprint, f, persistent, Computed(order, vectors));
      results := StoreComputed(keys, before, missing, order, vectors);
      FromFaithful(fingerprint, f, memory, was, Computed(order, vectors));
      OpenComputed(fingerprint, f, p, texts, keys, before, missing, order, vectors);
      ComputedKept(fingerprint, f, p, asked, order, vectors, old(persistent));
    }

    /** The vectors of `texts`, in order: from memory, else from the persistent cache,
        else computed.  `asked` is what was handed to `compute`. */
    method EmbedCached(texts: seq<string>, p: Purpose, compute: seq<string> -> seq<Vector>, readable: set<string>,
                       ghost f: (Purpose, string) -> Vector)
      returns (result: seq<Vector>, asked: seq<string>)
      requires Faithful(fingerprint, f, memory) && Faithful(fingerprint, f, persistent) && Pointwise(f, p, compute)
      modifies this
      ensures Faithful(fingerprint, f, memory) && Faithful(fingerprint, f, persistent)
      ensures |result| == |texts|
      ensures Distinct(asked)
      ensures forall t :: t in asked <==>
        var k := Key(fingerprint, p, t);
        t in texts && k !in old(memory) && !(k in readable && k in old(persistent))
      ensures asked == [] || |compute(asked)| == |asked| ==> forall i :: 0 <= i < |texts| ==>
          result[i] == f(p, texts[i])
      ensures asked == [] || |compute(asked)| == |asked| ==>
        Kept(fingerprint, f, p, asked, old(persistent), persistent)
      ensures asked != [] && |compute(asked)| != |asked| ==>
        && persistent == old(persistent) && From(memory, old(memory), old(persistent))
        && forall i :: 0 <= i < |texts| ==>
             result[i] == if Cached(old(memory), old(persistent), readable, Key(fingerprint, p, texts[i])).Some?
               then f(p, texts[i]) else []
    {
      hide Faithful, Pointwise, Key, From, Groups, Open;
      forall k {
        CachedIff(old(memory), old(persistent), readable, k);
      }
      asked := [];
      if texts == [] {
        return [], asked;
      }
      var keys := seq(|texts|, i requires 0 <= i < |texts| => Key(fingerprint, p, texts[i]));
      var results, missing := Gather(keys, readable);
      FromFaithful(fingerprint, f, memory, old(memory), persistent);
      AnswersFaithful(fingerprint, f, p, texts, keys, old(memory), persistent, readable, results);
      NothingMissing(keys, results, missing);
      if missing.Keys != {} {
        results, asked := ComputeMissing(texts, keys, p, compute, results, missing, old(memory), readable, f);
      }
      result := OrEmpty(results);
    }

    method TextsOf(texts: seq<string>, keys: seq<string>, missing: map<string, seq<nat>>,
        order: seq<string>) returns (asked: seq<string>)
      requires |texts| == |keys| && forall k :: k in order ==> k in missing
      requires forall k :: k in missing ==> missing[k] != [] && missing[k][0] < |texts|
      ensures |asked| == |order| && forall i :: 0 <= i < |order| ==> asked[i] == texts[missing[order[i]][0]]
    {
      asked := [];
      var n := 0;
      while n < |order|
        invariant n <= |order| && |asked| == n
        invariant forall i :: 0 <= i < n ==> asked[i] == texts[missing[order[i]][0]]
      {
        asked := asked + [texts[missing[order[n]][0]]];
        n := n + 1;
      }
    }
  }

  method OrEmpty(results: seq<Option<Vector>>) returns (r: seq<Vector>)
    ensures |r| == |results|
    ensures forall i :: 0 <= i < |results| ==> r[i] == if results[i].Some? then results[i].value else []
  {
    r := [];
    var n := 0;
    while n < |results|
      invariant n <= |results| && |r| == n
      invariant forall i :: 0 <= i < n ==> r[i] == if results[i].Some? then results[i].value else []
    {
      r := r + [if results[n].Some? then results[n].value else []];
      n := n + 1;
    }
  }

  ghost predicate KeysOf(fingerprint: string, p: Purpose, texts: seq<string>, keys: seq<string>) {
    |keys| == |texts| && forall i :: 0 <= i < |texts| ==> keys[i] == Key(fingerprint, p, texts[i])
  }

  /** What the two levels answered is right, and is all they can answer. */
  lemma {:induction false} AnswersFaithful(fingerprint: string, f: (Purpose, string) -> Vector, p: Purpose,
      texts: seq<string>, keys: seq<string>, memory: map<string, Vector>, persistent: map<string, Vector>,
      readable: set<string>, results: seq<Option<Vector>>)
    requires KeysOf(fingerprint, p, texts, keys) && |results| == |keys|
    requires Faithful(fingerprint, f, memory) && Faithful(fingerprint, f, persistent)
    requires forall i :: 0 <= i < |keys| ==> results[i] == Cached(memory, persistent, readable, keys[i])
    ensures forall i :: 0 <= i < |keys| ==> results[i].Some? ==> results[i].value == f(p, texts[i])
  {
  }

  /** What is asked for is each text that no level answers, once. */
  lemma {:induction false} MissingTexts(fingerprint: string, p: Purpose, texts: seq<string>, keys: seq<string>,
                                        memory: map<string, Vector>, persistent: map<string, Vector>,
                                        readable: set<string>,
                                        results: seq<Option<Vector>>, missing: map<string, seq<nat>>,
                                        order: seq<string>, asked: seq<string>)
    requires KeysOf(fingerprint, p, texts, keys) && |results| == |keys|
    requires forall i :: 0 <= i < |keys| ==> results[i] == Cached(memory, persistent, readable, keys[i])
    requires Groups(keys, Open(results), missing)
    requires Distinct(order) && forall k :: k in order <==> k in missing
    requires |asked| == |order| && forall i :: 0 <= i < |order| ==> asked[i] == texts[missing[order[i]][0]]
    ensures Distinct(asked)
    ensures forall i :: 0 <= i < |order| ==> order[i] == Key(fingerprint, p, asked[i])
    ensures forall t :: t in asked <==> t in texts && Cached(memory, persistent, readable, Key(fingerprint, p, t)).None?
  {
    hide Key;
    forall i | 0 <= i < |order|
        ensures order[i] == Key(fingerprint, p, asked[i]) && Cached(memory, persistent, readable, order[i]).None? {
      assert order[i] in missing;
      assert missing[order[i]][0] in Open(results);
    }
    forall t | t in texts && Cached(memory, persistent, readable, Key(fingerprint, p, t)).None? ensures t in asked {
      var j :| 0 <= j < |texts| && texts[j] == t;
      assert j in Open(results);
      var i :| 0 <= i < |order| && order[i] == keys[j];
      KeyInjective(fingerprint, p, asked[i], p, t);
    }
  }

  lemma {:induction false} ComputedFaithful(fingerprint: string, f: (Purpose, string) -> Vector, p: Purpose,
        order: seq<string>, asked: seq<string>, vectors: seq<Vector>, compute: seq<string> -> seq<Vector>)
    requires Pointwise(f, p, compute) && vectors == compute(asked) && |vectors| == |asked| == |order| && Distinct(order)
    requires forall i :: 0 <= i < |order| ==> order[i] == Key(fingerprint, p, asked[i])
    ensures Faithful(fingerprint, f, Computed(order, vectors))
    ensures Computed(order, vectors).Keys == set k | k in order
    ensures forall t :: Key(fingerprint, p, t) in order ==>
        Find(Computed(order, vectors), Key(fingerprint, p, t)) == Some(f(p, t))
  {
    hide Key;
    ComputedAt(order, vectors);
    forall q, t | Key(fingerprint, q, t) in Computed(order, vectors)
      ensures Computed(order, vectors)[Key(fingerprint, q, t)] == f(q, t)
    {
      var i :| 0 <= i < |order| && order[i] == Key(fingerprint, q, t);
      KeyInjective(fingerprint, p, asked[i], q, t);
    }
  }

  lemma {:induction false} MergedFaithful(fingerprint: string, f: (Purpose, string) -> Vector, a: map<string, Vector>,
      b: map<string, Vector>)
    requires Faithful(fingerprint, f, a) && Faithful(fingerprint, f, b)
    ensures Faithful(fingerprint, f, a + b)
  {
  }

  /** Every open position gets its value. */
  lemma {:induction false} OpenComputed(fingerprint: string, f: (Purpose, string) -> Vector, p: Purpose,
      texts: seq<string>, keys: seq<string>, before: seq<Option<Vector>>, missing: map<string, seq<nat>>,
      order: seq<string>, vectors: seq<Vector>)
    requires KeysOf(fingerprint, p, texts, keys) && |before| == |keys| && Groups(keys, Open(before), missing)
    requires |order| == |vectors| && forall k :: k in order <==> k in missing
    requires forall t :: Key(fingerprint, p, t) in order ==>
        Find(Computed(order, vectors), Key(fingerprint, p, t)) == Some(f(p, t))
    ensures forall i :: 0 <= i < |texts| && before[i].None? ==>
        Find(Computed(order, vectors), keys[i]) == Some(f(p, texts[i]))
  {
    hide Key, Find, Computed;
    forall i | 0 <= i < |texts| && before[i].None?
        ensures Find(Computed(order, vectors), keys[i]) == Some(f(p, texts[i])) {
      assert i in Open(before);
    }
  }

  lemma {:induction false} NothingMissing(keys: seq<string>, results: seq<Option<Vector>>,
      missing: map<string, seq<nat>>)
    requires |keys| == |results| && Groups(keys, Open(results), missing)
    ensures missing.Keys == {} ==> forall i :: 0 <= i < |keys| ==> results[i].Some?
  {
    forall i | 0 <= i < |keys| && results[i].None? ensures keys[i] in missing.Keys {
      assert i in Open(results);
    }
  }
}
