/** The per-shard journal file.

    A record is written as its JSON text followed, in a separate write, by a
    newline.  The file is modelled at that grain, so a crash can leave the last
    line cut short or leave a whole record without its newline. */
module Journal {
  import opened Requests

  datatype Entry = Entry(num: nat, req: Request)

  /** What one write puts into the file; a crash in the middle of a record's
      text leaves a `Fragment` of it. */
  datatype Token = Body(entry: Entry) | Newline | Fragment

  datatype Layout = Layout(lines: seq<seq<Token>>, rest: seq<Token>)

  /** The newline-terminated lines of the file and the unterminated rest. */
  function Split(ts: seq<Token>): Layout {
    if ts == [] then Layout([], [])
    else
      var before := Split(ts[..|ts| - 1]);
      match ts[|ts| - 1]
      case Newline => Layout(before.lines + [before.rest], [])
      case t => Layout(before.lines, before.rest + [t])
  }

  /** A line parses exactly when it is one whole record. */
  function ParseLine(line: seq<Token>): seq<Entry> {
    if |line| == 1 && line[0].Body? then [line[0].entry] else []
  }

  function ParseLines(lines: seq<seq<Token>>): seq<Entry> {
    if lines == [] then [] else ParseLines(lines[..|lines| - 1]) + ParseLine(lines[|lines| - 1])
  }

  /** Every record a reader of the file can still parse, in file order. */
  function Read(ts: seq<Token>): seq<Entry> {
    ParseLines(Split(ts).lines) + ParseLine(Split(ts).rest)
  }

  /** The next write starts a new line. */
  predicate AtLineStart(ts: seq<Token>) {
    Split(ts).rest == []
  }

  /** What an undisturbed journal of `entries` holds. */
  function Render(entries: seq<Entry>): (ts: seq<Token>)
    ensures |ts| == 2 * |entries|
  {
    if entries == [] then []
    else Render(entries[..|entries| - 1]) + [Body(entries[|entries| - 1]), Newline]
  }

  /** The entries are whole in the file; only the very end may be unfinished. */
  ghost predicate Holds(ts: seq<Token>, entries: seq<Entry>) {
    || ts == Render(entries)
    || ts == Render(entries) + [Fragment]
    || (entries != [] && ts == Render(entries[..|entries| - 1]) + [Body(entries[|entries| - 1])])
  }

  lemma {:induction false} SplitSnoc(ts: seq<Token>, t: Token)
    ensures t == Newline ==> Split(ts + [t]) == Layout(Split(ts).lines + [Split(ts).rest], [])
    ensures t != Newline ==> Split(ts + [t]) == Layout(Split(ts).lines, Split(ts).rest + [t])
  {
    assert (ts + [t])[..|ts + [t]| - 1] == ts;
  }

  lemma {:induction false} ParseSnoc(lines: seq<seq<Token>>, line: seq<Token>)
    ensures ParseLines(lines + [line]) == ParseLines(lines) + ParseLine(line)
  {
    assert (lines + [line])[..|lines + [line]| - 1] == lines;
  }

  /** Appending keeps what was readable and makes the new record readable
      exactly when the file ends at a line boundary. */
  lemma {:induction false} AppendReadable(ts: seq<Token>, e: Entry)
    ensures Read(ts + [Body(e), Newline]) == Read(ts) + [e] <==> AtLineStart(ts)
    ensures AtLineStart(ts + [Body(e), Newline])
  {
    hide Split, ParseLines;
    var s := Split(ts);
    SplitSnoc(ts, Body(e));
    SplitSnoc(ts + [Body(e)], Newline);
    assert ts + [Body(e)] + [Newline] == ts + [Body(e), Newline];
    ParseSnoc(s.lines, s.rest + [Body(e)]);
    assert Read(ts + [Body(e), Newline]) == ParseLines(s.lines) + ParseLine(s.rest + [Body(e)]);
    if AtLineStart(ts) {
      assert s.rest + [Body(e)] == [Body(e)];
    } else {
      assert |s.rest + [Body(e)]| > 1;
    }
  }

  /** An unfinished last line costs nothing by itself. */
  lemma {:induction false} UnfinishedTail(ts: seq<Token>, e: Entry)
    requires AtLineStart(ts)
    ensures Read(ts + [Fragment]) == Read(ts) && !AtLineStart(ts + [Fragment])
    ensures Read(ts + [Body(e)]) == Read(ts) + [e] && !AtLineStart(ts + [Body(e)])
  {
    hide Split, ParseLines;
    SplitSnoc(ts, Fragment);
    SplitSnoc(ts, Body(e));
    assert Split(ts).rest + [Body(e)] == [Body(e)];
  }

  lemma {:induction false} RenderSplit(entries: seq<Entry>)
    ensures AtLineStart(Render(entries))
    ensures Read(Render(entries)) == entries
  {
    if entries == [] {
    } else {
      var n := |entries| - 1;
      RenderSplit(entries[..n]);
      AppendReadable(Render(entries[..n]), entries[n]);
      var ts := Render(entries);
      assert ts[|ts| - 1] == Newline;
    }
  }

  lemma {:induction false} RenderPrefix(entries: seq<Entry>, k: nat)
    requires k <= |entries|
    ensures Render(entries)[..2 * k] == Render(entries[..k])
    ensures k < |entries| ==> Render(entries)[2 * k] == Body(entries[k])
    ensures k < |entries| ==> Render(entries)[2 * k + 1] == Newline
  {
    if k == |entries| {
      assert entries[..k] == entries;
    } else {
      var n := |entries| - 1;
      RenderPrefix(entries[..n], k);
      assert entries[..n][..k] == entries[..k];
    }
  }

  /** A cut file with `extra` at its end: what a crash leaves behind. */
  function Cut(ts: seq<Token>, kept: nat, torn: bool): seq<Token>
    requires kept <= |ts|
  {
    ts[..kept] + if torn then [Fragment] else []
  }

  predicate CutAllowed(ts: seq<Token>, kept: nat, torn: bool) {
    kept <= |ts| && (torn ==> kept < |ts| && ts[kept].Body?)
  }

  /** How many records survive in the first `kept` tokens. */
  function Whole(kept: nat): nat { (kept + 1) / 2 }

  function Min(a: nat, b: nat): nat { if a < b then a else b }

  lemma {:induction false} HoldsReads(ts: seq<Token>, entries: seq<Entry>)
    requires Holds(ts, entries)
    ensures Read(ts) == entries
    ensures AtLineStart(ts) <==> ts == Render(entries)
  {
    hide Read, AtLineStart, Render;
    RenderSplit(entries);
    if ts == Render(entries) + [Fragment] {
      UnfinishedTail(Render(entries), Entry(0, Request("", 0, [], [], "")));
    } else if ts != Render(entries) {
      var n := |entries| - 1;
      RenderSplit(entries[..n]);
      UnfinishedTail(Render(entries[..n]), entries[n]);
    }
  }

  /** Up to its last line a file is what an undisturbed journal would be. */
  lemma {:induction false} HoldsPrefix(ts: seq<Token>, entries: seq<Entry>, kept: nat)
    requires Holds(ts, entries) && kept <= |ts|
    ensures kept <= 2 * |entries| ==> ts[..kept] == Render(entries)[..kept]
    ensures kept > 2 * |entries| ==> ts[..kept] == ts == Render(entries) + [Fragment]
    ensures kept < |ts| && ts[kept].Body? ==> kept < 2 * |entries| && kept % 2 == 0
  {
    hide Render;
    var m := |entries| - 1;
    if entries != [] {
      RenderPrefix(entries, m);
      assert ts == Render(entries[..m]) + [Body(entries[m])] ==>
          ts == Render(entries)[..2 * m] + [Render(entries)[2 * m]];
    }
    if kept < |ts| && kept < 2 * |entries| {
      RenderPrefix(entries, kept / 2);
      assert ts[..kept + 1] == Render(entries)[..kept + 1];
      assert ts[kept] == Render(entries)[kept];
    }
  }

  /** Whatever prefix of the file a crash keeps, it keeps a prefix of the
      entries, and never fewer of them than a shorter prefix. */
  lemma {:induction false} CutHolds(ts: seq<Token>, entries: seq<Entry>, kept: nat, torn: bool)
    requires Holds(ts, entries) && CutAllowed(ts, kept, torn)
    ensures Min(Whole(kept), |entries|) <= |entries|
    ensures Holds(Cut(ts, kept, torn), entries[..Min(Whole(kept), |entries|)])
    ensures Read(Cut(ts, kept, torn)) == entries[..Min(Whole(kept), |entries|)]
  {
    hide Render, Read;
    var n := Min(Whole(kept), |entries|);
    var cut := Cut(ts, kept, torn);
    HoldsPrefix(ts, entries, kept);
    if kept > 2 * |entries| {
      assert entries[..n] == entries && cut == ts;
    } else {
      CutRender(entries, kept);
    }
    HoldsReads(cut, entries[..n]);
  }

  lemma {:induction false} CutRender(entries: seq<Entry>, kept: nat)
    requires kept <= 2 * |entries|
    ensures Holds(Render(entries)[..kept], entries[..Whole(kept)])
    ensures kept % 2 == 0 ==> Render(entries)[..kept] == Render(entries[..Whole(kept)])
  {
    hide Render;
    var n := Whole(kept);
    RenderPrefix(entries, n);
    if kept % 2 == 1 {
      RenderPrefix(entries, n - 1);
      assert entries[..n][..n - 1] == entries[..n - 1];
      assert Render(entries)[..kept] == Render(entries)[..kept - 1] + [Render(entries)[kept - 1]];
      assert Render(entries)[..kept] == Render(entries[..n - 1]) + [Body(entries[n - 1])];
    }
  }

  // ---------------------------------------------------------------------
  // Replay
  // ---------------------------------------------------------------------

  /** The entries above the committed checkpoint, in file order. */
  function Above(entries: seq<Entry>, checkpoint: nat): seq<Entry> {
    if entries == [] then []
    else
      var last := entries[|entries| - 1];
      Above(entries[..|entries| - 1], checkpoint) + if last.num > checkpoint then [last] else []
  }

  /** The largest sequence number seen, never below `floor`. */
  function HighestSeq(entries: seq<Entry>, floor: nat): (m: nat)
    ensures m >= floor
    ensures forall e :: e in entries ==> e.num <= m
    ensures m == floor || exists e :: e in entries && e.num == m
  {
    if entries == [] then floor
    else
      var m := HighestSeq(entries[..|entries| - 1], floor);
      var last := entries[|entries| - 1];
      if last.num > m then last.num else m
  }

  predicate Numbered(entries: seq<Entry>, first: nat) {
    forall i :: 0 <= i < |entries| ==> entries[i].num == first + i
  }

  lemma {:induction false} AboveNumbered(entries: seq<Entry>, first: nat, checkpoint: nat)
    requires Numbered(entries, first) && first <= checkpoint + 1
    ensures checkpoint + 1 - first >= |entries| ==> Above(entries, checkpoint) == []
    ensures checkpoint + 1 - first < |entries| ==> Above(entries, checkpoint) == entries[checkpoint + 1 - first..]
    ensures entries == [] ==> HighestSeq(entries, checkpoint) == checkpoint
    ensures checkpoint + 1 - first >= |entries| ==> HighestSeq(entries, checkpoint) == checkpoint
    ensures checkpoint + 1 - first < |entries| ==> HighestSeq(entries, checkpoint) == first + |entries| - 1
  {
    if entries == [] {
    } else {
      var n := |entries| - 1;
      AboveNumbered(entries[..n], first, checkpoint);
      assert entries == entries[..n] + [entries[n]];
    }
  }

  lemma {:induction false} ScanSnoc(entries: seq<Entry>, e: Entry, checkpoint: nat)
    ensures Above(entries + [e], checkpoint) == Above(entries, checkpoint) + if e.num > checkpoint then [e] else []
    ensures HighestSeq(entries + [e], checkpoint)
         == if e.num > HighestSeq(entries, checkpoint) then e.num else HighestSeq(entries, checkpoint)
  {
    assert (entries + [e])[..|entries|] == entries;
  }

  /** The replay scan: walk the lines, skip what does not parse, remember the
      highest sequence number, and collect what the checkpoint does not cover. */
  method Scan(ts: seq<Token>, checkpoint: nat)
    returns (lastSeq: nat, pending: seq<Entry>, maxPending: nat)
    ensures lastSeq == HighestSeq(Read(ts), checkpoint)
    ensures pending == Above(Read(ts), checkpoint)
    ensures pending != [] ==> maxPending == lastSeq
  {
    var layout := Split(ts);
    var lines := layout.lines + if layout.rest == [] then [] else [layout.rest];
    lastSeq, pending, maxPending := checkpoint, [], 0;
    ghost var seen: seq<Entry> := [];
    var i := 0;
    while i < |lines|
      invariant 0 <= i <= |lines|
      invariant seen == ParseLines(lines[..i])
      invariant lastSeq == HighestSeq(seen, checkpoint)
      invariant pending == Above(seen, checkpoint)
      invariant checkpoint <= lastSeq
      invariant lastSeq == checkpoint || lastSeq == maxPending
      invariant maxPending <= lastSeq
      invariant pending != [] ==> maxPending > checkpoint
    {
      var line := lines[i];
      ParseTake(lines, i);
      i := i + 1;
      if line == [] || !(|line| == 1 && line[0].Body?) {
        continue;
      }
      var record := line[0].entry;
      ScanSnoc(seen, record, checkpoint);
      seen := seen + [record];
      if record.num > lastSeq {
        lastSeq := record.num;
      }
      if record.num > checkpoint {
        if record.num > maxPending {
          maxPending := record.num;
        }
        pending := pending + [record];
      }
    }
    ParseAll(ts, lines);
  }

  lemma {:induction false} ParseTake(lines: seq<seq<Token>>, i: nat)
    requires i < |lines|
    ensures ParseLines(lines[..i + 1]) == ParseLines(lines[..i]) + ParseLine(lines[i])
  {
    assert lines[..i + 1] == lines[..i] + [lines[i]];
    ParseSnoc(lines[..i], lines[i]);
  }

  lemma {:induction false} ParseAll(ts: seq<Token>, lines: seq<seq<Token>>)
    requires lines == Split(ts).lines + if Split(ts).rest == [] then [] else [Split(ts).rest]
    ensures ParseLines(lines[..|lines|]) == Read(ts)
  {
    assert lines[..|lines|] == lines;
    if Split(ts).rest == [] {
      assert lines == Split(ts).lines;
    } else {
      ParseSnoc(Split(ts).lines, Split(ts).rest);
    }
  }
}
