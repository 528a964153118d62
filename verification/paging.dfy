/** A page as its reader sees it: items and gaps back in sequence order, and whether the stream is exhausted. */
module Paging {
  import opened Text
  import opened Wire
  import opened Streams

  /** Stable insertion by sequence number, the order Python's `sorted` gives. */
  function Insert(n: Numbered, sorted: seq<Numbered>): seq<Numbered> {
    if sorted == [] || sorted[|sorted| - 1].seqNo <= n.seqNo then sorted + [n]
    else Insert(n, sorted[..|sorted| - 1]) + [sorted[|sorted| - 1]]
  }

  function SortBySeq(s: seq<Numbered>): seq<Numbered> {
    if s == [] then [] else Insert(s[|s| - 1], SortBySeq(s[..|s| - 1]))
  }

  function Ordered(page: Page): seq<Numbered> {
    SortBySeq(page.gaps + page.items)
  }

  predicate Exhausted(page: Page, limit: nat) {
    |page.items| + |page.gaps| < limit
  }

  predicate Increasing(s: seq<Numbered>) {
    forall i, j :: 0 <= i < j < |s| ==> s[i].seqNo < s[j].seqNo
  }

  predicate Above(n: Numbered, s: seq<Numbered>) {
    forall i :: 0 <= i < |s| ==> s[i].seqNo < n.seqNo
  }

  /** An element above all others is sorted to the end wherever it stood. */
  lemma {:induction false} LargestSortsLast(a: seq<Numbered>, n: Numbered, b: seq<Numbered>)
    requires Above(n, a) && Above(n, b)
    ensures SortBySeq(a + [n] + b) == SortBySeq(a + b) + [n]
    ensures |SortBySeq(a + b)| == |a| + |b| && Above(n, SortBySeq(a + b))
  {
    if b == [] {
      assert a + [n] + b == a + [n] && (a + [n])[..|a|] == a && a + b == a;
      SortKeeps(a, n);
    } else {
      var front, last := b[..|b| - 1], b[|b| - 1];
      LargestSortsLast(a, n, front);
      assert (a + [n] + b)[..|a + [n] + b| - 1] == a + [n] + front;
      assert (a + b)[..|a + b| - 1] == a + front;
      var rest := SortBySeq(a + front);
      assert (rest + [n])[..|rest|] == rest;
      InsertKeeps(last, rest, n);
    }
  }

  lemma {:induction false} InsertKeeps(x: Numbered, s: seq<Numbered>, n: Numbered)
    requires x.seqNo < n.seqNo && Above(n, s)
    ensures |Insert(x, s)| == |s| + 1 && Above(n, Insert(x, s))
  {
    if s != [] && s[|s| - 1].seqNo > x.seqNo {
      InsertKeeps(x, s[..|s| - 1], n);
    }
  }

  lemma {:induction false} SortKeeps(s: seq<Numbered>, n: Numbered)
    requires Above(n, s)
    ensures |SortBySeq(s)| == |s| && Above(n, SortBySeq(s))
  {
    if s != [] {
      SortKeeps(s[..|s| - 1], n);
      InsertKeeps(s[|s| - 1], SortBySeq(s[..|s| - 1]), n);
    }
  }

  lemma {:induction false} SplitIsBounded(run: seq<Numbered>, n: Numbered)
    ensures |ItemsOf(run)| + |GapsOf(run)| == |run|
    ensures Above(n, run) ==> Above(n, ItemsOf(run)) && Above(n, GapsOf(run))
  {
    if run != [] {
      SplitIsBounded(run[..|run| - 1], n);
    }
  }

  /** Splitting an increasing run into items and gaps and sorting the two together loses and moves nothing. */
  lemma {:induction false} SplitThenSort(run: seq<Numbered>)
    requires Increasing(run)
    ensures SortBySeq(GapsOf(run) + ItemsOf(run)) == run
  {
    if run == [] {
      assert GapsOf(run) + ItemsOf(run) == [];
    } else {
      var front, last := run[..|run| - 1], run[|run| - 1];
      SplitThenSort(front);
      LastJoins(front, last);
      assert front + [last] == run;
    }
  }

  lemma {:induction false} LastJoins(front: seq<Numbered>, last: Numbered)
    requires Above(last, front) && SortBySeq(GapsOf(front) + ItemsOf(front)) == front
    ensures SortBySeq(GapsOf(front + [last]) + ItemsOf(front + [last])) == front + [last]
  {
    SplitIsBounded(front, last);
    if last.item.Gap? {
      GapJoins(GapsOf(front), last, ItemsOf(front), front);
    } else {
      ItemJoins(GapsOf(front), ItemsOf(front), last, front);
    }
  }

  lemma {:induction false} LargestAppended(s: seq<Numbered>, n: Numbered)
    requires Above(n, s)
    ensures SortBySeq(s + [n]) == SortBySeq(s) + [n]
  {
    LargestSortsLast(s, n, []);
    assert s + [n] + [] == s + [n] && s + [] == s;
  }

  lemma {:induction false} SplitLast(front: seq<Numbered>, last: Numbered)
    ensures ItemsOf(front + [last]) == ItemsOf(front) + if last.item.Gap? then [] else [last]
    ensures GapsOf(front + [last]) == GapsOf(front) + if last.item.Gap? then [last] else []
  {
    assert (front + [last])[..|front|] == front;
  }

  lemma {:induction false} GapJoins(gaps: seq<Numbered>, last: Numbered, items: seq<Numbered>, front: seq<Numbered>)
    requires last.item.Gap? && Above(last, gaps) && Above(last, items)
    requires gaps == GapsOf(front) && items == ItemsOf(front) && SortBySeq(gaps + items) == front
    ensures SortBySeq(GapsOf(front + [last]) + ItemsOf(front + [last])) == front + [last]
  {
    SplitLast(front, last);
    assert items + [] == items;
    LargestSortsLast(gaps, last, items);
  }

  lemma {:induction false} ItemJoins(gaps: seq<Numbered>, items: seq<Numbered>, last: Numbered, front: seq<Numbered>)
    requires !last.item.Gap? && Above(last, gaps) && Above(last, items)
    requires gaps == GapsOf(front) && items == ItemsOf(front) && SortBySeq(gaps + items) == front
    ensures SortBySeq(GapsOf(front + [last]) + ItemsOf(front + [last])) == front + [last]
  {
    SplitLast(front, last);
    LargestAppended(gaps + items, last);
    assert gaps + [] == gaps;
    assert gaps + (items + [last]) == (gaps + items) + [last];
  }

  lemma {:induction false} SplitConcat(a: seq<Numbered>, b: seq<Numbered>)
    ensures GapsOf(a + b) == GapsOf(a) + GapsOf(b) && ItemsOf(a + b) == ItemsOf(a) + ItemsOf(b)
  {
    if b == [] {
      assert a + b == a;
    } else {
      var front, last := b[..|b| - 1], b[|b| - 1];
      SplitConcat(a, front);
      SplitLast(a + front, last);
      SplitLast(front, last);
      assert front + [last] == b && (a + front) + [last] == a + b;
    }
  }

  lemma {:induction false} DeclaredSplits(declared: Option<GapReason>, now: Time, served: seq<Numbered>)
    ensures GapsOf(Synthetic(declared, now) + served) == Synthetic(declared, now) + GapsOf(served)
    ensures ItemsOf(Synthetic(declared, now) + served) == ItemsOf(served)
  {
    SplitConcat(Synthetic(declared, now), served);
    SyntheticSplits(declared, now);
  }

  lemma {:induction false} DeclaredRunSorts(declared: Option<GapReason>, now: Time, served: seq<Numbered>)
    requires Increasing(served) && forall i :: 0 <= i < |served| ==> served[i].seqNo > 0
    ensures SortBySeq(Synthetic(declared, now) + GapsOf(served) + ItemsOf(served)) == Synthetic(declared, now) + served
  {
    DeclaredSplits(declared, now, served);
    SplitThenSort(Synthetic(declared, now) + served);
  }

  /** Reading back a page gives the served run, with the gap the buffer synthesised first. */
  lemma {:induction false} PagingIsLossless(b: Buffer, cursor: Option<string>, limit: nat, needsBaseline: bool,
                                            now: Time)
    requires ReadPage(b, cursor, limit, needsBaseline, now).Ok?
    ensures var start := StartOf(b, cursor, needsBaseline).value;
            Ordered(ReadPage(b, cursor, limit, needsBaseline, now).value)
            == Synthetic(start.declared, now) + Served(b, start, limit)
  {
    var start := StartOf(b, cursor, needsBaseline).value;
    DeclaredRunSorts(start.declared, now, Served(b, start, limit));
  }

  lemma {:induction false} SyntheticSplits(declared: Option<GapReason>, now: Time)
    ensures GapsOf(Synthetic(declared, now)) == Synthetic(declared, now) && ItemsOf(Synthetic(declared, now)) == []
  {
    var head := Synthetic(declared, now);
    if head != [] {
      assert head[..|head| - 1] == [];
    }
  }

  /** A page that looks exhausted is: its cursor stands at the end of the buffer. A page that does not moves the cursor
      on, unless all it carries is a declared gap. */
  lemma {:induction false} ExhaustedMeansAtTheEnd(b: Buffer, cursor: Option<string>, limit: nat, needsBaseline: bool,
                                                  now: Time)
    requires ReadPage(b, cursor, limit, needsBaseline, now).Ok?
    ensures var page := ReadPage(b, cursor, limit, needsBaseline, now).value;
            var start := StartOf(b, cursor, needsBaseline).value;
            var position := start.after + |Served(b, start, limit)|;
            && page.nextCursor == MakeCursor(b.epoch, position)
            && (Exhausted(page, limit) ==> position >= |b.log|)
            && (Exhausted(page, limit) && start.after <= |b.log| ==> position == |b.log|)
            && (!Exhausted(page, limit) && limit > 0 ==> start.after < position <= |b.log|
                                                         || (start.declared.Some? && limit == 1))
  {
    var start := StartOf(b, cursor, needsBaseline).value;
    var served := Served(b, start, limit);
    SplitIsBounded(served, Numbered(0, ChangeHeartbeat(0)));
  }
}
