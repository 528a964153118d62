/** Reading a long log completely: consecutive windows, and pages within a window from a server that returns the
    earliest entries up to a limit. */
module Pagination {
  import opened Text
  import opened Wire

  const PAGE_LIMIT: nat := 2000

  datatype Window = Window(lower: int, upper: int)

  /** One log entry; what the caller keys it by identifies it. */
  datatype Entry = Entry(ts: int, labels: string, line: string)

  /** Windows that follow one another without gap or overlap, from start to stop. */
  ghost predicate Consecutive(ws: seq<Window>, start: int, stop: int) {
    && (ws == [] <==> start > stop)
    && (ws != [] ==> ws[0].lower == start && ws[|ws| - 1].upper == stop)
    && (forall i :: 0 <= i < |ws| ==> ws[i].lower <= ws[i].upper)
    && (forall i, j :: 0 <= i && j == i + 1 && j < |ws| ==> ws[j].lower == ws[i].upper + 1)
  }

  predicate In(t: int, w: Window) {
    w.lower <= t <= w.upper
  }

  /** The instant lies in one of the first n windows. */
  predicate Covered(ws: seq<Window>, n: nat, t: int)
    requires n <= |ws|
  {
    exists i :: 0 <= i < n && In(t, ws[i])
  }

  method Windows(start: int, stop: int, step: nat) returns (ws: seq<Window>)
    ensures Consecutive(ws, start, stop)
    ensures forall i :: 0 <= i < |ws| ==> ws[i].upper - ws[i].lower <= step
    ensures forall i :: 0 <= i < |ws| ==> ws[i].upper == stop || ws[i].upper - ws[i].lower == step
  {
    ws := [];
    var cursor := start;
    while cursor <= stop
      invariant if ws == [] then cursor == start
                else Consecutive(ws, start, cursor - 1) && cursor <= stop + 1 && start <= stop
      invariant forall i :: 0 <= i < |ws| ==> ws[i].upper - ws[i].lower <= step
      invariant forall i :: 0 <= i < |ws| ==> ws[i].upper == stop || ws[i].upper - ws[i].lower == step
    {
      var upper := if stop < cursor + step then stop else cursor + step;
      ws := ws + [Window(cursor, upper)];
      cursor := upper + 1;
    }
  }

  lemma {:induction false} WindowsAscend(ws: seq<Window>, start: int, stop: int, i: nat, j: nat)
    requires Consecutive(ws, start, stop) && i < j < |ws|
    ensures ws[i].upper < ws[j].lower
  {
    var k := j - 1;
    assert ws[j].lower == ws[k].upper + 1;
    if i < k {
      WindowsAscend(ws, start, stop, i, k);
    }
  }

  /** Every instant from start to stop lies in exactly one window, and no other instant in any. */
  lemma {:induction false} WindowsCover(ws: seq<Window>, start: int, stop: int, t: int)
    requires Consecutive(ws, start, stop)
    ensures Covered(ws, |ws|, t) <==> start <= t <= stop
    ensures forall i, j :: 0 <= i < |ws| && 0 <= j < |ws| && In(t, ws[i]) && In(t, ws[j]) ==> i == j
  {
    forall i, j | 0 <= i < j < |ws| ensures ws[i].upper < ws[j].lower {
      WindowsAscend(ws, start, stop, i, j);
    }
    if start <= t <= stop {
      FindWindow(ws, start, stop, t, |ws|);
    }
  }

  lemma {:induction false} FindWindow(ws: seq<Window>, start: int, stop: int, t: int, n: nat)
    requires Consecutive(ws, start, stop) && 0 < n <= |ws| && start <= t <= ws[n - 1].upper
    ensures Covered(ws, n, t)
  {
    if t < ws[n - 1].lower {
      var k := n - 2;
      assert ws[n - 1].lower == ws[k].upper + 1;
      FindWindow(ws, start, stop, t, n - 1);
    } else {
      assert In(t, ws[n - 1]);
    }
  }

  // ---- the server -----------------------------------------------------------------------------

  predicate InTimeOrder(entries: seq<Entry>) {
    forall i, j :: 0 <= i < j < |entries| ==> entries[i].ts <= entries[j].ts
  }

  /** The entries from one instant to another, both included, in the server's order. */
  function Between(entries: seq<Entry>, lower: int, upper: int): seq<Entry> {
    if entries == [] then []
    else
      var last := entries[|entries| - 1];
      Between(entries[..|entries| - 1], lower, upper) + if lower <= last.ts <= upper then [last] else []
  }

  function First(entries: seq<Entry>, limit: nat): seq<Entry> {
    if |entries| <= limit then entries else entries[..limit]
  }

  /** One query: the earliest entries of the range, up to the limit. */
  function Query(entries: seq<Entry>, lower: int, upper: int): seq<Entry> {
    First(Between(entries, lower, upper), PAGE_LIMIT)
  }

  function CountAt(entries: seq<Entry>, t: int): (n: nat)
    ensures n <= |entries|
  {
    if entries == [] then 0
    else CountAt(entries[..|entries| - 1], t) + if entries[|entries| - 1].ts == t then 1 else 0
  }

  /** A nanosecond of the range that a whole page cannot get past. */
  ghost predicate Crowded(entries: seq<Entry>, lower: int, upper: int) {
    exists t :: lower <= t <= upper && CountAt(entries, t) >= PAGE_LIMIT
  }

  lemma {:induction false} BetweenIs(entries: seq<Entry>, lower: int, upper: int)
    requires InTimeOrder(entries)
    ensures forall e :: e in Between(entries, lower, upper) <==> e in entries && lower <= e.ts <= upper
    ensures InTimeOrder(Between(entries, lower, upper))
  {
    if entries != [] {
      var front, last := entries[..|entries| - 1], entries[|entries| - 1];
      BetweenIs(front, lower, upper);
      var before := Between(front, lower, upper);
      forall i | 0 <= i < |before| ensures before[i].ts <= last.ts {
        assert before[i] in front;
      }
      assert forall e :: e in entries <==> e in front || e == last;
    }
  }

  lemma {:induction false} CountBetween(entries: seq<Entry>, lower: int, upper: int, t: int)
    ensures CountAt(Between(entries, lower, upper), t) == if lower <= t <= upper then CountAt(entries, t) else 0
  {
    if entries != [] {
      var front, last := entries[..|entries| - 1], entries[|entries| - 1];
      var before := Between(front, lower, upper);
      CountBetween(front, lower, upper, t);
      assert (before + [last])[..|before|] == before && before + [] == before;
    }
  }

  lemma {:induction false} CountSplit(entries: seq<Entry>, k: nat, t: int)
    requires k <= |entries|
    ensures CountAt(entries, t) == CountAt(entries[..k], t) + CountAt(entries[k..], t)
  {
    if k == |entries| {
      assert entries[..k] == entries;
    } else {
      var front := entries[..|entries| - 1];
      CountSplit(front, k, t);
      assert front[..k] == entries[..k] && front[k..] == entries[k..][..|entries| - 1 - k];
    }
  }

  lemma {:induction false} CountNone(entries: seq<Entry>, t: int)
    requires forall i :: 0 <= i < |entries| ==> entries[i].ts != t
    ensures CountAt(entries, t) == 0
  {
    if entries != [] {
      CountNone(entries[..|entries| - 1], t);
    }
  }

  lemma {:induction false} CountAll(entries: seq<Entry>, t: int)
    requires forall i :: 0 <= i < |entries| ==> entries[i].ts == t
    ensures CountAt(entries, t) == |entries|
  {
    if entries != [] {
      CountAll(entries[..|entries| - 1], t);
    }
  }

  /** A page that is not full is all there is. */
  lemma {:induction false} ShortPageIsAll(entries: seq<Entry>, lower: int, upper: int)
    requires InTimeOrder(entries) && |Query(entries, lower, upper)| < PAGE_LIMIT
    ensures forall e :: e in Query(entries, lower, upper) <==> e in entries && lower <= e.ts <= upper
  {
    BetweenIs(entries, lower, upper);
  }

  /** A full page holds everything before its last instant. */
  lemma {:induction false} FullPageReaches(entries: seq<Entry>, lower: int, upper: int)
    requires InTimeOrder(entries) && |Query(entries, lower, upper)| == PAGE_LIMIT
    ensures var page := Query(entries, lower, upper);
            var last := page[PAGE_LIMIT - 1].ts;
            && lower <= last <= upper
            && (forall e :: e in page ==> e in entries && lower <= e.ts <= last)
            && (forall e :: e in entries && lower <= e.ts < last ==> e in page)
  {
    BetweenIs(entries, lower, upper);
    var all, page := Between(entries, lower, upper), Query(entries, lower, upper);
    var last := page[PAGE_LIMIT - 1];
    assert last in page && page == all[..PAGE_LIMIT];
    forall e | e in page ensures e in entries && lower <= e.ts <= last.ts {
      var i :| 0 <= i < |page| && page[i] == e;
      assert all[i] == e && e in all;
    }
    assert last in all;
    forall e | e in entries && lower <= e.ts < last.ts ensures e in page {
      assert e in all;
      var i :| 0 <= i < |all| && all[i] == e;
      assert i < PAGE_LIMIT;
      assert page[i] == e;
    }
  }

  /** While a crowded nanosecond lies ahead every page is full and ends no later than it. */
  lemma {:induction false} CrowdIsNotPassed(entries: seq<Entry>, lower: int, upper: int, t: int)
    requires InTimeOrder(entries) && lower <= t <= upper && CountAt(entries, t) >= PAGE_LIMIT
    ensures var page := Query(entries, lower, upper); |page| == PAGE_LIMIT && page[PAGE_LIMIT - 1].ts <= t
  {
    BetweenIs(entries, lower, upper);
    CountBetween(entries, lower, upper, t);
    CrowdReaches(Between(entries, lower, upper), PAGE_LIMIT, t);
  }

  lemma {:induction false} CrowdReaches(all: seq<Entry>, n: nat, t: int)
    requires InTimeOrder(all) && 0 < n <= CountAt(all, t)
    ensures n <= |all| && all[n - 1].ts <= t
  {
    if all[n - 1].ts > t {
      CountSplit(all, n - 1, t);
      CountNone(all[n - 1..], t);
    }
  }

  /** A full page that does not move on is a crowded nanosecond. */
  lemma {:induction false} StuckIsCrowded(entries: seq<Entry>, lower: int, upper: int)
    requires InTimeOrder(entries) && |Query(entries, lower, upper)| == PAGE_LIMIT
    requires Query(entries, lower, upper)[PAGE_LIMIT - 1].ts == lower
    ensures CountAt(entries, lower) >= PAGE_LIMIT
  {
    var all, page := Between(entries, lower, upper), Query(entries, lower, upper);
    FullPageReaches(entries, lower, upper);
    forall i | 0 <= i < |page| ensures page[i].ts == lower {
      assert page[i] in page;
    }
    CountAll(page, lower);
    CountSplit(all, PAGE_LIMIT, lower);
    CountBetween(entries, lower, upper, lower);
  }

  /** Every entry of one window, page by page: exactly the window's entries, unless a whole page of entries shares one
      nanosecond of it, and then an error and never a partial answer. */
  method ReadWindow(entries: seq<Entry>, start: int, stop: int) returns (r: Option<set<Entry>>)
    requires InTimeOrder(entries)
    ensures r.None? <==> Crowded(entries, start, stop)
    ensures r.Some? ==> forall e :: e in r.value <==> e in entries && start <= e.ts <= stop
  {
    var seen: set<Entry> := {};
    var cursor := start;
    while true
      invariant start <= cursor && (cursor == start || cursor <= stop)
      invariant forall e :: e in seen ==> e in entries && start <= e.ts <= stop
      invariant forall e :: e in entries && start <= e.ts < cursor && e.ts <= stop ==> e in seen
      invariant forall t :: start <= t < cursor && t <= stop ==> CountAt(entries, t) < PAGE_LIMIT
      decreases stop - cursor
    {
      var page := Query(entries, cursor, stop);
      forall t | cursor <= t <= stop && CountAt(entries, t) >= PAGE_LIMIT
        ensures |page| == PAGE_LIMIT && page[PAGE_LIMIT - 1].ts <= t {
        CrowdIsNotPassed(entries, cursor, stop, t);
      }
      seen := seen + set e | e in page;
      if |page| < PAGE_LIMIT {
        ShortPageIsAll(entries, cursor, stop);
        return Some(seen);
      }
      FullPageReaches(entries, cursor, stop);
      var last := page[PAGE_LIMIT - 1].ts;
      if last == cursor {
        StuckIsCrowded(entries, cursor, stop);
        return None;
      }
      cursor := last;
    }
  }

  /** Every entry from start to stop, window by window. */
  method ReadRange(entries: seq<Entry>, start: int, stop: int, step: nat) returns (r: Option<set<Entry>>)
    requires InTimeOrder(entries)
    ensures r.None? <==> Crowded(entries, start, stop)
    ensures r.Some? ==> forall e :: e in r.value <==> e in entries && start <= e.ts <= stop
  {
    var spans := Windows(start, stop, step);
    var seen: set<Entry> := {};
    forall t ensures Covered(spans, |spans|, t) <==> start <= t <= stop {
      WindowsCover(spans, start, stop, t);
    }
    for i := 0 to |spans|
      invariant forall e :: e in seen <==> e in entries && Covered(spans, i, e.ts)
      invariant forall k :: 0 <= k < i ==> !Crowded(entries, spans[k].lower, spans[k].upper)
    {
      var page := ReadWindow(entries, spans[i].lower, spans[i].upper);
      if page.None? {
        var t :| spans[i].lower <= t <= spans[i].upper && CountAt(entries, t) >= PAGE_LIMIT;
        assert Covered(spans, |spans|, t) by {
          assert In(t, spans[i]);
        }
        return None;
      }
      seen := seen + page.value;
    }
    forall t | start <= t <= stop ensures CountAt(entries, t) < PAGE_LIMIT {
      assert Covered(spans, |spans|, t);
      var i :| 0 <= i < |spans| && In(t, spans[i]);
      assert !Crowded(entries, spans[i].lower, spans[i].upper);
    }
    r := Some(seen);
  }
}
