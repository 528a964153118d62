/** What the control plane makes of the stream's time and gaps: waiting until the journal provably holds everything up
    to an instant, and keeping every gap until it is on record. */
module Journaling {
  import opened Text
  import opened Wire
  import opened Streams
  import opened Mirrors
  import opened Following
  import opened ClusterReading
  import opened Paging
  import opened Producing
  import opened Worlds
  import opened Blocks
  import opened Systems
  import opened Transport
  import Losses

  /** One turn of the wait: the instant it began, the pages its journaling pass read, whether the pass succeeded, and
      whether the deadline had passed by its end. */
  datatype Turn = Turn(now: Time, pages: seq<Page>, journaled: bool, late: bool)

  function ReadAll(r: Reader, pages: seq<Page>): Reader {
    if pages == [] then r else ReadInto(ReadAll(r, pages[..|pages| - 1]), pages[|pages| - 1])
  }

  /** The reader after the first n turns. */
  function ReaderAfter(r: Reader, turns: seq<Turn>, n: nat): Reader
    requires n <= |turns|
  {
    if n == 0 then r else ReadAll(ReaderAfter(r, turns, n - 1), turns[n - 1].pages)
  }

  predicate Past(time: Option<Time>, windowEnd: Time) {
    time.Some? && time.value > windowEnd
  }

  /** The stream's time was past the window before a journaling pass that then succeeded. */
  predicate Proves(r: Reader, turns: seq<Turn>, windowEnd: Time, i: nat)
    requires i < |turns|
  {
    var time := ReaderAfter(r, turns, i).place.connectorTime;
    time.Some? && time.value > windowEnd && turns[i].journaled
  }

  /** The turn at which the wait is over. */
  predicate Stops(r: Reader, turns: seq<Turn>, windowEnd: Time, i: nat)
    requires i < |turns|
  {
    Proves(r, turns, windowEnd, i) || turns[i].late
  }

  /** Journal turn after turn until the stream's time, read before a pass that succeeds, is past the window, or the
      deadline passes. A reader that knows no stream time (none here) proves nothing and ends the wait after one
      pass. */
  method AwaitTransport(reader: StreamedClusterReader?, turns: seq<Turn>, windowEnd: Time)
    returns (proven: Option<Time>, ghost last: nat)
    requires (reader != null ==> reader.Valid()) && turns != [] && turns[|turns| - 1].late
    modifies if reader == null then {} else {reader}
    ensures last < |turns|
    ensures reader == null ==> proven == None && last == 0
    ensures reader != null ==>
              && reader.Valid() && reader.View() == ReaderAfter(old(reader.View()), turns, last + 1)
              && Stops(old(reader.View()), turns, windowEnd, last)
              && (forall i :: 0 <= i < last ==> !Stops(old(reader.View()), turns, windowEnd, i))
              && proven == if Proves(old(reader.View()), turns, windowEnd, last) then Some(turns[last].now) else None
    ensures proven.Some? ==>
              reader != null && turns[last].journaled
              && Past(ReaderAfter(old(reader.View()), turns, last).place.connectorTime, windowEnd)
    ensures reader != null && proven.None? ==> turns[last].late
  {
    if reader == null {
      return None, 0;
    }
    proven, last := AwaitStream(reader, turns, windowEnd);
  }

  method AwaitStream(reader: StreamedClusterReader, turns: seq<Turn>, windowEnd: Time)
    returns (proven: Option<Time>, ghost last: nat)
    requires reader.Valid() && turns != [] && turns[|turns| - 1].late
    modifies reader
    ensures reader.Valid() && last < |turns|
    ensures reader.View() == ReaderAfter(old(reader.View()), turns, last + 1)
    ensures Stops(old(reader.View()), turns, windowEnd, last)
    ensures forall i :: 0 <= i < last ==> !Stops(old(reader.View()), turns, windowEnd, i)
    ensures proven == if Proves(old(reader.View()), turns, windowEnd, last) then Some(turns[last].now) else None
  {
    ghost var before := reader.View();
    var i := 0;
    while true
      invariant i < |turns| && reader.Valid() && reader.View() == ReaderAfter(before, turns, i)
      invariant forall k :: 0 <= k < i ==> !Stops(before, turns, windowEnd, k)
      decreases |turns| - i
    {
      var time := reader.connectorTime;
      proven := if time.Some? && time.value > windowEnd then Some(turns[i].now) else None;
      JournalPages(reader, turns[i].pages);
      if !turns[i].journaled {
        proven := None;
      }
      if proven.Some? || turns[i].late {
        last := i;
        return;
      }
      i := i + 1;
    }
  }

  method JournalPages(reader: StreamedClusterReader, pages: seq<Page>)
    requires reader.Valid()
    modifies reader
    ensures reader.Valid() && reader.View() == ReadAll(old(reader.View()), pages)
  {
    for i := 0 to |pages|
      invariant reader.Valid() && reader.View() == ReadAll(old(reader.View()), pages[..i])
    {
      assert pages[..i + 1][..i] == pages[..i];
      reader.ApplyPage(pages[i]);
    }
    assert pages[..|pages|] == pages;
  }

  // ---- what a proof is worth ------------------------------------------------------------------

  /** The items with these numbers are among these. */
  predicate Among(numbers: set<nat>, stream: seq<Item>, items: seq<Item>) {
    forall n :: n in numbers ==> 1 <= n <= |stream| && stream[n - 1] in items
  }

  /** Every number applied in the followed run stands for an item of the history the mirror was folded from. */
  ghost predicate AppliedIsHistory(x: System) {
    Among(x.applied, x.stream, x.history)
  }

  lemma {:induction false} AmongBoth(a: set<nat>, b: set<nat>, stream: seq<Item>, some: seq<Item>, more: seq<Item>)
    requires Among(a, stream, some) && Among(b, stream, more)
    ensures Among(a + b, stream, some + more)
  {
  }

  lemma {:induction false} AdvanceAdds(x: System, now: Time, start: Start, upto: nat, page: Page)
    requires PositionOk(x) && start.after <= upto
    ensures var n := Advance(x, now, start, upto, page);
            && n.stream == x.w.s.b.log && n.history == x.history + ItemsIn(Ordered(page))
            && n.applied == (if Follows(x) then x.applied else {}) + Numbers(start.after, upto)
            && (Follows(x) ==> x.stream == n.stream)
  {
    hide ReadInto, GapsAmong, Entries, Fold;
  }

  lemma {:induction false} ServedAreAmong(x: System, now: Time, start: Start, upto: nat, page: Page)
    requires GoodRead(x, now, start, upto, page)
    ensures start.after <= upto && Among(Numbers(start.after, upto), x.w.s.b.log, ItemsIn(Ordered(page)))
  {
    ReadStarts(x, now, start, upto, page);
    hide GoodRead, Ordered;
    forall k | k in Numbers(start.after, upto)
      ensures 1 <= k <= |x.w.s.b.log| && x.w.s.b.log[k - 1] in ItemsIn(Ordered(page))
    {
      ServedIsRead(x, now, start, upto, page, k);
    }
  }

  lemma {:induction false} AdvanceApplied(x: System, now: Time, start: Start, upto: nat, page: Page)
    requires PositionOk(x) && AppliedIsHistory(x) && GoodRead(x, now, start, upto, page)
    ensures AppliedIsHistory(Advance(x, now, start, upto, page))
  {
    ServedAreAmong(x, now, start, upto, page);
    AdvanceAdds(x, now, start, upto, page);
    hide Advance, GoodRead, Among, Numbers, Ordered, PositionOk;
    var kept := if Follows(x) then x.applied else {};
    assert Among(kept, x.w.s.b.log, x.history) by {
      KeptAreAmong(x);
    }
    AmongBoth(kept, Numbers(start.after, upto), x.w.s.b.log, x.history, ItemsIn(Ordered(page)));
  }

  lemma {:induction false} KeptAreAmong(x: System)
    requires PositionOk(x) && AppliedIsHistory(x)
    ensures Among(if Follows(x) then x.applied else {}, x.w.s.b.log, x.history)
  {
  }

  lemma {:induction false} ReadStarts(x: System, now: Time, start: Start, upto: nat, page: Page)
    requires GoodRead(x, now, start, upto, page)
    ensures start.after <= upto <= |x.w.s.b.log|
  {
  }

  lemma {:induction false} ServedIsRead(x: System, now: Time, start: Start, upto: nat, page: Page, k: nat)
    requires GoodRead(x, now, start, upto, page) && start.after < k <= upto
    ensures k <= |x.w.s.b.log| && x.w.s.b.log[k - 1] in ItemsIn(Ordered(page))
  {
    hide Synthetic, MakeCursor, Jumps;
    var head := Synthetic(start.declared, now);
    assert ItemsIn(Ordered(page))[|head| + k - start.after - 1] == x.w.s.b.log[k - 1];
  }

  lemma {:induction false} GrowthApplied(x: System, n: System)
    requires AppliedIsHistory(x) && x.stream <= n.stream && n.applied == x.applied && n.history == x.history
    ensures AppliedIsHistory(n)
  {
  }

  lemma {:induction false} MoveApplied(x: System, move: Move)
    requires StreamOk(x.w) && PlaceOk(x) && AppliedIsHistory(x) && CanMove(x, move)
    ensures AppliedIsHistory(MoveTo(x, move))
  {
    match move {
      case Produces(step) =>
        EpochsStay(x.w, step);
        if !step.Restarts? {
          StepGrows(x.w, step);
        }
        GrowthApplied(x, MoveTo(x, move));
      case Forgets(_) =>
      case Reads(limit, now) =>
        if StartFor(x).Ok? {
          ReadIsGood(x, limit, now);
          AdvanceApplied(x, now, StartFor(x).value, Upto(x, limit), PageFor(x, limit, now).value);
        }
    }
  }

  lemma {:induction false} HistoryApplied(xs: seq<System>, moves: seq<Move>, i: nat)
    requires IsHistory(xs, moves) && i < |xs|
    ensures AppliedIsHistory(xs[i])
  {
    if i > 0 {
      HistoryApplied(xs, moves, i - 1);
      HistoryKeepsMirror(xs, moves, i - 1);
      MoveApplied(xs[i - 1], moves[i - 1]);
    }
  }

  /** The item numbered n of the connector run followed at c is in the history of the mirror at p, or that run declared,
      before c, the buffer expired or its own restart at an instant that reaches the item, and the gap is still
      known. */
  ghost predicate Accounted(xs: seq<System>, c: nat, p: nat, n: nat)
    requires c < |xs| && p < |xs| && 1 <= n <= |xs[c].stream| && !xs[c].stream[n - 1].Heartbeat?
  {
    || xs[c].stream[n - 1] in xs[p].history
    || (LossReaches(xs[c], xs[c].stream[n - 1].at) && xs[c].declared <= xs[p].declared)
  }

  /** Over every run of the whole system: if the stream's time is past the window at c, then at any later p, whatever
      was read between, every item of the connector run followed at c that was stamped by the end of the window is in
      the history the mirror was folded from, or accounted for by a loss that very run declared. */
  lemma {:induction false} ProofCoversWindow(xs: seq<System>, moves: seq<Move>, c: nat, p: nat, windowEnd: Time, n: nat)
    requires IsHistory(xs, moves) && c <= p < |xs|
    requires var x := xs[c];
             && x.r.place.connectorTime.Some? && windowEnd < x.r.place.connectorTime.value
             && x.r.place.firstSeq.Some? && x.r.place.firstSeq.value <= n <= |x.stream| && n > 0
             && !x.stream[n - 1].Heartbeat? && x.stream[n - 1].at <= windowEnd
    ensures Accounted(xs, c, p, n)
  {
    ConnectorTimeProves(xs, moves, c, windowEnd, n);
    HistoryApplied(xs, moves, c);
    ReadingGrows(xs, moves, c, p);
  }

  lemma {:induction false} ReadingGrows(xs: seq<System>, moves: seq<Move>, c: nat, p: nat)
    requires IsHistory(xs, moves) && c <= p < |xs|
    ensures xs[c].declared <= xs[p].declared && xs[c].history <= xs[p].history
  {
    if c < p {
      ReadingGrows(xs, moves, c, p - 1);
      MoveGrows(xs[p - 1], moves[p - 1]);
    }
  }

  lemma {:induction false} MoveGrows(x: System, move: Move)
    requires CanMove(x, move)
    ensures x.declared <= MoveTo(x, move).declared && x.history <= MoveTo(x, move).history
  {
  }

  // ---- a quiet connector ----------------------------------------------------------------------

  lemma {:induction false} BeatIsSent(w: World, now: Time)
    requires Enabled(w, Beats(now))
    ensures var n := Next(w, Beats(now));
            n.s.b.epoch == w.s.b.epoch && w.s.b.log < n.s.b.log && n.s.p == w.s.p
            && n.s.b.log[|w.s.b.log|] == ChangeHeartbeat(now)
  {
  }

  /** Over every run: once a heartbeat was sent, a reader of that connector run that has read to the end of the
      buffer has reached its instant, however little else happened. */
  lemma {:induction false} BeatIsHeard(xs: seq<System>, moves: seq<Move>, a: nat, i: nat, now: Time)
    requires IsHistory(xs, moves) && a < i < |xs| && moves[a] == Produces(Beats(now))
    requires CaughtUp(xs[i]) && xs[i].w.s.b.epoch == xs[a].w.s.b.epoch
    ensures xs[i].r.place.connectorTime.Some? && now <= xs[i].r.place.connectorTime.value
  {
    BeatIsSent(xs[a].w, now);
    Losses.LogGrows(xs, moves, a + 1, i);
    HistoryReached(xs, moves, i);
    HistoryKeepsMirror(xs, moves, i);
    HistoryKeepsTime(xs, moves, i);
    var log, n := xs[i].w.s.b.log, |xs[a].w.s.b.log|;
    assert log[n] == ChangeHeartbeat(now);
    assert xs[i].stream == log;
    hide IsHistory, TailSyncs, AheadOk, ArrivedOrCovered;
  }

  // ---- turns of a wait inside a run -----------------------------------------------------------

  ghost function PageOf(x: System, move: Move): seq<Page>
    requires CanMove(x, move)
  {
    if move.Reads? && StartFor(x).Ok? then [PageFor(x, move.limit, move.now).value] else []
  }

  /** The pages read between two states of a run. */
  ghost function PagesRead(xs: seq<System>, moves: seq<Move>, a: nat, b: nat): seq<Page>
    requires IsHistory(xs, moves) && a <= b < |xs|
  {
    if a == b then [] else PagesRead(xs, moves, a, b - 1) + PageOf(xs[b - 1], moves[b - 1])
  }

  /** Gaps may have been recorded and forgotten meanwhile. */
  predicate SameButGaps(r: Reader, q: Reader) {
    q == r.(gaps := q.gaps)
  }

  lemma {:induction false} GapsAside(r: Reader, q: Reader, ns: seq<Numbered>)
    requires SameButGaps(r, q)
    ensures SameButGaps(ApplyAll(r, ns), ApplyAll(q, ns))
  {
    if ns != [] {
      GapsAside(r, q, ns[..|ns| - 1]);
    }
  }

  lemma {:induction false} PageAside(r: Reader, q: Reader, page: Page)
    requires SameButGaps(r, q)
    ensures SameButGaps(ReadInto(r, page), ReadInto(q, page))
  {
    GapsAside(Entering(r, page.epoch), Entering(q, page.epoch), Ordered(page));
  }

  lemma {:induction false} PagesAside(r: Reader, q: Reader, pages: seq<Page>)
    requires SameButGaps(r, q)
    ensures SameButGaps(ReadAll(r, pages), ReadAll(q, pages))
  {
    if pages != [] {
      PagesAside(r, q, pages[..|pages| - 1]);
      PageAside(ReadAll(r, pages[..|pages| - 1]), ReadAll(q, pages[..|pages| - 1]), pages[|pages| - 1]);
    }
  }

  lemma {:induction false} OneMoreMove(x: System, move: Move, r: Reader, pages: seq<Page>)
    requires CanMove(x, move) && SameButGaps(ReadAll(r, pages), x.r)
    ensures SameButGaps(ReadAll(r, pages + PageOf(x, move)), MoveTo(x, move).r)
  {
    if move.Reads? && StartFor(x).Ok? {
      var page := PageFor(x, move.limit, move.now).value;
      assert (pages + [page])[..|pages|] == pages;
      PageAside(ReadAll(r, pages), x.r, page);
    } else {
      assert pages + [] == pages;
    }
  }

  lemma {:induction false} FedNothing(r: Reader)
    ensures ReadAll(r, []) == r
  {
  }

  /** The reader at a later state is the reader fed the pages read in between. */
  lemma {:induction false} ReaderFed(xs: seq<System>, moves: seq<Move>, a: nat, b: nat)
    requires IsHistory(xs, moves) && a <= b < |xs|
    ensures SameButGaps(ReadAll(xs[a].r, PagesRead(xs, moves, a, b)), xs[b].r)
  {
    hide MoveTo, CanMove, PageOf, ReadAll, Initial;
    if a < b {
      ReaderFed(xs, moves, a, b - 1);
      OneMoreMove(xs[b - 1], moves[b - 1], xs[a].r, PagesRead(xs, moves, a, b - 1));
    } else {
      FedNothing(xs[a].r);
    }
  }

  /** The turns of a wait as stretches of one run: turn i journals what is read between states cs[i] and cs[i + 1]. */
  ghost predicate TurnsOf(xs: seq<System>, moves: seq<Move>, cs: seq<nat>, turns: seq<Turn>) {
    && IsHistory(xs, moves) && |cs| == |turns| + 1
    && (forall i :: 0 <= i < |cs| ==> cs[i] < |xs|)
    && forall i :: 0 <= i < |turns| ==> TurnAt(xs, moves, cs, turns, i)
  }

  ghost predicate TurnAt(xs: seq<System>, moves: seq<Move>, cs: seq<nat>, turns: seq<Turn>, i: nat)
    requires IsHistory(xs, moves) && |cs| == |turns| + 1 && i < |turns|
    requires forall k :: 0 <= k < |cs| ==> cs[k] < |xs|
  {
    cs[i] <= cs[i + 1] && turns[i].pages == PagesRead(xs, moves, cs[i], cs[i + 1])
  }

  lemma {:induction false} ReaderAtTurn(xs: seq<System>, moves: seq<Move>, cs: seq<nat>, turns: seq<Turn>, i: nat)
    requires TurnsOf(xs, moves, cs, turns) && i <= |turns|
    ensures SameButGaps(ReaderAfter(xs[cs[0]].r, turns, i), xs[cs[i]].r)
  {
    hide IsHistory, PagesRead, ReadAll, CanMove, MoveTo;
    if i > 0 {
      ReaderAtTurn(xs, moves, cs, turns, i - 1);
      assert TurnAt(xs, moves, cs, turns, i - 1);
      PagesAside(ReaderAfter(xs[cs[0]].r, turns, i - 1), xs[cs[i - 1]].r, turns[i - 1].pages);
      ReaderFed(xs, moves, cs[i - 1], cs[i]);
    }
  }

  /** The wait inside a run of the whole system, its turns being stretches of the run in which anything else may happen
      as well: when turn `last` proves the transport, every item of the connector run followed at its beginning that was
      stamped by the end of the window is, by the end of the turn's own journaling pass, in the history the mirror was
      folded from, or accounted for by a loss that run declared. */
  lemma {:induction false} AwaitProves(xs: seq<System>, moves: seq<Move>, cs: seq<nat>, turns: seq<Turn>,
                                       windowEnd: Time, last: nat, n: nat)
    requires TurnsOf(xs, moves, cs, turns) && last < |turns| && Proves(xs[cs[0]].r, turns, windowEnd, last)
    requires var x := xs[cs[last]];
             && x.r.place.firstSeq.Some? && x.r.place.firstSeq.value <= n <= |x.stream| && n > 0
             && !x.stream[n - 1].Heartbeat? && x.stream[n - 1].at <= windowEnd
    ensures Accounted(xs, cs[last], cs[last + 1], n) && turns[last].journaled
  {
    ReaderAtTurn(xs, moves, cs, turns, last);
    assert TurnAt(xs, moves, cs, turns, last);
    ProofCoversWindow(xs, moves, cs[last], cs[last + 1], windowEnd, n);
  }

  // ---- gaps on record -------------------------------------------------------------------------

  predicate AreGaps(items: seq<Item>) {
    forall i :: 0 <= i < |items| ==> items[i].Gap?
  }

  /** Some row is this loss: its reason, its instant and its scope. Read again from the buffer it is the same loss. */
  predicate OnRecord(rows: seq<Item>, gap: Item)
    requires AreGaps(rows) && gap.Gap?
  {
    exists i :: 0 <= i < |rows| && rows[i].reason == gap.reason && rows[i].at == gap.at && rows[i].scope == gap.scope
  }

  /** The record of lost continuity: append-only, and no loss twice. */
  class GapRecord {
    var rows: seq<Item>

    ghost predicate Valid()
      reads this
    {
      && AreGaps(rows)
      && forall i, j :: 0 <= i < j < |rows| ==>
           rows[i].reason != rows[j].reason || rows[i].at != rows[j].at || rows[i].scope != rows[j].scope
    }

    constructor ()
      ensures Valid() && rows == []
    {
      rows := [];
    }

    method Record(gap: Item)
      requires Valid() && gap.Gap?
      modifies this
      ensures Valid() && OnRecord(rows, gap)
      ensures rows == if OnRecord(old(rows), gap) then old(rows) else old(rows) + [gap]
    {
      for i := 0 to |rows|
        invariant forall k :: 0 <= k < i ==>
                    rows[k].reason != gap.reason || rows[k].at != gap.at || rows[k].scope != gap.scope
      {
        if rows[i].reason == gap.reason && rows[i].at == gap.at && rows[i].scope == gap.scope {
          return;
        }
      }
      rows := rows + [gap];
      assert rows[|rows| - 1] == gap;
    }

    /** Record all of them, or, when the store gives up, the first few. */
    method RecordEach(gaps: seq<Item>, count: nat)
      requires Valid() && AreGaps(gaps) && count <= |gaps|
      modifies this
      ensures Valid() && old(rows) <= rows
      ensures forall i :: 0 <= i < count ==> OnRecord(rows, gaps[i])
      ensures forall r :: r in rows ==> r in old(rows) || r in gaps
    {
      for i := 0 to count
        invariant Valid() && old(rows) <= rows
        invariant forall r :: r in rows ==> r in old(rows) || r in gaps
        invariant forall k :: 0 <= k < i ==> OnRecord(rows, gaps[k])
      {
        ghost var before := rows;
        Record(gaps[i]);
        forall k | 0 <= k < i ensures OnRecord(rows, gaps[k]) {
          assert OnRecord(before, gaps[k]);
          StillOnRecord(before, rows, gaps[k]);
        }
      }
    }
  }

  /** The record grew by some of these gaps, and holds the first `count` of them. */
  predicate RecordedFirst(before: seq<Item>, after: seq<Item>, gaps: seq<Item>, count: nat) {
    && AreGaps(before) && AreGaps(after) && AreGaps(gaps) && before <= after && count <= |gaps|
    && (forall i :: 0 <= i < count ==> OnRecord(after, gaps[i]))
    && forall r :: r in after ==> r in before || r in gaps
  }

  /** Put on record what the reader has read, and only then let the reader forget it: after a failed write the reader
      keeps them all for the next cycle. */
  method RecordStreamGaps(reader: StreamedClusterReader, record: GapRecord, fails: Option<nat>)
    returns (forgotten: nat)
    requires reader.Valid() && record.Valid() && AreGaps(reader.streamGaps)
    modifies reader`streamGaps, record
    ensures reader.Valid() && record.Valid()
    ensures forgotten == if fails.Some? && fails.value < |old(reader.streamGaps)| then 0 else |old(reader.streamGaps)|
    ensures RecordedFirst(old(record.rows), record.rows, old(reader.streamGaps), forgotten)
    ensures reader.View() == old(reader.View()).(gaps := old(reader.streamGaps)[forgotten..])
  {
    var pending := reader.Gaps();
    if fails.Some? && fails.value < |pending| {
      record.RecordEach(pending, fails.value);
      return 0;
    }
    record.RecordEach(pending, |pending|);
    reader.ForgetGaps(|pending|);
    forgotten := |pending|;
  }

  /** In this move of a run the reader forgets, if anything, what the method above put on record. */
  predicate ForgetsRecorded(xs: seq<System>, moves: seq<Move>, rows: seq<seq<Item>>, i: nat)
    requires i < |moves| && |xs| == |moves| + 1 && |rows| == |xs|
  {
    RecordedFirst(rows[i], rows[i + 1], xs[i].r.gaps, if moves[i].Forgets? then moves[i].count else 0)
  }

  lemma {:induction false} StillOnRecord(before: seq<Item>, after: seq<Item>, gap: Item)
    requires AreGaps(before) && AreGaps(after) && before <= after && gap.Gap? && OnRecord(before, gap)
    ensures OnRecord(after, gap)
  {
    var i :| 0 <= i < |before| && before[i].reason == gap.reason && before[i].at == gap.at
             && before[i].scope == gap.scope;
    assert after[i] == before[i];
  }

  ghost predicate Kept(x: System, rows: seq<Item>) {
    AreGaps(rows) && forall g :: g in x.declared ==> g.Gap? && (OnRecord(rows, g) || g in x.r.gaps)
  }

  lemma {:induction false} KeptOn(x: System, move: Move, before: seq<Item>, after: seq<Item>)
    requires CanMove(x, move) && Kept(x, before)
    requires RecordedFirst(before, after, x.r.gaps, if move.Forgets? then move.count else 0)
    ensures Kept(MoveTo(x, move), after)
  {
    var n := MoveTo(x, move);
    GapsMove(x, move);
    forall g | g in n.declared ensures g.Gap? && (OnRecord(after, g) || g in n.r.gaps) {
      if g in x.declared && OnRecord(before, g) {
        StillOnRecord(before, after, g);
      } else if g in x.declared && g !in n.r.gaps {
        var i :| 0 <= i < move.count && x.r.gaps[i] == g;
        assert OnRecord(after, x.r.gaps[i]);
      }
    }
  }

  lemma {:induction false} KeptSoFar(xs: seq<System>, moves: seq<Move>, rows: seq<seq<Item>>, i: nat)
    requires IsHistory(xs, moves) && |rows| == |xs| && i < |xs| && AreGaps(rows[0])
    requires forall k :: 0 <= k < |moves| ==> ForgetsRecorded(xs, moves, rows, k)
    ensures Kept(xs[i], rows[i])
  {
    if i > 0 {
      KeptSoFar(xs, moves, rows, i - 1);
      assert ForgetsRecorded(xs, moves, rows, i - 1);
      KeptOn(xs[i - 1], moves[i - 1], rows[i - 1], rows[i]);
    }
  }

  lemma {:induction false} AmongExactly(items: seq<Item>, gap: Item)
    ensures gap in GapsAmong(items) <==> gap in items && gap.Gap?
  {
    if items != [] {
      AmongExactly(items[..|items| - 1], gap);
      assert items == items[..|items| - 1] + [items[|items| - 1]];
    }
  }

  lemma {:induction false} DeclaredMove(x: System, move: Move, gap: Item)
    requires CanMove(x, move) && (gap in x.declared <==> gap in x.history && gap.Gap?)
    ensures gap in MoveTo(x, move).declared <==> gap in MoveTo(x, move).history && gap.Gap?
  {
    hide ReadInto, Entries, Fold, Numbers, GapsAmong;
    if move.Reads? && StartFor(x).Ok? {
      AmongExactly(ItemsIn(Ordered(PageFor(x, move.limit, move.now).value)), gap);
    }
  }

  /** The gaps read are the gaps among the items applied. */
  lemma {:induction false} DeclaredAreRead(xs: seq<System>, moves: seq<Move>, i: nat, gap: Item)
    requires IsHistory(xs, moves) && i < |xs|
    ensures gap in xs[i].declared <==> gap in xs[i].history && gap.Gap?
  {
    hide CanMove, MoveTo;
    if i > 0 {
      DeclaredAreRead(xs, moves, i - 1, gap);
      DeclaredMove(xs[i - 1], moves[i - 1], gap);
    }
  }

  /** As long as gaps are forgotten only once recorded, every gap ever read has a row of its reason, its instant and its
      scope, or is still with the reader. */
  lemma {:induction false} NoGapIsLost(xs: seq<System>, moves: seq<Move>, rows: seq<seq<Item>>, i: nat, gap: Item)
    requires IsHistory(xs, moves) && |rows| == |xs| && i < |xs| && AreGaps(rows[0])
    requires forall k :: 0 <= k < |moves| ==> ForgetsRecorded(xs, moves, rows, k)
    requires gap in xs[i].history && gap.Gap?
    ensures AreGaps(rows[i])
    ensures || gap in xs[i].r.gaps
            || exists k :: 0 <= k < |rows[i]| && rows[i][k].reason == gap.reason && rows[i][k].at == gap.at
                           && rows[i][k].scope == gap.scope
  {
    KeptSoFar(xs, moves, rows, i);
    DeclaredAreRead(xs, moves, i, gap);
  }

  /** And nothing is on record that was not there before, or read. */
  lemma {:induction false} NoGapIsInvented(xs: seq<System>, moves: seq<Move>, rows: seq<seq<Item>>, i: nat, gap: Item)
    requires IsHistory(xs, moves) && |rows| == |xs| && i < |xs|
    requires forall k :: 0 <= k < |moves| ==> ForgetsRecorded(xs, moves, rows, k)
    ensures gap in rows[i] ==> gap in rows[0] || gap in xs[i].declared
  {
    if i > 0 && gap in rows[i] {
      assert ForgetsRecorded(xs, moves, rows, i - 1);
      NoGapIsInvented(xs, moves, rows, i - 1, gap);
      ReadingGrows(xs, moves, i - 1, i);
      if gap in xs[i - 1].r.gaps {
        HistoryKeepsTime(xs, moves, i - 1);
        UnrecordedAreRead(xs[i - 1]);
      }
    }
  }

  lemma {:induction false} UnrecordedAreRead(x: System)
    requires TimeOk(x)
    ensures forall g :: g in x.r.gaps ==> g in x.declared
  {
  }

  lemma {:induction false} AmongAreGaps(items: seq<Item>)
    ensures AreGaps(GapsAmong(items))
  {
    if items != [] {
      AmongAreGaps(items[..|items| - 1]);
    }
  }

  /** A move declares gaps only by reading them, and takes them from the reader only by forgetting the first few. */
  lemma {:induction false} GapsMove(x: System, move: Move)
    requires CanMove(x, move)
    ensures var n := MoveTo(x, move);
            forall g :: (g in n.declared && g !in x.declared ==> g in n.r.gaps && g.Gap?)
                        && (g in x.r.gaps && g !in n.r.gaps ==>
                              move.Forgets? && move.count <= |x.r.gaps| && g in x.r.gaps[..move.count])
  {
    var n := MoveTo(x, move);
    match move {
      case Produces(_) =>
      case Forgets(count) => assert x.r.gaps == x.r.gaps[..count] + x.r.gaps[count..];
      case Reads(limit, now) =>
        if StartFor(x).Ok? {
          var page := PageFor(x, limit, now).value;
          ReadIntoFields(x.r, page);
          AmongAreGaps(ItemsIn(Ordered(page)));
        }
    }
  }
}
