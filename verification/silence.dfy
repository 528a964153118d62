/** Nothing is lost in silence, and nothing is claimed beyond what was read. */
module Silence {
  import opened Text
  import opened Wire
  import opened Streams
  import opened Paging
  import opened Mirrors
  import opened Trust
  import opened Following
  import opened Producing
  import opened Worlds
  import opened Systems

  /** The next item applied is the next one, or its own page declared the loss. */
  predicate Linked(a: Applied, b: Applied) {
    if a.epoch == b.epoch
    then b.seqNo == a.seqNo + 1 || (a.seqNo < b.seqNo && b.declared == Some(BufferExpired))
    else b.declared == Some(ConnectorRestart)
  }

  ghost predicate TraceOk(x: System) {
    && (x.trace == [] <==> x.r.epoch.None?)
    && (x.trace != [] ==>
          x.trace[|x.trace| - 1].epoch == x.r.epoch.value && x.trace[|x.trace| - 1].seqNo == x.position)
    && AllLinked(x.trace)
  }

  ghost predicate AllLinked(trace: seq<Applied>) {
    forall i :: 0 <= i < |trace| - 1 ==> Linked(trace[i], trace[i + 1])
  }

  lemma {:induction false} LinkedConcat(a: seq<Applied>, b: seq<Applied>)
    requires AllLinked(a) && AllLinked(b) && (a != [] && b != [] ==> Linked(a[|a| - 1], b[0]))
    ensures AllLinked(a + b)
  {
    var c := a + b;
    forall i | 0 <= i < |c| - 1 ensures Linked(c[i], c[i + 1]) {
      if i < |a| - 1 {
        assert c[i] == a[i] && c[i + 1] == a[i + 1];
      } else if i == |a| - 1 {
        assert c[i] == a[i] && c[i + 1] == b[0];
      } else {
        assert c[i] == b[i - |a|] && c[i + 1] == b[i + 1 - |a|];
      }
    }
  }

  lemma {:induction false} AdvancedTrace(x: System, now: Time, start: Start, upto: nat, page: Page)
    requires PositionOk(x) && TraceOk(x) && GoodStart(x, start, upto) && page.epoch == x.w.s.b.epoch
    ensures TraceOk(Advance(x, now, start, upto, page))
  {
    var n := Advance(x, now, start, upto, page);
    ReadIntoFields(x.r, page);
    var entries := Entries(x.w.s.b.epoch, start.after, upto - start.after, start.declared);
    LinkedConcat(x.trace, entries);
    if entries == [] {
      assert n.trace == x.trace;
    }
  }

  lemma {:induction false} TraceStays(x: System, move: Move)
    requires BufferOk(x.w) && PlaceOk(x) && TraceOk(x) && CanMove(x, move)
    ensures TraceOk(MoveTo(x, move))
  {
    if move.Reads? && StartFor(x).Ok? {
      ReadIsGood(x, move.limit, move.now);
      AdvancedTrace(x, move.now, StartFor(x).value, Upto(x, move.limit), PageFor(x, move.limit, move.now).value);
    }
  }

  lemma {:induction false} HistoryKeepsTrace(xs: seq<System>, moves: seq<Move>, i: nat)
    requires IsHistory(xs, moves) && i < |xs|
    ensures TraceOk(xs[i])
  {
    if i > 0 {
      HistoryKeepsTrace(xs, moves, i - 1);
      HistoryKeepsMirror(xs, moves, i - 1);
      TraceStays(xs[i - 1], moves[i - 1]);
    }
  }

  /** Over every run: within one connector run the numbers applied increase, each by one unless that very page declared
      an expired buffer; and the first item of another connector run comes on a page that declared the restart. */
  lemma {:induction false} NoSilentLoss(xs: seq<System>, moves: seq<Move>, i: nat, k: nat)
    requires IsHistory(xs, moves) && i < |xs| && k + 1 < |xs[i].trace|
    ensures Linked(xs[i].trace[k], xs[i].trace[k + 1])
  {
    HistoryKeepsTrace(xs, moves, i);
  }

  // ---- completeness ---------------------------------------------------------------------------

  lemma {:induction false} HistoryStays(x: System, move: Move)
    requires x.r.mirror == Fold(EMPTY, x.history) && CanMove(x, move)
    ensures MoveTo(x, move).r.mirror == Fold(EMPTY, MoveTo(x, move).history)
  {
    if move.Reads? && StartFor(x).Ok? {
      var page := PageFor(x, move.limit, move.now).value;
      ReadIntoFields(x.r, page);
      FoldConcat(EMPTY, x.history, ItemsIn(Ordered(page)));
    }
  }

  lemma {:induction false} HistoryStarts(x: System)
    ensures Initial(x) ==> x.r.mirror == Fold(EMPTY, x.history)
  {
  }

  lemma {:induction false} HistoryIsFolded(xs: seq<System>, moves: seq<Move>, i: nat)
    requires IsHistory(xs, moves) && i < |xs|
    ensures xs[i].r.mirror == Fold(EMPTY, xs[i].history)
  {
    hide MoveTo, CanMove, Fold;
    HistoryStarts(xs[0]);
    if i > 0 {
      HistoryIsFolded(xs, moves, i - 1);
      HistoryStays(xs[i - 1], moves[i - 1]);
    }
  }

  /** Over every run, the reader answers exactly when every gap it read that needs a new snapshot was followed by a
      finished one, every failed read by an accepted listing, and no snapshot is half read; and it claims a scope
      complete exactly when the scope's latest listing was complete and every gap of it was healed. */
  lemma {:induction false} NeverOverClaims(xs: seq<System>, moves: seq<Move>, i: nat, scope: Scope)
    requires IsHistory(xs, moves) && i < |xs|
    ensures var h, m := xs[i].history, xs[i].r.mirror;
            && (Serves(m) <==> Rebuilt(h, |h|) && !SnapshotOpen(h, |h|) && Reached(h, |h|))
            && (scope in m.completed - m.gapped <==> ListedComplete(h, |h|, scope) && !GapOpen(h, |h|, scope))
  {
    HistoryIsFolded(xs, moves, i);
    ServesExactly(xs[i].history);
    ClaimsExactly(xs[i].history, scope);
  }
}
