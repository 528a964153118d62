/** What the connector's time proves: everything it stamped earlier has arrived, or the loss is on record. */
module Transport {
  import opened Text
  import opened Wire
  import opened Streams
  import opened Paging
  import opened Following
  import opened Mirrors
  import opened Producing
  import opened Worlds
  import opened Blocks
  import opened Systems

  /** A gap of the buffer itself: what it held was evicted, or another connector run took its place. */
  predicate ReadLoss(gap: Item) {
    gap.Gap? && gap.scope.None? && (gap.reason == BufferExpired || gap.reason == ConnectorRestart)
  }

  /** The i-th gap read was declared by the followed connector run, for a loss of the stream itself, and reaches the
      instant. */
  predicate CoversAt(x: System, i: nat, at: Time) {
    x.entered <= i < |x.declared| && ReadLoss(x.declared[i]) && at <= x.declared[i].at
  }

  /** A loss that the followed connector run declared accounts for the item numbered n of its stream. */
  ghost predicate Covered(x: System, n: nat)
    requires 1 <= n <= |x.stream| && !x.stream[n - 1].Heartbeat?
  {
    LossReaches(x, x.stream[n - 1].at)
  }

  ghost predicate LossReaches(x: System, at: Time) {
    exists i :: CoversAt(x, i, at)
  }

  ghost predicate ArrivedOrCovered(x: System, n: nat)
    requires 1 <= n <= |x.stream| && !x.stream[n - 1].Heartbeat?
  {
    n in x.applied || Covered(x, n)
  }

  /** No item past the cursor is older than the time read, unless a gap accounts for it. */
  ghost predicate AheadOk(x: System, n: nat)
    requires 1 <= n <= |x.stream| && !x.stream[n - 1].Heartbeat?
  {
    (x.r.place.connectorTime.Some? ==> x.r.place.connectorTime.value <= x.stream[n - 1].at) || Covered(x, n)
  }

  ghost predicate TimeOk(x: System) {
    && InTime(x.stream) && NoLaterThan(x.stream, x.w.now)
    && (x.r.place.connectorTime.Some? ==> x.r.place.connectorTime.value <= x.w.now)
    && (if x.r.epoch.None? then x.stream == [] && x.r.place.connectorTime.None?
        else
          && x.r.place.firstSeq.Some? && 1 <= x.r.place.firstSeq.value
          && (forall n :: x.r.place.firstSeq.value <= n <= x.position && n <= |x.stream| ==> ArrivedOrCovered(x, n))
          && (forall n :: x.position < n <= |x.stream| ==> AheadOk(x, n)))
    && x.entered <= |x.declared|
    && |x.r.gaps| <= |x.declared| && x.declared[|x.declared| - |x.r.gaps|..] == x.r.gaps
  }

  lemma {:induction false} GapsAmongConcat(a: seq<Item>, b: seq<Item>)
    ensures GapsAmong(a + b) == GapsAmong(a) + GapsAmong(b)
  {
    if b == [] {
      assert a + b == a;
    } else {
      GapsAmongConcat(a, b[..|b| - 1]);
      assert (a + b)[..|a + b| - 1] == a + b[..|b| - 1];
    }
  }

  lemma {:induction false} PutDeclaredRun(p: Place, declared: Option<GapReason>, now: Time, log: seq<Item>, after: nat,
                                          upto: nat)
    requires after <= upto <= |log| && InTime(log)
    ensures var n := PutAll(p, Synthetic(declared, now) + Run(log, after, upto));
            && n.firstSeq == (if p.firstSeq.Some? || after == upto then p.firstSeq else Some(after + 1))
            && n.connectorTime == Later(Later(p.connectorTime, if declared.Some? then Some(now) else None),
                                        if after < upto then Some(log[upto - 1].at) else None)
  {
    var head, run := Synthetic(declared, now), Run(log, after, upto);
    PutAllConcat(p, head, run);
    assert head != [] ==> head[..0] == [];
    if after < upto {
      PutRun(PutAll(p, head), log, after, upto);
    } else {
      assert run == [];
    }
  }

  /** Where a good read leaves the reader. */
  lemma {:induction false} AdvancedPut(x: System, now: Time, start: Start, upto: nat, page: Page)
    requires PositionOk(x) && TimeOk(x) && GoodRead(x, now, start, upto, page) && InTime(x.w.s.b.log)
    ensures var p, log := Advance(x, now, start, upto, page).r.place, x.w.s.b.log;
            && p.firstSeq == (if Follows(x) then x.r.place.firstSeq else Some(start.after + 1))
            && p.connectorTime == Later(
                 Later(x.r.place.connectorTime, if start.declared.Some? then Some(now) else None),
                 if start.after < upto then Some(log[upto - 1].at) else None)
  {
    ReadIntoFields(x.r, page);
    PutDeclaredRun(Entering(x.r, page.epoch).place, start.declared, now, x.w.s.b.log, start.after, upto);
  }

  lemma {:induction false} DeclaredIsKept(x: System, now: Time, start: Start, upto: nat, page: Page)
    requires GoodRead(x, now, start, upto, page)
    ensures var declared := Advance(x, now, start, upto, page).declared;
            start.declared.Some? ==>
              |x.declared| < |declared| && declared[|x.declared|] == Gap(now, start.declared.value, None, None)
  {
    if start.declared.Some? {
      var head, run := Synthetic(start.declared, now), Run(x.w.s.b.log, start.after, upto);
      var gap := head[0].item;
      GapsAmongConcat([gap], ItemsIn(run));
      assert ItemsIn(head + run) == [gap] + ItemsIn(run);
      assert [gap][..0] == [];
      assert GapsAmong([gap]) == [gap];
    }
  }

  /** The read kept everything: same items, more applied, more gaps read, its own among those of this connector run. */
  ghost predicate KeptBy(x: System, n: System, now: Time, start: Start, upto: nat) {
    && n.stream == x.w.s.b.log && n.position == upto
    && (Follows(x) ==> x.applied <= n.applied)
    && x.declared <= n.declared && n.entered == (if Follows(x) then x.entered else |x.declared|)
    && (forall k :: start.after < k <= upto ==> k in n.applied)
    && (start.declared.Some? ==>
          |x.declared| < |n.declared| && n.declared[|x.declared|] == Gap(now, start.declared.value, None, None))
  }

  lemma {:induction false} AdvanceKeeps(x: System, now: Time, start: Start, upto: nat, page: Page)
    requires GoodRead(x, now, start, upto, page)
    ensures KeptBy(x, Advance(x, now, start, upto, page), now, start, upto)
  {
    DeclaredIsKept(x, now, start, upto, page);
    AdvanceApplies(x, now, start, upto, page);
  }

  lemma {:induction false} AdvanceApplies(x: System, now: Time, start: Start, upto: nat, page: Page)
    requires GoodRead(x, now, start, upto, page)
    ensures forall k :: start.after < k <= upto ==> k in Advance(x, now, start, upto, page).applied
  {
    forall k | start.after < k <= upto ensures k in Numbers(start.after, upto) {
      assert Between(k, start.after, upto);
    }
  }

  lemma {:induction false} AdvancedArrived(x: System, n: System, now: Time, start: Start, upto: nat, k: nat)
    requires PositionOk(x) && TimeOk(x) && GoodStart(x, start, upto) && KeptBy(x, n, now, start, upto)
    requires InTime(x.w.s.b.log) && NoLaterThan(x.w.s.b.log, now)
    requires (if Follows(x) then x.r.place.firstSeq.value else start.after + 1) <= k <= upto
    ensures ArrivedOrCovered(n, k)
  {
    if k <= start.after {
      if k <= x.position {
        assert ArrivedOrCovered(x, k);
        if Covered(x, k) {
          StillCovered(x, n, k);
        }
      } else {
        assert CoversAt(n, |x.declared|, n.stream[k - 1].at);
      }
    }
  }

  lemma {:induction false} StillCovered(x: System, n: System, k: nat)
    requires x.declared <= n.declared && n.entered == x.entered
    requires 1 <= k <= |x.stream| && !x.stream[k - 1].Heartbeat? && Covered(x, k)
    requires k <= |n.stream| && n.stream[k - 1] == x.stream[k - 1]
    ensures Covered(n, k)
  {
    var i :| CoversAt(x, i, x.stream[k - 1].at);
    assert CoversAt(n, i, n.stream[k - 1].at);
  }

  lemma {:induction false} AdvancedAhead(x: System, n: System, now: Time, start: Start, upto: nat, k: nat)
    requires PositionOk(x) && TimeOk(x) && GoodStart(x, start, upto) && KeptBy(x, n, now, start, upto)
    requires InTime(x.w.s.b.log) && NoLaterThan(x.w.s.b.log, now) && upto < k <= |x.w.s.b.log|
    requires n.r.place.connectorTime == Later(
               Later(x.r.place.connectorTime, if start.declared.Some? then Some(now) else None),
               if start.after < upto then Some(x.w.s.b.log[upto - 1].at) else None)
    ensures AheadOk(n, k)
  {
    if start.declared.Some? {
      assert CoversAt(n, |x.declared|, n.stream[k - 1].at);
    } else if x.r.epoch.Some? {
      assert AheadOk(x, k);
      if Covered(x, k) {
        StillCovered(x, n, k);
      }
    }
  }

  lemma {:induction false} AdvancedGaps(x: System, now: Time, start: Start, upto: nat, page: Page)
    requires TimeOk(x)
    requires start.after <= upto
    ensures var n := Advance(x, now, start, upto, page);
            |n.r.gaps| <= |n.declared| && n.declared[|n.declared| - |n.r.gaps|..] == n.r.gaps
  {
    ReadIntoFields(x.r, page);
    hide ReadInto, GapsAmong, Fold, PutAll, Entries, ArrivedOrCovered, AheadOk, InTime;
  }

  lemma {:induction false} AdvancedTime(x: System, now: Time, start: Start, upto: nat, page: Page)
    requires PositionOk(x) && TimeOk(x) && GoodRead(x, now, start, upto, page)
    requires InTime(x.w.s.b.log) && NoLaterThan(x.w.s.b.log, x.w.now) && x.w.now <= now
    ensures TimeOk(Advance(x, now, start, upto, page))
  {
    var n := Advance(x, now, start, upto, page);
    AdvancedPut(x, now, start, upto, page);
    AdvancedGaps(x, now, start, upto, page);
    AdvanceKeeps(x, now, start, upto, page);
    EpochAfter(x, now, start, upto, page);
    forall k | n.r.place.firstSeq.value <= k <= n.position && k <= |n.stream| ensures ArrivedOrCovered(n, k) {
      AdvancedArrived(x, n, now, start, upto, k);
    }
    forall k | n.position < k <= |n.stream| ensures AheadOk(n, k) {
      AdvancedAhead(x, n, now, start, upto, k);
    }
  }

  lemma {:induction false} EpochAfter(x: System, now: Time, start: Start, upto: nat, page: Page)
    requires start.after <= upto
    ensures Advance(x, now, start, upto, page).r.epoch == Some(page.epoch)
  {
    ReadIntoFields(x.r, page);
  }

  lemma {:induction false} GrowthKeepsTime(x: System, n: System)
    requires PositionOk(x) && TimeOk(x) && x.w.now <= n.w.now && n == x.(w := n.w, stream := n.stream)
    requires x.stream <= n.stream && InTime(n.stream) && NoLaterThan(n.stream, n.w.now)
    requires forall i :: |x.stream| <= i < |n.stream| ==> StampOf(n.stream[i]) == Some(n.w.now)
    requires x.r.epoch.None? ==> n.stream == []
    ensures TimeOk(n)
  {
    if x.r.epoch.Some? {
      forall k | x.r.place.firstSeq.value <= k <= x.position && k <= |n.stream| ensures ArrivedOrCovered(n, k) {
        assert ArrivedOrCovered(x, k) && n.stream[k - 1] == x.stream[k - 1];
        if Covered(x, k) {
          StillCovered(x, n, k);
        }
      }
      forall k | x.position < k <= |n.stream| ensures AheadOk(n, k) {
        if k <= |x.stream| {
          assert AheadOk(x, k) && n.stream[k - 1] == x.stream[k - 1];
          if Covered(x, k) {
            StillCovered(x, n, k);
          }
        } else {
          assert StampOf(n.stream[k - 1]) == Some(n.w.now);
        }
      }
    }
  }

  lemma {:induction false} ReadKeepsTime(x: System, limit: nat, now: Time)
    requires StreamOk(x.w) && PlaceOk(x) && TimeOk(x) && limit > 0 && x.w.now <= now && StartFor(x).Ok?
    ensures TimeOk(Advance(x, now, StartFor(x).value, Upto(x, limit), PageFor(x, limit, now).value))
  {
    ReadIsGood(x, limit, now);
    AdvancedTime(x, now, StartFor(x).value, Upto(x, limit), PageFor(x, limit, now).value);
  }

  /** Only the gaps kept for recording differ. */
  lemma {:induction false} ForgetKeepsTime(x: System, count: nat)
    requires TimeOk(x) && count <= |x.r.gaps|
    ensures TimeOk(x.(r := x.r.(gaps := x.r.gaps[count..])))
  {
    var n := x.(r := x.r.(gaps := x.r.gaps[count..]));
    if x.r.epoch.Some? {
      forall k | x.r.place.firstSeq.value <= k <= x.position && k <= |x.stream| ensures ArrivedOrCovered(n, k) {
        assert ArrivedOrCovered(x, k);
        if Covered(x, k) {
          StillCovered(x, n, k);
        }
      }
      forall k | x.position < k <= |x.stream| ensures AheadOk(n, k) {
        assert AheadOk(x, k);
        if Covered(x, k) {
          StillCovered(x, n, k);
        }
      }
    }
  }

  lemma {:induction false} ProduceKeepsTime(x: System, step: Step)
    requires StreamOk(x.w) && PositionOk(x) && TimeOk(x) && Enabled(x.w, step)
    requires StreamOk(Next(x.w, step))
    ensures TimeOk(MoveTo(x, Produces(step)))
  {
    EpochsStay(x.w, step);
    if !step.Restarts? {
      StepGrows(x.w, step);
    }
    GrowthKeepsTime(x, MoveTo(x, Produces(step)));
  }

  lemma {:induction false} TimeStays(x: System, move: Move)
    requires StreamOk(x.w) && PlaceOk(x) && TimeOk(x) && CanMove(x, move)
    requires StreamOk(MoveTo(x, move).w)
    ensures TimeOk(MoveTo(x, move))
  {
    match move {
      case Produces(step) => ProduceKeepsTime(x, step);
      case Reads(limit, now) =>
        if StartFor(x).Ok? {
          ReadKeepsTime(x, limit, now);
        } else {
          GrowthKeepsTime(x, MoveTo(x, move));
        }
      case Forgets(count) => ForgetKeepsTime(x, count);
    }
  }

  lemma {:induction false} HistoryKeepsTime(xs: seq<System>, moves: seq<Move>, i: nat)
    requires IsHistory(xs, moves) && i < |xs|
    ensures TimeOk(xs[i])
  {
    if i > 0 {
      HistoryKeepsTime(xs, moves, i - 1);
      HistoryKeepsMirror(xs, moves, i - 1);
      HistoryKeepsMirror(xs, moves, i);
      TimeStays(xs[i - 1], moves[i - 1]);
    }
  }

  /** Over every run: when the connector's time read is later than T, every item of the followed connector run from the
      first one read on that was stamped at or before T has been applied, or that very run declared the buffer expired,
      or its own restart, at an instant that reaches the item. Gaps leave the reader only to be recorded. */
  lemma {:induction false} ConnectorTimeProves(xs: seq<System>, moves: seq<Move>, i: nat, t: Time, n: nat)
    requires IsHistory(xs, moves) && i < |xs|
    requires var x := xs[i];
             && x.r.place.connectorTime.Some? && t < x.r.place.connectorTime.value
             && x.r.place.firstSeq.Some? && x.r.place.firstSeq.value <= n <= |x.stream| && n > 0
             && !x.stream[n - 1].Heartbeat? && x.stream[n - 1].at <= t
    ensures ArrivedOrCovered(xs[i], n)
    ensures |xs[i].r.gaps| <= |xs[i].declared| && xs[i].declared[|xs[i].declared| - |xs[i].r.gaps|..] == xs[i].r.gaps
  {
    HistoryKeepsTime(xs, moves, i);
    var x := xs[i];
    if n > x.position {
      assert AheadOk(x, n);
    }
  }

  // ---- what a drain leaves unread -------------------------------------------------------------

  /** The unbroken stretch the reader has followed began with a snapshot, and all of it was applied. */
  ghost predicate StretchOk(x: System) {
    x.r.epoch.Some? ==>
      && 1 <= x.joined <= x.position <= |x.stream| && GlobalBegin(x.stream[x.joined - 1])
      && forall n :: x.joined <= n <= x.position ==> n in x.applied
  }

  lemma {:induction false} AdvancedStretch(x: System, now: Time, start: Start, upto: nat, page: Page)
    requires StreamOk(x.w) && PlaceOk(x) && StretchOk(x) && GoodRead(x, now, start, upto, page)
    ensures StretchOk(Advance(x, now, start, upto, page))
  {
    hide ReadInto, GapsAmong, Entries, Fold, MakeCursor, NoLaterThan, InTime;
    AdvanceApplies(x, now, start, upto, page);
    if Jumps(x, start) {
      BaselineBegins(x.w);
    }
    EpochRead(x.r, page);
  }

  lemma {:induction false} BaselineBegins(w: World)
    requires StreamOk(w) && w.s.b.baseline.Some?
    ensures GlobalBegin(w.s.b.log[w.s.b.baseline.value - 1])
  {
    assert Tail(w.s.b)[0] == w.s.b.log[w.s.b.baseline.value - 1];
  }

  lemma {:induction false} EpochRead(r: Reader, page: Page)
    ensures ReadInto(r, page).epoch == Some(page.epoch)
  {
    ReadIntoFields(r, page);
  }

  lemma {:induction false} StretchStays(x: System, move: Move)
    requires StreamOk(x.w) && PlaceOk(x) && StretchOk(x) && CanMove(x, move)
    ensures StretchOk(MoveTo(x, move))
  {
    match move {
      case Produces(step) =>
        EpochsStay(x.w, step);
        if !step.Restarts? {
          StepGrows(x.w, step);
        }
        hide Next, Enabled;
      case Reads(limit, now) =>
        if StartFor(x).Ok? {
          ReadIsGood(x, limit, now);
          AdvancedStretch(x, now, StartFor(x).value, Upto(x, limit), PageFor(x, limit, now).value);
        }
      case Forgets(count) =>
    }
  }

  lemma {:induction false} HistoryKeepsStretch(xs: seq<System>, moves: seq<Move>, i: nat)
    requires IsHistory(xs, moves) && i < |xs|
    ensures StretchOk(xs[i])
  {
    hide MoveTo, CanMove, StretchOk;
    if i > 0 {
      HistoryKeepsStretch(xs, moves, i - 1);
      HistoryKeepsMirror(xs, moves, i - 1);
      StretchStays(xs[i - 1], moves[i - 1]);
    } else {
      NothingFollowed(xs[0]);
    }
  }

  lemma {:induction false} NothingFollowed(x: System)
    requires Initial(x)
    ensures StretchOk(x)
  {
  }

  /** Over every run: a reader that has read to the end of the buffer has applied every item of the connector run from
      the begin of the snapshot at which its stretch started, which is the latest snapshot or an earlier one. What it
      did not apply, whatever gap was declared, is what that snapshot replaced. */
  lemma {:induction false} DrainLeavesNothing(xs: seq<System>, moves: seq<Move>, i: nat, n: nat)
    requires IsHistory(xs, moves) && i < |xs| && CaughtUp(xs[i]) && 1 <= n <= |xs[i].w.s.b.log|
    ensures var x, b := xs[i], xs[i].w.s.b;
            && b.baseline.Some? && 1 <= x.joined <= b.baseline.value <= |b.log| && GlobalBegin(b.log[x.joined - 1])
            && (n in x.applied || n < x.joined)
  {
    HistoryKeepsMirror(xs, moves, i);
    HistoryKeepsStretch(xs, moves, i);
    hide IsHistory, MoveTo, CanMove, TailSyncs;
  }

  // ---- where the reader says it is ------------------------------------------------------------

  /** First and last number read of the connector run followed, and the instant of the first. */
  ghost predicate PlaceTold(x: System) {
    var p := x.r.place;
    if x.r.epoch.None? then p.firstSeq.None? && p.lastSeq.None? && p.followedSince.None?
    else
      && p.firstSeq.Some? && p.lastSeq == Some(x.position) && p.firstSeq.value in x.applied && x.position in x.applied
      && (forall n :: n in x.applied ==> p.firstSeq.value <= n <= x.position)
      && 1 <= p.firstSeq.value <= |x.stream| && StampOf(x.stream[p.firstSeq.value - 1]) == p.followedSince
      && p.followedSince.Some?
  }

  /** Where following a declared gap and then a run leaves a place. */
  predicate FollowedTo(p: Place, n: Place, log: seq<Item>, after: nat, upto: nat)
    requires after <= upto <= |log|
  {
    if after == upto then n.firstSeq == p.firstSeq && n.lastSeq == p.lastSeq && n.followedSince == p.followedSince
    else
      && n.firstSeq == (if p.firstSeq.Some? then p.firstSeq else Some(after + 1))
      && n.lastSeq == Some(upto)
      && n.followedSince == if p.firstSeq.Some? then p.followedSince else StampOf(log[after])
  }

  lemma {:induction false} DeclaredRunFollowed(p: Place, declared: Option<GapReason>, now: Time, log: seq<Item>,
                                               after: nat, upto: nat)
    requires after <= upto <= |log| && InTime(log)
    ensures FollowedTo(p, PutAll(p, Synthetic(declared, now) + Run(log, after, upto)), log, after, upto)
  {
    var head, run := Synthetic(declared, now), Run(log, after, upto);
    PutAllConcat(p, head, run);
    assert head != [] ==> head[..0] == [];
    if after < upto {
      PutRun(PutAll(p, head), log, after, upto);
    } else {
      assert run == [];
    }
  }

  lemma {:induction false} AdvancedFully(x: System, now: Time, start: Start, upto: nat, page: Page)
    requires GoodRead(x, now, start, upto, page) && InTime(x.w.s.b.log)
    ensures start.after <= upto <= |x.w.s.b.log|
    ensures FollowedTo(Entering(x.r, page.epoch).place, Advance(x, now, start, upto, page).r.place, x.w.s.b.log,
                       start.after, upto)
  {
    ReadIntoFields(x.r, page);
    DeclaredRunFollowed(Entering(x.r, page.epoch).place, start.declared, now, x.w.s.b.log, start.after, upto);
    hide FollowedTo, ReadInto, GapsAmong, Entries, Fold, PutAll, MakeCursor, Run, InTime, Entering;
  }

  lemma {:induction false} ToldAfter(x: System, n: System, start: Start, upto: nat)
    requires PlaceTold(x) && PositionOk(x) && GoodStart(x, start, upto) && InTime(n.stream)
    requires n.r.epoch == Some(x.w.s.b.epoch) && n.position == upto && n.stream == x.w.s.b.log
    requires forall k :: k in n.applied <==> (Follows(x) && k in x.applied) || start.after < k <= upto
    requires FollowedTo(if Follows(x) then x.r.place else Place(None, None, None, x.r.place.connectorTime), n.r.place,
                        n.stream, start.after, upto)
    ensures PlaceTold(n)
  {
  }

  lemma {:induction false} AdvancedTold(x: System, now: Time, start: Start, upto: nat, page: Page)
    requires PositionOk(x) && PlaceTold(x) && GoodRead(x, now, start, upto, page) && InTime(x.w.s.b.log)
    ensures PlaceTold(Advance(x, now, start, upto, page))
  {
    AdvancedFully(x, now, start, upto, page);
    AppliedBetween(x, now, start, upto, page);
    EpochAfter(x, now, start, upto, page);
    ToldAfter(x, Advance(x, now, start, upto, page), start, upto);
    hide PlaceTold, PositionOk, FollowedTo, Advance, InTime;
  }

  lemma {:induction false} AppliedBetween(x: System, now: Time, start: Start, upto: nat, page: Page)
    requires start.after <= upto
    ensures var n := Advance(x, now, start, upto, page);
            && n.position == upto && n.stream == x.w.s.b.log
            && forall k :: k in n.applied <==> (Follows(x) && k in x.applied) || start.after < k <= upto
  {
    forall k ensures k in Numbers(start.after, upto) <==> start.after < k <= upto {
      assert k in Numbers(start.after, upto) <==> 0 <= k <= upto && Between(k, start.after, upto);
    }
    hide ReadInto, GapsAmong, Entries, Fold, Numbers;
  }

  lemma {:induction false} MoveTold(x: System, move: Move)
    requires StreamOk(x.w) && PlaceOk(x) && PlaceTold(x) && CanMove(x, move)
    ensures PlaceTold(MoveTo(x, move))
  {
    match move {
      case Produces(step) =>
        EpochsStay(x.w, step);
        if !step.Restarts? {
          StepGrows(x.w, step);
        }
        hide Next, Enabled;
      case Reads(limit, now) =>
        if StartFor(x).Ok? {
          ReadIsGood(x, limit, now);
          AdvancedTold(x, now, StartFor(x).value, Upto(x, limit), PageFor(x, limit, now).value);
        }
      case Forgets(count) =>
    }
  }

  lemma {:induction false} HistoryTold(xs: seq<System>, moves: seq<Move>, i: nat)
    requires IsHistory(xs, moves) && i < |xs|
    ensures PlaceTold(xs[i])
  {
    hide MoveTo, CanMove, PlaceTold;
    if i > 0 {
      HistoryTold(xs, moves, i - 1);
      HistoryKeepsMirror(xs, moves, i - 1);
      MoveTold(xs[i - 1], moves[i - 1]);
    } else {
      NowhereTold(xs[0]);
    }
  }

  lemma {:induction false} NowhereTold(x: System)
    requires Initial(x)
    ensures PlaceTold(x)
  {
  }

  /** Over every run: a reader says where it is once it has read anything, and then names the connector run it follows,
      the first and the last number it applied of it, and the instant of the first. */
  lemma {:induction false} PositionTells(xs: seq<System>, moves: seq<Move>, i: nat)
    requires IsHistory(xs, moves) && i < |xs|
    ensures var x, p := xs[i], StreamPosition(xs[i].r);
            && (p.None? <==> x.r.epoch.None?)
            && (p.Some? ==>
                  && x.r.epoch == Some(p.value.epoch)
                  && p.value.firstSeq in x.applied && p.value.lastSeq in x.applied
                  && (forall n :: n in x.applied ==> p.value.firstSeq <= n <= p.value.lastSeq)
                  && 1 <= p.value.firstSeq <= |x.stream|
                  && StampOf(x.stream[p.value.firstSeq - 1]) == Some(p.value.followedSince))
  {
    HistoryTold(xs, moves, i);
    hide IsHistory;
  }

  // ---- the time reached -----------------------------------------------------------------------

  /** The time read is no earlier than the last item read of the connector run followed. */
  predicate TimeReached(x: System) {
    x.r.epoch.Some? ==>
      && 1 <= x.position <= |x.stream| && !x.stream[x.position - 1].Heartbeat?
      && x.r.place.connectorTime.Some? && x.stream[x.position - 1].at <= x.r.place.connectorTime.value
  }

  lemma {:induction false} AdvancedReached(x: System, now: Time, start: Start, upto: nat, page: Page)
    requires PositionOk(x) && TimeOk(x) && TimeReached(x) && GoodRead(x, now, start, upto, page)
    requires InTime(x.w.s.b.log)
    ensures TimeReached(Advance(x, now, start, upto, page))
  {
    AdvancedPut(x, now, start, upto, page);
    EpochAfter(x, now, start, upto, page);
    PlacedAt(x, now, start, upto, page);
    hide ArrivedOrCovered, AheadOk, Advance, NoLaterThan, Ordered, MakeCursor;
  }

  lemma {:induction false} PlacedAt(x: System, now: Time, start: Start, upto: nat, page: Page)
    requires start.after <= upto
    ensures var n := Advance(x, now, start, upto, page); n.position == upto && n.stream == x.w.s.b.log
  {
  }

  lemma {:induction false} MoveReached(x: System, move: Move)
    requires StreamOk(x.w) && PlaceOk(x) && TimeOk(x) && TimeReached(x) && CanMove(x, move)
    ensures TimeReached(MoveTo(x, move))
  {
    hide TimeOk, TailSyncs;
    match move {
      case Produces(step) =>
        EpochsStay(x.w, step);
        if !step.Restarts? {
          StepGrows(x.w, step);
        }
        hide Next, Enabled;
      case Reads(limit, now) =>
        if StartFor(x).Ok? {
          ReadIsGood(x, limit, now);
          AdvancedReached(x, now, StartFor(x).value, Upto(x, limit), PageFor(x, limit, now).value);
        }
      case Forgets(count) =>
    }
  }

  lemma {:induction false} HistoryReached(xs: seq<System>, moves: seq<Move>, i: nat)
    requires IsHistory(xs, moves) && i < |xs|
    ensures TimeReached(xs[i])
  {
    hide MoveTo, CanMove, TimeReached, TimeOk;
    if i > 0 {
      HistoryReached(xs, moves, i - 1);
      HistoryKeepsMirror(xs, moves, i - 1);
      HistoryKeepsTime(xs, moves, i - 1);
      MoveReached(xs[i - 1], moves[i - 1]);
    } else {
      NothingReached(xs[0]);
    }
  }

  lemma {:induction false} NothingReached(x: System)
    requires Initial(x)
    ensures TimeReached(x)
  {
  }
}
