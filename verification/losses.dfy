/** A loss of continuity reaches the stream as a gap, and the gap stands in every caught-up mirror until a listing. */
module Losses {
  import opened Text
  import opened Wire
  import opened Streams
  import opened Mirrors
  import opened Trust
  import opened Producing
  import opened Cluster
  import opened Worlds
  import opened Blocks
  import opened Systems
  import opened EndToEnd

  // ---- what a loss puts into the stream -------------------------------------------------------

  /** A gap of everything, open since the earliest instant up to which some scope was observed. */
  predicate IsGlobalGap(item: Item, at: Time, reason: GapReason, continuous: map<Scope, Time>) {
    && item.Gap? && item.at == at && item.reason == reason && item.scope.None?
    && (item.since.None? <==> continuous == map[])
    && (item.since.Some? ==> item.since.value in continuous.Values
                             && forall s :: s in continuous ==> item.since.value <= continuous[s])
  }

  predicate IsScopeGap(item: Item, at: Time, scope: Scope, continuous: map<Scope, Time>) {
    && item.Gap? && item.at == at && item.reason == ResourceVersionExpired && item.scope == Some(scope)
    && item.since == if scope in continuous then Some(continuous[scope]) else None
  }

  lemma {:induction false} FailureIsDeclared(s: ChangeState, scope: Scope, now: Time)
    ensures var n := WatchFailed(s, scope, s.p.generation, now);
            if s.p.degraded then n.b.log == s.b.log
            else s.b.log <= n.b.log && |n.b.log| == |s.b.log| + 1
                 && IsGlobalGap(n.b.log[|s.b.log|], now, BackendUnreachable, s.p.continuous)
  {
  }

  lemma {:induction false} ExpiryIsDeclared(s: ChangeState, c: Config, scope: Scope, listed: Listed,
                                            relisted: Relisted, now: Time)
    ensures var n := WatchExpired(s, c, scope, s.p.generation, listed, relisted, now);
            && s.b.log <= n.b.log && |s.b.log| < |n.b.log|
            && if c.canListScope then IsScopeGap(n.b.log[|s.b.log|], now, scope, s.p.continuous)
               else IsGlobalGap(n.b.log[|s.b.log|], now, ResourceVersionExpired, s.p.continuous)
  {
  }

  /** A watch of the current generation that fails adds exactly one gap of everything, unless an outage is already
      known; then it adds nothing. One that expires always adds a gap, before anything else: of its scope where the
      cluster can list one scope, of everything where it cannot. */
  lemma {:induction false} LossIsDeclared(w: World, step: Step, scope: Scope)
    requires Enabled(w, step) && LosesScope(w, step, scope)
    ensures var before, after, continuous := w.s.b.log, Next(w, step).s.b.log, w.s.p.continuous;
            && before <= after
            && (step.Fails? ==>
                  if w.s.p.degraded then after == before
                  else |after| == |before| + 1
                       && IsGlobalGap(after[|before|], step.now, BackendUnreachable, continuous))
            && (step.Expires? ==>
                  && |before| < |after|
                  && if w.config.canListScope then IsScopeGap(after[|before|], step.now, scope, continuous)
                     else IsGlobalGap(after[|before|], step.now, ResourceVersionExpired, continuous))
  {
    hide WatchFailed, WatchExpired, IsGlobalGap, IsScopeGap, TrueAnswer, TrueRelist;
    match step {
      case Fails(_, now) => FailureIsDeclared(w.s, scope, now);
      case Expires(_, a, relisted, now) => ExpiryIsDeclared(w.s, w.config, scope, a.listed, relisted, now);
      case _ =>
    }
  }

  /** A poll that fails adds exactly one gap of everything if it is to declare one, and nothing otherwise. */
  lemma {:induction false} FailedPollIsDeclared(s: ChangeState, c: Config, listed: Listed, at: Time, force: bool,
                                                declare: bool, order: seq<string>)
    requires !PollSucceeds(s, listed, force)
    ensures var n := Poll(s, c, listed, at, force, declare, order);
            && n.p == s.p && s.b.log <= n.b.log && n.b.baseline == s.b.baseline
            && if declare then |n.b.log| == |s.b.log| + 1
                               && IsGlobalGap(n.b.log[|s.b.log|], at, BackendUnreachable, s.p.continuous)
               else n.b.log == s.b.log
  {
  }

  // ---- and into every mirror ------------------------------------------------------------------

  predicate NoListing(items: seq<Item>) {
    forall i :: 0 <= i < |items| ==> !items[i].ListingStatus?
  }

  /** The mirror does not answer, or does not claim the scope. */
  predicate Doubts(m: Mirror, scope: Option<Scope>) {
    !Serves(m) || (scope.Some? && scope.value in m.gapped)
  }

  lemma {:induction false} GapIsSeen(m: Mirror, gap: Item)
    requires gap.Gap?
    ensures Doubts(ApplyItem(m, gap), gap.scope)
  {
  }

  lemma {:induction false} DoubtStays(m: Mirror, item: Item, scope: Option<Scope>)
    requires Doubts(m, scope) && !item.ListingStatus?
    ensures Doubts(ApplyItem(m, item), scope)
  {
    FlagsStep(m, item);
    if scope.Some? {
      ScopeFlagsStep(m, item, scope.value);
    }
    hide ApplyItem;
  }

  lemma {:induction false} GapStandsInFold(m: Mirror, items: seq<Item>, g: nat)
    requires g < |items| && items[g].Gap? && NoListing(items[g..])
    ensures Doubts(Fold(m, items), items[g].scope)
  {
    var front, last := items[..|items| - 1], items[|items| - 1];
    if g == |items| - 1 {
      GapIsSeen(Fold(m, front), last);
    } else {
      assert forall i :: 0 <= i < |front[g..]| ==> front[g..][i] == items[g..][i];
      GapStandsInFold(m, front, g);
      assert last == items[g..][|items| - 1 - g];
      DoubtStays(Fold(m, front), last, items[g].scope);
    }
  }

  /** A snapshot that begins after the gap has been reported after it. */
  lemma {:induction false} SnapshotIsListed(w: World, g: nat)
    requires StreamOk(w) && w.s.b.baseline.Some? && g < w.s.b.baseline.value - 1
    ensures !NoListing(w.s.b.log[g..])
  {
    var b := w.s.b;
    var e :| 0 <= e < |Tail(b)| && GlobalEnd(Tail(b)[e]);
    assert b.log[g..][b.baseline.value - 1 + e - g] == Tail(b)[e];
  }

  lemma {:induction false} GapStands(x: System, g: nat)
    requires StreamOk(x.w) && MirrorOk(x) && CaughtUp(x) && g < |x.w.s.b.log|
    requires x.w.s.b.log[g].Gap? && NoListing(x.w.s.b.log[g..])
    ensures Doubts(x.r.mirror, x.w.s.b.log[g].scope)
  {
    var log, from := x.w.s.b.log, x.joined - 1;
    if g < x.w.s.b.baseline.value - 1 {
      SnapshotIsListed(x.w, g);
    }
    assert log[from..x.position] == log[from..];
    assert log[from..][g - from..] == log[g..];
    GapStandsInFold(x.origin, log[from..], g - from);
  }

  /** Within one connector run the log only grows, and an epoch once left never comes back. */
  lemma {:induction false} LogGrowsOnce(x: System, move: Move)
    requires BufferOk(x.w) && CanMove(x, move)
    ensures var n := MoveTo(x, move);
            && x.w.epochs <= n.w.epochs
            && (n.w.s.b.epoch == x.w.s.b.epoch ==> x.w.s.b.log <= n.w.s.b.log)
            && (n.w.s.b.epoch != x.w.s.b.epoch ==> n.w.s.b.epoch !in x.w.epochs)
  {
    hide Next, Enabled, Advance;
    match move {
      case Produces(step) =>
        EpochsStay(x.w, step);
        if step.Restarts? {
          RestartIsNew(x.w, step.epoch);
        } else {
          StepGrows(x.w, step);
        }
      case Reads(limit, now) =>
        if StartFor(x).Ok? {
          ReadLeavesLog(x, now, StartFor(x).value, Upto(x, limit), PageFor(x, limit, now).value);
        }
      case Forgets(_) =>
    }
  }

  lemma {:induction false} RestartIsNew(w: World, epoch: string)
    requires Enabled(w, Restarts(epoch))
    ensures epoch !in w.epochs
  {
  }

  lemma {:induction false} ReadLeavesLog(x: System, now: Time, start: Start, upto: nat, page: Page)
    requires start.after <= upto
    ensures Advance(x, now, start, upto, page).w == x.w.(now := now)
  {
  }

  lemma {:induction false} LogGrows(xs: seq<System>, moves: seq<Move>, a: nat, i: nat)
    requires IsHistory(xs, moves) && a <= i < |xs|
    ensures xs[a].w.s.b.epoch in xs[i].w.epochs
    ensures xs[a].w.s.b.epoch == xs[i].w.s.b.epoch ==> xs[a].w.s.b.log <= xs[i].w.s.b.log
  {
    hide CanMove, MoveTo, Initial, TailSyncs, NoLaterThan;
    if a < i {
      LogGrows(xs, moves, a, i - 1);
      HistoryKeepsMirror(xs, moves, i - 1);
      LogGrowsOnce(xs[i - 1], moves[i - 1]);
    } else {
      HistoryKeepsMirror(xs, moves, i);
    }
  }

  /** Over every run of cluster, connector and reader: after a watch failed or expired and the stream said so, no
      caught-up reader of the same connector run answers until a listing has been reported; if the gap is of the scope
      alone, none claims the scope. */
  lemma {:induction false} LossReachesReader(xs: seq<System>, moves: seq<Move>, a: nat, i: nat, step: Step,
                                             scope: Scope)
    requires IsHistory(xs, moves) && a < i < |xs| && moves[a] == Produces(step)
    requires LosesScope(xs[a].w, step, scope) && (step.Fails? ==> !xs[a].w.s.p.degraded)
    requires CaughtUp(xs[i]) && xs[i].w.s.b.epoch == xs[a].w.s.b.epoch
    requires forall k :: |xs[a].w.s.b.log| <= k < |xs[i].w.s.b.log| ==> !xs[i].w.s.b.log[k].ListingStatus?
    ensures var m := xs[i].r.mirror;
            !Serves(m) || (step.Expires? && xs[a].w.config.canListScope && scope !in m.completed - m.gapped)
  {
    var before, after, log := xs[a].w.s.b.log, xs[a + 1].w.s.b.log, xs[i].w.s.b.log;
    LossIsDeclared(xs[a].w, step, scope);
    EpochsStay(xs[a].w, step);
    SameRun(xs[a].w, step);
    LogGrows(xs, moves, a + 1, i);
    HistoryKeepsMirror(xs, moves, i);
    assert log[|before|] == after[|before|];
    GapStands(xs[i], |before|);
  }

  lemma {:induction false} SameRun(w: World, step: Step)
    requires Enabled(w, step) && !step.Restarts?
    ensures Next(w, step).s.b.epoch == w.s.b.epoch
  {
    StepGrows(w, step);
  }

  // ---- one gap for an outage ------------------------------------------------------------------

  /** Since the latest snapshot the stream holds a gap of everything. */
  predicate OutageKnown(b: Buffer) {
    exists g :: 0 <= g < |b.log| && IsOutage(b, g)
  }

  predicate IsOutage(b: Buffer, g: nat)
    requires g < |b.log|
  {
    b.log[g].Gap? && b.log[g].scope.None? && (b.baseline.Some? ==> b.baseline.value <= g)
  }

  predicate RunsNow(w: World, scope: Scope) {
    WatchingNow(w, scope) && w.watchers[scope].generation == w.s.p.generation
  }

  /** No watch is ahead of the generation, and while one of it runs a known outage has been declared. */
  ghost predicate OutageOk(w: World) {
    && (forall s :: WatchingNow(w, s) ==> w.watchers[s].generation <= w.s.p.generation)
    && (w.s.p.degraded && (exists s :: RunsNow(w, s)) ==> OutageKnown(w.s.b))
  }

  lemma {:induction false} StillKnown(b: Buffer, c: Buffer)
    requires OutageKnown(b) && b.log <= c.log && c.baseline == b.baseline
    ensures OutageKnown(c)
  {
    var g :| 0 <= g < |b.log| && IsOutage(b, g);
    assert IsOutage(c, g);
  }

  lemma {:induction false} GapMakesKnown(b: Buffer, c: Buffer)
    requires b.log < c.log && c.baseline == b.baseline && b.BaselineInLog()
    requires c.log[|b.log|].Gap? && c.log[|b.log|].scope.None?
    ensures OutageKnown(c)
  {
    assert IsOutage(c, |b.log|);
  }

  /** The step leaves generation and snapshot alone, adds to the log only, and takes everything for lost only if it was
      lost before, or says so. */
  ghost predicate Steady(s: ChangeState, n: ChangeState) {
    && n.p.generation == s.p.generation && n.b.baseline == s.b.baseline && s.b.log <= n.b.log
    && (n.p.degraded && !s.p.degraded ==> OutageKnown(n.b))
  }

  lemma {:induction false} PollIsSteady(s: ChangeState, c: Config, listed: Listed, at: Time, force: bool,
                                        declare: bool, order: seq<string>)
    ensures var n := Poll(s, c, listed, at, force, declare, order);
            n.p.generation == s.p.generation + 1 || Steady(s, n)
  {
    hide DeltaItems, SnapshotItems, GlobalGap, Incomplete, PollSucceeds, DeltaDoomed;
  }

  lemma {:induction false} ExpiryIsSteady(s: ChangeState, c: Config, scope: Scope, generation: nat, listed: Listed,
                                          relisted: Relisted, now: Time)
    requires s.b.BaselineInLog()
    ensures var n := WatchExpired(s, c, scope, generation, listed, relisted, now);
            n.p.generation == s.p.generation + 1 || Steady(s, n)
  {
    if generation == s.p.generation && !c.canListScope {
      var declared := s.(b := s.b.Append([GlobalGap(s.p, now, ResourceVersionExpired)]));
      var polled := Poll(declared, c, listed, now, true, true, []);
      PollIsSteady(declared, c, listed, now, true, true, []);
      GapMakesKnown(s.b, declared.b);
      if polled.p.generation == s.p.generation {
        StillKnown(declared.b, polled.b);
      }
      hide Poll;
    } else {
      hide Poll, RelistItems;
    }
  }

  lemma {:induction false} FailureIsSteady(s: ChangeState, scope: Scope, generation: nat, now: Time)
    requires s.b.BaselineInLog()
    ensures Steady(s, WatchFailed(s, scope, generation, now))
  {
    var n := WatchFailed(s, scope, generation, now);
    if n != s {
      GapMakesKnown(s.b, n.b);
    }
  }

  lemma {:induction false} DeliveryIsSteady(s: ChangeState, scope: Scope, event: WatchEvent, generation: nat, now: Time)
    ensures Steady(s, ApplyWatchEvent(s, scope, event, generation, now))
  {
    hide ObservedItems, OutageKnown;
  }

  lemma {:induction false} RelistIsSteady(s: ChangeState, scope: Scope, relisted: Relisted, now: Time)
    ensures Steady(s, Relist(s, scope, relisted, now))
  {
    hide RelistItems, OutageKnown;
  }

  lemma {:induction false} OthersAreSteady(w: World, step: Step)
    requires Enabled(w, step) && !step.Polls? && !step.Expires? && !step.Fails? && !step.Restarts?
    ensures Steady(w.s, Next(w, step).s)
  {
    hide TrueRelist, TrueEvent, CanEnd, CanOccur, OutageKnown, ApplyWatchEvent, Relist, AfterStart, AfterChange;
    match step {
      case Delivers(scope, event, now) => DeliveryIsSteady(w.s, scope, event, w.watchers[scope].generation, now);
      case Relists(scope, relisted, now) => RelistIsSteady(w.s, scope, relisted, now);
      case Occurs(scope, change) => ChangeLeavesProducer(w, scope, change);
      case Starts(scope) => StartLeavesProducer(w, scope);
      case _ =>
    }
  }

  lemma {:induction false} ChangeLeavesProducer(w: World, scope: Scope, change: Change)
    ensures AfterChange(w, scope, change).s == w.s
  {
  }

  lemma {:induction false} StartLeavesProducer(w: World, scope: Scope)
    requires scope in w.watchers
    ensures AfterStart(w, scope).s == w.s
  {
  }

  lemma {:induction false} StepIsSteady(w: World, step: Step)
    requires Enabled(w, step) && w.s.b.BaselineInLog() && !step.Restarts?
    ensures Next(w, step).s.p.generation == w.s.p.generation + 1 || Steady(w.s, Next(w, step).s)
  {
    hide Steady, Poll, WatchExpired, WatchFailed, TrueAnswer, TrueRelist;
    match step {
      case Polls(a, force, declare, order, now) => PollIsSteady(w.s, w.config, a.listed, now, force, declare, order);
      case Expires(scope, a, relisted, now) =>
        ExpiryIsSteady(w.s, w.config, scope, w.watchers[scope].generation, a.listed, relisted, now);
      case Fails(scope, now) => FailureIsSteady(w.s, scope, w.watchers[scope].generation, now);
      case _ => OthersAreSteady(w, step);
    }
  }

  /** A watch that runs after a step ran before it, or was started while nothing waited. */
  lemma {:induction false} StepStarts(w: World, step: Step, scope: Scope)
    requires Enabled(w, step) && WatchingNow(Next(w, step), scope)
    ensures var n := Next(w, step);
            || (WatchingNow(w, scope) && w.watchers[scope].generation == n.watchers[scope].generation)
            || (!w.s.p.degraded && n.s == w.s && n.watchers[scope].generation == w.s.p.generation)
  {
    hide TrueAnswer, TrueRelist, TrueEvent, CanEnd, CanOccur, Poll, WatchExpired, WatchFailed, Relist,
         ApplyWatchEvent, WatchEnded, Close;
  }

  lemma {:induction false} OutageStays(w: World, step: Step)
    requires Enabled(w, step) && w.s.b.BaselineInLog() && OutageOk(w)
    ensures OutageOk(Next(w, step))
  {
    var n := Next(w, step);
    if !step.Restarts? {
      StepIsSteady(w, step);
      forall s | WatchingNow(n, s) ensures n.watchers[s].generation <= n.s.p.generation {
        StepStarts(w, step, s);
      }
      if n.s.p.degraded && exists s :: RunsNow(n, s) {
        var s :| RunsNow(n, s);
        StepStarts(w, step, s);
        if w.s.p.degraded {
          assert RunsNow(w, s);
          StillKnown(w.s.b, n.s.b);
        }
      }
    }
  }

  lemma {:induction false} RunKeepsOutage(worlds: seq<World>, steps: seq<Step>, i: nat)
    requires IsRun(worlds, steps) && i < |worlds|
    ensures TailSyncs(worlds[i].s) && OutageOk(worlds[i])
  {
    hide Enabled, Next, TailSyncs, ClusterIsSound, OutageOk;
    if i > 0 {
      RunKeepsOutage(worlds, steps, i - 1);
      StepTail(worlds[i - 1], steps[i - 1]);
      TailHasBaseline(worlds[i - 1].s);
      OutageStays(worlds[i - 1], steps[i - 1]);
    } else {
      NothingLost(worlds[0]);
    }
  }

  lemma {:induction false} TailHasBaseline(s: ChangeState)
    requires TailSyncs(s)
    ensures s.b.BaselineInLog()
  {
  }

  lemma {:induction false} NothingLost(w: World)
    requires Starting(w)
    ensures TailSyncs(w.s) && OutageOk(w)
  {
  }

  /** Over every run: a watch of the current generation whose failure adds no gap fails during an outage for which the
      stream has held a gap of everything since the latest snapshot. */
  lemma {:induction false} OutageIsDeclared(worlds: seq<World>, steps: seq<Step>, i: nat, scope: Scope)
    requires IsRun(worlds, steps) && i < |steps| && steps[i].Fails? && LosesScope(worlds[i], steps[i], scope)
    ensures OutageKnown(Next(worlds[i], steps[i]).s.b)
  {
    RunKeepsOutage(worlds, steps, i);
    var w := worlds[i];
    assert RunsNow(w, scope);
    FailureIsDeclared(w.s, scope, steps[i].now);
    var n := WatchFailed(w.s, scope, w.s.p.generation, steps[i].now);
    if !w.s.p.degraded {
      GapMakesKnown(w.s.b, n.b);
    } else {
      StillKnown(w.s.b, n.b);
    }
  }
}
