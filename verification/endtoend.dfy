/** From the cluster to the mirror: what a caught-up reader holds, replayed from the resume versions, is the cluster. */
module EndToEnd {
  import opened Text
  import opened Wire
  import opened Streams
  import opened Mirrors
  import opened Following
  import opened Producing
  import opened Cluster
  import opened Worlds
  import opened Refinement
  import opened Systems
  import C = Convergence
  import E = EventReach

  lemma {:induction false} ConvergenceStays(x: System, move: Move)
    requires C.Inv(x.w) && CanMove(x, move)
    ensures C.Inv(MoveTo(x, move).w)
  {
    hide C.Inv, Next, Enabled, StartFor, PageFor, Upto;
    match move {
      case Produces(step) => C.StepKeeps(x.w, step);
      case _ => C.SameViewKeeps(x.w, MoveTo(x, move).w);
    }
  }

  lemma {:induction false} StartConverges(x: System)
    requires Initial(x)
    ensures C.Inv(x.w)
  {
  }

  lemma {:induction false} HistoryConverges(xs: seq<System>, moves: seq<Move>, i: nat)
    requires IsHistory(xs, moves) && i < |xs|
    ensures C.Inv(xs[i].w)
  {
    hide C.Inv, CanMove, MoveTo;
    if i > 0 {
      HistoryConverges(xs, moves, i - 1);
      ConvergenceStays(xs[i - 1], moves[i - 1]);
    } else {
      StartConverges(xs[0]);
    }
  }

  /** Over every run of cluster, connector and reader: for a caught-up reader and every object scope with a resume
      version, replaying the scope's changes after that version over the mirror gives exactly the scope's current
      content. */
  lemma {:induction false} MirrorReachesCluster(xs: seq<System>, moves: seq<Move>, i: nat, scope: Scope, key: string)
    requires IsHistory(xs, moves) && i < |xs| && CaughtUp(xs[i])
    requires scope in xs[i].w.s.p.versions && scope.kind != "Event" && ScopeOfKey(key) == Some(scope)
    ensures var w, log := xs[i].w, xs[i].w.LogOf(scope);
            SameAt(Replay(xs[i].r.mirror.objects, scope, log, w.s.p.versions[scope].at), CurrentState(scope, log), key)
  {
    HistoryConverges(xs, moves, i);
    MirrorRefinesProducer(xs, moves, i, EMPTY);
    var w := xs[i].w;
    C.ReplayConverges(scope, w.LogOf(scope), w.s.p.seen, w.s.p.eventsSeen, w.s.p.versions[scope].at, None, key);
  }

  /** The version each Event was last listed or delivered at since the latest snapshot, over a whole history. */
  ghost function ReportsIn(xs: seq<System>, moves: seq<Move>, i: nat): map<string, nat>
    requires IsHistory(xs, moves) && i < |xs|
  {
    if i == 0 then map[]
    else
      var before := ReportsIn(xs, moves, i - 1);
      if moves[i - 1].Produces? then E.ReportsAfter(xs[i - 1].w, before, moves[i - 1].step) else before
  }

  lemma {:induction false} ReadingIsForward(x: System, move: Move)
    requires CanMove(x, move) && !move.Produces?
    ensures E.OnlyForward(x.w, MoveTo(x, move).w)
  {
  }

  lemma {:induction false} HistoryKnown(xs: seq<System>, moves: seq<Move>, i: nat)
    requires IsHistory(xs, moves) && i < |xs|
    ensures E.Known(xs[i].w, ReportsIn(xs, moves, i))
  {
    if i == 0 {
      E.NothingKnown(xs[0].w);
    } else {
      HistoryKnown(xs, moves, i - 1);
      HistoryConverges(xs, moves, i - 1);
      var x, reports := xs[i - 1], ReportsIn(xs, moves, i - 1);
      match moves[i - 1] {
        case Produces(step) => E.StepKnown(x.w, step, reports);
        case _ =>
          ReadingIsForward(x, moves[i - 1]);
          E.ForwardKnown(x.w, xs[i].w, reports);
      }
    }
  }

  /** What did not change after the resume version is in a caught-up mirror as it is in the cluster now: objects,
      absence included, and the current Events of a scope that was listed, or that changed since it was left unlisted,
      if no reconciliation moved the scope ahead. */
  lemma {:induction false} MirrorIsCurrent(xs: seq<System>, moves: seq<Move>, i: nat, scope: Scope, key: string)
    requires IsHistory(xs, moves) && i < |xs| && CaughtUp(xs[i]) && scope in xs[i].w.s.p.versions
    requires !Touched(scope, xs[i].w.LogOf(scope), xs[i].w.s.p.versions[scope].at, key)
    ensures var w, current := xs[i].w, CurrentState(scope, xs[i].w.LogOf(scope));
            && (scope.kind != "Event" && ScopeOfKey(key) == Some(scope) ==>
                  SameAt(xs[i].r.mirror.objects, current, key))
            && (scope.kind == "Event" && key in current && scope !in w.skipped
                && C.Followed(scope, w.LogOf(scope), C.LeftAt(w, scope), key) ==>
                  SameAt(xs[i].r.mirror.events, current, key))
  {
    HistoryConverges(xs, moves, i);
    MirrorRefinesProducer(xs, moves, i, EMPTY);
  }

  /** And every current Event, of whatever scope, that has not changed since a listing or a watch last reported it. */
  lemma {:induction false} MirrorHoldsReported(xs: seq<System>, moves: seq<Move>, i: nat, scope: Scope, key: string)
    requires IsHistory(xs, moves) && i < |xs| && CaughtUp(xs[i]) && scope.kind == "Event"
    requires key in CurrentState(scope, xs[i].w.LogOf(scope)) && key in ReportsIn(xs, moves, i)
    requires !Touched(scope, xs[i].w.LogOf(scope), ReportsIn(xs, moves, i)[key], key)
    ensures SameAt(xs[i].r.mirror.events, CurrentState(scope, xs[i].w.LogOf(scope)), key)
  {
    HistoryConverges(xs, moves, i);
    HistoryKnown(xs, moves, i);
    MirrorRefinesProducer(xs, moves, i, EMPTY);
    C.OwnedKeys(xs[i].w, scope);
    assert E.KeyKnown(xs[i].w, ReportsIn(xs, moves, i), key);
  }

  // ---- lost continuity is never resumed in silence --------------------------------------------

  /** The scope waits for a new listing, so no watch of it starts. */
  predicate Waits(p: Producer, scope: Scope) {
    p.degraded || scope in p.pending
  }

  /** The step lists this scope again. */
  predicate RelistsScope(w: World, step: Step, scope: Scope) {
    match step
    case Relists(relisted, answer, _) => relisted == scope && answer.Relisted?
    case Expires(expired, _, answer, _) =>
      expired == scope && answer.Relisted? && w.config.canListScope && WatchingNow(w, scope)
      && w.watchers[scope].generation == w.s.p.generation
    case _ => false
  }

  /** The step lists the scope again, takes a snapshot of everything, or restarts the connector. */
  ghost predicate Renews(w: World, step: Step, scope: Scope)
    requires Enabled(w, step)
  {
    RelistsScope(w, step, scope) || Next(w, step).s.p.generation == w.s.p.generation + 1 || step.Restarts?
  }

  predicate LosesScope(w: World, step: Step, scope: Scope) {
    && (step.Fails? || step.Expires?) && step.scope == scope && scope in w.watchers && w.watchers[scope].Watching?
    && w.watchers[scope].generation == w.s.p.generation
  }

  lemma {:induction false} ExpiryLeavesWaiting(s: ChangeState, c: Config, scope: Scope, listed: Listed,
                                               relisted: Relisted, now: Time)
    ensures var n := WatchExpired(s, c, scope, s.p.generation, listed, relisted, now).p;
            Waits(n, scope) || (c.canListScope && relisted.Relisted?) || n.generation == s.p.generation + 1
  {
  }

  /** A watch of the current generation that fails or expires leaves its scope waiting, unless the same step listed the
      scope again or took a snapshot. */
  lemma {:induction false} LossWaits(w: World, step: Step, scope: Scope)
    requires Enabled(w, step) && LosesScope(w, step, scope)
    ensures Waits(Next(w, step).s.p, scope) || Renews(w, step, scope)
  {
    if step.Expires? {
      ExpiryLeavesWaiting(w.s, w.config, step.scope, step.answer.listed, step.relisted, step.now);
    }
  }

  lemma {:induction false} PollWaits(s: ChangeState, c: Config, listed: Listed, at: Time, force: bool, declare: bool,
                                     order: seq<string>, scope: Scope)
    requires Waits(s.p, scope)
    ensures var n := Poll(s, c, listed, at, force, declare, order).p;
            Waits(n, scope) || n.generation == s.p.generation + 1
  {
  }

  lemma {:induction false} ExpiryWaits(s: ChangeState, c: Config, expired: Scope, generation: nat, listed: Listed,
                                       relisted: Relisted, now: Time, scope: Scope)
    requires Waits(s.p, scope)
    ensures var n := WatchExpired(s, c, expired, generation, listed, relisted, now).p;
            || Waits(n, scope) || n.generation == s.p.generation + 1
            || (expired == scope && relisted.Relisted? && c.canListScope && generation == s.p.generation)
  {
    if !c.canListScope {
      var declared := s.(b := s.b.Append([GlobalGap(s.p, now, ResourceVersionExpired)]));
      PollWaits(declared, c, listed, now, true, true, [], scope);
    }
  }

  lemma {:induction false} OthersWait(w: World, step: Step, scope: Scope)
    requires Enabled(w, step) && !step.Occurs? && !step.Polls? && !step.Expires?
    requires Waits(w.s.p, scope)
    ensures Waits(Next(w, step).s.p, scope) || Renews(w, step, scope)
  {
    hide TrueAnswer, TrueRelist, TrueEvent, CanEnd, AfterPoll, AfterExpiry, AfterChange, CanOccur, GlobalGap,
         ObservedItems, RelistItems;
    if step.Delivers? || step.Ends? || step.Holds? || step.Closes? {
      WatchKeepsWaiting(w, step, scope);
    } else {
      hide AfterDelivery, AfterEnd, AfterHold, Close;
    }
  }

  lemma {:induction false} DeliveryKeepsWaiting(w: World, at: Scope, event: WatchEvent, now: Time, scope: Scope)
    requires WatchingNow(w, at) && Waits(w.s.p, scope)
    ensures Waits(AfterDelivery(w, at, event, now).s.p, scope)
  {
    hide ObservedItems;
  }

  lemma {:induction false} EndKeepsWaiting(w: World, at: Scope, now: Time, scope: Scope)
    requires WatchingNow(w, at) && Waits(w.s.p, scope)
    ensures Waits(AfterEnd(w, at, now).s.p, scope)
  {
  }

  lemma {:induction false} HoldKeepsWaiting(w: World, at: Scope, watchId: nat, version: Version, scope: Scope)
    requires Waits(w.s.p, scope)
    ensures Waits(AfterHold(w, at, watchId, version).s.p, scope)
  {
  }

  lemma {:induction false} WatchKeepsWaiting(w: World, step: Step, scope: Scope)
    requires Enabled(w, step) && (step.Delivers? || step.Ends? || step.Holds? || step.Closes?)
    requires Waits(w.s.p, scope)
    ensures Waits(Next(w, step).s.p, scope)
  {
    hide TrueEvent, CanEnd, AfterDelivery, AfterEnd, AfterHold;
    match step {
      case Delivers(at, event, now) => DeliveryKeepsWaiting(w, at, event, now, scope);
      case Ends(at, now) => EndKeepsWaiting(w, at, now, scope);
      case Holds(at, watchId, version) => HoldKeepsWaiting(w, at, watchId, version, scope);
      case _ =>
    }
  }

  /** A waiting scope goes on waiting until it is relisted, a snapshot replaces everything, or the connector
      restarts. */
  lemma {:induction false} WaitsUntilListed(w: World, step: Step, scope: Scope)
    requires Enabled(w, step) && Waits(w.s.p, scope)
    ensures Waits(Next(w, step).s.p, scope) || Renews(w, step, scope)
  {
    hide TrueAnswer, TrueRelist;
    match step {
      case Polls(a, force, declare, order, now) =>
        PollWaits(w.s, w.config, a.listed, now, force, declare, order, scope);
      case Expires(expired, a, relisted, now) =>
        ExpiryWaits(w.s, w.config, expired, w.watchers[expired].generation, a.listed, relisted, now, scope);
      case Occurs(_, _) =>
      case _ => OthersWait(w, step, scope);
    }
  }

  lemma {:induction false} StartsOnlyListed(w: World, scope: Scope)
    requires Enabled(w, Starts(scope))
    ensures var n := Next(w, Starts(scope));
            WatchingNow(n, scope) <==> w.config.canWatch && scope in w.s.p.versions && !Waits(w.s.p, scope)
  {
  }

  ghost predicate RenewedBetween(worlds: seq<World>, steps: seq<Step>, scope: Scope, i: nat, n: nat)
    requires IsRun(worlds, steps) && n <= |steps|
  {
    exists k :: i <= k < n && Renews(worlds[k], steps[k], scope)
  }

  lemma {:induction false} WaitsSinceLoss(worlds: seq<World>, steps: seq<Step>, scope: Scope, i: nat, n: nat)
    requires IsRun(worlds, steps) && i < n <= |steps| && LosesScope(worlds[i], steps[i], scope)
    ensures Waits(worlds[n].s.p, scope) || RenewedBetween(worlds, steps, scope, i, n)
  {
    if n == i + 1 {
      LossWaits(worlds[i], steps[i], scope);
    } else {
      WaitsSinceLoss(worlds, steps, scope, i, n - 1);
      if RenewedBetween(worlds, steps, scope, i, n - 1) {
        var k :| i <= k < n - 1 && Renews(worlds[k], steps[k], scope);
        assert Renews(worlds[k], steps[k], scope);
      } else {
        WaitsUntilListed(worlds[n - 1], steps[n - 1], scope);
      }
    }
  }

  /** Over every run: between a watch's loss of continuity and the next watch of the scope that runs, the scope was
      listed again, a snapshot of everything was taken, or the connector restarted. */
  lemma {:induction false} NoSilentResume(worlds: seq<World>, steps: seq<Step>, scope: Scope, i: nat, j: nat)
    requires IsRun(worlds, steps) && i < j < |steps| && LosesScope(worlds[i], steps[i], scope)
    requires steps[j] == Starts(scope) && WatchingNow(worlds[j + 1], scope)
    ensures RenewedBetween(worlds, steps, scope, i, j)
  {
    WaitsSinceLoss(worlds, steps, scope, i, j);
    StartsOnlyListed(worlds[j], scope);
  }
}
