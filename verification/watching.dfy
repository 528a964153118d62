/** What the connector remembers of its scopes: until when each was observed, which watch of it is open, and the version
    held for that watch. */
module Observing {
  import opened Text
  import opened Wire
  import opened Streams
  import opened Producing
  import opened Cluster
  import opened Worlds

  // ---- until when a scope was observed --------------------------------------------------------

  predicate CurrentWatch(w: World, scope: Scope) {
    WatchingNow(w, scope) && w.watchers[scope].generation == w.s.p.generation
  }

  /** The step takes a snapshot of this listing. */
  predicate SnapshotsWith(w: World, step: Step, l: Listing) {
    match step
    case Polls(a, force, _, _, _) =>
      a.listed == Listed(l) && PollSucceeds(w.s, a.listed, force) && TakesSnapshot(w.s, force)
    case Expires(scope, a, _, _) =>
      CurrentWatch(w, scope) && !w.config.canListScope && a.listed == Listed(l) && PollSucceeds(w.s, a.listed, true)
    case _ => false
  }

  /** The step observes the scope: in a snapshot that gives it a version, a reconciliation or relist that completes it,
      an event or the end of its current watch. */
  ghost predicate Observes(w: World, step: Step, scope: Scope) {
    || (exists l :: SnapshotsWith(w, step, l) && (scope in l.versions || scope in l.eventVersions))
    || match step
       case Polls(a, force, _, _, _) =>
         PollSucceeds(w.s, a.listed, force) && !TakesSnapshot(w.s, force) && scope in a.listed.listing.completed
       case Delivers(at, _, _) => at == scope && CurrentWatch(w, scope) && scope in w.s.p.versions
       case Ends(at, _) => at == scope && CurrentWatch(w, scope) && scope in w.s.p.versions
       case Expires(at, _, relisted, _) =>
         at == scope && CurrentWatch(w, scope) && w.config.canListScope && relisted.Relisted?
       case Relists(at, relisted, _) => at == scope && relisted.Relisted?
       case _ => false
  }

  /** The connector starts anew, or a snapshot gives the scope no version. */
  ghost predicate Drops(w: World, step: Step, scope: Scope) {
    step.Restarts? || exists l :: SnapshotsWith(w, step, l) && scope !in l.versions && scope !in l.eventVersions
  }

  function InstantOf(step: Step): Time {
    match step
    case Polls(_, _, _, _, now) => now
    case Delivers(_, _, now) => now
    case Expires(_, _, _, now) => now
    case Fails(_, now) => now
    case Ends(_, now) => now
    case Relists(_, _, now) => now
    case Beats(now) => now
    case _ => 0
  }

  function UntilOf(p: Producer, scope: Scope): Option<Time> {
    if scope in p.continuous then Some(p.continuous[scope]) else None
  }

  /** What one step makes of it. */
  ghost predicate Moves(w: World, step: Step, n: ChangeState, scope: Scope) {
    UntilOf(n.p, scope) == if Observes(w, step, scope) then Some(InstantOf(step))
                           else if Drops(w, step, scope) then None else UntilOf(w.s.p, scope)
  }

  lemma {:induction false} PollObserves(w: World, a: Answer, force: bool, declare: bool, order: seq<string>, now: Time,
                                        scope: Scope)
    ensures Moves(w, Polls(a, force, declare, order, now),
                  Poll(w.s, w.config, a.listed, now, force, declare, order), scope)
  {
    hide Overlay, OverlayEvents, Allowed, SnapshotItems, DeltaItems, Incomplete, DeltaDoomed, Fits, GlobalGap;
    if PollSucceeds(w.s, a.listed, force) && TakesSnapshot(w.s, force) {
      assert SnapshotsWith(w, Polls(a, force, declare, order, now), a.listed.listing);
    }
  }

  lemma {:induction false} ExpiryObserves(w: World, at: Scope, a: Answer, relisted: Relisted, now: Time, scope: Scope)
    requires WatchingNow(w, at)
    ensures Moves(w, Expires(at, a, relisted, now),
                  WatchExpired(w.s, w.config, at, w.watchers[at].generation, a.listed, relisted, now), scope)
  {
    var step, generation := Expires(at, a, relisted, now), w.watchers[at].generation;
    if w.config.canListScope || !CurrentWatch(w, at) {
      hide Poll, Overlay, OverlayEvents, Allowed, RelistItems, GlobalGap, PollSucceeds;
    } else {
      var declared := w.s.(b := w.s.b.Append([GlobalGap(w.s.p, now, ResourceVersionExpired)]));
      ForcedObserves(declared, w.config, a.listed, now, scope);
      if a.listed.Listed? && PollSucceeds(w.s, a.listed, true) {
        assert SnapshotsWith(w, step, a.listed.listing);
      }
      hide Poll, GlobalGap, Relist;
    }
  }

  /** What a poll that must list leaves of it. */
  lemma {:induction false} ForcedObserves(s: ChangeState, c: Config, listed: Listed, now: Time, scope: Scope)
    ensures UntilOf(Poll(s, c, listed, now, true, true, []).p, scope) ==
            if !PollSucceeds(s, listed, true) then UntilOf(s.p, scope)
            else if scope in listed.listing.versions || scope in listed.listing.eventVersions then Some(now) else None
  {
    hide Overlay, OverlayEvents, Allowed, SnapshotItems, Incomplete, Fits, GlobalGap;
  }

  lemma {:induction false} DeliveryObserves(w: World, at: Scope, event: WatchEvent, now: Time, scope: Scope)
    requires WatchingNow(w, at)
    ensures Moves(w, Delivers(at, event, now), ApplyWatchEvent(w.s, at, event, w.watchers[at].generation, now), scope)
  {
    EventIsObserved(w.s.p, at, event, now);
    hide ObservedItems, Observe;
  }

  lemma {:induction false} EventIsObserved(p: Producer, at: Scope, event: WatchEvent, now: Time)
    ensures Observe(p, at, event, now).continuous == p.continuous[at := now]
  {
    hide See, ObjectKey, EventKey, Denied;
    if event.kind == Bookmark || Denied(event.body) {
    } else if at.kind == "Event" {
    } else if ObjectKey(event.body).None? || event.kind != Deleted {
    } else {
    }
  }

  lemma {:induction false} EndObserves(w: World, at: Scope, now: Time, scope: Scope)
    requires WatchingNow(w, at)
    ensures Moves(w, Ends(at, now), AfterEnd(w, at, now).s, scope)
  {
  }

  lemma {:induction false} RelistObserves(w: World, at: Scope, relisted: Relisted, now: Time, scope: Scope)
    ensures Moves(w, Relists(at, relisted, now), Relist(w.s, at, relisted, now), scope)
  {
    hide Overlay, OverlayEvents, Allowed, RelistItems, SeenOutside;
  }

  lemma {:induction false} RestartDrops(w: World, epoch: string, scope: Scope)
    ensures Moves(w, Restarts(epoch), AfterRestart(w, epoch).s, scope)
  {
  }

  predicate LeavesContinuity(step: Step) {
    step.Occurs? || step.Registers? || step.Starts? || step.Fails? || step.Closes? || step.Holds? || step.Beats?
  }

  lemma {:induction false} QuietObserves(w: World, step: Step, scope: Scope)
    requires Enabled(w, step) && LeavesContinuity(step)
    ensures Moves(w, step, Next(w, step).s, scope)
  {
    hide GlobalGap, CanOccur;
  }

  lemma {:induction false} StepObserves(w: World, step: Step, scope: Scope)
    requires Enabled(w, step)
    ensures Moves(w, step, Next(w, step).s, scope)
  {
    hide Moves, Poll, WatchExpired, TrueAnswer, TrueRelist, TrueEvent, ApplyWatchEvent, Relist;
    match step {
      case Polls(a, force, declare, order, now) => PollObserves(w, a, force, declare, order, now, scope);
      case Expires(at, a, relisted, now) => ExpiryObserves(w, at, a, relisted, now, scope);
      case Delivers(at, event, now) => DeliveryObserves(w, at, event, now, scope);
      case Ends(at, now) => EndObserves(w, at, now, scope);
      case Relists(at, relisted, now) => RelistObserves(w, at, relisted, now, scope);
      case Restarts(epoch) => RestartDrops(w, epoch, scope);
      case _ => QuietObserves(w, step, scope);
    }
  }

  /** The instant of the step that observed the scope last, unless the connector has dropped it since. */
  ghost function LastObserved(worlds: seq<World>, steps: seq<Step>, n: nat, scope: Scope): Option<Time>
    requires n <= |steps| < |worlds|
  {
    if n == 0 then None
    else if Observes(worlds[n - 1], steps[n - 1], scope) then Some(InstantOf(steps[n - 1]))
    else if Drops(worlds[n - 1], steps[n - 1], scope) then None
    else LastObserved(worlds, steps, n - 1, scope)
  }

  /** Over every run: where a scope's gap begins is the instant at which the scope was last observed, and a gap of
      everything begins at the least of them. */
  lemma {:induction false} ContinuityIsLastObserved(worlds: seq<World>, steps: seq<Step>, n: nat, scope: Scope)
    requires IsRun(worlds, steps) && n <= |steps|
    ensures UntilOf(worlds[n].s.p, scope) == LastObserved(worlds, steps, n, scope)
  {
    hide Enabled, Next, Observes, Drops;
    if n > 0 {
      ContinuityIsLastObserved(worlds, steps, n - 1, scope);
      StepObserves(worlds[n - 1], steps[n - 1], scope);
    }
  }

  // ---- which watch is open, and what is held for it -------------------------------------------

  /** A watch is registered as open from its registration until it is over, and a version is held only for it. */
  ghost predicate WatchesOk(w: World) {
    && (forall s :: s in w.watchers <==> s in w.s.p.openWatches)
    && (forall s :: s in w.watchers ==> w.s.p.openWatches[s] == w.watchers[s].id && w.watchers[s].id <= w.s.p.watchIds)
    && forall s :: s in w.s.p.synthetic ==>
         s in w.s.p.openWatches && w.s.p.openWatches[s] == w.s.p.synthetic[s].watchId
  }

  /** Listings, events and losses touch neither. */
  predicate SameWatches(p: Producer, n: Producer) {
    n.openWatches == p.openWatches && n.synthetic == p.synthetic && n.watchIds == p.watchIds
  }

  lemma {:induction false} ListingLeavesWatches(s: ChangeState, c: Config, listed: Listed, at: Time, force: bool,
                                                declare: bool, order: seq<string>)
    ensures SameWatches(s.p, Poll(s, c, listed, at, force, declare, order).p)
  {
    hide Incomplete, Overlay, OverlayEvents, Allowed, DeltaDoomed, PollSucceeds;
  }

  lemma {:induction false} RelistLeavesWatches(s: ChangeState, at: Scope, relisted: Relisted, now: Time)
    ensures SameWatches(s.p, Relist(s, at, relisted, now).p)
  {
    hide Overlay, OverlayEvents, Allowed, RelistItems, SeenOutside, ScopeOfKey;
  }

  lemma {:induction false} ExpiryLeavesWatches(s: ChangeState, c: Config, at: Scope, generation: nat, listed: Listed,
                                               relisted: Relisted, now: Time)
    ensures SameWatches(s.p, WatchExpired(s, c, at, generation, listed, relisted, now).p)
  {
    hide Poll, Relist, GlobalGap;
    var since := if at in s.p.continuous then Some(s.p.continuous[at]) else None;
    RelistLeavesWatches(s.(b := s.b.Append([Gap(now, ResourceVersionExpired, Some(at), since)])), at, relisted, now);
    ListingLeavesWatches(s.(b := s.b.Append([GlobalGap(s.p, now, ResourceVersionExpired)])), c, listed, now, true, true,
                         []);
  }

  lemma {:induction false} FailureLeavesWatches(s: ChangeState, at: Scope, generation: nat, now: Time)
    ensures SameWatches(s.p, WatchFailed(s, at, generation, now).p)
  {
  }

  lemma {:induction false} EventLeavesWatches(s: ChangeState, at: Scope, event: WatchEvent, generation: nat, now: Time)
    ensures SameWatches(s.p, ApplyWatchEvent(s, at, event, generation, now).p)
  {
    hide See, ObjectKey, EventKey, Denied, ObservedItems;
    if event.kind == Bookmark || Denied(event.body) {
    } else if at.kind == "Event" {
    } else if ObjectKey(event.body).None? || event.kind != Deleted {
    } else {
    }
  }

  lemma {:induction false} RegisterKeepsWatches(w: World, scope: Scope)
    requires WatchesOk(w) && scope !in w.watchers
    ensures WatchesOk(w.(s := w.s.(p := Register(w.s.p, scope)),
                         watchers := w.watchers[scope := Registered(w.s.p.watchIds + 1)]))
  {
  }

  /** A watch goes on, or is over, under its own id. */
  lemma {:induction false} GoingOnKeepsWatches(w: World, n: World, scope: Scope)
    requires WatchesOk(w) && SameWatches(w.s.p, n.s.p) && scope in w.watchers && scope in n.watchers
    requires n.watchers == w.watchers[scope := n.watchers[scope]] && n.watchers[scope].id == w.watchers[scope].id
    ensures WatchesOk(n)
  {
  }

  lemma {:induction false} EndKeepsWatches(w: World, scope: Scope, now: Time)
    requires WatchesOk(w) && WatchingNow(w, scope)
    ensures WatchesOk(AfterEnd(w, scope, now))
  {
    hide Newer;
  }

  lemma {:induction false} CloseKeepsWatches(w: World, scope: Scope)
    requires WatchesOk(w) && scope in w.watchers
    ensures WatchesOk(w.(s := w.s.(p := Close(w.s.p, scope, w.watchers[scope].id)), watchers := w.watchers - {scope}))
  {
  }

  lemma {:induction false} HoldKeepsWatches(w: World, scope: Scope, watchId: nat, version: Version)
    requires WatchesOk(w)
    ensures WatchesOk(AfterHold(w, scope, watchId, version))
  {
  }

  predicate TouchesWatches(step: Step) {
    step.Registers? || step.Starts? || step.Ends? || step.Closes? || step.Holds? || step.Restarts?
  }

  lemma {:induction false} WatchStepOk(w: World, step: Step)
    requires Enabled(w, step) && TouchesWatches(step) && WatchesOk(w)
    ensures WatchesOk(Next(w, step))
  {
    hide CanEnd, MayStart, WatchesOk, Register, Close, AfterEnd, AfterHold;
    match step {
      case Registers(scope) => RegisterKeepsWatches(w, scope);
      case Starts(scope) => GoingOnKeepsWatches(w, Next(w, step), scope);
      case Ends(scope, now) => EndKeepsWatches(w, scope, now);
      case Closes(scope) => CloseKeepsWatches(w, scope);
      case Holds(scope, watchId, version) => HoldKeepsWatches(w, scope, watchId, version);
      case Restarts(epoch) => RestartKeepsWatches(w, epoch);
      case _ =>
    }
  }

  lemma {:induction false} RestartKeepsWatches(w: World, epoch: string)
    ensures WatchesOk(AfterRestart(w, epoch))
  {
  }

  /** Nothing else changes which watches there are. */
  lemma {:induction false} SameKeepsWatches(w: World, n: World)
    requires WatchesOk(w) && SameWatches(w.s.p, n.s.p) && n.watchers == w.watchers
    ensures WatchesOk(n)
  {
  }

  lemma {:induction false} OtherStepOk(w: World, step: Step)
    requires Enabled(w, step) && !TouchesWatches(step) && WatchesOk(w)
    ensures WatchesOk(Next(w, step))
  {
    hide TrueAnswer, TrueRelist, TrueEvent, CanOccur, Poll, WatchExpired, WatchFailed, ApplyWatchEvent, Relist,
         WatchesOk;
    var n := Next(w, step);
    match step {
      case Polls(a, force, declare, order, now) =>
        ListingLeavesWatches(w.s, w.config, a.listed, now, force, declare, order);
        SameKeepsWatches(w, n);
      case Expires(at, a, relisted, now) =>
        ExpiryLeavesWatches(w.s, w.config, at, w.watchers[at].generation, a.listed, relisted, now);
        GoingOnKeepsWatches(w, n, at);
      case Fails(at, now) =>
        FailureLeavesWatches(w.s, at, w.watchers[at].generation, now);
        GoingOnKeepsWatches(w, n, at);
      case Delivers(at, event, now) =>
        EventLeavesWatches(w.s, at, event, w.watchers[at].generation, now);
        GoingOnKeepsWatches(w, n, at);
      case Relists(at, relisted, now) =>
        RelistLeavesWatches(w.s, at, relisted, now);
        SameKeepsWatches(w, n);
      case _ => SameKeepsWatches(w, n);
    }
  }

  /** Over every run: the watches registered as open are the scopes' own watches, and a version is held only for the
      watch that is open, so no watch adopts what was held for another. */
  lemma {:induction false} HeldForOpenWatch(worlds: seq<World>, steps: seq<Step>, n: nat)
    requires IsRun(worlds, steps) && n <= |steps|
    ensures WatchesOk(worlds[n])
  {
    hide Enabled, Next, WatchesOk, Starting;
    if n > 0 {
      HeldForOpenWatch(worlds, steps, n - 1);
      if TouchesWatches(steps[n - 1]) {
        WatchStepOk(worlds[n - 1], steps[n - 1]);
      } else {
        OtherStepOk(worlds[n - 1], steps[n - 1]);
      }
    } else {
      NoneOpen(worlds[0]);
    }
  }

  lemma {:induction false} NoneOpen(w: World)
    requires Starting(w)
    ensures WatchesOk(w)
  {
  }

  /** What is held is held for the watch registered as open. */
  predicate HeldForOpen(p: Producer) {
    forall s :: s in p.synthetic ==> s in p.openWatches && p.openWatches[s] == p.synthetic[s].watchId
  }

  /** A new watch has a number of its own and starts with nothing held, even where another watch of its scope is still
      open, whose held version goes with it. */
  lemma {:induction false} NewWatchHoldsNothing(p: Producer, scope: Scope)
    requires HeldForOpen(p) && forall s :: s in p.openWatches ==> p.openWatches[s] <= p.watchIds
    ensures var n := Register(p, scope);
            && HeldForOpen(n) && scope !in n.synthetic && scope in n.openWatches && n.openWatches[scope] == n.watchIds
            && (forall s :: s in p.openWatches ==> p.openWatches[s] < n.openWatches[scope])
            && (forall s :: s != scope ==> (s in n.openWatches <==> s in p.openWatches)
                                           && (s in p.openWatches ==> n.openWatches[s] == p.openWatches[s])
                                           && (s in n.synthetic <==> s in p.synthetic)
                                           && (s in p.synthetic ==> n.synthetic[s] == p.synthetic[s]))
  {
  }

  /** And when it is over, only its own entries go. */
  lemma {:induction false} CloseTakesItsOwn(p: Producer, scope: Scope, watchId: nat)
    requires HeldForOpen(p)
    ensures var n := Close(p, scope, watchId);
            && HeldForOpen(n)
            && (scope in n.openWatches <==> scope in p.openWatches && p.openWatches[scope] != watchId)
            && (scope in n.synthetic <==> scope in p.synthetic && p.synthetic[scope].watchId != watchId)
            && (forall s :: s in n.openWatches ==> n.openWatches[s] == p.openWatches[s])
            && (forall s :: s in n.synthetic ==> n.synthetic[s] == p.synthetic[s])
            && forall s :: s != scope ==> (s in n.openWatches <==> s in p.openWatches)
                                          && (s in n.synthetic <==> s in p.synthetic)
  {
  }

  /** A watch that ends adopts the version held for it exactly when both versions are numbers and the held one is
      greater; no version ever goes back, and no other scope's changes. */
  lemma {:induction false} EndAdoptsExactly(p: Producer, scope: Scope, watchId: nat, generation: nat, now: Time)
    requires generation == p.generation && scope in p.versions
    ensures var n, was := WatchEnded(p, scope, watchId, generation, now), p.versions[scope];
            && n.versions.Keys == p.versions.Keys && scope !in n.synthetic
            && (forall s :: s in p.versions && s != scope ==> n.versions[s] == p.versions[s])
            && (n.versions[scope] != was <==>
                  && scope in p.synthetic && p.synthetic[scope].watchId == watchId
                  && p.synthetic[scope].version.numeric && was.numeric && p.synthetic[scope].version.at > was.at)
            && (n.versions[scope] != was ==> n.versions[scope] == p.synthetic[scope].version)
            && n.versions[scope].at >= was.at
  {
  }
}
