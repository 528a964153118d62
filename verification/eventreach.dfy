/** Which Events a resumed watch reaches, in every reachable state: the exact limit of resume convergence for Event
    scopes, whose versions are remembered even when listing them fails. */
module EventReach {
  import opened Text
  import opened Wire
  import opened Streams
  import opened Producing
  import opened Cluster
  import opened Worlds
  import opened Convergence

  // ---- when an Event was last reported --------------------------------------------------------

  /** The Events a poll listed, each with the version its scope was read at. */
  function ListedReports(w: World, a: Answer): map<string, nat>
    requires a.listed.Listed?
  {
    map k | k in OverlayEvents(map[], a.listed.listing.events) && k in w.owner && w.owner[k] in a.eventsRead ::
      a.eventsRead[w.owner[k]].at
  }

  function PollReports(w: World, reports: map<string, nat>, a: Answer, force: bool): map<string, nat> {
    if !PollSucceeds(w.s, a.listed, force) then reports
    else if TakesSnapshot(w.s, force) then ListedReports(w, a)
    else reports + ListedReports(w, a)
  }

  function RelistReports(reports: map<string, nat>, scope: Scope, r: Relisted): map<string, nat> {
    if r.RelistFailed? || scope.kind != "Event" then reports
    else reports + map k | k in OverlayEvents(map[], r.bodies) :: r.version.at
  }

  predicate ReportsEvent(scope: Scope, event: WatchEvent) {
    scope.kind == "Event" && event.kind != Bookmark && !Denied(event.body)
  }

  function DeliveryReports(w: World, reports: map<string, nat>, scope: Scope, event: WatchEvent): map<string, nat>
    requires WatchingNow(w, scope)
  {
    if Current(w.s.p, scope, w.watchers[scope].generation) && ReportsEvent(scope, event)
    then reports[EventKey(event.body) := event.version.at] else reports
  }

  function ReportsAfterExpiry(w: World, reports: map<string, nat>, scope: Scope, a: Answer, relisted: Relisted)
    : map<string, nat>
    requires WatchingNow(w, scope)
  {
    if w.watchers[scope].generation != w.s.p.generation then reports
    else if !w.config.canListScope then PollReports(w, reports, a, true)
    else RelistReports(reports, scope, relisted)
  }

  /** The cluster version each Event was last listed or delivered at, since the latest snapshot. */
  ghost function ReportsAfter(w: World, reports: map<string, nat>, step: Step): map<string, nat>
    requires Enabled(w, step)
  {
    match step
    case Polls(a, force, _, _, _) => PollReports(w, reports, a, force)
    case Expires(scope, a, relisted, _) => ReportsAfterExpiry(w, reports, scope, a, relisted)
    case Relists(scope, relisted, _) => RelistReports(reports, scope, relisted)
    case Delivers(scope, event, _) => DeliveryReports(w, reports, scope, event)
    case Restarts(_) => map[]
    case _ => reports
  }

  ghost function ReportsAt(worlds: seq<World>, steps: seq<Step>, i: nat): map<string, nat>
    requires IsRun(worlds, steps) && i < |worlds|
  {
    if i == 0 then map[] else ReportsAfter(worlds[i - 1], ReportsAt(worlds, steps, i - 1), steps[i - 1])
  }

  // ---- what a report is worth -----------------------------------------------------------------

  /** The body is one that a change of the key left by version v. */
  ghost predicate LeftBy(scope: Scope, log: seq<Change>, v: nat, key: string, body: Body) {
    exists i :: 0 <= i < |log| && KeyIn(scope, log[i].body) == Some(key) && log[i].at <= v && log[i].body == body
  }

  /** What a report at version v is worth: the Event, if seen, is as some change up to v left it; if it has not changed
      since v it is seen as it is; and in a scope left unlisted the report is of a later change. */
  ghost predicate ReportHolds(scope: Scope, log: seq<Change>, events: map<string, Body>, left: Option<nat>, v: nat,
                              key: string) {
    && (key in events ==> LeftBy(scope, log, v, key, events[key]))
    && (key in CurrentState(scope, log) && !Touched(scope, log, v, key) ==>
          SameAt(events, CurrentState(scope, log), key))
    && Followed(scope, log, left, key)
  }

  /** An Event seen was reported, and its report holds. */
  ghost predicate KeyKnown(w: World, reports: map<string, nat>, key: string) {
    && (key in w.s.p.eventsSeen ==> key in reports)
    && (key in reports ==>
          && key in w.owner && reports[key] <= w.tip
          && ReportHolds(w.owner[key], w.LogOf(w.owner[key]), w.s.p.eventsSeen, LeftAt(w, w.owner[key]), reports[key],
                         key))
  }

  /** Where a scope was left unlisted lies behind everything that may be followed from. */
  ghost predicate FloorOk(w: World, scope: Scope) {
    scope in w.unlisted ==>
      && scope in w.remembered && w.unlisted[scope] <= w.remembered[scope].at
      && (scope in w.s.p.versions ==> w.unlisted[scope] <= w.s.p.versions[scope].at)
      && (Live(w, scope) ==> w.unlisted[scope] <= w.watchers[scope].position)
  }

  ghost predicate Known(w: World, reports: map<string, nat>) {
    (forall key :: KeyKnown(w, reports, key)) && forall scope :: FloorOk(w, scope)
  }

  lemma {:induction false} ListedIsLeft(scope: Scope, log: seq<Change>, v: nat, key: string)
    requires key in ListedAt(scope, log, v)
    ensures LeftBy(scope, log, v, key, ListedAt(scope, log, v)[key])
  {
    var front, last := log[..|log| - 1], log[|log| - 1];
    if last.at <= v && KeyIn(scope, last.body) == Some(key) {
      assert log[|log| - 1].body == ListedAt(scope, log, v)[key];
    } else {
      if last.at <= v {
        OccurSame(ListedAt(scope, front, v), ListedAt(scope, front, v), scope, last, key);
      }
      ListedIsLeft(scope, front, v, key);
      var i :| 0 <= i < |front| && KeyIn(scope, front[i].body) == Some(key) && front[i].at <= v
               && front[i].body == ListedAt(scope, front, v)[key];
      assert log[i] == front[i];
    }
  }

  // ---- steps ----------------------------------------------------------------------------------

  /** Nothing the account of Events reads has changed. */
  predicate SameEvents(w: World, n: World) {
    && n.logs == w.logs && n.tip == w.tip && n.owner == w.owner && n.s.p.eventsSeen == w.s.p.eventsSeen
  }

  lemma {:induction false} SameKnown(w: World, n: World, reports: map<string, nat>, key: string)
    requires KeyKnown(w, reports, key) && SameEvents(w, n)
    requires forall s :: s in n.unlisted ==> s in w.unlisted && n.unlisted[s] == w.unlisted[s]
    ensures KeyKnown(n, reports, key)
  {
  }

  lemma {:induction false} ChangeKnown(w: World, scope: Scope, change: Change, reports: map<string, nat>, key: string)
    requires KeyKnown(w, reports, key) && CanOccur(w, scope, change)
    ensures KeyKnown(AfterChange(w, scope, change), reports, key)
  {
    if key in reports && w.owner[key] == scope {
      ReportOutlasts(scope, w.LogOf(scope), change, w.s.p.eventsSeen, LeftAt(w, scope), reports[key], key);
    }
  }

  /** A report still holds when something changes afterwards. */
  lemma {:induction false} ReportOutlasts(scope: Scope, log: seq<Change>, change: Change, events: map<string, Body>,
                                          left: Option<nat>, v: nat, key: string)
    requires change.at > v && ReportHolds(scope, log, events, left, v, key)
    ensures ReportHolds(scope, log + [change], events, left, v, key)
  {
    var longer := log + [change];
    assert longer[..|longer| - 1] == log;
    TouchedLast(scope, longer, v, key);
    if left.Some? {
      TouchedLast(scope, longer, left.value, key);
    }
    OccurSame(CurrentState(scope, log), map[], scope, change, key);
    if key in events {
      var i :| 0 <= i < |log| && KeyIn(scope, log[i].body) == Some(key) && log[i].at <= v && log[i].body == events[key];
      assert longer[i] == log[i];
    }
  }

  /** A listing of its scope at v reports a key as of v. */
  lemma {:induction false} ListedReportHolds(scope: Scope, log: seq<Change>, listed: map<string, Body>,
                                             events: map<string, Body>, v: nat, key: string)
    requires key in listed && SameAt(listed, ListedAt(scope, log, v), key) && SameAt(events, listed, key)
    ensures ReportHolds(scope, log, events, None, v, key)
  {
    ListedIsLeft(scope, log, v, key);
    if !Touched(scope, log, v, key) {
      ListedUntouched(scope, log, v, key);
    }
  }

  lemma {:induction false} SnapshotKnown(w: World, n: World, a: Answer, now: Time, key: string)
    requires WellFormed(w) && TrueAnswer(w, a) && a.listed.Listed? && Snapshotted(w, n, a, now)
    ensures KeyKnown(n, ListedReports(w, a), key)
  {
    var listed := OverlayEvents(map[], a.listed.listing.events);
    if key in listed {
      var scope := w.owner[key];
      ListedReportHolds(scope, w.LogOf(scope), listed, n.s.p.eventsSeen, a.eventsRead[scope].at, key);
    }
  }

  /** The world after a reconciliation, as far as the account of Events reads it. */
  predicate ReconciledEvents(w: World, n: World, a: Answer)
    requires a.listed.Listed?
  {
    && n.logs == w.logs && n.tip == w.tip && n.owner == w.owner && n.unlisted == UnlistedAfter(w, a, false)
    && n.s.p.eventsSeen == w.s.p.eventsSeen + OverlayEvents(map[], a.listed.listing.events)
  }

  lemma {:induction false} DeltaIsReconciled(w: World, n: World, a: Answer, now: Time)
    requires a.listed.Listed? && Reconciled(w, n, a, now)
    ensures ReconciledEvents(w, n, a)
  {
    OverlayEventsMerges(w.s.p.eventsSeen, a.listed.listing.events);
  }

  lemma {:induction false} ListedKnown(w: World, n: World, a: Answer, reports: map<string, nat>, key: string)
    requires TrueAnswer(w, a) && a.listed.Listed? && ReconciledEvents(w, n, a)
    requires key in OverlayEvents(map[], a.listed.listing.events)
    ensures KeyKnown(n, reports + ListedReports(w, a), key)
  {
    var scope, listed := w.owner[key], OverlayEvents(map[], a.listed.listing.events);
    ListedReportHolds(scope, w.LogOf(scope), listed, n.s.p.eventsSeen, a.eventsRead[scope].at, key);
  }

  /** A key that is neither seen nor reported anew is known as it was. */
  lemma {:induction false} StillKnown(w: World, n: World, reports: map<string, nat>, more: map<string, nat>,
                                      key: string)
    requires KeyKnown(w, reports, key) && key !in more && SameAt(n.s.p.eventsSeen, w.s.p.eventsSeen, key)
    requires n.logs == w.logs && n.tip == w.tip && n.owner == w.owner
    requires forall s :: s in n.unlisted ==> s in w.unlisted && n.unlisted[s] == w.unlisted[s]
    ensures KeyKnown(n, reports + more, key)
  {
  }

  lemma {:induction false} DeltaKnown(w: World, n: World, a: Answer, now: Time, reports: map<string, nat>, key: string)
    requires TrueAnswer(w, a) && a.listed.Listed? && Reconciled(w, n, a, now) && KeyKnown(w, reports, key)
    ensures KeyKnown(n, reports + ListedReports(w, a), key)
  {
    DeltaIsReconciled(w, n, a, now);
    ReconciledKnown(w, n, a, reports, key);
  }

  lemma {:induction false} ReconciledKnown(w: World, n: World, a: Answer, reports: map<string, nat>, key: string)
    requires TrueAnswer(w, a) && a.listed.Listed? && ReconciledEvents(w, n, a) && KeyKnown(w, reports, key)
    ensures KeyKnown(n, reports + ListedReports(w, a), key)
  {
    if key in OverlayEvents(map[], a.listed.listing.events) {
      ListedKnown(w, n, a, reports, key);
    } else {
      StillKnown(w, n, reports, ListedReports(w, a), key);
    }
  }

  lemma {:induction false} SnapshotFloor(w: World, n: World, a: Answer, now: Time, scope: Scope)
    requires WellFormed(w) && TrueAnswer(w, a) && a.listed.Listed? && Snapshotted(w, n, a, now)
    ensures FloorOk(n, scope)
  {
    SnapshotWellFormed(w, n, a, now);
    if scope in n.s.p.versions {
      SnapshotVersion(w, n, a, now, scope);
    }
  }

  lemma {:induction false} DeltaFloor(w: World, n: World, a: Answer, now: Time, scope: Scope)
    requires WellFormed(w) && TrueAnswer(w, a) && a.listed.Listed? && Reconciled(w, n, a, now) && FloorOk(w, scope)
    ensures FloorOk(n, scope)
  {
    if scope in n.unlisted {
      assert scope in w.remembered && scope !in a.eventsRead && scope !in a.readAt;
      assert n.s.p.versions[scope] == w.remembered[scope];
      assert Live(n, scope) ==> w.watchers[scope].generation == w.s.p.generation && scope in w.s.p.versions;
    }
  }

  lemma {:induction false} PollKnown(w: World, a: Answer, force: bool, declare: bool, order: seq<string>, now: Time,
                                     reports: map<string, nat>)
    requires WellFormed(w) && TrueAnswer(w, a) && Known(w, reports)
    ensures Known(AfterPoll(w, a, force, declare, order, now), PollReports(w, reports, a, force))
  {
    var n, after := AfterPoll(w, a, force, declare, order, now), PollReports(w, reports, a, force);
    PollOutcome(w, a, force, declare, order, now);
    forall key ensures KeyKnown(n, after, key) {
      assert KeyKnown(w, reports, key);
      if !PollSucceeds(w.s, a.listed, force) {
        SameKnown(w, n, reports, key);
      } else if TakesSnapshot(w.s, force) {
        SnapshotKnown(w, n, a, now, key);
      } else {
        DeltaKnown(w, n, a, now, reports, key);
      }
    }
    forall scope ensures FloorOk(n, scope) {
      assert FloorOk(w, scope);
      if !PollSucceeds(w.s, a.listed, force) {
        FailedPollFloor(w, n, a, scope);
      } else if TakesSnapshot(w.s, force) {
        SnapshotFloor(w, n, a, now, scope);
      } else {
        DeltaFloor(w, n, a, now, scope);
      }
    }
  }

  lemma {:induction false} FailedPollFloor(w: World, n: World, a: Answer, scope: Scope)
    requires TrueAnswer(w, a) && FailedPoll(w, n, a) && FloorOk(w, scope)
    ensures FloorOk(n, scope)
  {
  }

  /** The world after a relist of an Event scope, as far as the account of Events reads it. */
  predicate RelistedEvents(w: World, n: World, scope: Scope, r: Relisted)
    requires r.Relisted?
  {
    && n.logs == w.logs && n.tip == w.tip && n.owner == w.owner && n.unlisted == w.unlisted - {scope}
    && n.s.p.eventsSeen == if scope.kind == "Event" then OverlayEvents(w.s.p.eventsSeen, r.bodies) else w.s.p.eventsSeen
  }

  lemma {:induction false} RelistedKey(w: World, n: World, scope: Scope, r: Relisted, reports: map<string, nat>,
                                       key: string)
    requires r.Relisted? && TrueRelist(w, scope, r) && RelistedEvents(w, n, scope, r) && KeyKnown(w, reports, key)
    ensures KeyKnown(n, RelistReports(reports, scope, r), key)
  {
    if scope.kind == "Event" {
      var listed := OverlayEvents(map[], r.bodies);
      OverlayEventsMerges(w.s.p.eventsSeen, r.bodies);
      if key in listed {
        ListedReportHolds(scope, w.LogOf(scope), listed, n.s.p.eventsSeen, r.version.at, key);
      }
    } else {
      SameKnown(w, n, reports, key);
    }
  }

  lemma {:induction false} RelistFloor(w: World, n: World, scope: Scope, r: Relisted, now: Time, other: Scope)
    requires r.Relisted? && WatchersAfter(w, n, scope) && FloorOk(w, other)
    requires n.s.p == RelistProducer(w.s.p, scope, r, now) && n.unlisted == w.unlisted - {scope}
    requires n.remembered == w.remembered
    ensures FloorOk(n, other)
  {
    assert Live(n, other) ==> Live(w, other) || other == scope;
  }

  lemma {:induction false} RelistKnown(w: World, n: World, scope: Scope, r: Relisted, now: Time,
                                       reports: map<string, nat>)
    requires WellFormed(w) && r.Relisted? && TrueRelist(w, scope, r) && WatchersAfter(w, n, scope) && Known(w, reports)
    requires n.s.p == RelistProducer(w.s.p, scope, r, now) && n.unlisted == w.unlisted - {scope}
    requires n.logs == w.logs && n.tip == w.tip && n.owner == w.owner && n.remembered == w.remembered
    ensures Known(n, RelistReports(reports, scope, r))
  {
    forall key ensures KeyKnown(n, RelistReports(reports, scope, r), key) {
      assert KeyKnown(w, reports, key);
      RelistedKey(w, n, scope, r, reports, key);
    }
    forall other ensures FloorOk(n, other) {
      assert FloorOk(w, other);
      RelistFloor(w, n, scope, r, now, other);
    }
  }

  /** A delivered change reports its key as of its own version. */
  lemma {:induction false} DeliveredReportHolds(scope: Scope, log: seq<Change>, events: map<string, Body>,
                                                left: Option<nat>, i: nat, key: string)
    requires Ordered(log) && i < |log| && KeyIn(scope, log[i].body) == Some(key)
    requires key in events && events[key] == log[i].body && (left.Some? ==> left.value < log[i].at)
    ensures ReportHolds(scope, log, events, left, log[i].at, key)
  {
    if !Touched(scope, log, log[i].at, key) {
      LastChangeStands(scope, log, i, key);
    }
  }

  lemma {:induction false} ChangeDeliveredKnown(w: World, n: World, scope: Scope, event: WatchEvent, now: Time,
                                                reports: map<string, nat>, i: nat, key: string)
    requires WellFormed(w) && Live(w, scope) && KeyKnown(w, reports, key) && FloorOk(w, scope)
    requires i < |w.LogOf(scope)| && TrueChange(w.LogOf(scope), i, w.watchers[scope].position, event)
    requires event.kind != Bookmark && n.s.p == Observe(w.s.p, scope, event, now)
    requires n.logs == w.logs && n.tip == w.tip && n.owner == w.owner && n.unlisted == w.unlisted
    ensures KeyKnown(n, DeliveryReports(w, reports, scope, event), key)
  {
    if ReportsEvent(scope, event) && key == EventKey(event.body) {
      assert BelongsTo(w.owner, scope, w.LogOf(scope)[i].body);
      DeliveredReportHolds(scope, w.LogOf(scope), n.s.p.eventsSeen, LeftAt(w, scope), i, key);
    }
  }

  lemma {:induction false} DeliveryFloor(w: World, scope: Scope, event: WatchEvent, now: Time, other: Scope)
    requires WellFormed(w) && WatchingNow(w, scope) && TrueEvent(w, scope, w.watchers[scope].position, event)
    requires FloorOk(w, other) && FloorOk(w, scope)
    ensures FloorOk(AfterDelivery(w, scope, event, now), other)
  {
    var n := AfterDelivery(w, scope, event, now);
    assert event.version.at >= w.watchers[scope].position;
    assert other != scope && Live(n, other) ==> Live(w, other);
    assert other == scope && Live(n, scope) ==> Live(w, scope);
  }

  lemma {:induction false} DeliveryKnown(w: World, scope: Scope, event: WatchEvent, now: Time,
                                         reports: map<string, nat>)
    requires WellFormed(w) && WatchingNow(w, scope) && TrueEvent(w, scope, w.watchers[scope].position, event)
    requires Known(w, reports)
    ensures Known(AfterDelivery(w, scope, event, now), DeliveryReports(w, reports, scope, event))
  {
    var n := AfterDelivery(w, scope, event, now);
    assert FloorOk(w, scope);
    forall key ensures KeyKnown(n, DeliveryReports(w, reports, scope, event), key) {
      assert KeyKnown(w, reports, key);
      if Live(w, scope) && event.kind != Bookmark {
        var i :| 0 <= i < |w.LogOf(scope)| && TrueChange(w.LogOf(scope), i, w.watchers[scope].position, event);
        ChangeDeliveredKnown(w, n, scope, event, now, reports, i, key);
      } else {
        SameKnown(w, n, reports, key);
      }
    }
    forall other ensures FloorOk(n, other) {
      assert FloorOk(w, other);
      DeliveryFloor(w, scope, event, now, other);
    }
  }

  /** Steps that leave the Events and where scopes were left as they were, and move no version and no watch back. */
  ghost predicate OnlyForward(w: World, n: World) {
    && SameEvents(w, n) && n.unlisted == w.unlisted && n.remembered == w.remembered
    && n.s.p.generation == w.s.p.generation
    && (forall s :: s in n.s.p.versions ==> s in w.s.p.versions && w.s.p.versions[s].at <= n.s.p.versions[s].at)
    && (forall s :: Live(n, s) ==>
          || (Live(w, s) && n.watchers[s] == w.watchers[s])
          || (s in w.s.p.versions && n.watchers[s].position == w.s.p.versions[s].at))
  }

  lemma {:induction false} ForwardKnown(w: World, n: World, reports: map<string, nat>)
    requires Known(w, reports) && OnlyForward(w, n)
    ensures Known(n, reports)
  {
    forall key ensures KeyKnown(n, reports, key) {
      assert KeyKnown(w, reports, key);
      SameKnown(w, n, reports, key);
    }
    forall scope ensures FloorOk(n, scope) {
      assert FloorOk(w, scope);
    }
  }

  lemma {:induction false} OccursKnown(w: World, scope: Scope, change: Change, reports: map<string, nat>)
    requires Known(w, reports) && CanOccur(w, scope, change)
    ensures Known(AfterChange(w, scope, change), reports)
  {
    var n := AfterChange(w, scope, change);
    forall key ensures KeyKnown(n, reports, key) {
      assert KeyKnown(w, reports, key);
      ChangeKnown(w, scope, change, reports, key);
    }
    forall other ensures FloorOk(n, other) {
      assert FloorOk(w, other);
      assert Live(n, other) ==> Live(w, other);
    }
  }

  lemma {:induction false} StartsForward(w: World, scope: Scope)
    requires scope in w.watchers
    ensures OnlyForward(w, AfterStart(w, scope))
  {
  }

  lemma {:induction false} EndsForward(w: World, scope: Scope, now: Time)
    requires WatchingNow(w, scope)
    ensures OnlyForward(w, AfterEnd(w, scope, now))
  {
  }

  lemma {:induction false} PlainForward(w: World, step: Step)
    requires Enabled(w, step) && (TouchesNoView(step) || step.Holds?)
    ensures OnlyForward(w, Next(w, step))
  {
    hide TrueAnswer, TrueRelist, TrueEvent, CanEnd, AfterPoll, AfterExpiry, AfterChange;
  }

  /** An expiry that lists nothing changes nothing seen. */
  lemma {:induction false} ExpiryForward(w: World, scope: Scope, a: Answer, relisted: Relisted, now: Time)
    requires WatchingNow(w, scope)
    requires w.watchers[scope].generation != w.s.p.generation || (w.config.canListScope && relisted.RelistFailed?)
    ensures OnlyForward(w, AfterExpiry(w, scope, a, relisted, now))
  {
  }

  lemma {:induction false} ExpiryPollKnown(w: World, scope: Scope, a: Answer, relisted: Relisted, now: Time,
                                           reports: map<string, nat>)
    requires WellFormed(w) && WatchingNow(w, scope) && TrueAnswer(w, a) && Known(w, reports)
    requires w.watchers[scope].generation == w.s.p.generation && !w.config.canListScope
    ensures Known(AfterExpiry(w, scope, a, relisted, now), PollReports(w, reports, a, true))
  {
    var polled, n := AfterPoll(w, a, true, true, [], now), AfterExpiry(w, scope, a, relisted, now);
    PollKnown(w, a, true, true, [], now, reports);
    ExpiryPolls(w, scope, a, relisted, now);
    PolledLikeForward(polled, n);
    ForwardKnown(polled, n, PollReports(w, reports, a, true));
  }

  lemma {:induction false} ExpiryRelistKnown(w: World, scope: Scope, a: Answer, relisted: Relisted, now: Time,
                                             reports: map<string, nat>)
    requires WellFormed(w) && WatchingNow(w, scope) && TrueRelist(w, scope, relisted) && Known(w, reports)
    requires w.watchers[scope].generation == w.s.p.generation && w.config.canListScope && relisted.Relisted?
    ensures Known(AfterExpiry(w, scope, a, relisted, now), RelistReports(reports, scope, relisted))
  {
    RelistKnown(w, AfterExpiry(w, scope, a, relisted, now), scope, relisted, now, reports);
  }

  lemma {:induction false} ExpiryKnown(w: World, scope: Scope, a: Answer, relisted: Relisted, now: Time,
                                       reports: map<string, nat>)
    requires WellFormed(w) && WatchingNow(w, scope) && TrueAnswer(w, a) && TrueRelist(w, scope, relisted)
    requires Known(w, reports)
    ensures Known(AfterExpiry(w, scope, a, relisted, now),
                  ReportsAfterExpiry(w, reports, scope, a, relisted))
  {
    if w.watchers[scope].generation != w.s.p.generation || (w.config.canListScope && relisted.RelistFailed?) {
      ExpiryForward(w, scope, a, relisted, now);
      ForwardKnown(w, AfterExpiry(w, scope, a, relisted, now), reports);
    } else if !w.config.canListScope {
      ExpiryPollKnown(w, scope, a, relisted, now, reports);
    } else {
      ExpiryRelistKnown(w, scope, a, relisted, now, reports);
    }
  }

  lemma {:induction false} PolledLikeForward(polled: World, n: World)
    requires PolledLike(polled, n)
    ensures OnlyForward(polled, n)
  {
  }

  lemma {:induction false} StepKnown(w: World, step: Step, reports: map<string, nat>)
    requires Inv(w) && Enabled(w, step) && Known(w, reports)
    ensures Known(Next(w, step), ReportsAfter(w, reports, step))
  {
    hide Known, OnlyForward;
    if TouchesNoView(step) || step.Holds? {
      PlainForward(w, step);
      ForwardKnown(w, Next(w, step), reports);
    } else {
      match step {
        case Occurs(scope, change) => OccursKnown(w, scope, change, reports);
        case Polls(a, force, declare, order, now) => PollKnown(w, a, force, declare, order, now, reports);
        case Delivers(scope, event, now) => DeliveryKnown(w, scope, event, now, reports);
        case Expires(scope, a, relisted, now) => ExpiryKnown(w, scope, a, relisted, now, reports);
        case Ends(scope, now) =>
          EndsForward(w, scope, now);
          ForwardKnown(w, Next(w, step), reports);
        case Starts(scope) =>
          StartsForward(w, scope);
          ForwardKnown(w, Next(w, step), reports);
        case Relists(scope, relisted, now) => RelistKnown(w, Next(w, step), scope, relisted, now, reports);
        case Restarts(epoch) => NothingKnown(AfterRestart(w, epoch));
      }
    }
  }

  lemma {:induction false} NothingKnown(w: World)
    requires w.s.p.eventsSeen == map[] && w.unlisted == map[]
    ensures Known(w, map[])
  {
  }

  lemma {:induction false} RunKnown(worlds: seq<World>, steps: seq<Step>, i: nat)
    requires IsRun(worlds, steps) && i < |worlds|
    ensures Known(worlds[i], ReportsAt(worlds, steps, i))
  {
    if i == 0 {
      NothingKnown(worlds[0]);
    } else {
      RunKnown(worlds, steps, i - 1);
      RunKeeps(worlds, steps, i - 1);
      StepKnown(worlds[i - 1], steps[i - 1], ReportsAt(worlds, steps, i - 1));
    }
  }

  // ---- exactly which Events are reached -------------------------------------------------------

  /** In every reachable state, for an Event scope that no reconciliation moved ahead without listing it: replay reaches
      a current Event if and only if the scope was listed since the latest snapshot, that one included, or the Event
      changed after the version at which the snapshot left the scope unlisted. */
  lemma {:induction false} EventsResumeExactly(worlds: seq<World>, steps: seq<Step>, i: nat, scope: Scope, key: string)
    requires IsRun(worlds, steps) && i < |worlds|
    requires scope in worlds[i].s.p.versions && scope.kind == "Event" && scope !in worlds[i].skipped
    requires key in CurrentState(scope, worlds[i].LogOf(scope))
    ensures var w := worlds[i];
            Reaches(w, scope, key)
            <==> (scope in w.unlisted ==> Touched(scope, w.LogOf(scope), w.unlisted[scope], key))
  {
    var w, reports := worlds[i], ReportsAt(worlds, steps, i);
    RunKeeps(worlds, steps, i);
    RunKnown(worlds, steps, i);
    if Followed(scope, w.LogOf(scope), LeftAt(w, scope), key) {
      EventsResume(w, scope, key);
    } else {
      UnfollowedIsMissed(w, reports, scope, key);
    }
  }

  lemma {:induction false} UnfollowedIsMissed(w: World, reports: map<string, nat>, scope: Scope, key: string)
    requires WellFormed(w) && Known(w, reports) && scope in w.s.p.versions && scope.kind == "Event"
    requires key in CurrentState(scope, w.LogOf(scope)) && !Followed(scope, w.LogOf(scope), LeftAt(w, scope), key)
    ensures !Reaches(w, scope, key)
  {
    var log, v := w.LogOf(scope), w.s.p.versions[scope].at;
    assert FloorOk(w, scope) && KeyKnown(w, reports, key);
    OwnedKeys(w, scope);
    if Touched(scope, log, v, key) {
      TouchedMonotone(scope, log, w.unlisted[scope], v, key);
    }
    ReplayUntouched(w.s.p.eventsSeen, scope, log, v, key);
  }

  /** No two changes of the key leave the same body: a body carries its own version. */
  ghost predicate OwnBodies(scope: Scope, log: seq<Change>, key: string) {
    forall i, j :: 0 <= i < j < |log|
                   && KeyIn(scope, log[i].body) == Some(key) && KeyIn(scope, log[j].body) == Some(key) ==>
      log[i].body != log[j].body
  }

  /** The Event changed after the resume version, or has not changed since it was last listed or delivered. */
  ghost predicate Reachable(w: World, reports: map<string, nat>, scope: Scope, key: string)
    requires scope in w.s.p.versions
  {
    var log := w.LogOf(scope);
    Touched(scope, log, w.s.p.versions[scope].at, key) || (key in reports && !Touched(scope, log, reports[key], key))
  }

  /** In every reachable state, for every Event scope whatever: replay reaches a current Event if it changed after the
      resume version, or has not changed since a listing or a watch last reported it after the latest snapshot; and, as
      long as every change leaves a body of its own, only then. */
  lemma {:induction false} EventReachedExactly(worlds: seq<World>, steps: seq<Step>, i: nat, scope: Scope, key: string)
    requires IsRun(worlds, steps) && i < |worlds|
    requires scope in worlds[i].s.p.versions && scope.kind == "Event"
    requires key in CurrentState(scope, worlds[i].LogOf(scope))
    ensures var w, reports := worlds[i], ReportsAt(worlds, steps, i);
            && (Reachable(w, reports, scope, key) ==> Reaches(w, scope, key))
            && (OwnBodies(scope, w.LogOf(scope), key) && Reaches(w, scope, key) ==> Reachable(w, reports, scope, key))
  {
    var w, reports := worlds[i], ReportsAt(worlds, steps, i);
    var log, v := w.LogOf(scope), w.s.p.versions[scope].at;
    RunKeeps(worlds, steps, i);
    RunKnown(worlds, steps, i);
    OwnedKeys(w, scope);
    assert KeyKnown(w, reports, key);
    if Touched(scope, log, v, key) {
      ReplayTouched(w.s.p.eventsSeen, scope, log, v, key);
    } else {
      ReplayUntouched(w.s.p.eventsSeen, scope, log, v, key);
      if OwnBodies(scope, log, key) && key in reports && Touched(scope, log, reports[key], key) {
        StaleIsNotCurrent(scope, log, w.s.p.eventsSeen, LeftAt(w, scope), reports[key], key);
      }
    }
  }

  lemma {:induction false} StaleIsNotCurrent(scope: Scope, log: seq<Change>, events: map<string, Body>,
                                             left: Option<nat>, v: nat, key: string)
    requires ReportHolds(scope, log, events, left, v, key) && OwnBodies(scope, log, key)
    requires key in CurrentState(scope, log) && Touched(scope, log, v, key) && Ordered(log)
    ensures !SameAt(events, CurrentState(scope, log), key)
  {
    if key in events {
      var i :| 0 <= i < |log| && KeyIn(scope, log[i].body) == Some(key) && log[i].at <= v && log[i].body == events[key];
      var j := LastChange(scope, log, key);
      var t :| 0 <= t < |log| && log[t].at > v && KeyIn(scope, log[t].body) == Some(key);
      assert t <= j;
      assert i < j;
    }
  }

  /** The change that left a current key as it is. */
  lemma {:induction false} LastChange(scope: Scope, log: seq<Change>, key: string) returns (j: nat)
    requires key in CurrentState(scope, log)
    ensures j < |log| && KeyIn(scope, log[j].body) == Some(key) && log[j].body == CurrentState(scope, log)[key]
    ensures forall t :: j < t < |log| ==> KeyIn(scope, log[t].body) != Some(key)
  {
    var front, last := log[..|log| - 1], log[|log| - 1];
    if KeyIn(scope, last.body) == Some(key) {
      j := |log| - 1;
    } else {
      OccurSame(CurrentState(scope, front), CurrentState(scope, front), scope, last, key);
      j := LastChange(scope, front, key);
      assert forall t :: j < t < |front| ==> log[t] == front[t];
    }
  }
}
