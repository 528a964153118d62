/** Resume convergence: replaying a scope's changes after its resume version over what was seen of it gives the scope as
    it is now, through every interleaving of listings, watches, expiries, relists and bookmarks. */
module Convergence {
  import opened Text
  import opened Wire
  import opened Streams
  import opened Producing
  import opened Cluster
  import opened Worlds

  /** For objects: whatever did not change after v is seen exactly as it is, absence included. For Events, which are
      never taken back: every current Event that did not change after v is seen as it is, unless its scope was left
      unlisted at some version and it did not change after that either. */
  ghost predicate Converges(scope: Scope, log: seq<Change>, seen: map<string, Body>, events: map<string, Body>, v: nat,
                            unlisted: Option<nat>) {
    if scope.kind == "Event" then
      forall k :: k in CurrentState(scope, log) && !Touched(scope, log, v, k) && Followed(scope, log, unlisted, k) ==>
        SameAt(events, CurrentState(scope, log), k)
    else
      forall k :: ScopeOfKey(k) == Some(scope) && !Touched(scope, log, v, k) ==>
        SameAt(seen, CurrentState(scope, log), k)
  }

  /** The key's scope was listed, or the key changed after the version at which the scope was left unlisted. */
  ghost predicate Followed(scope: Scope, log: seq<Change>, unlisted: Option<nat>, key: string) {
    unlisted.Some? ==> Touched(scope, log, unlisted.value, key)
  }

  function LeftAt(w: World, scope: Scope): Option<nat> {
    if scope in w.unlisted then Some(w.unlisted[scope]) else None
  }

  ghost predicate ConvergesFrom(w: World, scope: Scope, v: nat) {
    && v <= w.tip
    && (scope !in w.skipped ==>
          Converges(scope, w.LogOf(scope), w.s.p.seen, w.s.p.eventsSeen, v, LeftAt(w, scope)))
  }

  ghost predicate WellFormed(w: World) {
    && ClusterIsSound(w)
    && (forall scope :: scope in w.unlisted || scope in w.skipped ==> scope.kind == "Event")
    && (forall scope :: scope in w.remembered ==> scope.kind == "Event" && w.remembered[scope].at <= w.tip)
    && (forall scope :: scope in w.s.p.synthetic ==> w.s.p.synthetic[scope].version.at <= w.tip)
    && (forall scope :: scope in w.watchers && w.watchers[scope].Watching? ==>
          && w.watchers[scope].generation <= w.s.p.generation && w.watchers[scope].position <= w.tip
          && (w.watchers[scope].generation == w.s.p.generation ==> scope in w.s.p.versions))
  }

  predicate Live(w: World, scope: Scope) {
    WatchingNow(w, scope) && w.watchers[scope].generation == w.s.p.generation && scope in w.s.p.versions
  }

  ghost predicate Inv(w: World) {
    && WellFormed(w)
    && (forall scope :: scope in w.s.p.versions ==> ConvergesFrom(w, scope, w.s.p.versions[scope].at))
    && (forall scope :: Live(w, scope) ==> ConvergesFrom(w, scope, w.watchers[scope].position))
  }

  lemma {:induction false} Lower(w: World, scope: Scope, v: nat, u: nat)
    requires ConvergesFrom(w, scope, v) && u <= v
    ensures ConvergesFrom(w, scope, u)
  {
    forall k | !Touched(scope, w.LogOf(scope), u, k) ensures !Touched(scope, w.LogOf(scope), v, k) {
      if Touched(scope, w.LogOf(scope), v, k) {
        TouchedMonotone(scope, w.LogOf(scope), u, v, k);
      }
    }
  }

  /** Skipping a stretch in which nothing happened loses nothing. */
  lemma {:induction false} SkipQuiet(w: World, scope: Scope, v: nat, u: nat)
    requires ConvergesFrom(w, scope, v) && u <= w.tip && QuietBetween(w.LogOf(scope), v, u)
    ensures ConvergesFrom(w, scope, u)
  {
    forall k | !Touched(scope, w.LogOf(scope), u, k) ensures !Touched(scope, w.LogOf(scope), v, k) {
      if Touched(scope, w.LogOf(scope), v, k) {
        TouchedAcrossQuiet(scope, w.LogOf(scope), v, u, k);
      }
    }
  }

  // ---- one body of a watch --------------------------------------------------------------------

  lemma {:induction false} DeliveredKeepsOthers(w: World, scope: Scope, other: Scope, event: WatchEvent, now: Time,
                                                v: nat)
    requires ConvergesFrom(w, other, v) && other != scope && BelongsTo(w.owner, scope, event.body) && WellFormed(w)
    requires event.kind != Bookmark
    ensures var p := Observe(w.s.p, scope, event, now);
            other !in w.skipped ==>
              Converges(other, w.LogOf(other), p.seen, p.eventsSeen, v, LeftAt(w, other))
  {
    var key := KeyIn(scope, event.body);
    if key.Some? && scope.kind == "Event" && other.kind == "Event" && key.value in CurrentState(other, w.LogOf(other)) {
      CurrentKeysChanged(other, w.LogOf(other), key.value);
      assert false;
    }
  }

  lemma {:induction false} TouchedPastNext(scope: Scope, log: seq<Change>, i: nat, position: nat, event: WatchEvent,
                                           k: string)
    requires Ordered(log) && i < |log| && TrueChange(log, i, position, event)
    requires Touched(scope, log, position, k) && KeyIn(scope, event.body) != Some(k)
    ensures Touched(scope, log, event.version.at, k)
  {
    var j :| 0 <= j < |log| && log[j].at > position && KeyIn(scope, log[j].body) == Some(k);
    assert j > i;
  }

  /** The body delivered is the scope's next change: what was converged before it is converged after it. */
  lemma {:induction false} DeliveredConverges(w: World, scope: Scope, position: nat, event: WatchEvent, now: Time,
                                              i: nat)
    requires WellFormed(w) && ConvergesFrom(w, scope, position) && scope !in w.skipped
    requires event.kind != Bookmark && i < |w.LogOf(scope)| && TrueChange(w.LogOf(scope), i, position, event)
    ensures var p := Observe(w.s.p, scope, event, now);
            Converges(scope, w.LogOf(scope), p.seen, p.eventsSeen, event.version.at, LeftAt(w, scope))
  {
    var log, u := w.LogOf(scope), event.version.at;
    var p := Observe(w.s.p, scope, event, now);
    var key := KeyIn(scope, event.body);
    forall k | !Touched(scope, log, u, k)
               && (scope.kind == "Event" ==>
                     k in CurrentState(scope, log) && Followed(scope, log, LeftAt(w, scope), k))
               && (scope.kind != "Event" ==> ScopeOfKey(k) == Some(scope))
      ensures SameAt(if scope.kind == "Event" then p.eventsSeen else p.seen, CurrentState(scope, log), k)
    {
      if key == Some(k) {
        LastChangeStands(scope, log, i, k);
      } else if Touched(scope, log, position, k) {
        TouchedPastNext(scope, log, i, position, event, k);
      }
    }
  }

  // ---- listings -------------------------------------------------------------------------------

  lemma {:induction false} OverlayMerges(seen: map<string, Body>, bodies: seq<Body>)
    ensures Overlay(seen, bodies) == seen + Overlay(map[], bodies)
  {
    if bodies != [] {
      OverlayMerges(seen, bodies[..|bodies| - 1]);
    } else {
      assert seen + map[] == seen;
    }
  }

  lemma {:induction false} OverlayEventsMerges(seen: map<string, Body>, events: seq<Body>)
    ensures OverlayEvents(seen, events) == seen + OverlayEvents(map[], events)
  {
    if events != [] {
      OverlayEventsMerges(seen, events[..|events| - 1]);
    } else {
      assert seen + map[] == seen;
    }
  }

  /** A scope seen exactly as listed at v is converged from v and from anything older. */
  lemma {:induction false} ListedConverges(scope: Scope, log: seq<Change>, seen: map<string, Body>,
                                           events: map<string, Body>, v: nat, u: nat)
    requires u <= v
    requires scope.kind != "Event" ==>
             forall k :: ScopeOfKey(k) == Some(scope) ==> SameAt(seen, ListedAt(scope, log, v), k)
    requires scope.kind == "Event" ==>
             forall k :: k in ListedAt(scope, log, v) && k in CurrentState(scope, log) ==>
               SameAt(events, ListedAt(scope, log, v), k)
    ensures Converges(scope, log, seen, events, u, None)
  {
    forall k | !Touched(scope, log, u, k) ensures SameAt(ListedAt(scope, log, v), CurrentState(scope, log), k) {
      if Touched(scope, log, v, k) {
        TouchedMonotone(scope, log, u, v, k);
      }
      ListedUntouched(scope, log, v, k);
    }
  }

  lemma {:induction false} SnapshotConverges(w: World, l: Listing, readAt: map<Scope, nat>,
                                             eventsRead: map<Scope, Version>, at: Time, scope: Scope)
    requires TrueObjects(w, l, readAt) && TrueEvents(w, l, eventsRead)
    requires scope in readAt || scope in eventsRead
    requires forall s :: s in eventsRead ==> s.kind == "Event"
    requires WellFormed(w)
    ensures var p := SnapshotProducer(w.s.p, w.config, l, at);
            var v := if scope in readAt then readAt[scope] else eventsRead[scope].at;
            Converges(scope, w.LogOf(scope), p.seen, p.eventsSeen, v, None)
  {
    var p := SnapshotProducer(w.s.p, w.config, l, at);
    var log := w.LogOf(scope);
    if scope in readAt {
      ListedConverges(scope, log, p.seen, p.eventsSeen, readAt[scope], readAt[scope]);
    } else {
      OwnedKeys(w, scope);
      ListedConverges(scope, log, p.seen, p.eventsSeen, eventsRead[scope].at, eventsRead[scope].at);
    }
  }

  lemma {:induction false} OwnedKeys(w: World, scope: Scope)
    requires WellFormed(w) && scope.kind == "Event"
    ensures forall k :: k in CurrentState(scope, w.LogOf(scope)) ==> k in w.owner && w.owner[k] == scope
  {
    forall k | k in CurrentState(scope, w.LogOf(scope)) ensures k in w.owner && w.owner[k] == scope {
      CurrentKeysChanged(scope, w.LogOf(scope), k);
      var i :| 0 <= i < |w.LogOf(scope)| && KeyIn(scope, w.LogOf(scope)[i].body) == Some(k);
    }
  }

  /** After a reconciliation a completed scope is seen exactly as it was listed. */
  lemma {:induction false} DeltaSeesListed(p: Producer, l: Listing, at: Time, key: string)
    requires ScopeOfKey(key).Some? && ScopeOfKey(key).value in l.completed
    ensures SameAt(DeltaProducer(p, l, at).seen, Overlay(map[], Allowed(l.objects)), key)
  {
    OverlayMerges(p.seen, Allowed(l.objects));
  }

  /** Seen as listed, and listed as it was at v: converged from v. */
  lemma {:induction false} SeenAsListed(scope: Scope, log: seq<Change>, seen: map<string, Body>,
                                        events: map<string, Body>, listed: map<string, Body>, v: nat, u: nat)
    requires u <= v && scope.kind != "Event"
    requires forall k :: ScopeOfKey(k) == Some(scope) ==> SameAt(seen, listed, k)
    requires forall k :: ScopeOfKey(k) == Some(scope) ==> SameAt(listed, ListedAt(scope, log, v), k)
    ensures Converges(scope, log, seen, events, u, None)
  {
    ListedConverges(scope, log, seen, events, v, u);
  }

  lemma {:induction false} DeltaObjectsListed(w: World, l: Listing, readAt: map<Scope, nat>, at: Time, scope: Scope,
                                              u: nat)
    requires TrueObjects(w, l, readAt) && scope in readAt && u <= readAt[scope]
    ensures var p := DeltaProducer(w.s.p, l, at);
            Converges(scope, w.LogOf(scope), p.seen, p.eventsSeen, u, None)
  {
    var p, listed := DeltaProducer(w.s.p, l, at), Overlay(map[], Allowed(l.objects));
    forall k | ScopeOfKey(k) == Some(scope) ensures SameAt(p.seen, listed, k) {
      DeltaSeesListed(w.s.p, l, at, k);
    }
    SeenAsListed(scope, w.LogOf(scope), p.seen, p.eventsSeen, listed, readAt[scope], u);
  }

  lemma {:induction false} DeltaEventsListed(w: World, l: Listing, eventsRead: map<Scope, Version>, at: Time,
                                             scope: Scope, u: nat)
    requires TrueEvents(w, l, eventsRead) && WellFormed(w) && scope in eventsRead && scope.kind == "Event"
    requires u <= eventsRead[scope].at
    ensures var p := DeltaProducer(w.s.p, l, at);
            Converges(scope, w.LogOf(scope), p.seen, p.eventsSeen, u, None)
  {
    var p := DeltaProducer(w.s.p, l, at);
    OwnedKeys(w, scope);
    OverlayEventsMerges(w.s.p.eventsSeen, l.events);
    ListedConverges(scope, w.LogOf(scope), p.seen, p.eventsSeen, eventsRead[scope].at, u);
  }

  /** A reconciliation leaves what it did not list as it was. */
  lemma {:induction false} DeltaUnlisted(w: World, l: Listing, readAt: map<Scope, nat>, eventsRead: map<Scope, Version>,
                                         at: Time, scope: Scope, v: nat, left: Option<nat>)
    requires TrueObjects(w, l, readAt) && TrueEvents(w, l, eventsRead) && WellFormed(w)
    requires scope !in readAt && scope !in eventsRead
    requires Converges(scope, w.LogOf(scope), w.s.p.seen, w.s.p.eventsSeen, v, left)
    ensures var p := DeltaProducer(w.s.p, l, at);
            Converges(scope, w.LogOf(scope), p.seen, p.eventsSeen, v, left)
  {
    OverlayMerges(w.s.p.seen, Allowed(l.objects));
    OverlayEventsMerges(w.s.p.eventsSeen, l.events);
    if scope.kind == "Event" {
      OwnedKeys(w, scope);
    }
  }

  lemma {:induction false} RelistListed(w: World, scope: Scope, r: Relisted, now: Time)
    requires r.Relisted? && TrueRelist(w, scope, r) && WellFormed(w)
    ensures var p := RelistProducer(w.s.p, scope, r, now);
            Converges(scope, w.LogOf(scope), p.seen, p.eventsSeen, r.version.at, None)
  {
    var p := RelistProducer(w.s.p, scope, r, now);
    if scope.kind == "Event" {
      OwnedKeys(w, scope);
      OverlayEventsMerges(w.s.p.eventsSeen, r.bodies);
    } else {
      OverlayMerges(SeenOutside(w.s.p.seen, scope), Allowed(r.bodies));
    }
    ListedConverges(scope, w.LogOf(scope), p.seen, p.eventsSeen, r.version.at, r.version.at);
  }

  lemma {:induction false} RelistKeepsOthers(w: World, scope: Scope, r: Relisted, now: Time, other: Scope, v: nat,
                                             left: Option<nat>)
    requires r.Relisted? && TrueRelist(w, scope, r) && WellFormed(w) && other != scope
    requires Converges(other, w.LogOf(other), w.s.p.seen, w.s.p.eventsSeen, v, left)
    ensures var p := RelistProducer(w.s.p, scope, r, now);
            Converges(other, w.LogOf(other), p.seen, p.eventsSeen, v, left)
  {
    if scope.kind == "Event" {
      if other.kind == "Event" {
        OwnedKeys(w, other);
        OverlayEventsMerges(w.s.p.eventsSeen, r.bodies);
      }
    } else {
      OverlayMerges(SeenOutside(w.s.p.seen, scope), Allowed(r.bodies));
    }
  }

  // ---- every step keeps the invariant ---------------------------------------------------------

  lemma {:induction false} OccursWellFormed(w: World, scope: Scope, change: Change)
    requires WellFormed(w) && CanOccur(w, scope, change)
    ensures WellFormed(AfterChange(w, scope, change))
  {
  }

  lemma {:induction false} ChangeKeepsOne(w: World, scope: Scope, change: Change, other: Scope, v: nat)
    requires CanOccur(w, scope, change) && ConvergesFrom(w, other, v)
    ensures ConvergesFrom(AfterChange(w, scope, change), other, v)
  {
    if other == scope && scope !in w.skipped {
      OccurredConverges(scope, w.LogOf(scope), change, w.s.p.seen, w.s.p.eventsSeen, v, LeftAt(w, scope));
    }
  }

  lemma {:induction false} OccursKeeps(w: World, scope: Scope, change: Change)
    requires Inv(w) && CanOccur(w, scope, change)
    ensures Inv(AfterChange(w, scope, change))
  {
    OccursWellFormed(w, scope, change);
    forall other | other in w.s.p.versions
      ensures ConvergesFrom(AfterChange(w, scope, change), other, w.s.p.versions[other].at) {
      ChangeKeepsOne(w, scope, change, other, w.s.p.versions[other].at);
    }
    forall other | Live(w, other)
      ensures ConvergesFrom(AfterChange(w, scope, change), other, w.watchers[other].position)
    {
      ChangeKeepsOne(w, scope, change, other, w.watchers[other].position);
    }
  }

  lemma {:induction false} OccurredConverges(scope: Scope, log: seq<Change>, change: Change, seen: map<string, Body>,
                                             events: map<string, Body>, v: nat, left: Option<nat>)
    requires Converges(scope, log, seen, events, v, left) && change.at > v
    ensures Converges(scope, log + [change], seen, events, v, left)
  {
    var longer := log + [change];
    assert longer[..|longer| - 1] == log;
    forall k | !Touched(scope, longer, v, k)
      ensures !Touched(scope, log, v, k) && SameAt(CurrentState(scope, longer), CurrentState(scope, log), k)
      ensures Followed(scope, longer, left, k) ==> Followed(scope, log, left, k)
    {
      TouchedLast(scope, longer, v, k);
      if left.Some? {
        TouchedLast(scope, longer, left.value, k);
      }
      OccurSame(CurrentState(scope, log), map[], scope, change, k);
    }
  }

  /** What a poll leaves alone, whatever it comes to. */
  predicate PolledFrame(w: World, n: World, a: Answer) {
    && n.logs == w.logs && n.tip == w.tip && n.owner == w.owner && n.watchers == w.watchers
    && n.remembered == w.remembered + a.eventsRead && n.s.p.synthetic == w.s.p.synthetic
  }

  predicate FailedPoll(w: World, n: World, a: Answer) {
    PolledFrame(w, n, a) && n.s.p == w.s.p && n.unlisted == w.unlisted && n.skipped == w.skipped
  }

  predicate Snapshotted(w: World, n: World, a: Answer, now: Time)
    requires a.listed.Listed?
  {
    && PolledFrame(w, n, a) && n.s.p == SnapshotProducer(w.s.p, w.config, a.listed.listing, now)
    && n.unlisted == UnlistedAfter(w, a, true) && n.skipped == {}
  }

  predicate Reconciled(w: World, n: World, a: Answer, now: Time)
    requires a.listed.Listed?
  {
    && PolledFrame(w, n, a) && n.s.p == DeltaProducer(w.s.p, a.listed.listing, now)
    && n.unlisted == UnlistedAfter(w, a, false) && n.skipped == SkippedAfter(w, a, false)
  }

  /** A poll fails, takes a snapshot or reconciles. */
  lemma {:induction false} PollOutcome(w: World, a: Answer, force: bool, declare: bool, order: seq<string>, now: Time)
    ensures var n := AfterPoll(w, a, force, declare, order, now);
            if !PollSucceeds(w.s, a.listed, force) then FailedPoll(w, n, a)
            else if TakesSnapshot(w.s, force) then Snapshotted(w, n, a, now)
            else Reconciled(w, n, a, now)
  {
  }

  lemma {:induction false} FailedPollKeeps(w: World, n: World, a: Answer)
    requires Inv(w) && TrueAnswer(w, a) && FailedPoll(w, n, a)
    ensures Inv(n)
  {
    SameSeenConverges(w, n);
  }

  lemma {:induction false} SnapshotWellFormed(w: World, n: World, a: Answer, now: Time)
    requires WellFormed(w) && TrueAnswer(w, a) && a.listed.Listed? && Snapshotted(w, n, a, now)
    ensures WellFormed(n) && forall scope :: !Live(n, scope)
  {
  }

  /** A scope a snapshot gives a version was read at that version, or is left unlisted at it. */
  lemma {:induction false} SnapshotVersion(w: World, n: World, a: Answer, now: Time, scope: Scope)
    requires WellFormed(w) && TrueAnswer(w, a) && a.listed.Listed? && Snapshotted(w, n, a, now)
    requires scope in n.s.p.versions
    ensures var v := n.s.p.versions[scope].at;
            && v <= n.tip
            && (scope in a.readAt ==> v == a.readAt[scope] && LeftAt(n, scope) == None)
            && (scope in a.eventsRead ==> v == a.eventsRead[scope].at && LeftAt(n, scope) == None)
            && (scope !in a.readAt && scope !in a.eventsRead ==> scope.kind == "Event" && LeftAt(n, scope) == Some(v))
  {
  }

  lemma {:induction false} SnapshotOne(w: World, n: World, a: Answer, now: Time, scope: Scope)
    requires WellFormed(w) && TrueAnswer(w, a) && a.listed.Listed? && Snapshotted(w, n, a, now)
    requires scope in n.s.p.versions
    ensures ConvergesFrom(n, scope, n.s.p.versions[scope].at)
  {
    SnapshotVersion(w, n, a, now, scope);
    if scope in a.readAt || scope in a.eventsRead {
      SnapshotConverges(w, a.listed.listing, a.readAt, a.eventsRead, now, scope);
    }
  }

  lemma {:induction false} SnapshotKeeps(w: World, n: World, a: Answer, now: Time)
    requires Inv(w) && TrueAnswer(w, a) && a.listed.Listed? && Snapshotted(w, n, a, now)
    ensures Inv(n)
  {
    SnapshotWellFormed(w, n, a, now);
    forall scope | scope in n.s.p.versions ensures ConvergesFrom(n, scope, n.s.p.versions[scope].at) {
      SnapshotOne(w, n, a, now, scope);
    }
  }

  function LeftAfter(w: World, a: Answer, scope: Scope): Option<nat> {
    var left := UnlistedAfter(w, a, false);
    if scope in left then Some(left[scope]) else None
  }

  lemma {:induction false} DeltaOne(w: World, a: Answer, now: Time, scope: Scope, v: nat)
    requires WellFormed(w) && TrueAnswer(w, a) && a.listed.Listed?
    requires scope in a.readAt ==> v <= a.readAt[scope]
    requires scope !in a.readAt && scope in a.eventsRead ==> v <= a.eventsRead[scope].at
    requires scope !in a.readAt && scope !in a.eventsRead ==>
               Converges(scope, w.LogOf(scope), w.s.p.seen, w.s.p.eventsSeen, v, LeftAt(w, scope))
    ensures var p := DeltaProducer(w.s.p, a.listed.listing, now);
            Converges(scope, w.LogOf(scope), p.seen, p.eventsSeen, v, LeftAfter(w, a, scope))
  {
    var l := a.listed.listing;
    if scope in a.readAt {
      DeltaObjectsListed(w, l, a.readAt, now, scope, v);
    } else if scope in a.eventsRead {
      DeltaEventsListed(w, l, a.eventsRead, now, scope, v);
    } else {
      DeltaUnlisted(w, l, a.readAt, a.eventsRead, now, scope, v, LeftAt(w, scope));
    }
  }

  /** A scope the reconciliation did not list and did not move ahead keeps its version or goes back. */
  lemma {:induction false} DeltaUnread(w: World, a: Answer, scope: Scope)
    requires WellFormed(w) && TrueAnswer(w, a) && a.listed.Listed?
    requires scope !in a.readAt && scope !in a.eventsRead && scope !in SkippedAfter(w, a, false)
    ensures scope !in w.skipped
    ensures scope in AllVersions(a.listed.listing) ==>
              scope in w.s.p.versions && AllVersions(a.listed.listing)[scope].at <= w.s.p.versions[scope].at
  {
  }

  lemma {:induction false} DeltaVersion(w: World, a: Answer, now: Time, scope: Scope)
    requires Inv(w) && TrueAnswer(w, a) && a.listed.Listed?
    requires scope in DeltaProducer(w.s.p, a.listed.listing, now).versions && scope !in SkippedAfter(w, a, false)
    ensures var p := DeltaProducer(w.s.p, a.listed.listing, now);
            Converges(scope, w.LogOf(scope), p.seen, p.eventsSeen, p.versions[scope].at, LeftAfter(w, a, scope))
  {
    var v := DeltaProducer(w.s.p, a.listed.listing, now).versions[scope].at;
    if scope !in a.readAt && scope !in a.eventsRead {
      DeltaUnread(w, a, scope);
      Lower(w, scope, w.s.p.versions[scope].at, v);
    }
    DeltaOne(w, a, now, scope, v);
  }

  lemma {:induction false} DeltaPosition(w: World, a: Answer, now: Time, scope: Scope)
    requires Inv(w) && TrueAnswer(w, a) && a.listed.Listed? && WatchingNow(w, scope)
    requires w.watchers[scope].generation == w.s.p.generation && scope !in SkippedAfter(w, a, false)
    ensures var p := DeltaProducer(w.s.p, a.listed.listing, now);
            Converges(scope, w.LogOf(scope), p.seen, p.eventsSeen, w.watchers[scope].position,
                      LeftAfter(w, a, scope))
  {
    if scope !in a.readAt && scope !in a.eventsRead {
      DeltaUnread(w, a, scope);
      assert Live(w, scope);
    }
    DeltaOne(w, a, now, scope, w.watchers[scope].position);
  }

  lemma {:induction false} ReconciledConverges(w: World, n: World, a: Answer, now: Time, scope: Scope, v: nat)
    requires a.listed.Listed? && Reconciled(w, n, a, now) && v <= n.tip
    requires var p := DeltaProducer(w.s.p, a.listed.listing, now);
             scope !in SkippedAfter(w, a, false) ==>
               Converges(scope, w.LogOf(scope), p.seen, p.eventsSeen, v, LeftAfter(w, a, scope))
    ensures ConvergesFrom(n, scope, v)
  {
  }

  lemma {:induction false} DeltaWellFormed(w: World, n: World, a: Answer, now: Time)
    requires WellFormed(w) && TrueAnswer(w, a) && a.listed.Listed? && Reconciled(w, n, a, now)
    ensures WellFormed(n)
  {
    hide TrueObjects, TrueEvents, DeltaDoomed, Overlay, OverlayEvents, Allowed;
  }

  lemma {:induction false} DeltaVersionInTime(w: World, a: Answer, now: Time, scope: Scope)
    requires Inv(w) && TrueAnswer(w, a) && a.listed.Listed?
    requires scope in DeltaProducer(w.s.p, a.listed.listing, now).versions
    ensures DeltaProducer(w.s.p, a.listed.listing, now).versions[scope].at <= w.tip
  {
  }

  lemma {:induction false} DeltaKeeps(w: World, n: World, a: Answer, now: Time)
    requires Inv(w) && TrueAnswer(w, a) && a.listed.Listed? && Reconciled(w, n, a, now)
    ensures Inv(n)
  {
    DeltaWellFormed(w, n, a, now);
    forall scope | scope in n.s.p.versions ensures ConvergesFrom(n, scope, n.s.p.versions[scope].at) {
      DeltaVersionInTime(w, a, now, scope);
      if scope !in SkippedAfter(w, a, false) {
        DeltaVersion(w, a, now, scope);
      }
      ReconciledConverges(w, n, a, now, scope, n.s.p.versions[scope].at);
    }
    forall scope | Live(n, scope) ensures ConvergesFrom(n, scope, n.watchers[scope].position) {
      if scope !in SkippedAfter(w, a, false) {
        DeltaPosition(w, a, now, scope);
      }
      ReconciledConverges(w, n, a, now, scope, n.watchers[scope].position);
    }
  }

  lemma {:induction false} PollKeeps(w: World, a: Answer, force: bool, declare: bool, order: seq<string>, now: Time)
    requires Inv(w) && TrueAnswer(w, a)
    ensures Inv(AfterPoll(w, a, force, declare, order, now))
  {
    var n := AfterPoll(w, a, force, declare, order, now);
    PollOutcome(w, a, force, declare, order, now);
    if !PollSucceeds(w.s, a.listed, force) {
      FailedPollKeeps(w, n, a);
    } else if TakesSnapshot(w.s, force) {
      SnapshotKeeps(w, n, a, now);
    } else {
      DeltaKeeps(w, n, a, now);
    }
  }

  lemma {:induction false} DeliversWellFormed(w: World, scope: Scope, event: WatchEvent, now: Time)
    requires WellFormed(w) && WatchingNow(w, scope) && TrueEvent(w, scope, w.watchers[scope].position, event)
    ensures WellFormed(AfterDelivery(w, scope, event, now))
  {
  }

  lemma {:induction false} DeliveredElsewhere(w: World, n: World, scope: Scope, event: WatchEvent, now: Time,
                                              other: Scope, v: nat)
    requires WellFormed(w) && ConvergesFrom(w, other, v) && other != scope
    requires BelongsTo(w.owner, scope, event.body) && event.kind != Bookmark
    requires n.s.p == Observe(w.s.p, scope, event, now) && n.logs == w.logs && n.tip == w.tip
    requires n.unlisted == w.unlisted && n.skipped == w.skipped
    ensures ConvergesFrom(n, other, v)
  {
    DeliveredKeepsOthers(w, scope, other, event, now, v);
  }

  lemma {:induction false} ChangeDelivered(w: World, n: World, scope: Scope, event: WatchEvent, now: Time, i: nat)
    requires Inv(w) && Live(w, scope) && event.kind != Bookmark
    requires i < |w.LogOf(scope)| && TrueChange(w.LogOf(scope), i, w.watchers[scope].position, event)
    requires n.s.p == Observe(w.s.p, scope, event, now) && n.logs == w.logs && n.tip == w.tip
    requires n.unlisted == w.unlisted && n.skipped == w.skipped
    requires n.watchers == w.watchers[scope := w.watchers[scope].(position := event.version.at)] && WellFormed(n)
    ensures Inv(n)
  {
    if scope !in w.skipped {
      DeliveredConverges(w, scope, w.watchers[scope].position, event, now, i);
    }
    assert ConvergesFrom(n, scope, event.version.at);
    forall other | other in n.s.p.versions && other != scope ensures ConvergesFrom(n, other, n.s.p.versions[other].at) {
      DeliveredElsewhere(w, n, scope, event, now, other, w.s.p.versions[other].at);
    }
    forall other | Live(n, other) && other != scope ensures ConvergesFrom(n, other, n.watchers[other].position) {
      assert Live(w, other);
      DeliveredElsewhere(w, n, scope, event, now, other, w.watchers[other].position);
    }
  }

  lemma {:induction false} BookmarkDelivered(w: World, n: World, scope: Scope, event: WatchEvent, now: Time)
    requires Inv(w) && Live(w, scope) && event.kind == Bookmark
    requires TrueEvent(w, scope, w.watchers[scope].position, event)
    requires n.s.p == Observe(w.s.p, scope, event, now) && n.logs == w.logs && n.tip == w.tip
    requires n.unlisted == w.unlisted && n.skipped == w.skipped
    requires n.watchers == w.watchers[scope := w.watchers[scope].(position := event.version.at)] && WellFormed(n)
    ensures Inv(n)
  {
    SkipQuiet(w, scope, w.watchers[scope].position, event.version.at);
    SameSeenConverges(w, n);
    assert forall other :: other != scope && Live(n, other) ==> Live(w, other);
  }

  lemma {:induction false} DeliversKeeps(w: World, scope: Scope, event: WatchEvent, now: Time)
    requires Inv(w) && WatchingNow(w, scope) && TrueEvent(w, scope, w.watchers[scope].position, event)
    ensures Inv(AfterDelivery(w, scope, event, now))
  {
    var n := AfterDelivery(w, scope, event, now);
    if !Live(w, scope) {
      SameViewKeeps(w, n);
    } else {
      DeliversWellFormed(w, scope, event, now);
      if event.kind == Bookmark {
        BookmarkDelivered(w, n, scope, event, now);
      } else {
        var i :| 0 <= i < |w.LogOf(scope)| && TrueChange(w.LogOf(scope), i, w.watchers[scope].position, event);
        ChangeDelivered(w, n, scope, event, now, i);
      }
    }
  }

  /** What a relist may leave of the watches: all of them, or all but the one that expired. */
  predicate WatchersAfter(w: World, n: World, scope: Scope) {
    n.watchers == w.watchers
    || (WatchingNow(w, scope) && n.watchers == w.watchers[scope := Over(w.watchers[scope].id)])
  }

  lemma {:induction false} RelistWellFormed(w: World, n: World, scope: Scope, r: Relisted, now: Time)
    requires WellFormed(w) && r.Relisted? && WatchersAfter(w, n, scope)
    requires n.s.p == RelistProducer(w.s.p, scope, r, now)
    requires n.unlisted == w.unlisted - {scope} && n.skipped == w.skipped - {scope}
    requires n.logs == w.logs && n.tip == w.tip && n.owner == w.owner && n.remembered == w.remembered
    ensures WellFormed(n)
  {
  }

  lemma {:induction false} RelistedElsewhere(w: World, n: World, scope: Scope, r: Relisted, now: Time, other: Scope,
                                             v: nat)
    requires WellFormed(w) && r.Relisted? && TrueRelist(w, scope, r) && other != scope && ConvergesFrom(w, other, v)
    requires n.s.p == RelistProducer(w.s.p, scope, r, now)
    requires n.unlisted == w.unlisted - {scope} && n.skipped == w.skipped - {scope}
    requires n.logs == w.logs && n.tip == w.tip
    ensures ConvergesFrom(n, other, v)
  {
    if other !in w.skipped {
      RelistKeepsOthers(w, scope, r, now, other, v, LeftAt(w, other));
    }
  }

  lemma {:induction false} RelistKeeps(w: World, n: World, scope: Scope, r: Relisted, now: Time)
    requires Inv(w) && r.Relisted? && TrueRelist(w, scope, r) && WatchersAfter(w, n, scope)
    requires n.s.p == RelistProducer(w.s.p, scope, r, now)
    requires n.unlisted == w.unlisted - {scope} && n.skipped == w.skipped - {scope}
    requires n.logs == w.logs && n.tip == w.tip && n.owner == w.owner && n.remembered == w.remembered
    ensures Inv(n)
  {
    RelistWellFormed(w, n, scope, r, now);
    RelistListed(w, scope, r, now);
    assert ConvergesFrom(n, scope, r.version.at);
    forall other | other in n.s.p.versions && other != scope ensures ConvergesFrom(n, other, n.s.p.versions[other].at) {
      RelistedElsewhere(w, n, scope, r, now, other, w.s.p.versions[other].at);
    }
    forall other | Live(n, other) ensures ConvergesFrom(n, other, n.watchers[other].position) {
      assert Live(w, other);
      if other == scope {
        Lower(n, scope, r.version.at, w.watchers[scope].position);
      } else {
        RelistedElsewhere(w, n, scope, r, now, other, w.watchers[other].position);
      }
    }
  }

  /** Nothing the invariant reads has changed, except that watches may have ended. */
  lemma {:induction false} SameViewKeeps(w: World, n: World)
    requires Inv(w)
    requires n.logs == w.logs && n.tip == w.tip && n.owner == w.owner && n.remembered == w.remembered
    requires n.unlisted == w.unlisted && n.skipped == w.skipped
    requires n.s.p.seen == w.s.p.seen && n.s.p.eventsSeen == w.s.p.eventsSeen
    requires n.s.p.versions == w.s.p.versions && n.s.p.generation == w.s.p.generation
    requires forall scope :: scope in n.s.p.synthetic ==>
               scope in w.s.p.synthetic && n.s.p.synthetic[scope] == w.s.p.synthetic[scope]
    requires forall scope :: scope in n.watchers && n.watchers[scope].Watching? ==>
               scope in w.watchers && n.watchers[scope] == w.watchers[scope]
    ensures Inv(n)
  {
    SameSeenConverges(w, n);
    assert forall scope :: Live(n, scope) ==> Live(w, scope);
  }

  /** What a forced poll makes of the producer does not depend on what is buffered. */
  lemma {:induction false} ForcedPollIgnoresLog(s: ChangeState, items: seq<Item>, c: Config, listed: Listed, now: Time)
    ensures Poll(s.(b := s.b.Append(items)), c, listed, now, true, true, []).p
            == Poll(s, c, listed, now, true, true, []).p
  {
  }

  /** An expiry where no scope can be listed alone is a forced poll, apart from the gap before it and what the watch and
      the connector make of it afterwards. */
  predicate PolledLike(polled: World, n: World) {
    && n.logs == polled.logs && n.tip == polled.tip && n.owner == polled.owner && n.remembered == polled.remembered
    && n.unlisted == polled.unlisted && n.skipped == polled.skipped
    && n.s.p == polled.s.p.(degraded := n.s.p.degraded)
    && forall scope :: scope in n.watchers && n.watchers[scope].Watching? ==>
         scope in polled.watchers && n.watchers[scope] == polled.watchers[scope]
  }

  lemma {:induction false} ExpiryPolls(w: World, scope: Scope, a: Answer, relisted: Relisted, now: Time)
    requires WatchingNow(w, scope) && w.watchers[scope].generation == w.s.p.generation && !w.config.canListScope
    ensures PolledLike(AfterPoll(w, a, true, true, [], now), AfterExpiry(w, scope, a, relisted, now))
  {
    ForcedPollIgnoresLog(w.s, [GlobalGap(w.s.p, now, ResourceVersionExpired)], w.config, a.listed, now);
  }

  lemma {:induction false} PolledLikeKeeps(polled: World, n: World)
    requires Inv(polled) && PolledLike(polled, n)
    ensures Inv(n)
  {
    SameViewKeeps(polled, n);
  }

  lemma {:induction false} ExpiryListsAll(w: World, scope: Scope, a: Answer, relisted: Relisted, now: Time)
    requires Inv(w) && TrueAnswer(w, a) && WatchingNow(w, scope)
    requires w.watchers[scope].generation == w.s.p.generation && !w.config.canListScope
    ensures Inv(AfterExpiry(w, scope, a, relisted, now))
  {
    PollKeeps(w, a, true, true, [], now);
    ExpiryPolls(w, scope, a, relisted, now);
    PolledLikeKeeps(AfterPoll(w, a, true, true, [], now), AfterExpiry(w, scope, a, relisted, now));
  }

  lemma {:induction false} ExpiresKeeps(w: World, scope: Scope, a: Answer, relisted: Relisted, now: Time)
    requires Inv(w) && WatchingNow(w, scope) && TrueAnswer(w, a) && TrueRelist(w, scope, relisted)
    ensures Inv(AfterExpiry(w, scope, a, relisted, now))
  {
    var n := AfterExpiry(w, scope, a, relisted, now);
    if w.watchers[scope].generation != w.s.p.generation {
      SameViewKeeps(w, n);
    } else if !w.config.canListScope {
      ExpiryListsAll(w, scope, a, relisted, now);
    } else if relisted.Relisted? {
      RelistKeeps(w, n, scope, relisted, now);
    } else {
      SameViewKeeps(w, n);
    }
  }

  lemma {:induction false} EndsWellFormed(w: World, scope: Scope, now: Time)
    requires WellFormed(w) && WatchingNow(w, scope)
    ensures WellFormed(AfterEnd(w, scope, now))
  {
  }

  lemma {:induction false} SameSeenConverges(w: World, n: World)
    requires n.logs == w.logs && n.tip == w.tip && n.unlisted == w.unlisted && n.skipped == w.skipped
    requires n.s.p.seen == w.s.p.seen && n.s.p.eventsSeen == w.s.p.eventsSeen
    ensures forall scope, v :: ConvergesFrom(w, scope, v) ==> ConvergesFrom(n, scope, v)
  {
  }

  /** An adopted bookmark skips nothing. */
  lemma {:induction false} EndsKeeps(w: World, scope: Scope, now: Time)
    requires Inv(w) && WatchingNow(w, scope) && CanEnd(w, scope)
    ensures Inv(AfterEnd(w, scope, now))
  {
    var n, watcher := AfterEnd(w, scope, now), w.watchers[scope];
    EndsWellFormed(w, scope, now);
    SameSeenConverges(w, n);
    if n.s.p.versions != w.s.p.versions {
      assert Live(w, scope);
      SkipQuiet(n, scope, watcher.position, w.s.p.synthetic[scope].version.at);
    }
    assert forall other :: Live(n, other) ==> Live(w, other);
  }

  lemma {:induction false} StartsKeeps(w: World, scope: Scope)
    requires Inv(w) && scope in w.watchers
    ensures Inv(AfterStart(w, scope))
  {
    var n := AfterStart(w, scope);
    SameSeenConverges(w, n);
    forall other | Live(n, other) ensures ConvergesFrom(n, other, n.watchers[other].position) {
      if other != scope {
        assert Live(w, other);
      }
    }
  }

  lemma {:induction false} HoldsKeeps(w: World, scope: Scope, watchId: nat, version: Version)
    requires Inv(w) && version.at <= w.tip
    ensures Inv(AfterHold(w, scope, watchId, version))
  {
    var n := AfterHold(w, scope, watchId, version);
    SameSeenConverges(w, n);
    assert forall other :: Live(n, other) ==> Live(w, other);
  }

  predicate TouchesNoView(step: Step) {
    step.Registers? || step.Fails? || step.Closes? || step.Beats? || (step.Relists? && step.relisted.RelistFailed?)
  }

  lemma {:induction false} PlainKeeps(w: World, step: Step)
    requires Inv(w) && Enabled(w, step) && TouchesNoView(step)
    ensures Inv(Next(w, step))
  {
    var n := Next(w, step);
    if step.Fails? {
      SameViewKeeps(w, n);
    } else if step.Registers? {
      SameViewKeeps(w, n);
    } else {
      SameViewKeeps(w, n);
    }
  }

  lemma {:induction false} RestartsKeeps(w: World, epoch: string)
    requires Inv(w)
    ensures Inv(AfterRestart(w, epoch))
  {
  }

  lemma {:induction false} StepKeeps(w: World, step: Step)
    requires Inv(w) && Enabled(w, step)
    ensures Inv(Next(w, step))
  {
    if TouchesNoView(step) {
      PlainKeeps(w, step);
    } else {
      match step {
        case Occurs(scope, change) => OccursKeeps(w, scope, change);
        case Polls(a, force, declare, order, now) => PollKeeps(w, a, force, declare, order, now);
        case Delivers(scope, event, now) => DeliversKeeps(w, scope, event, now);
        case Expires(scope, a, relisted, now) => ExpiresKeeps(w, scope, a, relisted, now);
        case Ends(scope, now) => EndsKeeps(w, scope, now);
        case Starts(scope) => StartsKeeps(w, scope);
        case Holds(scope, watchId, version) => HoldsKeeps(w, scope, watchId, version);
        case Relists(scope, relisted, now) => RelistKeeps(w, Next(w, step), scope, relisted, now);
        case Restarts(epoch) => RestartsKeeps(w, epoch);
      }
    }
  }

  lemma {:induction false} RunKeeps(worlds: seq<World>, steps: seq<Step>, i: nat)
    requires IsRun(worlds, steps) && i < |worlds|
    ensures Inv(worlds[i])
  {
    if i > 0 {
      RunKeeps(worlds, steps, i - 1);
      StepKeeps(worlds[i - 1], steps[i - 1]);
    }
  }

  lemma {:induction false} ReplayConverges(scope: Scope, log: seq<Change>, seen: map<string, Body>,
                                           events: map<string, Body>, v: nat, left: Option<nat>, key: string)
    requires Ordered(log) && Converges(scope, log, seen, events, v, left)
    requires scope.kind == "Event" ==> key in CurrentState(scope, log) && Followed(scope, log, left, key)
    requires scope.kind != "Event" ==> ScopeOfKey(key) == Some(scope)
    ensures SameAt(Replay(if scope.kind == "Event" then events else seen, scope, log, v), CurrentState(scope, log), key)
  {
    var base := if scope.kind == "Event" then events else seen;
    if Touched(scope, log, v, key) {
      ReplayTouched(base, scope, log, v, key);
    } else {
      ReplayUntouched(base, scope, log, v, key);
    }
  }

  /** Replaying the scope's changes after its resume version over what was seen of it gives this key as it is now. */
  ghost predicate Reaches(w: World, scope: Scope, key: string)
    requires scope in w.s.p.versions
  {
    var base := if scope.kind == "Event" then w.s.p.eventsSeen else w.s.p.seen;
    SameAt(Replay(base, scope, w.LogOf(scope), w.s.p.versions[scope].at), CurrentState(scope, w.LogOf(scope)), key)
  }

  /** In every reachable state, for every object scope with a resume version: replaying the scope's changes after that
      version over what the producer has seen of the scope gives exactly the scope's current content. */
  lemma {:induction false} ObjectsResumeExactly(worlds: seq<World>, steps: seq<Step>, i: nat, scope: Scope, key: string)
    requires IsRun(worlds, steps) && i < |worlds|
    requires scope in worlds[i].s.p.versions && scope.kind != "Event" && ScopeOfKey(key) == Some(scope)
    ensures Reaches(worlds[i], scope, key)
  {
    var w := worlds[i];
    RunKeeps(worlds, steps, i);
    ReplayConverges(scope, w.LogOf(scope), w.s.p.seen, w.s.p.eventsSeen, w.s.p.versions[scope].at, None, key);
  }

  /** The same for Events: every current Event is reached whose scope no poll moved ahead unlisted, if the scope was
      listed or the Event changed after the version at which a snapshot left the scope unlisted. */
  lemma {:induction false} EventsResume(w: World, scope: Scope, key: string)
    requires Inv(w) && scope in w.s.p.versions && scope.kind == "Event" && scope !in w.skipped
    requires key in CurrentState(scope, w.LogOf(scope)) && Followed(scope, w.LogOf(scope), LeftAt(w, scope), key)
    ensures Reaches(w, scope, key)
  {
    ReplayConverges(scope, w.LogOf(scope), w.s.p.seen, w.s.p.eventsSeen, w.s.p.versions[scope].at, LeftAt(w, scope),
                    key);
  }

  /** The cluster reader remembers an Event scope's version when listing its Events fails, and a snapshot then resumes
      the scope from that version with none of its Events seen. Replay reaches an Event exactly if it changed
      afterwards. */
  lemma {:induction false} UnlistedSnapshotExactly(w: World, a: Answer, declare: bool, now: Time, scope: Scope,
                                                   key: string)
    requires Inv(w) && TrueAnswer(w, a) && PollSucceeds(w.s, a.listed, true)
    requires scope in w.remembered && scope !in a.eventsRead && key in CurrentState(scope, w.LogOf(scope))
    ensures var n := AfterPoll(w, a, true, declare, [], now);
            && scope in n.s.p.versions && n.s.p.versions[scope] == w.remembered[scope]
            && (Reaches(n, scope, key) <==> Touched(scope, w.LogOf(scope), w.remembered[scope].at, key))
  {
    var n, log := AfterPoll(w, a, true, declare, [], now), w.LogOf(scope);
    PollOutcome(w, a, true, declare, [], now);
    OwnedKeys(w, scope);
    assert key !in n.s.p.eventsSeen;
    if Touched(scope, log, w.remembered[scope].at, key) {
      ReplayTouched(n.s.p.eventsSeen, scope, log, w.remembered[scope].at, key);
    } else {
      ReplayUntouched(n.s.p.eventsSeen, scope, log, w.remembered[scope].at, key);
    }
  }
}
