/** The connector beside its cluster: every producer step, with what the cluster can answer and deliver. */
module Worlds {
  import opened Text
  import opened Wire
  import opened Streams
  import opened Producing
  import opened Cluster

  /** The thread that watches one scope: registered, consuming a watch (the cluster version up to which the server has
      delivered is its position), or done and about to close. */
  datatype Watcher = Registered(id: nat) | Watching(id: nat, generation: nat, position: nat) | Over(id: nat)

  /** `owner` says which scope an Event identity belongs to, and `remembered` is the cluster reader's memory of Event
      versions. `unlisted` are the Event scopes the latest snapshot resumed from a remembered version without listing
      them, with that version; `skipped` are those a later poll moved ahead to a remembered version, again without
      listing them. A scope leaves both once it is listed. */
  datatype World = World(
    config: Config,
    now: Time,
    logs: map<Scope, seq<Change>>,
    tip: nat,
    owner: map<string, Scope>,
    remembered: map<Scope, Version>,
    s: ChangeState,
    watchers: map<Scope, Watcher>,
    unlisted: map<Scope, nat>,
    skipped: set<Scope>,
    epochs: set<string>)
  {
    function LogOf(scope: Scope): seq<Change> {
      if scope in logs then logs[scope] else []
    }
  }

  /** One answer of the cluster to a poll: the listing, the version each completed scope was read at, and the Event
      scopes that were listed. */
  datatype Answer = Answer(listed: Listed, readAt: map<Scope, nat>, eventsRead: map<Scope, Version>)

  datatype Step =
    | Occurs(scope: Scope, change: Change)
    | Polls(answer: Answer, force: bool, declare: bool, order: seq<string>, now: Time)
    | Registers(scope: Scope)
    | Starts(scope: Scope)
    | Delivers(scope: Scope, event: WatchEvent, now: Time)
    | Expires(scope: Scope, answer: Answer, relisted: Relisted, now: Time)
    | Fails(scope: Scope, now: Time)
    | Ends(scope: Scope, now: Time)
    | Closes(scope: Scope)
    | Holds(scope: Scope, watchId: nat, version: Version)
    | Relists(scope: Scope, relisted: Relisted, now: Time)
    | Beats(now: Time)
    | Restarts(epoch: string)

  // ---- what the cluster may do ----------------------------------------------------------------

  predicate BelongsTo(owner: map<string, Scope>, scope: Scope, body: Body) {
    var key := KeyIn(scope, body);
    key.Some? ==> if scope.kind == "Event" then key.value in owner && owner[key.value] == scope
                  else ScopeOfKey(key.value) == Some(scope)
  }

  function OwnerWith(owner: map<string, Scope>, scope: Scope, body: Body): map<string, Scope> {
    var key := KeyIn(scope, body);
    if scope.kind == "Event" && key.Some? && key.value !in owner then owner[key.value := scope] else owner
  }

  /** A read of a scope is no older than what its watch has delivered or what an earlier read returned. */
  predicate NotStale(w: World, scope: Scope, v: nat) {
    && v <= w.tip
    && (scope in w.s.p.versions ==> w.s.p.versions[scope].at <= v)
    && (scope in w.watchers && w.watchers[scope].Watching? && w.watchers[scope].generation == w.s.p.generation ==>
          w.watchers[scope].position <= v)
  }

  /** Every object listed belongs to a completed scope, and a completed scope is listed as it was at its version. */
  ghost predicate TrueObjects(w: World, l: Listing, readAt: map<Scope, nat>) {
    var listed := Overlay(map[], Allowed(l.objects));
    && readAt.Keys == l.completed
    && (forall s :: s in readAt ==> s.kind != "Event" && NotStale(w, s, readAt[s]))
    && (forall s :: s in l.versions ==> s in readAt && l.versions[s].at == readAt[s])
    && (forall k :: k in listed ==> ScopeOfKey(k).Some? && ScopeOfKey(k).value in readAt)
    && (forall s, k :: s in readAt && ScopeOfKey(k) == Some(s) ==>
          SameAt(listed, ListedAt(s, w.LogOf(s), readAt[s]), k))
  }

  /** The Events of every freshly listed scope as they were at its version, and no others. */
  ghost predicate TrueEvents(w: World, l: Listing, eventsRead: map<Scope, Version>) {
    var listed := OverlayEvents(map[], l.events);
    && l.eventVersions == w.remembered + eventsRead
    && (forall s :: s in eventsRead ==> NotStale(w, s, eventsRead[s].at))
    && (forall k :: k in listed ==> k in w.owner && w.owner[k] in eventsRead)
    && (forall s, k :: s in eventsRead && k in w.owner && w.owner[k] == s ==>
          SameAt(listed, ListedAt(s, w.LogOf(s), eventsRead[s].at), k))
  }

  /** Events are never read at a version older than the one remembered. */
  ghost predicate TrueAnswer(w: World, a: Answer) {
    && (forall s :: s in a.eventsRead ==> s.kind == "Event" && a.eventsRead[s].at <= w.tip)
    && (forall s :: s in a.eventsRead && s in w.remembered ==> w.remembered[s].at <= a.eventsRead[s].at)
    && (a.listed.Listed? ==>
          TrueObjects(w, a.listed.listing, a.readAt) && TrueEvents(w, a.listed.listing, a.eventsRead))
  }

  ghost predicate TrueRelist(w: World, scope: Scope, r: Relisted) {
    r.Relisted? ==>
      && NotStale(w, scope, r.version.at)
      && (if scope.kind == "Event" then
            var listed := OverlayEvents(map[], r.bodies);
            && (forall k :: k in listed ==> k in w.owner && w.owner[k] == scope)
            && (forall k :: k in w.owner && w.owner[k] == scope ==>
                  SameAt(listed, ListedAt(scope, w.LogOf(scope), r.version.at), k))
          else
            var listed := Overlay(map[], Allowed(r.bodies));
            && (forall k :: k in listed ==> ScopeOfKey(k) == Some(scope))
            && (forall k :: ScopeOfKey(k) == Some(scope) ==>
                  SameAt(listed, ListedAt(scope, w.LogOf(scope), r.version.at), k)))
  }

  /** A watch delivers its scope's changes in order and without a hole; a bookmark passes over nothing. */
  ghost predicate TrueEvent(w: World, scope: Scope, position: nat, event: WatchEvent) {
    var log := w.LogOf(scope);
    if event.kind == Bookmark
    then position <= event.version.at <= w.tip && QuietBetween(log, position, event.version.at)
    else exists i :: 0 <= i < |log| && TrueChange(log, i, position, event)
  }

  ghost predicate TrueChange(log: seq<Change>, i: nat, position: nat, event: WatchEvent)
    requires i < |log|
  {
    && log[i].at == event.version.at && position < log[i].at
    && log[i].body == event.body && (log[i].deleted <==> event.kind == Deleted)
    && forall j :: 0 <= j < i ==> log[j].at <= position
  }

  predicate CanOccur(w: World, scope: Scope, change: Change) {
    change.at > w.tip && BelongsTo(OwnerWith(w.owner, scope, change.body), scope, change.body)
  }

  /** The server ends a current watch after delivering everything up to a version listed while it was open. */
  ghost predicate CanEnd(w: World, scope: Scope)
    requires WatchingNow(w, scope)
  {
    scope in w.s.p.synthetic && w.s.p.synthetic[scope].watchId == w.watchers[scope].id
    && w.watchers[scope].generation == w.s.p.generation ==>
      QuietBetween(w.LogOf(scope), w.watchers[scope].position, w.s.p.synthetic[scope].version.at)
  }

  // ---- steps ----------------------------------------------------------------------------------

  predicate WatchingNow(w: World, scope: Scope) {
    scope in w.watchers && w.watchers[scope].Watching?
  }

  ghost predicate Enabled(w: World, step: Step) {
    match step
    case Occurs(scope, change) =>
      CanOccur(w, scope, change)
    case Polls(a, force, _, order, now) =>
      && w.now <= now && TrueAnswer(w, a)
      && (PollSucceeds(w.s, a.listed, force) && !TakesSnapshot(w.s, force) ==>
            Enumerates(order, DeltaDoomed(w.s.p, a.listed.listing)))
    case Registers(scope) => scope !in w.watchers
    case Starts(scope) => scope in w.watchers && w.watchers[scope].Registered?
    case Delivers(scope, event, now) =>
      w.now <= now && WatchingNow(w, scope) && TrueEvent(w, scope, w.watchers[scope].position, event)
    case Expires(scope, a, relisted, now) =>
      w.now <= now && WatchingNow(w, scope) && TrueAnswer(w, a) && TrueRelist(w, scope, relisted)
    case Fails(scope, now) => w.now <= now && WatchingNow(w, scope)
    case Ends(scope, now) => w.now <= now && WatchingNow(w, scope) && CanEnd(w, scope)
    case Closes(scope) => scope in w.watchers && w.watchers[scope].Over?
    case Holds(_, _, version) => version.at <= w.tip
    case Relists(scope, relisted, now) =>
      w.now <= now && scope in w.s.p.pending && !w.s.p.degraded && TrueRelist(w, scope, relisted)
    case Beats(now) => w.now <= now
    case Restarts(epoch) => epoch != "" && epoch !in w.epochs
  }

  /** The Event scopes left unlisted by a poll: a snapshot resumes every remembered one from its version with none of
      its Events seen. */
  function UnlistedAfter(w: World, a: Answer, snapshot: bool): map<Scope, nat> {
    if snapshot then map s | s in w.remembered && s !in a.eventsRead :: w.remembered[s].at
    else map s | s in w.unlisted && s !in a.eventsRead :: w.unlisted[s]
  }

  /** The scopes whose remembered version lies ahead of the version they stand at. */
  function Ahead(w: World): set<Scope> {
    set s | s in w.remembered && !(s in w.s.p.versions && w.remembered[s].at <= w.s.p.versions[s].at)
  }

  /** A reconciliation moves every remembered scope to its remembered version; ahead, without listing it, it skips what
      lies between. */
  function SkippedAfter(w: World, a: Answer, snapshot: bool): set<Scope> {
    if snapshot then {} else w.skipped + Ahead(w) - a.eventsRead.Keys
  }

  ghost function AfterPoll(w: World, a: Answer, force: bool, declare: bool, order: seq<string>, now: Time): World {
    w.(now := now,
       s := Poll(w.s, w.config, a.listed, now, force, declare, order),
       remembered := w.remembered + a.eventsRead,
       unlisted := if PollSucceeds(w.s, a.listed, force) then UnlistedAfter(w, a, TakesSnapshot(w.s, force))
                   else w.unlisted,
       skipped := if PollSucceeds(w.s, a.listed, force) then SkippedAfter(w, a, TakesSnapshot(w.s, force))
                  else w.skipped)
  }

  ghost function AfterExpiry(w: World, scope: Scope, a: Answer, relisted: Relisted, now: Time): World
    requires WatchingNow(w, scope)
  {
    var generation := w.watchers[scope].generation;
    var listsAll := generation == w.s.p.generation && !w.config.canListScope;
    var listsScope := generation == w.s.p.generation && w.config.canListScope && relisted.Relisted?;
    w.(now := now,
       s := WatchExpired(w.s, w.config, scope, generation, a.listed, relisted, now),
       watchers := w.watchers[scope := Over(w.watchers[scope].id)],
       remembered := if listsAll then w.remembered + a.eventsRead else w.remembered,
       unlisted := if listsAll && PollSucceeds(w.s, a.listed, true) then UnlistedAfter(w, a, true)
                   else if listsScope then w.unlisted - {scope} else w.unlisted,
       skipped := if listsAll && PollSucceeds(w.s, a.listed, true) then {}
                  else if listsScope then w.skipped - {scope} else w.skipped)
  }

  function AfterChange(w: World, scope: Scope, change: Change): World {
    w.(logs := w.logs[scope := w.LogOf(scope) + [change]], tip := change.at,
       owner := OwnerWith(w.owner, scope, change.body))
  }

  function AfterStart(w: World, scope: Scope): World
    requires scope in w.watchers
  {
    var id := w.watchers[scope].id;
    w.(watchers := w.watchers[scope := if MayStart(w.s.p, w.config, scope)
                                       then Watching(id, w.s.p.generation, w.s.p.versions[scope].at) else Over(id)])
  }

  function AfterDelivery(w: World, scope: Scope, event: WatchEvent, now: Time): World
    requires WatchingNow(w, scope)
  {
    var watcher := w.watchers[scope];
    w.(now := now, s := ApplyWatchEvent(w.s, scope, event, watcher.generation, now),
       watchers := w.watchers[scope := if Current(w.s.p, scope, watcher.generation)
                                       then watcher.(position := event.version.at) else Over(watcher.id)])
  }

  function AfterEnd(w: World, scope: Scope, now: Time): World
    requires WatchingNow(w, scope)
  {
    var watcher := w.watchers[scope];
    w.(now := now, s := w.s.(p := WatchEnded(w.s.p, scope, watcher.id, watcher.generation, now)),
       watchers := w.watchers[scope := Over(watcher.id)])
  }

  function AfterHold(w: World, scope: Scope, watchId: nat, version: Version): World {
    w.(s := w.s.(p := HoldBookmark(w.s.p, scope, watchId, version)))
  }

  function AfterRelist(w: World, scope: Scope, relisted: Relisted, now: Time): World {
    w.(now := now, s := Relist(w.s, scope, relisted, now),
       unlisted := if relisted.Relisted? then w.unlisted - {scope} else w.unlisted,
       skipped := if relisted.Relisted? then w.skipped - {scope} else w.skipped)
  }

  function AfterRestart(w: World, epoch: string): World {
    w.(s := ChangeState(STARTED, Streams.Fresh(epoch, w.s.b.maxLen)), watchers := map[], remembered := map[],
       unlisted := map[], skipped := {}, epochs := w.epochs + {epoch})
  }

  ghost function Next(w: World, step: Step): World
    requires Enabled(w, step)
  {
    match step
    case Occurs(scope, change) => AfterChange(w, scope, change)
    case Polls(a, force, declare, order, now) => AfterPoll(w, a, force, declare, order, now)
    case Registers(scope) =>
      w.(s := w.s.(p := Register(w.s.p, scope)), watchers := w.watchers[scope := Registered(w.s.p.watchIds + 1)])
    case Starts(scope) => AfterStart(w, scope)
    case Delivers(scope, event, now) => AfterDelivery(w, scope, event, now)
    case Expires(scope, a, relisted, now) => AfterExpiry(w, scope, a, relisted, now)
    case Fails(scope, now) =>
      w.(now := now, s := WatchFailed(w.s, scope, w.watchers[scope].generation, now),
         watchers := w.watchers[scope := Over(w.watchers[scope].id)])
    case Ends(scope, now) => AfterEnd(w, scope, now)
    case Closes(scope) =>
      w.(s := w.s.(p := Close(w.s.p, scope, w.watchers[scope].id)), watchers := w.watchers - {scope})
    case Holds(scope, watchId, version) => AfterHold(w, scope, watchId, version)
    case Relists(scope, relisted, now) => AfterRelist(w, scope, relisted, now)
    case Beats(now) => w.(now := now, s := Beat(w.s, now))
    case Restarts(epoch) => AfterRestart(w, epoch)
  }

  /** A connector run begins with nothing seen; the cluster is whatever it is. */
  predicate Starting(w: World) {
    && w.s == ChangeState(STARTED, Streams.Fresh(w.s.b.epoch, w.s.b.maxLen)) && w.s.b.epoch != ""
    && w.watchers == map[] && w.remembered == map[] && w.unlisted == map[] && w.skipped == {}
    && w.epochs == {w.s.b.epoch}
  }

  /** Changes of a scope are numbered in order, and every body belongs where it is. */
  ghost predicate ClusterIsSound(w: World) {
    && (forall scope :: scope in w.logs ==> Ordered(w.logs[scope]))
    && (forall scope, i :: scope in w.logs && 0 <= i < |w.logs[scope]| ==>
          w.logs[scope][i].at <= w.tip && BelongsTo(w.owner, scope, w.logs[scope][i].body))
  }

  /** A run: worlds joined by enabled steps, from a connector that has just started. */
  ghost predicate IsRun(worlds: seq<World>, steps: seq<Step>) {
    && |worlds| == |steps| + 1
    && Starting(worlds[0]) && ClusterIsSound(worlds[0])
    && forall i :: 0 <= i < |steps| ==> Enabled(worlds[i], steps[i]) && worlds[i + 1] == Next(worlds[i], steps[i])
  }
}
