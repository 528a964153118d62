/** The connector's change producer as steps over its state: every block it runs under its change lock is one step, with
    one reading of the clock, and appends all its items in that step. */
module Producing {
  import opened Text
  import opened Wire
  import opened Streams

  /** A resource version: its place in the cluster's own order, and whether its text is a number. */
  datatype Version = Version(at: nat, numeric: bool)

  /** Opaque versions are never newer. */
  predicate Newer(candidate: Version, current: Version) {
    candidate.numeric && current.numeric && candidate.at > current.at
  }

  datatype Held = Held(watchId: nat, version: Version)

  datatype Producer = Producer(
    seen: map<string, Body>,
    eventsSeen: map<string, Body>,
    versions: map<Scope, Version>,
    generation: nat,
    degraded: bool,
    pending: set<Scope>,
    continuous: map<Scope, Time>,
    openWatches: map<Scope, nat>,
    watchIds: nat,
    synthetic: map<Scope, Held>)

  const STARTED := Producer(map[], map[], map[], 0, false, {}, map[], map[], 0, map[])

  datatype ChangeState = ChangeState(p: Producer, b: Buffer)

  datatype Config = Config(namespaces: set<string>, canWatch: bool, canListScope: bool)

  /** One listing of the watched namespaces: objects with their completeness and versions, then Events. The Event
      versions are whatever the cluster reader remembers, fresh or not. */
  datatype Listing = Listing(objects: seq<Body>, completed: set<Scope>, failed: seq<Failure>,
                             versions: map<Scope, Version>, events: seq<Body>, eventVersions: map<Scope, Version>)
  datatype Listed = ListFailed | Listed(listing: Listing)
  datatype Relisted = RelistFailed | Relisted(bodies: seq<Body>, version: Version)

  datatype ChangeKind = Added | Modified | Deleted | Bookmark
  datatype WatchEvent = WatchEvent(kind: ChangeKind, body: Body, version: Version)

  // ---- folding bodies into what has been seen -------------------------------------------------

  function Allowed(bodies: seq<Body>): (allowed: seq<Body>)
    ensures |allowed| <= |bodies|
  {
    if bodies == [] then []
    else Allowed(bodies[..|bodies| - 1]) + if Denied(bodies[|bodies| - 1]) then [] else [bodies[|bodies| - 1]]
  }

  function See(seen: map<string, Body>, body: Body): map<string, Body> {
    if ObjectKey(body).None? then seen else seen[ObjectKey(body).value := body]
  }

  function Overlay(seen: map<string, Body>, bodies: seq<Body>): map<string, Body> {
    if bodies == [] then seen else See(Overlay(seen, bodies[..|bodies| - 1]), bodies[|bodies| - 1])
  }

  function OverlayEvents(seen: map<string, Body>, events: seq<Body>): map<string, Body> {
    if events == [] then seen
    else OverlayEvents(seen, events[..|events| - 1])[EventKey(events[|events| - 1]) := events[|events| - 1]]
  }

  function ObjectItems(bodies: seq<Body>, at: Time): (items: seq<Item>)
    ensures |items| <= |bodies|
    ensures forall i :: 0 <= i < |items| ==> items[i].ObjectItem? && items[i].at == at
  {
    if bodies == [] then []
    else ObjectItems(bodies[..|bodies| - 1], at)
         + if ObjectKey(bodies[|bodies| - 1]).None? then [] else [ObjectItem(at, bodies[|bodies| - 1])]
  }

  function EventItems(events: seq<Body>, at: Time): (items: seq<Item>)
    ensures |items| == |events|
    ensures forall i :: 0 <= i < |items| ==> items[i].EventItem? && items[i].at == at
  {
    if events == [] then [] else EventItems(events[..|events| - 1], at) + [EventItem(at, events[|events| - 1])]
  }

  predicate Unchanged(seen: map<string, Body>, key: string, body: Body) {
    key in seen && seen[key] == body
  }

  function NewsOf(seen: map<string, Body>, body: Body, at: Time): seq<Item> {
    if ObjectKey(body).None? || Unchanged(seen, ObjectKey(body).value, body) then [] else [ObjectItem(at, body)]
  }

  /** Only bodies whose digest differs from what was seen are emitted. */
  function ChangedItems(seen: map<string, Body>, bodies: seq<Body>, at: Time): (items: seq<Item>)
    ensures forall i :: 0 <= i < |items| ==> items[i].ObjectItem? && items[i].at == at
  {
    if bodies == [] then []
    else
      var front := bodies[..|bodies| - 1];
      ChangedItems(seen, front, at) + NewsOf(Overlay(seen, front), bodies[|bodies| - 1], at)
  }

  function EventNewsOf(seen: map<string, Body>, event: Body, at: Time): seq<Item> {
    if Unchanged(seen, EventKey(event), event) then [] else [EventItem(at, event)]
  }

  function ChangedEventItems(seen: map<string, Body>, events: seq<Body>, at: Time): (items: seq<Item>)
    ensures forall i :: 0 <= i < |items| ==> items[i].EventItem? && items[i].at == at
  {
    if events == [] then []
    else
      var front := events[..|events| - 1];
      ChangedEventItems(seen, front, at) + EventNewsOf(OverlayEvents(seen, front), events[|events| - 1], at)
  }

  /** What a completed listing proves gone: seen, not listed, and in a scope that was listed completely. */
  function Doomed(seen: map<string, Body>, listed: map<string, Body>, completed: set<Scope>): set<string> {
    set k | k in seen && k !in listed && ScopeOfKey(k).Some? && ScopeOfKey(k).value in completed
  }

  predicate Enumerates<T(==)>(order: seq<T>, elements: set<T>) {
    (forall i, j :: 0 <= i < j < |order| ==> order[i] != order[j]) && (set x | x in order) == elements
  }

  function Deletions(keys: seq<string>, at: Time): (items: seq<Item>)
    ensures |items| == |keys|
    ensures forall i :: 0 <= i < |items| ==> items[i] == ObjectDeleted(at, keys[i], FromListing)
  {
    seq(|keys|, i requires 0 <= i < |keys| => ObjectDeleted(at, keys[i], FromListing))
  }

  // ---- gaps -----------------------------------------------------------------------------------

  ghost predicate IsEarliest(times: map<Scope, Time>, s: Scope) {
    s in times && forall r :: r in times ==> times[s] <= times[r]
  }

  lemma {:induction false} EarliestExists(times: map<Scope, Time>)
    requires times != map[]
    ensures exists s :: IsEarliest(times, s)
    decreases |times|
  {
    var s :| s in times;
    var rest := times - {s};
    if rest == map[] {
      assert forall r :: r in times && r != s ==> r in rest;
      assert IsEarliest(times, s);
    } else {
      assert |rest.Keys| < |times.Keys| by {
        assert rest.Keys == times.Keys - {s};
      }
      EarliestExists(rest);
      var e :| IsEarliest(rest, e);
      var least := if times[e] <= times[s] then e else s;
      forall r | r in times ensures times[least] <= times[r] {
        if r != s { assert r in rest; }
      }
      assert IsEarliest(times, least);
    }
  }

  ghost function Earliest(times: map<Scope, Time>): (r: Option<Time>)
    ensures r.None? <==> times == map[]
    ensures r.Some? ==> exists s :: IsEarliest(times, s) && times[s] == r.value
  {
    if times == map[] then None
    else
      EarliestExists(times);
      var s :| IsEarliest(times, s);
      Some(times[s])
  }

  /** A global gap starts where every scope was last observed continuously. */
  ghost function GlobalGap(p: Producer, at: Time, reason: GapReason): Item {
    Gap(at, reason, None, Earliest(p.continuous))
  }

  // ---- listings -------------------------------------------------------------------------------

  predicate Fits(b: Buffer, l: Listing) {
    |Allowed(l.objects)| + |l.events| + 2 <= b.maxLen
  }

  /** A watching connector keeps retrying until every scope, and Events in every watched namespace, has a version. */
  predicate Incomplete(c: Config, l: Listing, versions: map<Scope, Version>) {
    c.canWatch && (l.failed != [] ||
                   (l.eventVersions != map[] && exists n :: n in c.namespaces && Scope(n, "Event") !in versions))
  }

  function AllVersions(l: Listing): map<Scope, Version> {
    l.versions + l.eventVersions
  }

  function SnapshotProducer(p: Producer, c: Config, l: Listing, at: Time): Producer {
    p.(seen := Overlay(map[], Allowed(l.objects)),
       eventsSeen := OverlayEvents(map[], l.events),
       versions := AllVersions(l),
       continuous := map s | s in AllVersions(l) :: at,
       generation := p.generation + 1,
       pending := {},
       degraded := Incomplete(c, l, AllVersions(l)))
  }

  function SnapshotItems(l: Listing, at: Time): seq<Item> {
    [SnapshotBegin(at, None)] + ObjectItems(Allowed(l.objects), at) + EventItems(l.events, at)
    + [ListingStatus(at, true, l.completed, l.failed, None)]
  }

  function Snapshot(s: ChangeState, c: Config, l: Listing, at: Time): ChangeState {
    ChangeState(SnapshotProducer(s.p, c, l, at),
                s.b.Append(SnapshotItems(l, at)).(baseline := Some(|s.b.log| + 1)))
  }

  function DeltaDoomed(p: Producer, l: Listing): set<string> {
    Doomed(Overlay(p.seen, Allowed(l.objects)), Overlay(map[], Allowed(l.objects)), l.completed)
  }

  function DeltaProducer(p: Producer, l: Listing, at: Time): Producer {
    p.(seen := Overlay(p.seen, Allowed(l.objects)) - DeltaDoomed(p, l),
       eventsSeen := OverlayEvents(p.eventsSeen, l.events),
       versions := p.versions + AllVersions(l),
       continuous := p.continuous + map s | s in l.completed :: at)
  }

  function DeltaItems(p: Producer, l: Listing, at: Time, order: seq<string>): seq<Item> {
    ChangedItems(p.seen, Allowed(l.objects), at) + Deletions(order, at)
    + ChangedEventItems(p.eventsSeen, l.events, at)
    + [ListingStatus(at, false, l.completed, l.failed, None)]
  }

  /** What changed since the last listing; `order` is the order in which vanished keys are reported. */
  function Delta(s: ChangeState, l: Listing, at: Time, order: seq<string>): ChangeState {
    ChangeState(DeltaProducer(s.p, l, at), s.b.Append(DeltaItems(s.p, l, at, order)))
  }

  predicate TakesSnapshot(s: ChangeState, force: bool) {
    force || !s.b.HasBaseline()
  }

  predicate PollSucceeds(s: ChangeState, listed: Listed, force: bool) {
    listed.Listed? && (TakesSnapshot(s, force) ==> Fits(s.b, listed.listing))
  }

  /** One poll: a snapshot when forced or when no snapshot is buffered any more, else a delta; a poll that fails, or
      whose snapshot could not fit the buffer, leaves the state alone and declares a gap. */
  ghost function Poll(s: ChangeState, c: Config, listed: Listed, at: Time, force: bool, declare: bool,
                      order: seq<string>)
    : ChangeState
  {
    if !PollSucceeds(s, listed, force) then
      if declare then s.(b := s.b.Append([GlobalGap(s.p, at, BackendUnreachable)])) else s
    else if TakesSnapshot(s, force) then Snapshot(s, c, listed.listing, at)
    else Delta(s, listed.listing, at, order)
  }

  // ---- one scope's relist ---------------------------------------------------------------------

  function SeenOutside(seen: map<string, Body>, scope: Scope): map<string, Body> {
    map k | k in seen && ScopeOfKey(k) != Some(scope) :: seen[k]
  }

  function RelistProducer(p: Producer, scope: Scope, r: Relisted, now: Time): Producer
    requires r.Relisted?
  {
    var listed := if scope.kind == "Event" then p.(eventsSeen := OverlayEvents(p.eventsSeen, r.bodies))
                  else p.(seen := Overlay(SeenOutside(p.seen, scope), Allowed(r.bodies)));
    listed.(versions := p.versions[scope := r.version],
            continuous := p.continuous[scope := now],
            pending := p.pending - {scope})
  }

  function RelistItems(scope: Scope, r: Relisted, now: Time): seq<Item>
    requires r.Relisted?
  {
    [SnapshotBegin(now, Some(scope))]
    + (if scope.kind == "Event" then EventItems(r.bodies, now) else ObjectItems(Allowed(r.bodies), now))
    + [ListingStatus(now, true, {scope}, [], Some(scope))]
  }

  function Relist(s: ChangeState, scope: Scope, r: Relisted, now: Time): ChangeState {
    if r.RelistFailed? then s
    else ChangeState(RelistProducer(s.p, scope, r, now), s.b.Append(RelistItems(scope, r, now)))
  }

  function RelistAll(s: ChangeState, scopes: seq<Scope>, answers: map<Scope, Relisted>, now: Time): ChangeState
    requires forall scope :: scope in scopes ==> scope in answers
  {
    if scopes == [] then s
    else
      var last := scopes[|scopes| - 1];
      Relist(RelistAll(s, scopes[..|scopes| - 1], answers, now), last, answers[last], now)
  }

  // ---- watches --------------------------------------------------------------------------------

  function Register(p: Producer, scope: Scope): Producer {
    p.(watchIds := p.watchIds + 1,
       openWatches := p.openWatches[scope := p.watchIds + 1],
       synthetic := p.synthetic - {scope})
  }

  /** A watch starts only from a version, and never while its scope, or everything, waits for a new listing. */
  predicate MayStart(p: Producer, c: Config, scope: Scope) {
    c.canWatch && scope in p.versions && !p.degraded && scope !in p.pending
  }

  predicate Current(p: Producer, scope: Scope, generation: nat) {
    generation == p.generation && scope in p.versions
  }

  function Observe(p: Producer, scope: Scope, event: WatchEvent, now: Time): Producer {
    var moved := p.(versions := p.versions[scope := event.version], continuous := p.continuous[scope := now]);
    if event.kind == Bookmark || Denied(event.body) then moved
    else if scope.kind == "Event" then moved.(eventsSeen := p.eventsSeen[EventKey(event.body) := event.body])
    else if ObjectKey(event.body).None? then moved
    else if event.kind == Deleted then moved.(seen := p.seen - {ObjectKey(event.body).value})
    else moved.(seen := See(p.seen, event.body))
  }

  function ObservedItems(p: Producer, scope: Scope, event: WatchEvent, now: Time): seq<Item> {
    if event.kind == Bookmark || Denied(event.body) then []
    else if scope.kind == "Event" then EventNewsOf(p.eventsSeen, event.body, now)
    else if ObjectKey(event.body).None? then []
    else if event.kind == Deleted then
      if ObjectKey(event.body).value in p.seen then [ObjectDeleted(now, ObjectKey(event.body).value, FromWatch)] else []
    else NewsOf(p.seen, event.body, now)
  }

  /** One watch event; an event of a watch that a newer snapshot replaced changes nothing. */
  function ApplyWatchEvent(s: ChangeState, scope: Scope, event: WatchEvent, generation: nat, now: Time): ChangeState {
    if !Current(s.p, scope, generation) then s
    else ChangeState(Observe(s.p, scope, event, now), s.b.Append(ObservedItems(s.p, scope, event, now)))
  }

  /** The watch's version expired: the scope loses continuity and is listed again, alone where the cluster can do
      that. */
  ghost function WatchExpired(s: ChangeState, c: Config, scope: Scope, generation: nat, listed: Listed,
                              relisted: Relisted, now: Time): ChangeState
  {
    if generation != s.p.generation then s
    else if !c.canListScope then
      var declared := s.(b := s.b.Append([GlobalGap(s.p, now, ResourceVersionExpired)]));
      var polled := Poll(declared, c, listed, now, true, true, []);
      if polled.p.generation == generation then polled.(p := polled.p.(degraded := true)) else polled
    else
      var since := if scope in s.p.continuous then Some(s.p.continuous[scope]) else None;
      var declared := s.(b := s.b.Append([Gap(now, ResourceVersionExpired, Some(scope), since)]));
      if relisted.Relisted? then Relist(declared, scope, relisted, now)
      else declared.(p := s.p.(pending := s.p.pending + {scope}))
  }

  /** The watch failed: one gap for the outage, and a snapshot is due. */
  ghost function WatchFailed(s: ChangeState, scope: Scope, generation: nat, now: Time): ChangeState {
    if generation != s.p.generation || s.p.degraded then s
    else ChangeState(s.p.(degraded := true), s.b.Append([GlobalGap(s.p, now, BackendUnreachable)]))
  }

  /** The server ended the watch: a synthetic bookmark of this very watch is adopted when it is newer. */
  function WatchEnded(p: Producer, scope: Scope, watchId: nat, generation: nat, now: Time): Producer {
    if !Current(p, scope, generation) then p
    else
      var adopts := scope in p.synthetic && p.synthetic[scope].watchId == watchId
                    && Newer(p.synthetic[scope].version, p.versions[scope]);
      p.(continuous := p.continuous[scope := now],
         synthetic := p.synthetic - {scope},
         versions := if adopts then p.versions[scope := p.synthetic[scope].version] else p.versions)
  }

  /** The watch is over, however it ended: what it still held is discarded. */
  function Close(p: Producer, scope: Scope, watchId: nat): Producer {
    p.(openWatches := if scope in p.openWatches && p.openWatches[scope] == watchId then p.openWatches - {scope}
                      else p.openWatches,
       synthetic := if scope in p.synthetic && p.synthetic[scope].watchId == watchId then p.synthetic - {scope}
                    else p.synthetic)
  }

  /** A version learned from a listing is held only while the watch that was open before the listing is still open. */
  function HoldBookmark(p: Producer, scope: Scope, watchId: nat, version: Version): Producer {
    if scope in p.openWatches && p.openWatches[scope] == watchId
    then p.(synthetic := p.synthetic[scope := Held(watchId, version)]) else p
  }

  // ---- retries, heartbeats, reads -------------------------------------------------------------

  /** A due retry: the global snapshot, or every pending relist. */
  ghost function Retry(s: ChangeState, c: Config, listed: Listed, answers: map<Scope, Relisted>, now: Time,
                       order: seq<Scope>): ChangeState
    requires forall scope :: scope in order ==> scope in answers
  {
    if s.p.degraded then Poll(s, c, listed, now, true, false, []) else RelistAll(s, order, answers, now)
  }

  function Beat(s: ChangeState, now: Time): ChangeState {
    s.(b := s.b.Append([ChangeHeartbeat(now)]))
  }

  /** The state a read is served from: a snapshot is taken first when none is buffered. */
  ghost function Prepared(s: ChangeState, c: Config, listed: Listed, now: Time): ChangeState {
    if s.b.HasBaseline() then s else Poll(s, c, listed, now, true, true, [])
  }

  /** What the clock said at each poll and each read of one request; the second of each may not be needed. */
  datatype Readings = Readings(polled: Time, read: Time, polledAgain: Time, readAgain: Time)

  ghost predicate Retries(s: ChangeState, c: Config, cursor: Option<string>, limit: nat, first: Listed, at: Readings) {
    ReadPage(Prepared(s, c, first, at.polled).b, cursor, limit, true, at.read) == Err(NoBaseline)
  }

  ghost function StateToRead(s: ChangeState, c: Config, cursor: Option<string>, limit: nat, first: Listed,
                             second: Listed, at: Readings): ChangeState
  {
    var prepared := Prepared(s, c, first, at.polled);
    if Retries(s, c, cursor, limit, first, at) then Poll(prepared, c, second, at.polledAgain, true, true, [])
    else prepared
  }

  ghost function ReadChanges(s: ChangeState, c: Config, cursor: Option<string>, limit: nat, first: Listed,
                             second: Listed, at: Readings): Result<Page, ReadError>
  {
    var now := if Retries(s, c, cursor, limit, first, at) then at.readAgain else at.read;
    ReadPage(StateToRead(s, c, cursor, limit, first, second, at).b, cursor, limit, true, now)
  }

  // ---- a snapshot always fits -----------------------------------------------------------------

  /** After a successful snapshot its begin, every item and its end are still buffered, whatever was buffered before. */
  lemma {:induction false} SnapshotFits(s: ChangeState, c: Config, l: Listing, at: Time)
    requires Fits(s.b, l)
    ensures var next := Snapshot(s, c, l, at).b;
            && next.HasBaseline()
            && next.log[next.baseline.value - 1..] == SnapshotItems(l, at)
            && next.First() <= |s.b.log| + 1
  {
    assert |SnapshotItems(l, at)| <= s.b.maxLen;
  }

  /** A new reader is left without a snapshot when none is buffered and neither poll can take one. */
  lemma {:induction false} ReadMissesSnapshot(s: ChangeState, c: Config, limit: nat, first: Listed, second: Listed,
                                              at: Readings)
    requires !s.b.HasBaseline() && !PollSucceeds(s, first, true) && s.b.BaselineInLog()
    requires !PollSucceeds(Prepared(s, c, first, at.polled), second, true)
    ensures ReadChanges(s, c, None, limit, first, second, at) == Err(NoBaseline)
  {
  }

  /** Any read that ends without a snapshot had none buffered, and neither poll could take one. */
  lemma {:induction false} ReadFindsSnapshot(s: ChangeState, c: Config, cursor: Option<string>, limit: nat,
                                             first: Listed, second: Listed, at: Readings)
    requires ReadChanges(s, c, cursor, limit, first, second, at) == Err(NoBaseline)
    ensures !s.b.HasBaseline() && !PollSucceeds(s, first, true)
            && !PollSucceeds(Prepared(s, c, first, at.polled), second, true)
  {
    if PollSucceeds(s, first, true) {
      SnapshotFits(s, c, first.listing, at.polled);
    }
    var prepared := Prepared(s, c, first, at.polled);
    if PollSucceeds(prepared, second, true) {
      SnapshotFits(prepared, c, second.listing, at.polledAgain);
    }
  }
}
