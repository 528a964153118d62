/** The connector as the object it is: every block under its change lock is a method that updates fields and appends to
    the buffer one item at a time, and does what the corresponding producer step says. What the cluster answers and what
    the clock reads are parameters. */
module Connectors {
  import opened Text
  import opened Wire
  import opened Streams
  import opened Producing
  import opened Orders

  lemma {:induction false} EarliestIs(times: map<Scope, Time>, s: Scope)
    requires IsEarliest(times, s)
    ensures Earliest(times) == Some(times[s])
  {
  }

  lemma {:induction false} DeletedNothing(b: Buffer, at: Time)
    ensures b.Append(Deletions([], at)) == b
  {
    AppendNothing(b);
    assert Deletions([], at) == [];
  }

  lemma {:induction false} DeletedOneMore(b: Buffer, order: seq<string>, key: string, at: Time)
    ensures b.Append(Deletions(order, at)).Append([ObjectDeleted(at, key, FromListing)])
         == b.Append(Deletions(order + [key], at))
  {
    AppendTwice(b, Deletions(order, at), [ObjectDeleted(at, key, FromListing)]);
    assert Deletions(order + [key], at) == Deletions(order, at) + [ObjectDeleted(at, key, FromListing)];
  }

  lemma {:induction false} WithoutOneMore(seen: map<string, Body>, order: seq<string>, key: string)
    ensures seen - (set k | k in order) - {key} == seen - (set k | k in order + [key])
  {
  }

  /** The keys a complete listing proves gone, in the order visited. */
  function Vanished(keys: seq<string>, present: set<string>, completed: set<Scope>): seq<string> {
    if keys == [] then []
    else
      var key := keys[|keys| - 1];
      Vanished(keys[..|keys| - 1], present, completed)
      + if key !in present && ScopeOfKey(key).Some? && ScopeOfKey(key).value in completed then [key] else []
  }

  lemma {:induction false} VanishedIn(keys: seq<string>, present: set<string>, completed: set<Scope>)
    requires Increasing(LessText, keys)
    ensures Increasing(LessText, Vanished(keys, present, completed))
    ensures forall k :: k in Vanished(keys, present, completed) <==>
                        k in keys && k !in present && ScopeOfKey(k).Some? && ScopeOfKey(k).value in completed
  {
    if keys != [] {
      var front, last := keys[..|keys| - 1], keys[|keys| - 1];
      VanishedIn(front, present, completed);
      assert keys == front + [last];
      forall y | y in front ensures LessText(y, last) {
        var i :| 0 <= i < |front| && front[i] == y;
        assert keys[i] == y;
      }
      LastKeepsOrder(LessText, Vanished(front, present, completed), last);
    }
  }

  lemma {:induction false} VanishedEnumerates(keys: seq<string>, elements: set<string>, present: set<string>,
                                              completed: set<Scope>)
    requires Ascending(LessText, keys, elements)
    ensures var gone := set k | k in elements && k !in present && ScopeOfKey(k).Some?
                                && ScopeOfKey(k).value in completed;
            Enumerates(Vanished(keys, present, completed), gone)
            && (set k | k in Vanished(keys, present, completed)) == gone
    ensures Increasing(LessText, Vanished(keys, present, completed))
  {
    hide LessText;
    TextIsTotal();
    VanishedIn(keys, present, completed);
    assert forall k :: k in elements <==> k in (set x | x in keys);
  }

  class Connector {
    const config: Config
    const changes: StreamBuffer
    var seen: map<string, Body>
    var eventsSeen: map<string, Body>
    var versions: map<Scope, Version>
    var generation: nat
    var degraded: bool
    var pendingRelists: set<Scope>
    var continuousUntil: map<Scope, Time>
    var openWatches: map<Scope, nat>
    var watchIds: nat
    var synthetic: map<Scope, Held>

    ghost function Producer(): Producer
      reads this
    {
      Producing.Producer(seen, eventsSeen, versions, generation, degraded, pendingRelists, continuousUntil, openWatches,
                         watchIds, synthetic)
    }

    ghost function View(): ChangeState
      reads this, changes
    {
      ChangeState(Producer(), changes.Contents())
    }

    ghost predicate Valid()
      reads this, changes
    {
      changes.Valid()
    }

    constructor (config: Config, epoch: string, maxLen: nat)
      ensures Valid() && fresh(changes) && this.config == config
      ensures View() == ChangeState(STARTED, Streams.Fresh(epoch, maxLen))
    {
      this.config := config;
      changes := new StreamBuffer(epoch, maxLen);
      seen, eventsSeen, versions, generation, degraded := map[], map[], map[], 0, false;
      pendingRelists, continuousUntil, openWatches, watchIds, synthetic := {}, map[], map[], 0, map[];
    }

    // ---- emitting what was listed ---------------------------------------------------------------

    method PutObjects(bodies: seq<Body>, at: Time)
      requires Valid()
      modifies this`seen, changes
      ensures Valid() && seen == Overlay(old(seen), bodies)
      ensures changes.Contents() == old(changes.Contents()).Append(ObjectItems(bodies, at))
    {
      ghost var b := changes.Contents();
      AppendNothing(b);
      for i := 0 to |bodies|
        invariant Valid() && seen == Overlay(old(seen), bodies[..i])
        invariant changes.Contents() == b.Append(ObjectItems(bodies[..i], at))
      {
        assert bodies[..i + 1][..i] == bodies[..i];
        var key := ObjectKey(bodies[i]);
        if key.Some? {
          seen := seen[key.value := bodies[i]];
          AppendTwice(b, ObjectItems(bodies[..i], at), [ObjectItem(at, bodies[i])]);
          var _ := changes.Append(ObjectItem(at, bodies[i]));
        }
      }
      assert bodies[..|bodies|] == bodies;
    }

    method PutEvents(events: seq<Body>, at: Time)
      requires Valid()
      modifies this`eventsSeen, changes
      ensures Valid() && eventsSeen == OverlayEvents(old(eventsSeen), events)
      ensures changes.Contents() == old(changes.Contents()).Append(EventItems(events, at))
    {
      ghost var b := changes.Contents();
      AppendNothing(b);
      for i := 0 to |events|
        invariant Valid() && eventsSeen == OverlayEvents(old(eventsSeen), events[..i])
        invariant changes.Contents() == b.Append(EventItems(events[..i], at))
      {
        assert events[..i + 1][..i] == events[..i];
        eventsSeen := eventsSeen[EventKey(events[i]) := events[i]];
        AppendTwice(b, EventItems(events[..i], at), [EventItem(at, events[i])]);
        var _ := changes.Append(EventItem(at, events[i]));
      }
      assert events[..|events|] == events;
    }

    /** Only bodies that differ from what was seen; and which keys were listed at all. */
    method PutChangedObjects(bodies: seq<Body>, at: Time) returns (present: set<string>)
      requires Valid()
      modifies this`seen, changes
      ensures Valid() && seen == Overlay(old(seen), bodies)
      ensures changes.Contents() == old(changes.Contents()).Append(ChangedItems(old(seen), bodies, at))
      ensures present == Overlay(map[], bodies).Keys
    {
      ghost var b, before := changes.Contents(), seen;
      AppendNothing(b);
      present := {};
      for i := 0 to |bodies|
        invariant Valid() && seen == Overlay(before, bodies[..i])
        invariant changes.Contents() == b.Append(ChangedItems(before, bodies[..i], at))
        invariant present == Overlay(map[], bodies[..i]).Keys
      {
        assert bodies[..i + 1][..i] == bodies[..i];
        AppendTwice(b, ChangedItems(before, bodies[..i], at), NewsOf(seen, bodies[i], at));
        var key := ObjectKey(bodies[i]);
        if key.Some? {
          present := present + {key.value};
        }
        PutNews(bodies[i], at);
      }
      assert bodies[..|bodies|] == bodies;
    }

    method PutNews(body: Body, at: Time)
      requires Valid()
      modifies this`seen, changes
      ensures Valid() && seen == See(old(seen), body)
      ensures changes.Contents() == old(changes.Contents()).Append(NewsOf(old(seen), body, at))
    {
      AppendNothing(changes.Contents());
      var key := ObjectKey(body);
      if key.None? {
        return;
      }
      if key.value !in seen || seen[key.value] != body {
        seen := seen[key.value := body];
        var _ := changes.Append(ObjectItem(at, body));
      } else {
        assert seen == seen[key.value := body];
      }
    }

    method PutChangedEvents(events: seq<Body>, at: Time)
      requires Valid()
      modifies this`eventsSeen, changes
      ensures Valid() && eventsSeen == OverlayEvents(old(eventsSeen), events)
      ensures changes.Contents() == old(changes.Contents()).Append(ChangedEventItems(old(eventsSeen), events, at))
    {
      ghost var b, before := changes.Contents(), eventsSeen;
      AppendNothing(b);
      for i := 0 to |events|
        invariant Valid() && eventsSeen == OverlayEvents(before, events[..i])
        invariant changes.Contents() == b.Append(ChangedEventItems(before, events[..i], at))
      {
        assert events[..i + 1][..i] == events[..i];
        AppendTwice(b, ChangedEventItems(before, events[..i], at), EventNewsOf(eventsSeen, events[i], at));
        PutEventNews(events[i], at);
      }
      assert events[..|events|] == events;
    }

    method PutEventNews(event: Body, at: Time)
      requires Valid()
      modifies this`eventsSeen, changes
      ensures Valid() && eventsSeen == old(eventsSeen)[EventKey(event) := event]
      ensures changes.Contents() == old(changes.Contents()).Append(EventNewsOf(old(eventsSeen), event, at))
    {
      AppendNothing(changes.Contents());
      var key := EventKey(event);
      if key !in eventsSeen || eventsSeen[key] != event {
        eventsSeen := eventsSeen[key := event];
        var _ := changes.Append(EventItem(at, event));
      } else {
        assert eventsSeen == eventsSeen[key := event];
      }
    }

    method PutDeletion(key: string, at: Time)
      requires Valid()
      modifies this`seen, changes
      ensures Valid() && seen == old(seen) - {key}
      ensures changes.Contents() == old(changes.Contents()).Append([ObjectDeleted(at, key, FromListing)])
    {
      seen := seen - {key};
      var _ := changes.Append(ObjectDeleted(at, key, FromListing));
    }

    /** Everything a complete listing proves gone, one key after another. */
    method PutDeletions(present: set<string>, completed: set<Scope>, at: Time) returns (ghost order: seq<string>)
      requires Valid()
      modifies this`seen, changes
      ensures var gone := set k | k in old(seen) && k !in present && ScopeOfKey(k).Some?
                                  && ScopeOfKey(k).value in completed;
              Enumerates(order, gone) && seen == old(seen) - gone
      ensures Increasing(LessText, order)
      ensures Valid() && changes.Contents() == old(changes.Contents()).Append(Deletions(order, at))
    {
      hide Increasing, Ascending, LessText, Deletions, Enumerates, ScopeOfKey;
      ghost var b, before := changes.Contents(), seen;
      DeletedNothing(b, at);
      order := [];
      TextIsTotal();
      var keys := Sorted(LessText, seen.Keys);
      for i := 0 to |keys|
        invariant order == Vanished(keys[..i], present, completed)
        invariant Valid() && seen == before - (set k | k in order)
        invariant changes.Contents() == b.Append(Deletions(order, at))
      {
        var key := keys[i];
        assert keys[..i + 1][..i] == keys[..i];
        WithoutOneMore(before, order, key);
        var scope := ScopeOfKey(key);
        if key !in present && scope.Some? && scope.value in completed {
          DeletedOneMore(b, order, key, at);
          PutDeletion(key, at);
          order := order + [key];
        }
      }
      assert keys[..|keys|] == keys;
      VanishedEnumerates(keys, before.Keys, present, completed);
    }

    /** The instant up to which every scope was observed without a break. */
    method EarliestContinuous() returns (since: Option<Time>)
      ensures since == Earliest(continuousUntil)
    {
      since := None;
      var rest := continuousUntil.Keys;
      ghost var least := if continuousUntil == map[] then Scope("", "") else var s :| s in continuousUntil; s;
      while rest != {}
        invariant rest <= continuousUntil.Keys
        invariant since.None? ==> rest == continuousUntil.Keys
        invariant since.Some? ==> least in continuousUntil && since == Some(continuousUntil[least])
                                  && forall r :: r in continuousUntil.Keys - rest ==> since.value <= continuousUntil[r]
        decreases rest
      {
        var s :| s in rest;
        rest := rest - {s};
        if since.None? || continuousUntil[s] < since.value {
          since, least := Some(continuousUntil[s]), s;
        }
      }
      if since.Some? {
        EarliestIs(continuousUntil, least);
      }
    }

    method PutGlobalGap(at: Time, reason: GapReason)
      requires Valid()
      modifies changes
      ensures Valid() && View() == old(View()).(b := old(View()).b.Append([GlobalGap(old(Producer()), at, reason)]))
    {
      var since := EarliestContinuous();
      var _ := changes.Append(Gap(at, reason, None, since));
    }

    // ---- listings -------------------------------------------------------------------------------

    /** A snapshot, unless it could not be kept whole: then nothing is touched. */
    method TakeSnapshot(objects: seq<Body>, l: Listing, at: Time) returns (ok: bool)
      requires Valid() && objects == Allowed(l.objects)
      modifies this, changes
      ensures Valid() && ok == Fits(old(View()).b, l)
      ensures View() == if ok then Producing.Snapshot(old(View()), config, l, at) else old(View())
    {
      if |objects| + |l.events| + 2 > changes.maxLen {
        return false;
      }
      ghost var s := View();
      Restart(l, at);
      PutSnapshot(objects, l, at);
      assert Producer() == SnapshotProducer(s.p, config, l, at);
      ok := true;
    }

    /** Forget what was seen and start over from a listing's versions; watches of the replaced ones are outdated. */
    method Restart(l: Listing, at: Time)
      modifies this
      ensures seen == map[] && eventsSeen == map[]
      ensures Producer() == SnapshotProducer(old(Producer()), config, l, at).(seen := map[], eventsSeen := map[])
    {
      hide Overlay, OverlayEvents, Allowed, Incomplete;
      seen, eventsSeen := map[], map[];
      versions := l.versions + l.eventVersions;
      continuousUntil := map s | s in versions :: at;
      generation := generation + 1;
      pendingRelists := {};
      degraded := Incomplete(config, l, versions);
    }

    method PutSnapshot(objects: seq<Body>, l: Listing, at: Time)
      requires Valid() && objects == Allowed(l.objects) && seen == map[] && eventsSeen == map[]
      modifies this`seen, this`eventsSeen, changes
      ensures Valid() && seen == Overlay(map[], objects) && eventsSeen == OverlayEvents(map[], l.events)
      ensures changes.Contents()
              == old(changes.Contents()).Append(SnapshotItems(l, at))
                 .(baseline := Some(|old(changes.Contents()).log| + 1))
    {
      AppendFour(changes.Contents(), [SnapshotBegin(at, None)], ObjectItems(objects, at), EventItems(l.events, at),
                 [ListingStatus(at, true, l.completed, l.failed, None)]);
      var begin := changes.Append(SnapshotBegin(at, None));
      changes.MarkBaseline(begin);
      PutObjects(objects, at);
      PutEvents(l.events, at);
      var _ := changes.Append(ListingStatus(at, true, l.completed, l.failed, None));
    }

    /** What changed since the last listing. */
    method PutDelta(objects: seq<Body>, l: Listing, at: Time) returns (ghost order: seq<string>)
      requires Valid() && objects == Allowed(l.objects)
      modifies this, changes
      ensures Valid() && Enumerates(order, DeltaDoomed(old(Producer()), l)) && Increasing(LessText, order)
      ensures View() == Producing.Delta(old(View()), l, at, order)
    {
      versions := versions + (l.versions + l.eventVersions);
      continuousUntil := continuousUntil + map s | s in l.completed :: at;
      order := PutDifference(objects, l, at);
    }

    method PutDifference(objects: seq<Body>, l: Listing, at: Time) returns (ghost order: seq<string>)
      requires Valid() && objects == Allowed(l.objects)
      modifies this`seen, this`eventsSeen, changes
      ensures Valid() && Enumerates(order, DeltaDoomed(old(Producer()), l)) && Increasing(LessText, order)
      ensures seen == Overlay(old(seen), objects) - DeltaDoomed(old(Producer()), l)
      ensures eventsSeen == OverlayEvents(old(eventsSeen), l.events)
      ensures changes.Contents() == old(changes.Contents()).Append(DeltaItems(old(Producer()), l, at, order))
    {
      ghost var b, p := changes.Contents(), Producer();
      var present := PutChangedObjects(objects, at);
      order := PutDeletions(present, l.completed, at);
      PutChangedEvents(l.events, at);
      var _ := changes.Append(ListingStatus(at, false, l.completed, l.failed, None));
      AppendFour(b, ChangedItems(p.seen, objects, at), Deletions(order, at),
                 ChangedEventItems(p.eventsSeen, l.events, at),
                 [ListingStatus(at, false, l.completed, l.failed, None)]);
    }

    /** One poll. `order` is the order in which a delta reported vanished keys. */
    method PollChangesOnce(at: Time, listed: Listed, force: bool, gapOnFailure: bool) returns (ghost order: seq<string>)
      requires Valid()
      modifies this, changes
      ensures Valid() && View() == Poll(old(View()), config, listed, at, force, gapOnFailure, order)
      ensures if !TakesSnapshot(old(View()), force) && listed.Listed?
              then Enumerates(order, DeltaDoomed(old(Producer()), listed.listing)) && Increasing(LessText, order)
              else order == []
    {
      order := [];
      var ok := false;
      if listed.Listed? {
        var l := listed.listing;
        var objects := Allowed(l.objects);
        var has := changes.HasBaseline();
        if force || !has {
          ok := TakeSnapshot(objects, l, at);
        } else {
          order := PutDelta(objects, l, at);
          ok := true;
        }
      }
      if !ok && gapOnFailure {
        PutGlobalGap(at, BackendUnreachable);
      }
    }

    /** List one scope again and serve it as that scope's snapshot. */
    method RelistScope(scope: Scope, answer: Relisted, at: Time) returns (ok: bool)
      requires Valid()
      modifies this, changes
      ensures Valid() && ok == answer.Relisted?
      ensures View() == Producing.Relist(old(View()), scope, answer, at)
    {
      if answer.RelistFailed? {
        return false;
      }
      PutRelist(scope, answer, at);
      versions := versions[scope := answer.version];
      continuousUntil := continuousUntil[scope := at];
      pendingRelists := pendingRelists - {scope};
      ok := true;
    }

    method PutRelist(scope: Scope, answer: Relisted, at: Time)
      requires Valid() && answer.Relisted?
      modifies this`seen, this`eventsSeen, changes
      ensures Valid()
      ensures if scope.kind == "Event" then
                seen == old(seen) && eventsSeen == OverlayEvents(old(eventsSeen), answer.bodies)
              else
                seen == Overlay(SeenOutside(old(seen), scope), Allowed(answer.bodies)) && eventsSeen == old(eventsSeen)
      ensures changes.Contents() == old(changes.Contents()).Append(RelistItems(scope, answer, at))
    {
      AppendThree(changes.Contents(), [SnapshotBegin(at, Some(scope))],
                  if scope.kind == "Event" then EventItems(answer.bodies, at)
                  else ObjectItems(Allowed(answer.bodies), at),
                  [ListingStatus(at, true, {scope}, [], Some(scope))]);
      var _ := changes.Append(SnapshotBegin(at, Some(scope)));
      if scope.kind == "Event" {
        PutEvents(answer.bodies, at);
      } else {
        seen := SeenOutside(seen, scope);
        PutObjects(Allowed(answer.bodies), at);
      }
      var _ := changes.Append(ListingStatus(at, true, {scope}, [], Some(scope)));
    }

    /** After a watch failure or a failed relist, try again; whether a retry was due. */
    method RetrySnapshotOnce(listed: Listed, answers: map<Scope, Relisted>, now: Time)
      returns (due: bool, ghost order: seq<Scope>)
      requires Valid() && forall scope :: scope in pendingRelists ==> scope in answers
      modifies this, changes
      ensures Valid() && due == (old(degraded) || old(pendingRelists) != {})
      ensures if old(degraded) then order == []
              else Enumerates(order, old(pendingRelists)) && Increasing(LessScope, order)
      ensures (forall scope :: scope in order ==> scope in answers)
              && View() == Retry(old(View()), config, listed, answers, now, order)
    {
      order := [];
      due := degraded || pendingRelists != {};
      if degraded {
        ghost var _ := PollChangesOnce(now, listed, true, false);
      } else {
        order := RelistPending(answers, now);
      }
    }

    method RelistPending(answers: map<Scope, Relisted>, now: Time) returns (ghost order: seq<Scope>)
      requires Valid() && forall scope :: scope in pendingRelists ==> scope in answers
      modifies this, changes
      ensures Valid() && Enumerates(order, old(pendingRelists)) && Increasing(LessScope, order)
      ensures (forall scope :: scope in order ==> scope in answers)
              && View() == RelistAll(old(View()), order, answers, now)
    {
      ghost var before := View();
      ScopesAreTotal();
      var scopes := Sorted(LessScope, pendingRelists);
      assert forall scope :: scope in scopes ==> scope in before.p.pending;
      for i := 0 to |scopes|
        invariant Valid() && View() == RelistAll(before, scopes[..i], answers, now)
      {
        assert scopes[..i + 1][..i] == scopes[..i];
        var _ := RelistScope(scopes[i], answers[scopes[i]], now);
      }
      assert scopes[..|scopes|] == scopes;
      order := scopes;
    }

    // ---- watches --------------------------------------------------------------------------------

    method RegisterWatch(scope: Scope) returns (watchId: nat)
      requires Valid()
      modifies this
      ensures Valid() && watchId == watchIds
      ensures View() == old(View()).(p := Register(old(Producer()), scope))
    {
      watchIds := watchIds + 1;
      watchId := watchIds;
      openWatches := openWatches[scope := watchId];
      synthetic := synthetic - {scope};
    }

    /** The version and generation to watch from, unless the scope has no version or waits for a new listing. */
    method WatchFrom(scope: Scope) returns (from: Option<(Version, nat)>)
      requires Valid()
      ensures from.Some? <==> MayStart(Producer(), config, scope)
      ensures from.Some? ==> from.value == (versions[scope], generation) && Current(Producer(), scope, from.value.1)
    {
      var waiting := degraded || scope in pendingRelists;
      from := if !config.canWatch || scope !in versions || waiting then None else Some((versions[scope], generation));
    }

    /** One watch event; false when a newer snapshot has replaced the watch it came from. */
    method ApplyWatchEvent(scope: Scope, event: WatchEvent, generation: nat, now: Time) returns (current: bool)
      requires Valid()
      modifies this, changes
      ensures Valid() && current == Current(old(Producer()), scope, generation)
      ensures View() == Producing.ApplyWatchEvent(old(View()), scope, event, generation, now)
    {
      if generation != this.generation || scope !in versions {
        return false;
      }
      AppendNothing(changes.Contents());
      versions := versions[scope := event.version];
      continuousUntil := continuousUntil[scope := now];
      current := true;
      if event.kind == Bookmark || Denied(event.body) {
        return;
      }
      if scope.kind == "Event" {
        PutEventNews(event.body, now);
        return;
      }
      var key := ObjectKey(event.body);
      if key.None? {
        return;
      }
      if event.kind == Deleted {
        Vanish(key.value, now);
        return;
      }
      PutNews(event.body, now);
    }

    /** An observed deletion of something that was seen. */
    method Vanish(key: string, now: Time)
      requires Valid()
      modifies this`seen, changes
      ensures Valid() && seen == old(seen) - {key}
      ensures changes.Contents() == old(changes.Contents())
                .Append(if key in old(seen) then [ObjectDeleted(now, key, FromWatch)] else [])
    {
      AppendNothing(changes.Contents());
      if key in seen {
        seen := seen - {key};
        var _ := changes.Append(ObjectDeleted(now, key, FromWatch));
      } else {
        assert seen - {key} == seen;
      }
    }

    /** The watch's version expired. True when nothing is left to be done: another expiry already listed everything, or
        the scope was listed again at once. */
    method WatchExpired(scope: Scope, generation: nat, listed: Listed, answer: Relisted,
                        now: Time) returns (healed: bool)
      requires Valid()
      modifies this, changes
      ensures Valid()
      ensures healed == (generation != old(this.generation) || (config.canListScope && answer.Relisted?))
      ensures View() == Producing.WatchExpired(old(View()), config, scope, generation, listed, answer, now)
    {
      if generation != this.generation {
        return true;
      }
      if !config.canListScope {
        PutGlobalGap(now, ResourceVersionExpired);
        ghost var _ := PollChangesOnce(now, listed, true, true);
        if this.generation == generation {
          degraded := true;
        }
        return false;
      }
      var since := if scope in continuousUntil then Some(continuousUntil[scope]) else None;
      var _ := changes.Append(Gap(now, ResourceVersionExpired, Some(scope), since));
      healed := RelistScope(scope, answer, now);
      if !healed {
        pendingRelists := pendingRelists + {scope};
      }
    }

    /** Any other failure of a watch: one gap for the outage, however many watches notice it. */
    method WatchFailed(scope: Scope, generation: nat, now: Time) returns (replaced: bool)
      requires Valid()
      modifies this, changes
      ensures Valid() && replaced == (generation != old(this.generation))
      ensures View() == Producing.WatchFailed(old(View()), scope, generation, now)
    {
      replaced := generation != this.generation;
      if !replaced && !degraded {
        degraded := true;
        PutGlobalGap(now, BackendUnreachable);
      }
    }

    /** The server ended the watch. */
    method WatchEnded(scope: Scope, watchId: nat, generation: nat, now: Time)
      requires Valid()
      modifies this
      ensures Valid()
      ensures View() == old(View()).(p := Producing.WatchEnded(old(Producer()), scope, watchId, generation, now))
    {
      if generation == this.generation && scope in versions {
        continuousUntil := continuousUntil[scope := now];
        var held := if scope in synthetic then Some(synthetic[scope]) else None;
        synthetic := synthetic - {scope};
        if held.Some? && held.value.watchId == watchId && Newer(held.value.version, versions[scope]) {
          versions := versions[scope := held.value.version];
        }
      }
    }

    /** However the watch ended, what it still held is discarded. */
    method CloseWatch(scope: Scope, watchId: nat)
      requires Valid()
      modifies this
      ensures Valid() && View() == old(View()).(p := Close(old(Producer()), scope, watchId))
    {
      if scope in openWatches && openWatches[scope] == watchId {
        openWatches := openWatches - {scope};
      }
      if scope in synthetic && synthetic[scope].watchId == watchId {
        synthetic := synthetic - {scope};
      }
    }

    /** A version read while the watch was open before and after. */
    method HoldBookmark(scope: Scope, watchId: nat, version: Version) returns (held: bool)
      requires Valid()
      modifies this
      ensures Valid() && held == (scope in openWatches && openWatches[scope] == watchId)
      ensures View() == old(View()).(p := Producing.HoldBookmark(old(Producer()), scope, watchId, version))
    {
      held := scope in openWatches && openWatches[scope] == watchId;
      if held {
        synthetic := synthetic[scope := Held(watchId, version)];
      }
    }

    // ---- heartbeats and reads -------------------------------------------------------------------

    method ChangeHeartbeat(now: Time)
      requires Valid()
      modifies changes
      ensures Valid() && View() == Beat(old(View()), now)
    {
      var _ := changes.Append(Wire.ChangeHeartbeat(now));
    }

    /** A page, after a snapshot if none is buffered; a read that finds none after all takes one and reads again. */
    method ReadChanges(cursor: Option<string>, limit: nat, first: Listed, second: Listed, at: Readings)
      returns (r: Result<Page, ReadError>)
      requires Valid()
      modifies this, changes
      ensures Valid()
      ensures r == Producing.ReadChanges(old(View()), config, cursor, limit, first, second, at)
      ensures View() == StateToRead(old(View()), config, cursor, limit, first, second, at)
    {
      var has := changes.HasBaseline();
      if !has {
        ghost var _ := PollChangesOnce(at.polled, first, true, true);
      }
      r := changes.Read(cursor, limit, true, at.read);
      if r == Err(NoBaseline) {
        ghost var _ := PollChangesOnce(at.polledAgain, second, true, true);
        r := changes.Read(cursor, limit, true, at.readAgain);
      }
    }
  }
}
