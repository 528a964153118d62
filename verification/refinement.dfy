/** Block by block, the items a producer step appends turn a mirror of the old producer state into one of the new. */
module Refinement {
  import opened Text
  import opened Wire
  import opened Streams
  import opened Mirrors
  import opened Producing

  predicate Reflects(events: map<string, Body>, seen: map<string, Body>) {
    forall id :: id in seen ==> id in events && events[id] == seen[id]
  }

  /** The mirror holds exactly what the producer has seen, with the same scopes waiting for a relist, nothing half read,
      and the latest body of every Event seen since the producer's last snapshot. */
  predicate Synced(m: Mirror, p: Producer) {
    && m.objects == p.seen
    && m.gapped == p.pending
    && m.staging.None? && m.relist.None?
    && Reflects(m.events, p.eventsSeen)
  }

  lemma {:induction false} FoldOne(m: Mirror, item: Item)
    ensures Fold(m, [item]) == ApplyItem(m, item)
  {
    assert [item][..0] == [];
  }

  lemma {:induction false} StagedObjects(m: Mirror, bodies: seq<Body>, at: Time)
    requires m.staging.Some? && m.relist.None?
    ensures Fold(m, ObjectItems(bodies, at)) == m.(staging := Some(Overlay(m.staging.value, bodies)))
  {
    if bodies != [] {
      var front, last := bodies[..|bodies| - 1], bodies[|bodies| - 1];
      StagedObjects(m, front, at);
      if ObjectKey(last).Some? {
        FoldConcat(m, ObjectItems(front, at), [ObjectItem(at, last)]);
        FoldOne(Fold(m, ObjectItems(front, at)), ObjectItem(at, last));
      } else {
        assert ObjectItems(bodies, at) == ObjectItems(front, at);
      }
    }
  }

  lemma {:induction false} FoldedEvents(m: Mirror, events: seq<Body>, at: Time)
    ensures Fold(m, EventItems(events, at)) == m.(events := OverlayEvents(m.events, events))
  {
    if events != [] {
      var front, last := events[..|events| - 1], events[|events| - 1];
      FoldedEvents(m, front, at);
      FoldConcat(m, EventItems(front, at), [EventItem(at, last)]);
      FoldOne(Fold(m, EventItems(front, at)), EventItem(at, last));
    }
  }

  lemma {:induction false} OverlayMirrors(events: map<string, Body>, seen: map<string, Body>, bodies: seq<Body>)
    requires Reflects(events, seen)
    ensures Reflects(OverlayEvents(events, bodies), OverlayEvents(seen, bodies))
  {
    if bodies != [] {
      OverlayMirrors(events, seen, bodies[..|bodies| - 1]);
    }
  }

  lemma {:induction false} FoldedNews(m: Mirror, body: Body, at: Time)
    requires m.staging.None? && m.relist.None?
    ensures Fold(m, NewsOf(m.objects, body, at)) == m.(objects := See(m.objects, body))
  {
    if ObjectKey(body).Some? && !Unchanged(m.objects, ObjectKey(body).value, body) {
      FoldOne(m, ObjectItem(at, body));
    } else if ObjectKey(body).Some? {
      assert See(m.objects, body) == m.objects;
    }
  }

  lemma {:induction false} FoldedChanges(m: Mirror, bodies: seq<Body>, at: Time)
    requires m.staging.None? && m.relist.None?
    ensures Fold(m, ChangedItems(m.objects, bodies, at)) == m.(objects := Overlay(m.objects, bodies))
  {
    if bodies != [] {
      var front, last := bodies[..|bodies| - 1], bodies[|bodies| - 1];
      FoldedChanges(m, front, at);
      var reached := Fold(m, ChangedItems(m.objects, front, at));
      FoldConcat(m, ChangedItems(m.objects, front, at), NewsOf(reached.objects, last, at));
      FoldedNews(reached, last, at);
    }
  }

  lemma {:induction false} FoldedEventNews(m: Mirror, seen: map<string, Body>, event: Body, at: Time)
    requires Reflects(m.events, seen)
    ensures Fold(m, EventNewsOf(seen, event, at)) == m.(events := m.events[EventKey(event) := event])
    ensures Reflects(m.events[EventKey(event) := event], seen[EventKey(event) := event])
  {
    if Unchanged(seen, EventKey(event), event) {
      assert m.events[EventKey(event) := event] == m.events;
    } else {
      FoldOne(m, EventItem(at, event));
    }
  }

  lemma {:induction false} FoldedEventChanges(m: Mirror, seen: map<string, Body>, events: seq<Body>, at: Time)
    requires Reflects(m.events, seen)
    ensures Fold(m, ChangedEventItems(seen, events, at)) == m.(events := OverlayEvents(m.events, events))
    ensures Reflects(OverlayEvents(m.events, events), OverlayEvents(seen, events))
  {
    OverlayMirrors(m.events, seen, events);
    if events != [] {
      var front, last := events[..|events| - 1], events[|events| - 1];
      FoldedEventChanges(m, seen, front, at);
      var reached := Fold(m, ChangedEventItems(seen, front, at));
      FoldConcat(m, ChangedEventItems(seen, front, at), EventNewsOf(OverlayEvents(seen, front), last, at));
      FoldedEventNews(reached, OverlayEvents(seen, front), last, at);
    }
  }

  lemma {:induction false} RemoveOneMore(objects: map<string, Body>, front: seq<string>, last: string)
    ensures objects - (set k | k in front + [last]) == (objects - set k | k in front) - {last}
  {
    assert (set k | k in front + [last]) == (set k | k in front) + {last};
  }

  lemma {:induction false} FoldedDeletions(m: Mirror, keys: seq<string>, at: Time)
    ensures Fold(m, Deletions(keys, at)) == m.(objects := m.objects - set k | k in keys)
  {
    if keys == [] {
      assert m.objects - (set k | k in keys) == m.objects;
    } else {
      var front, last := keys[..|keys| - 1], keys[|keys| - 1];
      var item := ObjectDeleted(at, last, FromListing);
      FoldedDeletions(m, front, at);
      assert Deletions(keys, at) == Deletions(front, at) + [item];
      FoldConcat(m, Deletions(front, at), [item]);
      FoldOne(Fold(m, Deletions(front, at)), item);
      RemoveOneMore(m.objects, front, last);
      assert keys == front + [last];
    }
  }

  /** A snapshot synchronises any mirror whatever. */
  lemma {:induction false} SnapshotSyncs(m: Mirror, p: Producer, c: Config, l: Listing, at: Time)
    ensures Synced(Fold(m, SnapshotItems(l, at)), SnapshotProducer(p, c, l, at))
  {
    var begin, end := SnapshotBegin(at, None), ListingStatus(at, true, l.completed, l.failed, None);
    var objects, events := ObjectItems(Allowed(l.objects), at), EventItems(l.events, at);
    FoldConcat(m, [begin] + objects + events, [end]);
    FoldConcat(m, [begin] + objects, events);
    FoldConcat(m, [begin], objects);
    FoldOne(m, begin);
    var begun := ApplyItem(m, begin);
    StagedObjects(begun, Allowed(l.objects), at);
    var staged := begun.(staging := Some(Overlay(map[], Allowed(l.objects))));
    FoldedEvents(staged, l.events, at);
    OverlayMirrors(staged.events, map[], l.events);
    FoldOne(Fold(staged, events), end);
  }

  lemma {:induction false} DeltaSyncs(m: Mirror, p: Producer, l: Listing, at: Time, order: seq<string>)
    requires Synced(m, p) && Enumerates(order, DeltaDoomed(p, l))
    ensures Synced(Fold(m, DeltaItems(p, l, at, order)), DeltaProducer(p, l, at))
  {
    var changes, deletions := ChangedItems(p.seen, Allowed(l.objects), at), Deletions(order, at);
    var events, end := ChangedEventItems(p.eventsSeen, l.events, at),
                       ListingStatus(at, false, l.completed, l.failed, None);
    FoldConcat(m, changes + deletions + events, [end]);
    FoldConcat(m, changes + deletions, events);
    FoldConcat(m, changes, deletions);
    FoldedChanges(m, Allowed(l.objects), at);
    var changed := Fold(m, changes);
    FoldedDeletions(changed, order, at);
    var deleted := Fold(changed, deletions);
    FoldedEventChanges(deleted, p.eventsSeen, l.events, at);
    FoldOne(Fold(deleted, events), end);
  }

  // ---- a scope's relist -----------------------------------------------------------------------

  /** What a mirror half way through a relist will hold once it ends. */
  function Outcome(objects: map<string, Body>, r: HalfRelist): map<string, Body> {
    WithoutScope(objects, r.scope) + r.staged
  }

  predicate Relisting(m: Mirror, scope: Scope) {
    && m.staging.None? && m.relist.Some? && m.relist.value.scope == scope
    && forall k :: k in m.relist.value.staged ==> InScope(k, scope)
  }

  lemma {:induction false} OutcomeInside(objects: map<string, Body>, r: HalfRelist, key: string, body: Body)
    ensures Outcome(objects, r.(staged := r.staged[key := body])) == Outcome(objects, r)[key := body]
  {
  }

  lemma {:induction false} OutcomeOutside(objects: map<string, Body>, r: HalfRelist, key: string, body: Body)
    requires !InScope(key, r.scope) && key !in r.staged
    ensures Outcome(objects[key := body], r) == Outcome(objects, r)[key := body]
  {
    hide WithoutScope, InScope;
    WithoutOutside(objects, r.scope, key, body);
    MergeOutside(WithoutScope(objects, r.scope), r.staged, key, body);
  }

  lemma {:induction false} WithoutOutside(objects: map<string, Body>, scope: Scope, key: string, body: Body)
    requires !InScope(key, scope)
    ensures WithoutScope(objects[key := body], scope) == WithoutScope(objects, scope)[key := body]
  {
  }

  lemma {:induction false} MergeOutside(objects: map<string, Body>, staged: map<string, Body>, key: string, body: Body)
    requires key !in staged
    ensures objects[key := body] + staged == (objects + staged)[key := body]
  {
  }

  lemma {:induction false} RelistObject(m: Mirror, body: Body, scope: Scope)
    requires Relisting(m, scope) && ObjectKey(body).Some?
    ensures var next := ApplyObject(m, body);
            && Relisting(next, scope)
            && next == m.(objects := next.objects, relist := next.relist)
            && Outcome(next.objects, next.relist.value) == See(Outcome(m.objects, m.relist.value), body)
  {
    var key := ObjectKey(body).value;
    if InScope(key, scope) {
      OutcomeInside(m.objects, m.relist.value, key, body);
    } else {
      OutcomeOutside(m.objects, m.relist.value, key, body);
    }
  }

  lemma {:induction false} RelistObjects(m: Mirror, bodies: seq<Body>, scope: Scope, at: Time)
    requires Relisting(m, scope)
    ensures var next := Fold(m, ObjectItems(bodies, at));
            && Relisting(next, scope)
            && next == m.(objects := next.objects, relist := next.relist)
            && Outcome(next.objects, next.relist.value) == Overlay(Outcome(m.objects, m.relist.value), bodies)
  {
    if bodies != [] {
      var front, last := bodies[..|bodies| - 1], bodies[|bodies| - 1];
      RelistObjects(m, front, scope, at);
      if ObjectKey(last).Some? {
        var reached := Fold(m, ObjectItems(front, at));
        FoldConcat(m, ObjectItems(front, at), [ObjectItem(at, last)]);
        FoldOne(reached, ObjectItem(at, last));
        RelistObject(reached, last, scope);
      } else {
        assert ObjectItems(bodies, at) == ObjectItems(front, at);
      }
    }
  }

  /** Relisting a scope carries a mirror along, also when the scope's gap was declared just before. */
  lemma {:induction false} RelistSyncs(m: Mirror, p: Producer, scope: Scope, r: Relisted, now: Time)
    requires r.Relisted? && Synced(m.(gapped := p.pending), p)
    requires m.gapped == p.pending || m.gapped == p.pending + {scope}
    ensures Synced(Fold(m, RelistItems(scope, r, now)), RelistProducer(p, scope, r, now))
  {
    var items := if scope.kind == "Event" then EventItems(r.bodies, now) else ObjectItems(Allowed(r.bodies), now);
    var begun := m.(relist := Some(HalfRelist(scope, map[])));
    RelistFolds(m, scope, items, now);
    if scope.kind == "Event" {
      FoldedEvents(begun, r.bodies, now);
      OverlayMirrors(begun.events, p.eventsSeen, r.bodies);
    } else {
      RelistObjects(begun, Allowed(r.bodies), scope, now);
      assert Outcome(begun.objects, begun.relist.value) == SeenOutside(p.seen, scope);
    }
  }

  lemma {:induction false} RelistFolds(m: Mirror, scope: Scope, items: seq<Item>, now: Time)
    ensures Fold(m, [SnapshotBegin(now, Some(scope))] + items + [ListingStatus(now, true, {scope}, [], Some(scope))])
            == EndRelist(Fold(m.(relist := Some(HalfRelist(scope, map[]))), items), scope, {scope})
  {
    var begin, end := SnapshotBegin(now, Some(scope)), ListingStatus(now, true, {scope}, [], Some(scope));
    FoldConcat(m, [begin] + items, [end]);
    FoldConcat(m, [begin], items);
    FoldOne(m, begin);
    FoldOne(Fold(ApplyItem(m, begin), items), end);
  }

  lemma {:induction false} ObservedSyncs(m: Mirror, p: Producer, scope: Scope, event: WatchEvent, now: Time)
    requires Synced(m, p)
    ensures Synced(Fold(m, ObservedItems(p, scope, event, now)), Observe(p, scope, event, now))
  {
    if event.kind == Bookmark || Denied(event.body) {
    } else if scope.kind == "Event" {
      FoldedEventNews(m, p.eventsSeen, event.body, now);
    } else if ObjectKey(event.body).None? {
    } else if event.kind == Deleted {
      var key := ObjectKey(event.body).value;
      FoldOne(m, ObjectDeleted(now, key, FromWatch));
      assert key !in p.seen ==> p.seen - {key} == p.seen;
    } else {
      FoldedNews(m, event.body, now);
    }
  }
}
