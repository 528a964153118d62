/** Nothing is reported gone without proof: a watch that said so, or a complete listing that no longer holds it. */
module Deletions {
  import opened Text
  import opened Wire
  import opened Streams
  import opened Producing
  import opened Worlds
  import opened Blocks

  /** The listing is complete for the key's scope, and no object it lists that may be reported has the key. */
  predicate GoneFrom(l: Listing, key: string) {
    && ScopeOfKey(key).Some? && ScopeOfKey(key).value in l.completed
    && forall i :: 0 <= i < |l.objects| && ObjectKey(l.objects[i]) == Some(key) ==> l.objects[i].kind == Some("Secret")
  }

  /** The deletion names something seen; its source is the watch that delivered it, or the reconciliation that missed
      it. */
  predicate Proven(w: World, step: Step, item: Item)
    requires item.ObjectDeleted?
  {
    match step
    case Delivers(_, event, now) =>
      item.source == FromWatch && item.at == now && event.kind == Deleted && ObjectKey(event.body) == Some(item.key)
      && item.key in w.s.p.seen
    case Polls(a, force, _, _, now) =>
      item.source == FromListing && item.at == now && a.listed.Listed? && !force && GoneFrom(a.listed.listing, item.key)
      && item.key in w.s.p.seen
    case _ => false
  }

  lemma {:induction false} OverlaidHasAll(seen: map<string, Body>, bodies: seq<Body>, key: string)
    ensures key in Overlay(seen, bodies) <==>
            key in seen || exists i :: 0 <= i < |bodies| && ObjectKey(bodies[i]) == Some(key)
  {
    if bodies != [] {
      var front, last := bodies[..|bodies| - 1], bodies[|bodies| - 1];
      OverlaidHasAll(seen, front, key);
      if exists i :: 0 <= i < |front| && ObjectKey(front[i]) == Some(key) {
        var i :| 0 <= i < |front| && ObjectKey(front[i]) == Some(key);
        assert bodies[i] == front[i];
      }
      if ObjectKey(last) == Some(key) {
        assert bodies[|bodies| - 1] == last;
      }
      hide ObjectKey;
    }
  }

  lemma {:induction false} AllowedHasAll(bodies: seq<Body>, i: nat)
    requires i < |bodies| && bodies[i].kind != Some("Secret")
    ensures bodies[i] in Allowed(bodies)
  {
    if i < |bodies| - 1 {
      AllowedHasAll(bodies[..|bodies| - 1], i);
    }
  }

  lemma {:induction false} DoomedAreGone(p: Producer, l: Listing, key: string)
    requires key in DeltaDoomed(p, l)
    ensures GoneFrom(l, key) && key in p.seen
  {
    var objects := Allowed(l.objects);
    OverlaidHasAll(p.seen, objects, key);
    OverlaidHasAll(map[], objects, key);
    forall i | 0 <= i < |l.objects| && l.objects[i].kind != Some("Secret")
      ensures ObjectKey(l.objects[i]) != Some(key)
    {
      AllowedHasAll(l.objects, i);
      var k :| 0 <= k < |objects| && objects[k] == l.objects[i];
    }
    hide ObjectKey, Overlay, Allowed;
  }

  predicate NoDeletion(items: seq<Item>) {
    forall i :: 0 <= i < |items| ==> !items[i].ObjectDeleted?
  }

  lemma {:induction false} DeltaDeletes(s: ChangeState, l: Listing, at: Time, order: seq<string>, i: nat)
    requires i < |DeltaItems(s.p, l, at, order)| && DeltaItems(s.p, l, at, order)[i].ObjectDeleted?
    ensures var item := DeltaItems(s.p, l, at, order)[i];
            item.key in order && item.source == FromListing && item.at == at
  {
    var changed, gone := ChangedItems(s.p.seen, Allowed(l.objects), at), Deletions(order, at);
    assert |changed| <= i < |changed| + |gone|;
    assert DeltaItems(s.p, l, at, order)[i] == gone[i - |changed|];
    assert order[i - |changed|] in order;
    hide ChangedItems, Allowed, ChangedEventItems;
  }

  lemma {:induction false} SnapshotDeletesNothing(l: Listing, at: Time)
    ensures NoDeletion(SnapshotItems(l, at))
  {
  }

  lemma {:induction false} RelistDeletesNothing(scope: Scope, r: Relisted, now: Time)
    requires r.Relisted?
    ensures NoDeletion(RelistItems(scope, r, now))
  {
  }

  /** The items a buffer gained. */
  predicate Gained(b: Buffer, c: Buffer, i: nat) {
    |b.log| <= i < |c.log|
  }

  lemma {:induction false} PollDeletes(w: World, a: Answer, force: bool, declare: bool, order: seq<string>, now: Time,
                                       i: nat)
    requires Enabled(w, Polls(a, force, declare, order, now))
    requires var c := Poll(w.s, w.config, a.listed, now, force, declare, order).b;
             Gained(w.s.b, c, i) && c.log[i].ObjectDeleted?
    ensures Proven(w, Polls(a, force, declare, order, now),
                   Poll(w.s, w.config, a.listed, now, force, declare, order).b.log[i])
  {
    hide SnapshotItems, DeltaItems, DeltaDoomed, GlobalGap, Fits, GoneFrom, TrueAnswer;
    if PollSucceeds(w.s, a.listed, force) && TakesSnapshot(w.s, force) {
      SnapshotDeletesNothing(a.listed.listing, now);
    } else if PollSucceeds(w.s, a.listed, force) {
      var key := Poll(w.s, w.config, a.listed, now, force, declare, order).b.log[i].key;
      DeltaDeletes(w.s, a.listed.listing, now, order, i - |w.s.b.log|);
      assert key in (set x | x in order);
      DoomedAreGone(w.s.p, a.listed.listing, key);
    } else {
      GapIsNoDeletion(w.s.p, now, BackendUnreachable);
    }
  }

  lemma {:induction false} GapIsNoDeletion(p: Producer, at: Time, reason: GapReason)
    ensures GlobalGap(p, at, reason).Gap?
  {
  }

  lemma {:induction false} ForcedPollDeletesNothing(s: ChangeState, c: Config, listed: Listed, at: Time, i: nat)
    requires var n := Poll(s, c, listed, at, true, true, []).b; Gained(s.b, n, i)
    ensures !Poll(s, c, listed, at, true, true, []).b.log[i].ObjectDeleted?
  {
    hide SnapshotItems, GlobalGap, Fits;
    if listed.Listed? {
      SnapshotDeletesNothing(listed.listing, at);
    }
    GapIsNoDeletion(s.p, at, BackendUnreachable);
  }

  lemma {:induction false} ExpiryDeletesNothing(s: ChangeState, c: Config, scope: Scope, generation: nat,
                                                listed: Listed, relisted: Relisted, now: Time, i: nat)
    requires Gained(s.b, WatchExpired(s, c, scope, generation, listed, relisted, now).b, i)
    ensures !WatchExpired(s, c, scope, generation, listed, relisted, now).b.log[i].ObjectDeleted?
  {
    hide Poll, RelistItems, GlobalGap;
    var since := if scope in s.p.continuous then Some(s.p.continuous[scope]) else None;
    var scoped := s.(b := s.b.Append([Gap(now, ResourceVersionExpired, Some(scope), since)]));
    var declared := s.(b := s.b.Append([GlobalGap(s.p, now, ResourceVersionExpired)]));
    GapIsNoDeletion(s.p, now, ResourceVersionExpired);
    if relisted.Relisted? {
      RelistDeletesNothing(scope, relisted, now);
    }
    PollGrows(declared, c, listed, now, true, true, []);
    if i > |s.b.log| && i < |Poll(declared, c, listed, now, true, true, []).b.log| {
      ForcedPollDeletesNothing(declared, c, listed, now, i);
    }
  }

  lemma {:induction false} EventDeletes(s: ChangeState, scope: Scope, event: WatchEvent, generation: nat, now: Time,
                                        i: nat)
    requires var c := ApplyWatchEvent(s, scope, event, generation, now).b; Gained(s.b, c, i) && c.log[i].ObjectDeleted?
    ensures var item := ApplyWatchEvent(s, scope, event, generation, now).b.log[i];
            item.source == FromWatch && item.at == now && event.kind == Deleted
            && ObjectKey(event.body) == Some(item.key) && item.key in s.p.seen
  {
    hide Observe, ObjectKey, EventKey;
  }

  lemma {:induction false} RelistAddsNoDeletion(s: ChangeState, scope: Scope, r: Relisted, now: Time, i: nat)
    requires Gained(s.b, Relist(s, scope, r, now).b, i)
    ensures !Relist(s, scope, r, now).b.log[i].ObjectDeleted?
  {
    hide RelistItems, RelistProducer;
    if r.Relisted? {
      RelistDeletesNothing(scope, r, now);
    }
  }

  /** Every deletion a step puts on the stream is proven: the step is a watch event that says so, or a reconciliation
      whose listing is complete for the key's scope and does not hold the key. */
  lemma {:induction false} DeletionsAreProven(w: World, step: Step, i: nat)
    requires Enabled(w, step) && !step.Restarts? && Gained(w.s.b, Next(w, step).s.b, i)
    requires Next(w, step).s.b.log[i].ObjectDeleted?
    ensures Proven(w, step, Next(w, step).s.b.log[i])
  {
    hide TrueAnswer, TrueRelist, TrueEvent, CanEnd, CanOccur, Poll, WatchExpired, ApplyWatchEvent, Relist, GlobalGap,
         GoneFrom;
    match step {
      case Polls(a, force, declare, order, now) => PollDeletes(w, a, force, declare, order, now, i);
      case Delivers(scope, event, now) => EventDeletes(w.s, scope, event, w.watchers[scope].generation, now, i);
      case Expires(scope, a, relisted, now) =>
        ExpiryDeletesNothing(w.s, w.config, scope, w.watchers[scope].generation, a.listed, relisted, now, i);
      case Relists(scope, relisted, now) => RelistAddsNoDeletion(w.s, scope, relisted, now, i);
      case Fails(scope, now) => GapIsNoDeletion(w.s.p, now, BackendUnreachable);
      case _ =>
    }
  }
}
