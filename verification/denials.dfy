/** Kinds the connector must not report: no Secret is ever seen, put on the stream or held by a mirror. */
module Denials {
  import opened Text
  import opened Wire
  import opened Streams
  import opened Mirrors
  import opened Producing
  import opened Worlds
  import opened Blocks
  import opened Systems
  import opened Following
  import opened Paging

  predicate NoSecret(body: Body) {
    body.kind != Some("Secret")
  }

  predicate NoneHeld(bodies: map<string, Body>) {
    forall k :: k in bodies ==> NoSecret(bodies[k])
  }

  predicate NoneTold(items: seq<Item>) {
    forall i :: 0 <= i < |items| && items[i].ObjectItem? ==> NoSecret(items[i].body)
  }

  predicate NoneIn(bodies: seq<Body>) {
    forall i :: 0 <= i < |bodies| ==> NoSecret(bodies[i])
  }

  predicate Discreet(s: ChangeState) {
    NoneHeld(s.p.seen) && NoneTold(s.b.log)
  }

  lemma {:induction false} AllowedHasNone(bodies: seq<Body>)
    ensures NoneIn(Allowed(bodies))
  {
    if bodies != [] {
      AllowedHasNone(bodies[..|bodies| - 1]);
    }
  }

  lemma {:induction false} OverlayHasNone(seen: map<string, Body>, bodies: seq<Body>)
    requires NoneHeld(seen) && NoneIn(bodies)
    ensures NoneHeld(Overlay(seen, bodies))
  {
    if bodies != [] {
      OverlayHasNone(seen, bodies[..|bodies| - 1]);
    }
  }

  lemma {:induction false} ItemsHaveNone(bodies: seq<Body>, at: Time)
    requires NoneIn(bodies)
    ensures NoneTold(ObjectItems(bodies, at))
  {
    if bodies != [] {
      ItemsHaveNone(bodies[..|bodies| - 1], at);
    }
  }

  lemma {:induction false} ChangesHaveNone(seen: map<string, Body>, bodies: seq<Body>, at: Time)
    requires NoneIn(bodies)
    ensures NoneTold(ChangedItems(seen, bodies, at))
  {
    if bodies != [] {
      ChangesHaveNone(seen, bodies[..|bodies| - 1], at);
    }
  }

  lemma {:induction false} BothHaveNone(a: seq<Item>, b: seq<Item>)
    requires NoneTold(a) && NoneTold(b)
    ensures NoneTold(a + b)
  {
    hide NoSecret;
  }

  lemma {:induction false} SnapshotIsDiscreet(s: ChangeState, c: Config, l: Listing, at: Time)
    requires Discreet(s)
    ensures Discreet(Snapshot(s, c, l, at))
  {
    var objects, end := Allowed(l.objects), ListingStatus(at, true, l.completed, l.failed, None);
    AllowedHasNone(l.objects);
    OverlayHasNone(map[], objects);
    ItemsHaveNone(objects, at);
    BothHaveNone([SnapshotBegin(at, None)], ObjectItems(objects, at));
    BothHaveNone([SnapshotBegin(at, None)] + ObjectItems(objects, at), EventItems(l.events, at));
    BothHaveNone([SnapshotBegin(at, None)] + ObjectItems(objects, at) + EventItems(l.events, at), [end]);
    BothHaveNone(s.b.log, SnapshotItems(l, at));
    hide NoneTold, NoneHeld, Allowed, Overlay, ObjectItems, EventItems, Incomplete, OverlayEvents;
  }

  lemma {:induction false} DeltaIsDiscreet(s: ChangeState, l: Listing, at: Time, order: seq<string>)
    requires Discreet(s)
    ensures Discreet(Delta(s, l, at, order))
  {
    hide NoSecret;
    var objects, end := Allowed(l.objects), ListingStatus(at, false, l.completed, l.failed, None);
    var changed, gone := ChangedItems(s.p.seen, objects, at), Deletions(order, at);
    var events := ChangedEventItems(s.p.eventsSeen, l.events, at);
    AllowedHasNone(l.objects);
    OverlayHasNone(s.p.seen, objects);
    ChangesHaveNone(s.p.seen, objects, at);
    BothHaveNone(changed, gone);
    BothHaveNone(changed + gone, events);
    BothHaveNone(changed + gone + events, [end]);
    BothHaveNone(s.b.log, DeltaItems(s.p, l, at, order));
    FewerHaveNone(Overlay(s.p.seen, objects), DeltaDoomed(s.p, l));
    hide NoneTold, NoneHeld, Allowed, Overlay, ChangedItems, ChangedEventItems, DeltaDoomed, OverlayEvents, Deletions;
  }

  lemma {:induction false} FewerHaveNone(bodies: map<string, Body>, gone: set<string>)
    requires NoneHeld(bodies)
    ensures NoneHeld(bodies - gone)
  {
  }

  lemma {:induction false} PollIsDiscreet(s: ChangeState, c: Config, listed: Listed, at: Time, force: bool,
                                          declare: bool, order: seq<string>)
    requires Discreet(s)
    ensures Discreet(Poll(s, c, listed, at, force, declare, order))
  {
    if listed.Listed? {
      SnapshotIsDiscreet(s, c, listed.listing, at);
      DeltaIsDiscreet(s, listed.listing, at, order);
    }
    BothHaveNone(s.b.log, [GlobalGap(s.p, at, BackendUnreachable)]);
    hide NoneTold, NoneHeld, Snapshot, Delta, PollSucceeds, TakesSnapshot;
  }

  lemma {:induction false} RelistHasNone(scope: Scope, r: Relisted, now: Time)
    requires r.Relisted? && NoneTold(ObjectItems(Allowed(r.bodies), now))
    ensures NoneTold(RelistItems(scope, r, now))
  {
    hide NoSecret, Allowed;
    var body := if scope.kind == "Event" then EventItems(r.bodies, now) else ObjectItems(Allowed(r.bodies), now);
    var items := RelistItems(scope, r, now);
    hide ObjectItems, EventItems;
    forall i | 0 <= i < |items| && items[i].ObjectItem? ensures NoSecret(items[i].body) {
      assert 0 < i < |items| - 1 && items[i] == body[i - 1];
    }
  }

  lemma {:induction false} RelistIsDiscreet(s: ChangeState, scope: Scope, r: Relisted, now: Time)
    requires Discreet(s)
    ensures Discreet(Relist(s, scope, r, now))
  {
    hide NoSecret, Allowed, Overlay, ObjectItems, OverlayEvents, ScopeOfKey, RelistItems;
    if r.Relisted? {
      AllowedHasNone(r.bodies);
      OverlayHasNone(SeenOutside(s.p.seen, scope), Allowed(r.bodies));
      ItemsHaveNone(Allowed(r.bodies), now);
      RelistHasNone(scope, r, now);
    }
  }

  lemma {:induction false} ExpiryIsDiscreet(s: ChangeState, c: Config, scope: Scope, generation: nat, listed: Listed,
                                            relisted: Relisted, now: Time)
    requires Discreet(s)
    ensures Discreet(WatchExpired(s, c, scope, generation, listed, relisted, now))
  {
    hide NoSecret, Poll, Relist;
    if generation == s.p.generation {
      var since := if scope in s.p.continuous then Some(s.p.continuous[scope]) else None;
      var scoped := s.(b := s.b.Append([Gap(now, ResourceVersionExpired, Some(scope), since)]));
      var declared := s.(b := s.b.Append([GlobalGap(s.p, now, ResourceVersionExpired)]));
      RelistIsDiscreet(scoped, scope, relisted, now);
      PollIsDiscreet(declared, c, listed, now, true, true, []);
    }
  }

  lemma {:induction false} EventIsDiscreet(s: ChangeState, scope: Scope, event: WatchEvent, generation: nat, now: Time)
    requires Discreet(s)
    ensures Discreet(ApplyWatchEvent(s, scope, event, generation, now))
  {
    hide ObjectKey, EventKey;
  }

  lemma {:induction false} StepIsDiscreet(w: World, step: Step)
    requires Enabled(w, step) && Discreet(w.s)
    ensures Discreet(Next(w, step).s)
  {
    hide NoSecret, TrueAnswer, TrueRelist, TrueEvent, CanEnd, CanOccur, Poll, Relist, WatchExpired, ApplyWatchEvent;
    match step {
      case Polls(a, force, declare, order, now) => PollIsDiscreet(w.s, w.config, a.listed, now, force, declare, order);
      case Expires(scope, a, relisted, now) =>
        ExpiryIsDiscreet(w.s, w.config, scope, w.watchers[scope].generation, a.listed, relisted, now);
      case Relists(scope, relisted, now) => RelistIsDiscreet(w.s, scope, relisted, now);
      case Delivers(scope, event, now) => EventIsDiscreet(w.s, scope, event, w.watchers[scope].generation, now);
      case _ =>
    }
  }

  predicate MirrorHasNone(m: Mirror) {
    && NoneHeld(m.objects) && (m.staging.Some? ==> NoneHeld(m.staging.value))
    && (m.relist.Some? ==> NoneHeld(m.relist.value.staged))
  }

  lemma {:induction false} ItemKeepsNone(m: Mirror, item: Item)
    requires MirrorHasNone(m) && (item.ObjectItem? ==> NoSecret(item.body))
    ensures MirrorHasNone(ApplyItem(m, item))
  {
    hide NoSecret, ObjectKey, WithoutFailure, InScope;
    match item {
      case ObjectItem(_, body) => hide EndStatus;
      case _ => hide ApplyObject;
    }
  }

  lemma {:induction false} FoldKeepsNone(m: Mirror, items: seq<Item>)
    requires MirrorHasNone(m) && NoneTold(items)
    ensures MirrorHasNone(Fold(m, items))
  {
    hide MirrorHasNone, ApplyItem;
    if items != [] {
      FoldKeepsNone(m, items[..|items| - 1]);
      ItemKeepsNone(Fold(m, items[..|items| - 1]), items[|items| - 1]);
    }
  }

  predicate AllDiscreet(x: System) {
    Discreet(x.w.s) && MirrorHasNone(x.r.mirror)
  }

  lemma {:induction false} ReadIsDiscreet(x: System, now: Time, start: Start, upto: nat, page: Page)
    requires AllDiscreet(x) && GoodRead(x, now, start, upto, page)
    ensures AllDiscreet(Advance(x, now, start, upto, page))
  {
    hide NoSecret, MirrorHasNone, Fold, GapsAmong, Entries, MakeCursor, Numbers, PutAll;
    var items := ItemsIn(Ordered(page));
    ReadIntoFields(x.r, page);
    ServedHaveNone(x, now, start, upto, page);
    FoldKeepsNone(x.r.mirror, items);
  }

  lemma {:induction false} ServedHaveNone(x: System, now: Time, start: Start, upto: nat, page: Page)
    requires NoneTold(x.w.s.b.log) && GoodRead(x, now, start, upto, page)
    ensures NoneTold(ItemsIn(Ordered(page)))
  {
    hide NoSecret, MakeCursor;
    var head, run := Synthetic(start.declared, now), Run(x.w.s.b.log, start.after, upto);
    var items := ItemsIn(head + run);
    forall i | 0 <= i < |items| && items[i].ObjectItem? ensures NoSecret(items[i].body) {
      assert i >= |head|;
      assert items[i] == run[i - |head|].item;
    }
  }

  lemma {:induction false} MoveIsDiscreet(x: System, move: Move)
    requires StreamOk(x.w) && PlaceOk(x) && AllDiscreet(x) && CanMove(x, move)
    ensures AllDiscreet(MoveTo(x, move))
  {
    hide Discreet, MirrorHasNone, Next, Enabled, Upto, TailSyncs;
    match move {
      case Produces(step) => StepIsDiscreet(x.w, step);
      case Forgets(_) =>
      case Reads(limit, now) =>
        if StartFor(x).Ok? {
          ReadIsGood(x, limit, now);
          ReadIsDiscreet(x, now, StartFor(x).value, Upto(x, limit), PageFor(x, limit, now).value);
        }
    }
  }

  /** Over every run of cluster, connector and reader, whatever the cluster lists or delivers: no Secret is among what
      the connector has seen, on its stream, or in the mirror. */
  lemma {:induction false} NoSecretIsTold(xs: seq<System>, moves: seq<Move>, i: nat)
    requires IsHistory(xs, moves) && i < |xs|
    ensures forall k :: k in xs[i].w.s.p.seen ==> xs[i].w.s.p.seen[k].kind != Some("Secret")
    ensures forall n :: 0 <= n < |xs[i].w.s.b.log| && xs[i].w.s.b.log[n].ObjectItem? ==>
              xs[i].w.s.b.log[n].body.kind != Some("Secret")
    ensures forall k :: k in xs[i].r.mirror.objects ==> xs[i].r.mirror.objects[k].kind != Some("Secret")
  {
    HistoryIsDiscreet(xs, moves, i);
  }

  lemma {:induction false} HistoryIsDiscreet(xs: seq<System>, moves: seq<Move>, i: nat)
    requires IsHistory(xs, moves) && i < |xs|
    ensures AllDiscreet(xs[i])
  {
    hide AllDiscreet, CanMove, MoveTo, TailSyncs;
    if i > 0 {
      HistoryIsDiscreet(xs, moves, i - 1);
      HistoryKeepsMirror(xs, moves, i - 1);
      MoveIsDiscreet(xs[i - 1], moves[i - 1]);
    } else {
      NothingTold(xs[0]);
    }
  }

  lemma {:induction false} NothingTold(x: System)
    requires Initial(x)
    ensures AllDiscreet(x)
  {
  }
}
