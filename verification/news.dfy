/** Only news is told: what a reconciliation and a watch put on the stream is exactly what differs from what was
    seen. */
module News {
  import opened Text
  import opened Wire
  import opened Streams
  import opened Producing
  import opened Picking

  function BodiesOf(items: seq<Item>): (bodies: seq<Body>)
    requires forall i :: 0 <= i < |items| ==> items[i].ObjectItem? || items[i].EventItem?
    ensures |bodies| == |items| && forall i :: 0 <= i < |items| ==> bodies[i] == items[i].body
  {
    seq(|items|, i requires 0 <= i < |items| => items[i].body)
  }

  /** The body has a key, and differs from what was seen of it last, in this listing or before. */
  function IsNews(seen: map<string, Body>, bodies: seq<Body>): nat -> bool {
    (k: nat) =>
      k < |bodies| && ObjectKey(bodies[k]).Some? &&
      var key := ObjectKey(bodies[k]).value;
      !(key in Overlay(seen, bodies[..k]) && Overlay(seen, bodies[..k])[key] == bodies[k])
  }

  lemma {:induction false} LastIsNews(seen: map<string, Body>, bodies: seq<Body>, at: Time)
    requires bodies != []
    ensures var n := |bodies| - 1;
            BodiesOf(ChangedItems(seen, bodies, at))
            == BodiesOf(ChangedItems(seen, bodies[..n], at)) + if IsNews(seen, bodies)(n) then [bodies[n]] else []
  {
    hide Overlay, ObjectKey;
  }

  lemma {:induction false} NewsInFront(seen: map<string, Body>, bodies: seq<Body>, n: nat, k: nat)
    requires k < n <= |bodies|
    ensures IsNews(seen, bodies[..n])(k) == IsNews(seen, bodies)(k)
  {
    assert bodies[..n][..k] == bodies[..k];
    hide Overlay, ObjectKey;
  }

  /** A reconciliation tells exactly the listed objects that are news, in their order. */
  lemma {:induction false} ChangedAreNews(seen: map<string, Body>, bodies: seq<Body>, at: Time)
    ensures Picks(bodies, BodiesOf(ChangedItems(seen, bodies, at)), IsNews(seen, bodies))
  {
    hide IsNews, Picks;
    if bodies == [] {
      PicksNothing<Body>(IsNews(seen, bodies));
      assert BodiesOf(ChangedItems(seen, bodies, at)) == [];
    } else {
      var front, last := bodies[..|bodies| - 1], bodies[|bodies| - 1];
      hide ChangedItems;
      ChangedAreNews(seen, front, at);
      LastIsNews(seen, bodies, at);
      forall k: nat | k < |front| ensures IsNews(seen, front)(k) == IsNews(seen, bodies)(k) {
        NewsInFront(seen, bodies, |front|, k);
      }
      PicksOneMore(front, BodiesOf(ChangedItems(seen, front, at)), IsNews(seen, front), last, IsNews(seen, bodies));
      assert front + [last] == bodies;
    }
  }

  function IsEventNews(seen: map<string, Body>, events: seq<Body>): nat -> bool {
    (k: nat) =>
      k < |events| &&
      !(EventKey(events[k]) in OverlayEvents(seen, events[..k])
        && OverlayEvents(seen, events[..k])[EventKey(events[k])] == events[k])
  }

  lemma {:induction false} LastEventIsNews(seen: map<string, Body>, events: seq<Body>, at: Time)
    requires events != []
    ensures var n := |events| - 1;
            BodiesOf(ChangedEventItems(seen, events, at))
            == BodiesOf(ChangedEventItems(seen, events[..n], at))
               + if IsEventNews(seen, events)(n) then [events[n]] else []
  {
    hide OverlayEvents, EventKey;
  }

  lemma {:induction false} EventNewsInFront(seen: map<string, Body>, events: seq<Body>, n: nat, k: nat)
    requires k < n <= |events|
    ensures IsEventNews(seen, events[..n])(k) == IsEventNews(seen, events)(k)
  {
    assert events[..n][..k] == events[..k];
    hide OverlayEvents, EventKey;
  }

  /** And exactly the listed Events that are. */
  lemma {:induction false} ChangedEventsAreNews(seen: map<string, Body>, events: seq<Body>, at: Time)
    ensures Picks(events, BodiesOf(ChangedEventItems(seen, events, at)), IsEventNews(seen, events))
  {
    hide IsEventNews, Picks;
    if events == [] {
      PicksNothing<Body>(IsEventNews(seen, events));
      assert BodiesOf(ChangedEventItems(seen, events, at)) == [];
    } else {
      var front, last := events[..|events| - 1], events[|events| - 1];
      hide ChangedEventItems;
      ChangedEventsAreNews(seen, front, at);
      LastEventIsNews(seen, events, at);
      forall k: nat | k < |front| ensures IsEventNews(seen, front)(k) == IsEventNews(seen, events)(k) {
        EventNewsInFront(seen, events, |front|, k);
      }
      PicksOneMore(front, BodiesOf(ChangedEventItems(seen, front, at)), IsEventNews(seen, front), last,
                   IsEventNews(seen, events));
      assert front + [last] == events;
    }
  }

  /** One watch event tells at most one item: nothing for a bookmark, a Secret or a body without a key; an Event or an
      object exactly if it differs from what was seen; a deletion exactly if the object was seen. */
  lemma {:induction false} WatchTellsNews(p: Producer, scope: Scope, event: WatchEvent, now: Time)
    ensures var items, body := ObservedItems(p, scope, event, now), event.body;
            if event.kind == Bookmark || body.kind == Some("Secret") then items == []
            else if scope.kind == "Event" then
              items == if EventKey(body) in p.eventsSeen && p.eventsSeen[EventKey(body)] == body then []
                       else [EventItem(now, body)]
            else if ObjectKey(body).None? then items == []
            else
              var key := ObjectKey(body).value;
              items == if event.kind == Deleted then
                         if key in p.seen then [ObjectDeleted(now, key, FromWatch)] else []
                       else if key in p.seen && p.seen[key] == body then [] else [ObjectItem(now, body)]
  {
    hide ObjectKey, EventKey;
  }

  function HasKey(bodies: seq<Body>): nat -> bool {
    (k: nat) => k < |bodies| && ObjectKey(bodies[k]).Some?
  }

  /** A snapshot and a relist tell every listed object that has a key, in their order. */
  lemma {:induction false} ListedAreTold(bodies: seq<Body>, at: Time)
    ensures Picks(bodies, BodiesOf(ObjectItems(bodies, at)), HasKey(bodies))
  {
    if bodies == [] {
      PicksNothing<Body>(HasKey(bodies));
      assert BodiesOf(ObjectItems(bodies, at)) == [];
    } else {
      var front, last := bodies[..|bodies| - 1], bodies[|bodies| - 1];
      ListedAreTold(front, at);
      PicksOneMore(front, BodiesOf(ObjectItems(front, at)), HasKey(front), last, HasKey(bodies));
      assert front + [last] == bodies;
      assert BodiesOf(ObjectItems(bodies, at))
          == BodiesOf(ObjectItems(front, at)) + if HasKey(bodies)(|front|) then [last] else [];
    }
  }

  function MayBeTold(bodies: seq<Body>): nat -> bool {
    (k: nat) => k < |bodies| && bodies[k].kind != Some("Secret")
  }

  /** Of what is listed, exactly the Secrets are left out. */
  lemma {:induction false} AllButSecrets(bodies: seq<Body>)
    ensures Picks(bodies, Allowed(bodies), MayBeTold(bodies))
  {
    if bodies == [] {
      PicksNothing<Body>(MayBeTold(bodies));
    } else {
      var front, last := bodies[..|bodies| - 1], bodies[|bodies| - 1];
      AllButSecrets(front);
      PicksOneMore(front, Allowed(front), MayBeTold(front), last, MayBeTold(bodies));
      assert front + [last] == bodies;
    }
  }
}
