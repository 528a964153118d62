/** The control plane's reader as the object it is: fields updated item by item as pages arrive. */
module ClusterReading {
  import opened Text
  import opened Wire
  import opened Streams
  import opened Paging
  import opened Mirrors
  import opened Trust
  import opened Following
  import opened Orders
  import opened Picking
  import opened Holdings

  /** What `list_objects` returns for the namespaces asked: bodies in the order of their keys, and the completeness
      claimed for them. */
  datatype ObjectListing = ObjectListing(objects: seq<Body>, completed: set<Scope>, failed: seq<Failure>)
  datatype Unavailable = ReadFailed(error: ReadError) | Blocked(since: Time) | NoSnapshot

  function KeysIn(objects: map<string, Body>, namespaces: set<string>): set<string> {
    set k | k in objects && NamespaceOfKey(k) in namespaces
  }

  function BodiesAt(objects: map<string, Body>, keys: seq<string>): (bodies: seq<Body>)
    requires forall k :: k in keys ==> k in objects
    ensures |bodies| == |keys| && forall i :: 0 <= i < |keys| ==> bodies[i] == objects[keys[i]]
  {
    seq(|keys|, i requires 0 <= i < |keys| => objects[keys[i]])
  }

  /** The objects of these namespaces, each once, sorted by key. */
  ghost predicate AreObjectsIn(bodies: seq<Body>, objects: map<string, Body>, namespaces: set<string>) {
    exists keys :: Ascending(LessText, keys, KeysIn(objects, namespaces))
                   && (forall k :: k in keys ==> k in objects) && bodies == BodiesAt(objects, keys)
  }

  /** That is one sequence. */
  lemma {:induction false} ObjectsInIsUnique(a: seq<Body>, b: seq<Body>, objects: map<string, Body>,
                                             namespaces: set<string>)
    requires AreObjectsIn(a, objects, namespaces) && AreObjectsIn(b, objects, namespaces)
    ensures a == b
  {
    var order :| Ascending(LessText, order, KeysIn(objects, namespaces))
                 && (forall k :: k in order ==> k in objects) && a == BodiesAt(objects, order);
    var other :| Ascending(LessText, other, KeysIn(objects, namespaces))
                 && (forall k :: k in other ==> k in objects) && b == BodiesAt(objects, other);
    TextIsTotal();
    AscendingIsUnique(LessText, order, other, KeysIn(objects, namespaces));
  }

  /** The bodies a mirror holds whose own namespace is asked for, each once; a body without one is the cluster's. */
  ghost predicate AreBodiesOf(bodies: seq<Body>, objects: map<string, Body>, namespaces: set<string>) {
    && (forall i, j :: 0 <= i < j < |bodies| ==> bodies[i] != bodies[j])
    && forall b :: b in bodies <==>
         b in objects.Values
         && (if b.namespace.None? || b.namespace.value == "" then "_cluster" else b.namespace.value) in namespaces
  }

  /** Asking by key is asking by the body's own namespace. */
  lemma {:induction false} ObjectsAreByNamespace(bodies: seq<Body>, objects: map<string, Body>, namespaces: set<string>)
    requires AreObjectsIn(bodies, objects, namespaces) && UnderOwnKeys(objects) && PlainNamespaces(objects)
    ensures AreBodiesOf(bodies, objects, namespaces)
  {
    var keys :| Ascending(LessText, keys, KeysIn(objects, namespaces))
                && (forall k :: k in keys ==> k in objects) && bodies == BodiesAt(objects, keys);
    TextIsTotal();
    forall i, j | 0 <= i < j < |bodies| ensures bodies[i] != bodies[j] {
      assert keys[i] in keys && keys[j] in keys && LessText(keys[i], keys[j]);
    }
    forall k | k in objects
      ensures k in keys <==> NamespaceText(objects[k]) in namespaces
    {
      KeyNamesItsNamespace(objects[k]);
      assert k in keys <==> k in KeysIn(objects, namespaces);
    }
    forall b ensures b in bodies <==> b in objects.Values && NamespaceText(b) in namespaces {
      if b in bodies {
        var i :| 0 <= i < |bodies| && bodies[i] == b;
        assert keys[i] in keys;
      }
      if b in objects.Values && NamespaceText(b) in namespaces {
        var k :| k in objects && objects[k] == b;
        var i :| 0 <= i < |keys| && keys[i] == k;
        assert bodies[i] == b;
      }
    }
  }

  function FailuresIn(failed: seq<Failure>, namespaces: set<string>): seq<Failure> {
    if failed == [] then []
    else FailuresIn(failed[..|failed| - 1], namespaces)
         + if failed[|failed| - 1].scope.namespace in namespaces then [failed[|failed| - 1]] else []
  }

  function Wanted(failed: seq<Failure>, namespaces: set<string>): nat -> bool {
    (i: nat) => i < |failed| && failed[i].scope.namespace in namespaces
  }

  /** The failures of the namespaces asked for, all of them and in their order. */
  lemma {:induction false} FailuresArePicked(failed: seq<Failure>, namespaces: set<string>)
    ensures Picks(failed, FailuresIn(failed, namespaces), Wanted(failed, namespaces))
  {
    if failed == [] {
      PicksNothing<Failure>(Wanted(failed, namespaces));
    } else {
      var front, last := failed[..|failed| - 1], failed[|failed| - 1];
      FailuresArePicked(front, namespaces);
      PicksOneMore(front, FailuresIn(front, namespaces), Wanted(front, namespaces), last, Wanted(failed, namespaces));
      assert front + [last] == failed;
    }
  }

  lemma {:induction false} FailuresAreIn(failed: seq<Failure>, namespaces: set<string>, failure: Failure)
    ensures failure in FailuresIn(failed, namespaces) <==> failure in failed && failure.scope.namespace in namespaces
  {
    if failed != [] {
      FailuresAreIn(failed[..|failed| - 1], namespaces, failure);
      assert failed == failed[..|failed| - 1] + [failed[|failed| - 1]];
    }
  }

  /** Everything a reader holds after reading a declared gap and then the run up to `upto`. */
  function Drained(r: Reader, b: Buffer, start: Start, upto: nat, now: Time): Reader
    requires start.after <= upto <= |b.log|
  {
    ApplyAll(Entering(r, b.epoch), Synthetic(start.declared, now) + Run(b.log, start.after, upto))
      .(cursor := Some(MakeCursor(b.epoch, upto)))
  }

  class StreamedClusterReader {
    const limit: nat
    var cursor: Option<string>
    var objects: map<string, Body>
    var staging: Option<map<string, Body>>
    var events: map<string, Body>
    var completed: set<Scope>
    var failed: seq<Failure>
    var ready: bool
    var blocked: Option<Time>
    var gapped: set<Scope>
    var scopeStaging: Option<HalfRelist>
    var applied: nat
    var connectorTime: Option<Time>
    var followedSince: Option<Time>
    var streamGaps: seq<Item>
    var epoch: Option<string>
    var firstSeq: Option<nat>
    var lastSeq: Option<nat>
    ghost var history: seq<Item>

    ghost function MirrorView(): Mirror
      reads this
    {
      Mirror(objects, staging, events, completed, failed, ready, blocked, gapped, scopeStaging)
    }

    ghost function View(): Reader
      reads this
    {
      Reader(MirrorView(), cursor, epoch, Place(firstSeq, lastSeq, followedSince, connectorTime), streamGaps, applied)
    }

    /** The mirror is the fold of every item ever applied. */
    ghost predicate Valid()
      reads this
    {
      MirrorView() == Fold(EMPTY, history)
    }

    constructor (limit: nat)
      ensures Valid() && View() == NEW_READER && this.limit == limit && history == []
    {
      this.limit := limit;
      cursor, objects, staging, events := None, map[], None, map[];
      completed, failed, ready, blocked, gapped, scopeStaging := {}, [], false, None, {}, None;
      applied, connectorTime, followedSince, streamGaps := 0, None, None, [];
      epoch, firstSeq, lastSeq, history := None, None, None, [];
    }

    ghost function PlaceView(): Place
      reads this
    {
      Place(firstSeq, lastSeq, followedSince, connectorTime)
    }

    /** The item's instant, and its number if it is a buffered item. */
    method Note(n: Numbered)
      modifies this`connectorTime, this`firstSeq, this`followedSince, this`lastSeq
      ensures PlaceView() == Put(old(PlaceView()), n)
    {
      var stamp := StampOf(n.item);
      if stamp.Some? && (connectorTime.None? || stamp.value > connectorTime.value) {
        connectorTime := stamp;
      }
      if n.seqNo > 0 {
        if firstSeq.None? && stamp.Some? {
          firstSeq, followedSince := Some(n.seqNo), stamp;
        }
        lastSeq := Some(n.seqNo);
      }
    }

    /** Where the item stands in the stream, then, unless it is a heartbeat, what it says. */
    method Apply(n: Numbered)
      requires Valid()
      modifies this
      ensures Valid() && View() == Following.Apply(old(View()), n)
      ensures history == old(history) + [n.item]
    {
      hide Fold, ApplyItem, Put, StampOf;
      FoldLast(history, n.item);
      Note(n);
      if !n.item.ChangeHeartbeat? {
        Tell(n.item);
      }
      history := history + [n.item];
    }

    method Tell(item: Item)
      modifies this`objects, this`staging, this`events, this`completed, this`failed, this`ready, this`blocked,
               this`gapped, this`scopeStaging, this`applied, this`streamGaps
      ensures View() == Told(old(View()), item)
    {
      hide ApplyItem;
      applied := applied + 1;
      if item.Gap? {
        streamGaps := streamGaps + [item];
      }
      ApplyContent(item);
    }

    method ApplyContent(item: Item)
      modifies this`objects, this`staging, this`events, this`completed, this`failed, this`ready, this`blocked,
               this`gapped, this`scopeStaging
      ensures MirrorView() == ApplyItem(old(MirrorView()), item)
    {
      match item
      case Gap(at, reason, scope, _) =>
        if scope.Some? {
          gapped := gapped + {scope.value};
        } else if reason == BackendUnreachable {
          blocked := Some(at);
        } else {
          ready := false;
        }
      case SnapshotBegin(_, scope) =>
        if scope.Some? {
          scopeStaging := Some(HalfRelist(scope.value, map[]));
        } else {
          staging := Some(map[]);
          gapped, scopeStaging := {}, None;
        }
      case ObjectItem(_, body) => ApplyObjectBody(body);
      case ObjectDeleted(_, key, _) => objects := objects - {key};
      case EventItem(_, body) => events := events[EventKey(body) := body];
      case ListingStatus(_, snapshot, nowCompleted, nowFailed, scope) =>
        if snapshot && scope.Some? {
          EndScopeSnapshot(scope.value, nowCompleted);
        } else {
          EndListingStatus(snapshot, nowCompleted, nowFailed);
        }
      case _ =>
    }

    method ApplyObjectBody(body: Body)
      modifies this`objects, this`staging, this`scopeStaging
      ensures MirrorView() == ApplyObject(old(MirrorView()), body)
    {
      var key := ObjectKey(body);
      if key.None? {
        return;
      }
      if scopeStaging.Some? && ScopeOfKey(key.value) == Some(scopeStaging.value.scope) {
        scopeStaging := Some(scopeStaging.value.(staged := scopeStaging.value.staged[key.value := body]));
        return;
      }
      if staging.Some? {
        staging := Some(staging.value[key.value := body]);
      } else {
        objects := objects[key.value := body];
      }
    }

    /** The scope's content is what was listed; an object no longer listed is gone. */
    method EndScopeSnapshot(scope: Scope, nowCompleted: set<Scope>)
      modifies this`objects, this`gapped, this`completed, this`failed, this`scopeStaging
      ensures MirrorView() == EndRelist(old(MirrorView()), scope, nowCompleted)
    {
      if scopeStaging.None? || scopeStaging.value.scope != scope {
        return;
      }
      var staged := scopeStaging.value.staged;
      scopeStaging := None;
      if scope !in nowCompleted {
        return;
      }
      if scope.kind != "Event" {
        objects := WithoutScope(objects, scope) + staged;
      }
      gapped := gapped - {scope};
      completed := completed + {scope};
      failed := FailuresOutside(failed, scope);
    }

    static method FailuresOutside(failed: seq<Failure>, scope: Scope) returns (kept: seq<Failure>)
      ensures kept == WithoutFailure(failed, scope)
    {
      kept := [];
      for i := 0 to |failed|
        invariant kept == WithoutFailure(failed[..i], scope)
      {
        assert failed[..i + 1][..i] == failed[..i];
        if failed[i].scope != scope {
          kept := kept + [failed[i]];
        }
      }
      assert failed[..|failed|] == failed;
    }

    method EndListingStatus(snapshot: bool, nowCompleted: set<Scope>, nowFailed: seq<Failure>)
      modifies this`objects, this`staging, this`completed, this`failed, this`ready, this`blocked
      ensures MirrorView() == EndListing(old(MirrorView()), snapshot, nowCompleted, nowFailed)
    {
      if snapshot {
        if staging.None? {
          return;
        }
        objects, staging := staging.value, None;
      } else if !ready {
        return;
      }
      completed, failed := nowCompleted, nowFailed;
      ready, blocked := true, None;
    }

    /** Another connector run is a new stream, followed from its first item read. */
    method Enter(page: Page)
      modifies this`epoch, this`firstSeq, this`lastSeq, this`followedSince
      ensures View() == Entering(old(View()), page.epoch)
    {
      if epoch != Some(page.epoch) {
        epoch, firstSeq, lastSeq, followedSince := Some(page.epoch), None, None, None;
      }
    }

    method ApplyInOrder(ns: seq<Numbered>)
      requires Valid()
      modifies this
      ensures Valid() && View() == ApplyAll(old(View()), ns)
      ensures history == old(history) + ItemsIn(ns)
    {
      hide ApplyAll, Following.Apply, Fold;
      AppliedNone(View(), ns);
      for i := 0 to |ns|
        invariant Valid() && View() == ApplyAll(old(View()), ns[..i])
        invariant history == old(history) + ItemsIn(ns[..i])
      {
        AppliedOneMore(old(View()), ns, i);
        Apply(ns[i]);
        assert ItemsIn(ns[..i + 1]) == ItemsIn(ns[..i]) + [ns[i].item];
      }
      assert ns[..|ns|] == ns;
    }

    method ApplyPage(page: Page)
      requires Valid()
      modifies this
      ensures Valid() && View() == ReadInto(old(View()), page)
      ensures history == old(history) + ItemsIn(Ordered(page))
    {
      Enter(page);
      var ns := Ordered(page);
      ApplyInOrder(ns);
      cursor := Some(page.nextCursor);
    }

    /** One page from the buffer: whether the stream is exhausted. */
    method ReadOnce(buffer: StreamBuffer, now: Time) returns (r: Result<bool, ReadError>)
      requires Valid() && buffer.Valid() && limit > 0 && buffer.Contents().BaselineInLog()
      requires StartInLog(buffer.Contents(), cursor)
      modifies this
      ensures Valid()
      ensures var b, start := buffer.Contents(), StartOf(buffer.Contents(), old(cursor), true);
              if start.Err? then r == Err(start.error) && View() == old(View()) && history == old(history)
              else
                var upto := start.value.after + |Served(b, start.value, limit)|;
                && r.Ok? && upto <= |b.log| && View() == Drained(old(View()), b, start.value, upto, now)
                && (if r.value then upto == |b.log| else start.value.after < upto)
    {
      ghost var b := buffer.Contents();
      var page := buffer.Read(cursor, limit, true, now);
      if page.Err? {
        return Err(page.error);
      }
      var exhausted := TakePage(page.value, b, now);
      assert buffer.Contents() == b;
      r := Ok(exhausted);
    }

    /** Apply a page of this buffer: whether it was the last. */
    method TakePage(page: Page, ghost b: Buffer, now: Time) returns (exhausted: bool)
      requires Valid() && limit > 0 && b.BaselineInLog() && StartInLog(b, cursor)
      requires ReadPage(b, cursor, limit, true, now) == Ok(page)
      modifies this
      ensures Valid()
      ensures var start := StartOf(b, old(cursor), true).value;
              var upto := start.after + |Served(b, start, limit)|;
              && upto <= |b.log| && View() == Drained(old(View()), b, start, upto, now)
              && (if exhausted then upto == |b.log| else start.after < upto)
    {
      PageDrains(View(), b, limit, page, now);
      ApplyPage(page);
      exhausted := Exhausted(page, limit);
    }

    /** Read page after page until the stream is exhausted. Against a buffer nobody changes this ends for every page
        limit, at the end of the buffer, and the pages together are one read of everything from where the reader had to
        start. */
    method Drain(buffer: StreamBuffer, ghost position: nat, now: Time) returns (error: Option<ReadError>)
      requires Valid() && buffer.Valid() && limit > 0 && buffer.epoch != "" && buffer.Contents().BaselineInLog()
      requires Placed(View(), position) && (epoch == Some(buffer.epoch) ==> position <= |buffer.log|)
      modifies this
      ensures Valid()
      ensures var start := StartOf(buffer.Contents(), old(cursor), true);
              if start.Err? then error == Some(start.error) && View() == old(View()) && history == old(history)
              else error.None? && start.value.after <= |buffer.log|
                   && View() == Drained(old(View()), buffer.Contents(), start.value, |buffer.log|, now)
                   && Placed(View(), |buffer.log|)
    {
      hide Fold, ApplyAll, ReadPage, Run, Synthetic, Served;
      ghost var b, before := buffer.Contents(), View();
      ghost var start := StartOf(b, cursor, true);
      StartIsInLog(b, before, position);
      var page := ReadOnce(buffer, now);
      if page.Err? {
        return Some(page.error);
      }
      if !page.value {
        DrainOn(buffer, before, start.value, start.value.after + |Served(b, start.value, limit)|, now);
      }
      DrainedIsPlaced(before, b, start.value, now);
      error := None;
    }

    /** The rest of a drain, once the first page is read. */
    method DrainOn(buffer: StreamBuffer, ghost before: Reader, ghost start: Start, ghost upto: nat, now: Time)
      requires Valid() && buffer.Valid() && limit > 0 && buffer.epoch != "" && buffer.Contents().BaselineInLog()
      requires buffer.Contents().First() <= start.after + 1 && start.after <= upto <= |buffer.log|
      requires View() == Drained(before, buffer.Contents(), start, upto, now)
      modifies this
      ensures Valid() && View() == Drained(before, buffer.Contents(), start, |buffer.log|, now)
    {
      ghost var b, reached := buffer.Contents(), upto;
      var more := true;
      while more
        invariant Valid() && buffer.Valid() && buffer.Contents() == b && start.after <= reached <= |b.log|
        invariant View() == Drained(before, b, start, reached, now)
        invariant !more ==> reached == |b.log|
        decreases |b.log| - reached, more
      {
        more, reached := ReadMore(buffer, before, start, reached, now);
      }
    }

    /** One more page of a drain. */
    method ReadMore(buffer: StreamBuffer, ghost before: Reader, ghost start: Start, ghost upto: nat, now: Time)
      returns (more: bool, ghost next: nat)
      requires Valid() && buffer.Valid() && limit > 0 && buffer.epoch != "" && buffer.Contents().BaselineInLog()
      requires buffer.Contents().First() <= start.after + 1 && start.after <= upto <= |buffer.log|
      requires View() == Drained(before, buffer.Contents(), start, upto, now)
      modifies this
      ensures Valid() && upto <= next <= |buffer.log|
      ensures View() == Drained(before, buffer.Contents(), start, next, now)
      ensures if more then upto < next else next == |buffer.log|
    {
      hide Fold, ApplyAll, ReadPage;
      ghost var b := buffer.Contents();
      ContinuesAfter(b, upto);
      assert cursor == Some(MakeCursor(b.epoch, upto));
      assert StartOf(b, cursor, true) == Ok(Start(upto, None));
      ghost var reached := View();
      var page := ReadOnce(buffer, now);
      assert buffer.Contents() == b;
      next := upto + |Served(b, Start(upto, None), limit)|;
      assert View() == Drained(reached, b, Start(upto, None), next, now);
      DrainedFurther(before, b, start, upto, next, now);
      more := page == Ok(false);
    }

    /** The completeness and content last declared for these namespaces, or why nothing may be answered. What the reader
        may claim is decided by its fields, and says exactly this about the items it read. */
    method ListObjects(buffer: StreamBuffer, ghost position: nat, now: Time, namespaces: set<string>)
      returns (r: Result<ObjectListing, Unavailable>)
      requires Valid() && buffer.Valid() && limit > 0 && buffer.epoch != "" && buffer.Contents().BaselineInLog()
      requires Placed(View(), position) && (epoch == Some(buffer.epoch) ==> position <= |buffer.log|)
      modifies this
      ensures Valid()
      ensures var b, start := buffer.Contents(), StartOf(buffer.Contents(), old(cursor), true);
              if start.Err? then r == Err(ReadFailed(start.error)) && View() == old(View())
              else
                && start.value.after <= |b.log| && View() == Drained(old(View()), b, start.value, |b.log|, now)
                && (r.Ok? <==> MayAnswer(history))
                && (r.Ok? ==> Answers(r.value, history, objects, failed, namespaces))
                && (r.Err? ==> Excuses(r.error, history))
    {
      var error := Drain(buffer, position, now);
      if error.Some? {
        return Err(ReadFailed(error.value));
      }
      r := Current(namespaces);
    }

    /** The answer of a reader that has read everything there is. */
    method Current(namespaces: set<string>) returns (r: Result<ObjectListing, Unavailable>)
      requires Valid()
      ensures r.Ok? <==> MayAnswer(history)
      ensures r.Ok? ==> Answers(r.value, history, objects, failed, namespaces)
      ensures r.Err? ==> Excuses(r.error, history)
    {
      hide Fold, MayAnswer, MayClaim, AreObjectsIn, KeysIn, Ascending, LessText, Answers;
      DecidedByHistory(history);
      if blocked.Some? {
        BlockedExactly(history, blocked.value);
        return Err(Blocked(blocked.value));
      }
      if !ready || staging.Some? {
        return Err(NoSnapshot);
      }
      TextIsTotal();
      var keys := Sorted(LessText, KeysIn(objects, namespaces));
      SortedAreObjects(objects, namespaces, keys);
      var listing := ObjectListing(BodiesAt(objects, keys),
                                   (set s | s in completed && s.namespace in namespaces && s !in gapped),
                                   FailuresIn(failed, namespaces));
      AnswerIsRight(listing, history, objects, failed, namespaces);
      r := Ok(listing);
    }

    /** How far the stream has been followed, once anything was read. */
    method PositionReached() returns (position: Option<Position>)
      ensures position == StreamPosition(View())
    {
      if epoch.None? || firstSeq.None? || lastSeq.None? || followedSince.None? {
        return None;
      }
      position := Some(Position(epoch.value, firstSeq.value, lastSeq.value, followedSince.value));
    }

    /** The change-stream gaps read and not yet recorded. */
    method Gaps() returns (gaps: seq<Item>)
      ensures gaps == View().gaps
    {
      gaps := streamGaps;
    }

    method ForgetGaps(count: nat)
      requires Valid()
      modifies this`streamGaps
      ensures Valid()
      ensures var gaps := old(View().gaps);
              View() == old(View()).(gaps := gaps[if count < |gaps| then count else |gaps|..])
    {
      streamGaps := streamGaps[if count < |streamGaps| then count else |streamGaps|..];
    }
  }

  /** A snapshot has finished since the last loss that needs one, none is half read, and a listing has been accepted
      since the last failed read of the cluster. */
  ghost predicate MayAnswer(history: seq<Item>) {
    Rebuilt(history, |history|) && !SnapshotOpen(history, |history|) && Reached(history, |history|)
  }

  /** The scope's latest listing was complete, and no gap of it is open. */
  ghost predicate MayClaim(history: seq<Item>, scope: Scope) {
    ListedComplete(history, |history|, scope) && !GapOpen(history, |history|, scope)
  }

  /** The latest listing accepted reported the failure, and its scope was not relisted since. */
  ghost predicate MayBlame(history: seq<Item>, failure: Failure) {
    ListedFailed(history, |history|, failure)
  }

  /** The answer for these namespaces: the objects sorted by key, which are the bodies whose own namespace is asked for
      unless some namespace read holds a slash; the scopes listed completely with no gap open; and the failures of the
      latest listing, in its order. */
  ghost predicate Answers(r: ObjectListing, history: seq<Item>, objects: map<string, Body>, failed: seq<Failure>,
                          namespaces: set<string>) {
    && AreObjectsIn(r.objects, objects, namespaces)
    && (PlainItems(history) ==> AreBodiesOf(r.objects, objects, namespaces))
    && (forall s :: s in r.completed <==> s.namespace in namespaces && MayClaim(history, s))
    && r.failed == FailuresIn(failed, namespaces)
    && forall f :: f in r.failed <==> f.scope.namespace in namespaces && MayBlame(history, f)
  }

  /** Why nothing is answered: the cluster was out of reach since the latest failed read, or, when it was reached since,
      there is no snapshot to answer from. */
  ghost predicate Excuses(error: Unavailable, history: seq<Item>) {
    if Reached(history, |history|) then error == NoSnapshot
    else error.Blocked? && UnreachedSince(history, |history|, error.since)
  }

  lemma {:induction false} AnswerIsRight(r: ObjectListing, history: seq<Item>, objects: map<string, Body>,
                                         failed: seq<Failure>, namespaces: set<string>)
    requires objects == Fold(EMPTY, history).objects && failed == Fold(EMPTY, history).failed
    requires AreObjectsIn(r.objects, objects, namespaces) && r.failed == FailuresIn(failed, namespaces)
    requires forall s :: s in r.completed <==> s.namespace in namespaces && MayClaim(history, s)
    ensures Answers(r, history, objects, failed, namespaces)
  {
    hide Fold, AreObjectsIn, AreBodiesOf, MayClaim, PlainItem, FailuresIn, UnderOwnKeys, PlainNamespaces;
    FoldHoldsOwn(history);
    if PlainItems(history) {
      FoldHoldsPlain(history);
      ObjectsAreByNamespace(r.objects, objects, namespaces);
    }
    forall f ensures f in r.failed <==> f.scope.namespace in namespaces && MayBlame(history, f) {
      FailuresAreIn(failed, namespaces, f);
      FailsExactly(history, f);
    }
  }

  /** What the fields of a mirror say is decided by what was folded into it. */
  lemma {:induction false} DecidedByHistory(history: seq<Item>)
    ensures var m := Fold(EMPTY, history);
            && (MayAnswer(history) <==> m.blocked.None? && m.ready && m.staging.None?)
            && (Reached(history, |history|) <==> m.blocked.None?)
            && forall s :: s in m.completed && s !in m.gapped <==> MayClaim(history, s)
  {
    ServesExactly(history);
    HistoryExplains(history, |history|);
    assert history[..|history|] == history;
    forall s
      ensures s in Fold(EMPTY, history).completed && s !in Fold(EMPTY, history).gapped <==> MayClaim(history, s)
    {
      ClaimsExactly(history, s);
    }
  }

  lemma {:induction false} SortedAreObjects(objects: map<string, Body>, namespaces: set<string>, keys: seq<string>)
    requires Ascending(LessText, keys, KeysIn(objects, namespaces))
    ensures (forall k :: k in keys ==> k in objects) && AreObjectsIn(BodiesAt(objects, keys), objects, namespaces)
  {
    assert forall k :: k in keys ==> k in KeysIn(objects, namespaces);
  }

  predicate StartInLog(b: Buffer, cursor: Option<string>) {
    var start := StartOf(b, cursor, true);
    start.Ok? ==> start.value.after <= |b.log|
  }

  lemma {:induction false} FoldLast(history: seq<Item>, item: Item)
    ensures Fold(EMPTY, history + [item]) == ApplyItem(Fold(EMPTY, history), item)
    ensures item.ChangeHeartbeat? ==> Fold(EMPTY, history + [item]) == Fold(EMPTY, history)
  {
    assert (history + [item])[..|history|] == history;
  }

  lemma {:induction false} AppliedNone(r: Reader, ns: seq<Numbered>)
    ensures ApplyAll(r, ns[..0]) == r && ItemsIn(ns[..0]) == []
  {
  }

  lemma {:induction false} AppliedOneMore(r: Reader, ns: seq<Numbered>, i: nat)
    requires i < |ns|
    ensures ApplyAll(r, ns[..i + 1]) == Following.Apply(ApplyAll(r, ns[..i]), ns[i])
  {
    assert ns[..i + 1][..i] == ns[..i];
  }

  predicate Placed(r: Reader, position: nat) {
    && (r.epoch.None? <==> r.cursor.None?)
    && (r.epoch.Some? ==> r.epoch.value != "" && r.cursor == Some(MakeCursor(r.epoch.value, position)))
  }

  lemma {:induction false} StartIsInLog(b: Buffer, r: Reader, position: nat)
    requires b.BaselineInLog() && Placed(r, position) && (r.epoch == Some(b.epoch) ==> position <= |b.log|)
    ensures StartInLog(b, r.cursor)
  {
    if r.epoch.Some? {
      CursorRoundTrip(r.epoch.value, position);
    }
  }

  lemma {:induction false} DrainedIsPlaced(r: Reader, b: Buffer, start: Start, now: Time)
    requires start.after <= |b.log| && b.epoch != ""
    ensures Placed(Drained(r, b, start, |b.log|, now), |b.log|)
  {
    ApplyAllContent(Entering(r, b.epoch), Synthetic(start.declared, now) + Run(b.log, start.after, |b.log|));
  }

  lemma {:induction false} ContinuesAfter(b: Buffer, upto: nat)
    requires b.epoch != "" && b.First() <= upto + 1
    ensures StartOf(b, Some(MakeCursor(b.epoch, upto)), true) == Ok(Start(upto, None))
  {
    CursorRoundTrip(b.epoch, upto);
  }

  lemma {:induction false} PageIsRun(b: Buffer, cursor: Option<string>, limit: nat, now: Time)
    requires ReadPage(b, cursor, limit, true, now).Ok? && limit > 0 && b.BaselineInLog()
    requires StartOf(b, cursor, true).value.after <= |b.log|
    ensures var page, start := ReadPage(b, cursor, limit, true, now).value, StartOf(b, cursor, true).value;
            var upto := start.after + |Served(b, start, limit)|;
            && upto <= |b.log| && page.epoch == b.epoch && page.nextCursor == MakeCursor(b.epoch, upto)
            && Ordered(page) == Synthetic(start.declared, now) + Run(b.log, start.after, upto)
            && (if Exhausted(page, limit) then upto == |b.log| else start.after < upto)
  {
    hide Ordered, ItemsOf, GapsOf, MakeCursor, StartOf;
    PagingIsLossless(b, cursor, limit, true, now);
    ExhaustedMeansAtTheEnd(b, cursor, limit, true, now);
  }

  lemma {:induction false} PageDrains(r: Reader, b: Buffer, limit: nat, page: Page, now: Time)
    requires ReadPage(b, r.cursor, limit, true, now) == Ok(page) && limit > 0 && b.BaselineInLog()
    requires StartOf(b, r.cursor, true).value.after <= |b.log|
    ensures var start := StartOf(b, r.cursor, true).value;
            var upto := start.after + |Served(b, start, limit)|;
            && upto <= |b.log| && ReadInto(r, page) == Drained(r, b, start, upto, now)
            && (if Exhausted(page, limit) then upto == |b.log| else start.after < upto)
  {
    hide ReadPage, StartOf, Served, Exhausted, Ordered, Run, Synthetic, MakeCursor, ApplyAll, Entering;
    PageIsRun(b, r.cursor, limit, now);
  }

  lemma {:induction false} CursorAside(r: Reader, ns: seq<Numbered>, cursor: Option<string>)
    ensures ApplyAll(r.(cursor := cursor), ns) == ApplyAll(r, ns).(cursor := cursor)
  {
    if ns != [] {
      CursorAside(r, ns[..|ns| - 1], cursor);
    }
  }

  lemma {:induction false} RunsJoin(head: seq<Numbered>, log: seq<Item>, after: nat, upto: nat, next: nat)
    requires after <= upto <= next <= |log|
    ensures (head + Run(log, after, upto)) + Run(log, upto, next) == head + Run(log, after, next)
  {
  }

  /** One more page after what has been drained is a longer drain. */
  lemma {:induction false} DrainedFurther(r: Reader, b: Buffer, start: Start, upto: nat, next: nat, now: Time)
    requires start.after <= upto <= next <= |b.log|
    ensures Drained(Drained(r, b, start, upto, now), b, Start(upto, None), next, now) == Drained(r, b, start, next, now)
  {
    var entered, head := Entering(r, b.epoch), Synthetic(start.declared, now);
    var first, more := head + Run(b.log, start.after, upto), Run(b.log, upto, next);
    var reached := ApplyAll(entered, first);
    assert reached.epoch == Some(b.epoch) by {
      ApplyAllContent(entered, first);
    }
    assert ApplyAll(entered, head + Run(b.log, start.after, next)) == ApplyAll(reached, more) by {
      RunsJoin(head, b.log, start.after, upto, next);
      ApplyAllConcat(entered, first, more);
    }
    CursorAside(reached, more, Some(MakeCursor(b.epoch, upto)));
    assert Synthetic(None, now) + more == more;
  }
}
