/** The control plane's mirror of the cluster as a fold over stream items, and why a snapshot makes the fold forget. */
module Mirrors {
  import opened Text
  import opened Wire

  datatype HalfRelist = HalfRelist(scope: Scope, staged: map<string, Body>)

  datatype Mirror = Mirror(
    objects: map<string, Body>,
    staging: Option<map<string, Body>>,
    events: map<string, Body>,
    completed: set<Scope>,
    failed: seq<Failure>,
    ready: bool,
    blocked: Option<Time>,
    gapped: set<Scope>,
    relist: Option<HalfRelist>)

  const EMPTY := Mirror(map[], None, map[], {}, [], false, None, {}, None)

  predicate InScope(key: string, scope: Scope) {
    ScopeOfKey(key) == Some(scope)
  }

  function WithoutScope(objects: map<string, Body>, scope: Scope): map<string, Body> {
    map k | k in objects && !InScope(k, scope) :: objects[k]
  }

  function WithoutFailure(failed: seq<Failure>, scope: Scope): seq<Failure> {
    if failed == [] then []
    else WithoutFailure(failed[..|failed| - 1], scope)
         + if failed[|failed| - 1].scope == scope then [] else [failed[|failed| - 1]]
  }

  function ApplyObject(m: Mirror, body: Body): Mirror {
    var key := ObjectKey(body);
    if key.None? then m
    else if m.relist.Some? && InScope(key.value, m.relist.value.scope) then
      m.(relist := Some(m.relist.value.(staged := m.relist.value.staged[key.value := body])))
    else if m.staging.Some? then m.(staging := Some(m.staging.value[key.value := body]))
    else m.(objects := m.objects[key.value := body])
  }

  /** The end of one scope's relist: its content replaces the scope, unless it has no begin or did not complete. */
  function EndRelist(m: Mirror, scope: Scope, completed: set<Scope>): Mirror {
    if m.relist.None? || m.relist.value.scope != scope then m
    else if scope !in completed then m.(relist := None)
    else m.(relist := None,
            objects := if scope.kind == "Event" then m.objects
                       else WithoutScope(m.objects, scope) + m.relist.value.staged,
            gapped := m.gapped - {scope},
            completed := m.completed + {scope},
            failed := WithoutFailure(m.failed, scope))
  }

  function EndListing(m: Mirror, snapshot: bool, completed: set<Scope>, failed: seq<Failure>): Mirror {
    if snapshot && m.staging.None? then m
    else if !snapshot && !m.ready then m
    else
      var listed := if snapshot then m.(objects := m.staging.value, staging := None) else m;
      listed.(completed := completed, failed := failed, ready := true, blocked := None)
  }

  function EndStatus(m: Mirror, snapshot: bool, completed: set<Scope>, failed: seq<Failure>,
                     scope: Option<Scope>): Mirror {
    if snapshot && scope.Some? then EndRelist(m, scope.value, completed) else EndListing(m, snapshot, completed, failed)
  }

  function ApplyItem(m: Mirror, item: Item): Mirror {
    match item
    case Gap(at, reason, scope, _) =>
      if scope.Some? then m.(gapped := m.gapped + {scope.value})
      else if reason == BackendUnreachable then m.(blocked := Some(at))
      else m.(ready := false)
    case SnapshotBegin(_, scope) =>
      if scope.Some? then m.(relist := Some(HalfRelist(scope.value, map[])))
      else m.(staging := Some(map[]), gapped := {}, relist := None)
    case ObjectItem(_, body) => ApplyObject(m, body)
    case ObjectDeleted(_, key, _) => m.(objects := m.objects - {key})
    case EventItem(_, body) => m.(events := m.events[EventKey(body) := body])
    case ListingStatus(_, snapshot, completed, failed, scope) => EndStatus(m, snapshot, completed, failed, scope)
    case ChangeHeartbeat(_) => m
    case AlertItem(_, _, _) => m
    case Heartbeat(_, _, _, _, _) => m
  }

  function Fold(m: Mirror, items: seq<Item>): Mirror {
    if items == [] then m else ApplyItem(Fold(m, items[..|items| - 1]), items[|items| - 1])
  }

  lemma {:induction false} FoldConcat(m: Mirror, a: seq<Item>, b: seq<Item>)
    ensures Fold(m, a + b) == Fold(Fold(m, a), b)
  {
    if b == [] {
      assert a + b == a;
    } else {
      FoldConcat(m, a, b[..|b| - 1]);
      assert (a + b)[..|a + b| - 1] == a + b[..|b| - 1];
    }
  }

  /** Whether `list_objects` answers from this mirror rather than raise. */
  predicate Serves(m: Mirror) {
    m.blocked.None? && m.ready && m.staging.None?
  }

  predicate GlobalBegin(item: Item) {
    item.SnapshotBegin? && item.scope.None?
  }

  predicate GlobalEnd(item: Item) {
    item.ListingStatus? && item.snapshot && item.scope.None?
  }

  /** Equal in everything but the Events, which a mirror only ever accumulates. */
  predicate SameListing(m: Mirror, n: Mirror) {
    n == m.(events := n.events)
  }

  predicate SameStaging(m: Mirror, n: Mirror) {
    m.staging.Some? && n == m.(objects := n.objects, events := n.events, completed := n.completed, failed := n.failed,
                               ready := n.ready, blocked := n.blocked)
  }

  lemma {:induction false} SameObject(m: Mirror, n: Mirror, body: Body)
    ensures SameListing(m, n) ==> SameListing(ApplyObject(m, body), ApplyObject(n, body))
    ensures SameStaging(m, n) ==> SameStaging(ApplyObject(m, body), ApplyObject(n, body))
  {
  }

  lemma {:induction false} SameEndRelist(m: Mirror, n: Mirror, scope: Scope, completed: set<Scope>)
    ensures SameListing(m, n) ==> SameListing(EndRelist(m, scope, completed), EndRelist(n, scope, completed))
    ensures SameStaging(m, n) ==> SameStaging(EndRelist(m, scope, completed), EndRelist(n, scope, completed))
  {
  }

  lemma {:induction false} SameEndListing(m: Mirror, n: Mirror, snapshot: bool, completed: set<Scope>,
                                          failed: seq<Failure>)
    ensures SameListing(m, n) ==>
              SameListing(EndListing(m, snapshot, completed, failed), EndListing(n, snapshot, completed, failed))
    ensures SameStaging(m, n) ==>
              var a, b := EndListing(m, snapshot, completed, failed), EndListing(n, snapshot, completed, failed);
              if snapshot then SameListing(a, b) else SameStaging(a, b)
  {
  }

  lemma {:induction false} SameStatus(m: Mirror, n: Mirror, snapshot: bool, completed: set<Scope>, failed: seq<Failure>,
                                      scope: Option<Scope>)
    ensures SameListing(m, n) ==>
              SameListing(EndStatus(m, snapshot, completed, failed, scope),
                          EndStatus(n, snapshot, completed, failed, scope))
    ensures SameStaging(m, n) ==>
              var a := EndStatus(m, snapshot, completed, failed, scope);
              var b := EndStatus(n, snapshot, completed, failed, scope);
              if snapshot && scope.None? then SameListing(a, b) else SameStaging(a, b)
  {
    if snapshot && scope.Some? {
      SameEndRelist(m, n, scope.value, completed);
    } else {
      SameEndListing(m, n, snapshot, completed, failed);
    }
  }

  lemma {:induction false} SameListingStep(m: Mirror, n: Mirror, item: Item)
    requires SameListing(m, n)
    ensures SameListing(ApplyItem(m, item), ApplyItem(n, item))
  {
    match item {
      case ListingStatus(_, snapshot, completed, failed, scope) =>
        SameStatus(m, n, snapshot, completed, failed, scope);
      case ObjectItem(_, body) => SameObject(m, n, body);
      case _ =>
    }
  }

  lemma {:induction false} SameStagingEnd(m: Mirror, n: Mirror, item: Item)
    requires SameStaging(m, n) && GlobalEnd(item)
    ensures SameListing(ApplyItem(m, item), ApplyItem(n, item))
  {
    SameEndListing(m, n, true, item.completed, item.failed);
  }

  lemma {:induction false} OtherStagingStep(m: Mirror, n: Mirror, item: Item)
    requires SameStaging(m, n) && !item.ListingStatus? && !item.ObjectItem?
    ensures SameStaging(ApplyItem(m, item), ApplyItem(n, item))
  {
    hide ApplyObject, EndStatus, EventKey;
  }

  lemma {:induction false} SameStagingStep(m: Mirror, n: Mirror, item: Item)
    requires SameStaging(m, n) && !GlobalEnd(item)
    ensures SameStaging(ApplyItem(m, item), ApplyItem(n, item))
  {
    hide ApplyObject, EndStatus;
    match item {
      case ListingStatus(_, snapshot, completed, failed, scope) =>
        SameStatus(m, n, snapshot, completed, failed, scope);
        hide SameStaging;
      case ObjectItem(_, body) =>
        SameObject(m, n, body);
        hide SameStaging;
      case _ =>
        OtherStagingStep(m, n, item);
        hide SameStaging, ApplyItem;
    }
  }

  predicate HasEnd(items: seq<Item>) {
    exists i :: 0 <= i < |items| && GlobalEnd(items[i])
  }

  lemma {:induction false} HasEndLast(items: seq<Item>)
    requires items != []
    ensures HasEnd(items) <==> HasEnd(items[..|items| - 1]) || GlobalEnd(items[|items| - 1])
  {
    var front := items[..|items| - 1];
    if HasEnd(front) {
      var i :| 0 <= i < |front| && GlobalEnd(front[i]);
      assert GlobalEnd(items[i]);
    }
  }

  lemma {:induction false} RecoveryUpTo(m: Mirror, n: Mirror, items: seq<Item>)
    requires items != [] && GlobalBegin(items[0])
    ensures HasEnd(items) ==> SameListing(Fold(m, items), Fold(n, items))
    ensures !HasEnd(items) ==> SameStaging(Fold(m, items), Fold(n, items))
  {
    var front, last := items[..|items| - 1], items[|items| - 1];
    HasEndLast(items);
    if front != [] {
      RecoveryUpTo(m, n, front);
      if HasEnd(front) {
        SameListingStep(Fold(m, front), Fold(n, front), last);
      } else if GlobalEnd(last) {
        SameStagingEnd(Fold(m, front), Fold(n, front), last);
      } else {
        SameStagingStep(Fold(m, front), Fold(n, front), last);
      }
    } else {
      assert Fold(m, front) == m && Fold(n, front) == n;
    }
  }

  /** Recovery has no history: whatever two readers held before (a half-read snapshot, a half-read relist, stale
      objects, open gaps), the same stretch of the stream from a snapshot's begin past its end leaves them with the same
      listing, gapped scopes, completeness and failures. */
  lemma {:induction false} BaselineRecovery(m: Mirror, n: Mirror, items: seq<Item>)
    requires items != [] && GlobalBegin(items[0]) && HasEnd(items)
    ensures SameListing(Fold(m, items), Fold(n, items))
  {
    RecoveryUpTo(m, n, items);
  }
}
