/** What a mirror may claim, said about the items it read rather than about its fields. */
module Trust {
  import opened Text
  import opened Wire
  import opened Mirrors

  /** A loss that only a new global snapshot repairs. */
  predicate HardGap(item: Item) {
    item.Gap? && item.scope.None? && item.reason != BackendUnreachable
  }

  /** A failed read of the cluster, repaired by the next accepted listing. */
  predicate SoftGap(item: Item) {
    item.Gap? && item.scope.None? && item.reason == BackendUnreachable
  }

  predicate ScopeGap(item: Item, scope: Scope) {
    item.Gap? && item.scope == Some(scope)
  }

  predicate ScopeEnd(item: Item, scope: Scope) {
    item.ListingStatus? && item.snapshot && item.scope == Some(scope)
  }

  /** Among the first n items, a global snapshot has begun and not ended. */
  ghost predicate SnapshotOpen(h: seq<Item>, n: nat)
    requires n <= |h|
  {
    exists b :: 0 <= b < n && GlobalBegin(h[b]) && forall e :: b < e < n ==> !GlobalEnd(h[e])
  }

  ghost predicate FinishesSnapshot(h: seq<Item>, e: nat)
    requires e < |h|
  {
    GlobalEnd(h[e]) && SnapshotOpen(h, e)
  }

  /** A global snapshot finished, and nothing that needs a new one came after it. */
  ghost predicate Rebuilt(h: seq<Item>, n: nat)
    requires n <= |h|
  {
    exists e :: 0 <= e < n && FinishesSnapshot(h, e) && forall g :: e < g < n ==> !HardGap(h[g])
  }

  ghost predicate Accepted(h: seq<Item>, e: nat)
    requires e < |h|
  {
    FinishesSnapshot(h, e) || (h[e].ListingStatus? && !h[e].snapshot && Rebuilt(h, e))
  }

  /** Every failed read was followed by an accepted listing. */
  ghost predicate Reached(h: seq<Item>, n: nat)
    requires n <= |h|
  {
    forall g :: 0 <= g < n && SoftGap(h[g]) ==> exists e :: g < e < n && Accepted(h, e)
  }

  /** The scope's relist has begun, with no other relist or snapshot begun and no end of its own since. */
  ghost predicate RelistOpen(h: seq<Item>, n: nat, scope: Scope)
    requires n <= |h|
  {
    exists b :: 0 <= b < n && h[b].SnapshotBegin? && h[b].scope == Some(scope)
             && forall j :: b < j < n ==> !h[j].SnapshotBegin? && !ScopeEnd(h[j], scope)
  }

  ghost predicate Heals(h: seq<Item>, e: nat, scope: Scope)
    requires e < |h|
  {
    ScopeEnd(h[e], scope) && scope in h[e].completed && RelistOpen(h, e, scope)
  }

  /** The scope lost continuity and neither its own relist nor a global snapshot has begun to repair it. */
  ghost predicate GapOpen(h: seq<Item>, n: nat, scope: Scope)
    requires n <= |h|
  {
    exists g :: 0 <= g < n && ScopeGap(h[g], scope)
             && forall j :: g < j < n ==> !GlobalBegin(h[j]) && !Heals(h, j, scope)
  }

  /** The latest word on the scope's completeness was that it was listed completely. */
  ghost predicate ListedComplete(h: seq<Item>, n: nat, scope: Scope)
    requires n <= |h|
  {
    exists e :: 0 <= e < n && (Heals(h, e, scope) || (Accepted(h, e) && scope in h[e].completed))
             && forall j :: e < j < n && Accepted(h, j) ==> scope in h[j].completed
  }

  /** The fields of a mirror that decide what it may claim are exactly these readings of its history. */
  ghost predicate Explains(h: seq<Item>, n: nat, m: Mirror)
    requires n <= |h|
  {
    && (m.staging.Some? <==> SnapshotOpen(h, n))
    && (m.ready <==> Rebuilt(h, n))
    && (m.blocked.None? <==> Reached(h, n))
  }

  ghost predicate ExplainsScope(h: seq<Item>, n: nat, m: Mirror, scope: Scope)
    requires n <= |h|
  {
    && (m.relist.Some? && m.relist.value.scope == scope <==> RelistOpen(h, n, scope))
    && (scope in m.gapped <==> GapOpen(h, n, scope))
    && (scope in m.completed <==> ListedComplete(h, n, scope))
  }

  lemma {:induction false} OpenStep(h: seq<Item>, n: nat)
    requires n < |h|
    ensures SnapshotOpen(h, n + 1) <==> GlobalBegin(h[n]) || (SnapshotOpen(h, n) && !GlobalEnd(h[n]))
  {
    if SnapshotOpen(h, n) && !GlobalEnd(h[n]) {
      var b :| 0 <= b < n && GlobalBegin(h[b]) && forall e :: b < e < n ==> !GlobalEnd(h[e]);
      assert forall e :: b < e < n + 1 ==> !GlobalEnd(h[e]);
    }
  }

  lemma {:induction false} RebuiltStep(h: seq<Item>, n: nat)
    requires n < |h|
    ensures Rebuilt(h, n + 1) <==> FinishesSnapshot(h, n) || (Rebuilt(h, n) && !HardGap(h[n]))
  {
    if Rebuilt(h, n) && !HardGap(h[n]) {
      var e :| 0 <= e < n && FinishesSnapshot(h, e) && forall g :: e < g < n ==> !HardGap(h[g]);
      assert forall g :: e < g < n + 1 ==> !HardGap(h[g]);
    }
  }

  lemma {:induction false} AcceptedIsNoGap(h: seq<Item>, n: nat)
    requires n < |h|
    ensures Accepted(h, n) ==> !SoftGap(h[n])
  {
  }

  lemma {:induction false} ReachedStep(h: seq<Item>, n: nat)
    requires n < |h|
    ensures Reached(h, n + 1) <==> Accepted(h, n) || (Reached(h, n) && !SoftGap(h[n]))
  {
    hide Accepted, SoftGap;
    AcceptedIsNoGap(h, n);
    if Accepted(h, n) {
      assert forall g :: 0 <= g < n + 1 && SoftGap(h[g]) ==> g < n && Accepted(h, n);
    } else {
      if Reached(h, n + 1) {
        forall g | 0 <= g < n && SoftGap(h[g]) ensures exists e :: g < e < n && Accepted(h, e) {
          var e :| g < e < n + 1 && Accepted(h, e);
          assert e < n;
        }
      }
      if Reached(h, n) && !SoftGap(h[n]) {
        forall g | 0 <= g < n + 1 && SoftGap(h[g]) ensures exists e :: g < e < n + 1 && Accepted(h, e) {
          var e :| g < e < n && Accepted(h, e);
        }
      }
    }
  }

  lemma {:induction false} RelistStep(h: seq<Item>, n: nat, scope: Scope)
    requires n < |h|
    ensures RelistOpen(h, n + 1, scope) <==>
            if h[n].SnapshotBegin? then h[n].scope == Some(scope)
            else RelistOpen(h, n, scope) && !ScopeEnd(h[n], scope)
  {
    if RelistOpen(h, n, scope) && !ScopeEnd(h[n], scope) && !h[n].SnapshotBegin? {
      var b :| 0 <= b < n && h[b].SnapshotBegin? && h[b].scope == Some(scope)
            && forall j :: b < j < n ==> !h[j].SnapshotBegin? && !ScopeEnd(h[j], scope);
      assert forall j :: b < j < n + 1 ==> !h[j].SnapshotBegin? && !ScopeEnd(h[j], scope);
    }
  }

  lemma {:induction false} GapStep(h: seq<Item>, n: nat, scope: Scope)
    requires n < |h|
    ensures GapOpen(h, n + 1, scope) <==>
            ScopeGap(h[n], scope) || (GapOpen(h, n, scope) && !GlobalBegin(h[n]) && !Heals(h, n, scope))
  {
    if GapOpen(h, n, scope) && !GlobalBegin(h[n]) && !Heals(h, n, scope) {
      var g :| 0 <= g < n && ScopeGap(h[g], scope)
            && forall j :: g < j < n ==> !GlobalBegin(h[j]) && !Heals(h, j, scope);
      assert forall j :: g < j < n + 1 ==> !GlobalBegin(h[j]) && !Heals(h, j, scope);
    }
  }

  lemma {:induction false} CompleteStep(h: seq<Item>, n: nat, scope: Scope)
    requires n < |h|
    ensures ListedComplete(h, n + 1, scope) <==>
            Heals(h, n, scope)
            || (if Accepted(h, n) then scope in h[n].completed else ListedComplete(h, n, scope))
  {
    if ListedComplete(h, n, scope) && !Accepted(h, n) {
      var e :| 0 <= e < n && (Heals(h, e, scope) || (Accepted(h, e) && scope in h[e].completed))
            && forall j :: e < j < n && Accepted(h, j) ==> scope in h[j].completed;
      assert forall j :: e < j < n + 1 && Accepted(h, j) ==> scope in h[j].completed;
    }
  }

  predicate AcceptedBy(m: Mirror, item: Item) {
    (GlobalEnd(item) && m.staging.Some?) || (item.ListingStatus? && !item.snapshot && m.ready)
  }

  predicate HealedBy(m: Mirror, item: Item, scope: Scope) {
    ScopeEnd(item, scope) && scope in item.completed && m.relist.Some? && m.relist.value.scope == scope
  }

  lemma {:induction false} FlagsStep(m: Mirror, item: Item)
    ensures var next := ApplyItem(m, item);
            && (next.staging.Some? <==> GlobalBegin(item) || (m.staging.Some? && !GlobalEnd(item)))
            && (next.ready <==> (GlobalEnd(item) && m.staging.Some?) || (m.ready && !HardGap(item)))
            && (next.blocked.None? <==> AcceptedBy(m, item) || (m.blocked.None? && !SoftGap(item)))
  {
    match item {
      case ListingStatus(_, _, _, _, _) =>
      case ObjectItem(_, _) =>
      case _ =>
    }
  }

  /** What an item does to the fields that speak of one scope. */
  predicate ScopeFlags(m: Mirror, next: Mirror, item: Item, scope: Scope) {
    && (next.relist.Some? && next.relist.value.scope == scope <==>
          if item.SnapshotBegin? then item.scope == Some(scope)
          else m.relist.Some? && m.relist.value.scope == scope && !ScopeEnd(item, scope))
    && (scope in next.gapped <==>
          ScopeGap(item, scope) || (scope in m.gapped && !GlobalBegin(item) && !HealedBy(m, item, scope)))
    && (scope in next.completed <==>
          HealedBy(m, item, scope)
          || (if AcceptedBy(m, item) then scope in item.completed else scope in m.completed))
  }

  lemma {:induction false} StatusFlagsStep(m: Mirror, item: Item, scope: Scope)
    requires item.ListingStatus?
    ensures ScopeFlags(m, ApplyItem(m, item), item, scope)
  {
    hide ApplyObject;
  }

  lemma {:induction false} ObjectFlagsStep(m: Mirror, item: Item, scope: Scope)
    requires item.ObjectItem?
    ensures ScopeFlags(m, ApplyItem(m, item), item, scope)
  {
    hide EndStatus, ObjectKey;
  }

  lemma {:induction false} ScopeFlagsStep(m: Mirror, item: Item, scope: Scope)
    ensures ScopeFlags(m, ApplyItem(m, item), item, scope)
  {
    if item.ListingStatus? {
      StatusFlagsStep(m, item, scope);
    } else if item.ObjectItem? {
      ObjectFlagsStep(m, item, scope);
    } else {
      hide EndStatus, ApplyObject;
    }
  }

  lemma {:induction false} ExplainsNext(h: seq<Item>, n: nat, m: Mirror)
    requires n < |h| && Explains(h, n, m)
    ensures Explains(h, n + 1, ApplyItem(m, h[n]))
    ensures Accepted(h, n) <==> AcceptedBy(m, h[n])
  {
    FlagsStep(m, h[n]);
    OpenStep(h, n);
    RebuiltStep(h, n);
    ReachedStep(h, n);
  }

  lemma {:induction false} ExplainsScopeNext(h: seq<Item>, n: nat, m: Mirror, scope: Scope)
    requires n < |h| && Explains(h, n, m) && ExplainsScope(h, n, m, scope)
    ensures ExplainsScope(h, n + 1, ApplyItem(m, h[n]), scope)
  {
    ExplainsNext(h, n, m);
    ScopeFlagsStep(m, h[n], scope);
    RelistStep(h, n, scope);
    GapStep(h, n, scope);
    CompleteStep(h, n, scope);
  }

  lemma {:induction false} HistoryExplains(h: seq<Item>, n: nat)
    requires n <= |h|
    ensures Explains(h, n, Fold(EMPTY, h[..n]))
  {
    if n > 0 {
      HistoryExplains(h, n - 1);
      assert h[..n][..n - 1] == h[..n - 1];
      ExplainsNext(h, n - 1, Fold(EMPTY, h[..n - 1]));
    }
  }

  lemma {:induction false} HistoryExplainsScope(h: seq<Item>, n: nat, scope: Scope)
    requires n <= |h|
    ensures ExplainsScope(h, n, Fold(EMPTY, h[..n]), scope)
  {
    if n > 0 {
      HistoryExplainsScope(h, n - 1, scope);
      HistoryExplains(h, n - 1);
      assert h[..n][..n - 1] == h[..n - 1];
      ExplainsScopeNext(h, n - 1, Fold(EMPTY, h[..n - 1]), scope);
    }
  }

  /** A mirror answers exactly when no snapshot is half read, a snapshot has finished since the last loss that needs
      one, and a listing has been accepted since the last failed read. */
  lemma {:induction false} ServesExactly(h: seq<Item>)
    ensures Serves(Fold(EMPTY, h)) <==> Rebuilt(h, |h|) && !SnapshotOpen(h, |h|) && Reached(h, |h|)
  {
    HistoryExplains(h, |h|);
    assert h[..|h|] == h;
  }

  /** Completeness is claimed for a scope exactly when its latest listing was complete and no gap of it is open. */
  lemma {:induction false} ClaimsExactly(h: seq<Item>, scope: Scope)
    ensures var m := Fold(EMPTY, h);
            scope in m.completed - m.gapped <==> ListedComplete(h, |h|, scope) && !GapOpen(h, |h|, scope)
  {
    HistoryExplainsScope(h, |h|, scope);
    assert h[..|h|] == h;
  }

  // ---- failures -------------------------------------------------------------------------------

  /** The latest accepted listing reported the failure, and the scope has not been relisted since. */
  ghost predicate ListedFailed(h: seq<Item>, n: nat, failure: Failure)
    requires n <= |h|
  {
    exists e :: 0 <= e < n && Accepted(h, e) && failure in h[e].failed
                && forall j :: e < j < n ==> !Accepted(h, j) && !Heals(h, j, failure.scope)
  }

  lemma {:induction false} FailedStep(h: seq<Item>, n: nat, failure: Failure)
    requires n < |h|
    ensures ListedFailed(h, n + 1, failure) <==>
            if Accepted(h, n) then failure in h[n].failed
            else ListedFailed(h, n, failure) && !Heals(h, n, failure.scope)
  {
    hide Heals;
    if ListedFailed(h, n, failure) && !Heals(h, n, failure.scope) && !Accepted(h, n) {
      var e :| 0 <= e < n && Accepted(h, e) && failure in h[e].failed
            && forall j :: e < j < n ==> !Accepted(h, j) && !Heals(h, j, failure.scope);
      assert forall j :: e < j < n + 1 ==> !Accepted(h, j) && !Heals(h, j, failure.scope);
    }
  }

  lemma {:induction false} OthersFail(failed: seq<Failure>, scope: Scope, failure: Failure)
    ensures failure in WithoutFailure(failed, scope) <==> failure in failed && failure.scope != scope
  {
    if failed != [] {
      OthersFail(failed[..|failed| - 1], scope, failure);
      assert failed == failed[..|failed| - 1] + [failed[|failed| - 1]];
    }
  }

  lemma {:induction false} StatusFailures(m: Mirror, item: Item, failure: Failure)
    requires item.ListingStatus?
    ensures failure in ApplyItem(m, item).failed <==>
            if AcceptedBy(m, item) then failure in item.failed
            else failure in m.failed && !HealedBy(m, item, failure.scope)
  {
    hide WithoutScope, WithoutFailure;
    if item.scope.Some? {
      OthersFail(m.failed, item.scope.value, failure);
    }
  }

  lemma {:induction false} FailuresFlag(m: Mirror, item: Item, failure: Failure)
    ensures failure in ApplyItem(m, item).failed <==>
            if AcceptedBy(m, item) then failure in item.failed
            else failure in m.failed && !HealedBy(m, item, failure.scope)
  {
    if item.ListingStatus? {
      StatusFailures(m, item, failure);
    } else {
      hide EndStatus, ObjectKey;
    }
  }

  lemma {:induction false} HistoryExplainsFailure(h: seq<Item>, n: nat, failure: Failure)
    requires n <= |h|
    ensures failure in Fold(EMPTY, h[..n]).failed <==> ListedFailed(h, n, failure)
  {
    hide ListedFailed, Accepted, Heals, AcceptedBy, HealedBy, ApplyItem, Explains, ExplainsScope;
    if n > 0 {
      var m := Fold(EMPTY, h[..n - 1]);
      HistoryExplainsFailure(h, n - 1, failure);
      assert h[..n][..n - 1] == h[..n - 1];
      FailureNext(h, n - 1, m, failure);
    } else {
      assert h[..n] == [];
      NothingFailed(h, failure);
    }
  }

  lemma {:induction false} NothingFailed(h: seq<Item>, failure: Failure)
    ensures failure !in Fold(EMPTY, []).failed && !ListedFailed(h, 0, failure)
  {
  }

  lemma {:induction false} FailureNext(h: seq<Item>, n: nat, m: Mirror, failure: Failure)
    requires n < |h| && m == Fold(EMPTY, h[..n]) && (failure in m.failed <==> ListedFailed(h, n, failure))
    ensures failure in ApplyItem(m, h[n]).failed <==> ListedFailed(h, n + 1, failure)
  {
    HistoryExplains(h, n);
    HistoryExplainsScope(h, n, failure.scope);
    ExplainsNext(h, n, m);
    HealsAsApplied(h, n, m, failure.scope);
    FailuresFlag(m, h[n], failure);
    FailedStep(h, n, failure);
    hide ListedFailed, Accepted, Heals, AcceptedBy, HealedBy, ApplyItem, Explains, ExplainsScope;
  }

  lemma {:induction false} HealsAsApplied(h: seq<Item>, n: nat, m: Mirror, scope: Scope)
    requires n < |h| && ExplainsScope(h, n, m, scope)
    ensures Heals(h, n, scope) <==> HealedBy(m, h[n], scope)
  {
  }

  /** A failure is reported exactly when the latest accepted listing reported it and its scope was not relisted
      since. */
  lemma {:induction false} FailsExactly(h: seq<Item>, failure: Failure)
    ensures failure in Fold(EMPTY, h).failed <==> ListedFailed(h, |h|, failure)
  {
    HistoryExplainsFailure(h, |h|, failure);
    assert h[..|h|] == h;
  }

  // ---- since when -----------------------------------------------------------------------------

  /** The latest failed read of the cluster, at this instant, with no listing accepted since. */
  ghost predicate UnreachedSince(h: seq<Item>, n: nat, since: Time)
    requires n <= |h|
  {
    exists g :: 0 <= g < n && SoftGap(h[g]) && h[g].at == since
                && forall j :: g < j < n ==> !Accepted(h, j) && !SoftGap(h[j])
  }

  lemma {:induction false} SinceStep(h: seq<Item>, n: nat, since: Time)
    requires n < |h|
    ensures UnreachedSince(h, n + 1, since) <==>
            if SoftGap(h[n]) then h[n].at == since else UnreachedSince(h, n, since) && !Accepted(h, n)
  {
    hide Accepted;
    if UnreachedSince(h, n, since) && !Accepted(h, n) && !SoftGap(h[n]) {
      var g :| 0 <= g < n && SoftGap(h[g]) && h[g].at == since
            && forall j :: g < j < n ==> !Accepted(h, j) && !SoftGap(h[j]);
      assert forall j :: g < j < n + 1 ==> !Accepted(h, j) && !SoftGap(h[j]);
    }
  }

  lemma {:induction false} BlockedFlag(m: Mirror, item: Item)
    ensures ApplyItem(m, item).blocked ==
            if SoftGap(item) then Some(item.at) else if AcceptedBy(m, item) then None else m.blocked
  {
    match item {
      case ListingStatus(_, _, _, _, _) => hide WithoutFailure, WithoutScope;
      case ObjectItem(_, _) => hide EndStatus;
      case _ =>
    }
  }

  lemma {:induction false} HistoryExplainsSince(h: seq<Item>, n: nat, since: Time)
    requires n <= |h|
    ensures Fold(EMPTY, h[..n]).blocked == Some(since) <==> UnreachedSince(h, n, since)
  {
    hide UnreachedSince, Accepted, AcceptedBy, ApplyItem, Explains;
    if n > 0 {
      HistoryExplainsSince(h, n - 1, since);
      assert h[..n][..n - 1] == h[..n - 1];
      SinceNext(h, n - 1, Fold(EMPTY, h[..n - 1]), since);
    } else {
      assert h[..n] == [];
      NothingSince(h, since);
    }
  }

  lemma {:induction false} NothingSince(h: seq<Item>, since: Time)
    ensures Fold(EMPTY, []).blocked == None && !UnreachedSince(h, 0, since)
  {
  }

  lemma {:induction false} SinceNext(h: seq<Item>, n: nat, m: Mirror, since: Time)
    requires n < |h| && m == Fold(EMPTY, h[..n]) && (m.blocked == Some(since) <==> UnreachedSince(h, n, since))
    ensures ApplyItem(m, h[n]).blocked == Some(since) <==> UnreachedSince(h, n + 1, since)
  {
    HistoryExplains(h, n);
    ExplainsNext(h, n, m);
    BlockedFlag(m, h[n]);
    SinceStep(h, n, since);
    AcceptedIsNoGap(h, n);
    hide UnreachedSince, Accepted, AcceptedBy, ApplyItem, Explains;
  }

  /** A mirror that was told of a failed read, and of no listing since, says since when: the latest of them. */
  lemma {:induction false} BlockedExactly(h: seq<Item>, since: Time)
    ensures Fold(EMPTY, h).blocked == Some(since) <==> UnreachedSince(h, |h|, since)
  {
    HistoryExplainsSince(h, |h|, since);
    assert h[..|h|] == h;
  }
}
