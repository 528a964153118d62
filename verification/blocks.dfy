/** What every producer step does to the stream: it only appends, everything it appends carries the step's instant, and
    a mirror that folds the log from the latest snapshot holds what the producer has seen. */
module Blocks {
  import opened Text
  import opened Wire
  import opened Streams
  import opened Mirrors
  import opened Producing
  import opened Cluster
  import opened Worlds
  import opened Refinement

  /** The buffer grew by items stamped now, and its baseline moved only forward, to a begin in the new items. */
  predicate Grew(b: Buffer, c: Buffer, now: Time) {
    && c.epoch == b.epoch && c.maxLen == b.maxLen && b.log <= c.log
    && (forall i :: |b.log| <= i < |c.log| ==> StampOf(c.log[i]) == Some(now))
    && (c.baseline == b.baseline || (c.baseline.Some? && |b.log| < c.baseline.value))
  }

  /** The log from its latest snapshot on. */
  function Tail(b: Buffer): seq<Item>
    requires b.baseline.Some? && b.BaselineInLog()
  {
    b.log[b.baseline.value - 1..]
  }

  /** Any mirror that folds the tail is in step with the producer. */
  ghost predicate TailSyncs(s: ChangeState) {
    && s.b.BaselineInLog()
    && (s.b.baseline.Some? ==>
          && GlobalBegin(Tail(s.b)[0]) && HasEnd(Tail(s.b))
          && forall m :: Synced(Fold(m, Tail(s.b)), s.p))
  }

  lemma {:induction false} Appended(s: ChangeState, items: seq<Item>, p: Producer)
    requires TailSyncs(s) && forall m :: Synced(m, s.p) ==> Synced(Fold(m, items), p)
    ensures TailSyncs(ChangeState(p, s.b.Append(items)))
  {
    var c := s.b.Append(items);
    if s.b.baseline.Some? {
      assert Tail(c) == Tail(s.b) + items;
      var e :| 0 <= e < |Tail(s.b)| && GlobalEnd(Tail(s.b)[e]);
      assert GlobalEnd(Tail(c)[e]);
      forall m ensures Synced(Fold(m, Tail(c)), p) {
        FoldConcat(m, Tail(s.b), items);
      }
    }
  }

  predicate MovesNothing(item: Item) {
    (item.Gap? && item.scope.None?) || item.ChangeHeartbeat?
  }

  lemma {:induction false} GapKeepsSync(m: Mirror, p: Producer, item: Item)
    requires Synced(m, p) && MovesNothing(item)
    ensures Synced(Fold(m, [item]), p)
  {
    FoldOne(m, item);
  }

  lemma {:induction false} DeclaredAppended(s: ChangeState, item: Item)
    requires TailSyncs(s) && MovesNothing(item)
    ensures TailSyncs(s.(b := s.b.Append([item])))
  {
    forall m | Synced(m, s.p) ensures Synced(Fold(m, [item]), s.p) {
      GapKeepsSync(m, s.p, item);
    }
    Appended(s, [item], s.p);
  }

  lemma {:induction false} SnapshotTail(s: ChangeState, c: Config, l: Listing, at: Time)
    ensures TailSyncs(Snapshot(s, c, l, at))
  {
    var n := Snapshot(s, c, l, at);
    var items := SnapshotItems(l, at);
    assert Tail(n.b) == items;
    assert GlobalEnd(items[|items| - 1]);
    forall m ensures Synced(Fold(m, items), n.p) {
      SnapshotSyncs(m, s.p, c, l, at);
    }
  }

  lemma {:induction false} PollTail(s: ChangeState, c: Config, listed: Listed, at: Time, force: bool, declare: bool,
                                    order: seq<string>)
    requires TailSyncs(s)
    requires PollSucceeds(s, listed, force) && !TakesSnapshot(s, force) ==>
             Enumerates(order, DeltaDoomed(s.p, listed.listing))
    ensures TailSyncs(Poll(s, c, listed, at, force, declare, order))
  {
    if !PollSucceeds(s, listed, force) {
      DeclaredAppended(s, GlobalGap(s.p, at, BackendUnreachable));
    } else if TakesSnapshot(s, force) {
      SnapshotTail(s, c, listed.listing, at);
    } else {
      forall m | Synced(m, s.p)
        ensures Synced(Fold(m, DeltaItems(s.p, listed.listing, at, order)), DeltaProducer(s.p, listed.listing, at)) {
        DeltaSyncs(m, s.p, listed.listing, at, order);
      }
      Appended(s, DeltaItems(s.p, listed.listing, at, order), DeltaProducer(s.p, listed.listing, at));
    }
  }

  lemma {:induction false} RelistTail(s: ChangeState, scope: Scope, r: Relisted, now: Time)
    requires TailSyncs(s)
    ensures TailSyncs(Relist(s, scope, r, now))
  {
    if r.Relisted? {
      forall m | Synced(m, s.p)
        ensures Synced(Fold(m, RelistItems(scope, r, now)), RelistProducer(s.p, scope, r, now))
      {
        RelistSyncs(m, s.p, scope, r, now);
      }
      Appended(s, RelistItems(scope, r, now), RelistProducer(s.p, scope, r, now));
    }
  }

  /** A scope's gap and the answer to its relist, in one block. */
  lemma {:induction false} ScopeGapTail(s: ChangeState, scope: Scope, since: Option<Time>, r: Relisted, now: Time)
    requires TailSyncs(s)
    ensures var declared := s.(b := s.b.Append([Gap(now, ResourceVersionExpired, Some(scope), since)]));
            TailSyncs(if r.Relisted? then Relist(declared, scope, r, now)
                      else declared.(p := s.p.(pending := s.p.pending + {scope})))
  {
    var gap := Gap(now, ResourceVersionExpired, Some(scope), since);
    if r.Relisted? {
      var items := RelistItems(scope, r, now);
      forall m | Synced(m, s.p) ensures Synced(Fold(m, [gap] + items), RelistProducer(s.p, scope, r, now)) {
        FoldConcat(m, [gap], items);
        FoldOne(m, gap);
        RelistSyncs(ApplyItem(m, gap), s.p, scope, r, now);
      }
      Appended(s, [gap] + items, RelistProducer(s.p, scope, r, now));
      assert s.b.log + [gap] + items == s.b.log + ([gap] + items);
    } else {
      var p := s.p.(pending := s.p.pending + {scope});
      forall m | Synced(m, s.p) ensures Synced(Fold(m, [gap]), p) {
        FoldOne(m, gap);
      }
      Appended(s, [gap], p);
    }
  }

  lemma {:induction false} ExpiredTail(s: ChangeState, c: Config, scope: Scope, generation: nat, listed: Listed,
                                       relisted: Relisted, now: Time)
    requires TailSyncs(s)
    ensures TailSyncs(WatchExpired(s, c, scope, generation, listed, relisted, now))
  {
    if generation == s.p.generation {
      if c.canListScope {
        ScopeGapTail(s, scope, if scope in s.p.continuous then Some(s.p.continuous[scope]) else None, relisted, now);
      } else {
        var gap := GlobalGap(s.p, now, ResourceVersionExpired);
        DeclaredAppended(s, gap);
        PollTail(s.(b := s.b.Append([gap])), c, listed, now, true, true, []);
      }
    }
  }

  lemma {:induction false} EventTail(s: ChangeState, scope: Scope, event: WatchEvent, generation: nat, now: Time)
    requires TailSyncs(s)
    ensures TailSyncs(ApplyWatchEvent(s, scope, event, generation, now))
  {
    if Current(s.p, scope, generation) {
      forall m | Synced(m, s.p)
        ensures Synced(Fold(m, ObservedItems(s.p, scope, event, now)), Observe(s.p, scope, event, now)) {
        ObservedSyncs(m, s.p, scope, event, now);
      }
      Appended(s, ObservedItems(s.p, scope, event, now), Observe(s.p, scope, event, now));
    }
  }

  /** Steps that leave the log alone leave what a mirror must hold alone. */
  lemma {:induction false} QuietTail(s: ChangeState, p: Producer)
    requires TailSyncs(s) && p.seen == s.p.seen && p.eventsSeen == s.p.eventsSeen && p.pending == s.p.pending
    ensures TailSyncs(s.(p := p))
  {
  }

  lemma {:induction false} FailedTail(s: ChangeState, scope: Scope, generation: nat, now: Time)
    requires TailSyncs(s)
    ensures TailSyncs(WatchFailed(s, scope, generation, now))
  {
    var gap := GlobalGap(s.p, now, BackendUnreachable);
    DeclaredAppended(s, gap);
    QuietTail(s.(b := s.b.Append([gap])), s.p.(degraded := true));
  }

  lemma {:induction false} StepTail(w: World, step: Step)
    requires TailSyncs(w.s) && Enabled(w, step)
    ensures TailSyncs(Next(w, step).s)
  {
    match step {
      case Polls(a, force, declare, order, now) => PollTail(w.s, w.config, a.listed, now, force, declare, order);
      case Delivers(scope, event, now) => EventTail(w.s, scope, event, w.watchers[scope].generation, now);
      case Expires(scope, a, relisted, now) =>
        ExpiredTail(w.s, w.config, scope, w.watchers[scope].generation, a.listed, relisted, now);
      case Fails(scope, now) => FailedTail(w.s, scope, w.watchers[scope].generation, now);
      case Relists(scope, relisted, now) => RelistTail(w.s, scope, relisted, now);
      case Beats(now) => DeclaredAppended(w.s, ChangeHeartbeat(now));
      case Restarts(epoch) =>
      case _ => QuietTail(w.s, Next(w, step).s.p);
    }
  }

  // ---- the log only grows ---------------------------------------------------------------------

  lemma {:induction false} GrewTwice(b: Buffer, c: Buffer, d: Buffer, now: Time)
    requires Grew(b, c, now) && Grew(c, d, now)
    ensures Grew(b, d, now)
  {
  }

  predicate AllStamped(items: seq<Item>, now: Time) {
    forall i :: 0 <= i < |items| ==> StampOf(items[i]) == Some(now)
  }

  lemma {:induction false} AppendGrows(b: Buffer, items: seq<Item>, now: Time)
    requires AllStamped(items, now)
    ensures Grew(b, b.Append(items), now)
    ensures Grew(b, b.Append(items).(baseline := Some(|b.log| + 1)), now)
  {
    var log := b.log + items;
    forall i | |b.log| <= i < |log| ensures StampOf(log[i]) == Some(now) {
      assert log[i] == items[i - |b.log|];
    }
  }

  lemma {:induction false} SnapshotAt(l: Listing, at: Time)
    ensures AllStamped(SnapshotItems(l, at), at)
  {
  }

  lemma {:induction false} DeltaAt(p: Producer, l: Listing, at: Time, order: seq<string>)
    ensures AllStamped(DeltaItems(p, l, at, order), at)
  {
  }

  lemma {:induction false} PollGrows(s: ChangeState, c: Config, listed: Listed, at: Time, force: bool, declare: bool,
                                     order: seq<string>)
    ensures Grew(s.b, Poll(s, c, listed, at, force, declare, order).b, at)
  {
    hide SnapshotProducer, DeltaProducer, SnapshotItems, DeltaItems;
    if !PollSucceeds(s, listed, force) {
      AppendGrows(s.b, [GlobalGap(s.p, at, BackendUnreachable)], at);
    } else if TakesSnapshot(s, force) {
      SnapshotAt(listed.listing, at);
      AppendGrows(s.b, SnapshotItems(listed.listing, at), at);
    } else {
      DeltaAt(s.p, listed.listing, at, order);
      AppendGrows(s.b, DeltaItems(s.p, listed.listing, at, order), at);
    }
  }

  lemma {:induction false} RelistGrows(s: ChangeState, scope: Scope, r: Relisted, now: Time)
    ensures Grew(s.b, Relist(s, scope, r, now).b, now)
  {
  }

  lemma {:induction false} ExpiredGrows(s: ChangeState, c: Config, scope: Scope, generation: nat, listed: Listed,
                                        relisted: Relisted, now: Time)
    ensures Grew(s.b, WatchExpired(s, c, scope, generation, listed, relisted, now).b, now)
  {
    if generation == s.p.generation {
      if c.canListScope {
        var since := if scope in s.p.continuous then Some(s.p.continuous[scope]) else None;
        var declared := s.(b := s.b.Append([Gap(now, ResourceVersionExpired, Some(scope), since)]));
        RelistGrows(declared, scope, relisted, now);
        GrewTwice(s.b, declared.b, Relist(declared, scope, relisted, now).b, now);
      } else {
        var declared := s.(b := s.b.Append([GlobalGap(s.p, now, ResourceVersionExpired)]));
        PollGrows(declared, c, listed, now, true, true, []);
        GrewTwice(s.b, declared.b, Poll(declared, c, listed, now, true, true, []).b, now);
      }
    }
  }

  lemma {:induction false} StepGrows(w: World, step: Step)
    requires Enabled(w, step) && !step.Restarts?
    ensures w.now <= Next(w, step).now && Grew(w.s.b, Next(w, step).s.b, Next(w, step).now)
  {
    match step {
      case Polls(a, force, declare, order, now) => PollGrows(w.s, w.config, a.listed, now, force, declare, order);
      case Expires(scope, a, relisted, now) =>
        ExpiredGrows(w.s, w.config, scope, w.watchers[scope].generation, a.listed, relisted, now);
      case Relists(scope, relisted, now) => RelistGrows(w.s, scope, relisted, now);
      case _ =>
    }
  }
}
