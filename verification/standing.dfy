/** What a caught-up reader answers and claims, said by what happened to the connector rather than by the items read. */
module Standings {
  import opened Text
  import opened Wire
  import opened Streams
  import opened Mirrors
  import Trust
  import opened Following
  import opened Producing
  import opened Worlds
  import opened Refinement
  import opened Blocks
  import opened Systems

  /** Where a connector run stands: whether the cluster was out of reach since the last listing that counts, whether
      continuity of everything was lost since the last snapshot, and what was listed completely and what failed. */
  datatype Standing = Standing(unreached: bool, lost: bool, completed: set<Scope>, failed: set<Failure>)

  const NOTHING_LISTED := Standing(false, false, {}, {})

  function Told(l: Listing): Standing {
    Standing(false, false, l.completed, set f | f in l.failed)
  }

  /** One scope was listed again. */
  function ToldScope(st: Standing, scope: Scope): Standing {
    st.(completed := st.completed + {scope}, failed := set f | f in st.failed && f.scope != scope)
  }

  /** A listing counts unless it is a reconciliation after everything was lost; a poll that gets none, or whose snapshot
      does not fit, was out of reach, if it is to say so. */
  function AfterListing(w: World, st: Standing, listed: Listed, force: bool, declare: bool): Standing {
    if !PollSucceeds(w.s, listed, force) then (if declare then st.(unreached := true) else st)
    else if st.lost && !TakesSnapshot(w.s, force) then st
    else Told(listed.listing)
  }

  predicate CurrentWatch(w: World, scope: Scope) {
    WatchingNow(w, scope) && w.watchers[scope].generation == w.s.p.generation
  }

  function StandingAfter(w: World, st: Standing, step: Step): Standing {
    match step
    case Polls(a, force, declare, _, _) => AfterListing(w, st, a.listed, force, declare)
    case Expires(scope, a, relisted, _) =>
      if !CurrentWatch(w, scope) then st
      else if !w.config.canListScope then AfterListing(w, st.(lost := true), a.listed, true, true)
      else if relisted.Relisted? then ToldScope(st, scope)
      else st
    case Fails(scope, _) => if CurrentWatch(w, scope) && !w.s.p.degraded then st.(unreached := true) else st
    case Relists(scope, relisted, _) => if relisted.Relisted? then ToldScope(st, scope) else st
    case Restarts(_) => NOTHING_LISTED
    case _ => st
  }

  /** The mirror's fields that decide what it answers and claims say just that. */
  predicate Agrees(m: Mirror, st: Standing) {
    && m.staging.None? && (m.blocked.Some? <==> st.unreached) && (m.ready <==> !st.lost)
    && m.completed == st.completed && (set f | f in m.failed) == st.failed
  }

  predicate Quiet(item: Item) {
    item.ObjectItem? || item.ObjectDeleted? || item.EventItem? || item.ChangeHeartbeat?
  }

  predicate AllQuiet(items: seq<Item>) {
    forall i :: 0 <= i < |items| ==> Quiet(items[i])
  }

  predicate SameFlags(m: Mirror, n: Mirror) {
    && n.staging.Some? == m.staging.Some? && n.blocked == m.blocked && n.ready == m.ready
    && n.completed == m.completed && n.failed == m.failed
    && n.relist.Some? == m.relist.Some? && (m.relist.Some? ==> n.relist.value.scope == m.relist.value.scope)
  }

  lemma {:induction false} QuietItem(m: Mirror, item: Item)
    requires Quiet(item)
    ensures SameFlags(m, ApplyItem(m, item))
  {
    hide ObjectKey, InScope, EventKey;
  }

  lemma {:induction false} QuietItems(m: Mirror, items: seq<Item>)
    requires AllQuiet(items)
    ensures SameFlags(m, Fold(m, items))
  {
    hide Quiet, ApplyItem;
    if items != [] {
      QuietItems(m, items[..|items| - 1]);
      QuietItem(Fold(m, items[..|items| - 1]), items[|items| - 1]);
    }
  }

  /** A block: how it begins, quiet items, and how it ends. */
  lemma {:induction false} FoldBlock(m: Mirror, begin: Item, middle: seq<Item>, end: Item)
    requires AllQuiet(middle)
    ensures exists n :: SameFlags(ApplyItem(m, begin), n) && Fold(m, [begin] + middle + [end]) == ApplyItem(n, end)
  {
    hide ApplyItem, Quiet;
    FoldConcat(m, [begin] + middle, [end]);
    FoldConcat(m, [begin], middle);
    FoldOne(m, begin);
    var n := Fold(ApplyItem(m, begin), middle);
    FoldOne(n, end);
    QuietItems(ApplyItem(m, begin), middle);
  }

  // ---- what each block of items tells ---------------------------------------------------------

  lemma {:induction false} ListedAreQuiet(l: Listing, at: Time)
    ensures AllQuiet(ObjectItems(Allowed(l.objects), at) + EventItems(l.events, at))
  {
  }

  lemma {:induction false} SnapshotAgrees(m: Mirror, l: Listing, at: Time)
    ensures Agrees(Fold(m, SnapshotItems(l, at)), Told(l))
  {
    var middle := ObjectItems(Allowed(l.objects), at) + EventItems(l.events, at);
    var begin, end := SnapshotBegin(at, None), ListingStatus(at, true, l.completed, l.failed, None);
    ListedAreQuiet(l, at);
    FoldBlock(m, begin, middle, end);
    assert SnapshotItems(l, at) == [begin] + middle + [end];
    hide Fold, ObjectItems, EventItems, Allowed, SnapshotItems;
  }

  lemma {:induction false} DeltaIsQuiet(p: Producer, l: Listing, at: Time, order: seq<string>)
    ensures AllQuiet(ChangedItems(p.seen, Allowed(l.objects), at) + Deletions(order, at)
                     + ChangedEventItems(p.eventsSeen, l.events, at))
  {
  }

  lemma {:induction false} DeltaAgrees(m: Mirror, st: Standing, p: Producer, l: Listing, at: Time, order: seq<string>)
    requires Agrees(m, st)
    ensures Agrees(Fold(m, DeltaItems(p, l, at, order)), if st.lost then st else Told(l))
  {
    var middle := ChangedItems(p.seen, Allowed(l.objects), at) + Deletions(order, at)
                  + ChangedEventItems(p.eventsSeen, l.events, at);
    var end := ListingStatus(at, false, l.completed, l.failed, None);
    DeltaIsQuiet(p, l, at, order);
    QuietItems(m, middle);
    FoldConcat(m, middle, [end]);
    FoldOne(Fold(m, middle), end);
    assert DeltaItems(p, l, at, order) == middle + [end];
    hide Fold, ChangedItems, ChangedEventItems, Deletions, Allowed, DeltaItems;
  }

  lemma {:induction false} RelistIsQuiet(scope: Scope, r: Relisted, now: Time)
    requires r.Relisted?
    ensures AllQuiet(if scope.kind == "Event" then EventItems(r.bodies, now) else ObjectItems(Allowed(r.bodies), now))
  {
  }

  lemma {:induction false} OthersFailed(failed: seq<Failure>, scope: Scope)
    ensures (set f | f in WithoutFailure(failed, scope)) == set f | f in failed && f.scope != scope
  {
    forall f ensures f in WithoutFailure(failed, scope) <==> f in failed && f.scope != scope {
      Trust.OthersFail(failed, scope, f);
    }
  }

  lemma {:induction false} EndAgrees(m: Mirror, n: Mirror, st: Standing, scope: Scope, now: Time)
    requires Agrees(m, st) && SameFlags(m.(relist := Some(HalfRelist(scope, map[]))), n)
    ensures Agrees(ApplyItem(n, ListingStatus(now, true, {scope}, [], Some(scope))), ToldScope(st, scope))
  {
    hide WithoutFailure, WithoutScope;
    OthersFailed(n.failed, scope);
    assert forall f :: f in n.failed <==> f in st.failed by {
      assert forall f :: f in m.failed <==> f in (set g | g in m.failed);
    }
  }

  lemma {:induction false} RelistAgrees(m: Mirror, st: Standing, scope: Scope, r: Relisted, now: Time)
    requires Agrees(m, st) && r.Relisted?
    ensures Agrees(Fold(m, RelistItems(scope, r, now)), ToldScope(st, scope))
  {
    var middle := if scope.kind == "Event" then EventItems(r.bodies, now) else ObjectItems(Allowed(r.bodies), now);
    var begin, end := SnapshotBegin(now, Some(scope)), ListingStatus(now, true, {scope}, [], Some(scope));
    RelistIsQuiet(scope, r, now);
    FoldBlock(m, begin, middle, end);
    assert RelistItems(scope, r, now) == [begin] + middle + [end];
    var n :| SameFlags(ApplyItem(m, begin), n) && Fold(m, [begin] + middle + [end]) == ApplyItem(n, end);
    EndAgrees(m, n, st, scope, now);
    hide Fold, ObjectItems, EventItems, Allowed, RelistItems, Agrees;
  }

  // ---- every step -----------------------------------------------------------------------------

  /** Every mirror folded from the latest snapshot on agrees. */
  ghost predicate TailAgrees(s: ChangeState, st: Standing) {
    s.b.BaselineInLog() && (s.b.baseline.Some? ==> forall m :: Agrees(Fold(m, Tail(s.b)), st))
  }

  lemma {:induction false} AppendedAgrees(s: ChangeState, st: Standing, items: seq<Item>, p: Producer, next: Standing)
    requires TailAgrees(s, st) && forall m :: Agrees(m, st) ==> Agrees(Fold(m, items), next)
    ensures TailAgrees(ChangeState(p, s.b.Append(items)), next)
  {
    hide Agrees, Fold;
    var c := s.b.Append(items);
    if s.b.baseline.Some? {
      assert Tail(c) == Tail(s.b) + items;
      forall m ensures Agrees(Fold(m, Tail(c)), next) {
        FoldConcat(m, Tail(s.b), items);
      }
    }
  }

  lemma {:induction false} GapAgrees(m: Mirror, st: Standing, gap: Item)
    requires Agrees(m, st) && gap.Gap?
    ensures Agrees(Fold(m, [gap]), if gap.scope.Some? then st
                                   else if gap.reason == BackendUnreachable then st.(unreached := true)
                                   else st.(lost := true))
  {
    FoldOne(m, gap);
    hide Fold;
  }

  lemma {:induction false} GapAppended(s: ChangeState, st: Standing, gap: Item, p: Producer)
    requires TailAgrees(s, st) && gap.Gap?
    ensures TailAgrees(ChangeState(p, s.b.Append([gap])),
                       if gap.scope.Some? then st
                       else if gap.reason == BackendUnreachable then st.(unreached := true)
                       else st.(lost := true))
  {
    hide TailAgrees, Agrees;
    var next := if gap.scope.Some? then st
                else if gap.reason == BackendUnreachable then st.(unreached := true) else st.(lost := true);
    forall m | Agrees(m, st) ensures Agrees(Fold(m, [gap]), next) {
      GapAgrees(m, st, gap);
    }
    AppendedAgrees(s, st, [gap], p, next);
  }

  lemma {:induction false} SnapshotTells(s: ChangeState, c: Config, l: Listing, at: Time)
    ensures TailAgrees(Snapshot(s, c, l, at), Told(l))
  {
    hide Agrees, Fold, SnapshotItems, SnapshotProducer;
    var n := Snapshot(s, c, l, at);
    SnapshotItemsSome(l, at);
    assert Tail(n.b) == SnapshotItems(l, at);
    forall m ensures Agrees(Fold(m, Tail(n.b)), Told(l)) {
      SnapshotAgrees(m, l, at);
    }
  }

  lemma {:induction false} SnapshotItemsSome(l: Listing, at: Time)
    ensures |SnapshotItems(l, at)| > 0
  {
  }

  /** A poll, given what it is to make of the standing before it. */
  lemma {:induction false} PollTells(s: ChangeState, st: Standing, c: Config, listed: Listed, at: Time, force: bool,
                                     declare: bool, order: seq<string>)
    requires TailAgrees(s, st)
    ensures TailAgrees(Poll(s, c, listed, at, force, declare, order),
                       if !PollSucceeds(s, listed, force) then (if declare then st.(unreached := true) else st)
                       else if st.lost && !TakesSnapshot(s, force) then st
                       else Told(listed.listing))
  {
    hide TailAgrees, Agrees, SnapshotItems, DeltaItems, SnapshotProducer, DeltaProducer, Told, Fold;
    if !PollSucceeds(s, listed, force) {
      GapAppended(s, st, GlobalGap(s.p, at, BackendUnreachable), s.p);
    } else if TakesSnapshot(s, force) {
      SnapshotTells(s, c, listed.listing, at);
    } else {
      var next := if st.lost then st else Told(listed.listing);
      forall m | Agrees(m, st) ensures Agrees(Fold(m, DeltaItems(s.p, listed.listing, at, order)), next) {
        DeltaAgrees(m, st, s.p, listed.listing, at, order);
      }
      AppendedAgrees(s, st, DeltaItems(s.p, listed.listing, at, order), DeltaProducer(s.p, listed.listing, at), next);
    }
  }

  lemma {:induction false} RelistTells(s: ChangeState, st: Standing, scope: Scope, r: Relisted, now: Time)
    requires TailAgrees(s, st)
    ensures TailAgrees(Relist(s, scope, r, now), if r.Relisted? then ToldScope(st, scope) else st)
  {
    hide TailAgrees, Agrees, RelistItems, RelistProducer, ToldScope, Fold;
    if r.Relisted? {
      forall m | Agrees(m, st) ensures Agrees(Fold(m, RelistItems(scope, r, now)), ToldScope(st, scope)) {
        RelistAgrees(m, st, scope, r, now);
      }
      AppendedAgrees(s, st, RelistItems(scope, r, now), RelistProducer(s.p, scope, r, now), ToldScope(st, scope));
    }
  }

  lemma {:induction false} EventTells(s: ChangeState, st: Standing, scope: Scope, event: WatchEvent, generation: nat,
                                      now: Time)
    requires TailAgrees(s, st)
    ensures TailAgrees(ApplyWatchEvent(s, scope, event, generation, now), st)
  {
    hide TailAgrees, Agrees, SameFlags, Observe, Fold;
    if Current(s.p, scope, generation) {
      var items := ObservedItems(s.p, scope, event, now);
      ObservedAreQuiet(s.p, scope, event, now);
      forall m | Agrees(m, st) ensures Agrees(Fold(m, items), st) {
        QuietItems(m, items);
        SameAgrees(m, Fold(m, items), st);
      }
      AppendedAgrees(s, st, items, Observe(s.p, scope, event, now), st);
    }
  }

  lemma {:induction false} ObservedAreQuiet(p: Producer, scope: Scope, event: WatchEvent, now: Time)
    ensures AllQuiet(ObservedItems(p, scope, event, now))
  {
  }

  lemma {:induction false} SameAgrees(m: Mirror, n: Mirror, st: Standing)
    requires Agrees(m, st) && SameFlags(m, n)
    ensures Agrees(n, st)
  {
  }

  /** Only what the stream holds matters. */
  lemma {:induction false} SameStream(s: ChangeState, st: Standing, p: Producer)
    requires TailAgrees(s, st)
    ensures TailAgrees(s.(p := p), st)
  {
  }

  lemma {:induction false} ExpiryTells(w: World, st: Standing, scope: Scope, a: Answer, relisted: Relisted, now: Time)
    requires TailAgrees(w.s, st) && WatchingNow(w, scope)
    ensures TailAgrees(WatchExpired(w.s, w.config, scope, w.watchers[scope].generation, a.listed, relisted, now),
                       StandingAfter(w, st, Expires(scope, a, relisted, now)))
  {
    hide TailAgrees, Poll, Relist, PollSucceeds, GlobalGap, Told, ToldScope;
    var s := w.s;
    if w.watchers[scope].generation == s.p.generation {
      if w.config.canListScope {
        var since := if scope in s.p.continuous then Some(s.p.continuous[scope]) else None;
        var gap := Gap(now, ResourceVersionExpired, Some(scope), since);
        GapAppended(s, st, gap, s.p);
        RelistTells(s.(b := s.b.Append([gap])), st, scope, relisted, now);
        SameStream(s.(b := s.b.Append([gap])), st, s.p.(pending := s.p.pending + {scope}));
      } else {
        GlobalExpiryTells(s, st, w.config, a.listed, now, w);
      }
    }
  }

  lemma {:induction false} GlobalExpiryTells(s: ChangeState, st: Standing, c: Config, listed: Listed, now: Time,
                                             w: World)
    requires TailAgrees(s, st) && w.s == s
    ensures var declared := s.(b := s.b.Append([GlobalGap(s.p, now, ResourceVersionExpired)]));
            var polled := Poll(declared, c, listed, now, true, true, []);
            forall p :: TailAgrees(polled.(p := p), AfterListing(w, st.(lost := true), listed, true, true))
  {
    hide TailAgrees, Poll, Told;
    var declared := s.(b := s.b.Append([GlobalGap(s.p, now, ResourceVersionExpired)]));
    var polled := Poll(declared, c, listed, now, true, true, []);
    GapAppended(s, st, GlobalGap(s.p, now, ResourceVersionExpired), s.p);
    PollTells(declared, st.(lost := true), c, listed, now, true, true, []);
    assert PollSucceeds(declared, listed, true) == PollSucceeds(s, listed, true);
    forall p ensures TailAgrees(polled.(p := p), AfterListing(w, st.(lost := true), listed, true, true)) {
      SameStream(polled, AfterListing(w, st.(lost := true), listed, true, true), p);
    }
  }

  lemma {:induction false} BeatTells(s: ChangeState, st: Standing, now: Time)
    requires TailAgrees(s, st)
    ensures TailAgrees(Beat(s, now), st)
  {
    hide TailAgrees, Agrees, SameFlags, Fold;
    forall m | Agrees(m, st) ensures Agrees(Fold(m, [ChangeHeartbeat(now)]), st) {
      QuietItems(m, [ChangeHeartbeat(now)]);
      SameAgrees(m, Fold(m, [ChangeHeartbeat(now)]), st);
    }
    AppendedAgrees(s, st, [ChangeHeartbeat(now)], s.p, st);
  }

  lemma {:induction false} RestartTells(w: World, epoch: string)
    ensures TailAgrees(AfterRestart(w, epoch).s, NOTHING_LISTED)
  {
  }

  lemma {:induction false} StepTells(w: World, st: Standing, step: Step)
    requires Enabled(w, step) && TailAgrees(w.s, st)
    ensures TailAgrees(Next(w, step).s, StandingAfter(w, st, step))
  {
    hide TailAgrees, TrueAnswer, TrueRelist, TrueEvent, CanEnd, CanOccur, Poll, Relist, WatchExpired, ApplyWatchEvent,
         PollSucceeds, GlobalGap, Told, ToldScope;
    match step {
      case Polls(a, force, declare, order, now) => PollTells(w.s, st, w.config, a.listed, now, force, declare, order);
      case Delivers(scope, event, now) => EventTells(w.s, st, scope, event, w.watchers[scope].generation, now);
      case Expires(scope, a, relisted, now) => ExpiryTells(w, st, scope, a, relisted, now);
      case Fails(scope, now) => FailureTells(w, st, scope, now);
      case Relists(scope, relisted, now) => RelistTells(w.s, st, scope, relisted, now);
      case Beats(now) => BeatTells(w.s, st, now);
      case Restarts(epoch) => RestartTells(w, epoch);
      case _ => SameStream(w.s, st, Next(w, step).s.p);
    }
  }

  lemma {:induction false} FailureTells(w: World, st: Standing, scope: Scope, now: Time)
    requires TailAgrees(w.s, st) && WatchingNow(w, scope)
    ensures TailAgrees(WatchFailed(w.s, scope, w.watchers[scope].generation, now),
                       StandingAfter(w, st, Fails(scope, now)))
  {
    hide TailAgrees;
    GapAppended(w.s, st, GlobalGap(w.s.p, now, BackendUnreachable), w.s.p.(degraded := true));
  }

  // ---- whole runs -----------------------------------------------------------------------------

  /** Where the connector stands after i moves: only its own steps count. */
  ghost function StandingIn(xs: seq<System>, moves: seq<Move>, i: nat): Standing
    requires |xs| == |moves| + 1 && i < |xs|
  {
    if i == 0 then NOTHING_LISTED
    else
      var before := StandingIn(xs, moves, i - 1);
      if moves[i - 1].Produces? then StandingAfter(xs[i - 1].w, before, moves[i - 1].step) else before
  }

  lemma {:induction false} MoveTells(x: System, st: Standing, move: Move)
    requires TailAgrees(x.w.s, st) && CanMove(x, move)
    ensures TailAgrees(MoveTo(x, move).w.s, if move.Produces? then StandingAfter(x.w, st, move.step) else st)
  {
    hide TailAgrees, Next, Enabled, StandingAfter, PageFor;
    if move.Produces? {
      StepTells(x.w, st, move.step);
    }
  }

  lemma {:induction false} HistoryTells(xs: seq<System>, moves: seq<Move>, i: nat)
    requires IsHistory(xs, moves) && i < |xs|
    ensures TailAgrees(xs[i].w.s, StandingIn(xs, moves, i))
  {
    hide TailAgrees, CanMove, MoveTo, StandingAfter;
    if i > 0 {
      HistoryTells(xs, moves, i - 1);
      MoveTells(xs[i - 1], StandingIn(xs, moves, i - 1), moves[i - 1]);
    } else {
      NothingStands(xs[0]);
    }
  }

  lemma {:induction false} NothingStands(x: System)
    requires Initial(x)
    ensures TailAgrees(x.w.s, NOTHING_LISTED)
  {
  }

  /** Over every run: a caught-up reader answers exactly when the cluster was reached in the last listing that counts
      and nothing was lost since the last snapshot; it claims a scope complete exactly when that listing, or a relist
      since, was complete for it and it waits for no relist; and it reports exactly the failures of that listing in
      scopes not relisted since. */
  lemma {:induction false} AnswersExactly(xs: seq<System>, moves: seq<Move>, i: nat)
    requires IsHistory(xs, moves) && i < |xs| && CaughtUp(xs[i])
    ensures var m, st := xs[i].r.mirror, StandingIn(xs, moves, i);
            && (Serves(m) <==> !st.unreached && !st.lost)
            && m.completed - m.gapped == st.completed - xs[i].w.s.p.pending
            && forall f :: f in m.failed <==> f in st.failed
  {
    HistoryTells(xs, moves, i);
    HistoryKeepsMirror(xs, moves, i);
    MirrorRefinesProducer(xs, moves, i, EMPTY);
    CaughtUpFold(xs[i]);
    var m, st := xs[i].r.mirror, StandingIn(xs, moves, i);
    assert Agrees(m, st);
    assert forall f :: f in m.failed <==> f in (set g | g in m.failed);
    hide IsHistory, StandingIn, Fold, StreamOk, MirrorOk;
  }

  /** Over every run: a reader that is caught up after the watch of a scope failed does not answer, exactly if no outage
      was known before, or it stood unreached or lost already; after an outage that a listing has covered since, the
      loss leaves readers answering. */
  lemma {:induction false} LossSilencesExactly(xs: seq<System>, moves: seq<Move>, i: nat, scope: Scope, now: Time)
    requires IsHistory(xs, moves) && i < |moves| && moves[i] == Produces(Fails(scope, now))
    requires CurrentWatch(xs[i].w, scope)
    ensures var st, next := StandingIn(xs, moves, i), StandingIn(xs, moves, i + 1);
            next.unreached || next.lost <==> !xs[i].w.s.p.degraded || st.unreached || st.lost
    ensures forall k :: i < k < |xs| && CaughtUp(xs[k]) && StandingIn(xs, moves, k) == StandingIn(xs, moves, i + 1) ==>
              (Serves(xs[k].r.mirror) <==>
                 xs[i].w.s.p.degraded && !StandingIn(xs, moves, i).unreached && !StandingIn(xs, moves, i).lost)
  {
    hide CanMove, MoveTo, Initial, CaughtUp, Serves;
    forall k | i < k < |xs| && CaughtUp(xs[k]) && StandingIn(xs, moves, k) == StandingIn(xs, moves, i + 1)
      ensures Serves(xs[k].r.mirror) <==>
                !StandingIn(xs, moves, i + 1).unreached && !StandingIn(xs, moves, i + 1).lost
    {
      AnswersExactly(xs, moves, k);
    }
  }
}
