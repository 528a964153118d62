/** What a retry does, as steps of a run, and what a snapshot leaves to be watched. */
module Retries {
  import opened Text
  import opened Wire
  import opened Streams
  import opened Producing
  import opened Worlds

  /** A snapshot lets a scope's watch start exactly when the listing gave the scope a version, nothing failed,
      and, where the cluster gives Events versions at all, every watched namespace's Events have one. Otherwise it lets
      none. */
  lemma {:induction false} SnapshotWatchesExactly(s: ChangeState, c: Config, l: Listing, at: Time, scope: Scope)
    requires Fits(s.b, l)
    ensures var n := Poll(s, c, Listed(l), at, true, true, []);
            && (MayStart(n.p, c, scope) <==>
                  && c.canWatch && (scope in l.versions || scope in l.eventVersions) && l.failed == []
                  && (l.eventVersions == map[] ||
                        forall ns :: ns in c.namespaces ==>
                          Scope(ns, "Event") in l.versions || Scope(ns, "Event") in l.eventVersions))
            && (MayStart(n.p, c, scope) ==>
                  n.p.versions[scope] == if scope in l.eventVersions then l.eventVersions[scope] else l.versions[scope])
  {
    hide Overlay, OverlayEvents, Allowed, SnapshotItems;
  }

  /** These steps, one after another, lead from one world to another. */
  ghost predicate LeadTo(w: World, steps: seq<Step>, n: World) {
    if steps == [] then n == w
    else
      var front, last := steps[..|steps| - 1], steps[|steps| - 1];
      exists m :: LeadTo(w, front, m) && LeadsOn(m, last, n)
  }

  ghost predicate LeadsOn(w: World, step: Step, n: World) {
    Enabled(w, step) && n == Next(w, step)
  }

  function RelistSteps(order: seq<Scope>, answers: map<Scope, Relisted>, now: Time): (steps: seq<Step>)
    requires forall scope :: scope in order ==> scope in answers
    ensures |steps| == |order|
    ensures forall i :: 0 <= i < |order| ==> steps[i] == Relists(order[i], answers[order[i]], now)
  {
    seq(|order|, i requires 0 <= i < |order| => Relists(order[i], answers[order[i]], now))
  }

  /** What a relist of one scope leaves another to stand on. */
  predicate Untouched(w: World, n: World, scope: Scope) {
    && n.config == w.config && n.logs == w.logs && n.tip == w.tip && n.owner == w.owner && n.watchers == w.watchers
    && n.s.p.generation == w.s.p.generation && n.s.p.degraded == w.s.p.degraded
    && (scope in n.s.p.pending <==> scope in w.s.p.pending)
    && (scope in n.s.p.versions <==> scope in w.s.p.versions)
    && (scope in w.s.p.versions ==> n.s.p.versions[scope] == w.s.p.versions[scope])
  }

  lemma {:induction false} RelistLeavesOthers(w: World, relisted: Scope, r: Relisted, now: Time, scope: Scope)
    requires relisted != scope
    ensures Untouched(w, AfterRelist(w, relisted, r, now), scope)
  {
    hide RelistItems, Overlay, OverlayEvents, Allowed, SeenOutside;
  }

  lemma {:induction false} StillTrue(w: World, n: World, scope: Scope, r: Relisted)
    requires Untouched(w, n, scope) && TrueRelist(w, scope, r)
    ensures TrueRelist(n, scope, r)
  {
    assert n.LogOf(scope) == w.LogOf(scope);
    assert r.Relisted? ==> NotStale(n, scope, r.version.at);
    hide NotStale;
  }

  predicate Distinct(order: seq<Scope>) {
    forall i, j :: 0 <= i < j < |order| ==> order[i] != order[j]
  }

  /** The relists of some pending scopes, one after another, are steps of a run, and do what a retry does. */
  lemma {:induction false} RelistsLead(w: World, order: seq<Scope>, answers: map<Scope, Relisted>, now: Time)
    returns (n: World)
    requires w.now <= now && !w.s.p.degraded && Distinct(order)
    requires forall scope :: scope in order ==>
               scope in answers && scope in w.s.p.pending && TrueRelist(w, scope, answers[scope])
    ensures LeadTo(w, RelistSteps(order, answers, now), n) && n.s == RelistAll(w.s, order, answers, now)
    ensures n.now == if order == [] then w.now else now
    ensures forall scope :: scope !in order ==> Untouched(w, n, scope)
  {
    hide TrueRelist, Untouched, Relist;
    if order == [] {
      n := w;
      forall scope ensures Untouched(w, w, scope) {
        SameUntouched(w, scope);
      }
    } else {
      var front, last := order[..|order| - 1], order[|order| - 1];
      var m := RelistsLead(w, front, answers, now);
      LastIsEnabled(w, m, last, answers[last], now);
      n := Next(m, Relists(last, answers[last], now));
      assert LeadsOn(m, Relists(last, answers[last], now), n);
      assert RelistSteps(order, answers, now)[..|order| - 1] == RelistSteps(front, answers, now);
      forall scope | scope !in order ensures Untouched(w, n, scope) {
        RelistLeavesOthers(m, last, answers[last], now, scope);
        UntouchedTwice(w, m, n, scope);
      }
    }
  }

  lemma {:induction false} SameUntouched(w: World, scope: Scope)
    ensures Untouched(w, w, scope)
  {
  }

  lemma {:induction false} UntouchedTwice(w: World, m: World, n: World, scope: Scope)
    requires Untouched(w, m, scope) && Untouched(m, n, scope)
    ensures Untouched(w, n, scope)
  {
  }

  lemma {:induction false} LastIsEnabled(w: World, m: World, scope: Scope, r: Relisted, now: Time)
    requires Untouched(w, m, scope) && TrueRelist(w, scope, r) && m.now <= now
    requires scope in w.s.p.pending && !w.s.p.degraded
    ensures Enabled(m, Relists(scope, r, now))
    ensures Next(m, Relists(scope, r, now)) == AfterRelist(m, scope, r, now)
    ensures AfterRelist(m, scope, r, now).s == Relist(m.s, scope, r, now) && AfterRelist(m, scope, r, now).now == now
  {
    StillTrue(w, m, scope, r);
    hide TrueRelist, Relist;
  }

  /** A retry is steps of a run: one forced poll that declares nothing while everything waits, else a relist of each
      pending scope. So whatever holds over every run holds of retries. */
  lemma {:induction false} RetryIsSteps(w: World, a: Answer, answers: map<Scope, Relisted>, now: Time,
                                        order: seq<Scope>) returns (steps: seq<Step>, n: World)
    requires w.now <= now && TrueAnswer(w, a) && Distinct(order)
    requires forall scope :: scope in order <==> scope in w.s.p.pending
    requires forall scope :: scope in order ==> scope in answers && TrueRelist(w, scope, answers[scope])
    ensures LeadTo(w, steps, n) && n.s == Retry(w.s, w.config, a.listed, answers, now, order)
    ensures if w.s.p.degraded then steps == [Polls(a, true, false, [], now)]
            else steps == RelistSteps(order, answers, now)
  {
    hide TrueAnswer, TrueRelist, Poll, RelistAll;
    if w.s.p.degraded {
      steps := [Polls(a, true, false, [], now)];
      n := Next(w, steps[0]);
      assert LeadsOn(w, steps[0], n);
      assert steps[..0] == [] && LeadTo(w, steps[..0], w);
    } else {
      steps := RelistSteps(order, answers, now);
      n := RelistsLead(w, order, answers, now);
    }
  }
}
