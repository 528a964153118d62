/** Where one gap for an outage is not enough: a run in which a second watch is lost after a reconciliation, and every
    reader goes on answering and claiming its scope. */
module Unsaid {
  import opened Text
  import opened Wire
  import opened Streams
  import opened Mirrors
  import opened Producing
  import opened Cluster
  import opened Worlds
  import opened Refinement
  import opened EndToEnd
  import W = WatchWitness
  import C = Connectors

  const PODS := W.PODS
  const SERVICES := W.SERVICES
  const NONE := Version(0, true)

  /** Two scopes of an empty cluster. */
  const LISTING := Listing([], {PODS, SERVICES}, [], map[PODS := NONE, SERVICES := NONE], [], map[])
  const ANSWER := Answer(Listed(LISTING), map[PODS := 0, SERVICES := 0], map[])

  const BEGUN := World(Config({"shop"}, true, true), 0, map[], 0, map[], map[],
                       ChangeState(STARTED, Streams.Fresh("run", 10)), map[], map[], {}, {"run"})
  const KNOWING := STARTED.(versions := map[PODS := NONE, SERVICES := NONE], generation := 1,
                            continuous := map[PODS := 0, SERVICES := 0])
  const TOLD := [SnapshotBegin(0, None), ListingStatus(0, true, {PODS, SERVICES}, [], None)]
  const GAP := Gap(0, BackendUnreachable, None, Some(0))
  const LISTED := BEGUN.(s := ChangeState(KNOWING, Buffer("run", 10, TOLD, Some(1))))
  const OPENED := KNOWING.(watchIds := 2, openWatches := map[PODS := 1, SERVICES := 2])
  const BOTH := LISTED.(s := LISTED.s.(p := OPENED),
                        watchers := map[PODS := Registered(1), SERVICES := Registered(2)])
  const WATCHING := BOTH.(watchers := map[PODS := Watching(1, 1, 0), SERVICES := Watching(2, 1, 0)])
  const LOST := WATCHING.(s := ChangeState(OPENED.(degraded := true),
                                           Buffer("run", 10, TOLD + [GAP], Some(1))),
                          watchers := map[PODS := Over(1), SERVICES := Watching(2, 1, 0)])
  const RECONCILED := LOST.(s := LOST.s.(b := LOST.s.b.Append([ListingStatus(0, false, {PODS, SERVICES}, [], None)])))
  const UNSAID := RECONCILED.(watchers := map[PODS := Over(1), SERVICES := Over(2)])

  const HALF := LISTED.(s := LISTED.s.(p := KNOWING.(watchIds := 1, openWatches := map[PODS := 1])),
                        watchers := map[PODS := Registered(1)])
  const ONE := BOTH.(watchers := map[PODS := Watching(1, 1, 0), SERVICES := Registered(2)])

  const STEPS := [
    Polls(ANSWER, true, true, [], 0),
    Registers(PODS),
    Registers(SERVICES),
    Starts(PODS),
    Starts(SERVICES),
    Fails(PODS, 0),
    Polls(ANSWER, false, true, [], 0),
    Fails(SERVICES, 0)
  ]

  lemma {:induction false} NothingListed()
    ensures Allowed([]) == [] && Overlay(map[], []) == map[] && OverlayEvents(map[], []) == map[]
    ensures ObjectItems([], 0) == [] && EventItems([], 0) == []
    ensures ChangedItems(map[], [], 0) == [] && ChangedEventItems(map[], [], 0) == [] && Deletions([], 0) == []
  {
  }

  /** An empty cluster is truly listed as empty by a connector whose versions are not ahead of it. */
  lemma {:induction false} EmptyIsTrue(w: World)
    requires w.logs == map[] && w.tip == 0 && w.remembered == map[] && w.owner == map[]
    requires forall s :: s in w.s.p.versions ==> w.s.p.versions[s].at == 0
    requires forall s :: s in w.watchers && w.watchers[s].Watching? ==> w.watchers[s].position == 0
    ensures TrueAnswer(w, ANSWER)
  {
    NothingListed();
    var none: map<Scope, Version> := map[];
    assert w.remembered + none == map[];
    forall s ensures w.LogOf(s) == [] && ListedAt(s, w.LogOf(s), 0) == map[] {
    }
    hide Allowed, Overlay, OverlayEvents, ListedAt, ScopeOfKey;
  }

  lemma {:induction false} SnapshotTaken()
    ensures Enabled(BEGUN, STEPS[0]) && Next(BEGUN, STEPS[0]) == LISTED
  {
    EmptyIsTrue(BEGUN);
    NothingListed();
    hide TrueAnswer, Allowed, Overlay, OverlayEvents, ObjectItems, EventItems;
    var none: map<Scope, Version> := map[];
    assert LISTING.versions + none == LISTING.versions;
    assert (map s | s in LISTING.versions :: 0) == map[PODS := 0, SERVICES := 0];
    assert SnapshotItems(LISTING, 0) == TOLD;
  }

  lemma {:induction false} BothRegister()
    ensures Enabled(LISTED, STEPS[1]) && Next(LISTED, STEPS[1]) == HALF
    ensures Enabled(HALF, STEPS[2]) && Next(HALF, STEPS[2]) == BOTH
  {
    var none: map<Scope, nat> := map[];
    assert none[PODS := 1] == map[PODS := 1] && map[PODS := 1][SERVICES := 2] == map[PODS := 1, SERVICES := 2];
  }

  lemma {:induction false} BothStart()
    ensures Enabled(BOTH, STEPS[3]) && Next(BOTH, STEPS[3]) == ONE
    ensures Enabled(ONE, STEPS[4]) && Next(ONE, STEPS[4]) == WATCHING
  {
    assert BOTH.watchers[PODS := Watching(1, 1, 0)] == ONE.watchers;
    assert ONE.watchers[SERVICES := Watching(2, 1, 0)] == WATCHING.watchers;
  }

  lemma {:induction false} FirstIsSaid()
    ensures Enabled(WATCHING, STEPS[5]) && Next(WATCHING, STEPS[5]) == LOST
  {
    var continuous := WATCHING.s.p.continuous;
    assert continuous == map[PODS := 0, SERVICES := 0];
    assert IsEarliest(continuous, PODS);
    C.EarliestIs(continuous, PODS);
    assert WATCHING.watchers[PODS := Over(1)] == LOST.watchers;
    assert TOLD + [GAP] == LOST.s.b.log;
  }

  lemma {:induction false} ReconciliationTaken()
    ensures Enabled(LOST, STEPS[6]) && Next(LOST, STEPS[6]) == RECONCILED
  {
    EmptyIsTrue(LOST);
    NoneIsGone();
    NothingChanged();
    hide TrueAnswer, Delta, DeltaDoomed;
  }

  lemma {:induction false} NoneIsGone()
    ensures DeltaDoomed(LOST.s.p, LISTING) == {} && Enumerates<string>([], {})
  {
    NothingListed();
    hide Allowed, Overlay;
  }

  lemma {:induction false} NothingChanged()
    ensures Delta(LOST.s, LISTING, 0, []) == RECONCILED.s
  {
    NothingListed();
    NoneIsGone();
    hide Allowed, Overlay, OverlayEvents, ChangedItems, ChangedEventItems, Deletions, DeltaDoomed;
    var none: map<Scope, Version> := map[];
    assert LISTING.versions + none == LISTING.versions;
    assert LOST.s.p.versions + LISTING.versions == LOST.s.p.versions;
    assert LOST.s.p.continuous + (map s | s in LISTING.completed :: 0) == LOST.s.p.continuous;
    assert DeltaItems(LOST.s.p, LISTING, 0, []) == [ListingStatus(0, false, {PODS, SERVICES}, [], None)];
  }

  lemma {:induction false} SecondIsUnsaid()
    ensures Enabled(RECONCILED, STEPS[7]) && Next(RECONCILED, STEPS[7]) == UNSAID
    ensures LosesScope(RECONCILED, STEPS[7], SERVICES) && UNSAID.s == RECONCILED.s
  {
    assert RECONCILED.watchers[SERVICES := Over(2)] == UNSAID.watchers;
  }

  /** What any mirror that reads the whole stream then says. */
  lemma {:induction false} ReaderIsNotTold()
    ensures var m := Fold(EMPTY, UNSAID.s.b.log); Serves(m) && SERVICES in m.completed - m.gapped
  {
    var log := UNSAID.s.b.log;
    var gap, end := GAP, ListingStatus(0, false, {PODS, SERVICES}, [], None);
    assert log == TOLD[..1] + TOLD[1..] + [gap] + [end];
    FoldConcat(EMPTY, TOLD[..1] + TOLD[1..] + [gap], [end]);
    FoldConcat(EMPTY, TOLD[..1] + TOLD[1..], [gap]);
    FoldConcat(EMPTY, TOLD[..1], TOLD[1..]);
    FoldOne(EMPTY, TOLD[0]);
    var begun := ApplyItem(EMPTY, TOLD[0]);
    FoldOne(begun, TOLD[1]);
    var listed := ApplyItem(begun, TOLD[1]);
    FoldOne(listed, gap);
    FoldOne(ApplyItem(listed, gap), end);
    hide Fold;
  }

  /** The watch of the services is lost and waits for the retry, nothing on the stream says so, and a mirror that has
      read all of it answers and claims them complete. */
  lemma {:induction false} SecondLossIsUnsaid()
    ensures IsRun([BEGUN, LISTED, HALF, BOTH, ONE, WATCHING, LOST, RECONCILED, UNSAID], STEPS)
    ensures LosesScope(RECONCILED, STEPS[7], SERVICES) && Waits(UNSAID.s.p, SERVICES)
    ensures UNSAID.s.b.log == RECONCILED.s.b.log
    ensures var m := Fold(EMPTY, UNSAID.s.b.log); Serves(m) && SERVICES in m.completed - m.gapped
  {
    hide Enabled, Next, Starting, ClusterIsSound, Fold, IsRun;
    SnapshotTaken();
    BothRegister();
    BothStart();
    FirstIsSaid();
    ReconciliationTaken();
    SecondIsUnsaid();
    ReaderIsNotTold();
    var w := [BEGUN, LISTED, HALF, BOTH, ONE, WATCHING, LOST, RECONCILED, UNSAID];
    EightLead(w, STEPS);
    BegunIsSound();
    hide W.Leads;
    W.ChainIsRun(w, STEPS);
  }

  lemma {:induction false} BegunIsSound()
    ensures Starting(BEGUN) && ClusterIsSound(BEGUN)
  {
  }

  lemma {:induction false} EightLead(w: seq<World>, s: seq<Step>)
    requires |w| == 9 && |s| == 8
    requires W.Leads(w[0], s[0], w[1]) && W.Leads(w[1], s[1], w[2]) && W.Leads(w[2], s[2], w[3])
    requires W.Leads(w[3], s[3], w[4]) && W.Leads(w[4], s[4], w[5]) && W.Leads(w[5], s[5], w[6])
    requires W.Leads(w[6], s[6], w[7]) && W.Leads(w[7], s[7], w[8])
    ensures forall i :: 0 <= i < |s| ==> W.Leads(w[i], s[i], w[i + 1])
  {
    hide W.Leads;
  }
}
