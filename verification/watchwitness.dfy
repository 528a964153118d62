/** A run with a watch in it: listed, watched from the listed version, a change delivered, a newer version held for the
    watch and adopted when the server ends it. The assumptions about watches can be met together. */
module WatchWitness {
  import opened Text
  import opened Wire
  import opened Streams
  import opened Producing
  import opened Cluster
  import opened Worlds

  const PODS := Scope("shop", "Pod")
  const SERVICES := Scope("shop", "Service")
  const POD := Body(Some("Pod"), Some("shop"), Some("a"), None, 1)
  const CHANGED := POD.(content := 2)
  const SERVICE := Body(Some("Service"), Some("shop"), Some("s"), None, 3)
  const KEY := "shop" + "/" + "Pod" + "/" + "a"
  const FIRST := Version(1, true)
  const SECOND := Version(2, true)
  const THIRD := Version(3, true)
  const LISTING := Listing([POD], {PODS}, [], map[PODS := FIRST], [], map[])

  const BEGUN := World(Config({"shop"}, true, true), 0, map[], 0, map[], map[],
                       ChangeState(STARTED, Streams.Fresh("run", 10)), map[], map[], {}, {"run"})
  const CREATED := BEGUN.(logs := map[PODS := [Change(1, false, POD)]], tip := 1)

  const KNOWING := STARTED.(seen := map[KEY := POD], versions := map[PODS := FIRST], generation := 1,
                            continuous := map[PODS := 0])
  const LISTED := CREATED.(s := ChangeState(KNOWING, Streams.Fresh("run", 10).Append(SnapshotItems(LISTING, 0))
                                                       .(baseline := Some(1))))
  const OPENED := KNOWING.(watchIds := 1, openWatches := map[PODS := 1])
  const REGISTERED := LISTED.(s := LISTED.s.(p := OPENED), watchers := map[PODS := Registered(1)])
  const WATCHING := REGISTERED.(watchers := map[PODS := Watching(1, 1, 1)])
  const MOVED := WATCHING.(logs := map[PODS := [Change(1, false, POD), Change(2, false, CHANGED)]], tip := 2)
  const DELIVERED := MOVED.(s := ChangeState(OPENED.(seen := map[KEY := CHANGED], versions := map[PODS := SECOND]),
                                             MOVED.s.b.Append([ObjectItem(0, CHANGED)])),
                            watchers := map[PODS := Watching(1, 1, 2)])
  const AHEAD := DELIVERED.(logs := DELIVERED.logs[SERVICES := [Change(3, false, SERVICE)]], tip := 3)
  const HOLDING := AHEAD.(s := AHEAD.s.(p := AHEAD.s.p.(synthetic := map[PODS := Held(1, THIRD)])))
  const ENDED := AHEAD.(s := AHEAD.s.(p := AHEAD.s.p.(versions := map[PODS := THIRD])),
                        watchers := map[PODS := Over(1)])

  const STEPS := [
    Occurs(PODS, Change(1, false, POD)),
    Polls(Answer(Listed(LISTING), map[PODS := 1], map[]), true, true, [], 0),
    Registers(PODS),
    Starts(PODS),
    Occurs(PODS, Change(2, false, CHANGED)),
    Delivers(PODS, WatchEvent(Modified, CHANGED, SECOND), 0),
    Occurs(SERVICES, Change(3, false, SERVICE)),
    Holds(PODS, 1, THIRD),
    Ends(PODS, 0)
  ]

  lemma {:induction false} NamesItsScope(body: Body, kind: string)
    requires body.kind == Some(kind) && body.namespace == Some("shop") && body.name.Some? && '/' !in kind
    ensures ObjectKey(body) == Some("shop" + "/" + kind + "/" + body.name.value)
    ensures ScopeOfKey(ObjectKey(body).value) == Some(Scope("shop", kind))
  {
    hide ScopeOfKey;
    KeyNamesItsScope(body);
  }

  lemma {:induction false} Keys()
    ensures ObjectKey(POD) == Some(KEY) && ObjectKey(CHANGED) == Some(KEY) && ScopeOfKey(KEY) == Some(PODS)
    ensures KeyIn(PODS, POD) == Some(KEY) && KeyIn(PODS, CHANGED) == Some(KEY)
    ensures KeyIn(SERVICES, SERVICE).Some? && ScopeOfKey(KeyIn(SERVICES, SERVICE).value) == Some(SERVICES)
  {
    hide ScopeOfKey;
    NamesItsScope(POD, "Pod");
    NamesItsScope(SERVICE, "Service");
  }

  lemma {:induction false} PodOccurs()
    ensures Enabled(BEGUN, STEPS[0]) && Next(BEGUN, STEPS[0]) == CREATED
  {
    Keys();
    assert BEGUN.LogOf(PODS) + [Change(1, false, POD)] == [Change(1, false, POD)];
  }

  lemma {:induction false} ListedPods()
    ensures Overlay(map[], Allowed([POD])) == map[KEY := POD]
    ensures ListedAt(PODS, [Change(1, false, POD)], 1) == map[KEY := POD]
  {
    Keys();
    assert [POD][..0] == [] && [Change(1, false, POD)][..0] == [];
    assert Allowed([POD]) == [POD];
  }

  lemma {:induction false} PodIsListed()
    ensures Enabled(CREATED, STEPS[1]) && Next(CREATED, STEPS[1]) == LISTED
  {
    ListedPods();
    ListingIsTrue();
    SnapshotTaken();
  }

  lemma {:induction false} ObjectsAreTrue()
    ensures TrueObjects(CREATED, LISTING, map[PODS := 1])
  {
    Keys();
    ListedPods();
    hide Overlay, Allowed, ListedAt, ScopeOfKey;
    assert CREATED.LogOf(PODS) == [Change(1, false, POD)];
  }

  lemma {:induction false} EventsAreTrue()
    ensures TrueEvents(CREATED, LISTING, map[])
  {
    var none: map<Scope, Version> := map[];
    assert CREATED.remembered + none == map[];
  }

  lemma {:induction false} ListingIsTrue()
    ensures TrueAnswer(CREATED, Answer(Listed(LISTING), map[PODS := 1], map[]))
  {
    hide TrueObjects, TrueEvents;
    ObjectsAreTrue();
    EventsAreTrue();
  }

  lemma {:induction false} SnapshotTaken()
    ensures Snapshot(CREATED.s, CREATED.config, LISTING, 0) == LISTED.s
  {
    ListedPods();
    var none: map<Scope, Version> := map[];
    assert LISTING.versions + none == map[PODS := FIRST];
  }

  lemma {:induction false} WatchStarts()
    ensures Enabled(LISTED, STEPS[2]) && Next(LISTED, STEPS[2]) == REGISTERED
    ensures Enabled(REGISTERED, STEPS[3]) && Next(REGISTERED, STEPS[3]) == WATCHING
  {
    hide SnapshotItems;
    assert REGISTERED.s.p.versions[PODS] == FIRST && MayStart(REGISTERED.s.p, REGISTERED.config, PODS);
    assert REGISTERED.watchers[PODS := Watching(1, 1, 1)] == WATCHING.watchers;
    var none: map<Scope, nat> := map[];
    assert none[PODS := 1] == map[PODS := 1];
  }

  lemma {:induction false} PodChanges()
    ensures Enabled(WATCHING, STEPS[4]) && Next(WATCHING, STEPS[4]) == MOVED
  {
    Keys();
    hide SnapshotItems, KEY, ScopeOfKey, ObjectKey, NamespaceText;
    assert WATCHING.LogOf(PODS) + [Change(2, false, CHANGED)] == [Change(1, false, POD), Change(2, false, CHANGED)];
  }

  lemma {:induction false} ChangeIsDelivered()
    ensures Enabled(MOVED, STEPS[5]) && Next(MOVED, STEPS[5]) == DELIVERED
  {
    hide SnapshotItems, ApplyWatchEvent, KEY;
    var event := WatchEvent(Modified, CHANGED, SECOND);
    assert TrueChange(MOVED.LogOf(PODS), 1, 1, event);
    ChangeIsObserved();
  }

  lemma {:induction false} ChangeIsObserved()
    ensures var event := WatchEvent(Modified, CHANGED, SECOND);
            ApplyWatchEvent(MOVED.s, PODS, event, 1, 0) == DELIVERED.s
  {
    Keys();
    hide SnapshotItems, KEY, ObjectKey, NamespaceText, ScopeOfKey, KeyIn;
    assert map[KEY := POD][KEY := CHANGED] == map[KEY := CHANGED];
    assert map[PODS := FIRST][PODS := SECOND] == map[PODS := SECOND];
    assert map[PODS := 0][PODS := 0] == map[PODS := 0];
  }

  lemma {:induction false} ServiceOccurs()
    ensures Enabled(DELIVERED, STEPS[6]) && Next(DELIVERED, STEPS[6]) == AHEAD
  {
    hide SnapshotItems;
    Keys();
    assert DELIVERED.LogOf(SERVICES) + [Change(3, false, SERVICE)] == [Change(3, false, SERVICE)];
  }

  lemma {:induction false} VersionIsHeld()
    ensures Enabled(AHEAD, STEPS[7]) && Next(AHEAD, STEPS[7]) == HOLDING
  {
    hide SnapshotItems;
    var none: map<Scope, Held> := map[];
    assert none[PODS := Held(1, THIRD)] == map[PODS := Held(1, THIRD)];
  }

  lemma {:induction false} WatchEnds()
    ensures Enabled(HOLDING, STEPS[8]) && Next(HOLDING, STEPS[8]) == ENDED
  {
    hide SnapshotItems;
    var none: map<Scope, Held> := map[];
    assert map[PODS := Held(1, THIRD)] - {PODS} == none;
    assert map[PODS := SECOND][PODS := THIRD] == map[PODS := THIRD];
    assert map[PODS := 0][PODS := 0] == map[PODS := 0];
    assert QuietBetween(HOLDING.LogOf(PODS), 2, 3);
  }

  ghost predicate Leads(w: World, step: Step, n: World) {
    Enabled(w, step) && Next(w, step) == n
  }

  lemma {:induction false} ChainIsRun(worlds: seq<World>, steps: seq<Step>)
    requires |worlds| == |steps| + 1 && Starting(worlds[0]) && ClusterIsSound(worlds[0])
    requires forall i :: 0 <= i < |steps| ==> Leads(worlds[i], steps[i], worlds[i + 1])
    ensures IsRun(worlds, steps)
  {
    hide Enabled, Next, Starting, ClusterIsSound;
    forall i | 0 <= i < |steps| ensures Enabled(worlds[i], steps[i]) && worlds[i + 1] == Next(worlds[i], steps[i]) {
      assert Leads(worlds[i], steps[i], worlds[i + 1]);
    }
  }

  lemma {:induction false} NineLead(w: seq<World>, s: seq<Step>)
    requires |w| == 10 && |s| == 9
    requires Leads(w[0], s[0], w[1]) && Leads(w[1], s[1], w[2]) && Leads(w[2], s[2], w[3])
    requires Leads(w[3], s[3], w[4]) && Leads(w[4], s[4], w[5]) && Leads(w[5], s[5], w[6])
    requires Leads(w[6], s[6], w[7]) && Leads(w[7], s[7], w[8]) && Leads(w[8], s[8], w[9])
    ensures forall i :: 0 <= i < |s| ==> Leads(w[i], s[i], w[i + 1])
  {
    hide Leads;
  }

  lemma {:induction false} EndedState()
    ensures ENDED.s.p.seen == map[KEY := CHANGED] && ENDED.s.p.versions == map[PODS := THIRD]
    ensures Starting(BEGUN) && ClusterIsSound(BEGUN)
  {
  }

  /** The watch ends with its change seen and the scope at the version held for it, newer than anything delivered. */
  lemma {:induction false} BookmarkIsAdopted()
    ensures IsRun([BEGUN, CREATED, LISTED, REGISTERED, WATCHING, MOVED, DELIVERED, AHEAD, HOLDING, ENDED], STEPS)
    ensures ENDED.s.p.seen == map[KEY := CHANGED] && ENDED.s.p.versions == map[PODS := THIRD]
  {
    hide IsRun, Enabled, Next, SnapshotItems, Starting, ClusterIsSound;
    PodOccurs();
    PodIsListed();
    WatchStarts();
    PodChanges();
    ChangeIsDelivered();
    ServiceOccurs();
    VersionIsHeld();
    WatchEnds();
    EndedState();
    var worlds := [BEGUN, CREATED, LISTED, REGISTERED, WATCHING, MOVED, DELIVERED, AHEAD, HOLDING, ENDED];
    NineLead(worlds, STEPS);
    hide Leads;
    ChainIsRun(worlds, STEPS);
  }
}
