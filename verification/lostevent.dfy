/** A run in which a snapshot loses an Event: the limit of resume convergence for Event scopes, step by step. */
module LostEvent {
  import opened Text
  import opened Wire
  import opened Streams
  import opened Producing
  import opened Cluster
  import opened Worlds

  const EVENTS := Scope("shop", "Event")
  const CREATED := Body(Some("Event"), Some("shop"), Some("created"), Some("uid"), 0)
  const CHANGE := Change(1, false, CREATED)
  const KNOWN: map<Scope, Version> := map[EVENTS := Version(1, true)]
  const FIRST := Listing([], {}, [], map[], [CREATED], KNOWN)
  const SECOND := Listing([], {}, [], map[], [], KNOWN)

  const BEGUN := World(Config({"shop"}, true, true), 0, map[], 0, map[], map[],
                       ChangeState(STARTED, Streams.Fresh("run", 10)), map[], map[], {}, {"run"})
  const OCCURRED := BEGUN.(logs := map[EVENTS := [CHANGE]], tip := 1, owner := map["uid" := EVENTS])
  const LISTED := OCCURRED.(remembered := KNOWN, s := Snapshot(OCCURRED.s, OCCURRED.config, FIRST, 0))
  const FORGOTTEN := LISTED.(s := Snapshot(LISTED.s, LISTED.config, SECOND, 0), unlisted := map[EVENTS := 1])

  const OCCURS := Occurs(EVENTS, CHANGE)
  const LISTS := Polls(Answer(Listed(FIRST), map[], KNOWN), true, true, [], 0)
  const MISSES := Polls(Answer(Listed(SECOND), map[], map[]), true, true, [], 0)

  lemma {:induction false} KeyOfEvent()
    ensures KeyIn(EVENTS, CREATED) == Some("uid")
  {
  }

  lemma {:induction false} StateOfEvents()
    ensures CurrentState(EVENTS, [CHANGE]) == map["uid" := CREATED]
    ensures ListedAt(EVENTS, [CHANGE], 1) == map["uid" := CREATED]
    ensures Replay(map[], EVENTS, [CHANGE], 1) == map[]
    ensures OverlayEvents(map[], [CREATED]) == map["uid" := CREATED]
    ensures OverlayEvents(map[], []) == map[] && Overlay(map[], Allowed([])) == map[]
  {
    KeyOfEvent();
    assert [CHANGE][..0] == [] && [CREATED][..0] == [];
  }

  lemma {:induction false} EventOccurs()
    ensures Enabled(BEGUN, OCCURS) && Next(BEGUN, OCCURS) == OCCURRED
  {
    KeyOfEvent();
    assert BEGUN.LogOf(EVENTS) + [CHANGE] == [CHANGE];
  }

  lemma {:induction false} ListedIsTrue()
    ensures TrueAnswer(OCCURRED, Answer(Listed(FIRST), map[], KNOWN))
  {
    StateOfEvents();
    hide SnapshotItems, ListedAt;
    assert OCCURRED.LogOf(EVENTS) == [CHANGE];
    assert OCCURRED.remembered + KNOWN == KNOWN;
    assert TrueEvents(OCCURRED, FIRST, KNOWN);
  }

  lemma {:induction false} EventIsListed()
    ensures Enabled(OCCURRED, LISTS) && Next(OCCURRED, LISTS) == LISTED
  {
    hide TrueAnswer, SnapshotItems, ListedAt;
    ListedIsTrue();
    assert OCCURRED.remembered + KNOWN == KNOWN;
    assert KNOWN.Keys - KNOWN.Keys == {};
    assert UnlistedAfter(OCCURRED, Answer(Listed(FIRST), map[], KNOWN), true) == map[];
  }

  lemma {:induction false} MissedIsTrue()
    ensures TrueAnswer(LISTED, Answer(Listed(SECOND), map[], map[]))
  {
    hide SnapshotItems, ListedAt;
    var none: map<Scope, Version> := map[];
    assert LISTED.remembered + none == KNOWN;
    assert TrueEvents(LISTED, SECOND, none);
  }

  lemma {:induction false} EventsAreMissed()
    ensures Enabled(LISTED, MISSES) && Next(LISTED, MISSES) == FORGOTTEN
  {
    hide SnapshotItems, ListedAt, TrueAnswer;
    var none: map<Scope, Version> := map[];
    assert LISTED.remembered + none == KNOWN;
    MissedIsTrue();
    assert UnlistedAfter(LISTED, Answer(Listed(SECOND), map[], none), true) == map[EVENTS := 1];
  }

  lemma {:induction false} ForgottenStays()
    ensures FORGOTTEN.s.p.versions == KNOWN && FORGOTTEN.s.p.eventsSeen == map[]
    ensures MayStart(FORGOTTEN.s.p, FORGOTTEN.config, EVENTS)
  {
    var versions: map<Scope, Version> := map[];
    assert versions + KNOWN == KNOWN;
  }

  /** An Event occurs and is listed; the next snapshot cannot list the namespace's Events. The scope keeps its version,
      its watch may start at once, and no replay from there ever brings the Event back. */
  lemma {:induction false} UnlistedEventIsLost()
    ensures IsRun([BEGUN, OCCURRED, LISTED, FORGOTTEN], [OCCURS, LISTS, MISSES])
    ensures EVENTS in FORGOTTEN.s.p.versions && MayStart(FORGOTTEN.s.p, FORGOTTEN.config, EVENTS)
    ensures "uid" in CurrentState(EVENTS, FORGOTTEN.LogOf(EVENTS))
    ensures "uid" !in Replay(FORGOTTEN.s.p.eventsSeen, EVENTS, FORGOTTEN.LogOf(EVENTS),
                            FORGOTTEN.s.p.versions[EVENTS].at)
  {
    hide Enabled, Next, Snapshot, ListedAt;
    EventOccurs();
    EventIsListed();
    EventsAreMissed();
    ForgottenStays();
    StateOfEvents();
    assert FORGOTTEN.LogOf(EVENTS) == [CHANGE];
  }
}
