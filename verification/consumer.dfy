/** The intake as the object it is: one page at a time into the store, and only then the cursor. */
module Consuming {
  import opened Text
  import opened Wire
  import opened Streams
  import opened Paging
  import opened Following
  import opened Coverages
  import opened Intake

  class AlertStreamConsumer {
    const setup: Setup
    const limit: nat
    const store: CoverageStore
    var known: set<(string, Time)>
    var cursor: Option<string>

    ghost predicate Valid()
      reads this, store
    {
      store.Valid() && setup.rule == Tolerance(store.cadence)
    }

    ghost function View(): Record
      reads this, store
    {
      Record(store.View(), known)
    }

    constructor (cadence: Cadence, normalize: Alert -> Option<Normal>, limit: nat)
      requires cadence.Valid()
      ensures Valid() && fresh(store) && View() == EMPTY_RECORD && cursor == None && this.limit == limit
      ensures setup == Setup(Tolerance(cadence), normalize)
    {
      setup := Setup(Tolerance(cadence), normalize);
      this.limit := limit;
      store := new CoverageStore(cadence);
      known, cursor := {}, None;
    }

    /** When the channel was first observed, over the segments in the order they are stored. */
    method FirstCoverage() returns (first: Option<Time>)
      ensures first == Coverages.FirstCoverage(store.segments)
    {
      first := None;
      for i := 0 to |store.segments|
        invariant first == Coverages.FirstCoverage(store.segments[..i])
      {
        assert store.segments[..i + 1][..i] == store.segments[..i];
        if first.None? || store.segments[i].startedAt <= first.value {
          first := Some(store.segments[i].startedAt);
        }
      }
      assert store.segments[..|store.segments|] == store.segments;
    }

    method TakeAlert(alert: Alert)
      modifies this`known
      ensures View() == Intake.TakeAlert(setup, old(View()), alert)
    {
      var n := setup.normalize(alert);
      if n.None? {
        return;
      }
      if n.value.resolved && n.value.endsAt.Some? {
        var first := FirstCoverage();
        if !(first.Some? && n.value.endsAt.value > first.value) && KeyOf(n.value) !in known {
          return;
        }
      }
      known := known + {KeyOf(n.value)};
    }

    /** An answered poll later than anything recorded. */
    method WriteSuccess(attemptedAt: Time, completedAt: Time, active: nat)
      requires Valid() && After(store.View(), completedAt)
      modifies store
      ensures Valid() && Latest(store.polls) == Some(completedAt)
      ensures store.View() == WithSuccess(old(store.View()), setup.rule, attemptedAt, completedAt, active)
    {
      ghost var polls := store.polls;
      store.RecordSuccess(attemptedAt, completedAt, active);
      LatestAfter(polls, store.polls[|polls|]);
      assert store.polls == polls + [store.polls[|polls|]];
    }

    method WriteFailure(attemptedAt: Time, completedAt: Time, error: string)
      requires Valid() && After(store.View(), completedAt)
      modifies store
      ensures Valid() && Latest(store.polls) == Some(completedAt)
      ensures store.View() == WithFailure(old(store.View()), attemptedAt, completedAt, error)
    {
      ghost var polls := store.polls;
      store.RecordFailure(attemptedAt, completedAt, error);
      LatestAfter(polls, store.polls[|polls|]);
      assert store.polls == polls + [store.polls[|polls|]];
    }

    /** One item, given the latest completion recorded so far. */
    method TakeItem(item: Item, before: Option<Time>) returns (recorded: Option<Time>)
      requires Valid() && before == Latest(store.polls)
      modifies this`known, store
      ensures Valid() && View() == Take(setup, old(View()), item) && recorded == Latest(store.polls)
    {
      recorded := before;
      match item
      case AlertItem(_, _, alert) => TakeAlert(alert);
      case Heartbeat(attemptedAt, completedAt, ok, active, error) =>
        if before.Some? && completedAt <= before.value {
          return;
        }
        if ok {
          WriteSuccess(attemptedAt, completedAt, active.GetOr(0));
        } else {
          WriteFailure(attemptedAt, completedAt, ErrorOf(error));
        }
        recorded := Some(completedAt);
      case Gap(at, reason, _, _) =>
        if before.Some? && at <= before.value {
          return;
        }
        var open := store.OpenSegment();
        if open.Some? {
          WriteFailure(at, at, ReasonText(reason));
          recorded := Some(at);
        }
      case _ =>
    }

    method TakeItems(ns: seq<Numbered>)
      requires Valid()
      modifies this`known, store
      ensures Valid() && View() == TakeAll(setup, old(View()), ItemsIn(ns))
    {
      var recorded := store.LatestPoll();
      for i := 0 to |ns|
        invariant Valid() && View() == TakeAll(setup, old(View()), ItemsIn(ns[..i]))
        invariant recorded == Latest(store.polls)
      {
        assert ItemsIn(ns[..i + 1])[..i] == ItemsIn(ns[..i]);
        recorded := TakeItem(ns[i].item, recorded);
      }
      assert ns[..|ns|] == ns;
    }

    method ConnectorLost(now: Time, error: string)
      requires Valid()
      modifies store
      ensures Valid() && View() == Lose(old(View()), now, error)
    {
      var open := store.OpenSegment();
      if open.Some? {
        store.RecordFailure(now, now, error);
      }
    }

    /** Apply one page. `fails` says after how many items the store gave up, if it did: the page is then read again, for
        the cursor moves only past a page whose items were all applied. */
    method ApplyPage(page: Page, fails: Option<nat>) returns (carried: Option<nat>)
      requires Valid()
      modifies this, store
      ensures Valid()
      ensures var ns := Ordered(page);
              if fails.Some? && fails.value < |ns| then
                && carried.None? && cursor == old(cursor)
                && View() == TakeAll(setup, old(View()), ItemsIn(ns[..fails.value]))
              else
                && carried == Some(|page.items| + |page.gaps|) && cursor == Some(page.nextCursor)
                && View() == TakeAll(setup, old(View()), ItemsIn(ns))
    {
      var ns := Ordered(page);
      if fails.Some? && fails.value < |ns| {
        TakeItems(ns[..fails.value]);
        return None;
      }
      TakeItems(ns);
      cursor := Some(page.nextCursor);
      carried := Some(|page.items| + |page.gaps|);
    }

    /** Read one page of the connector's buffer, at its own clock, and apply it; a connector that is out of reach or
        refuses the read has been lost, at the intake's clock. */
    method Step(alerts: StreamBuffer?, at: Time, fails: Option<nat>, now: Time, error: string)
        returns (carried: Option<nat>)
      requires Valid() && (alerts != null ==> alerts.Valid())
      modifies this, store
      ensures Valid()
      ensures var page := if alerts == null then Err(MalformedCursor)
                          else ReadPage(old(alerts.Contents()), old(cursor), limit, false, at);
              if page.Err? then View() == Lose(old(View()), now, error) && cursor == old(cursor) && carried == Some(0)
              else
                var ns := Ordered(page.value);
                if fails.Some? && fails.value < |ns| then
                  && carried.None? && cursor == old(cursor)
                  && View() == TakeAll(setup, old(View()), ItemsIn(ns[..fails.value]))
                else
                  && carried == Some(|page.value.items| + |page.value.gaps|) && cursor == Some(page.value.nextCursor)
                  && View() == TakeAll(setup, old(View()), ItemsIn(ns))
    {
      hide ReadPage, Ordered, TakeAll, Lose, RecordOf, Take;
      if alerts != null {
        var page := alerts.Read(cursor, limit, false, at);
        if page.Ok? {
          carried := ApplyPage(page.value, fails);
          return;
        }
      }
      ConnectorLost(now, error);
      carried := Some(0);
    }
  }
}
