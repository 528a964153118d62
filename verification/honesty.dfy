/** What a segment of coverage vouches for: every poll the connector made in its span was answered, over restarts of
    either side, expired buffers, failed pages and replays. */
module Honesty {
  import opened Text
  import opened Wire
  import opened Streams
  import opened Coverages
  import opened Intake
  import opened Deliveries
  import Alerts

  predicate Within(s: Segment, item: Item) {
    item.Heartbeat? && s.startedAt <= item.completedAt <= s.lastSuccess
  }

  /** A poll in the span of a segment was answered, and is one of its successes. */
  predicate VouchedFor(c: Coverage, all: seq<Item>, missed: set<nat>, i: nat, g: nat)
    requires i < |c.segments| && g < |all|
  {
    Within(c.segments[i], all[g]) && g !in missed ==> all[g].ok && all[g].completedAt in Heard(c.polls, i)
  }

  /** An answered poll, not passed over, that completed then. */
  predicate PolledAt(all: seq<Item>, missed: set<nat>, g: nat, at: Time)
    requires g < |all|
  {
    all[g].Heartbeat? && all[g].ok && all[g].completedAt == at && g !in missed
  }

  /** A success on record was a poll of the connector, and not one passed over. */
  predicate WasPolled(all: seq<Item>, done: nat, missed: set<nat>, at: Time) {
    exists g :: 0 <= g < done && g < |all| && PolledAt(all, missed, g, at)
  }

  predicate AllPolled(all: seq<Item>, done: nat, missed: set<nat>, times: seq<Time>) {
    forall k :: 0 <= k < |times| ==> WasPolled(all, done, missed, times[k])
  }

  predicate Behind(missed: set<nat>, done: nat) {
    forall g :: g in missed ==> g < done
  }

  /** An open segment reaches to the latest of the record, and to the last poll behind the intake. */
  predicate OpenReaches(c: Coverage, all: seq<Item>, done: nat, missed: set<nat>)
    requires done <= |all|
  {
    var open := OpenIndex(c.segments);
    open.Some? ==>
      && Latest(c.polls) == Some(c.segments[open.value].lastSuccess)
      && forall g :: 0 <= g < done && all[g].Heartbeat? && all[g].completedAt > c.segments[open.value].lastSuccess ==>
           g in missed
  }

  ghost predicate Honest(c: Coverage, rule: Rule, all: seq<Item>, done: nat, missed: set<nat>) {
    && True(c, rule) && done <= |all| && OpenReaches(c, all, done, missed) && Behind(missed, done)
    && (forall i :: 0 <= i < |c.segments| ==> AllPolled(all, done, missed, Heard(c.polls, i)))
    && (forall i, g :: 0 <= i < |c.segments| && 0 <= g < done ==> VouchedFor(c, all, missed, i, g))
  }

  /** The last success of a segment was a poll behind the intake. */
  lemma {:induction false} LastWasPolled(c: Coverage, rule: Rule, all: seq<Item>, done: nat, missed: set<nat>, i: nat)
    requires Honest(c, rule, all, done, missed) && i < |c.segments|
    ensures WasPolled(all, done, missed, c.segments[i].lastSuccess)
  {
    assert SegmentTrue(c, rule, i);
    var heard := Heard(c.polls, i);
    assert WasPolled(all, done, missed, heard[|heard| - 1]);
  }

  /** A poll still before the intake completed after every segment ended. */
  lemma {:induction false} WaitingIsLater(c: Coverage, rule: Rule, all: seq<Item>, done: nat, missed: set<nat>, i: nat,
                                          g: nat)
    requires Honest(c, rule, all, done, missed) && PutInOrder(all) && i < |c.segments|
    requires done <= g < |all| && all[g].Heartbeat?
    ensures c.segments[i].lastSuccess < all[g].completedAt
  {
    LastWasPolled(c, rule, all, done, missed, i);
    var h :| 0 <= h < done && h < |all| && PolledAt(all, missed, h, c.segments[i].lastSuccess);
    assert all[h].completedAt < all[g].completedAt;
  }

  /** Passed over are only items that were still before the intake, and are now behind it. */
  predicate Passes(missed: set<nat>, more: set<nat>, done: nat, upto: nat) {
    missed <= more && forall g :: g in more ==> g in missed || done <= g < upto
  }

  lemma {:induction false} PolledStays(all: seq<Item>, done: nat, missed: set<nat>, upto: nat, more: set<nat>,
                                       times: seq<Time>)
    requires AllPolled(all, done, missed, times) && done <= upto && Passes(missed, more, done, upto)
    ensures AllPolled(all, upto, more, times)
  {
    forall k | 0 <= k < |times| ensures WasPolled(all, upto, more, times[k]) {
      assert WasPolled(all, done, missed, times[k]);
      var g :| 0 <= g < done && g < |all| && PolledAt(all, missed, g, times[k]);
      assert PolledAt(all, more, g, times[k]);
    }
  }

  /** Nothing is recorded: whatever comes behind the intake meanwhile is missed, or no segment is open. */
  lemma {:induction false} UnrecordedKeeps(c: Coverage, rule: Rule, all: seq<Item>, done: nat, missed: set<nat>,
                                           upto: nat, more: set<nat>)
    requires Honest(c, rule, all, done, missed) && PutInOrder(all) && done <= upto <= |all|
    requires Passes(missed, more, done, upto)
    requires OpenIndex(c.segments).None?
             || forall g :: done <= g < upto && all[g].Heartbeat? ==> g in more
    ensures Honest(c, rule, all, upto, more)
  {
    hide True;
    forall i | 0 <= i < |c.segments| ensures AllPolled(all, upto, more, Heard(c.polls, i)) {
      PolledStays(all, done, missed, upto, more, Heard(c.polls, i));
    }
    forall i, g | 0 <= i < |c.segments| && 0 <= g < upto ensures VouchedFor(c, all, more, i, g) {
      if g < done {
        assert VouchedFor(c, all, missed, i, g);
      } else if all[g].Heartbeat? {
        WaitingIsLater(c, rule, all, done, missed, i, g);
      }
    }
  }

  /** A recorded failure leaves no segment open, and none with another span. */
  lemma {:induction false} FailureKeeps(c: Coverage, rule: Rule, all: seq<Item>, done: nat, missed: set<nat>, upto: nat,
                                        attemptedAt: Time, completedAt: Time, error: string)
    requires Honest(c, rule, all, done, missed) && PutInOrder(all) && done <= upto <= |all|
    ensures Honest(WithFailure(c, attemptedAt, completedAt, error), rule, all, upto, missed)
  {
    var n := WithFailure(c, attemptedAt, completedAt, error);
    FailureKeepsTrue(c, rule, attemptedAt, completedAt, error);
    hide True;
    forall i | 0 <= i < |n.segments| ensures AllPolled(all, upto, missed, Heard(n.polls, i)) {
      HeardAfter(c.polls, n.polls[|c.polls|], i);
      PolledStays(all, done, missed, upto, missed, Heard(c.polls, i));
    }
    forall i, g | 0 <= i < |n.segments| && 0 <= g < upto ensures VouchedFor(n, all, missed, i, g) {
      HeardAfter(c.polls, n.polls[|c.polls|], i);
      if g < done {
        assert VouchedFor(c, all, missed, i, g);
      } else if all[g].Heartbeat? {
        WaitingIsLater(c, rule, all, done, missed, i, g);
      }
    }
  }

  /** What a recorded success does to the record, told by its last row. */
  predicate Succeeds(c: Coverage, n: Coverage, row: PollRow, i: nat)
    requires i < |n.segments|
  {
    && n.polls == c.polls + [row] && row.segment == Some(i) && i <= |c.segments| <= |n.segments| <= |c.segments| + 1
    && n.segments[i].lastSuccess == row.completedAt && n.segments[i].status == Open && i == |n.segments| - 1
    && (i == |c.segments| ==> n.segments[i].startedAt == row.completedAt)
    && (i < |c.segments| ==> OpenIndex(c.segments) == Some(i) && n.segments[i].startedAt == c.segments[i].startedAt)
    && forall j :: 0 <= j < |c.segments| && j != i ==>
         n.segments[j].startedAt == c.segments[j].startedAt && n.segments[j].lastSuccess == c.segments[j].lastSuccess
  }

  lemma {:induction false} SuccessSucceeds(c: Coverage, rule: Rule, attemptedAt: Time, completedAt: Time, active: nat)
    requires True(c, rule)
    ensures var n := WithSuccess(c, rule, attemptedAt, completedAt, active);
            var i := |n.segments| - 1;
            i >= 0 && Succeeds(c, n, PollRow(Some(i), attemptedAt, completedAt, Active(active)), i)
  {
    OpenIsLast(c, rule);
  }

  lemma {:induction false} LastIsOpen(segments: seq<Segment>)
    requires segments != [] && segments[|segments| - 1].status == Open
    ensures OpenIndex(segments) == Some(|segments| - 1)
  {
  }

  lemma {:induction false} SuccessVouches(c: Coverage, n: Coverage, rule: Rule, all: seq<Item>, done: nat,
                                          missed: set<nat>, row: PollRow, i: nat, j: nat, g: nat)
    requires Honest(c, rule, all, done, missed) && PutInOrder(all) && i < |n.segments| && Succeeds(c, n, row, i)
    requires done < |all| && all[done].Heartbeat? && all[done].ok && all[done].completedAt == row.completedAt
    requires j < |n.segments| && g <= done
    ensures VouchedFor(n, all, missed, j, g)
  {
    hide True;
    HeardAfter(c.polls, row, j);
    if g == done {
      if j < i {
        WaitingIsLater(c, rule, all, done, missed, j, g);
      } else {
        var heard := Heard(c.polls, j);
        assert (heard + [row.completedAt])[|heard|] == row.completedAt;
      }
    } else if all[g].Heartbeat? {
      assert all[g].completedAt < all[done].completedAt;
      if j < |c.segments| {
        assert VouchedFor(c, all, missed, j, g);
      }
    }
  }

  /** A recorded success is the poll that comes behind the intake. */
  lemma {:induction false} SuccessKeeps(c: Coverage, rule: Rule, all: seq<Item>, done: nat, missed: set<nat>)
    requires Honest(c, rule, all, done, missed) && PutInOrder(all)
    requires done < |all| && all[done].Heartbeat? && all[done].ok && After(c, all[done].completedAt)
    ensures Honest(WithSuccess(c, rule, all[done].attemptedAt, all[done].completedAt, all[done].active.GetOr(0)), rule,
                   all, done + 1, missed)
  {
    var at, active := all[done].completedAt, all[done].active.GetOr(0);
    var n := WithSuccess(c, rule, all[done].attemptedAt, at, active);
    var i, row := |n.segments| - 1, PollRow(Some(|n.segments| - 1), all[done].attemptedAt, at, Active(active));
    SuccessKeepsTrue(c, rule, all[done].attemptedAt, at, active);
    SuccessSucceeds(c, rule, all[done].attemptedAt, at, active);
    hide True, WithSuccess;
    SuccessHeard(c, n, rule, all, done, missed, row);
    forall j, g | 0 <= j < |n.segments| && 0 <= g < done + 1 ensures VouchedFor(n, all, missed, j, g) {
      SuccessVouches(c, n, rule, all, done, missed, row, i, j, g);
    }
    LastIsOpen(n.segments);
    LatestAfter(c.polls, row);
  }

  lemma {:induction false} SuccessHeard(c: Coverage, n: Coverage, rule: Rule, all: seq<Item>, done: nat,
                                        missed: set<nat>, row: PollRow)
    requires Honest(c, rule, all, done, missed) && n.segments != [] && Succeeds(c, n, row, |n.segments| - 1)
    requires done < |all| && all[done].Heartbeat? && all[done].ok && all[done].completedAt == row.completedAt
    ensures forall i :: 0 <= i < |n.segments| ==> AllPolled(all, done + 1, missed, Heard(n.polls, i))
  {
    forall i | 0 <= i < |n.segments| ensures AllPolled(all, done + 1, missed, Heard(n.polls, i)) {
      HeardAfter(c.polls, row, i);
      if i < |c.segments| {
        PolledStays(all, done, missed, done + 1, missed, Heard(c.polls, i));
      } else {
        NoneHeard(c, rule, i);
      }
      assert PolledAt(all, missed, done, row.completedAt) && WasPolled(all, done + 1, missed, row.completedAt);
    }
  }

  lemma {:induction false} NoneHeard(c: Coverage, rule: Rule, i: nat)
    requires True(c, rule) && i >= |c.segments|
    ensures Heard(c.polls, i) == []
  {
    HeardNothing(c.polls, i);
  }

  // ---- the ledger of a delivery ---------------------------------------------------------------

  ghost predicate HonestLedger(setup: Setup, l: Ledger) {
    Honest(RecordOf(setup, l.history).coverage, setup.rule, l.all, l.done, l.missed)
  }

  lemma {:induction false} OneMore(setup: Setup, history: seq<Fate>, fate: Fate)
    ensures RecordOf(setup, history + [fate]) == Meet(setup, RecordOf(setup, history), fate)
  {
    assert (history + [fate])[..|history|] == history;
  }

  lemma {:induction false} AgainKeeps(setup: Setup, l: Ledger, g: nat)
    requires Sound(l) && HonestLedger(setup, l) && l.first <= g < l.done
    ensures HonestLedger(setup, TakenAt(l, g))
  {
    assert WasTaken(l, g);
    TakenIsSettled(setup, l.history, l.all[g]);
    OneMore(setup, l.history, Took(l.all[g]));
    RowsGrow(setup, RecordOf(setup, l.history), l.all[g]);
  }

  /** No poll that completed after an open segment is settled. */
  lemma {:induction false} SettledOnlyClosed(c: Coverage, rule: Rule, all: seq<Item>, done: nat, missed: set<nat>)
    requires Honest(c, rule, all, done, missed) && PutInOrder(all) && done < |all|
    requires all[done].Heartbeat? && Settled(c, all[done])
    ensures OpenIndex(c.segments).None?
  {
    var open := OpenIndex(c.segments);
    if open.Some? {
      WaitingIsLater(c, rule, all, done, missed, open.value, done);
    }
  }

  lemma {:induction false} NextTaken(setup: Setup, s: Record, all: seq<Item>, done: nat, missed: set<nat>)
    requires Honest(s.coverage, setup.rule, all, done, missed) && PutInOrder(all) && done < |all|
    ensures Honest(Take(setup, s, all[done]).coverage, setup.rule, all, done + 1, missed)
  {
    hide Honest, PutInOrder, After, WithSuccess, WithFailure;
    RowsGrow(setup, s, all[done]);
    match all[done] {
      case Heartbeat(attemptedAt, completedAt, ok, active, error) =>
        if Settled(s.coverage, all[done]) {
          SettledOnlyClosed(s.coverage, setup.rule, all, done, missed);
          UnrecordedKeeps(s.coverage, setup.rule, all, done, missed, done + 1, missed);
        } else if ok {
          SuccessKeeps(s.coverage, setup.rule, all, done, missed);
        } else {
          FailureKeeps(s.coverage, setup.rule, all, done, missed, done + 1, attemptedAt, completedAt, ErrorOf(error));
        }
      case Gap(at, reason, _, _) =>
        UnrecordedKeeps(s.coverage, setup.rule, all, done, missed, done + 1, missed);
        FailureKeeps(s.coverage, setup.rule, all, done, missed, done + 1, at, at, ReasonText(reason));
      case _ => UnrecordedKeeps(s.coverage, setup.rule, all, done, missed, done + 1, missed);
    }
  }

  lemma {:induction false} TakenAtIsHonest(setup: Setup, l: Ledger, g: nat)
    requires Sound(l) && HonestLedger(setup, l) && l.first <= g <= l.done && g < |l.all|
    ensures HonestLedger(setup, TakenAt(l, g))
  {
    if g < l.done {
      AgainKeeps(setup, l, g);
    } else {
      SoundParts(l);
      OneMore(setup, l.history, Took(l.all[g]));
      hide Sound, Honest, RecordOf;
      NextTaken(setup, RecordOf(setup, l.history), l.all, g, l.missed);
    }
  }

  /** A gap declared for a reading closes whatever is open, unless nothing it stands for completed since. */
  lemma {:induction false} ToldKeeps(setup: Setup, s: Record, all: seq<Item>, done: nat, missed: set<nat>, upto: nat,
                                     at: Time, reason: GapReason)
    requires Honest(s.coverage, setup.rule, all, done, missed) && PutInOrder(all) && NotAfter(all, at)
    requires done <= upto <= |all|
    ensures Honest(Take(setup, s, Gap(at, reason, None, None)).coverage, setup.rule, all, upto, missed)
  {
    var gap, open := Gap(at, reason, None, None), OpenIndex(s.coverage.segments);
    if !Settled(s.coverage, gap) {
      FailureKeeps(s.coverage, setup.rule, all, done, missed, upto, at, at, ReasonText(reason));
    } else {
      forall g | done <= g < upto && all[g].Heartbeat? ensures open.None? {
        assert TimeOf(all[g]) <= at;
        if open.Some? {
          WaitingIsLater(s.coverage, setup.rule, all, done, missed, open.value, g);
        }
      }
      UnrecordedKeeps(s.coverage, setup.rule, all, done, missed, upto, missed);
    }
  }

  lemma {:induction false} ToldIsHonest(setup: Setup, l: Ledger, at: Time, reason: GapReason, upto: nat)
    requires Sound(l) && HonestLedger(setup, l) && NotAfter(l.all, at) && upto <= |l.all|
    ensures HonestLedger(setup, ToldOf(l, Gap(at, reason, None, None), upto))
  {
    SoundParts(l);
    OneMore(setup, l.history, Took(Gap(at, reason, None, None)));
    hide Sound, Honest, RecordOf;
    ToldKeeps(setup, RecordOf(setup, l.history), l.all, l.done, l.missed, Max(l.done, upto), at, reason);
  }

  lemma {:induction false} SkippedIsHonest(setup: Setup, l: Ledger, upto: nat)
    requires Sound(l) && HonestLedger(setup, l) && upto <= |l.all|
    ensures HonestLedger(setup, Skipped(l, upto))
  {
    var n := Skipped(l, upto);
    SoundParts(l);
    hide Sound, Honest, RecordOf;
    UnrecordedKeeps(RecordOf(setup, l.history).coverage, setup.rule, l.all, l.done, l.missed, n.done, n.missed);
  }

  lemma {:induction false} LostIsHonest(setup: Setup, l: Ledger, now: Time, error: string)
    requires Sound(l) && HonestLedger(setup, l)
    ensures HonestLedger(setup, l.(history := l.history + [Lost(now, error)]))
  {
    SoundParts(l);
    OneMore(setup, l.history, Lost(now, error));
    LedgerWithin(setup, l);
    hide Sound, Honest, RecordOf;
    FailureKeeps(RecordOf(setup, l.history).coverage, setup.rule, l.all, l.done, l.missed, l.done, now, now, error);
  }

  lemma {:induction false} LedgerWithin(setup: Setup, l: Ledger)
    requires HonestLedger(setup, l)
    ensures l.done <= |l.all|
  {
  }

  lemma {:induction false} GrownIsHonest(setup: Setup, l: Ledger, items: seq<Item>, first: nat)
    requires HonestLedger(setup, l)
    ensures HonestLedger(setup, Grown(l, items, first))
  {
    var c, all := RecordOf(setup, l.history).coverage, l.all + items;
    hide True, RecordOf;
    assert forall g :: 0 <= g < l.done ==> all[g] == l.all[g];
    forall i | 0 <= i < |c.segments| ensures AllPolled(all, l.done, l.missed, Heard(c.polls, i)) {
      forall k | 0 <= k < |Heard(c.polls, i)| ensures WasPolled(all, l.done, l.missed, Heard(c.polls, i)[k]) {
        assert WasPolled(l.all, l.done, l.missed, Heard(c.polls, i)[k]);
        var g :| 0 <= g < l.done && g < |l.all| && PolledAt(l.all, l.missed, g, Heard(c.polls, i)[k]);
        assert PolledAt(all, l.missed, g, Heard(c.polls, i)[k]);
      }
    }
    forall i, g | 0 <= i < |c.segments| && 0 <= g < l.done ensures VouchedFor(c, all, l.missed, i, g) {
      assert VouchedFor(c, l.all, l.missed, i, g);
    }
  }

  lemma {:induction false} RunTakenIsHonest(setup: Setup, l: Ledger, from: nat, n: nat)
    requires Sound(l) && HonestLedger(setup, l) && l.first <= from <= l.done && from + n <= |l.all|
    ensures HonestLedger(setup, RunTaken(l, from, n))
  {
    hide Sound, HonestLedger;
    if n > 0 {
      RunTakenIsSound(l, from, n - 1);
      RunTakenIsHonest(setup, l, from, n - 1);
      TakenAtIsHonest(setup, RunTaken(l, from, n - 1), from + n - 1);
    }
  }

  lemma {:induction false} PageTakenIsHonest(setup: Setup, l: Ledger, declared: Option<GapReason>, at: Time,
                                             run: seq<Item>, from: nat, n: nat, blind: bool)
    requires Sound(l) && HonestLedger(setup, l) && NotAfter(l.all, at)
    requires PageFits(l, declared, at, run, from, blind) && n <= |Head(declared, at)| + |run|
    ensures HonestLedger(setup, PageTaken(l, Head(declared, at), run, from, n, blind))
  {
    hide Sound, HonestLedger, NotAfter;
    var head := Head(declared, at);
    if blind {
      SkippedIsSound(l, from);
      SkippedIsHonest(setup, l, from);
      BlindPage(l, run, from, n);
      RunTakenIsHonest(setup, Skipped(l, from), from, n);
    } else if head == [] {
      PlainPage(l, run, from, n);
      RunTakenIsHonest(setup, l, from, n);
    } else if n > 0 {
      OneMoreIsSound(l, Took(head[0]), from);
      ToldIsHonest(setup, l, at, declared.value, from);
      DeclaringPage(l, head[0], run, from, n);
      RunTakenIsHonest(setup, ToldOf(l, head[0], from), from, n - 1);
    } else {
      NothingTaken(l, head, run, from);
    }
  }

  // ---- runs -----------------------------------------------------------------------------------

  lemma {:induction false} ReadIsHonest(setup: Setup, d: Delivery, limit: nat, at: Time, applied: nat)
    requires Good(d) && HonestLedger(setup, d.l) && d.now <= at
    ensures HonestLedger(setup, ReadBy(d, limit, at, applied).l)
  {
    GoodParts(d);
    NotAfterLater(d.l.all, d.now, at);
    ReadFits(d, limit, at, applied);
    hide Good, Sound, HonestLedger, NotAfter, ReadBy, PageFits, PageTaken, ReadingOf, Streams.StartOf;
    var r := ReadingOf(d, limit, at, applied);
    ReadTakesPage(d, limit, at, applied);
    PageTakenIsHonest(setup, d.l, r.declared, at, r.run, r.from, r.n, r.blind);
  }

  lemma {:induction false} MoveIsHonest(rules: Alerts.Rules, setup: Setup, d: Delivery, move: Move)
    requires Good(d) && CanMove(d, move) && HonestLedger(setup, d.l)
    ensures HonestLedger(setup, Next(rules, d, move).l)
  {
    hide HonestLedger, Sound, CursorFits, NotAfter;
    match move {
      case Puts(step) =>
        GrownIsHonest(setup, d.l, PutBy(rules, d.alerts, step), Next(rules, d, move).l.first);
      case ConnectorRestarts(epoch, maxLen) =>
        GrownIsHonest(setup, d.l, [], |d.l.all|);
        assert d.l.all + [] == d.l.all;
      case IntakeRestarts =>
      case Reads(limit, at, applied) => ReadIsHonest(setup, d, limit, at, applied);
      case Loses(now, error) => LostIsHonest(setup, d.l, now, error);
    }
  }

  lemma {:induction false} RunIsHonest(rules: Alerts.Rules, setup: Setup, states: seq<Delivery>, moves: seq<Move>,
                                       n: nat)
    requires IsDeliveryRun(rules, states, moves) && n <= |moves|
    ensures HonestLedger(setup, states[n].l)
  {
    if n > 0 {
      RunIsHonest(rules, setup, states, moves, n - 1);
      RunIsGood(rules, states, moves, n - 1);
      assert Moves(rules, states, moves, n - 1);
      hide HonestLedger, Good, IsDeliveryRun;
      MoveIsHonest(rules, setup, states[n - 1], moves[n - 1]);
    }
  }

  /** A poll in the span of the segment that was not answered. */
  predicate Unanswered(s: Segment, item: Item) {
    Within(s, item) && !item.ok
  }

  lemma {:induction false} HeardIsPolled(c: Coverage, rule: Rule, all: seq<Item>, done: nat, missed: set<nat>, i: nat,
                                         at: Time)
    requires Honest(c, rule, all, done, missed) && i < |c.segments| && at in Heard(c.polls, i)
    ensures exists g :: 0 <= g < |all| && Within(c.segments[i], all[g]) && PolledAt(all, missed, g, at)
  {
    var k :| 0 <= k < |Heard(c.polls, i)| && Heard(c.polls, i)[k] == at;
    assert SegmentTrue(c, rule, i) && WasPolled(all, done, missed, Heard(c.polls, i)[k]);
    HeardWithin(c, rule, i, k);
    var g :| 0 <= g < done && g < |all| && PolledAt(all, missed, g, at);
    assert Within(c.segments[i], all[g]);
  }

  lemma {:induction false} SpannedIsHeard(c: Coverage, rule: Rule, all: seq<Item>, done: nat, missed: set<nat>, i: nat,
                                          g: nat)
    requires Honest(c, rule, all, done, missed) && PutInOrder(all) && i < |c.segments|
    requires g < |all| && Within(c.segments[i], all[g])
    ensures all[g].completedAt in Heard(c.polls, i) <==> g !in missed
    ensures g !in missed ==> all[g].ok
  {
    if g >= done {
      WaitingIsLater(c, rule, all, done, missed, i, g);
    } else {
      assert VouchedFor(c, all, missed, i, g);
      if all[g].completedAt in Heard(c.polls, i) {
        HeardIsPolled(c, rule, all, done, missed, i, all[g].completedAt);
        var h :| 0 <= h < |all| && Within(c.segments[i], all[h]) && PolledAt(all, missed, h, all[g].completedAt);
        SameInstant(all, g, h);
      }
    }
  }

  lemma {:induction false} SameInstant(all: seq<Item>, g: nat, h: nat)
    requires PutInOrder(all) && g < |all| && h < |all| && all[g].Heartbeat? && all[h].Heartbeat?
    requires all[g].completedAt == all[h].completedAt
    ensures g == h
  {
  }

  /** Over every run of both sides: the successes of a segment are exactly the polls the connector made in its span, but
      for those that a reading without a cursor passed over; all of them were answered, so that a segment spans a poll
      that was not if and only if one passed over was not. */
  lemma {:induction false} CoverageIsHonest(rules: Alerts.Rules, setup: Setup, states: seq<Delivery>, moves: seq<Move>,
                                            n: nat, i: nat)
    requires IsDeliveryRun(rules, states, moves) && n <= |moves|
    requires i < |RecordOf(setup, states[n].l.history).coverage.segments|
    ensures var c, l := RecordOf(setup, states[n].l.history).coverage, states[n].l;
            && SegmentTrue(c, setup.rule, i)
            && (forall at :: at in Heard(c.polls, i) ==>
                  exists g :: 0 <= g < |l.all| && Within(c.segments[i], l.all[g]) && PolledAt(l.all, l.missed, g, at))
            && (forall g :: 0 <= g < |l.all| && Within(c.segments[i], l.all[g]) ==>
                  && (l.all[g].completedAt in Heard(c.polls, i) <==> g !in l.missed)
                  && (g !in l.missed ==> l.all[g].ok))
            && ((exists g :: 0 <= g < |l.all| && Unanswered(c.segments[i], l.all[g]))
                <==> exists g :: 0 <= g < |l.all| && g in l.missed && Unanswered(c.segments[i], l.all[g]))
  {
    var c, l := RecordOf(setup, states[n].l.history).coverage, states[n].l;
    RunIsHonest(rules, setup, states, moves, n);
    RunIsGood(rules, states, moves, n);
    SoundParts(l);
    assert Honest(c, setup.rule, l.all, l.done, l.missed) && SegmentTrue(c, setup.rule, i);
    hide Good, IsDeliveryRun, RecordOf, SegmentTrue, Honest, HonestLedger, PutInOrder;
    forall at | at in Heard(c.polls, i)
      ensures exists g :: 0 <= g < |l.all| && Within(c.segments[i], l.all[g]) && PolledAt(l.all, l.missed, g, at)
    {
      HeardIsPolled(c, setup.rule, l.all, l.done, l.missed, i, at);
    }
    forall g | 0 <= g < |l.all| && Within(c.segments[i], l.all[g])
      ensures (l.all[g].completedAt in Heard(c.polls, i) <==> g !in l.missed) && (g !in l.missed ==> l.all[g].ok)
    {
      SpannedIsHeard(c, setup.rule, l.all, l.done, l.missed, i, g);
    }
  }

  // ---- an intake that keeps its cursor --------------------------------------------------------

  predicate MissedBefore(c: Coverage, all: seq<Item>, i: nat, g: nat)
    requires i < |c.segments| && g < |all|
  {
    all[g].Heartbeat? ==> all[g].completedAt < c.segments[i].startedAt
  }

  /** Every poll passed over completed before any segment started. */
  predicate MissedFirst(c: Coverage, all: seq<Item>, missed: set<nat>) {
    forall i, g :: 0 <= i < |c.segments| && 0 <= g < |all| && g in missed ==> MissedBefore(c, all, i, g)
  }

  predicate KeepsStarts(c: Coverage, n: Coverage, item: Item) {
    && |c.segments| <= |n.segments|
    && (forall i :: 0 <= i < |c.segments| ==> n.segments[i].startedAt == c.segments[i].startedAt)
    && forall i :: |c.segments| <= i < |n.segments| ==>
         item.Heartbeat? && n.segments[i].startedAt == item.completedAt
  }

  lemma {:induction false} TakeKeepsStarts(setup: Setup, s: Record, item: Item)
    ensures KeepsStarts(s.coverage, Take(setup, s, item).coverage, item)
  {
    hide WithSuccess, WithFailure;
    match item {
      case Heartbeat(attemptedAt, completedAt, ok, active, error) =>
        SuccessKeepsStarts(s.coverage, setup.rule, attemptedAt, completedAt, active.GetOr(0));
        FailureKeepsStarts(s.coverage, attemptedAt, completedAt, ErrorOf(error));
      case Gap(at, reason, _, _) => FailureKeepsStarts(s.coverage, at, at, ReasonText(reason));
      case _ =>
    }
  }

  lemma {:induction false} StartsKeepFirst(c: Coverage, n: Coverage, all: seq<Item>, missed: set<nat>, item: Item)
    requires MissedFirst(c, all, missed) && KeepsStarts(c, n, item)
    requires |c.segments| == |n.segments|
             || forall g :: 0 <= g < |all| && g in missed && all[g].Heartbeat? && item.Heartbeat? ==>
                  all[g].completedAt < item.completedAt
    ensures MissedFirst(n, all, missed)
  {
    forall i, g | 0 <= i < |n.segments| && 0 <= g < |all| && g in missed ensures MissedBefore(n, all, i, g) {
      if i < |c.segments| {
        assert MissedBefore(c, all, i, g);
      }
    }
  }

  ghost predicate FirstLedger(setup: Setup, l: Ledger) {
    MissedFirst(RecordOf(setup, l.history).coverage, l.all, l.missed)
  }

  lemma {:induction false} HonestBehind(setup: Setup, l: Ledger)
    requires HonestLedger(setup, l)
    ensures Behind(l.missed, l.done)
  {
  }

  lemma {:induction false} TakenAtIsFirst(setup: Setup, l: Ledger, g: nat)
    requires Sound(l) && HonestLedger(setup, l) && FirstLedger(setup, l)
    requires l.first <= g <= l.done && g < |l.all|
    ensures FirstLedger(setup, TakenAt(l, g))
  {
    var s := RecordOf(setup, l.history);
    SoundParts(l);
    HonestBehind(setup, l);
    OneMore(setup, l.history, Took(l.all[g]));
    if g < l.done {
      assert WasTaken(l, g);
      TakenIsSettled(setup, l.history, l.all[g]);
      RowsGrow(setup, s, l.all[g]);
    } else {
      TakeKeepsStarts(setup, s, l.all[g]);
      hide Sound, RecordOf, MissedFirst, Take, HonestLedger;
      StartsKeepFirst(s.coverage, Take(setup, s, l.all[g]).coverage, l.all, l.missed, l.all[g]);
    }
  }

  /** Neither a gap nor a loss starts a segment. */
  lemma {:induction false} OtherFateIsFirst(setup: Setup, l: Ledger, fate: Fate, upto: nat)
    requires FirstLedger(setup, l) && (fate.Took? ==> fate.item.Gap?)
    ensures FirstLedger(setup, l.(done := upto, history := l.history + [fate]))
  {
    var s := RecordOf(setup, l.history);
    OneMore(setup, l.history, fate);
    match fate {
      case Took(item) =>
        TakeKeepsStarts(setup, s, item);
        hide RecordOf, MissedFirst;
        StartsKeepFirst(s.coverage, Meet(setup, s, fate).coverage, l.all, l.missed, item);
      case Lost(now, error) =>
        FailureKeepsStarts(s.coverage, now, now, error);
        hide RecordOf, MissedFirst, WithFailure;
        var gap := Gap(now, BufferExpired, None, None);
        StartsKeepFirst(s.coverage, Meet(setup, s, fate).coverage, l.all, l.missed, gap);
    }
  }

  lemma {:induction false} GrownIsFirst(setup: Setup, l: Ledger, items: seq<Item>, first: nat)
    requires HonestLedger(setup, l) && FirstLedger(setup, l)
    ensures FirstLedger(setup, Grown(l, items, first))
  {
    var c, n := RecordOf(setup, l.history).coverage, Grown(l, items, first);
    HonestBehind(setup, l);
    LedgerWithin(setup, l);
    hide RecordOf, HonestLedger;
    forall i, g | 0 <= i < |c.segments| && 0 <= g < |n.all| && g in n.missed ensures MissedBefore(c, n.all, i, g) {
      assert n.all[g] == l.all[g] && MissedBefore(c, l.all, i, g);
    }
  }

  lemma {:induction false} SkippedIsFirst(setup: Setup, l: Ledger, upto: nat)
    requires RecordOf(setup, l.history).coverage.segments == []
    ensures FirstLedger(setup, Skipped(l, upto))
  {
  }

  lemma {:induction false} RunTakenIsFirst(setup: Setup, l: Ledger, from: nat, n: nat)
    requires Sound(l) && HonestLedger(setup, l) && FirstLedger(setup, l)
    requires l.first <= from <= l.done && from + n <= |l.all|
    ensures FirstLedger(setup, RunTaken(l, from, n))
  {
    hide Sound, HonestLedger, FirstLedger;
    if n > 0 {
      RunTakenIsSound(l, from, n - 1);
      RunTakenIsHonest(setup, l, from, n - 1);
      RunTakenIsFirst(setup, l, from, n - 1);
      TakenAtIsFirst(setup, RunTaken(l, from, n - 1), from + n - 1);
    }
  }

  lemma {:induction false} PageTakenIsFirst(setup: Setup, l: Ledger, declared: Option<GapReason>, at: Time,
                                            run: seq<Item>, from: nat, n: nat, blind: bool)
    requires Sound(l) && HonestLedger(setup, l) && NotAfter(l.all, at) && FirstLedger(setup, l)
    requires PageFits(l, declared, at, run, from, blind) && n <= |Head(declared, at)| + |run|
    requires blind ==> RecordOf(setup, l.history).coverage.segments == []
    ensures FirstLedger(setup, PageTaken(l, Head(declared, at), run, from, n, blind))
  {
    hide Sound, HonestLedger, NotAfter, FirstLedger, RecordOf;
    var head := Head(declared, at);
    if blind {
      SkippedIsSound(l, from);
      SkippedIsHonest(setup, l, from);
      SkippedIsFirst(setup, l, from);
      BlindPage(l, run, from, n);
      RunTakenIsFirst(setup, Skipped(l, from), from, n);
    } else if head == [] {
      PlainPage(l, run, from, n);
      RunTakenIsFirst(setup, l, from, n);
    } else if n > 0 {
      OneMoreIsSound(l, Took(head[0]), from);
      ToldIsHonest(setup, l, at, declared.value, from);
      OtherFateIsFirst(setup, l, Took(head[0]), Max(l.done, from));
      DeclaringPage(l, head[0], run, from, n);
      RunTakenIsFirst(setup, ToldOf(l, head[0], from), from, n - 1);
    } else {
      NothingTaken(l, head, run, from);
    }
  }

  /** A reading without a cursor made only while there is no coverage. */
  predicate KeepsCursor(setup: Setup, d: Delivery, move: Move) {
    move.Reads? && d.cursor.None? ==> RecordOf(setup, d.l.history).coverage.segments == []
  }

  lemma {:induction false} ReadsBlind(d: Delivery, limit: nat, at: Time, applied: nat)
    requires Streams.StartOf(d.alerts.b, d.cursor, false).Ok?
    ensures ReadingOf(d, limit, at, applied).blind <==> d.cursor.None?
  {
  }

  lemma {:induction false} ReadIsFirst(setup: Setup, d: Delivery, limit: nat, at: Time, applied: nat)
    requires Good(d) && HonestLedger(setup, d.l) && FirstLedger(setup, d.l) && d.now <= at
    requires d.cursor.None? ==> RecordOf(setup, d.l.history).coverage.segments == []
    ensures FirstLedger(setup, ReadBy(d, limit, at, applied).l)
  {
    GoodParts(d);
    NotAfterLater(d.l.all, d.now, at);
    ReadFits(d, limit, at, applied);
    ReadsBlind(d, limit, at, applied);
    hide Good, Sound, HonestLedger, FirstLedger, RecordOf, NotAfter, ReadBy, PageFits, PageTaken, ReadingOf;
    hide Streams.StartOf;
    var r := ReadingOf(d, limit, at, applied);
    ReadTakesPage(d, limit, at, applied);
    PageTakenIsFirst(setup, d.l, r.declared, at, r.run, r.from, r.n, r.blind);
  }

  lemma {:induction false} MoveIsFirst(rules: Alerts.Rules, setup: Setup, d: Delivery, move: Move)
    requires Good(d) && CanMove(d, move) && HonestLedger(setup, d.l) && FirstLedger(setup, d.l)
    requires KeepsCursor(setup, d, move)
    ensures FirstLedger(setup, Next(rules, d, move).l)
  {
    hide HonestLedger, FirstLedger, RecordOf, Sound, CursorFits, NotAfter, ReadBy;
    match move {
      case Puts(step) =>
        GrownIsFirst(setup, d.l, PutBy(rules, d.alerts, step), Next(rules, d, move).l.first);
      case ConnectorRestarts(epoch, maxLen) =>
        GrownIsFirst(setup, d.l, [], |d.l.all|);
        assert d.l.all + [] == d.l.all;
      case IntakeRestarts =>
      case Reads(limit, at, applied) => ReadIsFirst(setup, d, limit, at, applied);
      case Loses(now, error) => OtherFateIsFirst(setup, d.l, Lost(now, error), d.l.done);
    }
  }

  lemma {:induction false} OutsetIsFirst(setup: Setup, epoch: string, maxLen: nat)
    ensures FirstLedger(setup, Outset(epoch, maxLen).l)
  {
  }

  lemma {:induction false} RunIsFirst(rules: Alerts.Rules, setup: Setup, states: seq<Delivery>, moves: seq<Move>,
                                      n: nat)
    requires IsDeliveryRun(rules, states, moves) && n <= |moves|
    requires forall j :: 0 <= j < n ==> KeepsCursor(setup, states[j], moves[j])
    ensures FirstLedger(setup, states[n].l)
  {
    hide FirstLedger, HonestLedger, Good, KeepsCursor;
    if n > 0 {
      RunIsFirst(rules, setup, states, moves, n - 1);
      RunIsHonest(rules, setup, states, moves, n - 1);
      RunIsGood(rules, states, moves, n - 1);
      assert Moves(rules, states, moves, n - 1);
      MoveIsFirst(rules, setup, states[n - 1], moves[n - 1]);
    } else {
      OutsetIsFirst(setup, states[0].alerts.b.epoch, states[0].alerts.b.maxLen);
    }
  }

  /** In a run in which the intake reads without a cursor only while it has no coverage, there is no exception: the
      successes of a segment are exactly the polls made in its span, and every one of them was answered. */
  lemma {:induction false} CursorKeptIsHonest(rules: Alerts.Rules, setup: Setup, states: seq<Delivery>,
                                              moves: seq<Move>, n: nat, i: nat, g: nat)
    requires IsDeliveryRun(rules, states, moves) && n <= |moves|
    requires forall j :: 0 <= j < n ==> KeepsCursor(setup, states[j], moves[j])
    requires i < |RecordOf(setup, states[n].l.history).coverage.segments| && g < |states[n].l.all|
    requires Within(RecordOf(setup, states[n].l.history).coverage.segments[i], states[n].l.all[g])
    ensures states[n].l.all[g].ok
    ensures states[n].l.all[g].completedAt in Heard(RecordOf(setup, states[n].l.history).coverage.polls, i)
  {
    var c, l := RecordOf(setup, states[n].l.history).coverage, states[n].l;
    RunIsFirst(rules, setup, states, moves, n);
    CoverageIsHonest(rules, setup, states, moves, n, i);
    hide IsDeliveryRun, RecordOf, KeepsCursor, SegmentTrue;
    assert g in l.missed ==> MissedBefore(c, l.all, i, g);
  }

  // ---- a poll passed over without a word ------------------------------------------------------

  const RULES := Alerts.Rules(0, 0, text => None, at => "")
  const POLLED_AT_0 := Heartbeat(0, 0, true, Some(0), None)
  const FAILED_AT_60 := Heartbeat(60, 60, false, None, Some("TimeoutError"))
  const GAP_AT_60 := Gap(60, BackendUnreachable, None, None)
  const POLLED_AT_120 := Heartbeat(120, 120, true, Some(0), None)
  const SO_FAR := [POLLED_AT_0, FAILED_AT_60, GAP_AT_60, POLLED_AT_120]

  /** A poll is answered and read; the intake restarts; a poll fails, and the next is answered; a delivery evicts the
      failure from a buffer of this size, whatever it is; the intake reads, without a cursor. */
  function MoveAt(maxLen: nat, i: nat): Move
    requires maxLen >= 1 && i < 7
  {
    match i
    case 0 => Puts(Alerts.Polls([], 0, 0))
    case 1 => Reads(1, 0, 1)
    case 2 => IntakeRestarts
    case 3 => Puts(Alerts.PollFails(60, 60, "TimeoutError"))
    case 4 => Puts(Alerts.Polls([], 120, 120))
    case 5 => Puts(Alerts.Delivers(Alerts.Flood(maxLen - 1), 120))
    case _ => Reads(1, 120, 1)
  }

  function Holding(b: Buffer, now: Time, cursor: Option<string>, done: nat, missed: set<nat>,
                   history: seq<Fate>): Delivery
  {
    Delivery(Alerts.AlertState([], [], b), {"e"}, now, 0, cursor, Ledger(b.log, b.First() - 1, done, missed, history))
  }

  function Holds(maxLen: nat, log: seq<Item>): Buffer {
    Buffer("e", maxLen, log, None)
  }

  function Crowded(maxLen: nat): seq<Item>
    requires maxLen >= 1
  {
    SO_FAR + Alerts.Delivered(Alerts.Flood(maxLen - 1), 120)
  }

  function StateAt(maxLen: nat, i: nat): Delivery
    requires maxLen >= 1 && i < 8
  {
    var took := [Took(POLLED_AT_0)];
    match i
    case 0 => Holding(Holds(maxLen, []), 0, None, 0, {}, [])
    case 1 => Holding(Holds(maxLen, SO_FAR[..1]), 0, None, 0, {}, [])
    case 2 => Holding(Holds(maxLen, SO_FAR[..1]), 0, Some(MakeCursor("e", 1)), 1, {}, took)
    case 3 => Holding(Holds(maxLen, SO_FAR[..1]), 0, None, 1, {}, took)
    case 4 => Holding(Holds(maxLen, SO_FAR[..3]), 60, None, 1, {}, took)
    case 5 => Holding(Holds(maxLen, SO_FAR), 120, None, 1, {}, took)
    case 6 => Holding(Holds(maxLen, Crowded(maxLen)), 120, None, 1, {}, took)
    case _ => Holding(Holds(maxLen, Crowded(maxLen)), 120, Some(MakeCursor("e", 4)), 4, {1, 2},
                      took + [Took(POLLED_AT_120)])
  }

  function PassingOver(maxLen: nat): (moves: seq<Move>)
    requires maxLen >= 1
    ensures |moves| == 7 && forall i :: 0 <= i < 7 ==> moves[i] == MoveAt(maxLen, i)
  {
    seq(7, i requires 0 <= i < 7 => MoveAt(maxLen, i))
  }

  function PassedOver(maxLen: nat): (states: seq<Delivery>)
    requires maxLen >= 1
    ensures |states| == 8 && forall i :: 0 <= i < 8 ==> states[i] == StateAt(maxLen, i)
  {
    seq(8, i requires 0 <= i < 8 => StateAt(maxLen, i))
  }

  /** Each move can be made, and leads from one state to the next. */
  predicate Leads(maxLen: nat, i: nat)
    requires maxLen >= 1 && i < 7
  {
    && CanMove(StateAt(maxLen, i), MoveAt(maxLen, i))
    && Next(RULES, StateAt(maxLen, i), MoveAt(maxLen, i)) == StateAt(maxLen, i + 1)
  }

  lemma {:induction false} EmptyPoll(b: Buffer, at: Time)
    ensures var s := Alerts.AlertState([], [], b);
            && Alerts.NextAlerts(RULES, s, Alerts.Polls([], at, at)) == s.(b := b.Append([Alerts.Answered(at, at, 0)]))
            && PutBy(RULES, s, Alerts.Polls([], at, at)) == [Alerts.Answered(at, at, 0)]
  {
    assert [] + [] + [Alerts.Answered(at, at, 0)] == [Alerts.Answered(at, at, 0)];
  }

  lemma {:induction false} FloodIsPut(k: nat, at: Time)
    ensures Alerts.AdmittedOf(RULES, [], Alerts.Flood(k), at) == Alerts.Flood(k)
    ensures Alerts.RememberAll(RULES, [], Alerts.Flood(k), at) == []
    ensures |Alerts.Delivered(Alerts.Flood(k), at)| == k
  {
    if k > 0 {
      var flood := Alerts.Flood(k);
      assert flood[..k - 1] == Alerts.Flood(k - 1);
      FloodIsPut(k - 1, at);
      assert Alerts.Admits(RULES, [], flood[k - 1], at);
    }
  }

  lemma {:induction false} HoldingPolls(b: Buffer, now: Time, at: Time, done: nat, missed: set<nat>, history: seq<Fate>)
    requires now <= at && AfterPolls(b.log, at)
    ensures var d, move := Holding(b, now, None, done, missed, history), Puts(Alerts.Polls([], at, at));
            && CanMove(d, move)
            && Next(RULES, d, move)
               == Holding(b.Append([Alerts.Answered(at, at, 0)]), at, None, done, missed, history)
  {
    EmptyPoll(b, at);
  }

  lemma {:induction false} HoldingFails(b: Buffer, history: seq<Fate>)
    requires b.log == SO_FAR[..1]
    ensures var d, move := Holding(b, 0, None, 1, {}, history), Puts(Alerts.PollFails(60, 60, "TimeoutError"));
            && CanMove(d, move)
            && Next(RULES, d, move) == Holding(b.Append([FAILED_AT_60, GAP_AT_60]), 60, None, 1, {}, history)
  {
  }

  lemma {:induction false} HoldingFlood(b: Buffer, k: nat, at: Time, done: nat, history: seq<Fate>)
    ensures var d, move := Holding(b, at, None, done, {}, history), Puts(Alerts.Delivers(Alerts.Flood(k), at));
            && CanMove(d, move)
            && Next(RULES, d, move)
               == Holding(b.Append(Alerts.Delivered(Alerts.Flood(k), at)), at, None, done, {}, history)
  {
    FloodIsPut(k, at);
    hide Alerts.Flood, Alerts.Delivered, Alerts.AdmittedOf, Alerts.RememberAll;
  }

  /** A page of one item, read without a cursor: the first buffered. */
  lemma {:induction false} PageOfOne(b: Buffer, at: Time)
    requires b.First() <= |b.log|
    ensures Streams.StartOf(b, None, false) == Ok(Start(b.First() - 1, None))
    ensures RunOf(b, Start(b.First() - 1, None), 1) == [b.log[b.First() - 1]]
    ensures var page := ReadPage(b, None, 1, false, at);
            page.Ok? && page.value.nextCursor == MakeCursor(b.epoch, b.First())
  {
    hide ItemsOf, GapsOf, MakeCursor;
    ServedOne(b);
  }

  lemma {:induction false} ServedOne(b: Buffer)
    requires b.First() <= |b.log|
    ensures var f := b.First(); Served(b, Start(f - 1, None), 1) == [Numbered(f, b.log[f - 1])]
    ensures RunOf(b, Start(b.First() - 1, None), 1) == [b.log[b.First() - 1]]
  {
  }

  lemma {:induction false} OneTaken(l: Ledger, item: Item, from: nat)
    requires l.missed == {} && l.done <= from
    ensures PageTaken(l, [], [item], from, 1, true)
         == l.(done := from + 1, missed := Span(l.done, from), history := l.history + [Took(item)])
  {
    assert ([] + [item])[..1] == [item] && TookAll([item]) == [Took(item)];
    assert {} + Span(l.done, from) == Span(l.done, from);
  }

  lemma {:induction false} HoldingReads(b: Buffer, now: Time, done: nat, history: seq<Fate>)
    requires b.First() <= |b.log| && done < b.First()
    ensures var d, move, f := Holding(b, now, None, done, {}, history), Reads(1, now, 1), b.First();
            && CanMove(d, move)
            && Next(RULES, d, move) == Holding(b, now, Some(MakeCursor(b.epoch, f)), f, Span(done, f - 1),
                                               history + [Took(b.log[f - 1])])
  {
    var d, item := Holding(b, now, None, done, {}, history), b.log[b.First() - 1];
    PageOfOne(b, now);
    OneTaken(d.l, item, b.First() - 1);
    hide ReadPage, Streams.StartOf, RunOf, PageTaken, MakeCursor, Span;
    assert Head(None, now) == [];
  }

  lemma {:induction false} HoldingForgets(b: Buffer, now: Time, cursor: Option<string>, done: nat, history: seq<Fate>)
    ensures var d := Holding(b, now, cursor, done, {}, history);
            CanMove(d, IntakeRestarts) && Next(RULES, d, IntakeRestarts) == Holding(b, now, None, done, {}, history)
  {
  }

  lemma {:induction false} FirstPolls(maxLen: nat)
    requires maxLen >= 1
    ensures Leads(maxLen, 0) && Leads(maxLen, 4)
  {
    hide Holding, CanMove, Next, MakeCursor;
    HoldingPolls(Holds(maxLen, []), 0, 0, 0, {}, []);
    assert [] + [POLLED_AT_0] == SO_FAR[..1];
    HoldingPolls(Holds(maxLen, SO_FAR[..3]), 60, 120, 1, {}, [Took(POLLED_AT_0)]);
    assert SO_FAR[..3] + [POLLED_AT_120] == SO_FAR;
  }

  lemma {:induction false} FirstRead(maxLen: nat)
    requires maxLen >= 1
    ensures Leads(maxLen, 1) && Leads(maxLen, 2)
  {
    hide Holding, CanMove, Next, MakeCursor;
    var b := Holds(maxLen, SO_FAR[..1]);
    HoldingReads(b, 0, 0, []);
    assert b.First() == 1 && b.log[0] == POLLED_AT_0 && Span(0, 0) == {};
    assert [] + [Took(POLLED_AT_0)] == [Took(POLLED_AT_0)];
    HoldingForgets(b, 0, Some(MakeCursor("e", 1)), 1, [Took(POLLED_AT_0)]);
  }

  lemma {:induction false} ThenFails(maxLen: nat)
    requires maxLen >= 1
    ensures Leads(maxLen, 3) && Leads(maxLen, 5)
  {
    hide Holding, CanMove, Next, MakeCursor;
    HoldingFails(Holds(maxLen, SO_FAR[..1]), [Took(POLLED_AT_0)]);
    assert SO_FAR[..1] + [FAILED_AT_60, GAP_AT_60] == SO_FAR[..3];
    HoldingFlood(Holds(maxLen, SO_FAR), maxLen - 1, 120, 1, [Took(POLLED_AT_0)]);
  }

  lemma {:induction false} CrowdedBuffer(maxLen: nat)
    requires maxLen >= 1
    ensures var b := Holds(maxLen, Crowded(maxLen)); b.First() == 4 <= |b.log| && b.log[3] == POLLED_AT_120
  {
    FloodIsPut(maxLen - 1, 120);
    hide Alerts.Flood, Alerts.Delivered, Alerts.AdmittedOf, Alerts.RememberAll;
  }

  lemma {:induction false} LastRead(maxLen: nat)
    requires maxLen >= 1
    ensures Leads(maxLen, 6)
  {
    hide Holding, CanMove, Next, MakeCursor, Crowded;
    CrowdedBuffer(maxLen);
    HoldingReads(Holds(maxLen, Crowded(maxLen)), 120, 1, [Took(POLLED_AT_0)]);
    assert Span(1, 3) == {1, 2};
  }

  lemma {:induction false} LeadsMoves(maxLen: nat, i: nat)
    requires maxLen >= 1 && i < 7 && Leads(maxLen, i)
    ensures Moves(RULES, PassedOver(maxLen), PassingOver(maxLen), i)
  {
    hide StateAt, MoveAt, CanMove, Next;
  }

  lemma {:induction false} PassedOverMoves(maxLen: nat, i: nat)
    requires maxLen >= 1 && i < 7
    ensures Moves(RULES, PassedOver(maxLen), PassingOver(maxLen), i)
  {
    hide StateAt, MoveAt, CanMove, Next, Leads;
    FirstPolls(maxLen);
    FirstRead(maxLen);
    ThenFails(maxLen);
    LastRead(maxLen);
    assert Leads(maxLen, i);
    LeadsMoves(maxLen, i);
  }

  lemma {:induction false} FirstOfTwo(normalize: Alert -> Option<Normal>)
    ensures var polls := [PollRow(Some(0), 0, 0, Active(0))];
            && RecordOf(ByMinute(normalize), [Took(POLLED_AT_0)]).coverage
               == Coverage([Segment(0, 0, None, Open)], polls)
            && Latest(polls) == Some(0)
  {
    assert [Took(POLLED_AT_0)][..0] == [];
    assert RecordOf(ByMinute(normalize), []) == EMPTY_RECORD;
    assert [PollRow(Some(0), 0, 0, Active(0))][..0] == [];
  }

  lemma {:induction false} SecondOfTwo(setup: Setup, s: Record)
    requires s.coverage.segments == [Segment(0, 0, None, Open)] && Latest(s.coverage.polls) == Some(0)
    requires setup.rule(0, 120)
    ensures Take(setup, s, POLLED_AT_120).coverage.segments == [Segment(0, 120, None, Open)]
  {
  }

  lemma {:induction false} RunPassesOver(maxLen: nat)
    requires maxLen >= 1
    ensures IsDeliveryRun(RULES, PassedOver(maxLen), PassingOver(maxLen))
  {
    forall i | 0 <= i < 7 ensures Moves(RULES, PassedOver(maxLen), PassingOver(maxLen), i) {
      PassedOverMoves(maxLen, i);
    }
    hide Moves, MoveAt, MakeCursor, Crowded;
    assert StateAt(maxLen, 0) == Outset("e", maxLen);
  }

  lemma {:induction false} EndOfRun(maxLen: nat)
    requires maxLen >= 1
    ensures var end := PassedOver(maxLen)[7].l;
            && end.history == [Took(POLLED_AT_0)] + [Took(POLLED_AT_120)] && end.missed == {1, 2}
            && |end.all| > 1 && end.all[1] == FAILED_AT_60
  {
  }

  /** The exception is real, for every buffer that holds anything: the segment that ends this run vouches for the
      instant at which the poll at 60 failed. */
  lemma {:induction false} FailureVouchedFor(maxLen: nat, normalize: Alert -> Option<Normal>)
    requires maxLen >= 1
    ensures IsDeliveryRun(RULES, PassedOver(maxLen), PassingOver(maxLen))
    ensures var end := PassedOver(maxLen)[7].l;
            var segments := RecordOf(ByMinute(normalize), end.history).coverage.segments;
            && segments == [Segment(0, 120, None, Open)]
            && |end.all| > 1 && Unanswered(segments[0], end.all[1]) && 1 in end.missed
  {
    RunPassesOver(maxLen);
    EndOfRun(maxLen);
    hide IsDeliveryRun, PassedOver, StateAt, RecordOf, Take;
    var took := [Took(POLLED_AT_0)];
    FirstOfTwo(normalize);
    OneMore(ByMinute(normalize), took, Took(POLLED_AT_120));
    assert Continues(Cadence(60, 2), 0, 120);
    SecondOfTwo(ByMinute(normalize), RecordOf(ByMinute(normalize), took));
  }
}
