/** The control plane's intake of the alert stream: at-least-once delivery, and what is already recorded. */
module Intake {
  import opened Text
  import opened Wire
  import opened Coverages

  /** What the intake makes of an alert it can normalise. */
  datatype Normal = Normal(fingerprint: string, startsAt: Time, resolved: bool, endsAt: Option<Time>)

  datatype Setup = Setup(rule: Rule, normalize: Alert -> Option<Normal>)

  /** The stored record: coverage, and the occurrences that were let in. */
  datatype Record = Record(coverage: Coverage, known: set<(string, Time)>)

  const EMPTY_RECORD := Record(UNOBSERVED, {})

  function TimeOf(item: Item): Time {
    if item.Heartbeat? then item.completedAt else item.at
  }

  function KeyOf(n: Normal): (string, Time) {
    (n.fingerprint, n.startsAt)
  }

  /** A resolved occurrence, never recorded, that ended by the first coverage, or before any, opens nothing. */
  predicate BeforeFirstCoverage(s: Record, n: Normal) {
    var first := FirstCoverage(s.coverage.segments);
    n.resolved && n.endsAt.Some? && (first.None? || n.endsAt.value <= first.value) && KeyOf(n) !in s.known
  }

  function TakeAlert(setup: Setup, s: Record, alert: Alert): Record {
    var n := setup.normalize(alert);
    if n.None? || BeforeFirstCoverage(s, n.value) then s else s.(known := s.known + {KeyOf(n.value)})
  }

  /** The error a failed poll is recorded under. */
  function ErrorOf(error: Option<string>): string {
    if error.None? || error.value == "" then "ConnectorPollFailed" else error.value
  }

  /** One item; a poll or gap no later than what is recorded changes nothing. */
  function Take(setup: Setup, s: Record, item: Item): Record {
    match item
    case AlertItem(_, _, alert) => TakeAlert(setup, s, alert)
    case Heartbeat(attemptedAt, completedAt, ok, active, error) =>
      if !After(s.coverage, completedAt) then s
      else if ok then s.(coverage := WithSuccess(s.coverage, setup.rule, attemptedAt, completedAt, active.GetOr(0)))
      else s.(coverage := WithFailure(s.coverage, attemptedAt, completedAt, ErrorOf(error)))
    case Gap(at, reason, _, _) =>
      if !After(s.coverage, at) || OpenIndex(s.coverage.segments).None? then s
      else s.(coverage := WithFailure(s.coverage, at, at, ReasonText(reason)))
    case _ => s
  }

  function TakeAll(setup: Setup, s: Record, items: seq<Item>): Record {
    if items == [] then s else Take(setup, TakeAll(setup, s, items[..|items| - 1]), items[|items| - 1])
  }

  /** A connector that cannot be reached observes nothing: the open segment is closed, once. */
  function Lose(s: Record, now: Time, error: string): Record {
    if OpenIndex(s.coverage.segments).None? then s else s.(coverage := WithFailure(s.coverage, now, now, error))
  }

  lemma {:induction false} TakeAllConcat(setup: Setup, s: Record, a: seq<Item>, b: seq<Item>)
    ensures TakeAll(setup, s, a + b) == TakeAll(setup, TakeAll(setup, s, a), b)
  {
    if b == [] {
      assert a + b == a;
    } else {
      TakeAllConcat(setup, s, a, b[..|b| - 1]);
      assert (a + b)[..|a + b| - 1] == a + b[..|b| - 1];
    }
  }

  lemma {:induction false} TakeOne(setup: Setup, s: Record, item: Item)
    ensures TakeAll(setup, s, [item]) == Take(setup, s, item)
  {
    assert [item][..0] == [];
    assert TakeAll(setup, s, []) == s;
  }

  lemma {:induction false} CoverageAlone(setup: Setup, s: Record, t: Record, items: seq<Item>)
    requires s.coverage == t.coverage
    ensures TakeAll(setup, s, items).coverage == TakeAll(setup, t, items).coverage
  {
    if items != [] {
      CoverageAlone(setup, s, t, items[..|items| - 1]);
    }
  }

  // ---- what changes no coverage ---------------------------------------------------------------

  /** A poll no later than the record, a gap no later or with no segment to close, or an alert. */
  predicate Settled(c: Coverage, item: Item) {
    match item
    case Heartbeat(_, completedAt, _, _, _) => !After(c, completedAt)
    case Gap(at, _, _, _) => !After(c, at) || OpenIndex(c.segments).None?
    case _ => true
  }

  lemma {:induction false} RowsGrow(setup: Setup, s: Record, item: Item)
    ensures var n := Take(setup, s, item).coverage;
            if Settled(s.coverage, item) then n == s.coverage else |n.polls| == |s.coverage.polls| + 1
  {
  }

  lemma {:induction false} NeverFewerRows(setup: Setup, s: Record, items: seq<Item>)
    ensures var n := TakeAll(setup, s, items).coverage;
            |n.polls| >= |s.coverage.polls| && (|n.polls| == |s.coverage.polls| ==> n == s.coverage)
  {
    if items != [] {
      NeverFewerRows(setup, s, items[..|items| - 1]);
      RowsGrow(setup, TakeAll(setup, s, items[..|items| - 1]), items[|items| - 1]);
    }
  }

  /** Items change no coverage between them exactly when none of them would alone. */
  lemma {:induction false} UnchangedExactly(setup: Setup, s: Record, items: seq<Item>)
    ensures TakeAll(setup, s, items).coverage == s.coverage
       <==> forall item :: item in items ==> Settled(s.coverage, item)
  {
    if items != [] {
      var front, last := items[..|items| - 1], items[|items| - 1];
      var before := TakeAll(setup, s, front);
      UnchangedExactly(setup, s, front);
      NeverFewerRows(setup, s, front);
      RowsGrow(setup, before, last);
      assert items == front + [last];
    }
  }

  // ---- how settled an item stays --------------------------------------------------------------

  lemma {:induction false} FailureRecorded(c: Coverage, rule: Rule, attemptedAt: Time, completedAt: Time, error: string)
    requires True(c, rule)
    ensures var n := WithFailure(c, attemptedAt, completedAt, error);
            OpenIndex(n.segments).None? && !After(n, completedAt) && forall t :: !After(c, t) ==> !After(n, t)
  {
    FailureKeepsTrue(c, rule, attemptedAt, completedAt, error);
    LatestAfter(c.polls, PollRow(None, attemptedAt, completedAt, Failed(error)));
  }

  lemma {:induction false} SuccessRecorded(c: Coverage, rule: Rule, attemptedAt: Time, completedAt: Time, active: nat)
    ensures var n := WithSuccess(c, rule, attemptedAt, completedAt, active);
            !After(n, completedAt) && forall t :: !After(c, t) ==> !After(n, t)
  {
    var n := WithSuccess(c, rule, attemptedAt, completedAt, active);
    LatestAfter(c.polls, n.polls[|c.polls|]);
  }

  lemma {:induction false} TakeKeepsTrue(setup: Setup, s: Record, item: Item)
    requires True(s.coverage, setup.rule)
    ensures True(Take(setup, s, item).coverage, setup.rule)
  {
    match item {
      case Heartbeat(attemptedAt, completedAt, ok, active, error) =>
        if After(s.coverage, completedAt) {
          if ok {
            SuccessKeepsTrue(s.coverage, setup.rule, attemptedAt, completedAt, active.GetOr(0));
          } else {
            FailureKeepsTrue(s.coverage, setup.rule, attemptedAt, completedAt, ErrorOf(error));
          }
        }
      case Gap(at, reason, _, _) => FailureKeepsTrue(s.coverage, setup.rule, at, at, ReasonText(reason));
      case _ =>
    }
  }

  /** An item once taken is settled. A heartbeat stays so; a gap stays so until an earlier heartbeat is recorded. */
  lemma {:induction false} TakeSettles(setup: Setup, s: Record, item: Item, before: Item)
    requires True(s.coverage, setup.rule)
    requires before == item || Settled(s.coverage, before)
    requires before.Gap? && item.Heartbeat? ==> before.at <= item.completedAt || Settled(s.coverage, item)
    ensures Settled(Take(setup, s, item).coverage, before)
  {
    match item {
      case Heartbeat(attemptedAt, completedAt, ok, active, error) =>
        SuccessRecorded(s.coverage, setup.rule, attemptedAt, completedAt, active.GetOr(0));
        FailureRecorded(s.coverage, setup.rule, attemptedAt, completedAt, ErrorOf(error));
      case Gap(at, reason, _, _) => FailureRecorded(s.coverage, setup.rule, at, at, ReasonText(reason));
      case _ =>
    }
  }

  // ---- whole histories ------------------------------------------------------------------------

  /** What happened to the intake: an item taken, for the first time or again, or the connector out of reach. */
  datatype Fate = Took(item: Item) | Lost(now: Time, error: string)

  function Meet(setup: Setup, s: Record, fate: Fate): Record {
    match fate
    case Took(item) => Take(setup, s, item)
    case Lost(now, error) => Lose(s, now, error)
  }

  function RecordOf(setup: Setup, history: seq<Fate>): Record {
    if history == [] then EMPTY_RECORD
    else Meet(setup, RecordOf(setup, history[..|history| - 1]), history[|history| - 1])
  }

  lemma {:induction false} MeetKeepsTrue(setup: Setup, s: Record, fate: Fate)
    requires True(s.coverage, setup.rule)
    ensures True(Meet(setup, s, fate).coverage, setup.rule)
  {
    match fate {
      case Took(item) => TakeKeepsTrue(setup, s, item);
      case Lost(now, error) => FailureKeepsTrue(s.coverage, setup.rule, now, now, error);
    }
  }

  lemma {:induction false} HistoryIsTrue(setup: Setup, history: seq<Fate>)
    ensures True(RecordOf(setup, history).coverage, setup.rule)
  {
    if history != [] {
      HistoryIsTrue(setup, history[..|history| - 1]);
      MeetKeepsTrue(setup, RecordOf(setup, history[..|history| - 1]), history[|history| - 1]);
    }
  }

  lemma {:induction false} MeetSettles(setup: Setup, s: Record, fate: Fate, before: Item)
    requires True(s.coverage, setup.rule)
    requires fate == Took(before) || Settled(s.coverage, before)
    requires before.Gap? && fate.Took? && fate.item.Heartbeat? ==>
               before.at <= fate.item.completedAt || Settled(s.coverage, fate.item)
    ensures Settled(Meet(setup, s, fate).coverage, before)
  {
    match fate {
      case Took(item) => TakeSettles(setup, s, item, before);
      case Lost(now, error) => FailureRecorded(s.coverage, setup.rule, now, now, error);
    }
  }

  lemma {:induction false} HeartbeatStaysSettled(setup: Setup, history: seq<Fate>, item: Item)
    requires Took(item) in history && !item.Gap?
    ensures Settled(RecordOf(setup, history).coverage, item)
  {
    var front, last := history[..|history| - 1], history[|history| - 1];
    HistoryIsTrue(setup, front);
    if last != Took(item) {
      HeartbeatStaysSettled(setup, front, item);
    }
    MeetSettles(setup, RecordOf(setup, front), last, item);
  }

  /** Delivered again, in any order and however often, what was taken changes a coverage row exactly when it holds a gap
      later than anything recorded while a segment is open. */
  lemma {:induction false} ReplayChangesNoCoverage(setup: Setup, history: seq<Fate>, again: seq<Item>)
    requires forall item :: item in again ==> Took(item) in history
    ensures var s := RecordOf(setup, history);
            (TakeAll(setup, s, again).coverage == s.coverage
             <==> forall item :: item in again && item.Gap? ==>
                    !After(s.coverage, item.at) || OpenIndex(s.coverage.segments).None?)
  {
    UnchangedExactly(setup, RecordOf(setup, history), again);
    forall item | item in again && !item.Gap? ensures Settled(RecordOf(setup, history).coverage, item) {
      HeartbeatStaysSettled(setup, history, item);
    }
  }

  // ---- histories a buffer delivers ------------------------------------------------------------

  /** A gap the buffer declares to a reader as it reads; any other was put where the poll failed. */
  predicate Declared(item: Item) {
    item.Gap? && (item.reason == ConnectorRestart || item.reason == BufferExpired)
  }

  /** A heartbeat taken is one taken before, or no earlier than anything put into the buffer and taken before. */
  predicate Arrives(history: seq<Fate>, i: nat)
    requires i < |history|
  {
    history[i].Took? && history[i].item.Heartbeat? ==>
      history[i] in history[..i]
      || forall j :: 0 <= j < i && history[j].Took? && !Declared(history[j].item) ==>
           TimeOf(history[j].item) <= history[i].item.completedAt
  }

  predicate AtLeastOnce(history: seq<Fate>) {
    forall i :: 0 <= i < |history| ==> Arrives(history, i)
  }

  lemma {:induction false} FrontArrives(history: seq<Fate>)
    requires history != [] && AtLeastOnce(history)
    ensures AtLeastOnce(history[..|history| - 1])
  {
    var front := history[..|history| - 1];
    forall i | 0 <= i < |front| ensures Arrives(front, i) {
      assert Arrives(history, i) && front[..i] == history[..i];
    }
  }

  /** What an item taken earlier may rely on when the history goes on. */
  lemma {:induction false} LastArrives(setup: Setup, history: seq<Fate>, item: Item)
    requires history != [] && AtLeastOnce(history) && Took(item) in history[..|history| - 1] && !Declared(item)
    ensures var front, last := history[..|history| - 1], history[|history| - 1];
            last.Took? && last.item.Heartbeat? ==>
              TimeOf(item) <= last.item.completedAt || Settled(RecordOf(setup, front).coverage, last.item)
  {
    var front, last := history[..|history| - 1], history[|history| - 1];
    assert Arrives(history, |front|);
    if last.Took? && last.item.Heartbeat? {
      if last in front {
        HeartbeatStaysSettled(setup, front, last.item);
      } else {
        var j :| 0 <= j < |front| && front[j] == Took(item);
        assert history[j].Took?;
      }
    }
  }

  lemma {:induction false} TakenIsSettled(setup: Setup, history: seq<Fate>, item: Item)
    requires AtLeastOnce(history) && Took(item) in history && !Declared(item)
    ensures Settled(RecordOf(setup, history).coverage, item)
  {
    var front, last := history[..|history| - 1], history[|history| - 1];
    FrontArrives(history);
    HistoryIsTrue(setup, front);
    if last != Took(item) {
      TakenIsSettled(setup, front, item);
      LastArrives(setup, history, item);
    }
    MeetSettles(setup, RecordOf(setup, front), last, item);
  }

  /** Of what a buffer delivered, only the gaps it declared as it was read can change the coverage when they come
      again. */
  lemma {:induction false} OnlyDeclaredGapsReplay(setup: Setup, history: seq<Fate>, again: seq<Item>)
    requires AtLeastOnce(history) && forall item :: item in again ==> Took(item) in history
    ensures var s := RecordOf(setup, history);
            (TakeAll(setup, s, again).coverage == s.coverage
             <==> forall item :: item in again && Declared(item) ==>
                    !After(s.coverage, item.at) || OpenIndex(s.coverage.segments).None?)
  {
    ReplayChangesNoCoverage(setup, history, again);
    forall item | item in again && !Declared(item) ensures Settled(RecordOf(setup, history).coverage, item) {
      TakenIsSettled(setup, history, item);
    }
  }

  // ---- a page that failed half way ------------------------------------------------------------

  /** No heartbeat completed before a gap it follows. */
  predicate Forward(items: seq<Item>) {
    forall i, j :: 0 <= i < j < |items| && items[i].Gap? && items[j].Heartbeat? ==> items[i].at <= items[j].completedAt
  }

  lemma {:induction false} RunSettles(setup: Setup, s: Record, items: seq<Item>)
    requires True(s.coverage, setup.rule) && Forward(items)
    ensures var n := TakeAll(setup, s, items);
            True(n.coverage, setup.rule) && forall item :: item in items ==> Settled(n.coverage, item)
  {
    if items != [] {
      var front, last := items[..|items| - 1], items[|items| - 1];
      RunSettles(setup, s, front);
      var before := TakeAll(setup, s, front);
      TakeKeepsTrue(setup, before, last);
      forall item | item in items ensures Settled(Take(setup, before, last).coverage, item) {
        if item != last {
          var i :| 0 <= i < |front| && front[i] == item;
          assert items[i] == item;
        }
        TakeSettles(setup, before, last, item);
      }
    }
  }

  lemma {:induction false} PrefixForward(items: seq<Item>, k: nat)
    requires k <= |items|
    ensures Forward(items) ==> Forward(items[..k])
  {
  }

  lemma {:induction false} TakenTwice(setup: Setup, s: Record, items: seq<Item>)
    requires True(s.coverage, setup.rule) && Forward(items)
    ensures TakeAll(setup, TakeAll(setup, s, items), items).coverage == TakeAll(setup, s, items).coverage
  {
    RunSettles(setup, s, items);
    hide True, Forward, Take, TakeAll, Settled;
    UnchangedExactly(setup, TakeAll(setup, s, items), items);
  }

  lemma {:induction false} SplitAt(run: seq<Item>, more: seq<Item>, k: nat)
    requires k <= |run|
    ensures run[..k] + (run[k..] + more) == run + more
  {
    assert run == run[..k] + run[k..];
  }

  lemma {:induction false} RunResumes(setup: Setup, s: Record, run: seq<Item>, more: seq<Item>, k: nat)
    requires True(s.coverage, setup.rule) && Forward(run) && k <= |run|
    ensures TakeAll(setup, TakeAll(setup, s, run[..k]), run + more).coverage == TakeAll(setup, s, run + more).coverage
  {
    hide True, Forward, Take, TakeAll;
    var half, rest := TakeAll(setup, s, run[..k]), run[k..] + more;
    PrefixForward(run, k);
    TakenTwice(setup, s, run[..k]);
    CoverageAlone(setup, TakeAll(setup, half, run[..k]), half, rest);
    TakeAllConcat(setup, half, run[..k], rest);
    TakeAllConcat(setup, s, run[..k], rest);
    SplitAt(run, more, k);
  }

  /** The gap a reader is told of at the head of a page, if any, with the instant of the reading. */
  function Head(declared: Option<GapReason>, now: Time): seq<Item> {
    if declared.None? then [] else [Gap(now, declared.value, None, None)]
  }

  lemma {:induction false} HeadThen(setup: Setup, s: Record, reason: GapReason, now: Time, items: seq<Item>)
    ensures TakeAll(setup, s, Head(Some(reason), now) + items)
         == TakeAll(setup, Take(setup, s, Gap(now, reason, None, None)), items)
  {
    TakeAllConcat(setup, s, Head(Some(reason), now), items);
    TakeOne(setup, s, Gap(now, reason, None, None));
  }

  predicate Earlier(items: seq<Item>, at: Time) {
    forall item :: item in items ==> TimeOf(item) < at
  }

  lemma {:induction false} LatestMoves(setup: Setup, s: Record, item: Item, at: Time)
    ensures After(Take(setup, s, item).coverage, at)
       <==> After(s.coverage, at) && (Settled(s.coverage, item) || TimeOf(item) < at)
  {
    var n := Take(setup, s, item).coverage;
    if !Settled(s.coverage, item) {
      LastRow(setup, s, item);
      hide Take, Settled;
      LatestAfter(s.coverage.polls, n.polls[|s.coverage.polls|]);
    }
  }

  lemma {:induction false} LastRow(setup: Setup, s: Record, item: Item)
    requires !Settled(s.coverage, item)
    ensures var c, n := s.coverage, Take(setup, s, item).coverage;
            && |n.polls| == |c.polls| + 1 && n.polls[..|c.polls|] == c.polls
            && n.polls[|c.polls|].completedAt == TimeOf(item)
  {
    hide Latest;
  }

  lemma {:induction false} StaysBefore(setup: Setup, s: Record, items: seq<Item>, at: Time)
    requires After(s.coverage, at) && Earlier(items, at)
    ensures After(TakeAll(setup, s, items).coverage, at)
  {
    if items != [] {
      var last := items[|items| - 1];
      StaysBefore(setup, s, items[..|items| - 1], at);
      LatestMoves(setup, TakeAll(setup, s, items[..|items| - 1]), last, at);
      assert last in items;
    }
  }

  lemma {:induction false} WasBefore(setup: Setup, s: Record, items: seq<Item>, at: Time)
    requires After(TakeAll(setup, s, items).coverage, at)
    ensures After(s.coverage, at)
  {
    if items != [] {
      LatestMoves(setup, TakeAll(setup, s, items[..|items| - 1]), items[|items| - 1], at);
      WasBefore(setup, s, items[..|items| - 1], at);
    }
  }

  /** What a failed reading left, and the same page read again later, with more behind it. */
  datatype Retry = Retry(declared: Option<GapReason>, run: seq<Item>, more: seq<Item>, now: Time, later: Time) {
    function First(): seq<Item> {
      Head(declared, now) + run
    }

    function Second(): seq<Item> {
      Head(declared, later) + (run + more)
    }

    /** The second page had it been read at the first instant. */
    function Whole(): seq<Item> {
      Head(declared, now) + (run + more)
    }
  }

  function HalfOf(setup: Setup, s: Record, r: Retry, k: nat): Record
    requires k <= |r.First()|
  {
    TakeAll(setup, s, r.First()[..k])
  }

  function RetriedOf(setup: Setup, s: Record, r: Retry, k: nat): Coverage
    requires k <= |r.First()|
  {
    TakeAll(setup, HalfOf(setup, s, r, k), r.Second()).coverage
  }

  /** The retry leaves the coverage of one uninterrupted reading, then or now. */
  predicate CountedOnce(setup: Setup, s: Record, r: Retry, k: nat)
    requires k <= |r.First()|
  {
    || RetriedOf(setup, s, r, k) == TakeAll(setup, s, r.Whole()).coverage
    || RetriedOf(setup, s, r, k) == TakeAll(setup, s, r.Second()).coverage
  }

  /** No gap is declared, or the first attempt recorded nothing, or the gap declared again has nothing to close. */
  predicate Harmless(half: Record, s: Record, r: Retry) {
    r.declared.None? || half.coverage == s.coverage
    || !After(half.coverage, r.later) || OpenIndex(half.coverage.segments).None?
  }

  lemma {:induction false} HalfAfterGap(setup: Setup, s: Record, r: Retry, k: nat)
    requires r.declared.Some? && 1 <= k <= |r.First()|
    ensures HalfOf(setup, s, r, k)
         == TakeAll(setup, Take(setup, s, Gap(r.now, r.declared.value, None, None)), r.run[..k - 1])
  {
    assert r.First()[..k] == Head(r.declared, r.now) + r.run[..k - 1];
    HeadThen(setup, s, r.declared.value, r.now, r.run[..k - 1]);
  }

  lemma {:induction false} HarmlessCountsOnce(setup: Setup, s: Record, r: Retry, k: nat)
    requires True(s.coverage, setup.rule) && Forward(r.run) && k <= |r.First()|
    requires Harmless(HalfOf(setup, s, r, k), s, r)
    ensures CountedOnce(setup, s, r, k)
  {
    var half := HalfOf(setup, s, r, k);
    if half.coverage == s.coverage {
      CoverageAlone(setup, half, s, r.Second());
    } else if r.declared.None? {
      assert r.First() == r.run && r.Second() == r.run + r.more;
      RunResumes(setup, s, r.run, r.more, k);
    } else {
      assert k > 0 by {
        assert r.First()[..0] == [];
      }
      SettledHeadCountsOnce(setup, s, r, k);
    }
  }

  lemma {:induction false} SettledHeadCountsOnce(setup: Setup, s: Record, r: Retry, k: nat)
    requires True(s.coverage, setup.rule) && Forward(r.run) && 1 <= k <= |r.First()| && r.declared.Some?
    requires Settled(HalfOf(setup, s, r, k).coverage, Gap(r.later, r.declared.value, None, None))
    ensures RetriedOf(setup, s, r, k) == TakeAll(setup, s, r.Whole()).coverage
  {
    var half, reason := HalfOf(setup, s, r, k), r.declared.value;
    var told := Take(setup, s, Gap(r.now, reason, None, None));
    HalfAfterGap(setup, s, r, k);
    TakeKeepsTrue(setup, s, Gap(r.now, reason, None, None));
    RunResumes(setup, told, r.run, r.more, k - 1);
    HeadThen(setup, s, reason, r.now, r.run + r.more);
    HeadThen(setup, half, reason, r.later, r.run + r.more);
    RowsGrow(setup, half, Gap(r.later, reason, None, None));
    CoverageAlone(setup, Take(setup, half, Gap(r.later, reason, None, None)), half, r.run + r.more);
  }

  lemma {:induction false} RecordedHeadSettlesRest(setup: Setup, s: Record, reason: GapReason, at: Time,
                                                   items: seq<Item>)
    requires True(s.coverage, setup.rule) && Earlier(items, at)
    requires After(s.coverage, at) && OpenIndex(s.coverage.segments).Some?
    ensures var n := TakeAll(setup, s, Head(Some(reason), at) + items).coverage;
            n == WithFailure(s.coverage, at, at, ReasonText(reason)) && !After(n, at)
  {
    var gap := Gap(at, reason, None, None);
    var closed := Take(setup, s, gap);
    HeadThen(setup, s, reason, at, items);
    FailureRecorded(s.coverage, setup.rule, at, at, ReasonText(reason));
    forall item | item in items ensures Settled(closed.coverage, item) {
      assert TimeOf(item) < at;
    }
    UnchangedExactly(setup, closed, items);
  }

  /** Read at the first instant, nothing is recorded as late as the second. */
  lemma {:induction false} WholeIsBefore(setup: Setup, s: Record, r: Retry, k: nat)
    requires r.declared.Some? && 1 <= k <= |r.First()| && Earlier(r.run + r.more, r.later)
    requires After(HalfOf(setup, s, r, k).coverage, r.later)
    ensures After(TakeAll(setup, s, r.Whole()).coverage, r.later)
  {
    var told := Take(setup, s, Gap(r.now, r.declared.value, None, None));
    HalfAfterGap(setup, s, r, k);
    WasBefore(setup, told, r.run[..k - 1], r.later);
    HeadThen(setup, s, r.declared.value, r.now, r.run + r.more);
    StaysBefore(setup, told, r.run + r.more, r.later);
  }

  /** Read at the second, either nothing is, or the gap follows what was recorded to begin with. */
  lemma {:induction false} SecondIsBefore(setup: Setup, s: Record, r: Retry)
    requires True(s.coverage, setup.rule) && r.declared.Some? && Earlier(r.run + r.more, r.later)
    requires After(s.coverage, r.later)
    ensures var n := TakeAll(setup, s, r.Second()).coverage;
            After(n, r.later) || |n.polls| == |s.coverage.polls| + 1
  {
    if OpenIndex(s.coverage.segments).Some? {
      RecordedHeadSettlesRest(setup, s, r.declared.value, r.later, r.run + r.more);
    } else {
      HeadThen(setup, s, r.declared.value, r.later, r.run + r.more);
      StaysBefore(setup, s, r.run + r.more, r.later);
    }
  }

  /** The gap declared again closes what the first attempt opened, and hides everything buffered behind it. */
  lemma {:induction false} HarmfulCountsTwice(setup: Setup, s: Record, r: Retry, k: nat)
    requires True(s.coverage, setup.rule) && k <= |r.First()| && Earlier(r.run + r.more, r.later)
    requires True(HalfOf(setup, s, r, k).coverage, setup.rule) && !Harmless(HalfOf(setup, s, r, k), s, r)
    ensures !CountedOnce(setup, s, r, k)
  {
    var half := HalfOf(setup, s, r, k);
    assert k > 0 by {
      assert r.First()[..0] == [];
    }
    RecordedHeadSettlesRest(setup, half, r.declared.value, r.later, r.run + r.more);
    WholeIsBefore(setup, s, r, k);
    WasBefore(setup, s, r.First()[..k], r.later);
    NeverFewerRows(setup, s, r.First()[..k]);
    SecondIsBefore(setup, s, r);
  }

  lemma {:induction false} AllKeepTrue(setup: Setup, s: Record, items: seq<Item>)
    requires True(s.coverage, setup.rule)
    ensures True(TakeAll(setup, s, items).coverage, setup.rule)
  {
    if items != [] {
      AllKeepTrue(setup, s, items[..|items| - 1]);
      TakeKeepsTrue(setup, TakeAll(setup, s, items[..|items| - 1]), items[|items| - 1]);
    }
  }

  /** A page read again after it failed part of the way leaves the coverage of one uninterrupted reading, exactly unless
      the gap it declares comes again, later than anything recorded, upon a segment the first attempt left open. */
  lemma {:induction false} RetryCountsOnce(setup: Setup, s: Record, r: Retry, k: nat)
    requires True(s.coverage, setup.rule) && Forward(r.run) && k <= |r.First()|
    ensures Harmless(HalfOf(setup, s, r, k), s, r) ==> CountedOnce(setup, s, r, k)
    ensures Earlier(r.run + r.more, r.later) ==>
              (CountedOnce(setup, s, r, k) <==> Harmless(HalfOf(setup, s, r, k), s, r))
  {
    if Harmless(HalfOf(setup, s, r, k), s, r) {
      HarmlessCountsOnce(setup, s, r, k);
    } else if Earlier(r.run + r.more, r.later) {
      AllKeepTrue(setup, s, r.First()[..k]);
      HarmfulCountsTwice(setup, s, r, k);
    }
  }

  // ---- recorded times and the first coverage --------------------------------------------------

  predicate StrictlyLater(polls: seq<PollRow>) {
    forall i, j :: 0 <= i < j < |polls| ==> polls[i].completedAt < polls[j].completedAt
  }

  /** A loss that is recorded is recorded at a later time than anything before it. */
  predicate LosesLater(setup: Setup, history: seq<Fate>, i: nat)
    requires i < |history|
  {
    var before := RecordOf(setup, history[..i]).coverage;
    history[i].Lost? && OpenIndex(before.segments).Some? ==> After(before, history[i].now)
  }

  const TENTH := Heartbeat(10, 10, true, Some(0), None)

  /** A poll recorded at 10, then a loss recorded at 5. */
  lemma {:induction false} LossRecordedEarlier(setup: Setup)
    ensures !StrictlyLater(RecordOf(setup, [Took(TENTH), Lost(5, "ConnectorError")]).coverage.polls)
  {
    var history := [Took(TENTH), Lost(5, "ConnectorError")];
    assert history[..1] == [Took(TENTH)] && history[..1][..0] == [];
    assert RecordOf(setup, history[..1]) == Take(setup, EMPTY_RECORD, TENTH);
    var before := RecordOf(setup, history[..1]).coverage;
    assert before.segments == [Segment(10, 10, None, Open)];
    var polls := RecordOf(setup, history).coverage.polls;
    assert polls[0].completedAt == 10 && polls[1].completedAt == 5;
  }

  predicate AllLoseLater(setup: Setup, history: seq<Fate>) {
    forall i :: 0 <= i < |history| ==> LosesLater(setup, history, i)
  }

  lemma {:induction false} OneMoreLater(c: Coverage, row: PollRow)
    ensures StrictlyLater(c.polls + [row]) <==> StrictlyLater(c.polls) && After(c, row.completedAt)
  {
    var polls := c.polls + [row];
    if StrictlyLater(polls) {
      forall i, j | 0 <= i < j < |c.polls| ensures c.polls[i].completedAt < c.polls[j].completedAt {
        assert polls[i].completedAt < polls[j].completedAt;
      }
      LatestIsOne(c.polls);
      if c.polls != [] {
        var i :| 0 <= i < |c.polls| && c.polls[i].completedAt == Latest(c.polls).value;
        assert polls[i].completedAt < polls[|c.polls|].completedAt;
      }
    }
  }

  lemma {:induction false} LatestIsOne(polls: seq<PollRow>)
    ensures polls != [] ==> exists i :: 0 <= i < |polls| && polls[i].completedAt == Latest(polls).value
  {
    if polls != [] {
      var front := polls[..|polls| - 1];
      LatestIsOne(front);
      if front != [] && Latest(front).value > polls[|polls| - 1].completedAt {
        var i :| 0 <= i < |front| && front[i].completedAt == Latest(front).value;
        assert polls[i] == front[i];
      } else {
        assert polls[|polls| - 1].completedAt == Latest(polls).value;
      }
    }
  }

  lemma {:induction false} TakeIsLater(setup: Setup, s: Record, item: Item)
    ensures StrictlyLater(Take(setup, s, item).coverage.polls) <==> StrictlyLater(s.coverage.polls)
  {
    var n := Take(setup, s, item).coverage;
    if !Settled(s.coverage, item) {
      OneMoreLater(s.coverage, n.polls[|s.coverage.polls|]);
    }
  }

  /** Completion times are recorded in strictly increasing order exactly as long as no loss of the connector is recorded
      at a time already passed: the stream's own items are checked against the record, the loss is not. */
  lemma {:induction false} RecordedInOrder(setup: Setup, history: seq<Fate>)
    ensures StrictlyLater(RecordOf(setup, history).coverage.polls) <==> AllLoseLater(setup, history)
  {
    if history != [] {
      var front, last := history[..|history| - 1], history[|history| - 1];
      RecordedInOrder(setup, front);
      RecordedInFront(setup, history);
      assert history[..|history| - 1] == front;
      var before := RecordOf(setup, front);
      match last {
        case Took(item) => TakeIsLater(setup, before, item);
        case Lost(now, error) => OneMoreLater(before.coverage, PollRow(None, now, now, Failed(error)));
      }
    }
  }

  lemma {:induction false} RecordedInFront(setup: Setup, history: seq<Fate>)
    requires history != []
    ensures AllLoseLater(setup, history) <==>
            AllLoseLater(setup, history[..|history| - 1]) && LosesLater(setup, history, |history| - 1)
  {
    var front := history[..|history| - 1];
    forall i | 0 <= i < |front| ensures LosesLater(setup, front, i) <==> LosesLater(setup, history, i) {
      assert front[..i] == history[..i];
    }
  }

  lemma {:induction false} TakeKeepsFirst(setup: Setup, s: Record, item: Item)
    ensures var c, n := s.coverage.segments, Take(setup, s, item).coverage.segments;
            && (c != [] ==> n != [] && n[0].startedAt == c[0].startedAt)
            && (c == [] && n != [] ==> item.Heartbeat? && n[0].startedAt == TimeOf(item))
  {
    match item {
      case Heartbeat(attemptedAt, completedAt, ok, active, error) =>
        SuccessKeepsFirst(s.coverage, setup.rule, attemptedAt, completedAt, active.GetOr(0));
        FailureKeepsFirst(s.coverage, attemptedAt, completedAt, ErrorOf(error));
      case Gap(at, reason, _, _) => FailureKeepsFirst(s.coverage, at, at, ReasonText(reason));
      case _ =>
    }
  }

  lemma {:induction false} MeetKeepsFirst(setup: Setup, s: Record, fate: Fate)
    requires True(s.coverage, setup.rule)
    ensures var first, n := FirstCoverage(s.coverage.segments), FirstCoverage(Meet(setup, s, fate).coverage.segments);
            && (first.Some? ==> n == first)
            && (first.None? && n.Some? ==> fate.Took? && fate.item.Heartbeat? && n == Some(TimeOf(fate.item)))
  {
    FirstIsFirst(s.coverage, setup.rule);
    MeetKeepsTrue(setup, s, fate);
    FirstIsFirst(Meet(setup, s, fate).coverage, setup.rule);
    match fate {
      case Took(item) => TakeKeepsFirst(setup, s, item);
      case Lost(now, error) => FailureKeepsFirst(s.coverage, now, now, error);
    }
  }

  /** The first coverage, once there is one, never moves. */
  lemma {:induction false} FirstCoverageStays(setup: Setup, history: seq<Fate>, n: nat)
    requires n <= |history|
    requires FirstCoverage(RecordOf(setup, history[..n]).coverage.segments).Some?
    ensures FirstCoverage(RecordOf(setup, history).coverage.segments)
         == FirstCoverage(RecordOf(setup, history[..n]).coverage.segments)
  {
    if n < |history| {
      var front := history[..|history| - 1];
      assert front[..n] == history[..n];
      FirstCoverageStays(setup, front, n);
      HistoryIsTrue(setup, front);
      MeetKeepsFirst(setup, RecordOf(setup, front), history[|history| - 1]);
    } else {
      assert history[..n] == history;
    }
  }

  // ---- replays and the occurrences let in -----------------------------------------------------

  /** An occurrence taken earlier was let in, or is a resolved one that was refused. */
  predicate Judged(setup: Setup, s: Record, alert: Alert) {
    var n := setup.normalize(alert);
    n.Some? ==> KeyOf(n.value) in s.known || (n.value.resolved && n.value.endsAt.Some?)
  }

  lemma {:induction false} TakenIsJudged(setup: Setup, history: seq<Fate>, item: Item)
    requires Took(item) in history && item.AlertItem?
    ensures Judged(setup, RecordOf(setup, history), item.alert)
  {
    if history[|history| - 1] != Took(item) {
      TakenIsJudged(setup, history[..|history| - 1], item);
    }
  }

  /** Delivered again, an alert already taken lets in exactly an occurrence that was refused for want of any coverage
      and ended after the coverage that has begun since. */
  lemma {:induction false} ReplayedAlertAdmittedExactly(setup: Setup, history: seq<Fate>, item: Item)
    requires Took(item) in history && item.AlertItem?
    ensures var s, n := RecordOf(setup, history), setup.normalize(item.alert);
            var first := FirstCoverage(s.coverage.segments);
            Take(setup, s, item) != s <==> n.Some? && KeyOf(n.value) !in s.known && first.Some?
                                           && n.value.endsAt.Some? && n.value.endsAt.value > first.value
  {
    TakenIsJudged(setup, history, item);
    var s, n := RecordOf(setup, history), setup.normalize(item.alert);
    if n.Some? && KeyOf(n.value) !in s.known {
      assert KeyOf(n.value) in s.known + {KeyOf(n.value)};
    }
  }

  /** A resolved occurrence that ended by the time it was observed. */
  predicate EndedWhenSeen(setup: Setup, item: Item) {
    item.AlertItem? ==>
      var n := setup.normalize(item.alert);
      n.Some? && n.value.resolved && n.value.endsAt.Some? ==> n.value.endsAt.value <= item.at
  }

  /** The first coverage began no earlier than an item already taken when there was none. */
  predicate Outlived(setup: Setup, s: Record, item: Item) {
    item.AlertItem? ==>
      var n, first := setup.normalize(item.alert), FirstCoverage(s.coverage.segments);
      n.Some? ==> KeyOf(n.value) in s.known
                  || (n.value.resolved && n.value.endsAt.Some? && (first.None? || n.value.endsAt.value <= first.value))
  }

  lemma {:induction false} OutlivedStays(setup: Setup, s: Record, fate: Fate, item: Item)
    requires True(s.coverage, setup.rule) && EndedWhenSeen(setup, item)
    requires fate == Took(item) || Outlived(setup, s, item)
    requires fate.Took? && fate.item.Heartbeat? ==>
               TimeOf(item) <= fate.item.completedAt || Settled(s.coverage, fate.item)
    ensures Outlived(setup, Meet(setup, s, fate), item)
  {
    MeetKeepsFirst(setup, s, fate);
  }

  lemma {:induction false} TakenIsOutlived(setup: Setup, history: seq<Fate>, item: Item)
    requires AtLeastOnce(history) && Took(item) in history && EndedWhenSeen(setup, item)
    ensures Outlived(setup, RecordOf(setup, history), item)
  {
    if item.AlertItem? {
      var front, last := history[..|history| - 1], history[|history| - 1];
      FrontArrives(history);
      HistoryIsTrue(setup, front);
      if last != Took(item) {
        TakenIsOutlived(setup, front, item);
        LastArrives(setup, history, item);
      }
      OutlivedStays(setup, RecordOf(setup, front), last, item);
    }
  }

  lemma {:induction false} KnownAgain(setup: Setup, s: Record, alert: Alert)
    ensures var n := setup.normalize(alert);
            n.Some? && KeyOf(n.value) in s.known ==> TakeAlert(setup, s, alert) == s
  {
    var n := setup.normalize(alert);
    if n.Some? && KeyOf(n.value) in s.known {
      assert s.known + {KeyOf(n.value)} == s.known;
    }
  }

  /** Taken one after the other, items that change nothing each change nothing together. */
  lemma {:induction false} AllChangeNothing(setup: Setup, s: Record, items: seq<Item>)
    requires forall item :: item in items ==> Take(setup, s, item) == s
    ensures TakeAll(setup, s, items) == s
  {
    if items != [] {
      AllChangeNothing(setup, s, items[..|items| - 1]);
      assert items[|items| - 1] in items;
    }
  }

  /** When no item reports an end still to come, delivering again whatever a buffer delivered changes nothing at all,
      exactly unless it holds a declared gap later than anything recorded while a segment is open. */
  lemma {:induction false} ReplayChangesNothing(setup: Setup, history: seq<Fate>, again: seq<Item>)
    requires AtLeastOnce(history)
    requires forall item :: item in again ==> Took(item) in history && EndedWhenSeen(setup, item)
    ensures var s := RecordOf(setup, history);
            (TakeAll(setup, s, again) == s
             <==> forall item :: item in again && Declared(item) ==>
                    !After(s.coverage, item.at) || OpenIndex(s.coverage.segments).None?)
  {
    var s := RecordOf(setup, history);
    OnlyDeclaredGapsReplay(setup, history, again);
    if TakeAll(setup, s, again).coverage == s.coverage {
      UnchangedExactly(setup, s, again);
      forall item | item in again ensures Take(setup, s, item) == s {
        TakenIsOutlived(setup, history, item);
        if item.AlertItem? {
          KnownAgain(setup, s, item.alert);
        }
      }
      AllChangeNothing(setup, s, again);
    }
  }

  const ANNOUNCED := AlertItem(10, FromWebhook, Alert("X", true, Some("0"), Some("20"), Details(map[], map[], None)))
  const POLLED := Heartbeat(11, 11, true, Some(0), None)

  function EndingAtTwenty(alert: Alert): Option<Normal> {
    Some(Normal(alert.fingerprint, 0, alert.resolved, Some(20)))
  }

  /** Otherwise it may: an occurrence announced to end at 20 is refused at 10 for want of any coverage, coverage begins
      at 11, and the page delivered again lets the occurrence in. */
  lemma {:induction false} ReplayLetsIn(rule: Rule)
    ensures var setup := Setup(rule, EndingAtTwenty);
            var history := [Took(ANNOUNCED), Took(POLLED)];
            && AtLeastOnce(history) && RecordOf(setup, history).known == {}
            && Take(setup, RecordOf(setup, history), ANNOUNCED).known == {("X", 0)}
  {
    var setup := Setup(rule, EndingAtTwenty);
    var history := [Took(ANNOUNCED), Took(POLLED)];
    assert history[..1] == [Took(ANNOUNCED)] && history[..1][..0] == [];
    assert RecordOf(setup, history[..1]) == EMPTY_RECORD;
    var covered := RecordOf(setup, history).coverage.segments;
    assert covered == [Segment(11, 11, None, Open)] && covered[..0] == [];
  }
}
