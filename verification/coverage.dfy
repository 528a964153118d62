/** The record of when the alert channel was observed: segments of unbroken observation and the polls behind them. */
module Coverages {
  import opened Text
  import opened Wire

  datatype Status = Open | BrokenGap | ClosedFailure
  datatype Segment = Segment(startedAt: Time, lastSuccess: Time, endedAt: Option<Time>, status: Status)

  /** What a poll came to: so many active alerts, or an error. */
  datatype Report = Active(alerts: nat) | Failed(error: string)

  /** One poll row; a success belongs to a segment. */
  datatype PollRow = PollRow(segment: Option<nat>, attemptedAt: Time, completedAt: Time, report: Report)
  datatype Coverage = Coverage(segments: seq<Segment>, polls: seq<PollRow>)

  datatype Cadence = Cadence(pollInterval: int, maxGapPolls: int) {
    predicate Valid() {
      pollInterval > 0 && maxGapPolls >= 1
    }
  }

  const UNOBSERVED := Coverage([], [])

  /** Whether a success now extends a segment last heard then. */
  type Rule = (Time, Time) -> bool

  /** The gap, rounded to whole polling slots, half a slot upwards, is within the tolerance. */
  predicate Continues(cadence: Cadence, lastSuccess: Time, now: Time)
    requires cadence.Valid()
  {
    (2 * (now - lastSuccess) + cadence.pollInterval) / (2 * cadence.pollInterval) <= cadence.maxGapPolls
  }

  /** So a success extends a segment exactly while less than half a slot is missing over the slots allowed. */
  lemma {:induction false} ContinuesExactly(cadence: Cadence, lastSuccess: Time, now: Time)
    requires cadence.Valid()
    ensures Continues(cadence, lastSuccess, now)
       <==> 2 * (now - lastSuccess) < cadence.pollInterval * (2 * cadence.maxGapPolls + 1)
  {
    var gap, slot, allowed := now - lastSuccess, cadence.pollInterval, cadence.maxGapPolls;
    QuotientExactly(2 * gap + slot, 2 * slot, allowed);
    assert 2 * slot * (allowed + 1) == slot * (2 * allowed + 1) + slot;
  }

  lemma {:induction false} QuotientExactly(a: int, b: int, limit: int)
    requires b > 0
    ensures a / b <= limit <==> a < b * (limit + 1)
  {
    var q, r := a / b, a % b;
    assert a == b * q + r && 0 <= r < b;
    if q <= limit {
      assert b * q <= b * limit;
      assert b * (limit + 1) == b * limit + b;
    } else {
      assert b * (limit + 1) <= b * q;
    }
  }

  function Tolerance(cadence: Cadence): Rule
    requires cadence.Valid()
  {
    (lastSuccess, now) => Continues(cadence, lastSuccess, now)
  }

  function OpenIndex(segments: seq<Segment>): (r: Option<nat>)
    ensures r.Some? ==> r.value < |segments| && segments[r.value].status == Open
    ensures r.None? ==> forall i :: 0 <= i < |segments| ==> segments[i].status != Open
  {
    if segments == [] then None
    else if segments[|segments| - 1].status == Open then Some(|segments| - 1)
    else OpenIndex(segments[..|segments| - 1])
  }

  function Latest(polls: seq<PollRow>): (r: Option<Time>)
    ensures r.None? <==> polls == []
    ensures r.Some? ==> forall i :: 0 <= i < |polls| ==> polls[i].completedAt <= r.value
  {
    if polls == [] then None
    else
      var before, last := Latest(polls[..|polls| - 1]), polls[|polls| - 1].completedAt;
      if before.Some? && before.value > last then before else Some(last)
  }

  /** When the channel was first observed. */
  function FirstCoverage(segments: seq<Segment>): (r: Option<Time>)
    ensures r.None? <==> segments == []
  {
    if segments == [] then None
    else
      var before, last := FirstCoverage(segments[..|segments| - 1]), segments[|segments| - 1].startedAt;
      if before.Some? && before.value < last then before else Some(last)
  }

  function Ended(segments: seq<Segment>, status: Status): seq<Segment> {
    var open := OpenIndex(segments);
    if open.None? then segments
    else
      var s := segments[open.value];
      segments[open.value := s.(status := status, endedAt := Some(s.lastSuccess))]
  }

  predicate Extends(c: Coverage, rule: Rule, completedAt: Time) {
    var open := OpenIndex(c.segments);
    open.Some? && rule(c.segments[open.value].lastSuccess, completedAt)
  }

  function WithSuccess(c: Coverage, rule: Rule, attemptedAt: Time, completedAt: Time, active: nat): Coverage {
    if Extends(c, rule, completedAt) then
      var open := OpenIndex(c.segments).value;
      Coverage(c.segments[open := c.segments[open].(lastSuccess := completedAt)],
               c.polls + [PollRow(Some(open), attemptedAt, completedAt, Active(active))])
    else
      Coverage(Ended(c.segments, BrokenGap) + [Segment(completedAt, completedAt, None, Open)],
               c.polls + [PollRow(Some(|c.segments|), attemptedAt, completedAt, Active(active))])
  }

  function WithFailure(c: Coverage, attemptedAt: Time, completedAt: Time, error: string): Coverage {
    Coverage(Ended(c.segments, ClosedFailure), c.polls + [PollRow(None, attemptedAt, completedAt, Failed(error))])
  }

  predicate After(c: Coverage, at: Time) {
    var latest := Latest(c.polls);
    latest.None? || latest.value < at
  }

  // ---- what a record may look like ------------------------------------------------------------

  /** The successes of one segment, in the order they were recorded. */
  function Heard(polls: seq<PollRow>, segment: nat): seq<Time> {
    if polls == [] then []
    else
      var last := polls[|polls| - 1];
      Heard(polls[..|polls| - 1], segment) + if last.segment == Some(segment) then [last.completedAt] else []
  }

  /** Successes that follow one another without a break. */
  predicate Unbroken(rule: Rule, times: seq<Time>) {
    forall i :: 0 <= i < |times| - 1 ==> times[i] < times[i + 1] && rule(times[i], times[i + 1])
  }

  /** A segment is what its successes say: from the first to the last, without a break, and ended there unless open. */
  predicate SegmentTrue(c: Coverage, rule: Rule, i: nat)
    requires i < |c.segments|
  {
    var s, heard := c.segments[i], Heard(c.polls, i);
    && heard != [] && heard[0] == s.startedAt && heard[|heard| - 1] == s.lastSuccess && Unbroken(rule, heard)
    && s.startedAt <= s.lastSuccess
    && s.endedAt == (if s.status == Open then None else Some(s.lastSuccess))
    && (s.status == Open ==> i == |c.segments| - 1)
    && !After(c, s.lastSuccess)
  }

  predicate RowsTrue(c: Coverage) {
    forall k :: 0 <= k < |c.polls| ==>
      && (c.polls[k].segment.Some? <==> c.polls[k].report.Active?)
      && (c.polls[k].segment.Some? ==> c.polls[k].segment.value < |c.segments|)
  }

  predicate InOrder(segments: seq<Segment>) {
    forall i, j :: 0 <= i < j < |segments| ==> segments[i].lastSuccess < segments[j].startedAt
  }

  /** Segments are disjoint, in order, only the last one open, and each exactly spans its own unbroken successes. */
  predicate True(c: Coverage, rule: Rule) {
    && InOrder(c.segments) && RowsTrue(c)
    && forall i :: 0 <= i < |c.segments| ==> SegmentTrue(c, rule, i)
  }

  lemma {:induction false} LatestAfter(polls: seq<PollRow>, row: PollRow)
    ensures Latest(polls + [row]) ==
            if Latest(polls).Some? && Latest(polls).value > row.completedAt then Latest(polls)
            else Some(row.completedAt)
  {
    assert (polls + [row])[..|polls|] == polls;
  }

  lemma {:induction false} HeardAfter(polls: seq<PollRow>, row: PollRow, segment: nat)
    ensures Heard(polls + [row], segment)
            == Heard(polls, segment) + if row.segment == Some(segment) then [row.completedAt] else []
  {
    assert (polls + [row])[..|polls|] == polls;
  }

  lemma {:induction false} HeardNothing(polls: seq<PollRow>, segment: nat)
    requires forall k :: 0 <= k < |polls| ==> polls[k].segment != Some(segment)
    ensures Heard(polls, segment) == []
  {
    if polls != [] {
      HeardNothing(polls[..|polls| - 1], segment);
    }
  }

  lemma {:induction false} OpenIsLast(c: Coverage, rule: Rule)
    requires True(c, rule)
    ensures OpenIndex(c.segments).Some? ==> OpenIndex(c.segments).value == |c.segments| - 1
    ensures OpenIndex(c.segments).None? ==> forall i :: 0 <= i < |c.segments| ==> c.segments[i].status != Open
  {
    var open := OpenIndex(c.segments);
    if open.Some? {
      assert SegmentTrue(c, rule, open.value);
    }
  }

  lemma {:induction false} FirstIsFirst(c: Coverage, rule: Rule)
    requires True(c, rule)
    ensures FirstCoverage(c.segments) == if c.segments == [] then None else Some(c.segments[0].startedAt)
  {
    FirstOfOrdered(c, rule, |c.segments|);
    assert c.segments[..|c.segments|] == c.segments;
  }

  lemma {:induction false} FirstOfOrdered(c: Coverage, rule: Rule, n: nat)
    requires True(c, rule) && n <= |c.segments|
    ensures FirstCoverage(c.segments[..n]) == if n == 0 then None else Some(c.segments[0].startedAt)
  {
    if n > 0 {
      FirstOfOrdered(c, rule, n - 1);
      assert c.segments[..n][..n - 1] == c.segments[..n - 1];
      assert SegmentTrue(c, rule, 0);
    }
  }

  lemma {:induction false} StillTrue(c: Coverage, n: Coverage, rule: Rule, row: PollRow, i: nat)
    requires i < |c.segments| <= |n.segments| && SegmentTrue(c, rule, i)
    requires n.polls == c.polls + [row] && row.segment != Some(i)
    requires n.segments[i] == c.segments[i]
             || (n.segments[i] == c.segments[i].(status := n.segments[i].status,
                                                 endedAt := Some(c.segments[i].lastSuccess))
                 && n.segments[i].status != Open)
    requires n.segments[i].status == Open ==> |n.segments| == |c.segments|
    ensures SegmentTrue(n, rule, i)
  {
    HeardAfter(c.polls, row, i);
    LatestAfter(c.polls, row);
  }

  lemma {:induction false} ExtendedTrue(c: Coverage, n: Coverage, rule: Rule, row: PollRow, i: nat)
    requires i < |c.segments| && SegmentTrue(c, rule, i) && After(c, row.completedAt)
    requires n.polls == c.polls + [row] && row.segment == Some(i) && |n.segments| == |c.segments|
    requires n.segments[i] == c.segments[i].(lastSuccess := row.completedAt) && c.segments[i].status == Open
    requires rule(c.segments[i].lastSuccess, row.completedAt)
    ensures SegmentTrue(n, rule, i)
  {
    HeardAfter(c.polls, row, i);
    LatestAfter(c.polls, row);
  }

  lemma {:induction false} NewSegmentTrue(c: Coverage, n: Coverage, rule: Rule, row: PollRow)
    requires RowsTrue(c) && |n.segments| == |c.segments| + 1 && After(c, row.completedAt)
    requires n.polls == c.polls + [row] && row.segment == Some(|c.segments|)
    requires n.segments[|c.segments|] == Segment(row.completedAt, row.completedAt, None, Open)
    ensures SegmentTrue(n, rule, |c.segments|)
  {
    HeardNothing(c.polls, |c.segments|);
    HeardAfter(c.polls, row, |c.segments|);
    LatestAfter(c.polls, row);
  }

  lemma {:induction false} ExtensionKeepsTrue(c: Coverage, n: Coverage, rule: Rule, row: PollRow, open: nat)
    requires True(c, rule) && After(c, row.completedAt) && row.segment == Some(open) && row.report.Active?
    requires open == |c.segments| - 1 && c.segments[open].status == Open
    requires rule(c.segments[open].lastSuccess, row.completedAt)
    requires n.segments == c.segments[open := c.segments[open].(lastSuccess := row.completedAt)]
    requires n.polls == c.polls + [row]
    ensures True(n, rule)
  {
    ExtendedTrue(c, n, rule, row, open);
    forall i | 0 <= i < open ensures SegmentTrue(n, rule, i) {
      StillTrue(c, n, rule, row, i);
    }
  }

  lemma {:induction false} BreakKeepsTrue(c: Coverage, n: Coverage, rule: Rule, row: PollRow)
    requires True(c, rule) && After(c, row.completedAt) && row.segment == Some(|c.segments|) && row.report.Active?
    requires n.segments == Ended(c.segments, BrokenGap) + [Segment(row.completedAt, row.completedAt, None, Open)]
    requires n.polls == c.polls + [row]
    ensures True(n, rule)
  {
    OpenIsLast(c, rule);
    NewSegmentTrue(c, n, rule, row);
    forall i | 0 <= i < |c.segments| ensures SegmentTrue(n, rule, i) && n.segments[i].lastSuccess < row.completedAt {
      assert SegmentTrue(c, rule, i);
      StillTrue(c, n, rule, row, i);
    }
  }

  /** A later success keeps the record true. */
  lemma {:induction false} SuccessKeepsTrue(c: Coverage, rule: Rule, attemptedAt: Time, completedAt: Time,
                                              active: nat)
    requires True(c, rule) && After(c, completedAt)
    ensures True(WithSuccess(c, rule, attemptedAt, completedAt, active), rule)
  {
    var n := WithSuccess(c, rule, attemptedAt, completedAt, active);
    var row := n.polls[|c.polls|];
    if Extends(c, rule, completedAt) {
      OpenIsLast(c, rule);
      ExtensionKeepsTrue(c, n, rule, row, |c.segments| - 1);
    } else {
      BreakKeepsTrue(c, n, rule, row);
    }
  }

  /** So does a failure, whenever it is recorded. */
  lemma {:induction false} FailureKeepsTrue(c: Coverage, rule: Rule, attemptedAt: Time, completedAt: Time,
                                              error: string)
    requires True(c, rule)
    ensures True(WithFailure(c, attemptedAt, completedAt, error), rule)
    ensures OpenIndex(WithFailure(c, attemptedAt, completedAt, error).segments).None?
  {
    var n := WithFailure(c, attemptedAt, completedAt, error);
    OpenIsLast(c, rule);
    forall i | 0 <= i < |c.segments| ensures SegmentTrue(n, rule, i) && n.segments[i].status != Open {
      assert SegmentTrue(c, rule, i);
      StillTrue(c, n, rule, n.polls[|c.polls|], i);
    }
  }

  // ---- why a segment ended --------------------------------------------------------------------

  /** Row k is the segment's last success. An open segment has been followed by nothing; a broken one by a success too
      late to extend it, with which the next segment begins; a closed one by a failure. */
  predicate LastHeardAt(c: Coverage, rule: Rule, i: nat, k: nat)
    requires i < |c.segments|
  {
    var s := c.segments[i];
    && k < |c.polls| && c.polls[k].segment == Some(i) && c.polls[k].completedAt == s.lastSuccess
    && (forall j :: k < j < |c.polls| ==> c.polls[j].segment != Some(i))
    && match s.status
       case Open => k == |c.polls| - 1
       case BrokenGap => k + 1 < |c.polls| && c.polls[k + 1].segment == Some(i + 1)
                         && !rule(s.lastSuccess, c.polls[k + 1].completedAt)
       case ClosedFailure => k + 1 < |c.polls| && c.polls[k + 1].report.Failed?
  }

  predicate ReasonTrue(c: Coverage, rule: Rule, i: nat)
    requires i < |c.segments|
  {
    exists k :: 0 <= k < |c.polls| && LastHeardAt(c, rule, i, k)
  }

  predicate ReasonsTrue(c: Coverage, rule: Rule) {
    forall i :: 0 <= i < |c.segments| ==> ReasonTrue(c, rule, i)
  }

  /** A row that is not the segment's own leaves the reason of an ended segment alone, and gives an open one its own. */
  lemma {:induction false} StillReason(c: Coverage, n: Coverage, rule: Rule, row: PollRow, i: nat)
    requires i < |c.segments| <= |n.segments| && ReasonTrue(c, rule, i)
    requires n.polls == c.polls + [row] && row.segment != Some(i)
    requires n.segments[i].lastSuccess == c.segments[i].lastSuccess
    requires c.segments[i].status != Open ==> n.segments[i].status == c.segments[i].status
    requires c.segments[i].status == Open ==>
               || (n.segments[i].status == BrokenGap && row.segment == Some(i + 1)
                   && !rule(c.segments[i].lastSuccess, row.completedAt))
               || (n.segments[i].status == ClosedFailure && row.report.Failed?)
    ensures ReasonTrue(n, rule, i)
  {
    var k :| 0 <= k < |c.polls| && LastHeardAt(c, rule, i, k);
    assert LastHeardAt(n, rule, i, k);
  }

  lemma {:induction false} OwnReason(n: Coverage, rule: Rule, i: nat)
    requires i < |n.segments| && n.polls != [] && n.segments[i].status == Open
    requires n.polls[|n.polls| - 1].segment == Some(i)
    requires n.polls[|n.polls| - 1].completedAt == n.segments[i].lastSuccess
    ensures ReasonTrue(n, rule, i)
  {
    assert LastHeardAt(n, rule, i, |n.polls| - 1);
  }

  /** A success and a failure each end a segment for their own reason, and the record says which. */
  lemma {:induction false} SuccessKeepsReasons(c: Coverage, rule: Rule, attemptedAt: Time, completedAt: Time,
                                               active: nat)
    requires True(c, rule) && ReasonsTrue(c, rule)
    ensures ReasonsTrue(WithSuccess(c, rule, attemptedAt, completedAt, active), rule)
  {
    hide ReasonTrue, OpenIndex, Heard, Unbroken, After, RowsTrue;
    var n := WithSuccess(c, rule, attemptedAt, completedAt, active);
    var row := n.polls[|c.polls|];
    OpenIsLast(c, rule);
    forall i | 0 <= i < |n.segments| ensures ReasonTrue(n, rule, i) {
      assert i < |c.segments| ==> SegmentTrue(c, rule, i);
      if row.segment == Some(i) {
        OwnReason(n, rule, i);
      } else {
        StillReason(c, n, rule, row, i);
      }
    }
  }

  lemma {:induction false} FailureKeepsReasons(c: Coverage, rule: Rule, attemptedAt: Time, completedAt: Time,
                                               error: string)
    requires True(c, rule) && ReasonsTrue(c, rule)
    ensures ReasonsTrue(WithFailure(c, attemptedAt, completedAt, error), rule)
  {
    hide ReasonTrue, OpenIndex, Heard, Unbroken, After, RowsTrue;
    var n := WithFailure(c, attemptedAt, completedAt, error);
    OpenIsLast(c, rule);
    forall i | 0 <= i < |n.segments| ensures ReasonTrue(n, rule, i) {
      assert SegmentTrue(c, rule, i);
      StillReason(c, n, rule, n.polls[|c.polls|], i);
    }
  }

  lemma {:induction false} SuccessKeepsFirst(c: Coverage, rule: Rule, attemptedAt: Time, completedAt: Time,
                                               active: nat)
    ensures var n := WithSuccess(c, rule, attemptedAt, completedAt, active).segments;
            n != [] && n[0].startedAt == if c.segments == [] then completedAt else c.segments[0].startedAt
  {
  }

  lemma {:induction false} FailureKeepsFirst(c: Coverage, attemptedAt: Time, completedAt: Time, error: string)
    ensures var n := WithFailure(c, attemptedAt, completedAt, error).segments;
            |n| == |c.segments| && (n != [] ==> n[0].startedAt == c.segments[0].startedAt)
  {
  }

  lemma {:induction false} UnbrokenIncreases(rule: Rule, times: seq<Time>, i: nat, j: nat)
    requires Unbroken(rule, times) && i <= j < |times|
    ensures times[i] <= times[j]
  {
    if i < j {
      UnbrokenIncreases(rule, times, i, j - 1);
    }
  }

  /** The successes of a segment lie in its span. */
  lemma {:induction false} HeardWithin(c: Coverage, rule: Rule, i: nat, k: nat)
    requires i < |c.segments| && SegmentTrue(c, rule, i) && k < |Heard(c.polls, i)|
    ensures c.segments[i].startedAt <= Heard(c.polls, i)[k] <= c.segments[i].lastSuccess
  {
    var heard := Heard(c.polls, i);
    UnbrokenIncreases(rule, heard, 0, k);
    UnbrokenIncreases(rule, heard, k, |heard| - 1);
  }

  /** Segments keep their start; one more starts at the success it begins with. */
  lemma {:induction false} SuccessKeepsStarts(c: Coverage, rule: Rule, attemptedAt: Time, completedAt: Time,
                                              active: nat)
    ensures var n := WithSuccess(c, rule, attemptedAt, completedAt, active).segments;
            && |c.segments| <= |n|
            && (forall i :: 0 <= i < |c.segments| ==> n[i].startedAt == c.segments[i].startedAt)
            && forall i :: |c.segments| <= i < |n| ==> n[i].startedAt == completedAt
  {
  }

  lemma {:induction false} FailureKeepsStarts(c: Coverage, attemptedAt: Time, completedAt: Time, error: string)
    ensures var n := WithFailure(c, attemptedAt, completedAt, error).segments;
            && |n| == |c.segments|
            && forall i :: 0 <= i < |n| ==> n[i].startedAt == c.segments[i].startedAt
  {
  }

  class CoverageStore {
    const cadence: Cadence
    var segments: seq<Segment>
    var polls: seq<PollRow>

    ghost predicate Valid()
      reads this
    {
      cadence.Valid()
    }

    ghost function View(): Coverage
      reads this
    {
      Coverage(segments, polls)
    }

    constructor (cadence: Cadence)
      requires cadence.Valid()
      ensures Valid() && View() == UNOBSERVED && this.cadence == cadence
    {
      this.cadence := cadence;
      segments, polls := [], [];
    }

    /** The latest open segment. */
    method OpenSegment() returns (open: Option<nat>)
      ensures open == OpenIndex(segments)
    {
      var n := |segments|;
      assert segments[..n] == segments;
      while n > 0
        invariant 0 <= n <= |segments| && OpenIndex(segments) == OpenIndex(segments[..n])
      {
        assert segments[..n][..n - 1] == segments[..n - 1];
        if segments[n - 1].status == Open {
          return Some(n - 1);
        }
        n := n - 1;
      }
      open := None;
    }

    method LatestPoll() returns (latest: Option<Time>)
      ensures latest == Latest(polls)
    {
      latest := None;
      for i := 0 to |polls|
        invariant latest == Latest(polls[..i])
      {
        assert polls[..i + 1][..i] == polls[..i];
        if latest.None? || latest.value <= polls[i].completedAt {
          latest := Some(polls[i].completedAt);
        }
      }
      assert polls[..|polls|] == polls;
    }

    /** Extend the open segment, or break it after a gap and start a new one. */
    method RecordSuccess(attemptedAt: Time, completedAt: Time, active: nat)
      requires Valid()
      modifies this
      ensures Valid() && View() == WithSuccess(old(View()), Tolerance(cadence), attemptedAt, completedAt, active)
    {
      var open := OpenSegment();
      var segment: nat;
      if open.Some? && Continues(cadence, segments[open.value].lastSuccess, completedAt) {
        segment := open.value;
        segments := segments[segment := segments[segment].(lastSuccess := completedAt)];
      } else {
        if open.Some? {
          var broken := segments[open.value];
          segments := segments[open.value := broken.(status := BrokenGap, endedAt := Some(broken.lastSuccess))];
        }
        segment := |segments|;
        segments := segments + [Segment(completedAt, completedAt, None, Open)];
      }
      polls := polls + [PollRow(Some(segment), attemptedAt, completedAt, Active(active))];
    }

    /** A failure ends the open segment at its last success. */
    method RecordFailure(attemptedAt: Time, completedAt: Time, error: string)
      requires Valid()
      modifies this
      ensures Valid() && View() == WithFailure(old(View()), attemptedAt, completedAt, error)
    {
      var open := OpenSegment();
      if open.Some? {
        var closed := segments[open.value];
        segments := segments[open.value := closed.(status := ClosedFailure, endedAt := Some(closed.lastSuccess))];
      }
      polls := polls + [PollRow(None, attemptedAt, completedAt, Failed(error))];
    }
  }
}
