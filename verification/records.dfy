/** What the intake's record says, row by row and occurrence by occurrence, of what it took. */
module Records {
  import opened Text
  import opened Wire
  import opened Coverages
  import opened Intake

  // ---- poll rows ------------------------------------------------------------------------------

  /** The row is a poll the connector reported, with its times and its outcome; a gap, at its instant, under its reason;
      or a loss of the connector, at the intake's own clock. */
  predicate RowTells(row: PollRow, fate: Fate) {
    match fate
    case Lost(now, error) => row == PollRow(None, now, now, Failed(error))
    case Took(item) =>
      match item
      case Heartbeat(attemptedAt, completedAt, ok, active, error) =>
        && row.attemptedAt == attemptedAt && row.completedAt == completedAt && (row.segment.Some? <==> ok)
        && row.report == (if ok then Active(if active.Some? then active.value else 0)
                          else if error.Some? && error.value != "" then Failed(error.value)
                          else Failed("ConnectorPollFailed"))
      case Gap(at, reason, _, _) =>
        row == PollRow(None, at, at, Failed(match reason
                                            case ConnectorRestart => "CONNECTOR_RESTART"
                                            case BufferExpired => "BUFFER_EXPIRED"
                                            case BackendUnreachable => "BACKEND_UNREACHABLE"
                                            case ResourceVersionExpired => "RESOURCE_VERSION_EXPIRED"))
      case _ => false
  }

  lemma {:induction false} MeetAddsOne(setup: Setup, s: Record, fate: Fate)
    ensures var n := Meet(setup, s, fate).coverage.polls;
            n == s.coverage.polls
            || (|n| == |s.coverage.polls| + 1 && n[..|s.coverage.polls|] == s.coverage.polls
                && RowTells(n[|s.coverage.polls|], fate))
  {
    hide OpenIndex, Ended, Extends, Latest, FirstCoverage;
  }

  /** Over every history, replays and losses included: each row on record is one poll, gap or loss that was met, and
      says what it said. */
  lemma {:induction false} EveryRowIsMet(setup: Setup, history: seq<Fate>, k: nat)
    requires k < |RecordOf(setup, history).coverage.polls|
    ensures exists i :: 0 <= i < |history| && RowTells(RecordOf(setup, history).coverage.polls[k], history[i])
  {
    var front, last := history[..|history| - 1], history[|history| - 1];
    var before := RecordOf(setup, front);
    MeetAddsOne(setup, before, last);
    if k < |before.coverage.polls| {
      EveryRowIsMet(setup, front, k);
      var i :| 0 <= i < |front| && RowTells(before.coverage.polls[k], front[i]);
      assert history[i] == front[i];
      assert RecordOf(setup, history).coverage.polls[k] == before.coverage.polls[k];
    }
    hide Meet, RowTells;
  }

  // ---- occurrences ----------------------------------------------------------------------------

  /** Taken as the i-th thing met, the alert is of this occurrence, and is no resolved one that ended by the first
      coverage, or before there was any. */
  ghost predicate LetsIn(setup: Setup, history: seq<Fate>, i: nat, fingerprint: string, start: Time)
    requires i < |history|
  {
    && history[i].Took? && history[i].item.AlertItem?
    && var n := setup.normalize(history[i].item.alert);
       var first := FirstCoverage(RecordOf(setup, history[..i]).coverage.segments);
       && n.Some? && n.value.fingerprint == fingerprint && n.value.startsAt == start
       && !(n.value.resolved && n.value.endsAt.Some? && (first.None? || n.value.endsAt.value <= first.value))
  }

  lemma {:induction false} MeetLetsIn(setup: Setup, history: seq<Fate>, fingerprint: string, start: Time)
    requires history != []
    ensures var before := RecordOf(setup, history[..|history| - 1]).known;
            (fingerprint, start) in RecordOf(setup, history).known
            <==> (fingerprint, start) in before || LetsIn(setup, history, |history| - 1, fingerprint, start)
  {
    hide FirstCoverage, After, OpenIndex, WithSuccess, WithFailure;
  }

  lemma {:induction false} LetsInBefore(setup: Setup, history: seq<Fate>, i: nat, fingerprint: string, start: Time)
    requires i < |history| - 1
    ensures LetsIn(setup, history[..|history| - 1], i, fingerprint, start)
       <==> LetsIn(setup, history, i, fingerprint, start)
  {
    assert history[..|history| - 1][..i] == history[..i];
    hide FirstCoverage, RecordOf;
  }

  /** Over every history: an occurrence, a fingerprint with its start, is let in exactly when some alert of it was met
      that the rule does not refuse. */
  lemma {:induction false} LetInExactly(setup: Setup, history: seq<Fate>, fingerprint: string, start: Time)
    ensures (fingerprint, start) in RecordOf(setup, history).known
       <==> exists i :: 0 <= i < |history| && LetsIn(setup, history, i, fingerprint, start)
  {
    if history != [] {
      var front := history[..|history| - 1];
      LetInExactly(setup, front, fingerprint, start);
      MeetLetsIn(setup, history, fingerprint, start);
      forall i | 0 <= i < |front|
        ensures LetsIn(setup, front, i, fingerprint, start) <==> LetsIn(setup, history, i, fingerprint, start)
      {
        LetsInBefore(setup, history, i, fingerprint, start);
      }
      hide LetsIn, RecordOf;
    }
  }
}
