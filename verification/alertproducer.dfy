/** The alert side of the connector as the object it is: dictionaries and buffer updated in place. */
module AlertProducing {
  import opened Text
  import opened Wire
  import opened Streams
  import opened Alerts

  lemma {:induction false} DeliveredLast(kept: seq<Alert>, alert: Alert, now: Time)
    ensures Delivered(kept + [alert], now) == Delivered(kept, now) + [AlertItem(now, FromWebhook, alert)]
  {
    assert (kept + [alert])[..|kept|] == kept;
  }

  class AlertProducer {
    const rules: Rules
    const acceptWebhook: bool
    const alerts: StreamBuffer
    var known: seq<Alert>
    var admitted: seq<Occurrence>

    ghost function View(): AlertState
      reads this, alerts
    {
      AlertState(known, admitted, alerts.Contents())
    }

    ghost predicate Valid()
      reads this, alerts
    {
      alerts.Valid()
    }

    constructor (minActive: int, instant: string -> Option<Time>, isoFormat: Time -> string, acceptWebhook: bool,
                 epoch: string, maxLen: nat)
      ensures Valid() && fresh(alerts) && View() == Begun(epoch, maxLen)
      ensures rules == Rules(minActive, ADMITTED_MEMORY, instant, isoFormat) && this.acceptWebhook == acceptWebhook
    {
      this.rules, this.acceptWebhook := Rules(minActive, ADMITTED_MEMORY, instant, isoFormat), acceptWebhook;
      alerts := new StreamBuffer(epoch, maxLen);
      known, admitted := [], [];
    }

    /** One admission rule for both paths: an occurrence already admitted passes, any other must be old enough and is
        then remembered, at the expense of the oldest. */
    method Admit(alert: Alert, now: Time) returns (ok: bool)
      modifies this`admitted
      ensures ok == Admits(rules, old(admitted), alert, now)
      ensures admitted == Remember(rules, old(admitted), alert, now)
    {
      var key := KeyOf(alert);
      if key in admitted {
        return true;
      }
      var began := InstantOf(rules, alert.startsAt);
      if rules.minActive > 0 && began.Some? {
        if alert.resolved {
          var end := InstantOf(rules, alert.endsAt);
          var ended := if end.Some? then end.value else now;
          if ended - began.value < rules.minActive {
            return false;
          }
        } else if now - began.value < rules.minActive {
          return false;
        }
      }
      admitted := admitted + [key];
      Forget();
      ok := true;
    }

    method Forget()
      modifies this`admitted
      ensures admitted == Trim(old(admitted), rules.memory)
    {
      while |admitted| > rules.memory
        modifies this`admitted
        invariant |admitted| <= |old(admitted)| && admitted == old(admitted)[|old(admitted)| - |admitted|..]
        invariant |admitted| >= if |old(admitted)| <= rules.memory then |old(admitted)| else rules.memory
      {
        admitted := admitted[1..];
      }
    }

    /** What fires now, by fingerprint: the last alert listed of a fingerprint counts. */
    static method Current(listed: seq<Raw>) returns (current: seq<Alert>)
      ensures current == CurrentOf(listed)
    {
      current := [];
      for i := 0 to |listed|
        invariant current == CurrentOf(listed[..i])
      {
        assert listed[..i + 1][..i] == listed[..i];
        if listed[i].active && listed[i].fingerprint.Some? {
          current := Set(current, Payload(listed[i]));
        }
      }
      assert listed[..|listed|] == listed;
    }

    method AdmitEach(current: seq<Alert>, now: Time) returns (kept: seq<Alert>)
      modifies this`admitted
      ensures kept == AdmittedOf(rules, old(admitted), current, now)
      ensures admitted == RememberAll(rules, old(admitted), current, now)
    {
      kept := [];
      for i := 0 to |current|
        invariant kept == AdmittedOf(rules, old(admitted), current[..i], now)
        invariant admitted == RememberAll(rules, old(admitted), current[..i], now)
      {
        assert current[..i + 1][..i] == current[..i];
        var ok := Admit(current[i], now);
        if ok {
          kept := kept + [current[i]];
        }
      }
      assert current[..|current|] == current;
    }

    method PutEnds(current: seq<Alert>, at: Time)
      requires Valid()
      modifies alerts
      ensures Valid() && alerts.Contents() == old(alerts.Contents()).Append(Ends(rules, known, current, at))
    {
      ghost var b := alerts.Contents();
      AppendNothing(b);
      for i := 0 to |known|
        invariant Valid() && alerts.Contents() == b.Append(Ends(rules, known[..i], current, at))
      {
        assert known[..i + 1][..i] == known[..i];
        var later := Get(current, known[i].fingerprint);
        if later.None? || later.value.startsAt != known[i].startsAt {
          var ended := if later.Some? && later.value.startsAt.Some? then later.value.startsAt.value
                       else rules.isoFormat(at);
          var item := AlertItem(at, FromPoll, known[i].(resolved := true, endsAt := Some(ended)));
          AppendTwice(b, Ends(rules, known[..i], current, at), [item]);
          var _ := alerts.Append(item);
        }
      }
      assert known[..|known|] == known;
    }

    method PutStarts(kept: seq<Alert>, at: Time)
      requires Valid()
      modifies alerts
      ensures Valid() && alerts.Contents() == old(alerts.Contents()).Append(Starts(known, kept, at))
    {
      ghost var b := alerts.Contents();
      AppendNothing(b);
      for i := 0 to |kept|
        invariant Valid() && alerts.Contents() == b.Append(Starts(known, kept[..i], at))
      {
        assert kept[..i + 1][..i] == kept[..i];
        var before := Get(known, kept[i].fingerprint);
        if before.None? || before.value.startsAt != kept[i].startsAt {
          AppendTwice(b, Starts(known, kept[..i], at), [AlertItem(at, FromPoll, kept[i])]);
          var _ := alerts.Append(AlertItem(at, FromPoll, kept[i]));
        }
      }
      assert kept[..|kept|] == kept;
    }

    /** One poll: occurrences that appeared or resolved, then its heartbeat; a poll that fails says so and declares a
        gap. */
    method PollAlertsOnce(listed: Result<seq<Raw>, string>, attempted: Time, at: Time)
      requires Valid()
      modifies this, alerts
      ensures Valid()
      ensures View() == if listed.Err? then PollFailed(old(View()), attempted, at, listed.error)
                        else PollAlerts(rules, old(View()), listed.value, attempted, at)
      ensures listed.Err? ==>
                alerts.Contents().log == old(alerts.Contents().log)
                  + [Heartbeat(attempted, at, false, None, Some(listed.error)), Gap(at, BackendUnreachable, None, None)]
    {
      ghost var b := alerts.Contents();
      if listed.Err? {
        AppendTwice(b, [Unanswered(attempted, at, listed.error)], [Gap(at, BackendUnreachable, None, None)]);
        assert FailureItems(attempted, at, listed.error)
            == [Unanswered(attempted, at, listed.error)] + [Gap(at, BackendUnreachable, None, None)];
        var _ := alerts.Append(Unanswered(attempted, at, listed.error));
        var _ := alerts.Append(Gap(at, BackendUnreachable, None, None));
        return;
      }
      var current := Current(listed.value);
      var kept := AdmitEach(current, at);
      PutEnds(current, at);
      PutStarts(kept, at);
      AppendThree(b, Ends(rules, known, current, at), Starts(known, kept, at),
                  [Answered(attempted, at, |listed.value|)]);
      known := kept;
      var _ := alerts.Append(Answered(attempted, at, |listed.value|));
    }

    /** A delivery is accepted whole, whatever of it is admitted, unless deliveries are not accepted at all. */
    method ReceiveWebhook(delivered: seq<Alert>, now: Time) returns (count: Option<nat>)
      requires Valid()
      modifies this`admitted, alerts
      ensures Valid() && count == if acceptWebhook then Some(|delivered|) else None
      ensures View() == if acceptWebhook then Webhook(rules, old(View()), delivered, now) else old(View())
    {
      if !acceptWebhook {
        return None;
      }
      ghost var b, kept := alerts.Contents(), [];
      AppendNothing(b);
      for i := 0 to |delivered|
        invariant Valid() && known == old(known) && admitted == RememberAll(rules, old(admitted), delivered[..i], now)
        invariant kept == AdmittedOf(rules, old(admitted), delivered[..i], now)
        invariant alerts.Contents() == b.Append(Delivered(kept, now))
      {
        assert delivered[..i + 1][..i] == delivered[..i];
        var ok := Admit(delivered[i], now);
        if ok {
          DeliveredLast(kept, delivered[i], now);
          AppendTwice(b, Delivered(kept, now), [AlertItem(now, FromWebhook, delivered[i])]);
          kept := kept + [delivered[i]];
          var _ := alerts.Append(AlertItem(now, FromWebhook, delivered[i]));
        }
      }
      assert delivered[..|delivered|] == delivered;
      count := Some(|delivered|);
    }
  }
}
