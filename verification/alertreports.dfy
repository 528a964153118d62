/** What the items of the alert stream say, in terms of what Alertmanager listed and what was delivered. */
module AlertReports {
  import opened Text
  import opened Wire
  import opened Streams
  import opened Alerts
  import opened Picking

  // ---- one listing ----------------------------------------------------------------------------

  predicate ListsActive(raw: Raw, fingerprint: string) {
    raw.active && raw.fingerprint == Some(fingerprint)
  }

  /** The last active alert of the fingerprint in a listing. */
  predicate LastListed(listing: seq<Raw>, k: nat, fingerprint: string) {
    k < |listing| && ListsActive(listing[k], fingerprint)
    && forall j :: k < j < |listing| ==> !ListsActive(listing[j], fingerprint)
  }

  /** The alert's own labels, annotations and link, empty where absent. */
  predicate Carries(details: Details, raw: Raw) {
    && details.labels == (if raw.labels.Some? then raw.labels.value else map[])
    && details.annotations == (if raw.annotations.Some? then raw.annotations.value else map[])
    && details.generator == raw.generator
  }

  /** A listed alert as it is emitted while it fires. */
  predicate Reports(alert: Alert, raw: Raw) {
    && !alert.resolved && raw.fingerprint == Some(alert.fingerprint)
    && alert.startsAt == raw.startsAt && alert.endsAt == raw.endsAt && Carries(alert.details, raw)
  }

  lemma {:induction false} GetSet(d: seq<Alert>, alert: Alert, fingerprint: string)
    ensures Get(Set(d, alert), fingerprint)
         == if alert.fingerprint == fingerprint then Some(alert) else Get(d, fingerprint)
  {
    if d != [] {
      var front, last := d[..|d| - 1], d[|d| - 1];
      GetSet(front, alert, fingerprint);
      assert (front + [alert])[..|front|] == front;
      assert (Set(front, alert) + [last])[..|Set(front, alert)|] == Set(front, alert);
    } else {
      assert [alert][..0] == [];
    }
  }

  lemma {:induction false} PayloadReports(raw: Raw)
    requires raw.fingerprint.Some?
    ensures Reports(Payload(raw), raw) && Payload(raw).fingerprint == raw.fingerprint.value
  {
  }

  /** What fires now is, for each fingerprint listed as active, the last alert listed of it. */
  lemma {:induction false} CurrentIsLast(listing: seq<Raw>, fingerprint: string)
    ensures var current := Get(CurrentOf(listing), fingerprint);
            if current.None? then forall k :: 0 <= k < |listing| ==> !ListsActive(listing[k], fingerprint)
            else exists k: nat :: LastListed(listing, k, fingerprint) && Reports(current.value, listing[k])
  {
    hide Reports, Payload, Set, Get;
    if listing != [] {
      var front, last := listing[..|listing| - 1], listing[|listing| - 1];
      CurrentIsLast(front, fingerprint);
      var before := Get(CurrentOf(front), fingerprint);
      if last.active && last.fingerprint.Some? {
        PayloadReports(last);
        GetSet(CurrentOf(front), Payload(last), fingerprint);
      }
      if ListsActive(last, fingerprint) {
        assert LastListed(listing, |listing| - 1, fingerprint);
      } else if before.Some? {
        var k: nat :| LastListed(front, k, fingerprint) && Reports(before.value, front[k]);
        assert LastListed(listing, k, fingerprint) && listing[k] == front[k];
      }
    }
  }

  lemma {:induction false} MemberIsLast(listing: seq<Raw>, alert: Alert)
    requires alert in CurrentOf(listing)
    ensures exists k: nat :: LastListed(listing, k, alert.fingerprint) && Reports(alert, listing[k])
  {
    CurrentIsDistinct(listing);
    GetOwn(CurrentOf(listing), alert);
    CurrentIsLast(listing, alert.fingerprint);
  }

  // ---- one poll -------------------------------------------------------------------------------

  /** The fingerprint is listed as active with this very start. */
  predicate StillListed(listing: seq<Raw>, fingerprint: string, start: Option<string>) {
    exists k :: 0 <= k < |listing| && LastListed(listing, k, fingerprint) && listing[k].startsAt == start
  }

  /** An occurrence ended when its fingerprint's new one began, where that is known, else by the poll's own time. */
  ghost predicate EndsAsListed(rules: Rules, listing: seq<Raw>, fingerprint: string, end: Option<string>, at: Time) {
    if exists k: nat :: LastListed(listing, k, fingerprint) && listing[k].startsAt.Some?
    then exists k: nat :: LastListed(listing, k, fingerprint) && end == listing[k].startsAt
    else end == Some(rules.isoFormat(at))
  }

  /** The end of a known alert that is not listed with its start any more: as it was known, but for its state and its
      end. */
  ghost predicate Closes(rules: Rules, listing: seq<Raw>, known: Alert, alert: Alert, at: Time) {
    && alert.resolved && alert.fingerprint == known.fingerprint && alert.startsAt == known.startsAt
    && alert.details == known.details && !StillListed(listing, alert.fingerprint, alert.startsAt)
    && EndsAsListed(rules, listing, alert.fingerprint, alert.endsAt, at)
  }

  lemma {:induction false} FiringAsListed(listing: seq<Raw>, alert: Alert)
    ensures StillFiring(CurrentOf(listing), alert) <==> StillListed(listing, alert.fingerprint, alert.startsAt)
  {
    hide CurrentOf, Get;
    CurrentIsLast(listing, alert.fingerprint);
  }

  lemma {:induction false} EndedCloses(rules: Rules, listing: seq<Raw>, known: Alert, at: Time)
    requires !StillFiring(CurrentOf(listing), known)
    ensures Closes(rules, listing, known, EndedBy(rules, CurrentOf(listing), known, at), at)
  {
    FiringAsListed(listing, known);
    CurrentIsLast(listing, known.fingerprint);
    hide CurrentOf, Get, StillFiring, StillListed;
  }

  ghost predicate EndAmong(known: seq<Alert>, alert: Alert, rules: Rules, listing: seq<Raw>, at: Time) {
    exists a :: a in known && Closes(rules, listing, a, alert, at)
  }

  lemma {:induction false} EndsClose(rules: Rules, known: seq<Alert>, listing: seq<Raw>, at: Time, i: nat)
    requires i < |Ends(rules, known, CurrentOf(listing), at)|
    ensures var item := Ends(rules, known, CurrentOf(listing), at)[i];
            item.AlertItem? && item.origin == FromPoll && item.at == at && item.alert.resolved
            && EndAmong(known, item.alert, rules, listing, at)
  {
    hide Closes, CurrentOf, StillFiring;
    var front, last := known[..|known| - 1], known[|known| - 1];
    var items := Ends(rules, known, CurrentOf(listing), at);
    if i < |Ends(rules, front, CurrentOf(listing), at)| {
      EndsClose(rules, front, listing, at, i);
      var a :| a in front && Closes(rules, listing, a, items[i].alert, at);
      assert a in known;
    } else {
      EndedCloses(rules, listing, last, at);
      assert last in known;
    }
  }

  lemma {:induction false} StartsAreAdmitted(known: seq<Alert>, admitted: seq<Alert>, at: Time, i: nat)
    requires i < |Starts(known, admitted, at)|
    ensures var item := Starts(known, admitted, at)[i];
            item.AlertItem? && item.origin == FromPoll && item.at == at && item.alert in admitted
  {
    var front := admitted[..|admitted| - 1];
    if i < |Starts(known, front, at)| {
      StartsAreAdmitted(known, front, at, i);
    }
  }

  /** An item of one answered poll: the start of an occurrence, as its fingerprint was last listed; the end of a known
      one; or the heartbeat, which counts what was listed. */
  ghost predicate PollSays(rules: Rules, known: seq<Alert>, listing: seq<Raw>, attempted: Time, at: Time, item: Item) {
    if item.AlertItem? then
      && item.origin == FromPoll && item.at == at
      && if item.alert.resolved then EndAmong(known, item.alert, rules, listing, at)
         else exists k: nat :: LastListed(listing, k, item.alert.fingerprint) && Reports(item.alert, listing[k])
    else item == Heartbeat(attempted, at, true, Some(|listing|), None)
  }

  lemma {:induction false} PollItemsSay(rules: Rules, s: AlertState, listing: seq<Raw>, attempted: Time, at: Time,
                                        i: nat)
    requires i < |PollItems(rules, s, listing, attempted, at)|
    ensures PollSays(rules, s.known, listing, attempted, at, PollItems(rules, s, listing, attempted, at)[i])
  {
    hide EndAmong, Reports, LastListed, Ends, Starts, AdmittedOf;
    var current := CurrentOf(listing);
    var admitted := AdmittedOf(rules, s.admitted, current, at);
    var ends, starts := Ends(rules, s.known, current, at), Starts(s.known, admitted, at);
    if i < |ends| {
      EndsClose(rules, s.known, listing, at, i);
    } else if i < |ends| + |starts| {
      var item := starts[i - |ends|];
      StartsAreAdmitted(s.known, admitted, at, i - |ends|);
      CurrentIsDistinct(listing);
      AdmittedIsDistinct(rules, s.admitted, current, at);
      MemberIsLast(listing, item.alert);
    }
  }

  // ---- whole runs -----------------------------------------------------------------------------

  /** The latest answered poll among the first n steps. */
  predicate LastPoll(steps: seq<AlertStep>, m: nat, n: nat)
    requires n <= |steps|
  {
    m < n && steps[m].Polls? && forall j :: m < j < n ==> !steps[j].Polls?
  }

  /** The alert as the latest answered poll listed it. */
  ghost predicate KnownFrom(steps: seq<AlertStep>, n: nat, alert: Alert)
    requires n <= |steps|
  {
    exists m: nat, k: nat ::
      LastPoll(steps, m, n) && LastListed(steps[m].raws, k, alert.fingerprint) && Reports(alert, steps[m].raws[k])
  }

  lemma {:induction false} KnownIsListed(rules: Rules, states: seq<AlertState>, steps: seq<AlertStep>, n: nat,
                                         alert: Alert)
    requires IsAlertRun(rules, states, steps) && n <= |steps| && alert in states[n].known
    ensures KnownFrom(steps, n, alert)
  {
    hide Reports, ListsActive, AdmittedOf, CurrentOf, RememberAll, PollItems;
    assert n > 0 && Follows(rules, states, steps, n - 1);
    var step := steps[n - 1];
    if step.Polls? {
      CurrentIsDistinct(step.raws);
      AdmittedIsDistinct(rules, states[n - 1].admitted, CurrentOf(step.raws), step.at);
      MemberIsLast(step.raws, alert);
      var k: nat :| LastListed(step.raws, k, alert.fingerprint) && Reports(alert, step.raws[k]);
      assert LastPoll(steps, n - 1, n);
    } else {
      KnownIsListed(rules, states, steps, n - 1, alert);
      var m: nat, k: nat :| LastPoll(steps, m, n - 1) && LastListed(steps[m].raws, k, alert.fingerprint)
                            && Reports(alert, steps[m].raws[k]);
      assert LastPoll(steps, m, n);
    }
  }

  /** The start of an occurrence: what the poll of step m listed last of its fingerprint, at the poll's own time. */
  ghost predicate StartedAt(steps: seq<AlertStep>, m: nat, item: Item)
    requires m < |steps| && item.AlertItem?
  {
    && steps[m].Polls? && item.origin == FromPoll && item.at == steps[m].at && !item.alert.resolved
    && exists k: nat :: LastListed(steps[m].raws, k, item.alert.fingerprint) && Reports(item.alert, steps[m].raws[k])
  }

  /** The end of an occurrence: as the answered poll before step m listed it, when the poll of step m lists its
      fingerprint no more, or with another start. */
  ghost predicate EndedAt(rules: Rules, steps: seq<AlertStep>, m: nat, item: Item)
    requires m < |steps| && item.AlertItem?
  {
    && steps[m].Polls? && item.origin == FromPoll && item.at == steps[m].at && item.alert.resolved
    && (exists q: nat, k: nat ::
          LastPoll(steps, q, m) && LastListed(steps[q].raws, k, item.alert.fingerprint)
          && item.alert.startsAt == steps[q].raws[k].startsAt && Carries(item.alert.details, steps[q].raws[k]))
    && !StillListed(steps[m].raws, item.alert.fingerprint, item.alert.startsAt)
    && EndsAsListed(rules, steps[m].raws, item.alert.fingerprint, item.alert.endsAt, steps[m].at)
  }

  /** An alert of the delivery of step m, as it was delivered. */
  predicate DeliveredAt(steps: seq<AlertStep>, m: nat, item: Item)
    requires m < |steps| && item.AlertItem?
  {
    steps[m].Delivers? && item.origin == FromWebhook && item.at == steps[m].at && item.alert in steps[m].alerts
  }

  ghost predicate ExplainedAt(rules: Rules, steps: seq<AlertStep>, m: nat, item: Item)
    requires m < |steps| && item.AlertItem?
  {
    StartedAt(steps, m, item) || EndedAt(rules, steps, m, item) || DeliveredAt(steps, m, item)
  }

  lemma {:induction false} DeliveredSay(alerts: seq<Alert>, at: Time)
    ensures |Delivered(alerts, at)| == |alerts|
    ensures forall i :: 0 <= i < |alerts| ==> Delivered(alerts, at)[i] == AlertItem(at, FromWebhook, alerts[i])
  {
    if alerts != [] {
      DeliveredSay(alerts[..|alerts| - 1], at);
    }
  }

  lemma {:induction false} AdmittedAreOffered(rules: Rules, admitted: seq<Occurrence>, alerts: seq<Alert>, now: Time)
    ensures forall a :: a in AdmittedOf(rules, admitted, alerts, now) ==> a in alerts
  {
    if alerts != [] {
      AdmittedAreOffered(rules, admitted, alerts[..|alerts| - 1], now);
    }
  }

  lemma {:induction false} EndIsExplained(rules: Rules, states: seq<AlertState>, steps: seq<AlertStep>, m: nat,
                                          item: Item)
    requires IsAlertRun(rules, states, steps) && m < |steps| && steps[m].Polls? && item.AlertItem?
    requires item.origin == FromPoll && item.at == steps[m].at
    requires EndAmong(states[m].known, item.alert, rules, steps[m].raws, steps[m].at)
    ensures EndedAt(rules, steps, m, item)
  {
    var a :| a in states[m].known && Closes(rules, steps[m].raws, a, item.alert, steps[m].at);
    KnownIsListed(rules, states, steps, m, a);
    hide IsAlertRun, EndsAsListed, StillListed, Carries;
    var q: nat, k: nat :| LastPoll(steps, q, m) && LastListed(steps[q].raws, k, a.fingerprint)
                          && Reports(a, steps[q].raws[k]);
  }

  lemma {:induction false} NewItemIsExplained(rules: Rules, states: seq<AlertState>, steps: seq<AlertStep>, m: nat,
                                              i: nat)
    requires IsAlertRun(rules, states, steps) && m < |steps| && |states[m].b.log| <= i < |states[m + 1].b.log|
    requires states[m + 1].b.log[i].AlertItem?
    ensures ExplainedAt(rules, steps, m, states[m + 1].b.log[i])
  {
    hide Reports, PollItems, EndAmong, EndedAt, LastListed;
    assert Follows(rules, states, steps, m);
    var s, item, at := states[m], states[m + 1].b.log[i], i - |states[m].b.log|;
    match steps[m] {
      case Polls(listing, attempted, now) =>
        PollItemsSay(rules, s, listing, attempted, now, at);
        if item.alert.resolved {
          EndIsExplained(rules, states, steps, m, item);
        }
      case PollFails(attempted, now, error) =>
      case Delivers(alerts, now) =>
        DeliveredSay(AdmittedOf(rules, s.admitted, alerts, now), now);
        AdmittedAreOffered(rules, s.admitted, alerts, now);
    }
  }

  lemma {:induction false} AlertLogGrows(rules: Rules, states: seq<AlertState>, steps: seq<AlertStep>, m: nat, n: nat)
    requires IsAlertRun(rules, states, steps) && m <= n <= |steps|
    ensures states[m].b.log <= states[n].b.log
  {
    hide PollItems, AdmittedOf, RememberAll, Delivered;
    if m < n {
      AlertLogGrows(rules, states, steps, m, n - 1);
      assert Follows(rules, states, steps, n - 1);
    }
  }

  /** Over every run of polls, failed polls and deliveries: whatever alert the stream carries is the start of an
      occurrence as its poll listed it, the end of one as the poll before listed it, or an alert as it was delivered. */
  lemma {:induction false} EveryAlertIsExplained(rules: Rules, states: seq<AlertState>, steps: seq<AlertStep>, n: nat,
                                                 i: nat)
    requires IsAlertRun(rules, states, steps) && n <= |steps| && i < |states[n].b.log|
    requires states[n].b.log[i].AlertItem?
    ensures exists m: nat :: m < n && |states[m].b.log| <= i < |states[m + 1].b.log|
                             && ExplainedAt(rules, steps, m, states[n].b.log[i])
  {
    hide ExplainedAt;
    assert n > 0;
    AlertLogGrows(rules, states, steps, n - 1, n);
    if i < |states[n - 1].b.log| {
      EveryAlertIsExplained(rules, states, steps, n - 1, i);
    } else {
      NewItemIsExplained(rules, states, steps, n - 1, i);
    }
  }

  // ---- what an end says of its start ----------------------------------------------------------

  predicate SaysSame(a: Raw, b: Raw) {
    && (if a.labels.Some? then a.labels.value else map[]) == (if b.labels.Some? then b.labels.value else map[])
    && (if a.annotations.Some? then a.annotations.value else map[])
       == (if b.annotations.Some? then b.annotations.value else map[])
    && a.generator == b.generator
  }

  predicate ListedAt(steps: seq<AlertStep>, m: nat, k: nat, fingerprint: string) {
    m < |steps| && steps[m].Polls? && LastListed(steps[m].raws, k, fingerprint)
  }

  lemma {:induction false} OnlyStarted(rules: Rules, steps: seq<AlertStep>, m: nat, item: Item)
    requires m < |steps| && item.AlertItem? && item.origin == FromPoll && !item.alert.resolved
    ensures ExplainedAt(rules, steps, m, item) <==> StartedAt(steps, m, item)
  {
  }

  lemma {:induction false} OnlyEnded(rules: Rules, steps: seq<AlertStep>, m: nat, item: Item)
    requires m < |steps| && item.AlertItem? && item.origin == FromPoll && item.alert.resolved
    ensures ExplainedAt(rules, steps, m, item) <==> EndedAt(rules, steps, m, item)
  {
  }

  lemma {:induction false} StartIsListed(rules: Rules, states: seq<AlertState>, steps: seq<AlertStep>, n: nat, g: nat)
    requires IsAlertRun(rules, states, steps) && n <= |steps| && g < |states[n].b.log|
    requires var item := states[n].b.log[g]; item.AlertItem? && item.origin == FromPoll && !item.alert.resolved
    ensures exists m: nat, k: nat :: ListedAt(steps, m, k, states[n].b.log[g].alert.fingerprint)
                                     && Carries(states[n].b.log[g].alert.details, steps[m].raws[k])
  {
    var item := states[n].b.log[g];
    EveryAlertIsExplained(rules, states, steps, n, g);
    hide IsAlertRun, LastListed, Carries;
    var m: nat :| m < n && ExplainedAt(rules, steps, m, item);
    OnlyStarted(rules, steps, m, item);
    var k: nat :| LastListed(steps[m].raws, k, item.alert.fingerprint) && Reports(item.alert, steps[m].raws[k]);
    assert ListedAt(steps, m, k, item.alert.fingerprint);
  }

  lemma {:induction false} EndIsListed(rules: Rules, states: seq<AlertState>, steps: seq<AlertStep>, n: nat, e: nat)
    requires IsAlertRun(rules, states, steps) && n <= |steps| && e < |states[n].b.log|
    requires var item := states[n].b.log[e]; item.AlertItem? && item.origin == FromPoll && item.alert.resolved
    ensures exists q: nat, j: nat :: ListedAt(steps, q, j, states[n].b.log[e].alert.fingerprint)
                                     && Carries(states[n].b.log[e].alert.details, steps[q].raws[j])
  {
    var item := states[n].b.log[e];
    EveryAlertIsExplained(rules, states, steps, n, e);
    hide IsAlertRun, LastListed, Carries, StillListed, EndsAsListed;
    var m: nat :| m < n && ExplainedAt(rules, steps, m, item);
    OnlyEnded(rules, steps, m, item);
    var q: nat, j: nat :| LastPoll(steps, q, m) && LastListed(steps[q].raws, j, item.alert.fingerprint)
                          && Carries(item.alert.details, steps[q].raws[j]);
    assert ListedAt(steps, q, j, item.alert.fingerprint);
  }

  /** An end carries the details of a start exactly when the last poll that listed the alert listed the same details as
      the poll that reported the start: they are those of the last listing, not those of the start. */
  lemma {:induction false} EndSaysAsStartExactly(rules: Rules, states: seq<AlertState>, steps: seq<AlertStep>, n: nat,
                                                 g: nat, e: nat)
    requires IsAlertRun(rules, states, steps) && n <= |steps| && g < |states[n].b.log| && e < |states[n].b.log|
    requires var start, end := states[n].b.log[g], states[n].b.log[e];
             && start.AlertItem? && start.origin == FromPoll && !start.alert.resolved
             && end.AlertItem? && end.origin == FromPoll && end.alert.resolved
    ensures exists m: nat, k: nat, q: nat, j: nat ::
              && ListedAt(steps, m, k, states[n].b.log[g].alert.fingerprint)
              && ListedAt(steps, q, j, states[n].b.log[e].alert.fingerprint)
              && (states[n].b.log[e].alert.details == states[n].b.log[g].alert.details
                  <==> SaysSame(steps[m].raws[k], steps[q].raws[j]))
  {
    StartIsListed(rules, states, steps, n, g);
    EndIsListed(rules, states, steps, n, e);
    hide IsAlertRun, LastListed;
  }

  /** A listed alert of fingerprint "x" with this summary. */
  function Listed(summary: string): Raw {
    Raw(true, Some("x"), Some("noon"), None, Some(SaidWith(summary).labels), Some(SaidWith(summary).annotations), None)
  }

  function SaidWith(summary: string): Details {
    Details(map["alertname" := "HighLatency"], map["summary" := summary], None)
  }

  function Impatient(instant: string -> Option<Time>, isoFormat: Time -> string): Rules {
    Rules(0, 1, instant, isoFormat)
  }

  lemma {:induction false} OneListed(rules: Rules, admitted: seq<Occurrence>, raw: Raw, at: Time)
    requires rules.minActive <= 0 && raw.active && raw.fingerprint.Some?
    ensures CurrentOf([raw]) == [Payload(raw)]
    ensures AdmittedOf(rules, admitted, [Payload(raw)], at) == [Payload(raw)]
  {
    assert [raw][..0] == [] && [Payload(raw)][..0] == [];
  }

  lemma {:induction false} OneKnown(rules: Rules, alert: Alert, other: Alert, at: Time)
    requires alert.fingerprint == other.fingerprint
    ensures Starts([], [alert], at) == [AlertItem(at, FromPoll, alert)]
    ensures Ends(rules, [], [alert], at) == []
    ensures alert.startsAt == other.startsAt ==>
              Ends(rules, [alert], [other], at) == [] && Starts([alert], [other], at) == []
    ensures Ends(rules, [alert], [], at)
         == [AlertItem(at, FromPoll, alert.(resolved := true, endsAt := Some(rules.isoFormat(at))))]
    ensures Starts([alert], [], at) == []
  {
    assert [alert][..0] == [] && [other][..0] == [];
  }

  lemma {:induction false} PollsBegin(rules: Rules, s: AlertState, raw: Raw, at: Time)
    requires rules.minActive <= 0 && raw.active && raw.fingerprint.Some? && s.known == []
    ensures var n := PollAlerts(rules, s, [raw], at, at);
            n.known == [Payload(raw)]
            && n.b.log == s.b.log + [AlertItem(at, FromPoll, Payload(raw)), Heartbeat(at, at, true, Some(1), None)]
  {
    OneListed(rules, s.admitted, raw, at);
    OneKnown(rules, Payload(raw), Payload(raw), at);
    hide CurrentOf, AdmittedOf, RememberAll, Ends, Starts, Payload;
  }

  lemma {:induction false} PollsGoOn(rules: Rules, s: AlertState, raw: Raw, known: Alert, at: Time)
    requires rules.minActive <= 0 && raw.active && raw.fingerprint == Some(known.fingerprint)
    requires s.known == [known] && raw.startsAt == known.startsAt
    ensures var n := PollAlerts(rules, s, [raw], at, at);
            n.known == [Payload(raw)] && n.b.log == s.b.log + [Heartbeat(at, at, true, Some(1), None)]
  {
    OneListed(rules, s.admitted, raw, at);
    OneKnown(rules, known, Payload(raw), at);
    hide CurrentOf, AdmittedOf, RememberAll, Ends, Starts;
  }

  lemma {:induction false} PollsEnd(rules: Rules, s: AlertState, known: Alert, at: Time)
    requires s.known == [known]
    ensures PollAlerts(rules, s, [], at, at).b.log == s.b.log +
            [AlertItem(at, FromPoll, known.(resolved := true, endsAt := Some(rules.isoFormat(at)))),
             Heartbeat(at, at, true, Some(0), None)]
  {
    OneKnown(rules, known, known, at);
    assert CurrentOf([]) == [] && AdmittedOf(rules, s.admitted, [], at) == [] && Starts([known], [], at) == [];
    hide CurrentOf, AdmittedOf, RememberAll, Ends, Starts;
  }

  /** One occurrence listed twice with different annotations, then no more: its end does not say what its start said. */
  lemma {:induction false} DetailsMayChange(instant: string -> Option<Time>, isoFormat: Time -> string, epoch: string)
    ensures var rules := Impatient(instant, isoFormat);
            var first := PollAlerts(rules, Begun(epoch, 10), [Listed("slow")], 0, 0);
            var second := PollAlerts(rules, first, [Listed("slower")], 1, 1);
            var third := PollAlerts(rules, second, [], 2, 2);
            && |third.b.log| == 5 && third.b.log[0].AlertItem? && third.b.log[3].AlertItem?
            && !third.b.log[0].alert.resolved && third.b.log[3].alert.resolved
            && third.b.log[0].alert.fingerprint == third.b.log[3].alert.fingerprint == "x"
            && third.b.log[0].alert.startsAt == third.b.log[3].alert.startsAt
            && third.b.log[0].alert.details == SaidWith("slow") && third.b.log[3].alert.details == SaidWith("slower")
            && SaidWith("slow") != SaidWith("slower")
  {
    var rules := Impatient(instant, isoFormat);
    var first := PollAlerts(rules, Begun(epoch, 10), [Listed("slow")], 0, 0);
    var second := PollAlerts(rules, first, [Listed("slower")], 1, 1);
    PollsBegin(rules, Begun(epoch, 10), Listed("slow"), 0);
    PollsGoOn(rules, first, Listed("slower"), Payload(Listed("slow")), 1);
    PollsEnd(rules, second, Payload(Listed("slower")), 2);
    assert SaidWith("slow").annotations["summary"] != SaidWith("slower").annotations["summary"];
    hide PollAlerts;
  }

  // ---- nothing young is told ------------------------------------------------------------------

  function InstantIn(rules: Rules, text: Option<string>): Option<Time> {
    if text.Some? && text.value != "" then rules.instant(text.value) else None
  }

  /** As old as the stream asks for: a resolved occurrence by how long it lasted, a firing one by its age. */
  predicate LivedEnough(rules: Rules, alert: Alert, now: Time) {
    var began, ended := InstantIn(rules, alert.startsAt), InstantIn(rules, alert.endsAt);
    rules.minActive > 0 && began.Some? ==>
      if alert.resolved && ended.Some? then ended.value - began.value >= rules.minActive
      else now - began.value >= rules.minActive
  }

  /** The step lists the alert, or brings it, when it has lived long enough. */
  ghost predicate Offers(rules: Rules, step: AlertStep, alert: Alert) {
    match step
    case Delivers(alerts, at) => alert in alerts && LivedEnough(rules, alert, at)
    case Polls(listing, _, at) =>
      (exists k: nat :: LastListed(listing, k, alert.fingerprint) && Reports(alert, listing[k]))
      && LivedEnough(rules, alert, at)
    case PollFails(_, _, _) => false
  }

  ghost predicate OfferedOld(rules: Rules, step: AlertStep, key: Occurrence) {
    exists alert: Alert :: alert.fingerprint == key.fingerprint && OrNone(alert.startsAt) == key.start
                    && Offers(rules, step, alert)
  }

  ghost predicate OfferedBefore(rules: Rules, steps: seq<AlertStep>, n: nat, key: Occurrence)
    requires n <= |steps|
  {
    exists j :: 0 <= j < n && OfferedOld(rules, steps[j], key)
  }

  lemma {:induction false} OldIsOld(rules: Rules, alert: Alert, now: Time)
    ensures OldEnough(rules, alert, now) <==> LivedEnough(rules, alert, now)
  {
  }

  predicate OldAmong(rules: Rules, alerts: seq<Alert>, now: Time, key: Occurrence) {
    exists i :: 0 <= i < |alerts| && KeyOf(alerts[i]) == key && OldEnough(rules, alerts[i], now)
  }

  lemma {:induction false} RememberedAreOld(rules: Rules, admitted: seq<Occurrence>, alerts: seq<Alert>, now: Time,
                                            key: Occurrence)
    ensures key in RememberAll(rules, admitted, alerts, now) ==> key in admitted || OldAmong(rules, alerts, now, key)
    ensures forall a :: a in AdmittedOf(rules, admitted, alerts, now) && KeyOf(a) == key ==>
              key in admitted || OldAmong(rules, alerts, now, key)
  {
    hide OldEnough, KeyOf;
    if alerts != [] {
      var front, last := alerts[..|alerts| - 1], alerts[|alerts| - 1];
      RememberedAreOld(rules, admitted, front, now, key);
      if OldAmong(rules, front, now, key) {
        var i :| 0 <= i < |front| && KeyOf(front[i]) == key && OldEnough(rules, front[i], now);
        assert alerts[i] == front[i];
      }
      if KeyOf(last) == key && OldEnough(rules, last, now) {
        assert OldAmong(rules, alerts, now, key);
      }
    }
  }

  lemma {:induction false} OldAreOffered(rules: Rules, step: AlertStep, key: Occurrence)
    ensures step.Delivers? && OldAmong(rules, step.alerts, step.at, key) ==> OfferedOld(rules, step, key)
    ensures step.Polls? && OldAmong(rules, CurrentOf(step.raws), step.at, key) ==> OfferedOld(rules, step, key)
  {
    hide OldEnough, LivedEnough, Reports, LastListed, CurrentOf;
    if step.Delivers? && OldAmong(rules, step.alerts, step.at, key) {
      var i :| 0 <= i < |step.alerts| && KeyOf(step.alerts[i]) == key && OldEnough(rules, step.alerts[i], step.at);
      OldIsOld(rules, step.alerts[i], step.at);
    }
    if step.Polls? && OldAmong(rules, CurrentOf(step.raws), step.at, key) {
      var current := CurrentOf(step.raws);
      var i :| 0 <= i < |current| && KeyOf(current[i]) == key && OldEnough(rules, current[i], step.at);
      OldIsOld(rules, current[i], step.at);
      MemberIsLast(step.raws, current[i]);
    }
  }

  /** What is remembered, known or on the stream after n steps was old enough when one of them offered it. */
  ghost predicate AllOld(rules: Rules, states: seq<AlertState>, steps: seq<AlertStep>, n: nat)
    requires n <= |steps| && n < |states|
  {
    && (forall key :: key in states[n].admitted ==> OfferedBefore(rules, steps, n, key))
    && (forall a :: a in states[n].known ==> OfferedBefore(rules, steps, n, KeyOf(a)))
    && forall i :: 0 <= i < |states[n].b.log| && states[n].b.log[i].AlertItem? ==>
         OfferedBefore(rules, steps, n, KeyOf(states[n].b.log[i].alert))
  }

  lemma {:induction false} OfferedStill(rules: Rules, steps: seq<AlertStep>, n: nat, key: Occurrence)
    requires n < |steps| && (OfferedBefore(rules, steps, n, key) || OfferedOld(rules, steps[n], key))
    ensures OfferedBefore(rules, steps, n + 1, key)
  {
    hide OfferedOld;
  }

  lemma {:induction false} StepKey(rules: Rules, states: seq<AlertState>, steps: seq<AlertStep>, n: nat,
                                   offered: seq<Alert>, now: Time, key: Occurrence)
    requires n < |steps| && n < |states| && AllOld(rules, states, steps, n)
    requires OldAmong(rules, offered, now, key) ==> OfferedOld(rules, steps[n], key)
    requires key in states[n].admitted || OldAmong(rules, offered, now, key)
    ensures OfferedBefore(rules, steps, n + 1, key)
  {
    hide OfferedOld, OldAmong;
    OfferedStill(rules, steps, n, key);
  }

  /** The occurrence of an item that a step adds was remembered or known before, or offered old by the step. */
  ghost predicate FromOld(rules: Rules, s: AlertState, offered: seq<Alert>, now: Time, key: Occurrence) {
    || key in s.admitted || OldAmong(rules, offered, now, key)
    || exists a :: a in s.known && KeyOf(a) == key
  }

  lemma {:induction false} EndsAreKnown(rules: Rules, known: seq<Alert>, current: seq<Alert>, at: Time, i: nat)
    requires i < |Ends(rules, known, current, at)|
    ensures var item := Ends(rules, known, current, at)[i];
            item.AlertItem? && exists a :: a in known && KeyOf(a) == KeyOf(item.alert)
  {
    hide StillFiring;
    var front, last := known[..|known| - 1], known[|known| - 1];
    if i < |Ends(rules, front, current, at)| {
      EndsAreKnown(rules, front, current, at, i);
    } else {
      assert last in known && KeyOf(last) == KeyOf(EndedBy(rules, current, last, at));
    }
  }

  lemma {:induction false} PollAddsOld(rules: Rules, s: AlertState, listing: seq<Raw>, attempted: Time, at: Time,
                                       i: nat)
    requires i < |PollItems(rules, s, listing, attempted, at)|
    ensures var item := PollItems(rules, s, listing, attempted, at)[i];
            item.AlertItem? ==> FromOld(rules, s, CurrentOf(listing), at, KeyOf(item.alert))
  {
    hide Ends, Starts, AdmittedOf, CurrentOf, KeyOf, OldAmong;
    var current := CurrentOf(listing);
    var admitted := AdmittedOf(rules, s.admitted, current, at);
    var ends, starts := Ends(rules, s.known, current, at), Starts(s.known, admitted, at);
    if i < |ends| {
      EndsAreKnown(rules, s.known, current, at, i);
    } else if i < |ends| + |starts| {
      StartsAreAdmitted(s.known, admitted, at, i - |ends|);
      RememberedAreOld(rules, s.admitted, current, at, KeyOf(starts[i - |ends|].alert));
    }
  }

  /** Over every run: no occurrence is remembered, known or told, by either path, that was not old enough when a poll
      listed it or a delivery brought it. */
  lemma {:induction false} NothingYoungIsTold(rules: Rules, states: seq<AlertState>, steps: seq<AlertStep>, n: nat)
    requires IsAlertRun(rules, states, steps) && n <= |steps|
    ensures AllOld(rules, states, steps, n)
  {
    if n > 0 {
      NothingYoungIsTold(rules, states, steps, n - 1);
      assert Follows(rules, states, steps, n - 1);
      match steps[n - 1] {
        case Polls(_, _, _) => PollStaysOld(rules, states, steps, n - 1);
        case PollFails(_, _, _) => FailureStaysOld(rules, states, steps, n - 1);
        case Delivers(_, _) => DeliveryStaysOld(rules, states, steps, n - 1);
      }
    }
  }

  lemma {:induction false} PollStaysOld(rules: Rules, states: seq<AlertState>, steps: seq<AlertStep>, n: nat)
    requires n < |steps| && n + 1 < |states| && AllOld(rules, states, steps, n) && steps[n].Polls?
    requires states[n + 1] == NextAlerts(rules, states[n], steps[n])
    ensures AllOld(rules, states, steps, n + 1)
  {
    hide OfferedOld, OldAmong, KeyOf, PollItems, CurrentOf, AdmittedOf, RememberAll;
    var s, t := states[n], states[n + 1];
    var current, at := CurrentOf(steps[n].raws), steps[n].at;
    forall key ensures OldAmong(rules, current, at, key) ==> OfferedOld(rules, steps[n], key) {
      OldAreOffered(rules, steps[n], key);
    }
    forall key | key in t.admitted ensures OfferedBefore(rules, steps, n + 1, key) {
      RememberedAreOld(rules, s.admitted, current, at, key);
      StepKey(rules, states, steps, n, current, at, key);
    }
    forall a | a in t.known ensures OfferedBefore(rules, steps, n + 1, KeyOf(a)) {
      RememberedAreOld(rules, s.admitted, current, at, KeyOf(a));
      StepKey(rules, states, steps, n, current, at, KeyOf(a));
    }
    forall i | 0 <= i < |t.b.log| && t.b.log[i].AlertItem?
      ensures OfferedBefore(rules, steps, n + 1, KeyOf(t.b.log[i].alert))
    {
      var key := KeyOf(t.b.log[i].alert);
      if i < |s.b.log| {
        assert t.b.log[i] == s.b.log[i];
        OfferedStill(rules, steps, n, key);
      } else {
        PollAddsOld(rules, s, steps[n].raws, steps[n].attempted, at, i - |s.b.log|);
        if key in s.admitted || OldAmong(rules, current, at, key) {
          StepKey(rules, states, steps, n, current, at, key);
        } else {
          OfferedStill(rules, steps, n, key);
        }
      }
    }
  }

  lemma {:induction false} FailureStaysOld(rules: Rules, states: seq<AlertState>, steps: seq<AlertStep>, n: nat)
    requires n < |steps| && n + 1 < |states| && AllOld(rules, states, steps, n) && steps[n].PollFails?
    requires states[n + 1] == NextAlerts(rules, states[n], steps[n])
    ensures AllOld(rules, states, steps, n + 1)
  {
    hide OfferedOld, KeyOf;
    var s, t := states[n], states[n + 1];
    forall key | OfferedBefore(rules, steps, n, key) ensures OfferedBefore(rules, steps, n + 1, key) {
      OfferedStill(rules, steps, n, key);
    }
    forall i | 0 <= i < |t.b.log| && t.b.log[i].AlertItem? ensures i < |s.b.log| && t.b.log[i] == s.b.log[i] {
    }
  }

  lemma {:induction false} DeliveryStaysOld(rules: Rules, states: seq<AlertState>, steps: seq<AlertStep>, n: nat)
    requires n < |steps| && n + 1 < |states| && AllOld(rules, states, steps, n) && steps[n].Delivers?
    requires states[n + 1] == NextAlerts(rules, states[n], steps[n])
    ensures AllOld(rules, states, steps, n + 1)
  {
    hide OfferedOld, OldAmong, KeyOf, Delivered, AdmittedOf, RememberAll;
    var s, t := states[n], states[n + 1];
    var alerts, at := steps[n].alerts, steps[n].at;
    var kept := AdmittedOf(rules, s.admitted, alerts, at);
    forall key ensures OldAmong(rules, alerts, at, key) ==> OfferedOld(rules, steps[n], key) {
      OldAreOffered(rules, steps[n], key);
    }
    forall key | key in t.admitted ensures OfferedBefore(rules, steps, n + 1, key) {
      RememberedAreOld(rules, s.admitted, alerts, at, key);
      StepKey(rules, states, steps, n, alerts, at, key);
    }
    forall a | a in t.known ensures OfferedBefore(rules, steps, n + 1, KeyOf(a)) {
      OfferedStill(rules, steps, n, KeyOf(a));
    }
    DeliveredSay(kept, at);
    forall i | 0 <= i < |t.b.log| && t.b.log[i].AlertItem?
      ensures OfferedBefore(rules, steps, n + 1, KeyOf(t.b.log[i].alert))
    {
      var key := KeyOf(t.b.log[i].alert);
      if i < |s.b.log| {
        assert t.b.log[i] == s.b.log[i];
        OfferedStill(rules, steps, n, key);
      } else {
        assert t.b.log[i].alert == kept[i - |s.b.log|];
        RememberedAreOld(rules, s.admitted, alerts, at, key);
        StepKey(rules, states, steps, n, alerts, at, key);
      }
    }
  }

  // ---- one delivery ---------------------------------------------------------------------------

  /** The alerts of a delivery that are let in: remembered by then, or old enough. */
  function LetIn(rules: Rules, admitted: seq<Occurrence>, alerts: seq<Alert>, now: Time): nat -> bool {
    (i: nat) =>
      i < |alerts| &&
      (Occurrence(alerts[i].fingerprint, OrNone(alerts[i].startsAt)) in RememberAll(rules, admitted, alerts[..i], now)
       || LivedEnough(rules, alerts[i], now))
  }

  lemma {:induction false} AdmittedArePicked(rules: Rules, admitted: seq<Occurrence>, alerts: seq<Alert>, now: Time)
    ensures Picks(alerts, AdmittedOf(rules, admitted, alerts, now), LetIn(rules, admitted, alerts, now))
  {
    if alerts == [] {
      PicksNothing<Alert>(LetIn(rules, admitted, alerts, now));
    } else {
      var front, last := alerts[..|alerts| - 1], alerts[|alerts| - 1];
      AdmittedArePicked(rules, admitted, front, now);
      OldIsOld(rules, last, now);
      assert forall i: nat :: i < |front| ==> front[..i] == alerts[..i];
      PicksOneMore(front, AdmittedOf(rules, admitted, front, now), LetIn(rules, admitted, front, now), last,
                   LetIn(rules, admitted, alerts, now));
      assert front + [last] == alerts;
    }
  }

  /** A delivery adds exactly the alerts let in, as they were delivered and in their order, and nothing else. */
  lemma {:induction false} DeliveryTellsExactly(rules: Rules, s: AlertState, alerts: seq<Alert>, now: Time)
    ensures var kept, n := AdmittedOf(rules, s.admitted, alerts, now), Webhook(rules, s, alerts, now);
            && Picks(alerts, kept, LetIn(rules, s.admitted, alerts, now))
            && s.b.log <= n.b.log && |n.b.log| == |s.b.log| + |kept| && n.known == s.known
            && forall i :: 0 <= i < |kept| ==> n.b.log[|s.b.log| + i] == AlertItem(now, FromWebhook, kept[i])
  {
    AdmittedArePicked(rules, s.admitted, alerts, now);
    DeliveredSay(AdmittedOf(rules, s.admitted, alerts, now), now);
    hide AdmittedOf, Delivered, LetIn, Picks;
  }
}
