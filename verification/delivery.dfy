/** The alert stream as the intake gets it: what the connector puts into its buffer, page by page, over restarts of
    either side, pages that failed half way and pages read again. */
module Deliveries {
  import opened Text
  import opened Wire
  import opened Streams
  import opened Paging
  import opened Following
  import opened Coverages
  import opened Intake
  import Alerts

  // ---- what is put and what was taken ---------------------------------------------------------

  /** Everything ever put into the stream, over all runs of the connector; the first of it still buffered; how much of
      it lies behind the intake; what of that it passed over without a word; and what it took. */
  datatype Ledger = Ledger(all: seq<Item>, first: nat, done: nat, missed: set<nat>, history: seq<Fate>)

  function Max(a: nat, b: nat): nat {
    if a < b then b else a
  }

  function Span(lo: nat, hi: nat): (r: set<nat>)
    ensures forall g :: g in r <==> lo <= g < hi
  {
    if hi <= lo then {} else Span(lo, hi - 1) + {hi - 1}
  }

  function Skipped(l: Ledger, upto: nat): Ledger {
    l.(done := Max(l.done, upto), missed := l.missed + Span(l.done, upto))
  }

  function ToldOf(l: Ledger, gap: Item, upto: nat): Ledger {
    l.(done := Max(l.done, upto), history := l.history + [Took(gap)])
  }

  function TakenAt(l: Ledger, g: nat): Ledger
    requires g < |l.all|
  {
    l.(done := Max(l.done, g + 1), history := l.history + [Took(l.all[g])])
  }

  function RunTaken(l: Ledger, from: nat, n: nat): (r: Ledger)
    requires from + n <= |l.all|
    ensures r.all == l.all && r.first == l.first && r.missed == l.missed
    ensures r.done == if n == 0 then l.done else Max(l.done, from + n)
  {
    if n == 0 then l else TakenAt(RunTaken(l, from, n - 1), from + n - 1)
  }

  function Grown(l: Ledger, items: seq<Item>, first: nat): Ledger {
    l.(all := l.all + items, first := first)
  }

  function TookAll(items: seq<Item>): (fates: seq<Fate>)
    ensures |fates| == |items|
    ensures forall i :: 0 <= i < |items| ==> fates[i] == Took(items[i])
  {
    seq(|items|, i requires 0 <= i < |items| => Took(items[i]))
  }

  /** One page: the first n of its items taken, the head of them a gap declared for the reading. A reader without a
      cursor is told of no gap. */
  function PageTaken(l: Ledger, head: seq<Item>, run: seq<Item>, from: nat, n: nat, blind: bool): Ledger
    requires n <= |head| + |run|
  {
    var upto := from + if n > |head| then n - |head| else 0;
    l.(done := if n > 0 || blind then Max(l.done, upto) else l.done,
       missed := if blind then l.missed + Span(l.done, from) else l.missed,
       history := l.history + TookAll((head + run)[..n]))
  }

  // ---- the two sides --------------------------------------------------------------------------

  datatype Delivery = Delivery(alerts: Alerts.AlertState, epochs: set<string>, now: Time, base: nat,
                               cursor: Option<string>, l: Ledger)

  datatype Move =
    | Puts(step: Alerts.AlertStep)
    | ConnectorRestarts(epoch: string, maxLen: nat)
    | IntakeRestarts
    | Reads(limit: nat, at: Time, applied: nat)
    | Loses(now: Time, error: string)

  function Outset(epoch: string, maxLen: nat): Delivery {
    Delivery(Alerts.Begun(epoch, maxLen), {epoch}, 0, 0, None, Ledger([], 0, 0, {}, []))
  }

  function AtOf(step: Alerts.AlertStep): Time {
    step.at
  }

  /** What a step of the connector puts into the buffer. */
  function PutBy(rules: Alerts.Rules, s: Alerts.AlertState, step: Alerts.AlertStep): seq<Item> {
    match step
    case Polls(raws, attempted, at) => Alerts.PollItems(rules, s, raws, attempted, at)
    case PollFails(attempted, at, error) => Alerts.FailureItems(attempted, at, error)
    case Delivers(alerts, at) => Alerts.Delivered(Alerts.AdmittedOf(rules, s.admitted, alerts, at), at)
  }

  function RunOf(b: Buffer, start: Start, limit: nat): (run: seq<Item>)
    ensures |run| == |Served(b, start, limit)|
  {
    ItemsIn(Served(b, start, limit))
  }

  /** A page read at the connector, of which the intake applies so many items; the cursor moves past a page whose items
      were all applied. */
  function ReadBy(d: Delivery, limit: nat, at: Time, applied: nat): Delivery {
    var page := ReadPage(d.alerts.b, d.cursor, limit, false, at);
    if page.Err? then d.(now := at, l := d.l.(history := d.l.history + [Lost(at, "ConnectorError")]))
    else
      var start := Streams.StartOf(d.alerts.b, d.cursor, false).value;
      var head, run := Head(start.declared, at), RunOf(d.alerts.b, start, limit);
      var n := if applied < |head| + |run| then applied else |head| + |run|;
      d.(now := at,
         cursor := if n == |head| + |run| then Some(page.value.nextCursor) else d.cursor,
         l := PageTaken(d.l, head, run, d.base + start.after, n, d.cursor.None?))
  }

  function ItemsRead(b: Buffer, cursor: Option<string>, limit: nat, at: Time): seq<Item>
    requires ReadPage(b, cursor, limit, false, at).Ok?
  {
    ItemsIn(Ordered(ReadPage(b, cursor, limit, false, at).value))
  }

  lemma {:induction false} HeadThenRun(declared: Option<GapReason>, at: Time, served: seq<Numbered>)
    ensures ItemsIn(Synthetic(declared, at) + served) == Head(declared, at) + ItemsIn(served)
  {
  }

  /** What the intake sees of a page is the declared gap, if any, and the run behind it. */
  lemma {:induction false} PageIsHeadAndRun(b: Buffer, cursor: Option<string>, limit: nat, at: Time)
    requires ReadPage(b, cursor, limit, false, at).Ok?
    ensures var start := Streams.StartOf(b, cursor, false).value;
            ItemsRead(b, cursor, limit, at) == Head(start.declared, at) + RunOf(b, start, limit)
  {
    PagingIsLossless(b, cursor, limit, false, at);
    var start := Streams.StartOf(b, cursor, false).value;
    HeadThenRun(start.declared, at, Served(b, start, limit));
    hide ReadPage, Ordered, Streams.StartOf, Served, Synthetic, Head;
  }

  function Next(rules: Alerts.Rules, d: Delivery, move: Move): Delivery {
    match move
    case Puts(step) =>
      var alerts := Alerts.NextAlerts(rules, d.alerts, step);
      d.(alerts := alerts, now := AtOf(step),
         l := Grown(d.l, PutBy(rules, d.alerts, step), d.base + alerts.b.First() - 1))
    case ConnectorRestarts(epoch, maxLen) =>
      d.(alerts := Alerts.Begun(epoch, maxLen), epochs := d.epochs + {epoch}, base := |d.l.all|,
         l := d.l.(first := |d.l.all|))
    case IntakeRestarts => d.(cursor := None)
    case Reads(limit, at, applied) => ReadBy(d, limit, at, applied)
    case Loses(now, error) => d.(l := d.l.(history := d.l.history + [Lost(now, error)]))
  }

  predicate AfterPolls(all: seq<Item>, at: Time) {
    forall g :: 0 <= g < |all| && all[g].Heartbeat? ==> all[g].completedAt < at
  }

  /** The connector's clock does not go back, no two polls complete at the same instant, and an epoch is used once. */
  predicate CanMove(d: Delivery, move: Move) {
    match move
    case Puts(step) => d.now <= AtOf(step) && (!step.Delivers? ==> AfterPolls(d.l.all, AtOf(step)))
    case ConnectorRestarts(epoch, _) => epoch != "" && epoch !in d.epochs
    case Reads(_, at, _) => d.now <= at
    case _ => true
  }

  // ---- what every run keeps -------------------------------------------------------------------

  /** Put in the order of the times it carries, no two polls at one instant, and no gap put that only a read
      declares. */
  predicate PutInOrder(all: seq<Item>) {
    && (forall g, h :: 0 <= g < h < |all| ==> TimeOf(all[g]) <= TimeOf(all[h]))
    && (forall g, h :: 0 <= g < h < |all| && all[g].Heartbeat? && all[h].Heartbeat? ==>
          all[g].completedAt < all[h].completedAt)
    && (forall g :: 0 <= g < |all| ==> !Declared(all[g]))
  }

  predicate NotAfter(all: seq<Item>, now: Time) {
    forall g :: 0 <= g < |all| ==> TimeOf(all[g]) <= now
  }

  predicate WasTaken(l: Ledger, g: nat) {
    g < |l.all| && Took(l.all[g]) in l.history
  }

  predicate LiesBehind(l: Ledger, item: Item) {
    exists g :: 0 <= g < l.done && g < |l.all| && l.all[g] == item
  }

  lemma {:induction false} GoodParts(d: Delivery)
    requires Good(d)
    ensures Sound(d.l) && NotAfter(d.l.all, d.now)
  {
  }

  lemma {:induction false} NotAfterLater(all: seq<Item>, now: Time, at: Time)
    requires now <= at
    ensures NotAfter(all, now) ==> NotAfter(all, at)
  {
  }

  /** Whatever is still buffered and lies behind the intake was taken, and whatever was taken lies behind it. */
  ghost predicate Sound(l: Ledger) {
    && l.done <= |l.all| && l.first <= |l.all|
    && PutInOrder(l.all) && AtLeastOnce(l.history)
    && (forall g :: l.first <= g < l.done ==> WasTaken(l, g))
    && (forall item :: Took(item) in l.history && !Declared(item) ==> LiesBehind(l, item))
  }

  predicate CursorFits(d: Delivery) {
    d.cursor.Some? ==>
      var c := ParseCursor(d.cursor.value);
      && c.Ok? && c.value.epoch in d.epochs
      && (c.value.epoch == d.alerts.b.epoch ==> d.base + c.value.position <= d.l.done)
  }

  ghost predicate Good(d: Delivery) {
    && Sound(d.l) && NotAfter(d.l.all, d.now) && CursorFits(d)
    && d.alerts.b.epoch in d.epochs && "" !in d.epochs
    && d.base <= |d.l.all| && d.l.all[d.base..] == d.alerts.b.log
    && d.l.first == d.base + d.alerts.b.First() - 1
  }

  lemma {:induction false} OneMoreArrives(history: seq<Fate>, fate: Fate)
    requires AtLeastOnce(history)
    requires fate.Took? && fate.item.Heartbeat? ==>
               fate in history
               || forall item :: Took(item) in history && !Declared(item) ==> TimeOf(item) <= fate.item.completedAt
    ensures AtLeastOnce(history + [fate])
  {
    var n := history + [fate];
    forall i | 0 <= i < |n| ensures Arrives(n, i) {
      if i < |history| {
        assert Arrives(history, i) && n[..i] == history[..i];
      } else {
        assert n[..i] == history;
        forall j | 0 <= j < i && n[j].Took? && !Declared(n[j].item)
          ensures Took(n[j].item) in history
        {
          assert history[j] == Took(n[j].item);
        }
      }
    }
  }

  lemma {:induction false} TakenAtArrives(l: Ledger, g: nat)
    requires Sound(l) && l.first <= g <= l.done && g < |l.all|
    ensures AtLeastOnce(TakenAt(l, g).history)
  {
    if g < l.done {
      assert WasTaken(l, g);
    } else {
      forall item | Took(item) in l.history && !Declared(item) ensures TimeOf(item) <= TimeOf(l.all[g]) {
        assert LiesBehind(l, item);
      }
    }
    OneMoreArrives(l.history, Took(l.all[g]));
  }

  lemma {:induction false} TakenAtIsSound(l: Ledger, g: nat)
    requires Sound(l) && l.first <= g <= l.done && g < |l.all|
    ensures Sound(TakenAt(l, g))
  {
    var n := TakenAt(l, g);
    TakenAtArrives(l, g);
    forall h | n.first <= h < n.done ensures WasTaken(n, h) {
      assert h < l.done ==> WasTaken(l, h);
    }
    forall item | Took(item) in n.history && !Declared(item) ensures LiesBehind(n, item) {
      if item != l.all[g] {
        assert LiesBehind(l, item);
      }
    }
  }

  lemma {:induction false} OneMoreIsSound(l: Ledger, fate: Fate, upto: nat)
    requires Sound(l) && (fate.Took? ==> Declared(fate.item)) && upto <= Max(l.first, l.done)
    ensures Sound(l.(done := Max(l.done, upto), history := l.history + [fate]))
  {
    var n := l.(done := Max(l.done, upto), history := l.history + [fate]);
    OneMoreArrives(l.history, fate);
    forall h | n.first <= h < n.done ensures WasTaken(n, h) {
      assert WasTaken(l, h);
    }
    forall item | Took(item) in n.history && !Declared(item) ensures LiesBehind(n, item) {
      assert LiesBehind(l, item);
    }
  }

  lemma {:induction false} SkippedIsSound(l: Ledger, upto: nat)
    requires Sound(l) && upto <= Max(l.first, l.done)
    ensures Sound(Skipped(l, upto))
  {
    var n := Skipped(l, upto);
    forall h | n.first <= h < n.done ensures WasTaken(n, h) {
      assert WasTaken(l, h);
    }
    forall item | Took(item) in n.history && !Declared(item) ensures LiesBehind(n, item) {
      assert LiesBehind(l, item);
    }
  }

  lemma {:induction false} RunTakenIsSound(l: Ledger, from: nat, n: nat)
    requires Sound(l) && l.first <= from <= l.done && from + n <= |l.all|
    ensures Sound(RunTaken(l, from, n))
  {
    hide Sound;
    var i, r := 0, l;
    while i < n
      invariant 0 <= i <= n && r == RunTaken(l, from, i) && Sound(r)
    {
      TakenAtIsSound(r, from + i);
      i, r := i + 1, TakenAt(r, from + i);
    }
  }

  lemma {:induction false} RunTakenHistory(l: Ledger, from: nat, n: nat)
    requires from + n <= |l.all|
    ensures RunTaken(l, from, n).history == l.history + TookAll(l.all[from..from + n])
  {
    hide TookAll;
    if n > 0 {
      RunTakenHistory(l, from, n - 1);
      TookOneMore(l.history, l.all, from, n);
    } else {
      TookNone(l.history, l.all, from);
    }
  }

  lemma {:induction false} TookNone(history: seq<Fate>, all: seq<Item>, from: nat)
    requires from <= |all|
    ensures history + TookAll(all[from..from]) == history
  {
  }

  lemma {:induction false} TookOneMore(history: seq<Fate>, all: seq<Item>, from: nat, n: nat)
    requires n > 0 && from + n <= |all|
    ensures history + TookAll(all[from..from + n])
         == history + TookAll(all[from..from + n - 1]) + [Took(all[from + n - 1])]
  {
    hide TookAll;
    assert all[from..from + n] == all[from..from + n - 1] + [all[from + n - 1]];
    TookLast(all[from..from + n - 1], all[from + n - 1]);
  }

  lemma {:induction false} TookLast(items: seq<Item>, item: Item)
    ensures TookAll(items + [item]) == TookAll(items) + [Took(item)]
  {
    var n, took := items + [item], TookAll(items) + [Took(item)];
    assert forall i :: 0 <= i < |n| ==> TookAll(n)[i] == took[i];
  }

  lemma {:induction false} FrontOfSlice(all: seq<Item>, run: seq<Item>, from: nat, n: nat)
    requires n <= |run| && from + |run| <= |all| && run == all[from..from + |run|]
    ensures all[from..from + n] == run[..n] == ([] + run)[..n]
  {
    assert forall i :: 0 <= i < n ==> all[from..from + n][i] == run[i];
    assert [] + run == run;
  }

  // ---- one page, as so many items taken -------------------------------------------------------

  lemma {:induction false} BlindPage(l: Ledger, run: seq<Item>, from: nat, n: nat)
    requires n <= |run| && from + |run| <= |l.all| && run == l.all[from..from + |run|]
    ensures PageTaken(l, [], run, from, n, true) == RunTaken(Skipped(l, from), from, n)
  {
    RunTakenHistory(Skipped(l, from), from, n);
    FrontOfSlice(l.all, run, from, n);
  }

  lemma {:induction false} PlainPage(l: Ledger, run: seq<Item>, from: nat, n: nat)
    requires n <= |run| && from + |run| <= |l.all| && run == l.all[from..from + |run|]
    ensures PageTaken(l, [], run, from, n, false) == RunTaken(l, from, n)
  {
    RunTakenHistory(l, from, n);
    FrontOfSlice(l.all, run, from, n);
  }

  lemma {:induction false} TookFirst(item: Item, items: seq<Item>)
    ensures TookAll([item] + items) == [Took(item)] + TookAll(items)
  {
  }

  lemma {:induction false} DeclaredFirst(history: seq<Fate>, gap: Item, run: seq<Item>, n: nat)
    requires 1 <= n <= 1 + |run|
    ensures history + TookAll(([gap] + run)[..n]) == history + [Took(gap)] + TookAll(run[..n - 1])
  {
    assert ([gap] + run)[..n] == [gap] + run[..n - 1];
    TookFirst(gap, run[..n - 1]);
    hide TookAll;
  }

  lemma {:induction false} DeclaringPage(l: Ledger, gap: Item, run: seq<Item>, from: nat, n: nat)
    requires 1 <= n <= 1 + |run| && from + |run| <= |l.all| && run == l.all[from..from + |run|]
    ensures PageTaken(l, [gap], run, from, n, false) == RunTaken(ToldOf(l, gap, from), from, n - 1)
  {
    hide TookAll, RunTaken;
    RunTakenHistory(ToldOf(l, gap, from), from, n - 1);
    FrontOfSlice(l.all, run, from, n - 1);
    DeclaredFirst(l.history, gap, run, n);
  }

  /** A page as the buffer serves it: its run is what was put from there on, and it starts behind the intake unless it
      declares a gap or is read without a cursor. */
  predicate PageFits(l: Ledger, declared: Option<GapReason>, at: Time, run: seq<Item>, from: nat, blind: bool) {
    && from + |run| <= |l.all| && run == l.all[from..from + |run|] && l.first <= from
    && from <= (if blind || declared.Some? then Max(l.first, l.done) else l.done)
    && (declared.Some? ==> Declared(Gap(at, declared.value, None, None)))
    && (blind ==> declared.None?)
  }

  lemma {:induction false} PageTakenIsSound(l: Ledger, declared: Option<GapReason>, at: Time, run: seq<Item>, from: nat,
                                            n: nat, blind: bool)
    requires Sound(l) && PageFits(l, declared, at, run, from, blind) && n <= |Head(declared, at)| + |run|
    ensures Sound(PageTaken(l, Head(declared, at), run, from, n, blind))
  {
    hide Sound;
    var head := Head(declared, at);
    if blind {
      SkippedIsSound(l, from);
      BlindPage(l, run, from, n);
      RunTakenIsSound(Skipped(l, from), from, n);
    } else if head == [] {
      PlainPage(l, run, from, n);
      RunTakenIsSound(l, from, n);
    } else if n > 0 {
      OneMoreIsSound(l, Took(head[0]), from);
      DeclaringPage(l, head[0], run, from, n);
      RunTakenIsSound(ToldOf(l, head[0], from), from, n - 1);
    } else {
      NothingTaken(l, head, run, from);
    }
  }

  lemma {:induction false} NothingTaken(l: Ledger, head: seq<Item>, run: seq<Item>, from: nat)
    ensures PageTaken(l, head, run, from, 0, false) == l
  {
    assert l.history + TookAll([]) == l.history && (head + run)[..0] == [];
  }

  // ---- every move keeps it --------------------------------------------------------------------

  predicate AllAt(items: seq<Item>, at: Time) {
    forall i :: 0 <= i < |items| ==> TimeOf(items[i]) == at && !Declared(items[i]) && !items[i].Heartbeat?
  }

  lemma {:induction false} EndsAreAt(rules: Alerts.Rules, known: seq<Alert>, current: seq<Alert>, at: Time)
    ensures AllAt(Alerts.Ends(rules, known, current, at), at)
  {
    if known != [] {
      EndsAreAt(rules, known[..|known| - 1], current, at);
    }
  }

  lemma {:induction false} StartsAreAt(known: seq<Alert>, kept: seq<Alert>, at: Time)
    ensures AllAt(Alerts.Starts(known, kept, at), at)
  {
    if kept != [] {
      StartsAreAt(known, kept[..|kept| - 1], at);
    }
  }

  lemma {:induction false} DeliveredAreAt(alerts: seq<Alert>, at: Time)
    ensures AllAt(Alerts.Delivered(alerts, at), at)
  {
    if alerts != [] {
      DeliveredAreAt(alerts[..|alerts| - 1], at);
    }
  }

  /** Everything put by one step carries its time, with no gap only a read declares and at most one heartbeat. */
  lemma {:induction false} PutAreAt(rules: Alerts.Rules, s: Alerts.AlertState, step: Alerts.AlertStep)
    ensures var items := PutBy(rules, s, step);
            && (forall i :: 0 <= i < |items| ==> TimeOf(items[i]) == AtOf(step) && !Declared(items[i]))
            && (forall i, j :: 0 <= i < j < |items| ==> !(items[i].Heartbeat? && items[j].Heartbeat?))
            && (step.Delivers? ==> forall i :: 0 <= i < |items| ==> !items[i].Heartbeat?)
  {
    match step {
      case Polls(raws, attempted, at) =>
        EndsAreAt(rules, s.known, Alerts.CurrentOf(raws), at);
        StartsAreAt(s.known, Alerts.AdmittedOf(rules, s.admitted, Alerts.CurrentOf(raws), at), at);
      case PollFails(attempted, at, error) =>
      case Delivers(alerts, at) => DeliveredAreAt(Alerts.AdmittedOf(rules, s.admitted, alerts, at), at);
    }
  }

  lemma {:induction false} PutStaysInOrder(all: seq<Item>, items: seq<Item>, now: Time, at: Time)
    requires PutInOrder(all) && NotAfter(all, now) && now <= at
    requires forall i :: 0 <= i < |items| ==> TimeOf(items[i]) == at && !Declared(items[i])
    requires forall i, j :: 0 <= i < j < |items| ==> !(items[i].Heartbeat? && items[j].Heartbeat?)
    requires AfterPolls(all, at) || forall i :: 0 <= i < |items| ==> !items[i].Heartbeat?
    ensures PutInOrder(all + items) && NotAfter(all + items, at)
  {
    var n := all + items;
    forall g, h | 0 <= g < h < |n|
      ensures TimeOf(n[g]) <= TimeOf(n[h])
      ensures n[g].Heartbeat? && n[h].Heartbeat? ==> n[g].completedAt < n[h].completedAt
    {
      if g < |all| {
        assert n[g] == all[g];
        if h < |all| {
          assert n[h] == all[h];
        } else {
          assert n[h] == items[h - |all|];
        }
      } else {
        assert n[g] == items[g - |all|] && n[h] == items[h - |all|];
      }
    }
  }

  lemma {:induction false} GrownIsSound(l: Ledger, items: seq<Item>, first: nat)
    requires Sound(l) && PutInOrder(l.all + items) && l.first <= first <= |l.all| + |items|
    ensures Sound(Grown(l, items, first))
  {
    var n := Grown(l, items, first);
    forall h | n.first <= h < n.done ensures WasTaken(n, h) {
      assert WasTaken(l, h);
    }
    forall item | Took(item) in n.history && !Declared(item) ensures LiesBehind(n, item) {
      assert LiesBehind(l, item);
      var g :| 0 <= g < l.done && g < |l.all| && l.all[g] == item;
      assert n.all[g] == item;
    }
  }

  lemma {:induction false} PutIsAppended(rules: Alerts.Rules, d: Delivery, step: Alerts.AlertStep)
    ensures Next(rules, d, Puts(step)).alerts.b == d.alerts.b.Append(PutBy(rules, d.alerts, step))
  {
  }

  lemma {:induction false} PutKeepsCursor(rules: Alerts.Rules, d: Delivery, step: Alerts.AlertStep)
    requires CursorFits(d)
    ensures CursorFits(Next(rules, d, Puts(step)))
  {
    hide ParseCursor;
    PutIsAppended(rules, d, step);
  }

  lemma {:induction false} PutsAreGood(rules: Alerts.Rules, d: Delivery, step: Alerts.AlertStep)
    requires Good(d) && CanMove(d, Puts(step))
    ensures Good(Next(rules, d, Puts(step)))
  {
    hide Sound, CursorFits, PutBy, Alerts.PollItems, Alerts.FailureItems;
    var items, n := PutBy(rules, d.alerts, step), Next(rules, d, Puts(step));
    PutAreAt(rules, d.alerts, step);
    SoundParts(d.l);
    PutStaysInOrder(d.l.all, items, d.now, AtOf(step));
    PutIsAppended(rules, d, step);
    PutKeepsCursor(rules, d, step);
    GrownIsSound(d.l, items, n.l.first);
    assert n.l.all[n.base..] == d.alerts.b.log + items;
  }

  lemma {:induction false} SoundParts(l: Ledger)
    requires Sound(l)
    ensures l.done <= |l.all| && l.first <= |l.all| && PutInOrder(l.all) && AtLeastOnce(l.history)
  {
  }

  lemma {:induction false} RestartsAreGood(rules: Alerts.Rules, d: Delivery, epoch: string, maxLen: nat)
    requires Good(d) && CanMove(d, ConnectorRestarts(epoch, maxLen))
    ensures Good(Next(rules, d, ConnectorRestarts(epoch, maxLen)))
  {
    hide Sound;
    SoundParts(d.l);
    GrownIsSound(d.l, [], |d.l.all|);
    assert d.l.all + [] == d.l.all;
  }

  lemma {:induction false} RunOfLog(b: Buffer, start: Start, limit: nat)
    requires start.after <= |b.log|
    ensures var run := RunOf(b, start, limit);
            start.after + |run| <= |b.log| && run == b.log[start.after..start.after + |run|]
  {
  }

  lemma {:induction false} SliceOfSlice(s: seq<Item>, base: nat, from: nat, n: nat)
    requires base + from + n <= |s|
    ensures s[base..][from..from + n] == s[base + from..base + from + n]
  {
  }

  lemma {:induction false} RunIsSlice(d: Delivery, start: Start, limit: nat)
    requires Good(d) && start.after <= |d.alerts.b.log|
    ensures var run, from := RunOf(d.alerts.b, start, limit), d.base + start.after;
            from + |run| <= |d.l.all| && run == d.l.all[from..from + |run|]
  {
    hide Sound, CursorFits, NotAfter, RunOf;
    RunOfLog(d.alerts.b, start, limit);
    SliceOfSlice(d.l.all, d.base, start.after, |RunOf(d.alerts.b, start, limit)|);
  }

  /** A read never fails, and starts behind the intake unless it declares a gap or has no cursor. */
  lemma {:induction false} StartIsBehind(d: Delivery)
    requires Good(d)
    ensures var r := Streams.StartOf(d.alerts.b, d.cursor, false);
            && r.Ok? && r.value.after <= |d.alerts.b.log| && d.l.first <= d.base + r.value.after
            && d.base + r.value.after <=
                 (if d.cursor.None? || r.value.declared.Some? then Max(d.l.first, d.l.done) else d.l.done)
            && (d.cursor.None? ==> r.value.declared.None?)
            && (r.value.declared.Some? ==> r.value.declared.value == ConnectorRestart
                                           || r.value.declared.value == BufferExpired)
  {
    SoundParts(d.l);
    assert |d.l.all| == d.base + |d.alerts.b.log|;
  }

  lemma {:induction false} PageKeepsLog(l: Ledger, head: seq<Item>, run: seq<Item>, from: nat, n: nat, blind: bool)
    requires n <= |head| + |run|
    ensures var p := PageTaken(l, head, run, from, n, blind);
            p.all == l.all && p.first == l.first && p.done >= l.done
  {
  }

  /** What a reading takes of a page, and where the page starts. */
  datatype Reading = Reading(declared: Option<GapReason>, run: seq<Item>, from: nat, n: nat, blind: bool)

  function ReadingOf(d: Delivery, limit: nat, at: Time, applied: nat): (r: Reading)
    requires Streams.StartOf(d.alerts.b, d.cursor, false).Ok?
    ensures r.n <= |Head(r.declared, at)| + |r.run|
  {
    var start := Streams.StartOf(d.alerts.b, d.cursor, false).value;
    var run := RunOf(d.alerts.b, start, limit);
    var whole := |Head(start.declared, at)| + |run|;
    Reading(start.declared, run, d.base + start.after, if applied < whole then applied else whole, d.cursor.None?)
  }

  lemma {:induction false} ReadTakesPage(d: Delivery, limit: nat, at: Time, applied: nat)
    requires Streams.StartOf(d.alerts.b, d.cursor, false).Ok?
    ensures var r := ReadingOf(d, limit, at, applied);
            ReadBy(d, limit, at, applied).l == PageTaken(d.l, Head(r.declared, at), r.run, r.from, r.n, r.blind)
  {
    hide PageTaken, Streams.StartOf, RunOf;
  }

  lemma {:induction false} ReadFits(d: Delivery, limit: nat, at: Time, applied: nat)
    requires Good(d)
    ensures Streams.StartOf(d.alerts.b, d.cursor, false).Ok?
    ensures var r := ReadingOf(d, limit, at, applied); PageFits(d.l, r.declared, at, r.run, r.from, r.blind)
  {
    hide Good, Sound, Streams.StartOf, RunOf, Head;
    StartIsBehind(d);
    RunIsSlice(d, Streams.StartOf(d.alerts.b, d.cursor, false).value, limit);
  }

  lemma {:induction false} ReadIsSound(d: Delivery, limit: nat, at: Time, applied: nat)
    requires Good(d)
    ensures var n := ReadBy(d, limit, at, applied);
            Sound(n.l) && n.l.all == d.l.all && n.l.first == d.l.first && n.l.done >= d.l.done
  {
    GoodParts(d);
    ReadFits(d, limit, at, applied);
    hide Good, Sound, NotAfter, ReadBy, PageFits, PageTaken, ReadingOf, Streams.StartOf;
    var r := ReadingOf(d, limit, at, applied);
    ReadTakesPage(d, limit, at, applied);
    PageTakenIsSound(d.l, r.declared, at, r.run, r.from, r.n, r.blind);
    PageKeepsLog(d.l, Head(r.declared, at), r.run, r.from, r.n, r.blind);
  }

  lemma {:induction false} ReadCursorFits(d: Delivery, limit: nat, at: Time, applied: nat)
    requires Good(d)
    ensures CursorFits(ReadBy(d, limit, at, applied))
  {
    hide Sound, NotAfter, ParseCursor, MakeCursor, Streams.StartOf, Served;
    StartIsBehind(d);
    var start := Streams.StartOf(d.alerts.b, d.cursor, false).value;
    CursorRoundTrip(d.alerts.b.epoch, start.after + |RunOf(d.alerts.b, start, limit)|);
  }

  lemma {:induction false} ReadsAreGood(d: Delivery, limit: nat, at: Time, applied: nat)
    requires Good(d) && d.now <= at
    ensures Good(ReadBy(d, limit, at, applied))
  {
    ReadIsSound(d, limit, at, applied);
    ReadCursorFits(d, limit, at, applied);
    var n := ReadBy(d, limit, at, applied);
    hide *;
    assert n.l.all == d.l.all;
    ReadKeepsRest(d, limit, at, applied);
    NowGood(d, n);
  }

  lemma {:induction false} ReadKeepsRest(d: Delivery, limit: nat, at: Time, applied: nat)
    ensures var n := ReadBy(d, limit, at, applied);
            n.alerts == d.alerts && n.epochs == d.epochs && n.base == d.base && n.now == at
  {
  }

  lemma {:induction false} NowGood(d: Delivery, n: Delivery)
    requires Good(d) && d.now <= n.now && Sound(n.l) && CursorFits(n) && n.l.all == d.l.all && n.l.first == d.l.first
    requires n.alerts == d.alerts && n.epochs == d.epochs && n.base == d.base
    ensures Good(n)
  {
    hide Sound, CursorFits;
  }

  lemma {:induction false} MoveIsGood(rules: Alerts.Rules, d: Delivery, move: Move)
    requires Good(d) && CanMove(d, move)
    ensures Good(Next(rules, d, move))
  {
    match move {
      case Puts(step) => PutsAreGood(rules, d, step);
      case ConnectorRestarts(epoch, maxLen) => RestartsAreGood(rules, d, epoch, maxLen);
      case IntakeRestarts =>
      case Reads(limit, at, applied) => ReadsAreGood(d, limit, at, applied);
      case Loses(now, error) => OneMoreIsSound(d.l, Lost(now, error), 0);
    }
  }

  // ---- runs -----------------------------------------------------------------------------------

  predicate Moves(rules: Alerts.Rules, states: seq<Delivery>, moves: seq<Move>, i: nat)
    requires i < |moves| && |states| == |moves| + 1
  {
    CanMove(states[i], moves[i]) && states[i + 1] == Next(rules, states[i], moves[i])
  }

  predicate IsDeliveryRun(rules: Alerts.Rules, states: seq<Delivery>, moves: seq<Move>) {
    && |states| == |moves| + 1
    && states[0] == Outset(states[0].alerts.b.epoch, states[0].alerts.b.maxLen) && states[0].alerts.b.epoch != ""
    && forall i :: 0 <= i < |moves| ==> Moves(rules, states, moves, i)
  }

  lemma {:induction false} RunIsGood(rules: Alerts.Rules, states: seq<Delivery>, moves: seq<Move>, n: nat)
    requires IsDeliveryRun(rules, states, moves) && n <= |moves|
    ensures Good(states[n])
  {
    if n > 0 {
      RunIsGood(rules, states, moves, n - 1);
      assert Moves(rules, states, moves, n - 1);
      MoveIsGood(rules, states[n - 1], moves[n - 1]);
    }
  }

  /** Over every run of both sides, what the intake took and is delivered again changes its coverage exactly when it
      holds a gap declared for a reading, later than anything recorded, while a segment is open; and with no end still
      to come announced, that is all that can change anything. */
  lemma {:induction false} RedeliveryChangesNothing(rules: Alerts.Rules, setup: Setup, states: seq<Delivery>,
                                                    moves: seq<Move>, n: nat, again: seq<Item>)
    requires IsDeliveryRun(rules, states, moves) && n <= |moves|
    requires forall item :: item in again ==> Took(item) in states[n].l.history
    ensures var s := RecordOf(setup, states[n].l.history);
            var harmless := forall item :: item in again && Declared(item) ==>
                              !After(s.coverage, item.at) || OpenIndex(s.coverage.segments).None?;
            && (TakeAll(setup, s, again).coverage == s.coverage <==> harmless)
            && ((forall item :: item in again ==> EndedWhenSeen(setup, item)) ==>
                  (TakeAll(setup, s, again) == s <==> harmless))
  {
    RunIsGood(rules, states, moves, n);
    OnlyDeclaredGapsReplay(setup, states[n].l.history, again);
    if forall item :: item in again ==> EndedWhenSeen(setup, item) {
      ReplayChangesNothing(setup, states[n].l.history, again);
    }
  }

  // ---- a page read again ----------------------------------------------------------------------

  /** A buffer read again from where it was read before, with more in it. */
  predicate SamePlace(b: Buffer, grown: Buffer, cursor: Option<string>) {
    && grown.epoch == b.epoch && b.log <= grown.log
    && Streams.StartOf(b, cursor, false).Ok?
    && Streams.StartOf(grown, cursor, false) == Streams.StartOf(b, cursor, false)
  }

  function RetryOf(b: Buffer, grown: Buffer, cursor: Option<string>, limit: nat, now: Time, later: Time): (r: Retry)
    requires SamePlace(b, grown, cursor)
  {
    var start := Streams.StartOf(b, cursor, false).value;
    var run, upto := RunOf(b, start, limit), RunOf(grown, start, limit);
    Retry(start.declared, run, if |run| <= |upto| then upto[|run|..] else [], now, later)
  }

  lemma {:induction false} RunExtends(b: Buffer, grown: Buffer, start: Start, limit: nat)
    requires b.log <= grown.log
    ensures RunOf(b, start, limit) <= RunOf(grown, start, limit)
    ensures Forward(grown.log) ==> Forward(RunOf(grown, start, limit))
  {
    hide RunOf, Forward;
    if start.after <= |b.log| {
      RunOfLog(b, start, limit);
      RunIsPrefix(b, grown, start, limit);
    } else {
      RunOfNothing(b, start, limit);
    }
    if start.after <= |grown.log| {
      RunOfLog(grown, start, limit);
      SliceIsForward(grown.log, start.after, start.after + |RunOf(grown, start, limit)|);
    } else {
      RunOfNothing(grown, start, limit);
      SliceIsForward(grown.log, 0, 0);
      assert grown.log[0..0] == [];
    }
  }

  lemma {:induction false} RunOfNothing(b: Buffer, start: Start, limit: nat)
    requires start.after >= |b.log|
    ensures RunOf(b, start, limit) == []
  {
  }

  lemma {:induction false} RunIsPrefix(b: Buffer, grown: Buffer, start: Start, limit: nat)
    requires b.log <= grown.log && start.after <= |b.log|
    ensures RunOf(b, start, limit) <= RunOf(grown, start, limit)
  {
    RunOfLog(b, start, limit);
    RunOfLog(grown, start, limit);
    assert |RunOf(b, start, limit)| <= |RunOf(grown, start, limit)|;
    hide RunOf;
  }

  lemma {:induction false} SliceIsForward(items: seq<Item>, from: nat, upto: nat)
    requires from <= upto <= |items|
    ensures Forward(items) ==> Forward(items[from..upto])
  {
  }

  lemma {:induction false} PrefixIsForward(run: seq<Item>, items: seq<Item>)
    requires run <= items && Forward(items)
    ensures Forward(run)
  {
  }

  lemma {:induction false} ReadsAtStart(b: Buffer, cursor: Option<string>, limit: nat, now: Time)
    ensures ReadPage(b, cursor, limit, false, now).Ok? <==> Streams.StartOf(b, cursor, false).Ok?
  {
  }

  lemma {:induction false} PrefixThenRest(run: seq<Item>, items: seq<Item>)
    requires run <= items
    ensures items == run + items[|run|..]
  {
  }

  lemma {:induction false} PagesAreRetry(b: Buffer, grown: Buffer, cursor: Option<string>, limit: nat, now: Time,
                                         later: Time)
    requires SamePlace(b, grown, cursor)
    ensures var r := RetryOf(b, grown, cursor, limit, now, later);
            && ItemsRead(b, cursor, limit, now) == r.First()
            && ItemsRead(grown, cursor, limit, now) == r.Whole()
            && ItemsRead(grown, cursor, limit, later) == r.Second()
            && (Forward(grown.log) ==> Forward(r.run))
  {
    hide ReadPage, ItemsRead, Streams.StartOf, RunOf, Head, Forward;
    var start := Streams.StartOf(b, cursor, false).value;
    ReadsAtStart(b, cursor, limit, now);
    ReadsAtStart(grown, cursor, limit, now);
    ReadsAtStart(grown, cursor, limit, later);
    PageIsHeadAndRun(b, cursor, limit, now);
    PageIsHeadAndRun(grown, cursor, limit, now);
    PageIsHeadAndRun(grown, cursor, limit, later);
    RunExtends(b, grown, start, limit);
    var run, upto := RunOf(b, start, limit), RunOf(grown, start, limit);
    PrefixThenRest(run, upto);
    if Forward(grown.log) {
      PrefixIsForward(run, upto);
    }
  }

  /** A page that failed after k items and is read again: no gap is declared, or the first attempt changed no coverage,
      or the gap declared again has nothing to close. */
  predicate HarmlessRetry(s: Coverage, half: Coverage, declared: Option<GapReason>, later: Time) {
    declared.None? || half == s || !After(half, later) || OpenIndex(half.segments).None?
  }

  /** A page read again after it failed part of the way leaves the coverage of one uninterrupted reading of it, made at
      either instant, exactly if it is harmless. */
  lemma {:induction false} RetriedPageCountsOnce(setup: Setup, s: Record, b: Buffer, grown: Buffer,
                                                 cursor: Option<string>, limit: nat, now: Time, later: Time, k: nat)
    requires True(s.coverage, setup.rule) && SamePlace(b, grown, cursor) && Forward(grown.log)
    requires k <= |ItemsRead(b, cursor, limit, now)|
    requires Earlier(RunOf(grown, Streams.StartOf(b, cursor, false).value, limit), later)
    ensures var half := TakeAll(setup, s, ItemsRead(b, cursor, limit, now)[..k]);
            var retried := TakeAll(setup, half, ItemsRead(grown, cursor, limit, later)).coverage;
            (retried == TakeAll(setup, s, ItemsRead(grown, cursor, limit, now)).coverage
             || retried == TakeAll(setup, s, ItemsRead(grown, cursor, limit, later)).coverage)
            <==> HarmlessRetry(s.coverage, half.coverage, Streams.StartOf(b, cursor, false).value.declared, later)
  {
    hide RunOf, ItemsRead, ReadPage, Streams.StartOf, Forward, TakeAll, True;
    var r := RetryOf(b, grown, cursor, limit, now, later);
    PagesAreRetry(b, grown, cursor, limit, now, later);
    RunExtends(b, grown, Streams.StartOf(b, cursor, false).value, limit);
    assert r.run + r.more == RunOf(grown, Streams.StartOf(b, cursor, false).value, limit);
    RetryCountsOnce(setup, s, r, k);
  }

  /** What a run leaves in the buffer is in the order pages need. */
  lemma {:induction false} DeliveredIsForward(rules: Alerts.Rules, states: seq<Delivery>, moves: seq<Move>, n: nat)
    requires IsDeliveryRun(rules, states, moves) && n <= |moves|
    ensures Forward(states[n].alerts.b.log)
  {
    RunIsGood(rules, states, moves, n);
    var d := states[n];
    SoundParts(d.l);
    forall i, j | 0 <= i < j < |d.alerts.b.log| && d.alerts.b.log[i].Gap? && d.alerts.b.log[j].Heartbeat?
      ensures d.alerts.b.log[i].at <= d.alerts.b.log[j].completedAt
    {
      assert d.alerts.b.log[i] == d.l.all[d.base + i] && d.alerts.b.log[j] == d.l.all[d.base + j];
    }
  }

  const FIFTY := Heartbeat(50, 50, true, Some(0), None)
  const SIXTY := Heartbeat(60, 60, true, Some(0), None)
  const RESTART := Gap(100, ConnectorRestart, None, None)

  lemma {:induction false} RestartPage()
    ensures var b := Buffer("new", 10, [FIFTY, SIXTY], None);
            var page := ReadPage(b, Some(MakeCursor("old", 7)), 1000, false, 100);
            page.Ok? && ItemsIn(Ordered(page.value)) == [RESTART, FIFTY, SIXTY]
  {
    var b := Buffer("new", 10, [FIFTY, SIXTY], None);
    var cursor := Some(MakeCursor("old", 7));
    CursorRoundTrip("old", 7);
    PageIsHeadAndRun(b, cursor, 1000, 100);
    assert Streams.StartOf(b, cursor, false) == Ok(Start(0, Some(ConnectorRestart)));
    assert RunOf(b, Start(0, Some(ConnectorRestart)), 1000) == [FIFTY, SIXTY];
  }

  lemma {:induction false} Thrice(setup: Setup, s: Record, a: Item, b: Item, c: Item)
    ensures TakeAll(setup, s, [a, b]) == Take(setup, Take(setup, s, a), b)
    ensures TakeAll(setup, s, [a, b, c]) == Take(setup, Take(setup, Take(setup, s, a), b), c)
  {
    TakeOne(setup, s, a);
    assert [a, b][..1] == [a];
    assert [a, b, c][..2] == [a, b];
  }

  /** Polls tolerated two intervals of 60 apart. */
  function ByMinute(normalize: Alert -> Option<Normal>): Setup {
    Setup(Tolerance(Cadence(60, 2)), normalize)
  }

  lemma {:induction false} FirstPoll(normalize: Alert -> Option<Normal>)
    ensures var setup, polls := ByMinute(normalize), [PollRow(Some(0), 50, 50, Active(0))];
            && Take(setup, EMPTY_RECORD, RESTART) == EMPTY_RECORD
            && Take(setup, EMPTY_RECORD, FIFTY).coverage == Coverage([Segment(50, 50, None, Open)], polls)
            && Latest(polls) == Some(50)
  {
    assert [PollRow(Some(0), 50, 50, Active(0))][..0] == [];
  }

  lemma {:induction false} SecondPoll(setup: Setup, s: Record)
    requires s.coverage.segments == [Segment(50, 50, None, Open)] && Latest(s.coverage.polls) == Some(50)
    requires setup.rule(50, 60)
    ensures Take(setup, s, SIXTY).coverage.segments == [Segment(50, 60, None, Open)]
  {
  }

  lemma {:induction false} GapAgain(setup: Setup, s: Record)
    requires s.coverage.segments == [Segment(50, 50, None, Open)] && Latest(s.coverage.polls) == Some(50)
    ensures var closed := Take(setup, s, RESTART);
            && closed.coverage.segments == [Segment(50, 50, Some(50), ClosedFailure)]
            && Take(setup, Take(setup, closed, FIFTY), SIXTY) == closed
  {
    LatestAfter(s.coverage.polls, PollRow(None, 100, 100, Failed(ReasonText(ConnectorRestart))));
  }

  /** After a restart of the connector, two polls at 50 and 60 wait behind the gap declared at 100. Read in one go, they
      are one segment; read again after failing behind the first, the gap closes what that opened and hides the
      second. */
  lemma {:induction false} RetryLosesCoverage(normalize: Alert -> Option<Normal>)
    ensures var setup := ByMinute(normalize);
            var page := ReadPage(Buffer("new", 10, [FIFTY, SIXTY], None), Some(MakeCursor("old", 7)), 1000, false, 100);
            && page.Ok? && ItemsIn(Ordered(page.value)) == [RESTART, FIFTY, SIXTY]
            && TakeAll(setup, EMPTY_RECORD, [RESTART, FIFTY, SIXTY]).coverage.segments == [Segment(50, 60, None, Open)]
            && TakeAll(setup, TakeAll(setup, EMPTY_RECORD, [RESTART, FIFTY]), [RESTART, FIFTY, SIXTY]).coverage.segments
               == [Segment(50, 50, Some(50), ClosedFailure)]
  {
    hide ReadPage, Take, TakeAll;
    var setup := ByMinute(normalize);
    RestartPage();
    Thrice(setup, EMPTY_RECORD, RESTART, FIFTY, SIXTY);
    FirstPoll(normalize);
    var half := TakeAll(setup, EMPTY_RECORD, [RESTART, FIFTY]);
    assert setup.rule(50, 60) by {
      assert Continues(Cadence(60, 2), 50, 60);
    }
    SecondPoll(setup, half);
    Thrice(setup, half, RESTART, FIFTY, SIXTY);
    GapAgain(setup, half);
  }
}
