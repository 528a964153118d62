/** The bounded, sequenced, epoch-scoped buffer a stream is served from. */
module Streams {
  import opened Text
  import opened Wire

  /** A buffer as the whole history of its epoch: the deque is the log's last `maxLen` items, and the item numbered
      n is `log[n - 1]`. */
  datatype Buffer = Buffer(epoch: string, maxLen: nat, log: seq<Item>, baseline: Option<nat>) {
    function First(): (n: nat)
      ensures 1 <= n <= |log| + 1
    {
      if |log| <= maxLen then 1 else |log| - maxLen + 1
    }

    predicate HasBaseline() {
      baseline.Some? && First() <= baseline.value
    }

    predicate BaselineInLog() {
      baseline.Some? ==> 1 <= baseline.value <= |log|
    }

    function Append(items: seq<Item>): Buffer {
      this.(log := log + items)
    }
  }

  function Fresh(epoch: string, maxLen: nat): Buffer {
    Buffer(epoch, maxLen, [], None)
  }

  /** The items numbered after+1 up to upto. */
  function Run(log: seq<Item>, after: nat, upto: nat): (run: seq<Numbered>)
    requires after <= upto <= |log|
    ensures |run| == upto - after
    ensures forall i :: 0 <= i < |run| ==> run[i] == Numbered(after + 1 + i, log[after + i])
  {
    seq(upto - after, i requires 0 <= i < upto - after => Numbered(after + 1 + i, log[after + i]))
  }

  lemma {:induction false} RunGrows(log: seq<Item>, after: nat, item: Item)
    requires after <= |log|
    ensures Run(log + [item], after, |log| + 1) == Run(log, after, |log|) + [Numbered(|log| + 1, item)]
  {
  }

  lemma {:induction false} RunShrinks(log: seq<Item>, after: nat)
    requires after < |log|
    ensures Run(log, after, |log|)[1..] == Run(log, after + 1, |log|)
  {
  }

  function ItemsOf(run: seq<Numbered>): seq<Numbered> {
    if run == [] then []
    else ItemsOf(run[..|run| - 1]) + if run[|run| - 1].item.Gap? then [] else [run[|run| - 1]]
  }

  function GapsOf(run: seq<Numbered>): seq<Numbered> {
    if run == [] then []
    else GapsOf(run[..|run| - 1]) + if run[|run| - 1].item.Gap? then [run[|run| - 1]] else []
  }

  /** Where a read starts, and the gap it has to declare. */
  datatype Start = Start(after: nat, declared: Option<GapReason>)

  function StartOf(b: Buffer, cursor: Option<string>, needsBaseline: bool): (r: Result<Start, ReadError>)
    ensures r.Ok? ==> b.First() <= r.value.after + 1
    ensures r.Ok? && r.value.declared.Some? && needsBaseline ==>
              b.HasBaseline() && r.value.after == b.baseline.value - 1
  {
    var parsed := if cursor.None? then Ok(Cursor(b.epoch, 0)) else ParseCursor(cursor.value);
    if parsed.Err? then Err(parsed.error) else
    var Cursor(epoch, position) := parsed.value;
    var declared := if cursor.None? then None
                    else if epoch != b.epoch then Some(ConnectorRestart)
                    else if position + 1 < b.First() then Some(BufferExpired) else None;
    if cursor.Some? && declared.None? then Ok(Start(position, None))
    else if !needsBaseline then Ok(Start(b.First() - 1, declared))
    else if b.HasBaseline() then Ok(Start(b.baseline.value - 1, declared))
    else Err(NoBaseline)
  }

  function Synthetic(declared: Option<GapReason>, now: Time): seq<Numbered> {
    if declared.None? then [] else [Numbered(0, Gap(now, declared.value, None, None))]
  }

  /** The run of buffered items one read serves. */
  function Served(b: Buffer, start: Start, limit: nat): (run: seq<Numbered>)
    ensures |run| <= limit
  {
    var upto := if start.after + limit < |b.log| then start.after + limit else |b.log|;
    if upto <= start.after then [] else Run(b.log, start.after, upto)
  }

  /** The served run split into items and gaps, and the cursor of its last item. */
  function PageFrom(b: Buffer, start: Start, limit: nat, now: Time): Page {
    var served := Served(b, start, limit);
    Page(b.epoch, MakeCursor(b.epoch, start.after + |served|), ItemsOf(served),
         Synthetic(start.declared, now) + GapsOf(served))
  }

  function ReadPage(b: Buffer, cursor: Option<string>, limit: nat, needsBaseline: bool, now: Time)
    : Result<Page, ReadError>
  {
    var start := StartOf(b, cursor, needsBaseline);
    if start.Err? then Err(start.error) else Ok(PageFrom(b, start.value, limit, now))
  }

  lemma {:induction false} AppendTwice(b: Buffer, first: seq<Item>, second: seq<Item>)
    ensures b.Append(first).Append(second) == b.Append(first + second)
  {
    assert b.log + first + second == b.log + (first + second);
  }

  lemma {:induction false} AppendThree(b: Buffer, first: seq<Item>, second: seq<Item>, third: seq<Item>)
    ensures b.Append(first).Append(second).Append(third) == b.Append(first + second + third)
  {
    AppendTwice(b, first, second);
    AppendTwice(b, first + second, third);
  }

  lemma {:induction false} AppendFour(b: Buffer, first: seq<Item>, second: seq<Item>, third: seq<Item>,
                                      fourth: seq<Item>)
    ensures b.Append(first).Append(second).Append(third).Append(fourth) == b.Append(first + second + third + fourth)
  {
    AppendThree(b, first, second, third);
    AppendTwice(b, first + second + third, fourth);
  }

  lemma {:induction false} AppendNothing(b: Buffer)
    ensures b.Append([]) == b
  {
    assert b.log + [] == b.log;
  }

  class StreamBuffer {
    const epoch: string
    const maxLen: nat
    var items: seq<Numbered>
    var next: nat
    var baselineSeq: Option<nat>
    ghost var log: seq<Item>

    ghost predicate Valid()
      reads this
    {
      && next == |log| + 1
      && items == Run(log, Contents().First() - 1, |log|)
    }

    ghost function Contents(): Buffer
      reads this
    {
      Buffer(epoch, maxLen, log, baselineSeq)
    }

    constructor (epoch: string, maxLen: nat)
      ensures Valid() && Contents() == Fresh(epoch, maxLen)
    {
      this.epoch, this.maxLen := epoch, maxLen;
      items, next, baselineSeq, log := [], 1, None, [];
    }

    /** Number an item, store it, and evict from the front until the buffer fits. */
    method Append(item: Item) returns (seqNo: nat)
      requires Valid()
      modifies this
      ensures Valid()
      ensures Contents() == old(Contents()).Append([item])
      ensures seqNo == |log|
    {
      hide Run;
      RunGrows(log, Contents().First() - 1, item);
      seqNo := next;
      next := next + 1;
      items := items + [Numbered(seqNo, item)];
      log := log + [item];
      while |items| > maxLen
        modifies `items
        invariant |items| >= if |log| <= maxLen then |log| else maxLen
        invariant |items| <= |log|
        invariant items == Run(log, |log| - |items|, |log|)
      {
        RunShrinks(log, |log| - |items|);
        items := items[1..];
      }
    }

    method FirstSeq() returns (first: nat)
      requires Valid()
      ensures first == Contents().First()
    {
      first := if items != [] then items[0].seqNo else next;
    }

    method HasBaseline() returns (has: bool)
      requires Valid()
      ensures has == Contents().HasBaseline()
    {
      var first := FirstSeq();
      has := baselineSeq.Some? && baselineSeq.value >= first;
    }

    method MarkBaseline(seqNo: nat)
      requires Valid()
      modifies this`baselineSeq
      ensures Valid() && Contents() == old(Contents()).(baseline := Some(seqNo))
    {
      baselineSeq := Some(seqNo);
    }

    /** Where a reader resumes: after its cursor, or, when the buffer can no longer prove that position, from the latest
        snapshot (or the oldest buffered item) under a declared gap. */
    method Locate(cursor: Option<string>, needsBaseline: bool) returns (r: Result<Start, ReadError>)
      requires Valid()
      ensures r == StartOf(Contents(), cursor, needsBaseline)
    {
      var first := FirstSeq();
      var declared := None;
      var startAfter: int := -1;
      if cursor.Some? {
        var parsed := ParseCursor(cursor.value);
        if parsed.Err? {
          return Err(parsed.error);
        }
        if parsed.value.epoch != epoch {
          declared := Some(ConnectorRestart);
        } else if parsed.value.position < first - 1 {
          declared := Some(BufferExpired);
        } else {
          startAfter := parsed.value.position;
        }
      }
      if startAfter == -1 {
        if needsBaseline {
          if baselineSeq.None? || baselineSeq.value < first {
            return Err(NoBaseline);
          }
          startAfter := baselineSeq.value - 1;
        } else {
          startAfter := first - 1;
        }
      }
      r := Ok(Start(startAfter, declared));
    }

    /** One page: items after the cursor, the next cursor, and any gap the buffer must declare. */
    method Read(cursor: Option<string>, limit: nat, needsBaseline: bool, now: Time)
      returns (r: Result<Page, ReadError>)
      requires Valid()
      ensures r == ReadPage(Contents(), cursor, limit, needsBaseline, now)
    {
      var start := Locate(cursor, needsBaseline);
      if start.Err? {
        return Err(start.error);
      }
      var page := Assemble(start.value, cursor.Some?, limit, now);
      r := Ok(page);
    }

    method Assemble(start: Start, resumed: bool, limit: nat, now: Time) returns (page: Page)
      requires Valid() && Contents().First() <= start.after + 1
      ensures page == PageFrom(Contents(), start, limit, now)
    {
      var first := FirstSeq();
      var gaps := if start.declared.Some? then [Numbered(0, Gap(now, start.declared.value, None, None))] else [];
      var served := Serve(start, limit);
      var nextSeq := if served != [] then served[|served| - 1].seqNo
                     else if start.after > first - 1 then start.after else first - 1;
      if served == [] && resumed && start.declared.None? {
        nextSeq := start.after;
      }
      var kept, buffered := Split(served);
      page := Page(epoch, MakeCursor(epoch, nextSeq), kept, gaps + buffered);
    }

    static method Split(served: seq<Numbered>) returns (kept: seq<Numbered>, declared: seq<Numbered>)
      ensures kept == ItemsOf(served) && declared == GapsOf(served)
    {
      kept, declared := [], [];
      for i := 0 to |served|
        invariant kept == ItemsOf(served[..i]) && declared == GapsOf(served[..i])
      {
        assert served[..i + 1][..i] == served[..i];
        if served[i].item.Gap? {
          declared := declared + [served[i]];
        } else {
          kept := kept + [served[i]];
        }
      }
      assert served[..|served|] == served;
    }

    /** The first `limit` buffered items numbered above where the read starts. */
    method Serve(start: Start, limit: nat) returns (served: seq<Numbered>)
      requires Valid() && Contents().First() <= start.after + 1
      ensures served == Served(Contents(), start, limit)
    {
      served := [];
      for i := 0 to |items|
        invariant |served| <= limit
        invariant served == Served(Buffer(epoch, maxLen, log[..Contents().First() - 1 + i], None), start, limit)
      {
        if items[i].seqNo > start.after && |served| < limit {
          served := served + [items[i]];
        }
      }
      assert log[..|log|] == log;
    }
  }

  /** Reading a page never depends on what was evicted beyond the first number kept: after a declared expiry the served
      run starts at the snapshot, after a position still covered it starts at the very next item. */
  lemma {:induction false} ReadIsContiguousOrDeclared(b: Buffer, position: nat, limit: nat, now: Time)
    requires b.epoch != "" && b.BaselineInLog() && limit > 0
    ensures var start := StartOf(b, Some(MakeCursor(b.epoch, position)), true);
            && (start.Err? <==> position + 1 < b.First() && !b.HasBaseline())
            && (start.Ok? && start.value.declared.None? ==> start.value.after == position)
            && (start.Ok? && start.value.declared.Some? ==>
                  && start.value.declared == Some(BufferExpired)
                  && position < start.value.after < |b.log|
                  && Served(b, start.value, limit) != []
                  && b.baseline == Some(start.value.after + 1))
  {
    CursorRoundTrip(b.epoch, position);
  }

  /** Without the need of a snapshot, as on the alert stream, every read starts: after the cursor if that is covered,
      else at the oldest item buffered, declaring the expiry or the restart if there was a cursor. */
  lemma {:induction false} ReadStartsAtOldest(b: Buffer, epoch: string, position: nat)
    requires epoch != ""
    ensures var oldest := if |b.log| <= b.maxLen then 0 else |b.log| - b.maxLen;
            && StartOf(b, None, false) == Ok(Start(oldest, None))
            && StartOf(b, Some(MakeCursor(epoch, position)), false) ==
               Ok(if epoch != b.epoch then Start(oldest, Some(ConnectorRestart))
                  else if position < oldest then Start(oldest, Some(BufferExpired)) else Start(position, None))
  {
    CursorRoundTrip(epoch, position);
  }
}
