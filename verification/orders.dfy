/** Sorted order: strings by their characters, scopes by namespace and then kind, and the elements of a set in it. */
module Orders {
  import opened Wire

  type Order<!T> = (T, T) -> bool

  predicate LessText(a: string, b: string) {
    b != "" && (a == "" || a[0] < b[0] || (a[0] == b[0] && LessText(a[1..], b[1..])))
  }

  predicate LessScope(a: Scope, b: Scope) {
    LessText(a.namespace, b.namespace) || (a.namespace == b.namespace && LessText(a.kind, b.kind))
  }

  ghost predicate StrictlyTotal<T(!new)>(less: Order<T>) {
    && (forall a :: !less(a, a))
    && (forall a, b :: a == b || less(a, b) || less(b, a))
    && (forall a, b, c :: less(a, b) && less(b, c) ==> less(a, c))
  }

  predicate Increasing<T>(less: Order<T>, order: seq<T>) {
    forall i, j :: 0 <= i < j < |order| ==> less(order[i], order[j])
  }

  /** The elements of a set, each once, from the least on. */
  predicate Ascending<T(==)>(less: Order<T>, order: seq<T>, elements: set<T>) {
    Increasing(less, order) && (set x | x in order) == elements
  }

  lemma {:induction false} TextIsConnected(a: string, b: string)
    ensures !LessText(a, a) && (a == b || LessText(a, b) || LessText(b, a))
  {
    if a != "" {
      TextIsConnected(a[1..], if b == "" then b else b[1..]);
      if b != "" && a[0] == b[0] && a[1..] == b[1..] {
        assert a == [a[0]] + a[1..] && b == [b[0]] + b[1..];
      }
    }
  }

  lemma {:induction false} LessDiffers(a: string, b: string)
    requires LessText(a, b)
    ensures || (|a| < |b| && a == b[..|a|])
            || exists i: nat :: i < |a| && i < |b| && a[..i] == b[..i] && a[i] < b[i]
  {
    if a != "" && a[0] == b[0] {
      LessDiffers(a[1..], b[1..]);
      assert a == [a[0]] + a[1..] && b == [b[0]] + b[1..];
      if |a| >= |b| || a[1..] != b[1..][..|a| - 1] {
        var i: nat :| i < |a| - 1 && i < |b| - 1 && a[1..][..i] == b[1..][..i] && a[1..][i] < b[1..][i];
        assert a[..i + 1] == [a[0]] + a[1..][..i] && b[..i + 1] == [b[0]] + b[1..][..i];
        assert a[i + 1] < b[i + 1];
      } else {
        assert b[..|a|] == [b[0]] + b[1..][..|a| - 1];
      }
    } else if a != "" {
      assert a[..0] == b[..0];
    }
  }

  lemma {:induction false} DifferenceDecides(a: string, b: string, i: nat)
    requires i <= |a| && i <= |b| && a[..i] == b[..i]
    requires if i == |a| then i < |b| else i < |b| && a[i] < b[i]
    ensures LessText(a, b)
  {
    if i > 0 {
      assert a[..i][0] == b[..i][0];
      assert a[1..][..i - 1] == a[..i][1..] && b[1..][..i - 1] == b[..i][1..];
      DifferenceDecides(a[1..], b[1..], i - 1);
    }
  }

  /** The first place at which two strings differ decides, and a string stands before what continues it. */
  lemma {:induction false} TextIsByFirstDifference(a: string, b: string)
    ensures LessText(a, b)
       <==> || (|a| < |b| && a == b[..|a|])
            || exists i: nat :: i < |a| && i < |b| && a[..i] == b[..i] && a[i] < b[i]
  {
    if LessText(a, b) {
      LessDiffers(a, b);
    }
    if |a| < |b| && a == b[..|a|] {
      DifferenceDecides(a, b, |a|);
    }
    forall i: nat | i < |a| && i < |b| && a[..i] == b[..i] && a[i] < b[i] ensures LessText(a, b) {
      DifferenceDecides(a, b, i);
    }
    hide LessText;
  }

  /** Scopes stand together by namespace, and within one by kind. */
  lemma {:induction false} ScopesStandByNamespace(a: Scope, b: Scope, c: Scope)
    ensures a.namespace == b.namespace ==> (LessScope(a, b) <==> LessText(a.kind, b.kind))
    ensures LessScope(a, b) && LessScope(b, c) && a.namespace == c.namespace ==> b.namespace == a.namespace
    ensures a.namespace != b.namespace ==> (LessScope(a, b) <==> LessText(a.namespace, b.namespace))
  {
    TextIsConnected(a.namespace, b.namespace);
    if LessText(a.namespace, b.namespace) && LessText(b.namespace, c.namespace) {
      TextIsTransitive(a.namespace, b.namespace, c.namespace);
      TextIsConnected(a.namespace, c.namespace);
    }
    hide LessText;
  }

  lemma {:induction false} TextIsTransitive(a: string, b: string, c: string)
    requires LessText(a, b) && LessText(b, c)
    ensures LessText(a, c)
  {
    if a != "" && a[0] == b[0] && b[0] == c[0] {
      TextIsTransitive(a[1..], b[1..], c[1..]);
    }
  }

  lemma {:induction false} TextIsTotal()
    ensures StrictlyTotal(LessText)
  {
    forall a, b ensures !LessText(a, a) && (a == b || LessText(a, b) || LessText(b, a)) {
      TextIsConnected(a, b);
    }
    forall a, b, c | LessText(a, b) && LessText(b, c) ensures LessText(a, c) {
      TextIsTransitive(a, b, c);
    }
  }

  lemma {:induction false} ScopesAreTotal()
    ensures StrictlyTotal(LessScope)
  {
    TextIsTotal();
    forall a, b ensures !LessScope(a, a) && (a == b || LessScope(a, b) || LessScope(b, a)) {
      TextIsConnected(a.namespace, b.namespace);
      TextIsConnected(a.kind, b.kind);
    }
    forall a, b, c | LessScope(a, b) && LessScope(b, c) ensures LessScope(a, c) {
      if LessText(a.namespace, b.namespace) && LessText(b.namespace, c.namespace) {
        TextIsTransitive(a.namespace, b.namespace, c.namespace);
      } else if a.namespace == b.namespace == c.namespace {
        TextIsTransitive(a.kind, b.kind, c.kind);
      }
    }
  }

  lemma {:induction false} EmptyTogether<T(!new)>(less: Order<T>, a: seq<T>, elements: set<T>)
    requires Ascending(less, a, elements)
    ensures a == [] <==> elements == {}
  {
    if a != [] {
      assert a[0] in elements;
    }
  }

  /** There is one such order. */
  lemma {:induction false} AscendingIsUnique<T(!new)>(less: Order<T>, a: seq<T>, b: seq<T>, elements: set<T>)
    requires StrictlyTotal(less) && Ascending(less, a, elements) && Ascending(less, b, elements)
    ensures a == b
  {
    EmptyTogether(less, a, elements);
    EmptyTogether(less, b, elements);
    if a != [] {
      assert a[0] in elements;
      var k :| 0 <= k < |b| && b[k] == a[0];
      assert b[0] in elements;
      var j :| 0 <= j < |a| && a[j] == b[0];
      assert k == 0;
      FrontDropped(less, a, elements);
      FrontDropped(less, b, elements);
      AscendingIsUnique(less, a[1..], b[1..], elements - {a[0]});
      assert a == [a[0]] + a[1..] && b == [b[0]] + b[1..];
    }
  }

  lemma {:induction false} FrontDropped<T(!new)>(less: Order<T>, a: seq<T>, elements: set<T>)
    requires StrictlyTotal(less) && Ascending(less, a, elements) && a != []
    ensures Ascending(less, a[1..], elements - {a[0]})
  {
    forall x ensures x in a[1..] <==> x in elements && x != a[0] {
      if x in elements && x != a[0] {
        var i :| 0 <= i < |a| && a[i] == x;
        assert a[1..][i - 1] == x;
      }
      if x in a[1..] {
        var i :| 0 <= i < |a| - 1 && a[1..][i] == x;
        assert less(a[0], a[i + 1]);
        assert x in a;
      }
    }
  }

  function Insert<T(!new)>(less: Order<T>, x: T, order: seq<T>): (r: seq<T>)
    ensures |r| == |order| + 1
    ensures forall y :: y in r <==> y == x || y in order
  {
    if order == [] || less(order[|order| - 1], x) then order + [x]
    else
      var front, last := order[..|order| - 1], order[|order| - 1];
      assert order == front + [last];
      Insert(less, x, front) + [last]
  }

  lemma {:induction false} Transitive<T(!new)>(less: Order<T>, a: T, b: T, c: T)
    requires StrictlyTotal(less) && (a == b || less(a, b)) && less(b, c)
    ensures less(a, c)
  {
  }

  lemma {:induction false} Connected<T(!new)>(less: Order<T>, a: T, b: T)
    requires StrictlyTotal(less) && a != b && !less(a, b)
    ensures less(b, a)
  {
  }

  lemma {:induction false} InsertKeepsOrder<T(!new)>(less: Order<T>, x: T, order: seq<T>)
    requires StrictlyTotal(less) && Increasing(less, order) && x !in order
    ensures Increasing(less, Insert(less, x, order))
  {
    hide StrictlyTotal;
    var r := Insert(less, x, order);
    if order == [] {
      assert r == [x];
    } else {
      var front, last := order[..|order| - 1], order[|order| - 1];
      assert last in order;
      if less(last, x) {
        forall i | 0 <= i < |order| ensures less(order[i], x) {
          Transitive(less, order[i], last, x);
        }
      } else {
        Connected(less, last, x);
        InsertKeepsOrder(less, x, front);
        forall y | y in Insert(less, x, front) ensures less(y, last) {
          assert y in front ==> exists k :: 0 <= k < |front| && order[k] == y;
        }
        LastKeepsOrder(less, Insert(less, x, front), last);
      }
    }
  }

  lemma {:induction false} LastKeepsOrder<T(!new)>(less: Order<T>, order: seq<T>, last: T)
    requires Increasing(less, order) && forall y :: y in order ==> less(y, last)
    ensures Increasing(less, order + [last])
  {
  }

  /** Python's `sorted`, over what a set holds. */
  method Sorted<T(==, !new)>(less: Order<T>, elements: set<T>) returns (order: seq<T>)
    requires StrictlyTotal(less)
    ensures Ascending(less, order, elements)
  {
    order := [];
    var rest := elements;
    while rest != {}
      invariant rest <= elements && Ascending(less, order, elements - rest)
      decreases rest
    {
      var x :| x in rest;
      InsertKeepsOrder(less, x, order);
      assert (set y | y in Insert(less, x, order)) == (elements - rest) + {x};
      order, rest := Insert(less, x, order), rest - {x};
    }
  }
}
