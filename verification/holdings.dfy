/** What a mirror holds: every body under its own key, so that asking by the namespace in the key is asking by the
    namespace in the body. */
module Holdings {
  import opened Text
  import opened Wire
  import opened Mirrors

  /** The namespace a key is filed under: its first part. */
  function NamespaceOfKey(key: string): string {
    key[..IndexOf(key, '/')]
  }

  /** That is the body's own namespace exactly when the namespace holds no slash. */
  lemma {:induction false} KeyNamesItsNamespace(body: Body)
    requires ObjectKey(body).Some?
    ensures NamespaceOfKey(ObjectKey(body).value) == NamespaceText(body) <==> '/' !in NamespaceText(body)
  {
    var ns, key := NamespaceText(body), ObjectKey(body).value;
    assert key[|ns|] == '/';
    if '/' !in ns {
      assert forall k :: 0 <= k < |ns| ==> key[k] == ns[k];
      assert key[..IndexOf(key, '/')] == ns;
    } else {
      assert '/' !in key[..IndexOf(key, '/')];
    }
  }

  predicate UnderOwnKeys(bodies: map<string, Body>) {
    forall k :: k in bodies ==> ObjectKey(bodies[k]) == Some(k)
  }

  predicate PlainNamespaces(bodies: map<string, Body>) {
    forall k :: k in bodies ==> '/' !in NamespaceText(bodies[k])
  }

  /** In the objects, in a snapshot half read and in a relist half read. */
  predicate HoldsOwn(m: Mirror) {
    && UnderOwnKeys(m.objects) && (m.staging.Some? ==> UnderOwnKeys(m.staging.value))
    && (m.relist.Some? ==> UnderOwnKeys(m.relist.value.staged))
  }

  predicate HoldsPlain(m: Mirror) {
    && PlainNamespaces(m.objects) && (m.staging.Some? ==> PlainNamespaces(m.staging.value))
    && (m.relist.Some? ==> PlainNamespaces(m.relist.value.staged))
  }

  predicate PlainItem(item: Item) {
    item.ObjectItem? ==> '/' !in NamespaceText(item.body)
  }

  lemma {:induction false} ItemKeepsOwn(m: Mirror, item: Item)
    requires HoldsOwn(m)
    ensures HoldsOwn(ApplyItem(m, item))
  {
    hide HoldsOwn, ApplyObject, EndStatus;
    match item {
      case ObjectItem(_, body) => ObjectKeepsOwn(m, body);
      case ListingStatus(_, snapshot, completed, failed, scope) =>
        StatusKeepsOwn(m, snapshot, completed, failed, scope);
      case _ => OtherKeepsOwn(m, item);
    }
  }

  lemma {:induction false} ObjectKeepsOwn(m: Mirror, body: Body)
    requires HoldsOwn(m)
    ensures HoldsOwn(ApplyObject(m, body))
  {
    hide ObjectKey, InScope;
  }

  lemma {:induction false} StatusKeepsOwn(m: Mirror, snapshot: bool, completed: set<Scope>, failed: seq<Failure>,
                                          scope: Option<Scope>)
    requires HoldsOwn(m)
    ensures HoldsOwn(EndStatus(m, snapshot, completed, failed, scope))
  {
    hide ObjectKey, InScope, WithoutFailure;
  }

  lemma {:induction false} OtherKeepsOwn(m: Mirror, item: Item)
    requires HoldsOwn(m) && !item.ObjectItem? && !item.ListingStatus?
    ensures HoldsOwn(ApplyItem(m, item))
  {
    hide ApplyObject, EndStatus, ObjectKey, EventKey;
  }

  lemma {:induction false} ItemKeepsPlain(m: Mirror, item: Item)
    requires HoldsPlain(m) && PlainItem(item)
    ensures HoldsPlain(ApplyItem(m, item))
  {
    hide HoldsPlain, ApplyObject, EndStatus;
    match item {
      case ObjectItem(_, body) => ObjectKeepsPlain(m, body);
      case ListingStatus(_, snapshot, completed, failed, scope) =>
        StatusKeepsPlain(m, snapshot, completed, failed, scope);
      case _ => OtherKeepsPlain(m, item);
    }
  }

  lemma {:induction false} ObjectKeepsPlain(m: Mirror, body: Body)
    requires HoldsPlain(m) && '/' !in NamespaceText(body)
    ensures HoldsPlain(ApplyObject(m, body))
  {
    hide ObjectKey, InScope, NamespaceText;
  }

  lemma {:induction false} StatusKeepsPlain(m: Mirror, snapshot: bool, completed: set<Scope>, failed: seq<Failure>,
                                            scope: Option<Scope>)
    requires HoldsPlain(m)
    ensures HoldsPlain(EndStatus(m, snapshot, completed, failed, scope))
  {
    hide InScope, NamespaceText, WithoutFailure;
  }

  lemma {:induction false} OtherKeepsPlain(m: Mirror, item: Item)
    requires HoldsPlain(m) && !item.ObjectItem? && !item.ListingStatus?
    ensures HoldsPlain(ApplyItem(m, item))
  {
    hide ApplyObject, EndStatus, NamespaceText, EventKey;
  }

  /** Whatever was read, in whatever order, a mirror holds every body under its own key. */
  lemma {:induction false} FoldHoldsOwn(items: seq<Item>)
    ensures HoldsOwn(Fold(EMPTY, items))
  {
    hide HoldsOwn, ApplyItem;
    if items != [] {
      FoldHoldsOwn(items[..|items| - 1]);
      ItemKeepsOwn(Fold(EMPTY, items[..|items| - 1]), items[|items| - 1]);
    } else {
      EmptyHolds();
    }
  }

  lemma {:induction false} EmptyHolds()
    ensures HoldsOwn(EMPTY) && HoldsPlain(EMPTY)
  {
  }

  predicate PlainItems(items: seq<Item>) {
    forall i :: 0 <= i < |items| ==> PlainItem(items[i])
  }

  lemma {:induction false} FoldHoldsPlain(items: seq<Item>)
    requires PlainItems(items)
    ensures HoldsPlain(Fold(EMPTY, items))
  {
    hide HoldsPlain, ApplyItem, PlainItem;
    if items != [] {
      FoldHoldsPlain(items[..|items| - 1]);
      ItemKeepsPlain(Fold(EMPTY, items[..|items| - 1]), items[|items| - 1]);
    } else {
      EmptyHolds();
    }
  }
}
