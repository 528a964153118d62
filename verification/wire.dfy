/** The stream vocabulary of `connector.v2`: bodies and their keys, stream items, pages and cursors. */
module Wire {
  import opened Text

  type Time = int

  const CLUSTER_SCOPE := "_cluster"
  const DENIED_KINDS := {"Secret"}

  /** The smallest scope for which absence can imply deletion. */
  datatype Scope = Scope(namespace: string, kind: string)

  /** What the connector looks at in a Kubernetes body; `content` stands for everything else. A body is also its own
      digest: the hash of its canonical encoding is taken to be injective. */
  datatype Body = Body(kind: Option<string>, namespace: Option<string>, name: Option<string>, uid: Option<string>,
                       content: nat)

  /** `namespace/Kind/name`, or nothing for a body without a kind or a name. */
  function ObjectKey(body: Body): Option<string> {
    if body.kind.None? || body.name.None? then None
    else Some(NamespaceText(body) + "/" + body.kind.value + "/" + body.name.value)
  }

  function NamespaceText(body: Body): string {
    if body.namespace.None? || body.namespace.value == "" then CLUSTER_SCOPE else body.namespace.value
  }

  /** The scope read back from a key: its first two of three slash-separated parts. */
  function ScopeOfKey(key: string): Option<Scope> {
    var i := IndexOf(key, '/');
    if i == |key| then None else
    var rest := key[i + 1..];
    var j := IndexOf(rest, '/');
    if j == |rest| then None else Some(Scope(key[..i], rest[..j]))
  }

  function OrNone(text: Option<string>): string {
    if text.None? then "None" else text.value
  }

  /** The identity of an Event: its UID, or `namespace/name`. */
  function EventKey(body: Body): string {
    if body.uid.Some? && body.uid.value != "" then body.uid.value
    else OrNone(body.namespace) + "/" + OrNone(body.name)
  }

  predicate Denied(body: Body) {
    body.kind.Some? && body.kind.value in DENIED_KINDS
  }

  /** A key names its own scope exactly when neither the namespace nor the kind contains a slash. */
  lemma {:induction false} KeyNamesItsScope(body: Body)
    requires ObjectKey(body).Some?
    ensures ScopeOfKey(ObjectKey(body).value) == Some(Scope(NamespaceText(body), body.kind.value))
       <==> '/' !in NamespaceText(body) && '/' !in body.kind.value
  {
    var ns, kind, name := NamespaceText(body), body.kind.value, body.name.value;
    var key := ns + "/" + kind + "/" + name;
    var i := IndexOf(key, '/');
    assert key[|ns|] == '/';
    var rest := key[i + 1..];
    if '/' !in ns {
      assert forall k :: 0 <= k < |ns| ==> key[k] == ns[k];
      assert i == |ns|;
      assert key[..i] == ns && rest == kind + "/" + name;
      var j := IndexOf(rest, '/');
      assert rest[|kind|] == '/';
      if '/' !in kind {
        assert forall k :: 0 <= k < |kind| ==> rest[k] == kind[k];
        assert j == |kind| && rest[..j] == kind;
      } else {
        assert '/' !in rest[..j];
      }
    } else {
      assert '/' !in key[..i];
    }
  }

  /** Two objects share a key only if they are one: same namespace, same kind, same name. */
  lemma {:induction false} KeyIsTheObject(a: Body, b: Body)
    requires ObjectKey(a).Some? && ObjectKey(b).Some?
    requires '/' !in NamespaceText(a) && '/' !in a.kind.value && '/' !in NamespaceText(b) && '/' !in b.kind.value
    ensures ObjectKey(a) == ObjectKey(b)
       <==> && (if a.namespace == Some("") || a.namespace.None? then "_cluster" else a.namespace.value)
               == (if b.namespace == Some("") || b.namespace.None? then "_cluster" else b.namespace.value)
            && a.kind == b.kind && a.name == b.name
  {
    if ObjectKey(a) == ObjectKey(b) {
      KeyNamesItsScope(a);
      KeyNamesItsScope(b);
      var key, head := ObjectKey(a).value, NamespaceText(a) + "/" + a.kind.value + "/";
      assert key[|head|..] == a.name.value;
      assert key[|head|..] == b.name.value;
    }
  }

  /** Two Events share an identity exactly when their UIDs agree, or, both without one, their namespaces and names; an
      Event with a UID never passes for one without, unless the UID is written like a namespace and a name. */
  lemma {:induction false} EventKeyIsTheEvent(a: Body, b: Body)
    requires '/' !in OrNone(a.namespace) && '/' !in OrNone(b.namespace)
    requires (a.uid.Some? ==> '/' !in a.uid.value) && (b.uid.Some? ==> '/' !in b.uid.value)
    ensures EventKey(a) == EventKey(b)
       <==> if (a.uid.Some? && a.uid.value != "") || (b.uid.Some? && b.uid.value != "") then a.uid == b.uid
            else OrNone(a.namespace) == OrNone(b.namespace) && OrNone(a.name) == OrNone(b.name)
  {
    var p, q := OrNone(a.namespace) + "/" + OrNone(a.name), OrNone(b.namespace) + "/" + OrNone(b.name);
    assert p[|OrNone(a.namespace)|] == '/' && q[|OrNone(b.namespace)|] == '/';
    assert '/' in p && '/' in q;
    if p == q {
      SplitsOnce(OrNone(a.namespace), OrNone(a.name), OrNone(b.namespace), OrNone(b.name));
    }
  }

  lemma {:induction false} SplitsOnce(a: string, b: string, c: string, d: string)
    requires '/' !in a && '/' !in c && a + "/" + b == c + "/" + d
    ensures a == c && b == d
  {
    var s := a + "/" + b;
    assert s[|a|] == '/' && forall k :: 0 <= k < |a| ==> s[k] == a[k];
    assert IndexOf(s, '/') == |a|;
    assert s[|c|] == '/' && forall k :: 0 <= k < |c| ==> s[k] == c[k];
    assert IndexOf(s, '/') == |c|;
    assert s[..|a|] == a && s[..|c|] == c && s[|a| + 1..] == b && s[|c| + 1..] == d;
  }

  datatype Failure = Failure(scope: Scope, error: string)
  datatype GapReason = ConnectorRestart | BufferExpired | BackendUnreachable | ResourceVersionExpired

  function ReasonText(reason: GapReason): string {
    match reason
    case ConnectorRestart => "CONNECTOR_RESTART"
    case BufferExpired => "BUFFER_EXPIRED"
    case BackendUnreachable => "BACKEND_UNREACHABLE"
    case ResourceVersionExpired => "RESOURCE_VERSION_EXPIRED"
  }

  datatype DeletionSource = FromWatch | FromListing
  datatype Origin = FromWebhook | FromPoll

  /** What an alert says beside its identity and its times. */
  datatype Details = Details(labels: map<string, string>, annotations: map<string, string>, generator: Option<string>)

  /** An alert as both paths carry it, its instants still text. */
  datatype Alert = Alert(fingerprint: string, resolved: bool, startsAt: Option<string>, endsAt: Option<string>,
                         details: Details)

  /** Everything a stream carries; the sequence number is added by the buffer. */
  datatype Item =
    | ObjectItem(at: Time, body: Body)
    | ObjectDeleted(at: Time, key: string, source: DeletionSource)
    | EventItem(at: Time, body: Body)
    | SnapshotBegin(at: Time, scope: Option<Scope>)
    | ListingStatus(at: Time, snapshot: bool, completed: set<Scope>, failed: seq<Failure>, scope: Option<Scope>)
    | Gap(at: Time, reason: GapReason, scope: Option<Scope>, since: Option<Time>)
    | ChangeHeartbeat(at: Time)
    | AlertItem(at: Time, origin: Origin, alert: Alert)
    | Heartbeat(attemptedAt: Time, completedAt: Time, ok: bool, active: Option<nat>, error: Option<string>)

  datatype Numbered = Numbered(seqNo: nat, item: Item)

  /** The instant an item carries as `observed_at` or `at`; the alert poll's heartbeat carries neither. */
  function StampOf(item: Item): Option<Time> {
    if item.Heartbeat? then None else Some(item.at)
  }

  datatype Page = Page(epoch: string, nextCursor: string, items: seq<Numbered>, gaps: seq<Numbered>)

  datatype ReadError = MalformedCursor | NoBaseline
  datatype Result<+T, +E> = Ok(value: T) | Err(error: E)

  datatype Cursor = Cursor(epoch: string, position: nat)

  function MakeCursor(epoch: string, position: nat): string {
    epoch + ":" + Decimal(position)
  }

  function ParseCursor(cursor: string): Result<Cursor, ReadError> {
    var i := AfterLast(cursor, ':');
    if i <= 1 || !AllDigits(cursor[i..]) then Err(MalformedCursor)
    else Ok(Cursor(cursor[..i - 1], ParseDecimal(cursor[i..])))
  }

  /** Any non-empty epoch survives, even one that contains the separator. */
  lemma {:induction false} CursorRoundTrip(epoch: string, position: nat)
    ensures epoch != "" ==> ParseCursor(MakeCursor(epoch, position)) == Ok(Cursor(epoch, position))
    ensures epoch == "" ==> ParseCursor(MakeCursor(epoch, position)) == Err(MalformedCursor)
  {
    var digits := Decimal(position);
    var cursor := MakeCursor(epoch, position);
    assert cursor[|epoch|] == ':';
    assert forall k :: 0 <= k < |digits| ==> cursor[|epoch| + 1 + k] == digits[k];
    var i := AfterLast(cursor, ':');
    assert i == |epoch| + 1;
    assert cursor[i..] == digits && cursor[..i - 1] == epoch;
    DecimalRoundTrip(position);
  }

  /** A cursor that parses is printed back unchanged exactly when its number has no leading zero. */
  lemma {:induction false} CursorCanonical(cursor: string)
    requires ParseCursor(cursor).Ok?
    ensures var c := ParseCursor(cursor).value;
            var digits := cursor[AfterLast(cursor, ':')..];
            MakeCursor(c.epoch, c.position) == cursor <==> |digits| == 1 || digits[0] != '0'
  {
    var i := AfterLast(cursor, ':');
    var digits := cursor[i..];
    DecimalCanonical(digits);
    assert cursor == cursor[..i - 1] + ":" + digits;
    var c := ParseCursor(cursor).value;
    var printed := MakeCursor(c.epoch, c.position);
    assert printed[i..] == Decimal(c.position);
  }
}
