/** The connector registry: ids, their one-time tokens, and who may connect. */
module Enrollment {
  import opened Text
  import opened Wire
  import opened Codecs
  import opened Tokens

  datatype Status = Pending | Active | Disabled

  /** The hash of a secret is taken to be injective: a record holds the secret itself. */
  datatype ConnectorRecord = ConnectorRecord(status: Status, createdAt: Time, secret: Option<string>,
                                             expiresAt: Option<Time>, usedAt: Option<Time>, serial: Option<nat>,
                                             notAfter: Option<Time>)

  /** The control plane's CA, and the certificate parser. */
  datatype Authority = Authority(ca: Bytes, isCertificate: Bytes -> bool)

  /** What signing a request comes to, when the request can be signed. */
  datatype Certificate = Certificate(serial: nat, notAfter: Time)

  datatype EnrollmentError =
    | NotALabel | AlreadyEnrolled(status: Status) | MalformedToken | UnknownConnector | NoUnusedToken
    | TokenExpired | WrongSecret | AnotherCA | BadRequest | NotActive

  type Store = map<string, ConnectorRecord>

  function Create(store: Store, id: string, secret: string, now: Time, ttl: int): Result<Store, EnrollmentError> {
    if !IdMatches(id) then Err(NotALabel)
    else if id in store && store[id].status != Pending then Err(AlreadyEnrolled(store[id].status))
    else
      var createdAt := if id in store then store[id].createdAt else now;
      Ok(store[id := ConnectorRecord(Pending, createdAt, Some(secret), Some(now + ttl), None, None, None)])
  }

  function CheckToken(a: Authority, store: Store, token: Token, now: Time): Result<ConnectorRecord, EnrollmentError> {
    if token.id !in store then Err(UnknownConnector)
    else
      var record := store[token.id];
      if record.status != Pending || record.usedAt.Some? || record.secret.None? then Err(NoUnusedToken)
      else if record.expiresAt.None? || now > record.expiresAt.value then Err(TokenExpired)
      else if record.secret.value != token.secret then Err(WrongSecret)
      else if token.ca != a.ca then Err(AnotherCA)
      else Ok(record)
  }

  function Enroll(a: Authority, store: Store, text: string, signed: Option<Certificate>, now: Time)
    : Result<Store, EnrollmentError>
  {
    var token := Parse(text, a.isCertificate);
    if token.None? then Err(MalformedToken)
    else
      var checked := CheckToken(a, store, token.value, now);
      if checked.Err? then Err(checked.error)
      else if signed.None? then Err(BadRequest)
      else Ok(store[token.value.id := checked.value.(status := Active, secret := None, usedAt := Some(now),
                                                     serial := Some(signed.value.serial),
                                                     notAfter := Some(signed.value.notAfter))])
  }

  function Renew(store: Store, id: string, signed: Option<Certificate>): Result<Store, EnrollmentError> {
    if id !in store || store[id].status != Active then Err(NotActive)
    else if signed.None? then Err(BadRequest)
    else Ok(store[id := store[id].(serial := Some(signed.value.serial), notAfter := Some(signed.value.notAfter))])
  }

  function Disable(store: Store, id: string): Result<Store, EnrollmentError> {
    if id !in store then Err(UnknownConnector) else Ok(store[id := store[id].(status := Disabled, secret := None)])
  }

  predicate IsAllowed(store: Store, id: string) {
    id in store && store[id].status == Active
  }

  // ---- whole runs -----------------------------------------------------------------------------

  datatype Op =
    | Creates(id: string, secret: string, now: Time, ttl: int)
    | Enrolls(text: string, signed: Option<Certificate>, now: Time)
    | Renews(id: string, signed: Option<Certificate>)
    | Disables(id: string)

  function Attempt(a: Authority, store: Store, op: Op): Result<Store, EnrollmentError> {
    match op
    case Creates(id, secret, now, ttl) => Create(store, id, secret, now, ttl)
    case Enrolls(text, signed, now) => Enroll(a, store, text, signed, now)
    case Renews(id, signed) => Renew(store, id, signed)
    case Disables(id) => Disable(store, id)
  }

  /** An operation that is refused changes nothing. */
  function After(a: Authority, store: Store, op: Op): Store {
    var r := Attempt(a, store, op);
    if r.Ok? then r.value else store
  }

  function StoreAfter(a: Authority, ops: seq<Op>): Store {
    if ops == [] then map[] else After(a, StoreAfter(a, ops[..|ops| - 1]), ops[|ops| - 1])
  }

  function StoreAt(a: Authority, ops: seq<Op>, n: nat): Store
    requires n <= |ops|
  {
    StoreAfter(a, ops[..n])
  }

  predicate Succeeds(a: Authority, ops: seq<Op>, i: nat)
    requires i < |ops|
  {
    Attempt(a, StoreAt(a, ops, i), ops[i]).Ok?
  }

  /** The i-th operation issued a token for this id. */
  predicate Issues(a: Authority, ops: seq<Op>, i: nat, id: string)
    requires i < |ops|
  {
    ops[i].Creates? && ops[i].id == id && Succeeds(a, ops, i)
  }

  predicate EnrollsAs(a: Authority, ops: seq<Op>, i: nat, id: string)
    requires i < |ops|
  {
    ops[i].Enrolls? && Succeeds(a, ops, i) && Parse(ops[i].text, a.isCertificate).value.id == id
  }

  predicate DisablesIt(a: Authority, ops: seq<Op>, i: nat, id: string)
    requires i < |ops|
  {
    ops[i] == Disables(id) && Succeeds(a, ops, i)
  }

  lemma {:induction false} NextStore(a: Authority, ops: seq<Op>, n: nat)
    requires n < |ops|
    ensures StoreAt(a, ops, n + 1) == After(a, StoreAt(a, ops, n), ops[n])
  {
    assert ops[..n + 1][..n] == ops[..n];
  }

  // ---- what a record remembers ----------------------------------------------------------------

  ghost predicate WasIssued(a: Authority, ops: seq<Op>, n: nat, id: string)
    requires n <= |ops|
  {
    exists i :: 0 <= i < n && Issues(a, ops, i, id)
  }

  ghost predicate WasEnrolled(a: Authority, ops: seq<Op>, n: nat, id: string)
    requires n <= |ops|
  {
    exists i :: 0 <= i < n && EnrollsAs(a, ops, i, id)
  }

  ghost predicate WasDisabled(a: Authority, ops: seq<Op>, n: nat, id: string)
    requires n <= |ops|
  {
    exists i :: 0 <= i < n && DisablesIt(a, ops, i, id)
  }

  /** The i-th operation issued the latest token of this id among the first n. */
  ghost predicate LatestIssue(a: Authority, ops: seq<Op>, n: nat, i: nat, id: string)
    requires n <= |ops|
  {
    i < n && Issues(a, ops, i, id) && forall j :: i < j < n ==> !Issues(a, ops, j, id)
  }

  lemma {:induction false} WasNext(a: Authority, ops: seq<Op>, n: nat, id: string)
    requires n < |ops|
    ensures WasIssued(a, ops, n + 1, id) <==> WasIssued(a, ops, n, id) || Issues(a, ops, n, id)
    ensures WasEnrolled(a, ops, n + 1, id) <==> WasEnrolled(a, ops, n, id) || EnrollsAs(a, ops, n, id)
    ensures WasDisabled(a, ops, n + 1, id) <==> WasDisabled(a, ops, n, id) || DisablesIt(a, ops, n, id)
  {
  }

  /** The record of an id says what happened to it so far. */
  ghost predicate Remembers(a: Authority, ops: seq<Op>, n: nat, id: string)
    requires n <= |ops|
  {
    var store := StoreAt(a, ops, n);
    && (id in store <==> WasIssued(a, ops, n, id))
    && (id !in store ==> !WasEnrolled(a, ops, n, id) && !WasDisabled(a, ops, n, id))
    && (id in store ==>
          && (store[id].status == Disabled <==> WasDisabled(a, ops, n, id))
          && (store[id].status == Active ==> WasEnrolled(a, ops, n, id))
          && (store[id].status == Pending ==> !WasEnrolled(a, ops, n, id)))
  }

  /** A pending record holds its latest token. */
  ghost predicate HoldsLatest(a: Authority, ops: seq<Op>, n: nat, id: string)
    requires n <= |ops|
  {
    var store := StoreAt(a, ops, n);
    id in store && store[id].status == Pending ==>
      && store[id].usedAt.None?
      && exists i: nat :: LatestIssue(a, ops, n, i, id) && store[id].secret == Some(ops[i].secret)
                     && store[id].expiresAt == Some(ops[i].now + ops[i].ttl)
  }

  function StatusOf(store: Store, id: string): Option<Status> {
    if id in store then Some(store[id].status) else None
  }

  /** What one operation does to the status of an id. */
  lemma {:induction false} StatusSteps(a: Authority, ops: seq<Op>, n: nat, id: string)
    requires n < |ops|
    ensures var before, next := StatusOf(StoreAt(a, ops, n), id), StatusOf(StoreAt(a, ops, n + 1), id);
            if Issues(a, ops, n, id) then (before.None? || before == Some(Pending)) && next == Some(Pending)
            else if EnrollsAs(a, ops, n, id) then before == Some(Pending) && next == Some(Active)
            else if DisablesIt(a, ops, n, id) then before.Some? && next == Some(Disabled)
            else next == before
  {
    NextStore(a, ops, n);
  }

  lemma {:induction false} RemembersNext(a: Authority, ops: seq<Op>, n: nat, id: string)
    requires n < |ops| && Remembers(a, ops, n, id)
    ensures Remembers(a, ops, n + 1, id)
  {
    StatusSteps(a, ops, n, id);
    WasNext(a, ops, n, id);
  }

  lemma {:induction false} HoldsLatestNext(a: Authority, ops: seq<Op>, n: nat, id: string)
    requires n < |ops| && HoldsLatest(a, ops, n, id)
    ensures HoldsLatest(a, ops, n + 1, id)
  {
    NextStore(a, ops, n);
    var store, next := StoreAt(a, ops, n), StoreAt(a, ops, n + 1);
    if id in next && next[id].status == Pending {
      if Issues(a, ops, n, id) {
        assert LatestIssue(a, ops, n + 1, n, id);
      } else {
        assert id in store && store[id] == next[id];
        var i: nat :| LatestIssue(a, ops, n, i, id) && store[id].secret == Some(ops[i].secret)
              && store[id].expiresAt == Some(ops[i].now + ops[i].ttl);
        assert LatestIssue(a, ops, n + 1, i, id);
      }
    }
  }

  lemma {:induction false} AlwaysRemembers(a: Authority, ops: seq<Op>, n: nat, id: string)
    requires n <= |ops|
    ensures Remembers(a, ops, n, id) && HoldsLatest(a, ops, n, id)
  {
    if n > 0 {
      AlwaysRemembers(a, ops, n - 1, id);
      RemembersNext(a, ops, n - 1, id);
      HoldsLatestNext(a, ops, n - 1, id);
    }
  }

  // ---- the guarantees -------------------------------------------------------------------------

  /** An id is allowed exactly when it was enrolled and was not disabled, before or since. */
  lemma {:induction false} AllowedExactly(a: Authority, ops: seq<Op>, n: nat, id: string)
    requires n <= |ops|
    ensures IsAllowed(StoreAt(a, ops, n), id) <==> WasEnrolled(a, ops, n, id) && !WasDisabled(a, ops, n, id)
  {
    AlwaysRemembers(a, ops, n, id);
  }

  /** An enrollment succeeds exactly with the latest token issued for its id, by that token's expiry, for the control
      plane's own CA and a request that can be signed, if the id was neither enrolled nor disabled before. */
  lemma {:induction false} EnrollsExactly(a: Authority, ops: seq<Op>, i: nat, id: string)
    requires i < |ops| && ops[i].Enrolls?
    ensures EnrollsAs(a, ops, i, id) <==>
            var token := Parse(ops[i].text, a.isCertificate);
            && token.Some? && token.value.id == id && token.value.ca == a.ca && ops[i].signed.Some?
            && !WasEnrolled(a, ops, i, id) && !WasDisabled(a, ops, i, id)
            && exists j: nat :: LatestIssue(a, ops, i, j, id) && ops[j].secret == token.value.secret
                           && ops[i].now <= ops[j].now + ops[j].ttl
  {
    AlwaysRemembers(a, ops, i, id);
    var store := StoreAt(a, ops, i);
    if id in store && store[id].status == Pending {
      var j: nat :| LatestIssue(a, ops, i, j, id) && store[id].secret == Some(ops[j].secret)
            && store[id].expiresAt == Some(ops[j].now + ops[j].ttl);
      forall k: nat | LatestIssue(a, ops, i, k, id) ensures k == j {
      }
    }
  }

  /** Each id is enrolled at most once. */
  lemma {:induction false} EnrolledOnce(a: Authority, ops: seq<Op>, i: nat, j: nat, id: string)
    requires i < |ops| && j < |ops| && EnrollsAs(a, ops, i, id) && EnrollsAs(a, ops, j, id)
    ensures i == j
  {
    EnrollsExactly(a, ops, i, id);
    EnrollsExactly(a, ops, j, id);
  }

  /** A disabled id stays disabled: it is never allowed, issued a token or enrolled again. */
  lemma {:induction false} DisabledForGood(a: Authority, ops: seq<Op>, i: nat, n: nat, id: string)
    requires i < n <= |ops| && DisablesIt(a, ops, i, id)
    ensures var store := StoreAt(a, ops, n); id in store && store[id].status == Disabled
    ensures n < |ops| ==> !Issues(a, ops, n, id) && !EnrollsAs(a, ops, n, id)
  {
    AlwaysRemembers(a, ops, n, id);
    assert WasDisabled(a, ops, n, id);
    assert WasIssued(a, ops, n, id);
  }

  /** The token a successful creation hands out enrolls its id, as printed, until it expires or is replaced. */
  lemma {:induction false} IssuedTokenEnrolls(a: Authority, store: Store, id: string, secret: string, now: Time,
                                              ttl: int, later: Time, signed: Certificate)
    requires Create(store, id, secret, now, ttl).Ok? && secret != "" && '.' !in secret && a.isCertificate(a.ca)
    ensures var issued, text := Create(store, id, secret, now, ttl).value, Print(Token(id, secret, a.ca));
            Enroll(a, issued, text, Some(signed), later).Ok? <==> later <= now + ttl
  {
    TokenRoundTrip(Token(id, secret, a.ca), a.isCertificate);
  }

  // ---- what a record says ---------------------------------------------------------------------

  /** The certificate the i-th operation signed for this id, at its enrollment or a renewal. */
  predicate SignsFor(a: Authority, ops: seq<Op>, i: nat, id: string, c: Certificate)
    requires i < |ops|
  {
    && (EnrollsAs(a, ops, i, id) || (ops[i].Renews? && ops[i].id == id && Succeeds(a, ops, i)))
    && (ops[i].Enrolls? || ops[i].Renews?) && ops[i].signed == Some(c)
  }

  predicate SignsAny(a: Authority, ops: seq<Op>, i: nat, id: string)
    requires i < |ops|
  {
    EnrollsAs(a, ops, i, id) || (ops[i].Renews? && ops[i].id == id && Succeeds(a, ops, i))
  }

  ghost predicate LatestSigned(a: Authority, ops: seq<Op>, n: nat, i: nat, id: string, c: Certificate)
    requires n <= |ops|
  {
    i < n && SignsFor(a, ops, i, id, c) && forall j :: i < j < n ==> !SignsAny(a, ops, j, id)
  }

  /** The certificate signed last for this id. */
  ghost predicate SignedLast(a: Authority, ops: seq<Op>, n: nat, id: string, c: Certificate)
    requires n <= |ops|
  {
    exists i: nat :: LatestSigned(a, ops, n, i, id, c)
  }

  /** When this id was first issued a token. */
  ghost predicate FirstIssuedAt(a: Authority, ops: seq<Op>, n: nat, id: string, at: Time)
    requires n <= |ops|
  {
    exists i: nat :: i < n && Issues(a, ops, i, id) && ops[i].now == at
                     && forall j: nat :: j < i ==> !Issues(a, ops, j, id)
  }

  ghost predicate EnrolledAt(a: Authority, ops: seq<Op>, n: nat, id: string, at: Time)
    requires n <= |ops|
  {
    exists i: nat :: i < n && EnrollsAs(a, ops, i, id) && ops[i].now == at
  }

  lemma {:induction false} StillSaid(a: Authority, ops: seq<Op>, n: nat, id: string, at: Time, c: Certificate)
    requires n < |ops|
    ensures FirstIssuedAt(a, ops, n, id, at) ==> FirstIssuedAt(a, ops, n + 1, id, at)
    ensures EnrolledAt(a, ops, n, id, at) ==> EnrolledAt(a, ops, n + 1, id, at)
    ensures SignedLast(a, ops, n, id, c) && !SignsAny(a, ops, n, id) ==> SignedLast(a, ops, n + 1, id, c)
  {
    hide Issues, EnrollsAs, SignsFor, SignsAny;
    if SignedLast(a, ops, n, id, c) && !SignsAny(a, ops, n, id) {
      var i: nat :| LatestSigned(a, ops, n, i, id, c);
      assert LatestSigned(a, ops, n + 1, i, id, c);
    }
  }

  /** A record says when its id was first issued a token, when it was enrolled, and the serial and expiry of the latest
      certificate signed for it; it holds a secret only while it waits for its enrollment. */
  ghost predicate SaysSo(a: Authority, ops: seq<Op>, n: nat, id: string, record: ConnectorRecord)
    requires n <= |ops|
  {
    && (record.secret.Some? <==> record.status == Pending)
    && FirstIssuedAt(a, ops, n, id, record.createdAt)
    && (record.usedAt.Some? <==> WasEnrolled(a, ops, n, id))
    && (record.serial.Some? <==> WasEnrolled(a, ops, n, id)) && (record.notAfter.Some? <==> WasEnrolled(a, ops, n, id))
    && (WasEnrolled(a, ops, n, id) ==>
          && EnrolledAt(a, ops, n, id, record.usedAt.value)
          && SignedLast(a, ops, n, id, Certificate(record.serial.value, record.notAfter.value)))
  }

  ghost predicate TellsHistory(a: Authority, ops: seq<Op>, n: nat, id: string)
    requires n <= |ops|
  {
    var store := StoreAt(a, ops, n);
    id in store ==> SaysSo(a, ops, n, id, store[id])
  }

  predicate Touches(a: Authority, ops: seq<Op>, n: nat, id: string)
    requires n < |ops|
  {
    Issues(a, ops, n, id) || SignsAny(a, ops, n, id) || DisablesIt(a, ops, n, id)
  }

  /** An operation that does not concern the id leaves its record. */
  lemma {:induction false} OthersLeave(a: Authority, ops: seq<Op>, n: nat, id: string)
    requires n < |ops| && !Touches(a, ops, n, id)
    ensures var before, next := StoreAt(a, ops, n), StoreAt(a, ops, n + 1);
            (id in next <==> id in before) && (id in before ==> next[id] == before[id])
  {
    NextStore(a, ops, n);
    hide Parse, CheckToken, IdMatches;
  }

  lemma {:induction false} UntouchedTells(a: Authority, ops: seq<Op>, n: nat, id: string)
    requires n < |ops| && TellsHistory(a, ops, n, id) && !Touches(a, ops, n, id)
    ensures TellsHistory(a, ops, n + 1, id)
  {
    OthersLeave(a, ops, n, id);
    WasNext(a, ops, n, id);
    var store := StoreAt(a, ops, n);
    if id in store {
      var r := store[id];
      StillSaid(a, ops, n, id, r.createdAt, Certificate(r.serial.GetOr(0), r.notAfter.GetOr(0)));
      StillSaid(a, ops, n, id, r.usedAt.GetOr(0), Certificate(0, 0));
    }
    hide Issues, EnrollsAs, SignsFor, DisablesIt, StoreAt, WasEnrolled, FirstIssuedAt, EnrolledAt, SignedLast;
  }

  lemma {:induction false} IssueTells(a: Authority, ops: seq<Op>, n: nat, id: string)
    requires n < |ops| && TellsHistory(a, ops, n, id) && Remembers(a, ops, n, id) && Issues(a, ops, n, id)
    ensures TellsHistory(a, ops, n + 1, id)
  {
    NextStore(a, ops, n);
    WasNext(a, ops, n, id);
    StatusSteps(a, ops, n, id);
    var store := StoreAt(a, ops, n);
    if id in store {
      StillSaid(a, ops, n, id, store[id].createdAt, Certificate(0, 0));
    } else {
      assert forall j: nat :: j < n ==> !Issues(a, ops, j, id);
      assert FirstIssuedAt(a, ops, n + 1, id, ops[n].now);
    }
    hide Parse, WasIssued, FirstIssuedAt, EnrolledAt, SignedLast;
  }

  /** What signing leaves in the record. */
  lemma {:induction false} SignedRecord(a: Authority, ops: seq<Op>, n: nat, id: string)
    requires n < |ops| && SignsAny(a, ops, n, id)
    ensures var store, next := StoreAt(a, ops, n), StoreAt(a, ops, n + 1);
            && id in store && id in next && (ops[n].Enrolls? || ops[n].Renews?) && ops[n].signed.Some?
            && next[id].serial == Some(ops[n].signed.value.serial)
            && next[id].notAfter == Some(ops[n].signed.value.notAfter)
            && next[id].createdAt == store[id].createdAt && next[id].status == Active
            && (if EnrollsAs(a, ops, n, id) then next[id].usedAt == Some(ops[n].now) && next[id].secret.None?
                else next[id].usedAt == store[id].usedAt && next[id].secret == store[id].secret
                     && store[id].status == Active)
  {
    NextStore(a, ops, n);
    hide Parse, IdMatches, StoreAt;
  }

  lemma {:induction false} SignedNow(a: Authority, ops: seq<Op>, n: nat, id: string)
    requires n < |ops| && SignsAny(a, ops, n, id) && (ops[n].Enrolls? || ops[n].Renews?) && ops[n].signed.Some?
    ensures SignedLast(a, ops, n + 1, id, ops[n].signed.value)
    ensures EnrollsAs(a, ops, n, id) ==> EnrolledAt(a, ops, n + 1, id, ops[n].now)
  {
    hide Succeeds, Parse, EnrollsAs;
    assert LatestSigned(a, ops, n + 1, n, id, ops[n].signed.value);
  }

  lemma {:induction false} SigningTells(a: Authority, ops: seq<Op>, n: nat, id: string)
    requires n < |ops| && TellsHistory(a, ops, n, id) && Remembers(a, ops, n, id) && SignsAny(a, ops, n, id)
    ensures TellsHistory(a, ops, n + 1, id)
  {
    hide WasIssued, WasDisabled, WasEnrolled, StoreAt, SignsAny, Issues, DisablesIt, FirstIssuedAt, EnrolledAt,
         SignedLast, EnrollsAs;
    SignedRecord(a, ops, n, id);
    SignedNow(a, ops, n, id);
    WasNext(a, ops, n, id);
    var r := StoreAt(a, ops, n)[id];
    StillSaid(a, ops, n, id, r.createdAt, Certificate(0, 0));
    StillSaid(a, ops, n, id, r.usedAt.GetOr(0), Certificate(0, 0));
  }

  lemma {:induction false} DisablingTells(a: Authority, ops: seq<Op>, n: nat, id: string)
    requires n < |ops| && TellsHistory(a, ops, n, id) && DisablesIt(a, ops, n, id)
    ensures TellsHistory(a, ops, n + 1, id)
  {
    NextStore(a, ops, n);
    WasNext(a, ops, n, id);
    var r := StoreAt(a, ops, n)[id];
    StillSaid(a, ops, n, id, r.createdAt, Certificate(r.serial.GetOr(0), r.notAfter.GetOr(0)));
    StillSaid(a, ops, n, id, r.usedAt.GetOr(0), Certificate(0, 0));
    hide Issues, SignsFor, WasEnrolled, FirstIssuedAt, EnrolledAt, SignedLast, Parse;
  }

  /** Over every sequence of operations the record of every id says so. */
  lemma {:induction false} RecordTellsHistory(a: Authority, ops: seq<Op>, n: nat, id: string)
    requires n <= |ops|
    ensures TellsHistory(a, ops, n, id)
  {
    hide TellsHistory, Issues, SignsAny, DisablesIt, Remembers, HoldsLatest, StoreAt;
    if n > 0 {
      RecordTellsHistory(a, ops, n - 1, id);
      AlwaysRemembers(a, ops, n - 1, id);
      if Issues(a, ops, n - 1, id) {
        IssueTells(a, ops, n - 1, id);
      } else if SignsAny(a, ops, n - 1, id) {
        SigningTells(a, ops, n - 1, id);
      } else if DisablesIt(a, ops, n - 1, id) {
        DisablingTells(a, ops, n - 1, id);
      } else {
        UntouchedTells(a, ops, n - 1, id);
      }
    } else {
      NothingTold(a, ops, id);
    }
  }

  lemma {:induction false} NothingTold(a: Authority, ops: seq<Op>, id: string)
    ensures TellsHistory(a, ops, 0, id)
  {
    assert ops[..0] == [];
  }

  /** Why an enrollment is refused, first reason first, said by what happened before. */
  lemma {:induction false} EnrollmentRefusedFor(a: Authority, ops: seq<Op>, i: nat)
    requires i < |ops| && ops[i].Enrolls? && !Succeeds(a, ops, i)
    ensures var error, token := Attempt(a, StoreAt(a, ops, i), ops[i]).error, Parse(ops[i].text, a.isCertificate);
            if token.None? then error == MalformedToken
            else
              var id := token.value.id;
              if !WasIssued(a, ops, i, id) then error == UnknownConnector
              else if WasEnrolled(a, ops, i, id) || WasDisabled(a, ops, i, id) then error == NoUnusedToken
              else exists j: nat ::
                     LatestIssue(a, ops, i, j, id) &&
                     error == if ops[i].now > ops[j].now + ops[j].ttl then TokenExpired
                              else if ops[j].secret != token.value.secret then WrongSecret
                              else if token.value.ca != a.ca then AnotherCA
                              else BadRequest
  {
    var token := Parse(ops[i].text, a.isCertificate);
    if token.Some? {
      AlwaysRemembers(a, ops, i, token.value.id);
      var id, store := token.value.id, StoreAt(a, ops, i);
      hide Parse, Issues, EnrollsAs, DisablesIt, StoreAfter;
    }
  }

  /** Why a creation and a renewal are. */
  lemma {:induction false} OthersRefusedFor(a: Authority, ops: seq<Op>, i: nat)
    requires i < |ops| && (ops[i].Creates? || ops[i].Renews?) && !Succeeds(a, ops, i)
    ensures var error, id := Attempt(a, StoreAt(a, ops, i), ops[i]).error, ops[i].id;
            if ops[i].Creates? then
              if !IdMatches(id) then error == NotALabel
              else error == AlreadyEnrolled(if WasDisabled(a, ops, i, id) then Disabled else Active)
            else
              if !WasEnrolled(a, ops, i, id) || WasDisabled(a, ops, i, id) then error == NotActive
              else error == BadRequest && ops[i].signed.None?
  {
    AlwaysRemembers(a, ops, i, ops[i].id);
    hide Parse, Issues, EnrollsAs, DisablesIt, StoreAfter, IdMatches;
  }

  /** The registry over a store that it reads and replaces record by record. */
  class Registry {
    const authority: Authority
    var rows: Store

    constructor (authority: Authority)
      ensures this.authority == authority && rows == map[]
    {
      this.authority, rows := authority, map[];
    }

    method Create(id: string, secret: string, now: Time, ttl: int) returns (r: Result<Token, EnrollmentError>)
      modifies this
      ensures rows == After(authority, old(rows), Creates(id, secret, now, ttl))
      ensures var done := Attempt(authority, old(rows), Creates(id, secret, now, ttl));
              r == if done.Ok? then Ok(Token(id, secret, authority.ca)) else Err(done.error)
    {
      if !IdMatches(id) {
        return Err(NotALabel);
      }
      var existing := if id in rows then Some(rows[id]) else None;
      if existing.Some? && existing.value.status != Pending {
        return Err(AlreadyEnrolled(existing.value.status));
      }
      var createdAt := if existing.Some? then existing.value.createdAt else now;
      rows := rows[id := ConnectorRecord(Pending, createdAt, Some(secret), Some(now + ttl), None, None, None)];
      r := Ok(Token(id, secret, authority.ca));
    }

    method Enroll(text: string, signed: Option<Certificate>, now: Time)
      returns (r: Result<Certificate, EnrollmentError>)
      modifies this
      ensures rows == After(authority, old(rows), Enrolls(text, signed, now))
      ensures var done := Attempt(authority, old(rows), Enrolls(text, signed, now));
              if done.Ok? then signed.Some? && r == Ok(signed.value) else r == Err(done.error)
    {
      var token := Parse(text, authority.isCertificate);
      if token.None? {
        return Err(MalformedToken);
      }
      var id := token.value.id;
      if id !in rows {
        return Err(UnknownConnector);
      }
      var record := rows[id];
      if record.status != Pending || record.usedAt.Some? || record.secret.None? {
        return Err(NoUnusedToken);
      }
      if record.expiresAt.None? || now > record.expiresAt.value {
        return Err(TokenExpired);
      }
      if record.secret.value != token.value.secret {
        return Err(WrongSecret);
      }
      if token.value.ca != authority.ca {
        return Err(AnotherCA);
      }
      if signed.None? {
        return Err(BadRequest);
      }
      rows := rows[id := record.(status := Active, secret := None, usedAt := Some(now),
                                 serial := Some(signed.value.serial), notAfter := Some(signed.value.notAfter))];
      r := Ok(signed.value);
    }

    method Renew(id: string, signed: Option<Certificate>) returns (r: Result<Certificate, EnrollmentError>)
      modifies this
      ensures rows == After(authority, old(rows), Renews(id, signed))
      ensures var done := Attempt(authority, old(rows), Renews(id, signed));
              if done.Ok? then signed.Some? && r == Ok(signed.value) else r == Err(done.error)
    {
      if id !in rows || rows[id].status != Active {
        return Err(NotActive);
      }
      if signed.None? {
        return Err(BadRequest);
      }
      rows := rows[id := rows[id].(serial := Some(signed.value.serial), notAfter := Some(signed.value.notAfter))];
      r := Ok(signed.value);
    }

    method Disable(id: string) returns (ok: bool)
      modifies this
      ensures rows == After(authority, old(rows), Disables(id)) && ok == (id in old(rows))
    {
      ok := id in rows;
      if ok {
        rows := rows[id := rows[id].(status := Disabled, secret := None)];
      }
    }

    method Allows(id: string) returns (allowed: bool)
      ensures allowed == IsAllowed(rows, id)
    {
      allowed := id in rows && rows[id].status == Active;
    }
  }
}
