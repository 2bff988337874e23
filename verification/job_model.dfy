/** The durable job record, its status table and its event types. */
module JobModel {
  import opened Text

  datatype Option<+T> = None | Some(value: T)

  /** Nanoseconds. Zero stands for the unset time. */
  type Time = int
  const MINUTE: Time := 60_000_000_000

  datatype Status =
    | Accepted | Queued | Dispatching | Running | Canceling
    | Canceled | Succeeded | Failed | Unknown | Expired

  datatype EventType =
    | EventQueued | EventScheduled | EventRunning | EventCancelling | EventCancelled
    | EventCompleted | EventFailed | EventUnknown | EventExpired | EventLeaseReassigned

  /** The seven columns that say on whose behalf a job runs. */
  datatype Scope = Scope(
    profileScope: string, tenantID: string, credentialSource: string, integrationID: string,
    principalType: string, principalID: string, externalSubject: string)

  /** What the client asked for: never changed. */
  datatype Submission = Submission(
    credentialID: string, requestFingerprint: string, idempotencyKey: string, operation: string)

  datatype AIJob = AIJob(
    id: string, operationID: string, scope: Scope, submission: Submission,
    status: Status, statusVersion: int, priority: int, nextEligibleAt: Time,
    queueLeaseUntil: Option<Time>, queueLeaseToken: string, queueWorkerID: string, fenceToken: int,
    errorType: string, createdAt: Time, updatedAt: Time, completedAt: Option<Time>)

  const PROVEN_NOT_CREATED := "proven_not_created"

  predicate TransitionAllowed(from: Status, to: Status, reason: string) {
    match from
    case Accepted => to == Queued || to == Canceled
    case Queued => to == Dispatching || to == Canceled
    case Dispatching => to in {Queued, Running, Unknown, Canceling}
    case Running => to in {Succeeded, Failed, Canceling, Unknown}
    case Canceling => to in {Canceled, Succeeded, Failed}
    case Unknown =>
      if to == Queued then Trim(reason) == PROVEN_NOT_CREATED
      else to in {Running, Succeeded, Failed}
    case Succeeded => to == Expired
    case Failed => to == Expired
    case Canceled => to == Expired
    case Expired => false
  }

  function EventTypeFor(status: Status): Option<EventType> {
    match status
    case Accepted => None
    case Queued => Some(EventQueued)
    case Dispatching => Some(EventScheduled)
    case Running => Some(EventRunning)
    case Canceling => Some(EventCancelling)
    case Canceled => Some(EventCancelled)
    case Succeeded => Some(EventCompleted)
    case Failed => Some(EventFailed)
    case Unknown => Some(EventUnknown)
    case Expired => Some(EventExpired)
  }

  predicate Terminal(status: Status) {
    status in {Succeeded, Failed, Canceled, Expired}
  }

  const SEPARATOR := "\0"

  function ProfileKey(scope: Scope): string {
    Trim(scope.profileScope)
  }

  function TenantKey(scope: Scope): string {
    ProfileKey(scope) + SEPARATOR + Trim(scope.tenantID)
  }

  function AfterTenant(scope: Scope): string {
    Trim(scope.credentialSource) + SEPARATOR + Trim(scope.integrationID) + SEPARATOR
    + Trim(scope.principalType) + SEPARATOR + Trim(scope.principalID) + SEPARATOR + Trim(scope.externalSubject)
  }

  function PrincipalKey(scope: Scope): string {
    TenantKey(scope) + SEPARATOR + AfterTenant(scope)
  }

  ghost predicate NulFree(s: string) {
    forall i :: 0 <= i < |s| ==> s[i] != '\0'
  }

  /** No column holds the separator. PostgreSQL text cannot. */
  ghost predicate Separable(scope: Scope) {
    NulFree(Trim(scope.profileScope)) && NulFree(Trim(scope.tenantID)) && NulFree(Trim(scope.credentialSource))
    && NulFree(Trim(scope.integrationID)) && NulFree(Trim(scope.principalType)) && NulFree(Trim(scope.principalID))
    && NulFree(Trim(scope.externalSubject))
  }

  function FirstSeparator(s: string): nat {
    if s == [] || s[0] == '\0' then 0 else 1 + FirstSeparator(s[1..])
  }

  lemma {:induction false} FirstSeparatorAfter(a: string, x: string)
    requires NulFree(a)
    ensures FirstSeparator(a + SEPARATOR + x) == |a|
  {
    if a != [] {
      FirstSeparatorAfter(a[1..], x);
      assert (a + SEPARATOR + x)[1..] == a[1..] + SEPARATOR + x;
    }
  }

  lemma {:induction false} SplitUnique(a: string, x: string, b: string, y: string)
    requires NulFree(a) && NulFree(b) && a + SEPARATOR + x == b + SEPARATOR + y
    ensures a == b && x == y
  {
    var s := a + SEPARATOR + x;
    FirstSeparatorAfter(a, x);
    FirstSeparatorAfter(b, y);
    assert a == s[..|a|] == b;
    assert x == s[|a| + 1..] == y;
  }

  lemma Regroup(p: string, t: string, r: string)
    ensures (p + SEPARATOR + t) + SEPARATOR + r == p + SEPARATOR + (t + SEPARATOR + r)
  {}

  /** A tenant key names its profile, and a principal key its tenant. */
  lemma {:induction false} KeysNest(a: Scope, b: Scope)
    requires Separable(a) && Separable(b)
    ensures TenantKey(a) == TenantKey(b) ==> ProfileKey(a) == ProfileKey(b)
    ensures PrincipalKey(a) == PrincipalKey(b) ==> TenantKey(a) == TenantKey(b)
  {
    var tenantA, tenantB, restA, restB := Trim(a.tenantID), Trim(b.tenantID), AfterTenant(a), AfterTenant(b);
    if TenantKey(a) == TenantKey(b) {
      SplitUnique(ProfileKey(a), tenantA, ProfileKey(b), tenantB);
    }
    if PrincipalKey(a) == PrincipalKey(b) {
      Regroup(ProfileKey(a), tenantA, restA);
      Regroup(ProfileKey(b), tenantB, restB);
      SplitUnique(ProfileKey(a), tenantA + SEPARATOR + restA, ProfileKey(b), tenantB + SEPARATOR + restB);
      SplitUnique(tenantA, restA, tenantB, restB);
    }
  }

  /** The seven columns as they are compared. */
  function Columns(s: Scope): seq<string> {
    [ Trim(s.profileScope), Trim(s.tenantID), Trim(s.credentialSource), Trim(s.integrationID), Trim(s.principalType),
      Trim(s.principalID), Trim(s.externalSubject)]
  }

  /** The columns joined by the separator. */
  function Joined(columns: seq<string>): string
    requires columns != []
  {
    if |columns| == 1 then columns[0] else columns[0] + SEPARATOR + Joined(columns[1..])
  }

  lemma {:induction false} JoinedUnique(a: seq<string>, b: seq<string>)
    requires |a| == |b| > 0 && forall i :: 0 <= i < |a| ==> NulFree(a[i]) && NulFree(b[i])
    ensures Joined(a) == Joined(b) <==> a == b
  {
    if |a| > 1 && Joined(a) == Joined(b) {
      SplitUnique(a[0], Joined(a[1..]), b[0], Joined(b[1..]));
      JoinedUnique(a[1..], b[1..]);
      assert a == [a[0]] + a[1..] && b == [b[0]] + b[1..];
    }
  }

  lemma {:induction false} JoinedBoth(a: seq<string>, b: seq<string>)
    requires a != [] && b != []
    ensures Joined(a + b) == Joined(a) + SEPARATOR + Joined(b)
  {
    if |a| == 1 {
      assert (a + b)[1..] == b;
    } else {
      JoinedBoth(a[1..], b);
      assert (a + b)[1..] == a[1..] + b;
      Regroup(a[0], Joined(a[1..]), Joined(b));
    }
  }

  lemma {:induction false} KeysAreJoined(s: Scope)
    ensures TenantKey(s) == Joined(Columns(s)[..2]) && PrincipalKey(s) == Joined(Columns(s))
  {
    var c := Columns(s);
    JoinedBoth(c[..1], c[1..2]);
    JoinedBoth(c[2..3], c[3..4]);
    JoinedBoth(c[2..4], c[4..5]);
    JoinedBoth(c[2..5], c[5..6]);
    JoinedBoth(c[2..6], c[6..]);
    JoinedBoth(c[..2], c[2..]);
    assert c[..1] + c[1..2] == c[..2] && c[2..3] + c[3..4] == c[2..4] && c[2..4] + c[4..5] == c[2..5];
    assert c[2..5] + c[5..6] == c[2..6] && c[2..6] + c[6..] == c[2..] && c[..2] + c[2..] == c;
  }

  /** Equal keys mean equal columns: the profile's first one, the tenant's first two, and all seven of a principal. */
  lemma {:induction false} KeysNameColumns(a: Scope, b: Scope)
    requires Separable(a) && Separable(b)
    ensures ProfileKey(a) == ProfileKey(b) <==> Columns(a)[..1] == Columns(b)[..1]
    ensures TenantKey(a) == TenantKey(b) <==> Columns(a)[..2] == Columns(b)[..2]
    ensures PrincipalKey(a) == PrincipalKey(b) <==> Columns(a) == Columns(b)
  {
    assert Columns(a)[..1] == [Trim(a.profileScope)] && Columns(b)[..1] == [Trim(b.profileScope)];
    KeysAreJoined(a);
    KeysAreJoined(b);
    ColumnsAreSeparable(a);
    ColumnsAreSeparable(b);
    JoinedUnique(Columns(a)[..2], Columns(b)[..2]);
    JoinedUnique(Columns(a), Columns(b));
  }

  lemma ColumnsAreSeparable(s: Scope)
    requires Separable(s)
    ensures forall i :: 0 <= i < 7 ==> NulFree(Columns(s)[i])
  {}
}
