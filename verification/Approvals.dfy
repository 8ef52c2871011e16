/** The approval service: requests bound to the hash of an exact payload, decided by a second
    person or by a tenant policy, and redeemed once, in time, for that payload only. */
module Approvals {
  import opened Common

  datatype DefenceType =
    | ChallengeIp | RateLimitPath | TempBlockIp | RevokeAppSession
    | BlockCountry | DisableAccount | RotateCredentials | ChangeFirewallRule | ShutdownService
    | ChangeDns | ModifyInfrastructure | DeleteData | IsolateNetworkSegment

  datatype ActionType = ScanExecute | Defence(kind: DefenceType) | UnknownType(name: string)

  datatype Risk = Low | Medium | High | Critical

  datatype Policy = Policy(risk: Risk, ttlSeconds: nat, preapprovable: bool, maxPreapprovedTtl: nat)

  /** What an approval payload carries besides its tenant and action type. */
  datatype Body =
    | WafBody(actionId: nat, provider: string, target: string, params: string,
              ttl: Option<int>, confidence: real)
    | ScanBody(jobId: nat, assetId: nat, targetUrl: string, profile: string,
               scanners: seq<string>, ticket: string, authorization: string,
               requestedBy: string, timeoutSeconds: int)
    | OtherBody(json: string, target: string, ttl: Option<int>, confidence: real)

  datatype Payload = Payload(tenant: Option<string>, actionType: Option<ActionType>, body: Body)

  /** `hash` is SHA-256 over the canonical JSON, left abstract; `addresses` is the number of
      addresses of a target that parses as a network, None when it does not parse. */
  datatype Env = Env(hash: Payload -> string, addresses: string -> Option<nat>)

  datatype TenantSettings = TenantSettings(preapprovedLowRisk: bool, preapproved: set<ActionType>)

  datatype Status = Pending | Approved | Rejected | Expired | Executed | Cancelled

  /** Who granted or refused: a signed-in user or the tenant's pre-approval policy. */
  datatype Grantor = User(subject: string) | TenantPolicy

  datatype Approval = Approval(
    tenant: string, actionType: ActionType, payload: Payload, hash: string,
    requestedBy: string, requestedAt: int, expiresAt: int, risk: Risk,
    status: Status, approvedBy: Option<Grantor>, approvedAt: Option<int>,
    consumedAt: Option<int>, consumedBy: Option<string>)

  type Table = map<nat, Approval>

  const PREAPPROVAL_ACTOR: string := "policy:tenant-preapproved-low-risk"
  const FATMA_AGENT: string := "agent:FATMA"
  const MIN_PREAPPROVED_TTL := 60
  const MIN_CONFIDENCE := 0.9

  function NameOf(g: Grantor): string {
    match g
    case User(subject) => subject
    case TenantPolicy => PREAPPROVAL_ACTOR
  }

  predicate LowRisk(kind: DefenceType) {
    (kind.ChallengeIp? || kind.RateLimitPath? || kind.TempBlockIp? || kind.RevokeAppSession?)
  }

  function PolicyFor(actionType: ActionType): Option<Policy> {
    match actionType
    case ScanExecute => Some(Policy(High, 24 * 3600, false, 0))
    case Defence(kind) =>
      var risk :=
        if LowRisk(kind) then Medium
        else if kind.DeleteData? || kind.ShutdownService? || kind.ChangeDns? || kind.IsolateNetworkSegment?
        then Critical
        else High;
      if LowRisk(kind) then Some(Policy(risk, 3600, true, 3600)) else Some(Policy(risk, 1800, false, 0))
    case UnknownType(_) => None
  }

  function TtlOf(p: Payload): int {
    var ttl := match p.body
      case WafBody(_, _, _, _, t, _) => t
      case OtherBody(_, _, t, _) => t
      case ScanBody(_, _, _, _, _, _, _, _, _) => None;
    if ttl.Some? then ttl.value else 0
  }

  function TargetOf(p: Payload): string {
    if p.body.ScanBody? then "" else p.body.target
  }

  function ConfidenceOf(p: Payload): real {
    if p.body.ScanBody? then 0.0 else p.body.confidence
  }

  // ------------------------------------------------------------------ one row, one operation

  function NewRequest(env: Env, tenant: string, actionType: ActionType, p: Payload, requester: string,
                      now: int): Result<Approval, Error> {
    var policy := PolicyFor(actionType);
    if policy.None? then Err(ValidationFailed)
    else if p.tenant != Some(tenant) || p.actionType != Some(actionType) then Err(ValidationFailed)
    else Ok(Approval(tenant, actionType, p, env.hash(p), requester, now, now + policy.value.ttlSeconds,
                     policy.value.risk, Pending, None, None, None, None))
  }

  /** The tenant pre-approval rule; the target is checked before the confidence. */
  function PreapprovalRefusal(env: Env, settings: TenantSettings, actionType: ActionType, p: Payload)
    : Option<Error>
  {
    var policy := PolicyFor(actionType);
    if policy.None? then Some(ValidationFailed)
    else if !settings.preapprovedLowRisk then Some(Forbidden)
    else if !policy.value.preapprovable || actionType !in settings.preapproved then Some(Forbidden)
    else if !(MIN_PREAPPROVED_TTL <= TtlOf(p) <= policy.value.maxPreapprovedTtl) then Some(Forbidden)
    else
      var n := env.addresses(TargetOf(p));
      if n.Some? && n.value != 1 then Some(Forbidden)
      else if n.None? && actionType !in {Defence(RateLimitPath), Defence(RevokeAppSession)} then Some(Forbidden)
      else if ConfidenceOf(p) < MIN_CONFIDENCE then Some(Forbidden)
      else None
  }

  function PolicyGrant(env: Env, tenant: string, settings: TenantSettings, actionType: ActionType,
                       p: Payload, now: int): Result<Approval, Error> {
    var refusal := PreapprovalRefusal(env, settings, actionType, p);
    if refusal.Some? then Err(refusal.value)
    else
      var request := NewRequest(env, tenant, actionType, p, FATMA_AGENT, now);
      if request.Err? then request
      else Ok(request.value.(status := Approved, approvedBy := Some(TenantPolicy), approvedAt := Some(now)))
  }

  /** The tenant's rule in terms of the payload: a low-risk action that the tenant listed, for one minute to
      one hour, with strong evidence, against one address, or against a path or a session. */
  predicate PolicyAllows(env: Env, settings: TenantSettings, actionType: ActionType, p: Payload) {
    && settings.preapprovedLowRisk && actionType in settings.preapproved
    && actionType in {Defence(ChallengeIp), Defence(RateLimitPath), Defence(TempBlockIp), Defence(RevokeAppSession)}
    && !p.body.ScanBody? && p.body.ttl.Some? && 60 <= p.body.ttl.value <= 3600 && p.body.confidence >= 0.9
    && (env.addresses(p.body.target) == Some(1)
        || (env.addresses(p.body.target) == None
            && (actionType == Defence(RateLimitPath) || actionType == Defence(RevokeAppSession))))
  }

  lemma {:induction false} PreapprovalMeans(env: Env, settings: TenantSettings, actionType: ActionType, p: Payload)
    ensures PreapprovalRefusal(env, settings, actionType, p) ==
            if actionType.UnknownType? then Some(ValidationFailed)
            else if PolicyAllows(env, settings, actionType, p) then None else Some(Forbidden)
  {
  }

  /** How long a request stays open, in seconds. */
  function LifetimeOf(actionType: ActionType): int {
    if actionType == ScanExecute then 86400
    else if actionType.Defence? && LowRisk(actionType.kind) then 3600 else 1800
  }

  function RiskOf(actionType: ActionType): Risk {
    if actionType.Defence? && LowRisk(actionType.kind) then Medium
    else if actionType in {Defence(DeleteData), Defence(ShutdownService), Defence(ChangeDns),
                           Defence(IsolateNetworkSegment)} then Critical
    else High
  }

  /** The policy table: lifetimes and risks, and only low-risk actions may be approved in advance. */
  lemma {:induction false} PolicyTable(actionType: ActionType)
    ensures PolicyFor(actionType) ==
            if actionType.UnknownType? then None
            else Some(Policy(RiskOf(actionType), LifetimeOf(actionType), PreapprovedTtl(actionType) > 0,
                             PreapprovedTtl(actionType)))
  {
  }

  function PreapprovedTtl(actionType: ActionType): nat {
    if actionType in {Defence(ChallengeIp), Defence(RateLimitPath), Defence(TempBlockIp), Defence(RevokeAppSession)}
    then 3600 else 0
  }

  function Decision(row: Approval, approve: bool, approver: string, echoed: string, now: int)
    : Result<Approval, Error>
  {
    if row.status != Pending then Err(Conflict)
    else if row.expiresAt <= now then Err(Conflict)  // the EXPIRED write is rolled back
    else if echoed != row.hash then Err(Conflict)
    else if approver == row.requestedBy then Err(Forbidden)
    else Ok(row.(status := if approve then Approved else Rejected,
                 approvedBy := Some(User(approver)), approvedAt := Some(now)))
  }

  function Redemption(env: Env, row: Approval, actionType: ActionType, p: Payload, consumer: string,
                      now: int): Result<Approval, Error> {
    if row.actionType != actionType || env.hash(p) != row.hash then Err(Forbidden)
    else if row.status != Approved || row.expiresAt <= now then Err(Conflict)
    else Ok(row.(status := Executed, consumedAt := Some(now), consumedBy := Some(consumer)))
  }

  function Cancellation(row: Approval, actor: string): Result<Approval, Error> {
    if row.status != Pending then Err(Conflict)
    else if row.requestedBy != actor then Err(Forbidden)
    else Ok(row.(status := Cancelled))
  }

  predicate Overdue(row: Approval, now: int) {
    (row.status.Pending? || row.status.Approved?) && row.expiresAt <= now
  }

  function Swept(rows: Table, now: int): (swept: Table)
    ensures swept.Keys == rows.Keys
  {
    map id | id in rows :: if Overdue(rows[id], now) then rows[id].(status := Expired) else rows[id]
  }

  // ------------------------------------------------------------------ what every row keeps

  predicate Terminal(status: Status) {
    (status.Rejected? || status.Expired? || status.Executed? || status.Cancelled?)
  }

  /** The facts that hold of every stored row at any time. */
  ghost predicate Sound(env: Env, tenant: string, row: Approval) {
    && row.tenant == tenant
    && row.hash == env.hash(row.payload)
    && row.payload.tenant == Some(tenant)
    && row.payload.actionType == Some(row.actionType)
    && row.requestedAt < row.expiresAt
    && ((row.status.Approved? || row.status.Executed? || row.status.Rejected?) ==>
          row.approvedBy.Some? && NameOf(row.approvedBy.value) != row.requestedBy
          && row.approvedAt.Some? && row.approvedAt.value < row.expiresAt)
    && (row.approvedBy == Some(TenantPolicy) ==> PolicyBounds(row))
    && (row.status == Executed <==> row.consumedAt.Some?)
    && (row.consumedAt.Some? ==> row.consumedAt.value < row.expiresAt)
  }

  /** A policy grant covers a low-risk, time-boxed action with strong evidence. */
  predicate PolicyBounds(row: Approval) {
    && row.actionType.Defence? && LowRisk(row.actionType.kind)
    && 60 <= TtlOf(row.payload) <= 3600
    && ConfidenceOf(row.payload) >= 0.9
  }

  ghost predicate SoundTable(env: Env, tenant: string, rows: Table) {
    forall id :: id in rows ==> Sound(env, tenant, rows[id])
  }

  /** The legal moves of one row at time `now`. */
  predicate Moves(a: Approval, b: Approval, now: int) {
    && b.(status := a.status, approvedBy := a.approvedBy, approvedAt := a.approvedAt,
          consumedAt := a.consumedAt, consumedBy := a.consumedBy) == a
    && (a == b
        || (a.status == Pending && (b.status.Approved? || b.status.Rejected?) && now < a.expiresAt
            && b.approvedBy.Some? && b.approvedBy.value.User?
            && b.approvedBy.value.subject != a.requestedBy && b.approvedAt == Some(now)
            && b.consumedAt == a.consumedAt && b.consumedBy == a.consumedBy)
        || (a.status == Approved && b.status == Executed && now < a.expiresAt
            && b.consumedAt == Some(now)
            && b.approvedBy == a.approvedBy && b.approvedAt == a.approvedAt)
        || (b == a.(status := Expired) && (a.status.Pending? || a.status.Approved?) && a.expiresAt <= now)
        || (b == a.(status := Cancelled) && a.status == Pending))
  }

  /** The legal steps of the whole table: rows are never removed, only legal moves happen, and a
      new row is PENDING or granted by the tenant policy. */
  predicate Evolves(pre: Table, post: Table, now: int) {
    && pre.Keys <= post.Keys
    && (forall id :: id in pre ==> Moves(pre[id], post[id], now))
    && (forall id :: id in post && id !in pre ==>
          || post[id].status == Pending
          || (post[id].status == Approved && post[id].approvedBy == Some(TenantPolicy)
              && post[id].approvedAt == Some(now) && now < post[id].expiresAt))
  }

  lemma {:induction false} AddKeepsTable(env: Env, tenant: string, rows: Table, id: nat, row: Approval, now: int)
    requires SoundTable(env, tenant, rows) && id !in rows && Sound(env, tenant, row)
    requires row.status == Pending || (row.status == Approved && row.approvedBy == Some(TenantPolicy)
                                       && row.approvedAt == Some(now) && now < row.expiresAt)
    ensures SoundTable(env, tenant, rows[id := row]) && Evolves(rows, rows[id := row], now)
  {
  }

  lemma {:induction false} UpdateKeepsTable(env: Env, tenant: string, rows: Table, id: nat, row: Approval, now: int)
    requires SoundTable(env, tenant, rows) && id in rows && Sound(env, tenant, row) && Moves(rows[id], row, now)
    ensures SoundTable(env, tenant, rows[id := row]) && Evolves(rows, rows[id := row], now)
  {
  }

  lemma {:induction false} NothingMoves(rows: Table, now: int)
    ensures Evolves(rows, rows, now)
  {
  }

  lemma {:induction false} NewRequestIsSound(env: Env, tenant: string, actionType: ActionType, p: Payload,
                                             requester: string, now: int)
    ensures var r := NewRequest(env, tenant, actionType, p, requester, now);
            r.Ok? ==> Sound(env, tenant, r.value) && r.value.status == Pending
                      && r.value.requestedBy == requester && r.value.payload == p
                      && r.value.actionType == actionType
  {
  }

  /** A policy grant never exceeds its bounds and never approves its own requester. */
  lemma {:induction false} PolicyGrantIsSound(env: Env, tenant: string, settings: TenantSettings,
                                              actionType: ActionType, p: Payload, now: int)
    ensures var r := PolicyGrant(env, tenant, settings, actionType, p, now);
            r.Ok? ==> Sound(env, tenant, r.value) && r.value.status == Approved && PolicyBounds(r.value)
                      && PolicyAllows(env, settings, actionType, p)
                      && settings.preapprovedLowRisk && actionType in settings.preapproved
                      && r.value.payload == p && r.value.actionType == actionType
                      && now < r.value.expiresAt && r.value.approvedAt == Some(now)
  {
    assert PREAPPROVAL_ACTOR[0] != FATMA_AGENT[0];
  }

  /** Redemption succeeds exactly when the row is an unexpired grant for this very hash, and the
      same row can never be redeemed again. */
  lemma {:induction false} RedemptionIsSingleUse(env: Env, row: Approval, actionType: ActionType, p: Payload,
                                                 consumer: string, now: int, later: int, again: string)
    ensures var r := Redemption(env, row, actionType, p, consumer, now);
            && (r.Ok? <==> row.status == Approved && now < row.expiresAt
                           && row.actionType == actionType && env.hash(p) == row.hash)
            && (r.Ok? ==> Redemption(env, r.value, actionType, p, again, later) == Err(Conflict))
  {
  }

  lemma {:induction false} RedemptionMoves(env: Env, tenant: string, row: Approval, actionType: ActionType, p: Payload,
                                           consumer: string, now: int)
    requires Sound(env, tenant, row)
    ensures var r := Redemption(env, row, actionType, p, consumer, now);
            r.Ok? ==> Moves(row, r.value, now) && Sound(env, tenant, r.value)
                      && r.value.status == Executed && r.value.hash == env.hash(p)
  {
  }

  lemma {:induction false} DecisionMoves(env: Env, tenant: string, row: Approval, approve: bool, approver: string,
                                         echoed: string, now: int)
    requires Sound(env, tenant, row)
    ensures var r := Decision(row, approve, approver, echoed, now);
            r.Ok? ==> Moves(row, r.value, now) && Sound(env, tenant, r.value) && echoed == env.hash(row.payload)
  {
  }

  /** A decision is taken exactly on a pending request in time, by somebody else who names its hash. */
  lemma {:induction false} DecisionMeans(row: Approval, approve: bool, approver: string, echoed: string, now: int)
    ensures var r := Decision(row, approve, approver, echoed, now);
            && (r.Ok? <==> row.status == Pending && now < row.expiresAt && echoed == row.hash
                           && approver != row.requestedBy)
            && (r.Ok? ==> r.value == row.(status := if approve then Approved else Rejected,
                                          approvedBy := Some(User(approver)), approvedAt := Some(now)))
            && (r == Err(Forbidden) <==> row.status == Pending && now < row.expiresAt && echoed == row.hash
                                         && approver == row.requestedBy)
            && (r.Err? ==> r == Err(Forbidden) || r == Err(Conflict))
  {
  }

  /** A request is withdrawn exactly by its requester while it is pending. */
  lemma {:induction false} CancellationMeans(row: Approval, actor: string)
    ensures Cancellation(row, actor) ==
            if row.status == Pending && row.requestedBy == actor then Ok(row.(status := Cancelled))
            else if row.status == Pending then Err(Forbidden) else Err(Conflict)
  {
  }

  lemma {:induction false} CancellationMoves(env: Env, tenant: string, row: Approval, actor: string, now: int)
    requires Sound(env, tenant, row)
    ensures var r := Cancellation(row, actor);
            r.Ok? ==> Moves(row, r.value, now) && Sound(env, tenant, r.value) && r.value.status == Cancelled
  {
  }

  lemma {:induction false} ExpiryMoves(env: Env, tenant: string, row: Approval, now: int)
    requires Sound(env, tenant, row) && Overdue(row, now)
    ensures Moves(row, row.(status := Expired), now) && Sound(env, tenant, row.(status := Expired))
  {
  }

  lemma {:induction false} SweepMoves(env: Env, tenant: string, rows: Table, now: int)
    requires SoundTable(env, tenant, rows)
    ensures Evolves(rows, Swept(rows, now), now) && SoundTable(env, tenant, Swept(rows, now))
    ensures forall id :: id in rows ==> !Overdue(Swept(rows, now)[id], now)
  {
    forall id | id in rows
      ensures Moves(rows[id], Swept(rows, now)[id], now) && Sound(env, tenant, Swept(rows, now)[id])
    {
      if Overdue(rows[id], now) {
        ExpiryMoves(env, tenant, rows[id], now);
      }
    }
  }

  // ------------------------------------------------------------------ whole runs of the table

  /** `times[i]` is when the step from `states[i]` to `states[i+1]` happened. */
  ghost predicate IsRun(states: seq<Table>, times: seq<int>) {
    && |states| == |times| + 1
    && states[0] == map[]
    && (forall i :: 0 <= i < |times| ==> Evolves(states[i], states[i + 1], times[i]))
    && (forall i, j :: 0 <= i < j < |times| ==> times[i] <= times[j])
  }

  /** Rejected, expired, executed and cancelled rows never change again. */
  lemma {:induction false} TerminalRowsAreFrozen(states: seq<Table>, times: seq<int>, i: nat, j: nat, id: nat)
    requires IsRun(states, times) && i <= j < |states|
    requires id in states[i] && Terminal(states[i][id].status)
    ensures id in states[j] && states[j][id] == states[i][id]
    decreases j - i
  {
    if i < j {
      TerminalRowsAreFrozen(states, times, i, j - 1, id);
      assert Evolves(states[j - 1], states[j], times[j - 1]);
    }
  }

  /** The tenant's policy granted it, or a user other than the requester. */
  predicate GrantedByAnother(row: Approval) {
    row.approvedBy == Some(TenantPolicy)
    || (row.approvedBy.Some? && row.approvedBy.value.User? && row.approvedBy.value.subject != row.requestedBy)
  }

  /** Every executed approval was granted first, by a second person or by the policy, and redeemed
      strictly later in the run and strictly before its deadline. */
  lemma {:induction false} ExecutedWasGrantedFirst(states: seq<Table>, times: seq<int>, n: nat, id: nat)
    returns (granted: nat, redeemed: nat)
    requires IsRun(states, times) && n < |states|
    requires id in states[n] && states[n][id].status == Executed
    ensures granted < redeemed < n
    ensures id in states[granted + 1] && states[granted + 1][id].status == Approved
    ensures id !in states[granted] || states[granted][id].status == Pending
    ensures states[granted + 1][id].approvedAt == Some(times[granted])
    ensures states[granted + 1][id].approvedBy == states[n][id].approvedBy
    ensures forall k :: granted < k <= redeemed ==> id in states[k] && states[k][id].status == Approved
    ensures times[granted] <= times[redeemed] < states[n][id].expiresAt
    ensures states[n][id].consumedAt == Some(times[redeemed])
    ensures GrantedByAnother(states[n][id])
    ensures forall k :: redeemed < k <= n ==> id in states[k] && states[k][id] == states[n][id]
  {
    assert n > 0;
    assert Evolves(states[n - 1], states[n], times[n - 1]);
    if states[n - 1][id].status == Executed {
      granted, redeemed := ExecutedWasGrantedFirst(states, times, n - 1, id);
    } else {
      redeemed := n - 1;
      granted := GrantOf(states, times, n - 1, id);
    }
  }

  lemma {:induction false} GrantOf(states: seq<Table>, times: seq<int>, n: nat, id: nat) returns (granted: nat)
    requires IsRun(states, times) && n < |states|
    requires id in states[n] && states[n][id].status == Approved
    ensures granted < n
    ensures id !in states[granted] || states[granted][id].status == Pending
    ensures forall k :: granted < k <= n ==> id in states[k] && states[k][id] == states[n][id]
    ensures states[n][id].approvedAt == Some(times[granted]) && times[granted] < states[n][id].expiresAt
    ensures GrantedByAnother(states[n][id])
  {
    assert n > 0;
    assert Evolves(states[n - 1], states[n], times[n - 1]);
    if id in states[n - 1] && states[n - 1][id].status == Approved {
      granted := GrantOf(states, times, n - 1, id);
    } else {
      granted := n - 1;
    }
  }

  // ------------------------------------------------------------------ the service

  /** One tenant's approval table. Every method is one transaction: an error leaves it as it was. */
  class ApprovalService {
    const env: Env
    const tenant: string
    var rows: Table

    ghost predicate Valid()
      reads this
    {
      SoundTable(env, tenant, rows)
    }

    constructor (env: Env, tenant: string)
      ensures Valid() && rows == map[] && this.env == env && this.tenant == tenant
    {
      this.env := env;
      this.tenant := tenant;
      rows := map[];
    }

    method Create(id: nat, actionType: ActionType, p: Payload, requestedBy: string, now: int)
      returns (r: Result<nat, Error>)
      requires Valid() && id !in rows
      modifies this
      ensures Valid() && Evolves(old(rows), rows, now)
      ensures r.Ok? <==> !actionType.UnknownType? && p.tenant == Some(tenant) && p.actionType == Some(actionType)
      ensures r.Ok? ==> r == Ok(id) && rows == old(rows)[id := Approval(
                          tenant, actionType, p, env.hash(p), requestedBy, now, now + LifetimeOf(actionType),
                          RiskOf(actionType), Pending, None, None, None, None)]
      ensures r.Err? ==> r == Err(ValidationFailed) && rows == old(rows)
    {
      NothingMoves(rows, now);
      var policy := PolicyFor(actionType);
      if policy.None? {
        return Err(ValidationFailed);
      }
      if p.tenant != Some(tenant) || p.actionType != Some(actionType) {
        return Err(ValidationFailed);
      }
      var row := Approval(tenant, actionType, p, env.hash(p), requestedBy, now,
                          now + policy.value.ttlSeconds, policy.value.risk, Pending, None, None, None, None);
      AddKeepsTable(env, tenant, rows, id, row, now);
      rows := rows[id := row];
      r := Ok(id);
    }

    method Preapprove(id: nat, settings: TenantSettings, actionType: ActionType, p: Payload, now: int)
      returns (r: Result<nat, Error>)
      requires Valid() && id !in rows
      modifies this
      ensures Valid() && Evolves(old(rows), rows, now)
      ensures r.Ok? <==> PolicyAllows(env, settings, actionType, p)
                         && p.tenant == Some(tenant) && p.actionType == Some(actionType)
      ensures r.Ok? ==> r == Ok(id) && rows == old(rows)[id := Approval(
                          tenant, actionType, p, env.hash(p), "agent:FATMA", now, now + 3600, Medium,
                          Approved, Some(TenantPolicy), Some(now), None, None)] && PolicyBounds(rows[id])
      ensures r == Err(Forbidden) <==> !actionType.UnknownType? && !PolicyAllows(env, settings, actionType, p)
      ensures r.Err? ==> (r == Err(Forbidden) || r == Err(ValidationFailed)) && rows == old(rows)
    {
      NothingMoves(rows, now);
      ghost var before := rows;
      PolicyGrantIsSound(env, tenant, settings, actionType, p, now);
      PreapprovalMeans(env, settings, actionType, p);
      PolicyTable(actionType);
      var refusal := PreapprovalRefusal(env, settings, actionType, p);
      if refusal.Some? {
        return Err(refusal.value);
      }
      r := Create(id, actionType, p, FATMA_AGENT, now);
      if r.Ok? {
        var row := rows[id].(status := Approved, approvedBy := Some(TenantPolicy), approvedAt := Some(now));
        AddKeepsTable(env, tenant, before, id, row, now);
        rows := rows[id := row];
        assert rows == before[id := row];
      }
    }

    /** Four eyes: only another person, only the reviewed payload, only before the deadline. */
    method Decide(id: nat, approve: bool, approver: string, echoed: string, now: int)
      returns (r: Result<nat, Error>)
      requires Valid()
      modifies this
      ensures Valid() && Evolves(old(rows), rows, now)
      ensures r.Ok? <==> id in old(rows) && old(rows)[id].status == Pending && now < old(rows)[id].expiresAt
                         && echoed == env.hash(old(rows)[id].payload) && approver != old(rows)[id].requestedBy
      ensures r.Ok? ==> rows == old(rows)[id := old(rows)[id].(
                          status := if approve then Approved else Rejected,
                          approvedBy := Some(User(approver)), approvedAt := Some(now))]
      ensures r.Err? ==> rows == old(rows)
      ensures r == Err(NotFound) <==> id !in old(rows)
      ensures r == Err(Forbidden) <==>
                id in old(rows) && old(rows)[id].status == Pending && now < old(rows)[id].expiresAt
                && echoed == env.hash(old(rows)[id].payload) && approver == old(rows)[id].requestedBy
      ensures r.Err? ==> r.error in {NotFound, Forbidden, Conflict}
    {
      NothingMoves(rows, now);
      if id !in rows {
        return Err(NotFound);
      }
      var req := rows[id];
      if req.status != Pending {
        return Err(Conflict);
      }
      if req.expiresAt <= now {
        req := req.(status := Expired);  // never stored: the raise rolls the transaction back
        return Err(Conflict);
      }
      if echoed != req.hash {
        return Err(Conflict);
      }
      if approver == req.requestedBy {
        return Err(Forbidden);
      }
      req := req.(status := if approve then Approved else Rejected);
      req := req.(approvedBy := Some(User(approver)));
      req := req.(approvedAt := Some(now));
      UpdateKeepsTable(env, tenant, rows, id, req, now);
      rows := rows[id := req];
      r := Ok(id);
    }

    /** An approval is spent here, and only for the action whose payload it was granted for. */
    method Consume(id: nat, actionType: ActionType, p: Payload, consumer: string, now: int)
      returns (r: Result<nat, Error>)
      requires Valid()
      modifies this
      ensures Valid() && Evolves(old(rows), rows, now)
      ensures r.Ok? <==> id in old(rows) && old(rows)[id].status == Approved && now < old(rows)[id].expiresAt
                         && old(rows)[id].actionType == actionType && env.hash(old(rows)[id].payload) == env.hash(p)
      ensures r.Ok? ==> rows == old(rows)[id := old(rows)[id].(
                          status := Executed, consumedAt := Some(now), consumedBy := Some(consumer))]
      ensures r.Err? ==> rows == old(rows)
      ensures r == Err(NotFound) <==> id !in old(rows)
      ensures r == Err(Forbidden) <==>
                id in old(rows) && (old(rows)[id].actionType != actionType
                                    || env.hash(old(rows)[id].payload) != env.hash(p))
      ensures r.Err? ==> r.error in {NotFound, Forbidden, Conflict}
    {
      NothingMoves(rows, now);
      if id !in rows {
        return Err(NotFound);
      }
      if rows[id].actionType != actionType || env.hash(p) != rows[id].hash {
        return Err(Forbidden);
      }
      if !(rows[id].status == Approved && rows[id].expiresAt > now) {
        return Err(Conflict);
      }
      var row := rows[id].(status := Executed, consumedAt := Some(now), consumedBy := Some(consumer));
      UpdateKeepsTable(env, tenant, rows, id, row, now);
      rows := rows[id := row];
      r := Ok(id);
    }

    method Cancel(id: nat, actor: string, now: int) returns (r: Result<nat, Error>)
      requires Valid()
      modifies this
      ensures Valid() && Evolves(old(rows), rows, now)
      ensures r.Ok? <==> id in old(rows) && old(rows)[id].status == Pending && old(rows)[id].requestedBy == actor
      ensures r.Ok? ==> rows == old(rows)[id := old(rows)[id].(status := Cancelled)]
      ensures r.Err? ==> rows == old(rows)
      ensures r == Err(NotFound) <==> id !in old(rows)
      ensures r == Err(Forbidden) <==>
                id in old(rows) && old(rows)[id].status == Pending && old(rows)[id].requestedBy != actor
      ensures r.Err? ==> r.error in {NotFound, Forbidden, Conflict}
    {
      NothingMoves(rows, now);
      if id !in rows {
        return Err(NotFound);
      }
      if rows[id].status != Pending {
        return Err(Conflict);
      }
      if rows[id].requestedBy != actor {
        return Err(Forbidden);
      }
      var row := rows[id].(status := Cancelled);
      UpdateKeepsTable(env, tenant, rows, id, row, now);
      rows := rows[id := row];
      r := Ok(id);
    }

    /** The SQL sweep: afterwards nothing open is past its deadline. */
    method ExpireAll(now: int) returns (count: nat)
      requires Valid()
      modifies this
      ensures Valid() && Evolves(old(rows), rows, now) && rows.Keys == old(rows).Keys
      ensures forall id :: id in rows ==>
                rows[id] == if (old(rows)[id].status == Pending || old(rows)[id].status == Approved)
                               && old(rows)[id].expiresAt <= now
                            then old(rows)[id].(status := Expired) else old(rows)[id]
      ensures count == |set id | id in rows && rows[id] != old(rows)[id]|
      ensures forall id :: id in rows && (rows[id].status == Pending || rows[id].status == Approved) ==>
                now < rows[id].expiresAt
    {
      SweepMoves(env, tenant, rows, now);
      count := |set id | id in rows && Overdue(rows[id], now)|;
      rows := Swept(rows, now);
      assert (set id | id in rows && rows[id] != old(rows)[id])
          == (set id | id in old(rows) && Overdue(old(rows)[id], now));
    }
  }
}
