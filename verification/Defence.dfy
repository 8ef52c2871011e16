/** Defensive actions: recommended, approved, executed once, then reverted or expired.
    Each method of `DefenceTable` is one whole transaction; what the approval service and the
    provider answered inside it arrives as a parameter. `Protocol` opens these transactions up. */
module Defence {
  import opened Common
  import Approvals

  datatype ActionStatus =
    | Recommended | PendingApproval | Approved | Executing | Active
    | Expired | Failed | Reverted | Rejected | Dismissed

  datatype Mode = RecommendOnly | PreapprovedLowRisk | HumanApproved

  datatype Action = Action(
    kind: Approvals.DefenceType, provider: string, target: string, params: string, confidence: real,
    ttl: Option<int>, hash: string, mode: Mode, status: ActionStatus, approvalId: Option<nat>,
    executedAt: Option<int>, executedBy: string, expiresAt: Option<int>, providerRef: string,
    createdBy: string)

  type Table = map<nat, Action>

  /** A parsed network: IPv6 or not, publicly routable or not, its size and canonical text. */
  datatype Network = Network(v6: bool, isGlobal: bool, documentation: bool, size: nat, canonical: string)

  /** Address parsing and letter classes are the runtime's; they stay abstract. */
  datatype Targets = Targets(network: string -> Option<Network>, alpha: char -> bool, upper: string -> string)

  /** What the provider did with `apply`: a reference, a reported outage, or an unexpected error. */
  datatype ProviderReply = Reference(ref: string) | Outage | Crash

  const LOW_RISK_TTL := 900
  const MIN_TTL := 60
  const MAX_TTL_LOW := 3600
  const MAX_TTL_HIGH := 604800

  function ActionPayload(tenant: string, id: nat, a: Action): Approvals.Payload {
    Approvals.Payload(Some(tenant), Some(Approvals.Defence(a.kind)),
                      Approvals.WafBody(id, a.provider, a.target, a.params, a.ttl, a.confidence))
  }

  /** The columns an approval is bound to. */
  predicate SameBinding(a: Action, b: Action) {
    a.kind == b.kind && a.provider == b.provider && a.target == b.target && a.params == b.params
    && a.confidence == b.confidence && a.ttl == b.ttl && a.hash == b.hash
  }

  /** The payload asks for exactly this action: its type, provider, target, parameters, lifetime and
      confidence, under its own identifier and tenant. */
  predicate AsksFor(p: Approvals.Payload, tenant: string, id: nat, a: Action) {
    && p.tenant == Some(tenant) && p.actionType == Some(Approvals.Defence(a.kind)) && p.body.WafBody?
    && p.body.actionId == id && p.body.provider == a.provider && p.body.target == a.target
    && p.body.params == a.params && p.body.ttl == a.ttl && p.body.confidence == a.confidence
  }

  /** Two actions have the same payload only if they are the same in everything an approval is given for,
      down to the tenant and the identifier. */
  lemma {:induction false} PayloadsAreDistinct(tenant: string, id: nat, a: Action, tenant': string, id': nat,
                                               a': Action)
    ensures ActionPayload(tenant, id, a) == ActionPayload(tenant', id', a') <==>
              && tenant == tenant' && id == id' && a.kind == a'.kind && a.provider == a'.provider
              && a.target == a'.target && a.params == a'.params && a.ttl == a'.ttl && a.confidence == a'.confidence
    ensures AsksFor(ActionPayload(tenant, id, a), tenant, id, a)
  {
  }

  function ValidateTarget(env: Targets, kind: Approvals.DefenceType, target: string, allowDocumentation: bool)
    : Result<string, Error>
  {
    match kind
    case ChallengeIp | TempBlockIp =>
      var net := env.network(target);
      if net.None? then Err(ValidationFailed)
      else if !net.value.isGlobal && !(allowDocumentation && net.value.documentation) then Err(ValidationFailed)
      else if net.value.size > (if net.value.v6 then 0x1_0000_0000_0000_0000 else 256) then Err(ValidationFailed)
      else Ok(net.value.canonical)
    case BlockCountry =>
      if |target| == 2 && env.alpha(target[0]) && env.alpha(target[1]) then Ok(env.upper(target))
      else Err(ValidationFailed)
    case RateLimitPath =>
      if |target| == 0 || target[0] != '/' || |target| > 200 then Err(ValidationFailed) else Ok(target)
    case _ =>
      if |target| == 0 || |target| > 200 then Err(ValidationFailed) else Ok(target)
  }

  /** What a target has to be for an action: a public network of at most 256 addresses, or 2^64 in IPv6, a
      two-letter country, a path, or any other short name. */
  predicate Targetable(env: Targets, kind: Approvals.DefenceType, target: string, allowDocumentation: bool) {
    if kind.ChallengeIp? || kind.TempBlockIp? then
      var net := env.network(target);
      && net.Some? && (net.value.isGlobal || (allowDocumentation && net.value.documentation))
      && net.value.size <= (if net.value.v6 then 18446744073709551616 else 256)
    else if kind.BlockCountry? then |target| == 2 && env.alpha(target[0]) && env.alpha(target[1])
    else 0 < |target| <= 200 && (kind.RateLimitPath? ==> target[0] == '/')
  }

  /** The form in which a target is stored. */
  function Stored(env: Targets, kind: Approvals.DefenceType, target: string): string {
    if kind.BlockCountry? then env.upper(target)
    else if (kind.ChallengeIp? || kind.TempBlockIp?) && env.network(target).Some?
    then env.network(target).value.canonical else target
  }

  lemma {:induction false} TargetMeans(env: Targets, kind: Approvals.DefenceType, target: string,
                                       allowDocumentation: bool)
    ensures ValidateTarget(env, kind, target, allowDocumentation) ==
            if Targetable(env, kind, target, allowDocumentation) then Ok(Stored(env, kind, target))
            else Err(ValidationFailed)
  {
  }

  /** The lifetime an action gets when it is asked for with `ttl`, if any is allowed. */
  lemma {:induction false} LifetimeMeans(kind: Approvals.DefenceType, ttl: Option<int>)
    ensures var t := EffectiveTtl(kind, ttl);
            && (ttl == None || ttl == Some(0) ==> t == if Approvals.LowRisk(kind) then Some(900) else None)
            && (t.None? || TtlInRange(kind, t) <==>
                  ttl == None || ttl == Some(0)
                  || 60 <= ttl.value <= if Approvals.LowRisk(kind) then 3600 else 604800)
            && (ttl.Some? && ttl.value != 0 ==> t == ttl)
  {
  }

  /** A missing or zero lifetime falls back to 15 minutes for low-risk actions, else to none. */
  function EffectiveTtl(kind: Approvals.DefenceType, ttl: Option<int>): Option<int> {
    if ttl.Some? && ttl.value != 0 then ttl
    else if Approvals.LowRisk(kind) then Some(LOW_RISK_TTL) else None
  }

  predicate TtlInRange(kind: Approvals.DefenceType, ttl: Option<int>) {
    && (ttl.Some? ==> MIN_TTL <= ttl.value <= (if Approvals.LowRisk(kind) then MAX_TTL_LOW else MAX_TTL_HIGH))
    && (ttl.None? ==> !Approvals.LowRisk(kind))
  }

  /** Statuses that make `recommend` hand back the existing row. */
  predicate Open(a: Action) {
    (a.status.Recommended? || a.status.PendingApproval? || a.status.Active?)
  }

  predicate OpenFor(a: Action, kind: Approvals.DefenceType, target: string) {
    Open(a) && a.kind == kind && a.target == target
  }

  function NewAction(env: Approvals.Env, tenant: string, id: nat, kind: Approvals.DefenceType, provider: string,
                     target: string, params: string, confidence: real, ttl: Option<int>, mode: Mode,
                     createdBy: string): (a: Action)
    ensures a.status == Recommended && a.approvalId == None
    ensures a.hash == env.hash(ActionPayload(tenant, id, a))
    ensures a.kind == kind && a.target == target && a.ttl == ttl
  {
    var bare := Action(kind, provider, target, params, confidence, ttl, "",
                       if Approvals.LowRisk(kind) then mode else RecommendOnly,
                       Recommended, None, None, "", None, "", createdBy);
    bare.(hash := env.hash(ActionPayload(tenant, id, bare)))
  }

  /** A fresh recommendation with everything it was asked for, bound to the hash of its own payload. */
  predicate IsNew(env: Approvals.Env, tenant: string, id: nat, a: Action, provider: string, params: string,
                  confidence: real, ttl: Option<int>, mode: Mode, createdBy: string) {
    && a.status == Recommended && a.approvalId == None && a.executedAt == None && a.expiresAt == None
    && a.executedBy == "" && a.providerRef == "" && a.createdBy == createdBy
    && a.provider == provider && a.params == params && a.confidence == confidence
    && a.ttl == (if ttl.Some? && ttl.value != 0 then ttl
                 else if Approvals.LowRisk(a.kind) then Some(900) else None)
    && a.hash == env.hash(ActionPayload(tenant, id, a))
    && a.mode == (if Approvals.LowRisk(a.kind) then mode else RecommendOnly)
  }

  /** The row `recommend` would insert: target and lifetime checked, in that order. */
  function Recommendation(env: Approvals.Env, targets: Targets, tenant: string, id: nat,
                          kind: Approvals.DefenceType, target: string, ttlSeconds: Option<int>, params: string,
                          confidence: real, createdBy: string, mode: Mode, provider: string,
                          allowDocumentation: bool): (r: Result<Action, Error>)
    ensures r.Ok? ==> TtlInRange(kind, r.value.ttl) && r.value.status == Recommended && r.value.kind == kind
                      && r.value.hash == env.hash(ActionPayload(tenant, id, r.value))
                      && r.value.approvalId == None
  {
    var checked := ValidateTarget(targets, kind, target, allowDocumentation);
    var ttl := EffectiveTtl(kind, ttlSeconds);
    if checked.Err? then Err(checked.error)
    else if ttl.Some? && !TtlInRange(kind, ttl) then Err(ValidationFailed)
    else Ok(NewAction(env, tenant, id, kind, provider, checked.value, params, confidence, ttl, mode, createdBy))
  }

  lemma {:induction false} NewIsNew(env: Approvals.Env, tenant: string, id: nat, kind: Approvals.DefenceType,
                                    provider: string, target: string, params: string, confidence: real,
                                    ttlSeconds: Option<int>, mode: Mode, createdBy: string)
    requires EffectiveTtl(kind, ttlSeconds).Some? ==> TtlInRange(kind, EffectiveTtl(kind, ttlSeconds))
    ensures var a := NewAction(env, tenant, id, kind, provider, target, params, confidence,
                               EffectiveTtl(kind, ttlSeconds), mode, createdBy);
            RowValid(env, tenant, id, a) && IsNew(env, tenant, id, a, provider, params, confidence, ttlSeconds, mode,
                                                  createdBy)
  {
  }

  function Requested(a: Action, approval: nat): Action {
    a.(approvalId := Some(approval), status := PendingApproval, mode := HumanApproved)
  }

  function Activated(a: Action, ref: string, executedBy: string, now: int): Action {
    a.(providerRef := ref, executedAt := Some(now), executedBy := executedBy,
       expiresAt := if a.ttl.Some? && a.ttl.value != 0 then Some(now + a.ttl.value) else None,
       status := Active)
  }

  /** `b` is `a` put into force: who did it, when, under which reference and until when, and nothing else. */
  predicate ActivatedAs(a: Action, b: Action, ref: string, executedBy: string, now: int) {
    && b == a.(status := Active, providerRef := ref, executedBy := executedBy, executedAt := Some(now),
               expiresAt := b.expiresAt)
    && (a.ttl.Some? && a.ttl.value != 0 ==> b.expiresAt == Some(now + a.ttl.value))
    && (a.ttl.None? || a.ttl.value == 0 ==> b.expiresAt == None)
  }

  /** The row after `execute`, None when the call raises. */
  function Executed(a: Action, reply: ProviderReply, executedBy: string, now: int): Option<Action> {
    if (!a.status.PendingApproval? && !a.status.Approved?) || reply.Crash? then None
    else if reply.Outage? then Some(a.(status := Failed))
    else Some(Activated(a, reply.ref, executedBy, now))
  }

  predicate Preapprovable(a: Action) {
    a.mode == PreapprovedLowRisk && Approvals.LowRisk(a.kind) && a.status == Recommended
  }

  /** The flushed, never committed row that carries a policy grant. */
  function Granted(a: Action, approval: nat): Action {
    a.(approvalId := Some(approval), status := Approved)
  }

  predicate Due(a: Action, now: int) {
    a.status == Active && a.expiresAt.Some? && a.expiresAt.value <= now
  }

  // ------------------------------------------------------------------ invariants

  ghost predicate RowValid(env: Approvals.Env, tenant: string, id: nat, a: Action) {
    && (!a.status.Approved? && !a.status.Executing?)
    && a.hash == env.hash(ActionPayload(tenant, id, a))
    && TtlInRange(a.kind, a.ttl)
    && (a.status.PendingApproval? || a.status.Active? || a.status.Expired? || a.status.Failed? || a.status.Reverted? ==>
          a.approvalId.Some?)
    && ((a.status.Active? || a.status.Expired? || a.status.Reverted?) ==>
          a.executedAt.Some?
          && a.expiresAt == if a.ttl.Some? then Some(a.executedAt.value + a.ttl.value) else None)
  }

  ghost predicate TableValid(env: Approvals.Env, tenant: string, rows: Table) {
    && (forall id :: id in rows ==> RowValid(env, tenant, id, rows[id]))
    && OneOpenEach(rows)
  }

  predicate OpenAt(rows: Table, id: nat) {
    id in rows && Open(rows[id])
  }

  /** At most one open action for every kind and target. */
  ghost predicate OneOpenEach(rows: Table) {
    forall i, j ::
      OpenAt(rows, i) && OpenAt(rows, j) && rows[i].kind == rows[j].kind && rows[i].target == rows[j].target
      ==> i == j
  }

  predicate Closed(s: ActionStatus) {
    (s.Expired? || s.Failed? || s.Reverted? || s.Rejected? || s.Dismissed?)
  }

  /** What one transaction at time `now` may do to one row. */
  predicate RowMoves(a: Action, b: Action, now: int) {
    && SameBinding(a, b)
    && (Closed(a.status) ==> b == a)
    && (a.status == Active ==> b == a || b == a.(status := Reverted)
                               || (b == a.(status := Expired) && Due(a, now)))
    && (b.status == Active && a.status != Active ==>
          (a.status.Recommended? || a.status.PendingApproval?) && b.executedAt == Some(now))
    && ((b.status.Expired? || b.status.Reverted?) && a.status != b.status ==> a.status == Active)
  }

  ghost predicate Evolves(pre: Table, post: Table, now: int) {
    && pre.Keys <= post.Keys
    && (forall id :: id in pre ==> RowMoves(pre[id], post[id], now))
    && (forall id :: id in post && id !in pre ==> post[id].status == Recommended)
  }

  /** Every row is bound to the hash of its own payload, is never left half executed, and once it has asked
      for approval names one. */
  lemma {:induction false} RowsAreBound(env: Approvals.Env, tenant: string, rows: Table, id: nat)
    requires TableValid(env, tenant, rows) && id in rows
    ensures rows[id].hash == env.hash(ActionPayload(tenant, id, rows[id]))
    ensures rows[id].status != Approved && rows[id].status != Executing
    ensures rows[id].status in {PendingApproval, Active, Expired, Failed, Reverted} ==> rows[id].approvalId.Some?
  {
    assert RowValid(env, tenant, id, rows[id]);
  }

  /** No two actions of one type and target are recommended, pending or active at once. */
  lemma {:induction false} OneActionEach(env: Approvals.Env, tenant: string, rows: Table, i: nat, j: nat)
    requires TableValid(env, tenant, rows) && i in rows && j in rows && i != j
    requires rows[i].kind == rows[j].kind && rows[i].target == rows[j].target
    ensures !((rows[i].status == Recommended || rows[i].status == PendingApproval || rows[i].status == Active)
              && (rows[j].status == Recommended || rows[j].status == PendingApproval || rows[j].status == Active))
  {
    assert OpenAt(rows, i) && OpenAt(rows, j) ==> i == j;
  }

  /** An ACTIVE low-risk action always ends between one minute and one hour after it started. */
  lemma {:induction false} ActiveLowRiskIsTimeBoxed(env: Approvals.Env, tenant: string, rows: Table, id: nat)
    requires TableValid(env, tenant, rows) && id in rows
    requires rows[id].status == Active && Approvals.LowRisk(rows[id].kind)
    ensures rows[id].executedAt.Some? && rows[id].expiresAt.Some?
    ensures rows[id].executedAt.value + 60 <= rows[id].expiresAt.value <= rows[id].executedAt.value + 3600
  {
    assert RowValid(env, tenant, id, rows[id]);
  }

  /** An id on a due list is, from then on, either still due or no longer ACTIVE. */
  ghost predicate Listed(rows: Table, id: nat, now: int) {
    && id in rows && (rows[id].status == Active ==> Due(rows[id], now))
    && !rows[id].status.Recommended? && !rows[id].status.PendingApproval?
    && !rows[id].status.Approved? && !rows[id].status.Executing?
  }

  /** What the sweep finds due may be acted on: every active row whose deadline has passed. */
  lemma {:induction false} OverdueIsListed(rows: Table, id: nat, now: int)
    requires id in rows && rows[id].status == Active
    ensures Listed(rows, id, now) <==> rows[id].expiresAt.Some? && rows[id].expiresAt.value <= now
  {
  }

  /** The list read by the sweep's first transaction stays safe to act on in its later ones. */
  lemma {:induction false} ListedStaysListed(pre: Table, post: Table, id: nat, listedAt: int, stepAt: int, now: int)
    requires Listed(pre, id, listedAt) && Evolves(pre, post, stepAt) && listedAt <= now
    ensures Listed(post, id, now)
  {
    assert RowMoves(pre[id], post[id], stepAt);
  }

  /** Whole runs: `times[i]` is when the transaction from `states[i]` to `states[i+1]` committed. */
  ghost predicate IsRun(states: seq<Table>, times: seq<int>) {
    && |states| == |times| + 1
    && states[0] == map[]
    && (forall i :: 0 <= i < |times| ==> Evolves(states[i], states[i + 1], times[i]))
    && (forall i, j :: 0 <= i < j < |times| ==> times[i] <= times[j])
  }

  /** The approved binding of an action is the one it was recommended with, for ever. */
  lemma {:induction false} BindingNeverChanges(states: seq<Table>, times: seq<int>, i: nat, j: nat, id: nat)
    requires IsRun(states, times) && i <= j < |states| && id in states[i]
    ensures id in states[j] && SameBinding(states[i][id], states[j][id])
    ensures var a, b := states[i][id], states[j][id];
            && b.kind == a.kind && b.provider == a.provider && b.target == a.target && b.params == a.params
            && b.ttl == a.ttl && b.confidence == a.confidence && b.hash == a.hash
    ensures Closed(states[i][id].status) ==> states[j][id] == states[i][id]
    decreases j - i
  {
    if i < j {
      BindingNeverChanges(states, times, i, j - 1, id);
      assert Evolves(states[j - 1], states[j], times[j - 1]);
      assert RowMoves(states[j - 1][id], states[j][id], times[j - 1]);
    }
  }

  /** EXPIRED is reached only from ACTIVE, at a time not before the recorded deadline, and every
      action is activated at most once. */
  lemma {:induction false} ExpiredWasDue(states: seq<Table>, times: seq<int>, n: nat, id: nat) returns (k: nat)
    requires IsRun(states, times) && n < |states| && id in states[n] && states[n][id].status == Expired
    ensures k < n && id in states[k] && states[k][id].status == Active
    ensures states[n][id] == states[k][id].(status := Expired)
    ensures states[n][id].expiresAt.Some? && states[n][id].expiresAt.value <= times[k]
  {
    assert n > 0;
    assert Evolves(states[n - 1], states[n], times[n - 1]);
    assert id in states[n - 1] ==> RowMoves(states[n - 1][id], states[n][id], times[n - 1]);
    if states[n - 1][id].status == Expired {
      k := ExpiredWasDue(states, times, n - 1, id);
    } else {
      k := n - 1;
    }
  }

  lemma {:induction false} AddKeepsTable(env: Approvals.Env, tenant: string, rows: Table, id: nat, a: Action, now: int)
    requires TableValid(env, tenant, rows) && id !in rows
    requires RowValid(env, tenant, id, a) && a.status == Recommended
    requires forall e :: e in rows ==> !OpenFor(rows[e], a.kind, a.target)
    ensures TableValid(env, tenant, rows[id := a]) && Evolves(rows, rows[id := a], now)
  {
    forall i | OpenAt(rows[id := a], i) && i != id
      ensures OpenAt(rows, i) && !(rows[i].kind == a.kind && rows[i].target == a.target)
    {
      assert !OpenFor(rows[i], a.kind, a.target);
    }
  }

  lemma {:induction false} UpdateKeepsTable(env: Approvals.Env, tenant: string, rows: Table, id: nat, b: Action,
                                            now: int)
    requires TableValid(env, tenant, rows) && id in rows
    requires RowMoves(rows[id], b, now) && RowValid(env, tenant, id, b)
    requires Open(b) ==> Open(rows[id])
    ensures TableValid(env, tenant, rows[id := b]) && Evolves(rows, rows[id := b], now)
  {
    forall i | OpenAt(rows[id := b], i)
      ensures OpenAt(rows, i)
    {
    }
  }

  lemma {:induction false} TakingBackKeepsTable(env: Approvals.Env, tenant: string, rows: Table, id: nat, b: Action)
    requires TableValid(env, tenant, rows) && id in rows && rows[id].status == Active
    requires b == rows[id].(status := b.status) && (b.status.Expired? || b.status.Reverted?)
    ensures TableValid(env, tenant, rows[id := b])
  {
    forall i | OpenAt(rows[id := b], i)
      ensures OpenAt(rows, i)
    {
    }
  }

  lemma {:induction false} NothingMoves(rows: Table, now: int)
    ensures Evolves(rows, rows, now)
  {
  }

  /** What a sweep over `due` leaves: the listed ACTIVE rows whose provider agreed are EXPIRED. */
  function SweptRows(rows: Table, due: seq<nat>, providerOk: nat -> bool): Table {
    map id | id in rows ::
      if id in due && rows[id].status == Active && providerOk(id) then rows[id].(status := Expired) else rows[id]
  }

  lemma {:induction false} SweepOne(rows: Table, due: seq<nat>, providerOk: nat -> bool, i: nat)
    requires i < |due| && due[i] in rows
    requires Closed(rows[due[i]].status) || rows[due[i]].status == Active
    ensures var before, after := SweptRows(rows, due[..i], providerOk), SweptRows(rows, due[..i + 1], providerOk);
            after == (if before[due[i]].status == Active && providerOk(due[i])
                      then before[due[i] := before[due[i]].(status := Expired)] else before)
    ensures SweptRows(rows, due[..i], providerOk)[due[i]] == rows[due[i]]
            || SweptRows(rows, due[..i], providerOk)[due[i]].status == Expired
  {
    assert due[..i + 1] == due[..i] + [due[i]];
  }

  lemma {:induction false} SweepEvolves(rows: Table, due: seq<nat>, providerOk: nat -> bool, now: int)
    requires forall k :: 0 <= k < |due| ==> Listed(rows, due[k], now)
    ensures Evolves(rows, SweptRows(rows, due, providerOk), now)
  {
  }

  // ------------------------------------------------------------------ the service

  class DefenceTable {
    const env: Approvals.Env
    const targets: Targets
    const tenant: string
    var rows: Table

    ghost predicate Valid()
      reads this
    {
      TableValid(env, tenant, rows)
    }

    constructor (env: Approvals.Env, targets: Targets, tenant: string)
      ensures Valid() && rows == map[]
    {
      this.env := env;
      this.targets := targets;
      this.tenant := tenant;
      rows := map[];
    }

    /** Returns the open action for the same kind and target if there is one, else adds one. */
    method Recommend(id: nat, kind: Approvals.DefenceType, target: string, ttlSeconds: Option<int>,
                     params: string, confidence: real, createdBy: string, mode: Mode, provider: string,
                     allowDocumentation: bool, now: int)
      returns (r: Result<nat, Error>)
      requires Valid() && id !in rows
      modifies this
      ensures Valid() && Evolves(old(rows), rows, now)
      ensures r.Ok? <==>
                && Targetable(targets, kind, target, allowDocumentation)
                && (ttlSeconds == None || ttlSeconds == Some(0)
                    || 60 <= ttlSeconds.value <= if Approvals.LowRisk(kind) then 3600 else 604800)
      ensures r.Err? ==> r == Err(ValidationFailed) && rows == old(rows)
      ensures r.Ok? ==>
                && r.value in rows && rows[r.value].kind == kind
                && rows[r.value].target == Stored(targets, kind, target)
                && (rows[r.value].status == Recommended || rows[r.value].status == PendingApproval
                    || rows[r.value].status == Active)
      ensures r.Ok? && r.value in old(rows) ==> rows == old(rows)
      ensures r.Ok? && r.value !in old(rows) ==>
                && r.value == id && rows == old(rows)[id := rows[id]]
                && IsNew(env, tenant, id, rows[id], provider, params, confidence, ttlSeconds, mode, createdBy)
    {
      NothingMoves(rows, now);
      TargetMeans(targets, kind, target, allowDocumentation);
      LifetimeMeans(kind, ttlSeconds);
      var checked := ValidateTarget(targets, kind, target, allowDocumentation);
      if checked.Err? {
        return Err(checked.error);
      }
      var ttl := EffectiveTtl(kind, ttlSeconds);
      if ttl.Some? && !TtlInRange(kind, ttl) {
        return Err(ValidationFailed);
      }
      if existing :| existing in rows && OpenFor(rows[existing], kind, checked.value) {
        return Ok(existing);
      }
      var a := NewAction(env, tenant, id, kind, provider, checked.value, params, confidence, ttl, mode, createdBy);
      NewIsNew(env, tenant, id, kind, provider, checked.value, params, confidence, ttlSeconds, mode, createdBy);
      Insert(id, a, now);
      r := Ok(id);
    }

    method Insert(id: nat, a: Action, now: int)
      requires Valid() && id !in rows && RowValid(env, tenant, id, a) && a.status == Recommended
      requires forall e :: e in rows ==> !OpenFor(rows[e], a.kind, a.target)
      modifies this
      ensures Valid() && Evolves(old(rows), rows, now) && rows == old(rows)[id := a]
    {
      AddKeepsTable(env, tenant, rows, id, a, now);
      rows := rows[id := a];
    }

    /** `approval` is the approval service's answer; an error rolls the transaction back. */
    method RequestApproval(id: nat, approval: Result<nat, Error>, now: int) returns (r: Result<nat, Error>)
      requires Valid()
      modifies this
      ensures Valid() && Evolves(old(rows), rows, now)
      ensures r.Ok? <==> id in old(rows) && old(rows)[id].status == Recommended && approval.Ok?
      ensures r.Ok? ==> rows == old(rows)[id := old(rows)[id].(
                          approvalId := Some(approval.value), status := PendingApproval, mode := HumanApproved)]
      ensures r.Err? ==> rows == old(rows)
                         && r.error == if id !in old(rows) then NotFound
                                       else if old(rows)[id].status != Recommended then Conflict
                                       else approval.error
    {
      if id !in rows {
        return Err(NotFound);
      }
      if rows[id].status != Recommended {
        return Err(Conflict);
      }
      if approval.Err? {
        return Err(approval.error);
      }
      var a := rows[id];
      a := a.(approvalId := Some(approval.value));
      a := a.(status := PendingApproval);
      a := a.(mode := HumanApproved);
      UpdateKeepsTable(env, tenant, rows, id, a, now);
      rows := rows[id := a];
      r := Ok(id);
    }

    method Dismiss(id: nat, now: int) returns (r: Result<nat, Error>)
      requires Valid()
      modifies this
      ensures Valid() && Evolves(old(rows), rows, now)
      ensures r.Ok? <==> id in old(rows) && old(rows)[id].status == Recommended
      ensures r.Ok? ==> rows == old(rows)[id := old(rows)[id].(status := Dismissed)]
      ensures r.Err? ==> rows == old(rows) && r.error == if id in old(rows) then Conflict else NotFound
    {
      if id !in rows {
        return Err(NotFound);
      }
      if rows[id].status != Recommended {
        return Err(Conflict);
      }
      var a := rows[id].(status := Dismissed);
      UpdateKeepsTable(env, tenant, rows, id, a, now);
      rows := rows[id := a];
      r := Ok(id);
    }

    /** `DefenseService.execute`, on the transaction's own copy of the row: EXECUTING is flushed,
        never committed. None means the exception that rolls the transaction back. */
    method Run(a0: Action, reply: ProviderReply, executedBy: string, now: int) returns (a: Option<Action>)
      ensures a == Executed(a0, reply, executedBy, now)
      ensures a.Some? && reply.Reference? ==> ActivatedAs(a0, a.value, reply.ref, executedBy, now)
      ensures a.Some? && reply.Outage? ==> a.value == a0.(status := Failed)
      ensures a.Some? <==> (a0.status.PendingApproval? || a0.status.Approved?) && !reply.Crash?
      ensures a.Some? ==> !a.value.status.Approved? && !a.value.status.Executing?
      ensures a.Some? ==> SameBinding(a0, a.value) && a.value.approvalId == a0.approvalId
    {
      if (!a0.status.PendingApproval? && !a0.status.Approved?) {
        return None;
      }
      var row := a0.(status := Executing);
      match reply {
        case Outage =>
          row := row.(status := Failed);
          return Some(row);
        case Crash =>
          return None;
        case Reference(ref) =>
          row := row.(providerRef := ref);
          row := row.(executedAt := Some(now));
          row := row.(executedBy := executedBy);
          row := row.(expiresAt := if row.ttl.Some? && row.ttl.value != 0 then Some(now + row.ttl.value) else None);
          row := row.(status := Active);
          return Some(row);
      }
    }

    /** `consumed` says whether the approval service redeemed the approval for this payload. */
    method Execute(id: nat, consumed: bool, reply: ProviderReply, executedBy: string, now: int)
      returns (r: Result<nat, Error>)
      requires Valid()
      modifies this
      ensures Valid() && Evolves(old(rows), rows, now)
      ensures r.Ok? <==> id in old(rows) && old(rows)[id].status == PendingApproval && consumed && !reply.Crash?
      ensures r.Ok? && reply.Reference? ==>
                && ActivatedAs(old(rows)[id], rows[id], reply.ref, executedBy, now) && rows == old(rows)[id := rows[id]]
      ensures r.Ok? && reply.Outage? ==> rows == old(rows)[id := old(rows)[id].(status := Failed)]
      ensures r.Err? ==> rows == old(rows) && (id !in old(rows) <==> r.error == NotFound)
      ensures id in old(rows) && (old(rows)[id].status != PendingApproval || !consumed) ==> r == Err(Conflict)
    {
      if id !in rows {
        return Err(NotFound);
      }
      if rows[id].approvalId.None? || !consumed {
        return Err(Conflict);
      }
      var a := Run(rows[id], reply, executedBy, now);
      if a.None? {
        return Err(Conflict);
      }
      UpdateKeepsTable(env, tenant, rows, id, a.value, now);
      rows := rows[id := a.value];
      r := Ok(id);
    }

    /** The whole pre-approved path; anything but a full success leaves the recommendation alone. */
    method TryPreapproved(id: nat, granted: Result<nat, Error>, consumed: bool, reply: ProviderReply, now: int)
      returns (r: Result<bool, Error>)
      requires Valid()
      modifies this
      ensures Valid() && Evolves(old(rows), rows, now)
      ensures r == Ok(true) <==>
                && id in old(rows) && old(rows)[id].status == Recommended && Approvals.LowRisk(old(rows)[id].kind)
                && old(rows)[id].mode == PreapprovedLowRisk && granted.Ok? && consumed && !reply.Crash?
      ensures r == Ok(true) ==>
                && rows == old(rows)[id := rows[id]]
                && var a := old(rows)[id].(approvalId := Some(granted.value));
                   if reply.Outage? then rows[id] == a.(status := Failed)
                   else ActivatedAs(a, rows[id], reply.ref, "policy:preapproved", now)
      ensures r != Ok(true) ==> rows == old(rows)
      ensures r == Ok(false) <==>
                id in old(rows)
                && (old(rows)[id].status != Recommended || !Approvals.LowRisk(old(rows)[id].kind)
                    || old(rows)[id].mode != PreapprovedLowRisk || granted == Err(Forbidden))
      ensures r.Err? ==> r.error == if id !in old(rows) then NotFound
                                    else if granted.Err? then granted.error
                                    else if !consumed then Conflict else UpstreamUnavailable
    {
      NothingMoves(rows, now);
      if id !in rows {
        r := Err(NotFound);
      } else if !Preapprovable(rows[id]) {
        r := Ok(false);
      } else if granted.Err? {
        r := if granted.error == Forbidden then Ok(false) else Err(granted.error);
      } else if !consumed {
        r := Err(Conflict);
      } else {
        var a := Granted(rows[id], granted.value);
        var done := Run(a, reply, "policy:preapproved", now);
        if done.None? {
          r := Err(UpstreamUnavailable);
        } else {
          UpdateKeepsTable(env, tenant, rows, id, done.value, now);
          rows := rows[id := done.value];
          r := Ok(true);
        }
      }
    }

    /** Takes an active action back. Nothing here looks at the deadline: only the sweep asks for
        EXPIRED, and only for what is on its due list. */
    method Revert(id: nat, expired: bool, providerOk: bool, now: int) returns (r: Result<nat, Error>)
      requires Valid()
      modifies this
      ensures Valid()
      ensures (expired && id in old(rows) ==> Listed(old(rows), id, now)) ==> Evolves(old(rows), rows, now)
      ensures r.Ok? <==> id in old(rows) && old(rows)[id].status == Active && providerOk
      ensures r.Ok? ==> rows == old(rows)[id := old(rows)[id].(status := if expired then Expired else Reverted)]
      ensures r.Err? ==> rows == old(rows)
                         && r.error == if id !in old(rows) then NotFound
                                       else if old(rows)[id].status != Active then Conflict
                                       else UpstreamUnavailable
    {
      if id !in rows {
        return Err(NotFound);
      }
      if rows[id].status != Active {
        return Err(Conflict);
      }
      if !providerOk {
        return Err(UpstreamUnavailable);
      }
      var a := rows[id].(status := if expired then Expired else Reverted);
      TakingBackKeepsTable(env, tenant, rows, id, a);
      if expired ==> Listed(rows, id, now) {
        UpdateKeepsTable(env, tenant, rows, id, a, now);
      }
      rows := rows[id := a];
      r := Ok(id);
    }

    /** The sweep's second half: one revert per listed action, errors logged and skipped. Exactly
        the listed actions that are still ACTIVE and whose provider agreed become EXPIRED. */
    method Sweep(due: seq<nat>, providerOk: nat -> bool, now: int)
      requires Valid()
      requires forall k :: 0 <= k < |due| ==> Listed(rows, due[k], now)
      modifies this
      ensures Valid() && Evolves(old(rows), rows, now)
      ensures rows.Keys == old(rows).Keys
      ensures forall id :: id in rows ==>
                rows[id] == if id in due && old(rows)[id].status == Active && providerOk(id)
                            then old(rows)[id].(status := Expired) else old(rows)[id]
    {
      for i := 0 to |due|
        invariant Valid()
        invariant rows == SweptRows(old(rows), due[..i], providerOk)
      {
        SweepOne(old(rows), due, providerOk, i);
        var outcome := Revert(due[i], true, providerOk(due[i]), now);
      }
      assert due[..|due|] == due;
      SweepEvolves(old(rows), due, providerOk, now);
    }
  }
}
