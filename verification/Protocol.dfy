/** The approve, consume, apply protocol over two independent stores and an outside provider.

    The approval store commits on its own, while a FATMA or scanner transaction is still open. So a
    request is a process here: it loads a row, calls the approval service, calls the provider and
    commits, and any other transaction, sweep, clock tick or failure may happen between two of its
    steps. Nothing is assumed about isolation: a commit writes the columns the request changed onto
    whatever the row holds by then. `Abort` covers every rollback and every lost reply. */
module Protocol {
  import opened Common
  import A = Approvals
  import D = Defence

  datatype JobStatus =
    | PendingApproval | Approved | Queued | Running | Succeeded | Failed | Cancelled | TimedOut | Rejected

  datatype Job = Job(assetId: nat, targetUrl: string, profile: string, scanners: seq<string>, ticket: string,
                     authorization: string, requestedBy: string, timeoutSeconds: int,
                     status: JobStatus, approvalId: Option<nat>)

  /** A request in flight, with the row it loaded and the approval it holds. */
  datatype Call =
    | Executing(action: nat, snap: D.Action)
    | Preapproving(action: nat, snap: D.Action)
    | PolicyGranted(action: nat, snap: D.Action, approval: nat)
    | Redeemed(action: nat, snap: D.Action, approval: nat, viaPolicy: bool)
    | Replied(action: nat, approval: nat, viaPolicy: bool, reply: D.ProviderReply)
    | Requesting(action: nat, snap: D.Action)
    | ApprovalRequested(action: nat, approval: nat)
    | Starting(job: nat, row: Job)
    | StartRedeemed(job: nat, row: Job, approval: nat)
    | Filing(job: nat, row: Job)
    | Filed(job: nat, row: Job, approval: nat)

  /** The effects that need an approval: a provider call, and a scan entering QUEUED. */
  datatype Event =
    | Applied(action: nat, approval: nat, payload: A.Payload, at: int)
    | ScanQueued(job: nat, approval: nat, payload: A.Payload, at: int)

  datatype World = World(now: int, approvals: A.Table, actions: D.Table, jobs: map<nat, Job>,
                         calls: map<nat, Call>, log: seq<Event>)

  datatype Step =
    | Tick(seconds: nat)
      // transactions of the approval service on behalf of anyone
    | CreateApproval(id: nat, actionType: A.ActionType, payload: A.Payload, requester: string)
    | GrantByPolicy(id: nat, settings: A.TenantSettings, actionType: A.ActionType, payload: A.Payload)
    | Decide(id: nat, approve: bool, approver: string, echoed: string)
    | CancelApproval(id: nat, actor: string)
    | ExpireApprovals
      // transactions of FATMA that need no approval
    | Recommend(id: nat, kind: A.DefenceType, target: string, ttl: Option<int>, params: string,
                confidence: real, mode: D.Mode, provider: string, createdBy: string, allowDocumentation: bool)
    | Dismiss(id: nat)
    | Revert(id: nat, expired: bool)
      // requests that span both stores
    | BeginExecute(call: nat, id: nat)
    | BeginPreapproved(call: nat, id: nat)
    | BeginRequest(call: nat, id: nat)
    | PolicyReply(call: nat, id: nat, settings: A.TenantSettings)
    | RequestReply(call: nat, id: nat, requester: string)
    | Redeem(call: nat)
    | Apply(call: nat, reply: D.ProviderReply)
    | Commit(call: nat, user: string)
    | Abort(call: nat)
      // the scanner controller
    | BeginFiling(call: nat, id: nat, row: Job)
    | BeginStart(call: nat, id: nat)
    | SetJobStatus(id: nat, status: JobStatus)

  /** The fixed surroundings of a run: the approval environment, the target rules, the tenant. */
  datatype Site = Site(env: A.Env, targets: D.Targets, tenant: string)

  function Empty(): World {
    World(0, map[], map[], map[], map[], [])
  }

  function JobPayload(tenant: string, id: nat, j: Job): A.Payload {
    A.Payload(Some(tenant), Some(A.ScanExecute),
              A.ScanBody(id, j.assetId, j.targetUrl, j.profile, j.scanners, j.ticket, j.authorization,
                         j.requestedBy, j.timeoutSeconds))
  }

  predicate SameJob(a: Job, b: Job) {
    a.(status := b.status, approvalId := b.approvalId) == b
  }

  /** The payload asks for exactly this scan. */
  predicate AsksToScan(p: A.Payload, tenant: string, id: nat, j: Job) {
    && p.tenant == Some(tenant) && p.actionType == Some(A.ScanExecute) && p.body.ScanBody?
    && p.body.jobId == id && p.body.assetId == j.assetId && p.body.targetUrl == j.targetUrl
    && p.body.profile == j.profile && p.body.scanners == j.scanners && p.body.ticket == j.ticket
    && p.body.authorization == j.authorization && p.body.requestedBy == j.requestedBy
    && p.body.timeoutSeconds == j.timeoutSeconds
  }

  /** Two jobs have the same payload only if they are the same in everything but status and approval. */
  lemma {:induction false} JobPayloadsAreDistinct(tenant: string, id: nat, j: Job, tenant': string, id': nat, j': Job)
    ensures JobPayload(tenant, id, j) == JobPayload(tenant', id', j') <==>
              tenant == tenant' && id == id' && j' == j.(status := j'.status, approvalId := j'.approvalId)
    ensures AsksToScan(JobPayload(tenant, id, j), tenant, id, j)
  {
  }

  /** The approval a request is about to redeem, and the payload it sends with it. */
  function Claim(s: Site, c: Call): Option<(nat, A.ActionType, A.Payload)> {
    match c
    case Executing(id, snap) =>
      if snap.approvalId.None? then None
      else Some((snap.approvalId.value, A.Defence(snap.kind), D.ActionPayload(s.tenant, id, snap)))
    case PolicyGranted(id, snap, approval) =>
      Some((approval, A.Defence(snap.kind), D.ActionPayload(s.tenant, id, snap)))
    case Starting(id, row) =>
      if row.approvalId.None? then None
      else Some((row.approvalId.value, A.ScanExecute, JobPayload(s.tenant, id, row)))
    case _ => None
  }

  function AfterRedeem(c: Call, approval: nat): Call {
    match c
    case Executing(id, snap) => Redeemed(id, snap, approval, false)
    case PolicyGranted(id, snap, _) => Redeemed(id, snap, approval, true)
    case Starting(id, row) => StartRedeemed(id, row, approval)
    case _ => c
  }

  function CallerName(c: Call): string {
    if c.Starting? then "scanner-controller" else "fatma-soc"
  }

  // ------------------------------------------------------------------ the steps

  /** Steps of the approval store alone; a refused request changes nothing. */
  function ApprovalStep(s: Site, w: World, step: Step): A.Table {
    match step
    case CreateApproval(id, t, p, requester) =>
      var r := A.NewRequest(s.env, s.tenant, t, p, requester, w.now);
      if id in w.approvals || r.Err? then w.approvals else w.approvals[id := r.value]
    case GrantByPolicy(id, settings, t, p) =>
      var r := A.PolicyGrant(s.env, s.tenant, settings, t, p, w.now);
      if id in w.approvals || r.Err? then w.approvals else w.approvals[id := r.value]
    case Decide(id, approve, approver, echoed) =>
      if id !in w.approvals then w.approvals
      else
        var r := A.Decision(w.approvals[id], approve, approver, echoed, w.now);
        if r.Err? then w.approvals else w.approvals[id := r.value]
    case CancelApproval(id, actor) =>
      if id !in w.approvals then w.approvals
      else
        var r := A.Cancellation(w.approvals[id], actor);
        if r.Err? then w.approvals else w.approvals[id := r.value]
    case ExpireApprovals => A.Swept(w.approvals, w.now)
    case _ => w.approvals
  }

  /** Steps of the action table alone. */
  function ActionStep(s: Site, w: World, step: Step): D.Table {
    match step
    case Recommend(id, kind, target, ttl, params, confidence, mode, provider, createdBy, allow) =>
      var r := D.Recommendation(s.env, s.targets, s.tenant, id, kind, target, ttl, params, confidence, createdBy,
                                mode, provider, allow);
      if id in w.actions || r.Err? then w.actions
      else if exists e :: e in w.actions && D.OpenFor(w.actions[e], kind, r.value.target) then w.actions
      else w.actions[id := r.value]
    case Dismiss(id) =>
      if id !in w.actions || w.actions[id].status != D.Recommended then w.actions
      else w.actions[id := w.actions[id].(status := D.Dismissed)]
    case Revert(id, expired) =>
      // the sweep's due list may be stale, so no deadline is assumed here
      if id !in w.actions || w.actions[id].status != D.Active then w.actions
      else w.actions[id := w.actions[id].(status := if expired then D.Expired else D.Reverted)]
    case _ => w.actions
  }

  /** A request loads its row and passes its first check, or is refused. */
  function Begin(w: World, step: Step): map<nat, Call> {
    match step
    case BeginExecute(call, id) =>
      if call in w.calls || id !in w.actions || w.actions[id].approvalId.None? then w.calls
      else w.calls[call := Executing(id, w.actions[id])]
    case BeginPreapproved(call, id) =>
      if call in w.calls || id !in w.actions || w.actions[id].mode != D.PreapprovedLowRisk
         || !A.LowRisk(w.actions[id].kind) || w.actions[id].status != D.Recommended then w.calls
      else w.calls[call := Preapproving(id, w.actions[id])]
    case BeginRequest(call, id) =>
      if call in w.calls || id !in w.actions || w.actions[id].status != D.Recommended then w.calls
      else w.calls[call := Requesting(id, w.actions[id])]
    case BeginFiling(call, id, row) =>
      // a new job, or (on a retry that reuses its key) one that exists
      if call in w.calls || (id !in w.jobs && !(row.status == PendingApproval && row.approvalId.None?)) then w.calls
      else w.calls[call := Filing(id, if id in w.jobs then w.jobs[id] else row)]
    case BeginStart(call, id) =>
      if call in w.calls || id !in w.jobs || w.jobs[id].status != PendingApproval || w.jobs[id].approvalId.None?
      then w.calls
      else w.calls[call := Starting(id, w.jobs[id])]
    case _ => w.calls
  }

  /** The approval service answers `/preapproved`: its transaction has committed. */
  function PolicyReplied(s: Site, w: World, call: nat, id: nat, settings: A.TenantSettings): World {
    if call !in w.calls || !w.calls[call].Preapproving? || id in w.approvals then w
    else
      var c := w.calls[call];
      var r := A.PolicyGrant(s.env, s.tenant, settings, A.Defence(c.snap.kind),
                             D.ActionPayload(s.tenant, c.action, c.snap), w.now);
      if r.Err? then w
      else w.(approvals := w.approvals[id := r.value],
              calls := w.calls[call := PolicyGranted(c.action, c.snap, id)])
  }

  /** The approval service answers a request for human approval. */
  function RequestReplied(s: Site, w: World, call: nat, id: nat, requester: string): World {
    if call !in w.calls || id in w.approvals then w
    else match w.calls[call]
      case Requesting(action, snap) =>
        var r := A.NewRequest(s.env, s.tenant, A.Defence(snap.kind), D.ActionPayload(s.tenant, action, snap),
                              requester, w.now);
        if r.Err? then w
        else w.(approvals := w.approvals[id := r.value], calls := w.calls[call := ApprovalRequested(action, id)])
      case Filing(job, row) =>
        var r := A.NewRequest(s.env, s.tenant, A.ScanExecute, JobPayload(s.tenant, job, row), requester, w.now);
        if r.Err? then w
        else w.(approvals := w.approvals[id := r.value], calls := w.calls[call := Filed(job, row, id)])
      case _ => w
  }

  /** The approval service redeems an approval for a request and commits. */
  function Redemption(s: Site, w: World, call: nat): World {
    if call !in w.calls || Claim(s, w.calls[call]).None? then w
    else
      var (id, t, p) := Claim(s, w.calls[call]).value;
      if id !in w.approvals then w
      else
        var r := A.Redemption(s.env, w.approvals[id], t, p, CallerName(w.calls[call]), w.now);
        if r.Err? then w
        else w.(approvals := w.approvals[id := r.value],
                calls := w.calls[call := AfterRedeem(w.calls[call], id)])
  }

  /** `execute`: only a row that was loaded as awaiting execution reaches the provider. */
  function ApplyStep(s: Site, w: World, call: nat, reply: D.ProviderReply): World {
    if call !in w.calls || !w.calls[call].Redeemed? then w
    else
      var c := w.calls[call];
      if !c.viaPolicy && c.snap.status != D.PendingApproval then w
      else w.(log := w.log + [Applied(c.action, c.approval, D.ActionPayload(s.tenant, c.action, c.snap), w.now)],
              calls := w.calls[call := Replied(c.action, c.approval, c.viaPolicy, reply)])
  }

  /** The row after the commit of a request that got the provider's reply. */
  function CommittedAction(a: D.Action, c: Call, user: string, now: int): D.Action
    requires c.Replied?
  {
    var b := if c.viaPolicy then a.(approvalId := Some(c.approval)) else a;
    match c.reply
    case Reference(ref) => D.Activated(b, ref, if c.viaPolicy then "policy:preapproved" else user, now)
    case Outage => b.(status := D.Failed)
    case Crash => a
  }

  function Committed(s: Site, w: World, call: nat, user: string): World {
    if call !in w.calls then w
    else
      var rest := w.calls - {call};
      match w.calls[call]
      case Replied(id, _, _, _) =>
        if id !in w.actions then w
        else w.(actions := w.actions[id := CommittedAction(w.actions[id], w.calls[call], user, w.now)], calls := rest)
      case ApprovalRequested(id, approval) =>
        if id !in w.actions then w
        else w.(actions := w.actions[id := D.Requested(w.actions[id], approval)], calls := rest)
      case StartRedeemed(id, row, approval) =>
        if id !in w.jobs then w
        else w.(jobs := w.jobs[id := w.jobs[id].(status := Queued)], calls := rest,
                log := w.log + [ScanQueued(id, approval, JobPayload(s.tenant, id, row), w.now)])
      case Filed(id, row, approval) =>
        var base := if id in w.jobs then w.jobs[id] else row;
        if id in w.jobs && !SameJob(w.jobs[id], row) then w  // its key was taken meanwhile
        else w.(jobs := w.jobs[id := base.(approvalId := Some(approval))], calls := rest)
      case _ => w
  }

  function Next(s: Site, w: World, step: Step): World {
    match step
    case Tick(seconds) => w.(now := w.now + seconds)
    case CreateApproval(_, _, _, _) => w.(approvals := ApprovalStep(s, w, step))
    case GrantByPolicy(_, _, _, _) => w.(approvals := ApprovalStep(s, w, step))
    case Decide(_, _, _, _) => w.(approvals := ApprovalStep(s, w, step))
    case CancelApproval(_, _) => w.(approvals := ApprovalStep(s, w, step))
    case ExpireApprovals => w.(approvals := ApprovalStep(s, w, step))
    case Recommend(_, _, _, _, _, _, _, _, _, _) => w.(actions := ActionStep(s, w, step))
    case Dismiss(_) => w.(actions := ActionStep(s, w, step))
    case Revert(_, _) => w.(actions := ActionStep(s, w, step))
    case BeginExecute(_, _) => w.(calls := Begin(w, step))
    case BeginPreapproved(_, _) => w.(calls := Begin(w, step))
    case BeginRequest(_, _) => w.(calls := Begin(w, step))
    case BeginFiling(_, _, _) => w.(calls := Begin(w, step))
    case BeginStart(_, _) => w.(calls := Begin(w, step))
    case PolicyReply(call, id, settings) => PolicyReplied(s, w, call, id, settings)
    case RequestReply(call, id, requester) => RequestReplied(s, w, call, id, requester)
    case Redeem(call) => Redemption(s, w, call)
    case Apply(call, reply) => ApplyStep(s, w, call, reply)
    case Commit(call, user) => Committed(s, w, call, user)
    case Abort(call) => w.(calls := w.calls - {call})
    case SetJobStatus(id, status) =>
      if id !in w.jobs || status == Queued then w
      else w.(jobs := w.jobs[id := w.jobs[id].(status := status)])
  }

  /** The world after a run, from nothing. A run is any list of steps; a step whose guard fails
      does nothing. */
  function Run(s: Site, steps: seq<Step>): World {
    if steps == [] then Empty() else Next(s, Run(s, steps[..|steps| - 1]), steps[|steps| - 1])
  }

  // ------------------------------------------------------------------ safety

  /** A redeemed approval of the type of `p` and with the hash of `p`, redeemed in time and not after
      `at`. */
  ghost predicate Spent(s: Site, approvals: A.Table, id: nat, p: A.Payload, at: int) {
    && id in approvals && approvals[id].status == A.Executed
    && approvals[id].hash == s.env.hash(p)
    && p.actionType == Some(approvals[id].actionType)
    && approvals[id].consumedAt.Some?
    && approvals[id].consumedAt.value <= at
    && approvals[id].consumedAt.value < approvals[id].expiresAt
  }

  ghost predicate EventOk(s: Site, w: World, e: Event) {
    && Spent(s, w.approvals, e.approval, e.payload, e.at) && e.at <= w.now
    && match e
       case Applied(id, _, p, _) => id in w.actions && p == D.ActionPayload(s.tenant, id, w.actions[id])
       case ScanQueued(id, _, p, _) => id in w.jobs && p == JobPayload(s.tenant, id, w.jobs[id])
  }

  ghost predicate CallOk(s: Site, w: World, c: Call) {
    match c
    case Executing(id, snap) => id in w.actions && D.SameBinding(snap, w.actions[id])
    case Preapproving(id, snap) => id in w.actions && D.SameBinding(snap, w.actions[id])
    case PolicyGranted(id, snap, _) => id in w.actions && D.SameBinding(snap, w.actions[id])
    case Redeemed(id, snap, x, _) =>
      id in w.actions && D.SameBinding(snap, w.actions[id])
      && Spent(s, w.approvals, x, D.ActionPayload(s.tenant, id, snap), w.now)
    case Starting(id, row) => id in w.jobs && SameJob(row, w.jobs[id])
    case StartRedeemed(id, row, x) =>
      id in w.jobs && SameJob(row, w.jobs[id]) && Spent(s, w.approvals, x, JobPayload(s.tenant, id, row), w.now)
    case _ => true
  }

  /** The redeemed approval a request still has to use. */
  function Holds(c: Call): Option<nat> {
    if c.Redeemed? || c.StartRedeemed? then Some(c.approval) else None
  }

  predicate HeldBy(calls: map<nat, Call>, c: nat, x: nat) {
    c in calls && Holds(calls[c]) == Some(x)
  }

  ghost predicate CallsOk(s: Site, w: World) {
    forall c :: c in w.calls ==> CallOk(s, w, w.calls[c])
  }

  ghost predicate EventsOk(s: Site, w: World) {
    forall i :: 0 <= i < |w.log| ==> EventOk(s, w, w.log[i])
  }

  /** No approval is behind two effects, held by two requests, or both used and held. */
  ghost predicate Exclusive(calls: map<nat, Call>, log: seq<Event>) {
    && (forall i, j :: 0 <= i < j < |log| ==> log[i].approval != log[j].approval)
    && (forall c, d, x :: HeldBy(calls, c, x) && HeldBy(calls, d, x) ==> c == d)
    && (forall c, i :: 0 <= i < |log| ==> !HeldBy(calls, c, log[i].approval))
  }

  ghost predicate Inv(s: Site, w: World) {
    && A.SoundTable(s.env, s.tenant, w.approvals)
    && CallsOk(s, w)
    && EventsOk(s, w)
    && Exclusive(w.calls, w.log)
  }

  ghost predicate KeepsSpent(a: A.Table, b: A.Table) {
    forall x :: x in a && a[x].status == A.Executed ==> x in b && b[x] == a[x]
  }

  ghost predicate KeepsBindings(a: D.Table, b: D.Table) {
    forall id :: id in a ==> id in b && D.SameBinding(a[id], b[id])
  }

  ghost predicate KeepsJobs(a: map<nat, Job>, b: map<nat, Job>) {
    forall id :: id in a ==> id in b && SameJob(a[id], b[id])
  }

  /** What every step keeps, whoever takes it. */
  ghost predicate Extends(w: World, v: World) {
    && w.now <= v.now
    && KeepsSpent(w.approvals, v.approvals)
    && KeepsBindings(w.actions, v.actions)
    && KeepsJobs(w.jobs, v.jobs)
  }

  lemma {:induction false} CarryCall(s: Site, w: World, v: World, c: Call)
    requires CallOk(s, w, c) && Extends(w, v)
    ensures CallOk(s, v, c)
  {
  }

  lemma {:induction false} CarryEvents(s: Site, w: World, v: World)
    requires EventsOk(s, w) && Extends(w, v) && v.log == w.log
    ensures EventsOk(s, v)
  {
    forall i | 0 <= i < |v.log|
      ensures EventOk(s, v, v.log[i])
    {
      assert EventOk(s, w, w.log[i]);
    }
  }

  lemma {:induction false} CarryCalls(s: Site, w: World, v: World)
    requires CallsOk(s, w) && Extends(w, v)
    requires forall c :: c in v.calls ==> (c in w.calls && v.calls[c] == w.calls[c]) || CallOk(s, v, v.calls[c])
    ensures CallsOk(s, v)
  {
    forall c | c in v.calls
      ensures CallOk(s, v, v.calls[c])
    {
      if c in w.calls && v.calls[c] == w.calls[c] {
        CarryCall(s, w, v, w.calls[c]);
      }
    }
  }

  /** If no request gains an approval and no effect happens, the invariant carries over. */
  lemma {:induction false} KeepInv(s: Site, w: World, v: World)
    requires Inv(s, w) && Extends(w, v) && A.SoundTable(s.env, s.tenant, v.approvals)
    requires v.log == w.log
    requires forall c :: c in v.calls ==> (c in w.calls && v.calls[c] == w.calls[c])
                                          || (CallOk(s, v, v.calls[c]) && Holds(v.calls[c]).None?)
    ensures Inv(s, v)
  {
    CarryEvents(s, w, v);
    CarryCalls(s, w, v);
    assert forall c, x :: HeldBy(v.calls, c, x) ==> HeldBy(w.calls, c, x);
  }

  /** Steps of the approval store are legal moves of its table. */
  lemma {:induction false} CreationEvolves(s: Site, w: World, step: Step)
    requires A.SoundTable(s.env, s.tenant, w.approvals) && (step.CreateApproval? || step.GrantByPolicy?)
    ensures A.SoundTable(s.env, s.tenant, ApprovalStep(s, w, step))
    ensures A.Evolves(w.approvals, ApprovalStep(s, w, step), w.now)
  {
    A.NothingMoves(w.approvals, w.now);
    if step.CreateApproval? {
      var r := A.NewRequest(s.env, s.tenant, step.actionType, step.payload, step.requester, w.now);
      if step.id !in w.approvals && r.Ok? {
        A.NewRequestIsSound(s.env, s.tenant, step.actionType, step.payload, step.requester, w.now);
        A.AddKeepsTable(s.env, s.tenant, w.approvals, step.id, r.value, w.now);
      }
    } else {
      var r := A.PolicyGrant(s.env, s.tenant, step.settings, step.actionType, step.payload, w.now);
      if step.id !in w.approvals && r.Ok? {
        A.PolicyGrantIsSound(s.env, s.tenant, step.settings, step.actionType, step.payload, w.now);
        A.AddKeepsTable(s.env, s.tenant, w.approvals, step.id, r.value, w.now);
      }
    }
  }

  lemma {:induction false} ApprovalStepEvolves(s: Site, w: World, step: Step)
    requires A.SoundTable(s.env, s.tenant, w.approvals)
    ensures A.SoundTable(s.env, s.tenant, ApprovalStep(s, w, step))
    ensures A.Evolves(w.approvals, ApprovalStep(s, w, step), w.now)
  {
    A.NothingMoves(w.approvals, w.now);
    match step
    case CreateApproval(_, _, _, _) => CreationEvolves(s, w, step);
    case GrantByPolicy(_, _, _, _) => CreationEvolves(s, w, step);
    case Decide(id, approve, approver, echoed) =>
      if id in w.approvals && A.Decision(w.approvals[id], approve, approver, echoed, w.now).Ok? {
        var r := A.Decision(w.approvals[id], approve, approver, echoed, w.now);
        A.DecisionMoves(s.env, s.tenant, w.approvals[id], approve, approver, echoed, w.now);
        A.UpdateKeepsTable(s.env, s.tenant, w.approvals, id, r.value, w.now);
      }
    case CancelApproval(id, actor) =>
      if id in w.approvals && A.Cancellation(w.approvals[id], actor).Ok? {
        var r := A.Cancellation(w.approvals[id], actor);
        A.CancellationMoves(s.env, s.tenant, w.approvals[id], actor, w.now);
        A.UpdateKeepsTable(s.env, s.tenant, w.approvals, id, r.value, w.now);
      }
    case ExpireApprovals => A.SweepMoves(s.env, s.tenant, w.approvals, w.now);
    case _ =>
  }

  lemma {:induction false} EvolvesKeepsSpent(a: A.Table, b: A.Table, now: int)
    requires A.Evolves(a, b, now)
    ensures KeepsSpent(a, b)
  {
    forall x | x in a && a[x].status == A.Executed
      ensures x in b && b[x] == a[x]
    {
      assert A.Moves(a[x], b[x], now);
    }
  }

  lemma {:induction false} ApprovalsKeepInv(s: Site, w: World, step: Step)
    requires Inv(s, w)
    ensures Inv(s, w.(approvals := ApprovalStep(s, w, step)))
  {
    ApprovalStepEvolves(s, w, step);
    EvolvesKeepsSpent(w.approvals, ApprovalStep(s, w, step), w.now);
    KeepInv(s, w, w.(approvals := ApprovalStep(s, w, step)));
  }

  lemma {:induction false} ActionsKeepInv(s: Site, w: World, step: Step)
    requires Inv(s, w)
    ensures Inv(s, w.(actions := ActionStep(s, w, step)))
  {
    assert KeepsBindings(w.actions, ActionStep(s, w, step));
    KeepInv(s, w, w.(actions := ActionStep(s, w, step)));
  }

  lemma {:induction false} BeginKeepsInv(s: Site, w: World, step: Step)
    requires Inv(s, w)
    ensures Inv(s, w.(calls := Begin(w, step)))
  {
    var v := w.(calls := Begin(w, step));
    forall c | c in v.calls && !(c in w.calls && v.calls[c] == w.calls[c])
      ensures CallOk(s, v, v.calls[c]) && Holds(v.calls[c]).None?
    {
    }
    KeepInv(s, w, v);
  }

  /** Redeeming needs an APPROVED row, which nobody holds and no effect has used. */
  lemma {:induction false} RedeemExtends(s: Site, w: World, call: nat)
    requires Inv(s, w) && Redemption(s, w, call) != w
    ensures Extends(w, Redemption(s, w, call))
    ensures CallOk(s, Redemption(s, w, call), Redemption(s, w, call).calls[call])
  {
    var c := w.calls[call];
    var (id, t, p) := Claim(s, c).value;
    assert CallOk(s, w, c);
    A.RedemptionMoves(s.env, s.tenant, w.approvals[id], t, p, CallerName(c), w.now);
  }

  lemma {:induction false} RedeemKeepsInv(s: Site, w: World, call: nat)
    requires Inv(s, w)
    ensures Inv(s, Redemption(s, w, call))
  {
    var v := Redemption(s, w, call);
    if v != w {
      var c := w.calls[call];
      var (id, t, p) := Claim(s, c).value;
      RedeemExtends(s, w, call);
      A.RedemptionMoves(s.env, s.tenant, w.approvals[id], t, p, CallerName(c), w.now);
      CarryCalls(s, w, v);
      CarryEvents(s, w, v);
      RedeemedIsNew(s, w, id);
      GainKeepsExclusive(w.calls, v.calls, w.log, call, id);
    }
  }

  lemma {:induction false} GainKeepsExclusive(calls: map<nat, Call>, after: map<nat, Call>, log: seq<Event>,
                                              call: nat, id: nat)
    requires Exclusive(calls, log)
    requires forall c :: c in after && c != call ==> c in calls && after[c] == calls[c]
    requires HeldBy(after, call, id)
    requires forall c :: !HeldBy(calls, c, id)
    requires forall i :: 0 <= i < |log| ==> log[i].approval != id
    ensures Exclusive(after, log)
  {
    assert forall e, x :: HeldBy(after, e, x) ==> (e == call && x == id) || HeldBy(calls, e, x);
  }

  lemma {:induction false} RedeemedIsNew(s: Site, w: World, id: nat)
    requires Inv(s, w) && id in w.approvals && w.approvals[id].status != A.Executed
    ensures forall c :: !HeldBy(w.calls, c, id)
    ensures forall i :: 0 <= i < |w.log| ==> w.log[i].approval != id
  {
    forall c | c in w.calls && Holds(w.calls[c]).Some?
      ensures Holds(w.calls[c]).value in w.approvals && w.approvals[Holds(w.calls[c]).value].status == A.Executed
    {
      assert CallOk(s, w, w.calls[c]);
    }
    forall i | 0 <= i < |w.log|
      ensures w.log[i].approval in w.approvals && w.approvals[w.log[i].approval].status == A.Executed
    {
      assert EventOk(s, w, w.log[i]);
    }
  }

  /** Using up a held approval: the request stops holding it and one event enters the log. */
  lemma {:induction false} UseKeepsInv(s: Site, w: World, v: World, call: nat, e: Event)
    requires Inv(s, w) && Extends(w, v) && v.approvals == w.approvals
    requires HeldBy(w.calls, call, e.approval)
    requires v.log == w.log + [e] && EventOk(s, v, e)
    requires forall c :: c in v.calls && c != call ==> c in w.calls && v.calls[c] == w.calls[c]
    requires call in v.calls ==> CallOk(s, v, v.calls[call]) && Holds(v.calls[call]).None?
    ensures Inv(s, v)
  {
    CarryCalls(s, w, v);
    CarryEvents(s, w, v.(log := w.log));
    forall i | 0 <= i < |v.log|
      ensures EventOk(s, v, v.log[i])
    {
      if i < |w.log| {
        assert EventOk(s, v.(log := w.log), v.(log := w.log).log[i]);
      }
    }
    UsedUp(w.calls, v.calls, w.log, call, e);
  }

  lemma {:induction false} UsedUp(calls: map<nat, Call>, after: map<nat, Call>, log: seq<Event>, call: nat, e: Event)
    requires Exclusive(calls, log) && HeldBy(calls, call, e.approval)
    requires forall c :: c in after && c != call ==> c in calls && after[c] == calls[c]
    requires call in after ==> Holds(after[call]).None?
    ensures Exclusive(after, log + [e])
  {
    forall c, x | HeldBy(after, c, x)
      ensures HeldBy(calls, c, x) && c != call
    {
    }
  }

  lemma {:induction false} CommitStartKeepsInv(s: Site, w: World, call: nat, user: string)
    requires Inv(s, w) && call in w.calls && w.calls[call].StartRedeemed?
    ensures Inv(s, Committed(s, w, call, user))
  {
    var v := Committed(s, w, call, user);
    var c := w.calls[call];
    assert CallOk(s, w, c);
    assert KeepsBindings(w.actions, v.actions);
    assert KeepsJobs(w.jobs, v.jobs);
    assert HeldBy(w.calls, call, c.approval);
    var e := ScanQueued(c.job, c.approval, JobPayload(s.tenant, c.job, c.row), w.now);
    assert EventOk(s, v, e);
    UseKeepsInv(s, w, v, call, e);
  }

  lemma {:induction false} CommitRowKeepsInv(s: Site, w: World, call: nat, id: nat, a: D.Action)
    requires Inv(s, w) && id in w.actions && D.SameBinding(w.actions[id], a)
    ensures Inv(s, w.(actions := w.actions[id := a], calls := w.calls - {call}))
  {
    var v := w.(actions := w.actions[id := a], calls := w.calls - {call});
    assert KeepsBindings(w.actions, v.actions);
    KeepInv(s, w, v);
  }

  lemma {:induction false} CommitJobKeepsInv(s: Site, w: World, call: nat, id: nat, j: Job)
    requires Inv(s, w) && (id in w.jobs ==> SameJob(w.jobs[id], j))
    ensures Inv(s, w.(jobs := w.jobs[id := j], calls := w.calls - {call}))
  {
    var v := w.(jobs := w.jobs[id := j], calls := w.calls - {call});
    assert KeepsJobs(w.jobs, v.jobs);
    KeepInv(s, w, v);
  }

  lemma {:induction false} CommitKeepsInv(s: Site, w: World, call: nat, user: string)
    requires Inv(s, w)
    ensures Inv(s, Committed(s, w, call, user))
  {
    if call in w.calls {
      var c := w.calls[call];
      match c
      case StartRedeemed(_, _, _) => CommitStartKeepsInv(s, w, call, user);
      case Filed(id, row, approval) =>
        if id !in w.jobs {
          CommitJobKeepsInv(s, w, call, id, row.(approvalId := Some(approval)));
        } else if SameJob(w.jobs[id], row) {
          CommitJobKeepsInv(s, w, call, id, w.jobs[id].(approvalId := Some(approval)));
        }
      case Replied(id, _, _, _) =>
        if id in w.actions {
          CommitRowKeepsInv(s, w, call, id, CommittedAction(w.actions[id], c, user, w.now));
        }
      case ApprovalRequested(id, approval) =>
        if id in w.actions {
          CommitRowKeepsInv(s, w, call, id, D.Requested(w.actions[id], approval));
        }
      case _ =>
    }
  }

  lemma {:induction false} ApplyKeepsInv(s: Site, w: World, call: nat, reply: D.ProviderReply)
    requires Inv(s, w)
    ensures Inv(s, ApplyStep(s, w, call, reply))
  {
    var v := ApplyStep(s, w, call, reply);
    if v != w {
      var c := w.calls[call];
      assert CallOk(s, w, c);
      assert HeldBy(w.calls, call, c.approval);
      UseKeepsInv(s, w, v, call, Applied(c.action, c.approval, D.ActionPayload(s.tenant, c.action, c.snap), w.now));
    }
  }

  lemma {:induction false} NewRowKeepsInv(s: Site, w: World, id: nat, row: A.Approval, call: nat, c: Call)
    requires Inv(s, w) && id !in w.approvals && A.Sound(s.env, s.tenant, row)
    requires call in w.calls && Holds(c).None?
    requires CallOk(s, w, c)
    ensures Inv(s, w.(approvals := w.approvals[id := row], calls := w.calls[call := c]))
  {
    var v := w.(approvals := w.approvals[id := row], calls := w.calls[call := c]);
    assert Extends(w, v);
    CarryCall(s, w, v, c);
    KeepInv(s, w, v);
  }

  lemma {:induction false} PolicyReplyKeepsInv(s: Site, w: World, call: nat, id: nat, settings: A.TenantSettings)
    requires Inv(s, w)
    ensures Inv(s, PolicyReplied(s, w, call, id, settings))
  {
    var v := PolicyReplied(s, w, call, id, settings);
    if v != w {
      var c := w.calls[call];
      assert CallOk(s, w, c);
      var p := D.ActionPayload(s.tenant, c.action, c.snap);
      A.PolicyGrantIsSound(s.env, s.tenant, settings, A.Defence(c.snap.kind), p, w.now);
      NewRowKeepsInv(s, w, id, v.approvals[id], call, PolicyGranted(c.action, c.snap, id));
    }
  }

  lemma {:induction false} RequestReplyKeepsInv(s: Site, w: World, call: nat, id: nat, requester: string)
    requires Inv(s, w)
    ensures Inv(s, RequestReplied(s, w, call, id, requester))
  {
    var v := RequestReplied(s, w, call, id, requester);
    if v != w {
      match w.calls[call]
      case Requesting(action, snap) =>
        var p := D.ActionPayload(s.tenant, action, snap);
        A.NewRequestIsSound(s.env, s.tenant, A.Defence(snap.kind), p, requester, w.now);
        NewRowKeepsInv(s, w, id, v.approvals[id], call, ApprovalRequested(action, id));
      case Filing(job, row) =>
        A.NewRequestIsSound(s.env, s.tenant, A.ScanExecute, JobPayload(s.tenant, job, row), requester, w.now);
        NewRowKeepsInv(s, w, id, v.approvals[id], call, Filed(job, row, id));
      case _ =>
    }
  }

  lemma {:induction false} TickKeepsInv(s: Site, w: World, seconds: nat)
    requires Inv(s, w)
    ensures Inv(s, w.(now := w.now + seconds))
  {
    KeepInv(s, w, w.(now := w.now + seconds));
  }

  lemma {:induction false} AbortKeepsInv(s: Site, w: World, call: nat)
    requires Inv(s, w)
    ensures Inv(s, w.(calls := w.calls - {call}))
  {
    KeepInv(s, w, w.(calls := w.calls - {call}));
  }

  lemma {:induction false} JobStatusKeepsInv(s: Site, w: World, id: nat, status: JobStatus)
    requires Inv(s, w) && id in w.jobs
    ensures Inv(s, w.(jobs := w.jobs[id := w.jobs[id].(status := status)]))
  {
    KeepInv(s, w, w.(jobs := w.jobs[id := w.jobs[id].(status := status)]));
  }

  lemma {:induction false} EffectKeepsInv(s: Site, w: World, step: Step)
    requires Inv(s, w) && (step.Redeem? || step.Apply? || step.Commit?)
    ensures Inv(s, Next(s, w, step))
  {
    if step.Redeem? {
      RedeemKeepsInv(s, w, step.call);
    } else if step.Apply? {
      ApplyKeepsInv(s, w, step.call, step.reply);
    } else {
      CommitKeepsInv(s, w, step.call, step.user);
    }
  }

  lemma {:induction false} ReplyKeepsInv(s: Site, w: World, step: Step)
    requires Inv(s, w) && (step.PolicyReply? || step.RequestReply?)
    ensures Inv(s, Next(s, w, step))
  {
    if step.PolicyReply? {
      PolicyReplyKeepsInv(s, w, step.call, step.id, step.settings);
    } else {
      RequestReplyKeepsInv(s, w, step.call, step.id, step.requester);
    }
  }

  lemma {:induction false} OutsideKeepsInv(s: Site, w: World, step: Step)
    requires Inv(s, w) && (step.Tick? || step.Abort? || step.SetJobStatus?)
    ensures Inv(s, Next(s, w, step))
  {
    if step.Tick? {
      TickKeepsInv(s, w, step.seconds);
    } else if step.Abort? {
      AbortKeepsInv(s, w, step.call);
    } else if step.id in w.jobs {
      JobStatusKeepsInv(s, w, step.id, step.status);
    }
  }

  lemma {:induction false} NextKeepsInv(s: Site, w: World, step: Step)
    requires Inv(s, w)
    ensures Inv(s, Next(s, w, step))
  {
    if step.Redeem? || step.Apply? || step.Commit? {
      EffectKeepsInv(s, w, step);
    } else if step.PolicyReply? || step.RequestReply? {
      ReplyKeepsInv(s, w, step);
    } else if step.Tick? || step.Abort? || step.SetJobStatus? {
      OutsideKeepsInv(s, w, step);
    } else {
      LocalKeepsInv(s, w, step);
    }
  }

  lemma {:induction false} LocalKeepsInv(s: Site, w: World, step: Step)
    requires Inv(s, w)
    requires !step.Redeem? && !step.Apply? && !step.Commit? && !step.PolicyReply? && !step.RequestReply?
    requires !step.Tick? && !step.Abort? && !step.SetJobStatus?
    ensures Inv(s, Next(s, w, step))
  {
    if step.CreateApproval? || step.GrantByPolicy? || step.Decide? || step.CancelApproval? || step.ExpireApprovals? {
      ApprovalsKeepInv(s, w, step);
    } else if step.Recommend? || step.Dismiss? || step.Revert? {
      ActionsKeepInv(s, w, step);
    } else {
      BeginKeepsInv(s, w, step);
    }
  }

  lemma {:induction false} RunKeepsInv(s: Site, steps: seq<Step>)
    ensures Inv(s, Run(s, steps))
  {
    if steps != [] {
      RunKeepsInv(s, steps[..|steps| - 1]);
      NextKeepsInv(s, Run(s, steps[..|steps| - 1]), steps[|steps| - 1]);
    }
  }

  predicate Collide(env: A.Env, p: A.Payload, q: A.Payload) {
    p != q && env.hash(p) == env.hash(q)
  }

  /** The main result. In every run, every provider call and every scan that entered QUEUED is
      backed by an approval that no other effect uses, that was redeemed no later than the effect
      and strictly before its deadline, that was granted by someone other than its requester or by
      the policy within its bounds, and whose action type and hash are those of exactly this action
      or job. The payload the approver saw asks for exactly this action or job, in every column, unless it
      collides with that of the effect. */
  lemma {:induction false} EffectsAreAuthorised(s: Site, steps: seq<Step>, i: nat)
    requires i < |Run(s, steps).log|
    ensures var w := Run(s, steps); var e := w.log[i];
            && e.approval in w.approvals && w.approvals[e.approval].status == A.Executed
            && var row := w.approvals[e.approval];
            && row.consumedAt.Some? && row.consumedAt.value <= e.at <= w.now && row.consumedAt.value < row.expiresAt
            && row.approvedBy.Some? && A.NameOf(row.approvedBy.value) != row.requestedBy
            && (row.approvedBy == Some(A.TenantPolicy) ==>
                  && e.Applied? && row.actionType.Defence? && A.LowRisk(row.actionType.kind)
                  && 60 <= A.TtlOf(row.payload) <= 3600 && A.ConfidenceOf(row.payload) >= 0.9)
            && row.hash == s.env.hash(e.payload)
            && (e.Applied? ==>
                  && e.action in w.actions && row.actionType == A.Defence(w.actions[e.action].kind)
                  && D.AsksFor(e.payload, s.tenant, e.action, w.actions[e.action])
                  && (D.AsksFor(row.payload, s.tenant, e.action, w.actions[e.action])
                      || Collide(s.env, row.payload, e.payload)))
            && (e.ScanQueued? ==>
                  && e.job in w.jobs && row.actionType == A.ScanExecute
                  && AsksToScan(e.payload, s.tenant, e.job, w.jobs[e.job])
                  && (AsksToScan(row.payload, s.tenant, e.job, w.jobs[e.job])
                      || Collide(s.env, row.payload, e.payload)))
    ensures forall j :: 0 <= j < |Run(s, steps).log| && j != i ==>
              Run(s, steps).log[j].approval != Run(s, steps).log[i].approval
  {
    RunKeepsInv(s, steps);
    var w := Run(s, steps);
    assert EventOk(s, w, w.log[i]);
    assert A.Sound(s.env, s.tenant, w.approvals[w.log[i].approval]);
  }

  /** The job entered QUEUED by an effect that is in the log. */
  ghost predicate WasQueued(log: seq<Event>, id: nat) {
    exists i :: 0 <= i < |log| && log[i].ScanQueued? && log[i].job == id
  }

  ghost predicate QueuedInLog(w: World) {
    && (forall id :: id in w.jobs && w.jobs[id].status == Queued ==> WasQueued(w.log, id))
    && (forall c :: c in w.calls && (w.calls[c].Filing? || w.calls[c].Filed?) ==>
          w.calls[c].job in w.jobs || w.calls[c].row.status == PendingApproval)
  }

  lemma {:induction false} StaysInLog(a: seq<Event>, b: seq<Event>, id: nat)
    requires a <= b && WasQueued(a, id)
    ensures WasQueued(b, id)
  {
    var i :| 0 <= i < |a| && a[i].ScanQueued? && a[i].job == id;
    assert b[i] == a[i];
  }

  lemma {:induction false} KeepQueued(w: World, v: World)
    requires QueuedInLog(w) && w.log <= v.log && w.jobs.Keys <= v.jobs.Keys
    requires forall id :: id in v.jobs && v.jobs[id].status == Queued ==>
               (id in w.jobs && w.jobs[id].status == Queued) || WasQueued(v.log, id)
    requires forall c :: c in v.calls && (v.calls[c].Filing? || v.calls[c].Filed?) ==>
               || (c in w.calls && (w.calls[c].Filing? || w.calls[c].Filed?)
                   && w.calls[c].job == v.calls[c].job && w.calls[c].row == v.calls[c].row)
               || v.calls[c].job in v.jobs || v.calls[c].row.status == PendingApproval
    ensures QueuedInLog(v)
  {
    forall id | id in v.jobs && v.jobs[id].status == Queued
      ensures WasQueued(v.log, id)
    {
      if id in w.jobs && w.jobs[id].status == Queued {
        StaysInLog(w.log, v.log, id);
      }
    }
  }

  lemma {:induction false} QueueingIsLogged(s: Site, w: World, call: nat, user: string)
    requires QueuedInLog(w) && call in w.calls && w.calls[call].StartRedeemed?
    ensures QueuedInLog(Committed(s, w, call, user))
  {
    var v := Committed(s, w, call, user);
    if w.calls[call].job in w.jobs {
      assert v.log[|w.log|].ScanQueued? && v.log[|w.log|].job == w.calls[call].job;
    }
    KeepQueued(w, v);
  }

  lemma {:induction false} OtherCommitKeepsQueued(s: Site, w: World, call: nat, user: string)
    requires QueuedInLog(w) && call in w.calls && !w.calls[call].StartRedeemed?
    ensures QueuedInLog(Committed(s, w, call, user))
  {
    KeepQueued(w, Committed(s, w, call, user));
  }

  lemma {:induction false} PolicyReplyKeepsQueued(s: Site, w: World, step: Step)
    requires QueuedInLog(w)
    requires step.PolicyReply?
    ensures QueuedInLog(Next(s, w, step))
  {
    KeepQueued(w, Next(s, w, step));
  }

  lemma {:induction false} FiledKeepsQueued(s: Site, w: World, call: nat, id: nat, requester: string)
    requires QueuedInLog(w) && call in w.calls && w.calls[call].Filing?
    ensures QueuedInLog(RequestReplied(s, w, call, id, requester))
  {
    KeepQueued(w, RequestReplied(s, w, call, id, requester));
  }

  lemma {:induction false} AskedKeepsQueued(s: Site, w: World, call: nat, id: nat, requester: string)
    requires QueuedInLog(w) && (call in w.calls ==> !w.calls[call].Filing?)
    ensures QueuedInLog(RequestReplied(s, w, call, id, requester))
  {
    KeepQueued(w, RequestReplied(s, w, call, id, requester));
  }

  lemma {:induction false} CallKeepsQueued(w: World, v: World, call: nat)
    requires QueuedInLog(w) && v.jobs == w.jobs && w.log <= v.log && call in v.calls
    requires v.calls == w.calls[call := v.calls[call]] && !v.calls[call].Filing? && !v.calls[call].Filed?
    ensures QueuedInLog(v)
  {
    KeepQueued(w, v);
  }

  lemma {:induction false} RedeemKeepsQueued(s: Site, w: World, call: nat)
    requires QueuedInLog(w)
    ensures QueuedInLog(Redemption(s, w, call))
  {
    if Redemption(s, w, call) != w {
      CallKeepsQueued(w, Redemption(s, w, call), call);
    }
  }

  lemma {:induction false} ApplyKeepsQueued(s: Site, w: World, call: nat, reply: D.ProviderReply)
    requires QueuedInLog(w)
    ensures QueuedInLog(ApplyStep(s, w, call, reply))
  {
    if ApplyStep(s, w, call, reply) != w {
      CallKeepsQueued(w, ApplyStep(s, w, call, reply), call);
    }
  }

  lemma {:induction false} LoadKeepsQueued(s: Site, w: World, step: Step)
    requires QueuedInLog(w)
    requires step.BeginExecute? || step.BeginPreapproved? || step.BeginRequest?
    ensures QueuedInLog(Next(s, w, step))
  {
    KeepQueued(w, Next(s, w, step));
  }

  lemma {:induction false} LoadJobKeepsQueued(s: Site, w: World, step: Step)
    requires QueuedInLog(w)
    requires step.BeginFiling? || step.BeginStart?
    ensures QueuedInLog(Next(s, w, step))
  {
    KeepQueued(w, Next(s, w, step));
  }

  lemma {:induction false} ActionKeepsQueued(s: Site, w: World, step: Step)
    requires QueuedInLog(w)
    requires step.Recommend? || step.Dismiss? || step.Revert?
    ensures QueuedInLog(Next(s, w, step))
  {
    KeepQueued(w, Next(s, w, step));
  }

  lemma {:induction false} OutsideKeepsQueued(s: Site, w: World, step: Step)
    requires QueuedInLog(w)
    requires step.Tick? || step.Abort? || step.SetJobStatus?
    ensures QueuedInLog(Next(s, w, step))
  {
    KeepQueued(w, Next(s, w, step));
  }

  lemma {:induction false} StoreKeepsQueued(s: Site, w: World, step: Step)
    requires QueuedInLog(w)
    requires step.CreateApproval? || step.GrantByPolicy? || step.Decide? || step.CancelApproval?
             || step.ExpireApprovals?
    ensures QueuedInLog(Next(s, w, step))
  {
    KeepQueued(w, Next(s, w, step));
  }

  lemma {:induction false} NextKeepsQueued(s: Site, w: World, step: Step)
    requires QueuedInLog(w)
    ensures QueuedInLog(Next(s, w, step))
  {
    if step.Commit? {
      if step.call in w.calls && w.calls[step.call].StartRedeemed? {
        QueueingIsLogged(s, w, step.call, step.user);
      } else if step.call in w.calls {
        OtherCommitKeepsQueued(s, w, step.call, step.user);
      }
    } else if step.PolicyReply? {
      PolicyReplyKeepsQueued(s, w, step);
    } else if step.RequestReply? {
      if step.call in w.calls && w.calls[step.call].Filing? {
        FiledKeepsQueued(s, w, step.call, step.id, step.requester);
      } else {
        AskedKeepsQueued(s, w, step.call, step.id, step.requester);
      }
    } else if step.Redeem? {
      RedeemKeepsQueued(s, w, step.call);
    } else if step.Apply? {
      ApplyKeepsQueued(s, w, step.call, step.reply);
    } else if step.BeginExecute? || step.BeginPreapproved? || step.BeginRequest? {
      LoadKeepsQueued(s, w, step);
    } else if step.BeginFiling? || step.BeginStart? {
      LoadJobKeepsQueued(s, w, step);
    } else if step.Recommend? || step.Dismiss? || step.Revert? {
      ActionKeepsQueued(s, w, step);
    } else if step.Tick? || step.Abort? || step.SetJobStatus? {
      OutsideKeepsQueued(s, w, step);
    } else {
      StoreKeepsQueued(s, w, step);
    }
  }

  /** No job is ever queued but by such an effect: in every run each QUEUED job has its event, and with it
      its own approval. */
  lemma {:induction false} QueuedHasAnEffect(s: Site, steps: seq<Step>)
    ensures QueuedInLog(Run(s, steps))
  {
    if steps != [] {
      QueuedHasAnEffect(s, steps[..|steps| - 1]);
      NextKeepsQueued(s, Run(s, steps[..|steps| - 1]), steps[|steps| - 1]);
    }
  }

  function SpentBy(log: seq<Event>): set<nat> {
    set i | 0 <= i < |log| :: log[i].approval
  }

  lemma {:induction false} DistinctEventsCount(log: seq<Event>)
    requires forall i, j :: 0 <= i < j < |log| ==> log[i].approval != log[j].approval
    ensures |SpentBy(log)| == |log|
  {
    if log != [] {
      var init, last := log[..|log| - 1], log[|log| - 1];
      DistinctEventsCount(init);
      assert SpentBy(log) == SpentBy(init) + {last.approval};
      assert last.approval !in SpentBy(init);
    }
  }

  function ExecutedIds(rows: A.Table): set<nat> {
    set x | x in rows && rows[x].status == A.Executed
  }

  lemma {:induction false} SpentAreExecuted(s: Site, w: World)
    requires EventsOk(s, w)
    ensures SpentBy(w.log) <= ExecutedIds(w.approvals)
  {
    forall i | 0 <= i < |w.log|
      ensures w.log[i].approval in ExecutedIds(w.approvals)
    {
      assert EventOk(s, w, w.log[i]);
    }
  }

  /** Effects never outnumber redeemed approvals, however often requests fail and are retried. */
  lemma {:induction false} EffectsNeverExceedApprovals(s: Site, steps: seq<Step>)
    ensures |Run(s, steps).log| <= |ExecutedIds(Run(s, steps).approvals)|
  {
    RunKeepsInv(s, steps);
    var w := Run(s, steps);
    DistinctEventsCount(w.log);
    SpentAreExecuted(s, w);
    SubsetIsSmaller(SpentBy(w.log), ExecutedIds(w.approvals));
  }
}
