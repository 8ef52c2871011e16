/** What becomes of a defence action. Whether it can still become ACTIVE depends on its row, on its
    approval and on the requests about it that are in flight, and `HasProspect` says how. An action that
    waits for a dead approval with no such request is stuck for ever. */
module Liveness {
  import opened Common
  import opened Protocol
  import A = Approvals
  import D = Defence

  /** The action a request is about. */
  function About(c: Call): Option<nat> {
    if c.Starting? || c.StartRedeemed? || c.Filing? || c.Filed? then None else Some(c.action)
  }

  /** The approval was decided or can still be, and is in time. */
  predicate Redeemable(row: A.Approval, now: int) {
    (row.status.Pending? || row.status.Approved?) && now < row.expiresAt
  }

  /** The action waits for an approval, and the only requests about it in flight are executions that
      loaded the row as it is. */
  ghost predicate Waiting(w: World, id: nat) {
    && id in w.actions && w.actions[id].status == D.PendingApproval
    && (forall c :: c in w.calls && About(w.calls[c]) == Some(id) ==> w.calls[c] == Executing(id, w.actions[id]))
  }

  ghost predicate ApprovalLives(w: World, id: nat)
    requires id in w.actions
  {
    && w.actions[id].approvalId.Some? && w.actions[id].approvalId.value in w.approvals
    && Redeemable(w.approvals[w.actions[id].approvalId.value], w.now)
  }

  /** The action waits for an approval that is used, refused, cancelled, expired or overdue. */
  ghost predicate Stuck(w: World, id: nat) {
    && Waiting(w, id)
    && w.actions[id].approvalId.Some? && w.actions[id].approvalId.value in w.approvals
    && !Redeemable(w.approvals[w.actions[id].approvalId.value], w.now)
  }

  // ------------------------------------------------------------------ a dead approval stays dead

  lemma {:induction false} RowAfterRedemption(s: Site, w: World, call: nat, x: nat)
    requires A.SoundTable(s.env, s.tenant, w.approvals) && x in w.approvals
    ensures x in Redemption(s, w, call).approvals
    ensures A.Moves(w.approvals[x], Redemption(s, w, call).approvals[x], w.now)
  {
    if call in w.calls && Claim(s, w.calls[call]).Some? {
      var (id, t, p) := Claim(s, w.calls[call]).value;
      if id in w.approvals {
        A.RedemptionMoves(s.env, s.tenant, w.approvals[id], t, p, CallerName(w.calls[call]), w.now);
      }
    }
  }

  lemma {:induction false} RowAfterReply(s: Site, w: World, step: Step, x: nat)
    requires x in w.approvals && (step.PolicyReply? || step.RequestReply?)
    ensures x in Next(s, w, step).approvals && Next(s, w, step).approvals[x] == w.approvals[x]
  {
  }

  lemma {:induction false} RowAfterStore(s: Site, w: World, step: Step, x: nat)
    requires A.SoundTable(s.env, s.tenant, w.approvals) && x in w.approvals
    ensures x in ApprovalStep(s, w, step)
    ensures A.Moves(w.approvals[x], ApprovalStep(s, w, step)[x], w.now)
  {
    ApprovalStepEvolves(s, w, step);
  }

  predicate StoreStep(step: Step) {
    step.CreateApproval? || step.GrantByPolicy? || step.Decide? || step.CancelApproval? || step.ExpireApprovals?
  }

  lemma {:induction false} ApprovalsOtherwise(s: Site, w: World, step: Step)
    requires !StoreStep(step) && !step.PolicyReply? && !step.RequestReply? && !step.Redeem?
    ensures Next(s, w, step).approvals == w.approvals
  {
  }

  /** Whatever the step, an approval row makes a legal move. */
  lemma {:induction false} RowAfter(s: Site, w: World, step: Step, x: nat)
    requires A.SoundTable(s.env, s.tenant, w.approvals) && x in w.approvals
    ensures x in Next(s, w, step).approvals
    ensures A.Moves(w.approvals[x], Next(s, w, step).approvals[x], w.now)
  {
    if step.Redeem? {
      RowAfterRedemption(s, w, step.call, x);
    } else if step.PolicyReply? || step.RequestReply? {
      RowAfterReply(s, w, step, x);
    } else if StoreStep(step) {
      RowAfterStore(s, w, step, x);
    } else {
      ApprovalsOtherwise(s, w, step);
    }
  }

  lemma {:induction false} ClockAfter(s: Site, w: World, step: Step)
    ensures w.now <= Next(s, w, step).now
  {
  }

  lemma {:induction false} DeadStaysDead(a: A.Approval, b: A.Approval, now: int, later: int)
    requires A.Moves(a, b, now) && now <= later && !Redeemable(a, now)
    ensures !Redeemable(b, later)
  {
  }

  // ------------------------------------------------------------------ a stuck action stays stuck

  predicate SameKindAndTarget(a: D.Action, b: D.Action) {
    a.kind == b.kind && a.target == b.target
  }

  lemma {:induction false} CommitAfter(s: Site, w: World, call: nat, user: string)
    ensures var v := Committed(s, w, call, user);
            || v.actions == w.actions
            || (call in w.calls && !w.calls[call].Executing? && About(w.calls[call]).Some?
                && var id := About(w.calls[call]).value;
                   id in w.actions && id in v.actions && v.actions == w.actions[id := v.actions[id]]
                   && SameKindAndTarget(v.actions[id], w.actions[id]))
  {
  }

  /** What a step does to the action table: a local transaction, or the commit of a request that
      is past its first stage, on that request's own row. */
  lemma {:induction false} ActionsAfter(s: Site, w: World, step: Step)
    ensures var v := Next(s, w, step);
            || v.actions == w.actions
            || ((step.Recommend? || step.Dismiss? || step.Revert?) && v.actions == ActionStep(s, w, step))
            || (step.Commit? && step.call in w.calls && !w.calls[step.call].Executing?
                && About(w.calls[step.call]).Some?
                && var id := About(w.calls[step.call]).value;
                   id in w.actions && id in v.actions && v.actions == w.actions[id := v.actions[id]]
                   && SameKindAndTarget(v.actions[id], w.actions[id]))
  {
    if step.Commit? {
      CommitAfter(s, w, step.call, step.user);
    }
  }

  /** From `w` to `v` the action did not move and there is no further one of its type and target. */
  predicate Frozen(w: World, v: World, id: nat) {
    && id in w.actions && id in v.actions && v.actions[id] == w.actions[id]
    && (forall e :: e in w.actions ==> e in v.actions && SameKindAndTarget(w.actions[e], v.actions[e]))
    && (forall e :: e in v.actions && SameKindAndTarget(v.actions[e], w.actions[id]) ==> e in w.actions)
  }

  lemma {:induction false} StuckRowStays(s: Site, w: World, step: Step, id: nat)
    requires Stuck(w, id)
    ensures Frozen(w, Next(s, w, step), id)
  {
    ActionsAfter(s, w, step);
    assert D.OpenFor(w.actions[id], w.actions[id].kind, w.actions[id].target);
    if step.Commit? && step.call in w.calls && About(w.calls[step.call]) == Some(id) {
      assert w.calls[step.call] == Executing(id, w.actions[id]);
    }
  }

  /** What one step may have made of a call: nothing, a fresh one that loaded a row, or the next stage
      of the same request. */
  ghost predicate CallChange(s: Site, w: World, step: Step, c: nat, d: Call) {
    || (c in w.calls && d == w.calls[c])
    || (c !in w.calls && About(d).Some? && About(d).value in w.actions
        && (d == Executing(About(d).value, w.actions[About(d).value])
            || w.actions[About(d).value].status == D.Recommended))
    || About(d).None?
    || (c in w.calls && About(w.calls[c]) == About(d) && !w.calls[c].Executing?)
    || (c in w.calls && w.calls[c].Executing? && step == Redeem(c) && Redemption(s, w, c).calls[c] == d)
  }

  predicate Begins(step: Step) {
    step.BeginExecute? || step.BeginPreapproved? || step.BeginRequest? || step.BeginFiling? || step.BeginStart?
  }

  lemma {:induction false} CallsAfterBegin(s: Site, w: World, step: Step, c: nat)
    requires Begins(step) && c in Next(s, w, step).calls
    ensures CallChange(s, w, step, c, Next(s, w, step).calls[c])
  {
  }

  lemma {:induction false} CallsAfterRequest(s: Site, w: World, step: Step, c: nat)
    requires step.PolicyReply? || step.RequestReply? || step.Redeem?
    requires c in Next(s, w, step).calls
    ensures CallChange(s, w, step, c, Next(s, w, step).calls[c])
  {
  }

  lemma {:induction false} CallsAfterEffect(s: Site, w: World, step: Step, c: nat)
    requires step.Apply? || step.Commit?
    requires c in Next(s, w, step).calls
    ensures CallChange(s, w, step, c, Next(s, w, step).calls[c])
  {
  }

  lemma {:induction false} CallsAfter(s: Site, w: World, step: Step, c: nat)
    requires c in Next(s, w, step).calls
    ensures CallChange(s, w, step, c, Next(s, w, step).calls[c])
  {
    if Begins(step) {
      CallsAfterBegin(s, w, step, c);
    } else if step.PolicyReply? || step.RequestReply? || step.Redeem? {
      CallsAfterRequest(s, w, step, c);
    } else if step.Apply? || step.Commit? {
      CallsAfterEffect(s, w, step, c);
    }
  }

  lemma {:induction false} StuckCallsStay(s: Site, w: World, step: Step, id: nat, c: nat)
    requires Stuck(w, id)
    requires c in Next(s, w, step).calls && About(Next(s, w, step).calls[c]) == Some(id)
    ensures Next(s, w, step).calls[c] == Executing(id, w.actions[id])
  {
    CallsAfter(s, w, step, c);
    if c in w.calls && w.calls[c].Executing? && step == Redeem(c) {
      StuckIsRefused(s, w, c, id);
    }
  }

  /** A request that tries to redeem the dead approval is refused. */
  lemma {:induction false} StuckIsRefused(s: Site, w: World, c: nat, id: nat)
    requires c in w.calls && w.calls[c].Executing? && Stuck(w, id)
    requires About(AfterRedeem(w.calls[c], 0)) == Some(id)
    ensures Redemption(s, w, c) == w
  {
    assert w.calls[c] == Executing(id, w.actions[id]);
  }

  /** No step of anyone gets a stuck action moving again. */
  lemma {:induction false} StuckStays(s: Site, w: World, step: Step, id: nat)
    requires A.SoundTable(s.env, s.tenant, w.approvals) && Stuck(w, id)
    ensures Stuck(Next(s, w, step), id) && Frozen(w, Next(s, w, step), id)
  {
    var v, x := Next(s, w, step), w.actions[id].approvalId.value;
    StuckRowStays(s, w, step, id);
    RowAfter(s, w, step, x);
    ClockAfter(s, w, step);
    DeadStaysDead(w.approvals[x], v.approvals[x], w.now, v.now);
    forall c | c in v.calls && About(v.calls[c]) == Some(id)
      ensures v.calls[c] == Executing(id, v.actions[id])
    {
      StuckCallsStay(s, w, step, id, c);
    }
  }

  lemma {:induction false} FrozenTwice(u: World, w: World, v: World, id: nat)
    requires Frozen(u, w, id) && Frozen(w, v, id)
    ensures Frozen(u, v, id)
  {
    forall e | e in u.actions
      ensures e in v.actions && SameKindAndTarget(u.actions[e], v.actions[e])
    {
      assert e in w.actions && SameKindAndTarget(u.actions[e], w.actions[e]);
    }
    forall e | e in v.actions && SameKindAndTarget(v.actions[e], u.actions[id])
      ensures e in u.actions
    {
      assert e in w.actions;
      assert SameKindAndTarget(w.actions[e], v.actions[e]);
    }
  }

  /** A stuck action stays PENDING_APPROVAL in every continuation of the run, and since it still
      counts as open, no further action of the same type and target is ever recommended. */
  lemma {:induction false} StuckForever(s: Site, steps: seq<Step>, more: seq<Step>, id: nat)
    requires Stuck(Run(s, steps), id)
    ensures Stuck(Run(s, steps + more), id) && Frozen(Run(s, steps), Run(s, steps + more), id)
  {
    if more == [] {
      assert steps + more == steps;
    } else {
      var init, last := more[..|more| - 1], more[|more| - 1];
      StuckForever(s, steps, init, id);
      assert steps + more == (steps + init) + [last];
      RunStep(s, steps + init, last);
      RunKeepsInv(s, steps + init);
      StuckStays(s, Run(s, steps + init), last, id);
      FrozenTwice(Run(s, steps), Run(s, steps + init), Run(s, steps + more), id);
    }
  }

  lemma {:induction false} RunStep(s: Site, steps: seq<Step>, step: Step)
    ensures Run(s, steps + [step]) == Next(s, Run(s, steps), step)
  {
    assert (steps + [step])[..|steps|] == steps;
  }

  // ------------------------------------------------------------------ what a waiting action waits for

  /** Approval `x` was filed for exactly this action. */
  ghost predicate FiledFor(s: Site, approvals: A.Table, x: nat, id: nat, a: D.Action) {
    && x in approvals && approvals[x].hash == s.env.hash(D.ActionPayload(s.tenant, id, a))
    && approvals[x].actionType == A.Defence(a.kind)
  }

  ghost predicate RowLinked(s: Site, w: World, id: nat)
    requires id in w.actions
  {
    w.actions[id].status == D.PendingApproval ==>
      w.actions[id].approvalId.Some? && FiledFor(s, w.approvals, w.actions[id].approvalId.value, id, w.actions[id])
  }

  ghost predicate CallLinked(s: Site, w: World, c: Call) {
    && (About(c).Some? ==> About(c).value in w.actions)
    && match c
       case Requesting(id, snap) => D.SameBinding(snap, w.actions[id])
       case ApprovalRequested(id, x) => FiledFor(s, w.approvals, x, id, w.actions[id])
       case PolicyGranted(id, snap, x) => FiledFor(s, w.approvals, x, id, snap)
       case Executing(id, snap) =>
         snap.status == D.PendingApproval ==>
           snap.approvalId.Some? && FiledFor(s, w.approvals, snap.approvalId.value, id, snap)
       case _ => true
  }

  ghost predicate Linked(s: Site, w: World) {
    && (forall id :: id in w.actions ==> RowLinked(s, w, id))
    && (forall c :: c in w.calls ==> CallLinked(s, w, w.calls[c]))
  }

  /** Approvals keep what they were filed for. */
  ghost predicate KeepsFiling(a: A.Table, b: A.Table) {
    forall x :: x in a ==> x in b && b[x].hash == a[x].hash && b[x].actionType == a[x].actionType
  }

  lemma {:induction false} NextKeepsFiling(s: Site, w: World, step: Step)
    requires A.SoundTable(s.env, s.tenant, w.approvals)
    ensures KeepsFiling(w.approvals, Next(s, w, step).approvals)
  {
    forall x | x in w.approvals
      ensures x in Next(s, w, step).approvals && Next(s, w, step).approvals[x].hash == w.approvals[x].hash
      ensures Next(s, w, step).approvals[x].actionType == w.approvals[x].actionType
    {
      RowAfter(s, w, step, x);
    }
  }

  /** An action of `v` that waits either waited in `w` for the same approval, or the step has just
      committed the request that filed its approval. */
  ghost predicate WaitsAsBefore(s: Site, w: World, v: World, id: nat)
    requires id in v.actions
  {
    v.actions[id].status == D.PendingApproval ==>
      || (id in w.actions && w.actions[id].status == D.PendingApproval && D.SameBinding(w.actions[id], v.actions[id])
          && w.actions[id].approvalId == v.actions[id].approvalId)
      || RowLinked(s, v, id)
  }

  lemma {:induction false} KeepLinked(s: Site, w: World, v: World)
    requires Linked(s, w) && KeepsFiling(w.approvals, v.approvals) && KeepsBindings(w.actions, v.actions)
    requires forall id :: id in v.actions ==> WaitsAsBefore(s, w, v, id)
    requires forall c :: c in v.calls ==> (c in w.calls && v.calls[c] == w.calls[c]) || CallLinked(s, v, v.calls[c])
    ensures Linked(s, v)
  {
    forall id | id in v.actions
      ensures RowLinked(s, v, id)
    {
      assert WaitsAsBefore(s, w, v, id);
      assert id in w.actions ==> RowLinked(s, w, id);
    }
    forall c | c in v.calls
      ensures CallLinked(s, v, v.calls[c])
    {
      assert c in w.calls ==> CallLinked(s, w, w.calls[c]);
    }
  }

  lemma {:induction false} RecommendKeepsLinked(s: Site, w: World, step: Step)
    requires Linked(s, w) && step.Recommend?
    ensures Linked(s, Next(s, w, step))
  {
    KeepLinked(s, w, w.(actions := ActionStep(s, w, step)));
  }

  lemma {:induction false} ClosingKeepsLinked(s: Site, w: World, step: Step)
    requires Linked(s, w) && (step.Dismiss? || step.Revert?)
    ensures Linked(s, Next(s, w, step))
  {
    KeepLinked(s, w, w.(actions := ActionStep(s, w, step)));
  }

  lemma {:induction false} StoreKeepsLinked(s: Site, w: World, step: Step)
    requires Linked(s, w) && A.SoundTable(s.env, s.tenant, w.approvals) && StoreStep(step)
    ensures Linked(s, Next(s, w, step))
  {
    NextKeepsFiling(s, w, step);
    KeepLinked(s, w, w.(approvals := ApprovalStep(s, w, step)));
  }

  lemma {:induction false} OutsideKeepsLinked(s: Site, w: World, step: Step)
    requires Linked(s, w) && (step.Tick? || step.Abort? || step.SetJobStatus?)
    ensures Linked(s, Next(s, w, step))
  {
    KeepLinked(s, w, Next(s, w, step));
  }

  predicate RequestStep(step: Step) {
    Begins(step) || step.Redeem? || step.PolicyReply? || step.RequestReply? || step.Apply?
  }

  ghost predicate SameOrLinked(s: Site, w: World, v: World, c: nat)
    requires c in v.calls
  {
    (c in w.calls && v.calls[c] == w.calls[c]) || CallLinked(s, v, v.calls[c])
  }

  lemma {:induction false} BegunIsLinked(s: Site, w: World, step: Step, c: nat)
    requires Linked(s, w) && Begins(step) && c in Next(s, w, step).calls
    ensures SameOrLinked(s, w, Next(s, w, step), c)
  {
    assert forall id :: id in w.actions ==> RowLinked(s, w, id);
  }

  lemma {:induction false} RedeemedIsLinked(s: Site, w: World, step: Step, c: nat)
    requires Linked(s, w) && step.Redeem? && c in Next(s, w, step).calls
    ensures SameOrLinked(s, w, Next(s, w, step), c)
  {
    assert c in w.calls && CallLinked(s, w, w.calls[c]);
  }

  lemma {:induction false} GrantedIsLinked(s: Site, w: World, step: Step, c: nat)
    requires Linked(s, w) && step.PolicyReply? && c in Next(s, w, step).calls
    ensures SameOrLinked(s, w, Next(s, w, step), c)
  {
    assert c in w.calls && CallLinked(s, w, w.calls[c]);
  }

  lemma {:induction false} RequestedIsLinked(s: Site, w: World, c: nat, x: nat, requester: string)
    requires c in w.calls && w.calls[c].Requesting? && CallLinked(s, w, w.calls[c])
    requires c in RequestReplied(s, w, c, x, requester).calls
    ensures SameOrLinked(s, w, RequestReplied(s, w, c, x, requester), c)
  {
  }

  lemma {:induction false} OtherReplyIsLinked(s: Site, w: World, call: nat, c: nat, x: nat, requester: string)
    requires c in w.calls && (c != call || !w.calls[c].Requesting?)
    requires c in RequestReplied(s, w, call, x, requester).calls
    ensures SameOrLinked(s, w, RequestReplied(s, w, call, x, requester), c)
  {
  }

  lemma {:induction false} FiledIsLinked(s: Site, w: World, step: Step, c: nat)
    requires Linked(s, w) && step.RequestReply? && c in Next(s, w, step).calls
    ensures SameOrLinked(s, w, Next(s, w, step), c)
  {
    assert c in w.calls && CallLinked(s, w, w.calls[c]);
    if c == step.call && w.calls[c].Requesting? {
      RequestedIsLinked(s, w, c, step.id, step.requester);
    } else {
      OtherReplyIsLinked(s, w, step.call, c, step.id, step.requester);
    }
  }

  lemma {:induction false} AppliedIsLinked(s: Site, w: World, step: Step, c: nat)
    requires Linked(s, w) && step.Apply? && c in Next(s, w, step).calls
    ensures SameOrLinked(s, w, Next(s, w, step), c)
  {
    assert c in w.calls && CallLinked(s, w, w.calls[c]);
  }

  lemma {:induction false} RequestStepIsLinked(s: Site, w: World, step: Step, c: nat)
    requires Linked(s, w) && RequestStep(step) && c in Next(s, w, step).calls
    ensures SameOrLinked(s, w, Next(s, w, step), c)
  {
    if Begins(step) {
      BegunIsLinked(s, w, step, c);
    } else if step.Redeem? {
      RedeemedIsLinked(s, w, step, c);
    } else if step.PolicyReply? {
      GrantedIsLinked(s, w, step, c);
    } else if step.RequestReply? {
      FiledIsLinked(s, w, step, c);
    } else {
      AppliedIsLinked(s, w, step, c);
    }
  }

  lemma {:induction false} SameActions(s: Site, w: World, step: Step)
    requires RequestStep(step)
    ensures Next(s, w, step).actions == w.actions
  {
  }

  lemma {:induction false} SameActionsKeepLinked(s: Site, w: World, v: World)
    requires Linked(s, w) && KeepsFiling(w.approvals, v.approvals) && v.actions == w.actions
    requires forall c :: c in v.calls ==> SameOrLinked(s, w, v, c)
    ensures Linked(s, v)
  {
    KeepLinked(s, w, v);
  }

  /** A step of a request in flight short of its commit. */
  lemma {:induction false} RequestKeepsLinked(s: Site, w: World, step: Step)
    requires Linked(s, w) && A.SoundTable(s.env, s.tenant, w.approvals) && RequestStep(step)
    ensures Linked(s, Next(s, w, step))
  {
    NextKeepsFiling(s, w, step);
    SameActions(s, w, step);
    forall c | c in Next(s, w, step).calls
      ensures SameOrLinked(s, w, Next(s, w, step), c)
    {
      RequestStepIsLinked(s, w, step, c);
    }
    SameActionsKeepLinked(s, w, Next(s, w, step));
  }

  lemma {:induction false} CommitRowKeepsLinked(s: Site, w: World, call: nat, id: nat, a: D.Action)
    requires Linked(s, w) && id in w.actions && D.SameBinding(w.actions[id], a)
    requires var v := w.(actions := w.actions[id := a], calls := w.calls - {call});
             WaitsAsBefore(s, w, v, id)
    ensures Linked(s, w.(actions := w.actions[id := a], calls := w.calls - {call}))
  {
    KeepLinked(s, w, w.(actions := w.actions[id := a], calls := w.calls - {call}));
  }

  lemma {:induction false} CommitOtherKeepsLinked(s: Site, w: World, call: nat, user: string)
    requires Linked(s, w) && call in w.calls && !w.calls[call].Replied? && !w.calls[call].ApprovalRequested?
    ensures Linked(s, Committed(s, w, call, user))
  {
    KeepLinked(s, w, Committed(s, w, call, user));
  }

  lemma {:induction false} CommitKeepsLinked(s: Site, w: World, call: nat, user: string)
    requires Linked(s, w)
    ensures Linked(s, Committed(s, w, call, user))
  {
    if call in w.calls {
      assert CallLinked(s, w, w.calls[call]);
      match w.calls[call]
      case Replied(id, _, _, _) =>
        if id in w.actions {
          assert RowLinked(s, w, id);
          CommitRowKeepsLinked(s, w, call, id, CommittedAction(w.actions[id], w.calls[call], user, w.now));
        }
      case ApprovalRequested(id, x) =>
        CommitRowKeepsLinked(s, w, call, id, D.Requested(w.actions[id], x));
      case _ => CommitOtherKeepsLinked(s, w, call, user);
    }
  }

  lemma {:induction false} NextKeepsLinked(s: Site, w: World, step: Step)
    requires Linked(s, w) && A.SoundTable(s.env, s.tenant, w.approvals)
    ensures Linked(s, Next(s, w, step))
  {
    if RequestStep(step) {
      RequestKeepsLinked(s, w, step);
    } else if step.Recommend? {
      RecommendKeepsLinked(s, w, step);
    } else if step.Dismiss? || step.Revert? {
      ClosingKeepsLinked(s, w, step);
    } else if step.Commit? {
      CommitKeepsLinked(s, w, step.call, step.user);
    } else if StoreStep(step) {
      StoreKeepsLinked(s, w, step);
    } else {
      OutsideKeepsLinked(s, w, step);
    }
  }

  lemma {:induction false} RunKeepsLinked(s: Site, steps: seq<Step>)
    ensures Linked(s, Run(s, steps))
  {
    if steps != [] {
      RunKeepsLinked(s, steps[..|steps| - 1]);
      RunKeepsInv(s, steps[..|steps| - 1]);
      NextKeepsLinked(s, Run(s, steps[..|steps| - 1]), steps[|steps| - 1]);
    }
  }

  // ------------------------------------------------------------------ a live approval can be used

  /** A process number nobody uses. */
  lemma {:induction false} FreshCall(calls: set<nat>) returns (call: nat)
    ensures forall c :: c in calls ==> c < call
  {
    call := 0;
    if calls != {} {
      var c :| c in calls;
      var above := FreshCall(calls - {c});
      call := if above <= c then c + 1 else above;
      forall d | d in calls
        ensures d < call
      {
        assert d != c ==> d in calls - {c};
      }
    }
  }

  ghost predicate GoesActive(s: Site, steps: seq<Step>, more: seq<Step>, id: nat) {
    id in Run(s, steps + more).actions && Run(s, steps + more).actions[id].status == D.Active
  }

  lemma {:induction false} FirstStep(s: Site, steps: seq<Step>, step: Step, rest: seq<Step>, id: nat)
    returns (more: seq<Step>)
    requires GoesActive(s, steps + [step], rest, id)
    ensures GoesActive(s, steps, more, id)
  {
    more := [step] + rest;
    assert steps + more == steps + [step] + rest;
  }

  /** The approval can still be used. */
  predicate Useable(w: World, x: nat) {
    x in w.approvals && Redeemable(w.approvals[x], w.now)
  }

  /** Some settings of the tenant let the policy approve this action. */
  predicate Grantable(s: Site, id: nat, snap: D.Action) {
    A.PreapprovalRefusal(s.env, Generous(snap.kind), A.Defence(snap.kind), D.ActionPayload(s.tenant, id, snap)).None?
  }

  function Generous(kind: A.DefenceType): A.TenantSettings {
    A.TenantSettings(true, {A.Defence(kind)})
  }

  lemma {:induction false} SomeSettingsGrant(s: Site, id: nat, snap: D.Action, settings: A.TenantSettings)
    requires A.PreapprovalRefusal(s.env, settings, A.Defence(snap.kind), D.ActionPayload(s.tenant, id, snap)).None?
    ensures Grantable(s, id, snap)
  {
  }

  /** What a request in flight can still do for its action, whatever the row holds by now: it is before
      the answer that files or grants its approval, or that approval is alive, or it is past its
      redemption and the provider has not refused. */
  predicate CanDeliver(s: Site, w: World, c: Call) {
    match c
    case Requesting(_, _) => true
    case ApprovalRequested(_, x) => Useable(w, x)
    case Preapproving(id, snap) => Grantable(s, id, snap)
    case PolicyGranted(_, _, x) => Useable(w, x)
    case Executing(_, snap) =>
      snap.status == D.PendingApproval && snap.approvalId.Some? && Useable(w, snap.approvalId.value)
    case Redeemed(_, snap, _, viaPolicy) => viaPolicy || snap.status == D.PendingApproval
    case Replied(_, _, _, reply) => reply.Reference?
    case _ => false
  }

  predicate Delivers(s: Site, w: World, id: nat, c: nat) {
    c in w.calls && About(w.calls[c]) == Some(id) && CanDeliver(s, w, w.calls[c])
  }

  predicate RowHasProspect(w: World, id: nat)
    requires id in w.actions
  {
    var a := w.actions[id];
    || a.status.Active? || a.status.Recommended?
    || (a.status.PendingApproval? && a.approvalId.Some? && Useable(w, a.approvalId.value))
  }

  ghost predicate HasProspect(s: Site, w: World, id: nat) {
    id in w.actions && (RowHasProspect(w, id) || exists c :: Delivers(s, w, id, c))
  }

  // ------------------------------------------------------------------ what is in flight can deliver

  lemma {:induction false} RepliedDelivers(s: Site, steps: seq<Step>, id: nat, c: nat) returns (more: seq<Step>)
    requires Delivers(s, Run(s, steps), id, c) && Run(s, steps).calls[c].Replied?
    ensures GoesActive(s, steps, more, id)
  {
    RunKeepsLinked(s, steps);
    assert CallLinked(s, Run(s, steps), Run(s, steps).calls[c]);
    more := [Commit(c, "user")];
    RunStep(s, steps, Commit(c, "user"));
  }

  lemma {:induction false} RedeemedDelivers(s: Site, steps: seq<Step>, id: nat, c: nat) returns (more: seq<Step>)
    requires Delivers(s, Run(s, steps), id, c) && Run(s, steps).calls[c].Redeemed?
    ensures GoesActive(s, steps, more, id)
  {
    var step := Apply(c, D.Reference("done"));
    RunStep(s, steps, step);
    var rest := RepliedDelivers(s, steps + [step], id, c);
    more := FirstStep(s, steps, step, rest, id);
  }

  /** The approval a request about an action would redeem. */
  function Needs(c: Call): Option<nat> {
    if c.PolicyGranted? then Some(c.approval)
    else if c.Executing? && c.snap.status == D.PendingApproval then c.snap.approvalId
    else None
  }

  /** With its approval granted, redemption succeeds and the request can go on. */
  lemma {:induction false} GrantedIsRedeemed(s: Site, w: World, id: nat, c: nat)
    requires Delivers(s, w, id, c) && CallLinked(s, w, w.calls[c]) && Needs(w.calls[c]).Some?
    requires w.approvals[Needs(w.calls[c]).value].status == A.Approved
    ensures var v := Next(s, w, Redeem(c));
            Delivers(s, v, id, c) && v.calls[c].Redeemed?
  {
  }

  /** A second person approves what is still pending; of what is granted nothing is asked. */
  lemma {:induction false} CanBeGranted(s: Site, w: World, x: nat) returns (step: Step)
    requires Useable(w, x)
    ensures var v := Next(s, w, step);
            && v == w.(approvals := v.approvals) && Useable(v, x) && v.approvals[x].status == A.Approved
  {
    if w.approvals[x].status == A.Approved {
      step := Tick(0);
    } else {
      var approver := "second to " + w.approvals[x].requestedBy;
      assert |approver| != |w.approvals[x].requestedBy|;
      step := Decide(x, true, approver, w.approvals[x].hash);
    }
  }

  lemma {:induction false} GrantableDelivers(s: Site, steps: seq<Step>, id: nat, c: nat) returns (more: seq<Step>)
    requires Delivers(s, Run(s, steps), id, c) && Needs(Run(s, steps).calls[c]).Some?
    ensures GoesActive(s, steps, more, id)
  {
    var step := CanBeGranted(s, Run(s, steps), Needs(Run(s, steps).calls[c]).value);
    RunStep(s, steps, step);
    RunKeepsLinked(s, steps + [step]);
    assert CallLinked(s, Run(s, steps + [step]), Run(s, steps + [step]).calls[c]);
    GrantedIsRedeemed(s, Run(s, steps + [step]), id, c);
    RunStep(s, steps + [step], Redeem(c));
    var rest := RedeemedDelivers(s, steps + [step] + [Redeem(c)], id, c);
    rest := FirstStep(s, steps + [step], Redeem(c), rest, id);
    more := FirstStep(s, steps, step, rest, id);
  }

  /** While the approval of a waiting action lives, some continuation carries the action out, whoever
      else is at work. */
  lemma {:induction false} LiveCanBeExecuted(s: Site, steps: seq<Step>, id: nat) returns (more: seq<Step>)
    requires id in Run(s, steps).actions && Run(s, steps).actions[id].status == D.PendingApproval
    requires ApprovalLives(Run(s, steps), id)
    ensures GoesActive(s, steps, more, id)
  {
    var c := FreshCall(Run(s, steps).calls.Keys);
    RunStep(s, steps, BeginExecute(c, id));
    var rest := GrantableDelivers(s, steps + [BeginExecute(c, id)], id, c);
    more := FirstStep(s, steps, BeginExecute(c, id), rest, id);
  }

  /** A request whose approval was filed replaces a dead approval by its own when it commits, and the
      action can be executed again. */
  lemma {:induction false} OtherRequestRevives(s: Site, steps: seq<Step>, id: nat, c: nat) returns (more: seq<Step>)
    requires Delivers(s, Run(s, steps), id, c) && Run(s, steps).calls[c].ApprovalRequested?
    ensures GoesActive(s, steps, more, id)
  {
    RunKeepsLinked(s, steps);
    assert CallLinked(s, Run(s, steps), Run(s, steps).calls[c]);
    RunStep(s, steps, Commit(c, "user"));
    var rest := LiveCanBeExecuted(s, steps + [Commit(c, "user")], id);
    more := FirstStep(s, steps, Commit(c, "user"), rest, id);
  }

  lemma {:induction false} RequestIsFiled(s: Site, w: World, id: nat, c: nat, x: nat)
    requires Delivers(s, w, id, c) && w.calls[c].Requesting? && x !in w.approvals
    ensures var v := Next(s, w, RequestReply(c, x, "user"));
            Delivers(s, v, id, c) && v.calls[c].ApprovalRequested?
  {
  }

  lemma {:induction false} RequestDelivers(s: Site, steps: seq<Step>, id: nat, c: nat) returns (more: seq<Step>)
    requires Delivers(s, Run(s, steps), id, c) && Run(s, steps).calls[c].Requesting?
    ensures GoesActive(s, steps, more, id)
  {
    var x := FreshCall(Run(s, steps).approvals.Keys);
    var step := RequestReply(c, x, "user");
    RequestIsFiled(s, Run(s, steps), id, c, x);
    RunStep(s, steps, step);
    var rest := OtherRequestRevives(s, steps + [step], id, c);
    more := FirstStep(s, steps, step, rest, id);
  }

  lemma {:induction false} PolicyGrants(s: Site, w: World, id: nat, c: nat, x: nat)
    requires Delivers(s, w, id, c) && w.calls[c].Preapproving? && x !in w.approvals
    ensures var v := Next(s, w, PolicyReply(c, x, Generous(w.calls[c].snap.kind)));
            Delivers(s, v, id, c) && v.calls[c].PolicyGranted?
  {
  }

  lemma {:induction false} PreapprovingDelivers(s: Site, steps: seq<Step>, id: nat, c: nat) returns (more: seq<Step>)
    requires Delivers(s, Run(s, steps), id, c) && Run(s, steps).calls[c].Preapproving?
    ensures GoesActive(s, steps, more, id)
  {
    var x := FreshCall(Run(s, steps).approvals.Keys);
    var step := PolicyReply(c, x, Generous(Run(s, steps).calls[c].snap.kind));
    PolicyGrants(s, Run(s, steps), id, c, x);
    RunStep(s, steps, step);
    var rest := GrantableDelivers(s, steps + [step], id, c);
    more := FirstStep(s, steps, step, rest, id);
  }

  lemma {:induction false} InFlightDelivers(s: Site, steps: seq<Step>, id: nat, c: nat) returns (more: seq<Step>)
    requires Delivers(s, Run(s, steps), id, c)
    ensures GoesActive(s, steps, more, id)
  {
    match Run(s, steps).calls[c]
    case Requesting(_, _) => more := RequestDelivers(s, steps, id, c);
    case ApprovalRequested(_, _) => more := OtherRequestRevives(s, steps, id, c);
    case Preapproving(_, _) => more := PreapprovingDelivers(s, steps, id, c);
    case PolicyGranted(_, _, _) => more := GrantableDelivers(s, steps, id, c);
    case Executing(_, _) => more := GrantableDelivers(s, steps, id, c);
    case Redeemed(_, _, _, _) => more := RedeemedDelivers(s, steps, id, c);
    case Replied(_, _, _, _) => more := RepliedDelivers(s, steps, id, c);
  }

  lemma {:induction false} RecommendedDelivers(s: Site, steps: seq<Step>, id: nat) returns (more: seq<Step>)
    requires id in Run(s, steps).actions && Run(s, steps).actions[id].status == D.Recommended
    ensures GoesActive(s, steps, more, id)
  {
    var c := FreshCall(Run(s, steps).calls.Keys);
    RunStep(s, steps, BeginRequest(c, id));
    var rest := RequestDelivers(s, steps + [BeginRequest(c, id)], id, c);
    more := FirstStep(s, steps, BeginRequest(c, id), rest, id);
  }

  // ------------------------------------------------------------------ a lost prospect does not return

  /** From `w` to `v` dead approvals stayed dead. */
  ghost predicate Aged(w: World, v: World) {
    forall x :: x in w.approvals ==> x in v.approvals && (Useable(v, x) ==> Useable(w, x))
  }

  lemma {:induction false} NextAges(s: Site, w: World, step: Step)
    requires A.SoundTable(s.env, s.tenant, w.approvals)
    ensures Aged(w, Next(s, w, step))
  {
    var v := Next(s, w, step);
    ClockAfter(s, w, step);
    forall x | x in w.approvals
      ensures x in v.approvals && (Useable(v, x) ==> Useable(w, x))
    {
      RowAfter(s, w, step, x);
      if !Useable(w, x) {
        DeadStaysDead(w.approvals[x], v.approvals[x], w.now, v.now);
      }
    }
  }

  lemma {:induction false} SameCallAges(s: Site, w: World, v: World, c: Call)
    requires CallLinked(s, w, c) && Aged(w, v) && CanDeliver(s, v, c) && About(c).Some?
    ensures CanDeliver(s, w, c)
  {
  }

  /** What can deliver after a step could before it: the same request, a row with a prospect that a new
      request has loaded, or the same request one stage earlier. */
  lemma {:induction false} BeganWithProspect(s: Site, w: World, step: Step, id: nat, c: nat)
    requires Linked(s, w) && Begins(step)
    requires Delivers(s, Next(s, w, step), id, c) && !(c in w.calls && Next(s, w, step).calls[c] == w.calls[c])
    ensures id in w.actions && RowHasProspect(w, id)
  {
  }

  lemma {:induction false} ReplyNeedsProspect(s: Site, w: World, step: Step, id: nat, c: nat)
    requires Linked(s, w) && (step.PolicyReply? || step.RequestReply?)
    requires Delivers(s, Next(s, w, step), id, c) && !(c in w.calls && Next(s, w, step).calls[c] == w.calls[c])
    ensures Delivers(s, w, id, c)
  {
    assert c in w.calls && step.call == c;
    if step.PolicyReply? {
      SomeSettingsGrant(s, id, w.calls[c].snap, step.settings);
    }
  }

  lemma {:induction false} RedeemNeedsProspect(s: Site, w: World, step: Step, id: nat, c: nat)
    requires Linked(s, w) && step.Redeem?
    requires Delivers(s, Next(s, w, step), id, c) && !(c in w.calls && Next(s, w, step).calls[c] == w.calls[c])
    ensures Delivers(s, w, id, c)
  {
    assert c in w.calls && step.call == c;
    assert CallLinked(s, w, w.calls[c]);
  }

  lemma {:induction false} EffectNeedsProspect(s: Site, w: World, step: Step, id: nat, c: nat)
    requires Linked(s, w) && (step.Apply? || step.Commit?)
    requires Delivers(s, Next(s, w, step), id, c) && !(c in w.calls && Next(s, w, step).calls[c] == w.calls[c])
    ensures Delivers(s, w, id, c)
  {
    assert c in w.calls && step.call == c;
  }

  lemma {:induction false} OtherwiseSameCalls(s: Site, w: World, step: Step, c: nat)
    requires !RequestStep(step) && !step.Commit?
    requires c in Next(s, w, step).calls
    ensures c in w.calls && Next(s, w, step).calls[c] == w.calls[c]
  {
  }

  lemma {:induction false} DeliveryHadProspect(s: Site, w: World, step: Step, id: nat, c: nat)
    requires Linked(s, w) && A.SoundTable(s.env, s.tenant, w.approvals)
    requires Delivers(s, Next(s, w, step), id, c)
    ensures HasProspect(s, w, id)
  {
    var v := Next(s, w, step);
    if c in w.calls && v.calls[c] == w.calls[c] {
      NextAges(s, w, step);
      assert CallLinked(s, w, w.calls[c]);
      SameCallAges(s, w, v, w.calls[c]);
      assert Delivers(s, w, id, c);
    } else if Begins(step) {
      BeganWithProspect(s, w, step, id, c);
    } else {
      if step.PolicyReply? || step.RequestReply? {
        ReplyNeedsProspect(s, w, step, id, c);
      } else if step.Redeem? {
        RedeemNeedsProspect(s, w, step, id, c);
      } else if step.Apply? || step.Commit? {
        EffectNeedsProspect(s, w, step, id, c);
      } else {
        OtherwiseSameCalls(s, w, step, c);
      }
      assert Delivers(s, w, id, c);
      assert CallLinked(s, w, w.calls[c]);
    }
  }

  /** A row that a commit gives a prospect was the row of a request that could deliver. */
  lemma {:induction false} CommitHadProspect(s: Site, w: World, call: nat, user: string, id: nat)
    requires Linked(s, w) && id in w.actions
    requires call in w.calls && About(w.calls[call]) == Some(id)
    requires RowHasProspect(Committed(s, w, call, user), id)
    ensures RowHasProspect(w, id) || Delivers(s, w, id, call)
  {
  }

  lemma {:induction false} RowHadProspect(s: Site, w: World, step: Step, id: nat)
    requires Linked(s, w) && A.SoundTable(s.env, s.tenant, w.approvals) && id in w.actions
    requires id in Next(s, w, step).actions && RowHasProspect(Next(s, w, step), id)
    ensures HasProspect(s, w, id)
  {
    var v := Next(s, w, step);
    ActionsAfter(s, w, step);
    assert RowLinked(s, w, id);
    if v.actions[id] == w.actions[id] {
      NextAges(s, w, step);
    } else if step.Commit? {
      CommitHadProspect(s, w, step.call, step.user, id);
    }
  }

  /** No step gives an action a prospect that it did not have. */
  lemma {:induction false} ProspectIsNotRegained(s: Site, w: World, step: Step, id: nat)
    requires Linked(s, w) && A.SoundTable(s.env, s.tenant, w.approvals) && id in w.actions
    requires HasProspect(s, Next(s, w, step), id)
    ensures HasProspect(s, w, id)
  {
    if RowHasProspect(Next(s, w, step), id) {
      RowHadProspect(s, w, step, id);
    } else {
      var c :| Delivers(s, Next(s, w, step), id, c);
      DeliveryHadProspect(s, w, step, id, c);
    }
  }

  lemma {:induction false} ProspectWasThere(s: Site, steps: seq<Step>, more: seq<Step>, id: nat)
    requires id in Run(s, steps).actions && HasProspect(s, Run(s, steps + more), id)
    ensures HasProspect(s, Run(s, steps), id)
  {
    if more == [] {
      assert steps + more == steps;
    } else {
      var init, last := more[..|more| - 1], more[|more| - 1];
      assert steps + more == (steps + init) + [last];
      RunStep(s, steps + init, last);
      RunKeepsInv(s, steps + init);
      RunKeepsLinked(s, steps + init);
      ActionsStay(s, steps, init, id);
      ProspectIsNotRegained(s, Run(s, steps + init), last, id);
      ProspectWasThere(s, steps, init, id);
    }
  }

  lemma {:induction false} ActionsStay(s: Site, steps: seq<Step>, more: seq<Step>, id: nat)
    requires id in Run(s, steps).actions
    ensures id in Run(s, steps + more).actions
  {
    if more == [] {
      assert steps + more == steps;
    } else {
      var init, last := more[..|more| - 1], more[|more| - 1];
      ActionsStay(s, steps, init, id);
      assert steps + more == (steps + init) + [last];
      RunStep(s, steps + init, last);
      ActionsAfter(s, Run(s, steps + init), last);
    }
  }

  /** The exact condition. In every reachable world an action can be or become ACTIVE if and only if its
      row allows it (it is active, recommended, or waits for an approval that is pending or approved and
      in time), or some request about it that is in flight can still deliver. */
  lemma {:induction false} CanStillBeExecuted(s: Site, steps: seq<Step>, id: nat)
    requires id in Run(s, steps).actions
    ensures (exists more :: GoesActive(s, steps, more, id)) <==> HasProspect(s, Run(s, steps), id)
  {
    var w := Run(s, steps);
    if HasProspect(s, w, id) {
      var more := [];
      if w.actions[id].status.Active? {
        assert steps + more == steps;
      } else if w.actions[id].status.Recommended? {
        more := RecommendedDelivers(s, steps, id);
      } else if RowHasProspect(w, id) {
        more := LiveCanBeExecuted(s, steps, id);
      } else {
        var c :| Delivers(s, w, id, c);
        more := InFlightDelivers(s, steps, id, c);
      }
      assert GoesActive(s, steps, more, id);
    }
    forall more | GoesActive(s, steps, more, id)
      ensures HasProspect(s, w, id)
    {
      ProspectWasThere(s, steps, more, id);
    }
  }

  /** With no request in flight but executions that loaded the row as it is, the approval alone
      decides. */
  lemma {:induction false} UndisturbedCanBeExecuted(s: Site, steps: seq<Step>, id: nat)
    requires Waiting(Run(s, steps), id)
    ensures (exists more :: GoesActive(s, steps, more, id)) <==> ApprovalLives(Run(s, steps), id)
  {
    CanStillBeExecuted(s, steps, id);
  }

  // ------------------------------------------------------------------ runs that end there

  /** One account suspension, recommended by a user and sent for approval. */
  const SUSPEND: Step :=
    Recommend(0, A.DisableAccount, "mallory", None, "", 1.0, D.RecommendOnly, "none", "alice", false)

  function AskedRun(): seq<Step> {
    [SUSPEND] + [BeginRequest(1, 0)] + [RequestReply(1, 7, "alice")] + [Commit(1, "alice")]
  }

  /** The action waits for approval 7, which is pending for another half hour. */
  ghost predicate Asked(s: Site, w: World) {
    && w.now == 0 && w.calls == map[] && 0 in w.actions && 7 in w.approvals
    && w.actions[0].status == D.PendingApproval && w.actions[0].approvalId == Some(7)
    && w.actions[0].kind == A.DisableAccount
    && w.approvals[7].status == A.Pending && w.approvals[7].expiresAt == 1800
    && w.approvals[7].requestedBy == "alice" && w.approvals[7].actionType == A.Defence(A.DisableAccount)
    && w.approvals[7].hash == s.env.hash(D.ActionPayload(s.tenant, 0, w.actions[0]))
  }

  lemma {:induction false} RequestedStage(s: Site)
    ensures var w := Run(s, [SUSPEND] + [BeginRequest(1, 0)]);
            && w.now == 0 && w.approvals == map[] && 0 in w.actions
            && w.actions[0].kind == A.DisableAccount && w.calls == map[1 := Requesting(0, w.actions[0])]
  {
    RunStep(s, [], SUSPEND);
    assert [] + [SUSPEND] == [SUSPEND];
    var w1 := Run(s, [SUSPEND]);
    assert 0 in w1.actions && w1.actions[0].status == D.Recommended && w1.calls == map[];
    RunStep(s, [SUSPEND], BeginRequest(1, 0));
  }

  lemma {:induction false} AskedStage(s: Site, w: World)
    requires w.now == 0 && w.approvals == map[] && 0 in w.actions
    requires w.actions[0].kind == A.DisableAccount && w.calls == map[1 := Requesting(0, w.actions[0])]
    ensures Asked(s, Next(s, Next(s, w, RequestReply(1, 7, "alice")), Commit(1, "alice")))
  {
    var w1 := Next(s, w, RequestReply(1, 7, "alice"));
    assert w1.calls == map[1 := ApprovalRequested(0, 7)] && w1.actions == w.actions && w1.now == 0;
    assert 7 in w1.approvals && w1.approvals[7].expiresAt == 1800;
  }

  lemma {:induction false} AskedRunReaches(s: Site)
    ensures Asked(s, Run(s, AskedRun()))
  {
    var run := [SUSPEND] + [BeginRequest(1, 0)];
    RequestedStage(s);
    RunStep(s, run, RequestReply(1, 7, "alice"));
    RunStep(s, run + [RequestReply(1, 7, "alice")], Commit(1, "alice"));
    AskedStage(s, Run(s, run));
  }

  /** It happens without any failure: nobody answers in time. */
  lemma {:induction false} UnansweredRequestSticks(s: Site)
    ensures Stuck(Run(s, AskedRun() + [Tick(1800)]), 0)
  {
    AskedRunReaches(s);
    RunStep(s, AskedRun(), Tick(1800));
  }

  /** An approver who reviewed exactly that payload agrees, an executor redeems, and the executor's
      own transaction then rolls back. */
  function RolledBackRun(hash: string): seq<Step> {
    AskedRun() + [Decide(7, true, "carol", hash)] + [BeginExecute(2, 0)] + [Redeem(2)] + [Abort(2)]
  }

  lemma {:induction false} DecidedStage(s: Site, w: World)
    requires Asked(s, w)
    ensures var v := Next(s, w, Decide(7, true, "carol", w.approvals[7].hash));
            && v.approvals == w.approvals[7 := v.approvals[7]] && v.approvals[7].status == A.Approved
            && v.approvals[7].hash == w.approvals[7].hash && v.approvals[7].expiresAt == 1800
            && v.approvals[7].actionType == w.approvals[7].actionType
            && v == w.(approvals := v.approvals)
  {
  }

  lemma {:induction false} RedeemedStage(s: Site, w: World)
    requires w.now == 0 && w.calls == map[] && 0 in w.actions && 7 in w.approvals
    requires w.actions[0].status == D.PendingApproval && w.actions[0].approvalId == Some(7)
    requires w.approvals[7].status == A.Approved && w.approvals[7].expiresAt == 1800
    requires w.approvals[7].actionType == A.Defence(w.actions[0].kind)
    requires w.approvals[7].hash == s.env.hash(D.ActionPayload(s.tenant, 0, w.actions[0]))
    ensures Stuck(Next(s, Next(s, Next(s, w, BeginExecute(2, 0)), Redeem(2)), Abort(2)), 0)
  {
    var w1 := Next(s, w, BeginExecute(2, 0));
    assert w1 == w.(calls := map[2 := Executing(0, w.actions[0])]);
    SpentStage(s, w1);
    assert Next(s, Next(s, w1, Redeem(2)), Abort(2)).calls == map[];
  }

  lemma {:induction false} SpentStage(s: Site, w: World)
    requires w.now == 0 && 0 in w.actions && 7 in w.approvals && w.calls == map[2 := Executing(0, w.actions[0])]
    requires w.actions[0].approvalId == Some(7)
    requires w.approvals[7].status == A.Approved && w.approvals[7].expiresAt == 1800
    requires w.approvals[7].actionType == A.Defence(w.actions[0].kind)
    requires w.approvals[7].hash == s.env.hash(D.ActionPayload(s.tenant, 0, w.actions[0]))
    ensures var v := Next(s, w, Redeem(2));
            && v.actions == w.actions && v.calls.Keys == {2}
            && 7 in v.approvals && v.approvals[7].status == A.Executed
  {
  }

  /** It happens when the transaction that redeemed the approval rolls back. */
  lemma {:induction false} RolledBackExecutionSticks(s: Site) returns (hash: string)
    ensures Stuck(Run(s, RolledBackRun(hash)), 0)
  {
    AskedRunReaches(s);
    var w := Run(s, AskedRun());
    hash := w.approvals[7].hash;
    var r1 := AskedRun() + [Decide(7, true, "carol", hash)];
    RunStep(s, AskedRun(), Decide(7, true, "carol", hash));
    RunStep(s, r1, BeginExecute(2, 0));
    RunStep(s, r1 + [BeginExecute(2, 0)], Redeem(2));
    RunStep(s, r1 + [BeginExecute(2, 0)] + [Redeem(2)], Abort(2));
    DecidedStage(s, w);
    RedeemedStage(s, Run(s, r1));
  }
}
