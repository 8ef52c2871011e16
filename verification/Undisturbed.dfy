/** The two models of the protocol agree. A request that nobody disturbs, taken step by step through the
    interleaved machine of `Protocol`, leaves the stores as the one transaction of `Defence` and of
    `Scanner` does: the same guards decide, and the same row results. */
module Undisturbed {
  import opened Common
  import opened Protocol
  import A = Approvals
  import D = Defence

  /** The approval can be redeemed for exactly this payload now. */
  predicate Redeemable(s: Site, w: World, x: nat, t: A.ActionType, p: A.Payload) {
    && x in w.approvals && w.approvals[x].status == A.Approved && w.now < w.approvals[x].expiresAt
    && w.approvals[x].actionType == t && w.approvals[x].hash == s.env.hash(p)
  }

  function Spend(row: A.Approval, consumer: string, now: int): A.Approval {
    row.(status := A.Executed, consumedAt := Some(now), consumedBy := Some(consumer))
  }

  // ------------------------------------------------------------------ executing an approved action

  /** Loading, redeeming, calling the provider and committing. */
  function Executed(s: Site, w: World, call: nat, id: nat, reply: D.ProviderReply, user: string): World {
    Next(s, Next(s, Next(s, Next(s, w, BeginExecute(call, id)), Redeem(call)), Apply(call, reply)), Commit(call, user))
  }

  lemma {:induction false} LoadAndRedeem(s: Site, w: World, call: nat, id: nat)
    requires call !in w.calls && id in w.actions && w.actions[id].approvalId.Some?
    requires var a := w.actions[id];
             Redeemable(s, w, a.approvalId.value, A.Defence(a.kind), D.ActionPayload(s.tenant, id, a))
    ensures var x := w.actions[id].approvalId.value;
            Next(s, Next(s, w, BeginExecute(call, id)), Redeem(call)) ==
            w.(approvals := w.approvals[x := Spend(w.approvals[x], "fatma-soc", w.now)],
               calls := w.calls[call := Redeemed(id, w.actions[id], x, false)])
  {
    var a := w.actions[id];
    assert Next(s, w, BeginExecute(call, id)) == w.(calls := w.calls[call := Executing(id, a)]);
  }

  lemma {:induction false} ApplyAndCommit(s: Site, w: World, call: nat, id: nat, x: nat, reply: D.ProviderReply,
                                          user: string)
    requires call in w.calls && id in w.actions && w.calls[call] == Redeemed(id, w.actions[id], x, false)
    ensures var v := Next(s, Next(s, w, Apply(call, reply)), Commit(call, user));
            if w.actions[id].status != D.PendingApproval then v == w
            else
              && v.actions.Keys == w.actions.Keys && v.actions == w.actions[id := v.actions[id]]
              && (reply.Reference? ==> D.ActivatedAs(w.actions[id], v.actions[id], reply.ref, user, w.now))
              && (reply.Outage? ==> v.actions[id] == w.actions[id].(status := D.Failed))
              && (reply.Crash? ==> v.actions[id] == w.actions[id])
  {
    if w.actions[id].status == D.PendingApproval {
      var v := Next(s, w, Apply(call, reply));
      assert v.actions == w.actions && v.calls == w.calls[call := Replied(id, x, false, reply)];
    }
  }

  lemma {:induction false} NotRedeemed(s: Site, w: World, call: nat, id: nat, reply: D.ProviderReply, user: string)
    requires call !in w.calls && id in w.actions && w.actions[id].approvalId.Some?
    requires var a := w.actions[id];
             !Redeemable(s, w, a.approvalId.value, A.Defence(a.kind), D.ActionPayload(s.tenant, id, a))
    ensures Executed(s, w, call, id, reply, user).actions == w.actions
    ensures Executed(s, w, call, id, reply, user).approvals == w.approvals
  {
    var w1 := Next(s, w, BeginExecute(call, id));
    assert w1 == w.(calls := w.calls[call := Executing(id, w.actions[id])]);
    assert Next(s, w1, Redeem(call)) == w1;
    assert Next(s, w1, Apply(call, reply)) == w1;
  }

  lemma {:induction false} NotLoaded(s: Site, w: World, call: nat, id: nat, reply: D.ProviderReply, user: string)
    requires call !in w.calls && id in w.actions && w.actions[id].approvalId.None?
    ensures Executed(s, w, call, id, reply, user) == w
  {
    assert Next(s, w, BeginExecute(call, id)) == w;
    assert Next(s, w, Redeem(call)) == w;
    assert Next(s, w, Apply(call, reply)) == w;
  }

  /** What one execution makes of its action and of its approval. */
  ghost predicate OneExecution(s: Site, w: World, v: World, id: nat, reply: D.ProviderReply, user: string)
    requires id in w.actions
  {
    var a := w.actions[id];
    var redeemed := a.approvalId.Some?
                    && Redeemable(s, w, a.approvalId.value, A.Defence(a.kind), D.ActionPayload(s.tenant, id, a));
    && v.actions.Keys == w.actions.Keys && v.actions == w.actions[id := v.actions[id]]
    && (redeemed && a.status == D.PendingApproval && reply.Reference? ==>
          D.ActivatedAs(a, v.actions[id], reply.ref, user, w.now))
    && (redeemed && a.status == D.PendingApproval && reply.Outage? ==>
          v.actions[id] == a.(status := D.Failed))
    && (!redeemed || a.status != D.PendingApproval || reply.Crash? ==> v.actions == w.actions)
    && v.approvals == if redeemed
                      then w.approvals[a.approvalId.value :=
                                         Spend(w.approvals[a.approvalId.value], "fatma-soc", w.now)]
                      else w.approvals
  }

  lemma {:induction false} RedeemedExecution(s: Site, w: World, call: nat, id: nat, reply: D.ProviderReply,
                                             user: string)
    requires call !in w.calls && id in w.actions && w.actions[id].approvalId.Some?
    requires var a := w.actions[id];
             Redeemable(s, w, a.approvalId.value, A.Defence(a.kind), D.ActionPayload(s.tenant, id, a))
    ensures OneExecution(s, w, Executed(s, w, call, id, reply, user), id, reply, user)
  {
    var x := w.actions[id].approvalId.value;
    LoadAndRedeem(s, w, call, id);
    var w2 := w.(approvals := w.approvals[x := Spend(w.approvals[x], "fatma-soc", w.now)],
                 calls := w.calls[call := Redeemed(id, w.actions[id], x, false)]);
    ApplyAndCommit(s, w2, call, id, x, reply, user);
    ApprovalsStay(s, w2, call, reply, user);
  }

  /** Execution as one transaction: exactly a pending action whose own approval is granted, in time and for
      this very payload reaches the provider, and the answer decides what becomes of it. */
  lemma {:induction false} ExecutionIsOneTransaction(s: Site, w: World, call: nat, id: nat, reply: D.ProviderReply,
                                                     user: string)
    requires call !in w.calls && id in w.actions
    ensures OneExecution(s, w, Executed(s, w, call, id, reply, user), id, reply, user)
  {
    var a := w.actions[id];
    if a.approvalId.None? {
      NotLoaded(s, w, call, id, reply, user);
    } else if Redeemable(s, w, a.approvalId.value, A.Defence(a.kind), D.ActionPayload(s.tenant, id, a)) {
      RedeemedExecution(s, w, call, id, reply, user);
    } else {
      NotRedeemed(s, w, call, id, reply, user);
    }
  }

  lemma {:induction false} ApprovalsStay(s: Site, w: World, call: nat, reply: D.ProviderReply, user: string)
    ensures Next(s, Next(s, w, Apply(call, reply)), Commit(call, user)).approvals == w.approvals
  {
  }

  // ------------------------------------------------------------------ asking for approval

  function Asked(s: Site, w: World, call: nat, id: nat, x: nat, requester: string, user: string): World {
    Next(s, Next(s, Next(s, w, BeginRequest(call, id)), RequestReply(call, x, requester)), Commit(call, user))
  }

  lemma {:induction false} ReplyFiles(s: Site, w: World, call: nat, id: nat, x: nat, requester: string)
    requires call in w.calls && id in w.actions && w.calls[call] == Requesting(id, w.actions[id])
    requires x !in w.approvals
    ensures var v, a := Next(s, w, RequestReply(call, x, requester)), w.actions[id];
            && v.actions == w.actions && v.calls == w.calls[call := ApprovalRequested(id, x)]
            && x in v.approvals && v.approvals == w.approvals[x := v.approvals[x]]
            && D.AsksFor(v.approvals[x].payload, s.tenant, id, a)
            && v.approvals[x].status == A.Pending && v.approvals[x].requestedBy == requester
  {
  }

  lemma {:induction false} AskingRefused(s: Site, w: World, call: nat, id: nat, x: nat, requester: string, user: string)
    requires call !in w.calls && id in w.actions && w.actions[id].status != D.Recommended
    ensures Asked(s, w, call, id, x, requester, user) == w
  {
    assert Next(s, w, BeginRequest(call, id)) == w;
    assert Next(s, w, RequestReply(call, x, requester)) == w;
  }

  /** A request for human approval, filed under a new identifier, asks for exactly this action and makes it
      wait; anything but a recommendation is refused. */
  lemma {:induction false} AskingIsOneTransaction(s: Site, w: World, call: nat, id: nat, x: nat, requester: string,
                                                  user: string)
    requires call !in w.calls && id in w.actions && x !in w.approvals
    ensures var v, a := Asked(s, w, call, id, x, requester, user), w.actions[id];
            if a.status != D.Recommended then v == w
            else
              && v.actions == w.actions[id := a.(approvalId := Some(x), status := D.PendingApproval,
                                                 mode := D.HumanApproved)]
              && x in v.approvals && v.approvals == w.approvals[x := v.approvals[x]]
              && D.AsksFor(v.approvals[x].payload, s.tenant, id, a)
              && v.approvals[x].status == A.Pending && v.approvals[x].requestedBy == requester
  {
    var a := w.actions[id];
    if a.status == D.Recommended {
      var w1 := w.(calls := w.calls[call := Requesting(id, a)]);
      assert Next(s, w, BeginRequest(call, id)) == w1;
      ReplyFiles(s, w1, call, id, x, requester);
      Waits(s, Next(s, w1, RequestReply(call, x, requester)), call, id, x, user);
    } else {
      AskingRefused(s, w, call, id, x, requester, user);
    }
  }

  lemma {:induction false} Waits(s: Site, w: World, call: nat, id: nat, x: nat, user: string)
    requires id in w.actions && call in w.calls && w.calls[call] == ApprovalRequested(id, x)
    ensures var v, a := Next(s, w, Commit(call, user)), w.actions[id];
            && v.approvals == w.approvals
            && v.actions == w.actions[id := a.(approvalId := Some(x), status := D.PendingApproval,
                                               mode := D.HumanApproved)]
  {
  }

  // ------------------------------------------------------------------ the pre-approved path

  function Preapproved(s: Site, w: World, call: nat, id: nat, x: nat, settings: A.TenantSettings,
                       reply: D.ProviderReply, user: string): World {
    Next(s, Next(s, Next(s, Next(s, Next(s, w, BeginPreapproved(call, id)), PolicyReply(call, x, settings)),
                         Redeem(call)), Apply(call, reply)), Commit(call, user))
  }

  lemma {:induction false} GrantAndRedeem(s: Site, w: World, call: nat, id: nat, x: nat, settings: A.TenantSettings)
    requires call in w.calls && id in w.actions && w.calls[call] == Preapproving(id, w.actions[id])
    requires x !in w.approvals
    requires A.PolicyAllows(s.env, settings, A.Defence(w.actions[id].kind),
                            D.ActionPayload(s.tenant, id, w.actions[id]))
    ensures var v := Next(s, Next(s, w, PolicyReply(call, x, settings)), Redeem(call));
            && v.actions == w.actions && v.now == w.now
            && call in v.calls && v.calls[call] == Redeemed(id, w.actions[id], x, true)
  {
    var a := w.actions[id];
    A.PreapprovalMeans(s.env, settings, A.Defence(a.kind), D.ActionPayload(s.tenant, id, a));
    var w1 := Next(s, w, PolicyReply(call, x, settings));
    assert w1.actions == w.actions && w1.calls == w.calls[call := PolicyGranted(id, a, x)];
    assert Redeemable(s, w1, x, A.Defence(a.kind), D.ActionPayload(s.tenant, id, a));
  }

  lemma {:induction false} ApplyByPolicy(s: Site, w: World, call: nat, id: nat, x: nat, reply: D.ProviderReply,
                                         user: string)
    requires call in w.calls && id in w.actions && w.calls[call] == Redeemed(id, w.actions[id], x, true)
    ensures var v := Next(s, Next(s, w, Apply(call, reply)), Commit(call, user));
            var b := w.actions[id].(approvalId := Some(x));
            && v.actions.Keys == w.actions.Keys && v.actions == w.actions[id := v.actions[id]]
            && (reply.Reference? ==> D.ActivatedAs(b, v.actions[id], reply.ref, "policy:preapproved", w.now))
            && (reply.Outage? ==> v.actions[id] == b.(status := D.Failed))
            && (reply.Crash? ==> v.actions[id] == w.actions[id])
  {
    var v := Next(s, w, Apply(call, reply));
    assert v.actions == w.actions && v.calls == w.calls[call := Replied(id, x, true, reply)];
  }

  /** Without a grant nothing happens to any action. */
  lemma {:induction false} NotGranted(s: Site, w: World, call: nat, id: nat, x: nat, settings: A.TenantSettings,
                                      reply: D.ProviderReply, user: string)
    requires call in w.calls && id in w.actions && w.calls[call] == Preapproving(id, w.actions[id])
    requires !A.PolicyAllows(s.env, settings, A.Defence(w.actions[id].kind),
                             D.ActionPayload(s.tenant, id, w.actions[id]))
    ensures Next(s, Next(s, Next(s, Next(s, w, PolicyReply(call, x, settings)), Redeem(call)), Apply(call, reply)),
                 Commit(call, user)) == w
  {
    var a := w.actions[id];
    A.PreapprovalMeans(s.env, settings, A.Defence(a.kind), D.ActionPayload(s.tenant, id, a));
    assert Next(s, w, PolicyReply(call, x, settings)) == w;
    assert Next(s, w, Redeem(call)) == w;
    assert Next(s, w, Apply(call, reply)) == w;
  }

  /** The pre-approved path as one transaction: exactly a low-risk recommendation in pre-approved mode that
      the tenant's policy allows is carried out, without any person, under the granted approval. */
  lemma {:induction false} PreapprovalIsOneTransaction(s: Site, w: World, call: nat, id: nat, x: nat,
                                                       settings: A.TenantSettings, reply: D.ProviderReply,
                                                       user: string)
    requires call !in w.calls && id in w.actions && x !in w.approvals
    ensures var v, a := Preapproved(s, w, call, id, x, settings, reply, user), w.actions[id];
            var granted := a.status == D.Recommended && a.mode == D.PreapprovedLowRisk && A.LowRisk(a.kind)
                           && A.PolicyAllows(s.env, settings, A.Defence(a.kind), D.ActionPayload(s.tenant, id, a));
            var b := a.(approvalId := Some(x));
            && v.actions.Keys == w.actions.Keys && v.actions == w.actions[id := v.actions[id]]
            && (granted && reply.Reference? ==>
                  D.ActivatedAs(b, v.actions[id], reply.ref, "policy:preapproved", w.now))
            && (granted && reply.Outage? ==> v.actions[id] == b.(status := D.Failed))
            && (!granted || reply.Crash? ==> v.actions == w.actions)
  {
    var a := w.actions[id];
    var w1 := Next(s, w, BeginPreapproved(call, id));
    if a.status != D.Recommended || a.mode != D.PreapprovedLowRisk || !A.LowRisk(a.kind) {
      assert w1 == w;
      NeverBegan(s, w, call, x, settings, reply, user);
    } else {
      assert w1 == w.(calls := w.calls[call := Preapproving(id, a)]);
      if A.PolicyAllows(s.env, settings, A.Defence(a.kind), D.ActionPayload(s.tenant, id, a)) {
        GrantAndRedeem(s, w1, call, id, x, settings);
        ApplyByPolicy(s, Next(s, Next(s, w1, PolicyReply(call, x, settings)), Redeem(call)), call, id, x, reply, user);
      } else {
        NotGranted(s, w1, call, id, x, settings, reply, user);
      }
    }
  }

  lemma {:induction false} NeverBegan(s: Site, w: World, call: nat, x: nat, settings: A.TenantSettings,
                                      reply: D.ProviderReply, user: string)
    requires call !in w.calls
    ensures Next(s, Next(s, Next(s, Next(s, w, PolicyReply(call, x, settings)), Redeem(call)), Apply(call, reply)),
                 Commit(call, user)) == w
  {
    assert Next(s, w, PolicyReply(call, x, settings)) == w;
    assert Next(s, w, Redeem(call)) == w;
    assert Next(s, w, Apply(call, reply)) == w;
  }

  // ------------------------------------------------------------------ starting a scan

  /** Starting a job as one transaction: exactly a pending job whose own approval is granted, in time and
      for this very scan is queued, and the approval is used up. */
  lemma {:induction false} StartIsOneTransaction(s: Site, w: World, call: nat, id: nat, user: string)
    requires call !in w.calls && id in w.jobs
    ensures var j := w.jobs[id];
            var v := Next(s, Next(s, Next(s, w, BeginStart(call, id)), Redeem(call)), Commit(call, user));
            var redeemed := j.status == PendingApproval && j.approvalId.Some?
                            && Redeemable(s, w, j.approvalId.value, A.ScanExecute, JobPayload(s.tenant, id, j));
            && v.actions == w.actions
            && v.jobs == (if redeemed then w.jobs[id := j.(status := Queued)] else w.jobs)
            && v.approvals == if redeemed
                              then w.approvals[j.approvalId.value :=
                                                 Spend(w.approvals[j.approvalId.value], "scanner-controller", w.now)]
                              else w.approvals
  {
    var j := w.jobs[id];
    var w1 := Next(s, w, BeginStart(call, id));
    if j.status != PendingApproval || j.approvalId.None? {
      assert w1 == w;
      assert Next(s, w, Redeem(call)) == w;
    } else {
      assert w1 == w.(calls := w.calls[call := Starting(id, j)]);
      StartRedeems(s, w1, call, id, j, user);
    }
  }

  lemma {:induction false} StartRedeems(s: Site, w: World, call: nat, id: nat, j: Job, user: string)
    requires id in w.jobs && w.jobs[id] == j && j.approvalId.Some?
    requires call in w.calls && w.calls[call] == Starting(id, j)
    ensures var x := j.approvalId.value;
            var v := Next(s, Next(s, w, Redeem(call)), Commit(call, user));
            var redeemed := Redeemable(s, w, x, A.ScanExecute, JobPayload(s.tenant, id, j));
            && v.actions == w.actions
            && v.jobs == (if redeemed then w.jobs[id := j.(status := Queued)] else w.jobs)
            && v.approvals == if redeemed
                              then w.approvals[x := Spend(w.approvals[x], "scanner-controller", w.now)]
                              else w.approvals
  {
    var x := j.approvalId.value;
    var w2 := Next(s, w, Redeem(call));
    if Redeemable(s, w, x, A.ScanExecute, JobPayload(s.tenant, id, j)) {
      assert w2 == w.(approvals := w.approvals[x := Spend(w.approvals[x], "scanner-controller", w.now)],
                      calls := w.calls[call := StartRedeemed(id, j, x)]);
    } else {
      assert w2 == w;
    }
  }

  // ------------------------------------------------------------------ filing a scan

  lemma {:induction false} FilingIsCommitted(s: Site, w: World, call: nat, id: nat, row: Job, x: nat,
                                             requester: string, user: string)
    requires call in w.calls && w.calls[call] == Filing(id, row) && x !in w.approvals
    requires id in w.jobs ==> w.jobs[id] == row
    ensures var v := Next(s, Next(s, w, RequestReply(call, x, requester)), Commit(call, user));
            && v.jobs == w.jobs[id := row.(approvalId := Some(x))] && v.actions == w.actions
            && x in v.approvals && v.approvals == w.approvals[x := v.approvals[x]]
            && AsksToScan(v.approvals[x].payload, s.tenant, id, row)
            && v.approvals[x].status == A.Pending && v.approvals[x].requestedBy == requester
  {
    var v := Next(s, w, RequestReply(call, x, requester));
    assert v.jobs == w.jobs && v.calls == w.calls[call := Filed(id, row, x)];
  }

  /** Filing a job's approval as one transaction: a new pending job is added with it, a known one is linked to
      it, and what is filed asks for exactly that scan. */
  lemma {:induction false} FilingIsOneTransaction(s: Site, w: World, call: nat, id: nat, row: Job, x: nat,
                                                  requester: string, user: string)
    requires call !in w.calls && x !in w.approvals
    ensures var v := Next(s, Next(s, Next(s, w, BeginFiling(call, id, row)), RequestReply(call, x, requester)),
                          Commit(call, user));
            var job := if id in w.jobs then w.jobs[id] else row;
            if id in w.jobs || (row.status == PendingApproval && row.approvalId.None?) then
              && v.jobs == w.jobs[id := job.(approvalId := Some(x))] && x in v.approvals
              && v.approvals == w.approvals[x := v.approvals[x]]
              && AsksToScan(v.approvals[x].payload, s.tenant, id, job)
              && v.approvals[x].status == A.Pending && v.approvals[x].requestedBy == requester
            else v == w
  {
    var job := if id in w.jobs then w.jobs[id] else row;
    var w1 := Next(s, w, BeginFiling(call, id, row));
    if id in w.jobs || (row.status == PendingApproval && row.approvalId.None?) {
      assert w1 == w.(calls := w.calls[call := Filing(id, job)]);
      FilingIsCommitted(s, w1, call, id, job, x, requester, user);
    } else {
      assert w1 == w;
      assert Next(s, w, RequestReply(call, x, requester)) == w;
    }
  }

  // ------------------------------------------------------------------ steps on one table

  /** Dismissing and taking back are what they are in `Defence`: only recommendations are dismissed, only
      active actions reverted, or expired where the sweep asks. */
  lemma {:induction false} ClosingIsOneTransaction(s: Site, w: World, id: nat, expired: bool)
    requires id in w.actions
    ensures Next(s, w, Dismiss(id)).actions ==
            if w.actions[id].status == D.Recommended then w.actions[id := w.actions[id].(status := D.Dismissed)]
            else w.actions
    ensures Next(s, w, Revert(id, expired)).actions ==
            if w.actions[id].status != D.Active then w.actions
            else w.actions[id := w.actions[id].(status := if expired then D.Expired else D.Reverted)]
  {
  }
}
