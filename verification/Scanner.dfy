/** The scanner controller: the authorization gate, requesting, starting, cancelling and retrying scan
    jobs, and the limits on how many there are. The approval store is the subject of `Protocol`; here its
    answer is a parameter, and each request is one transaction. */
module Scanner {
  import opened Common
  import P = Protocol
  import R = RateLimit

  /** Instants are microseconds. */
  const DAY: int := 86_400_000_000

  datatype Asset = Asset(authorizationRef: string, authorizedUntil: Option<int>, verified: bool,
                         verifiedUntil: Option<int>, allowlisted: bool, deleted: bool, target: string)

  /** A job with the columns that the approval does not cover. */
  datatype Row = Row(job: P.Job, key: string, createdAt: int, scheduledFor: Option<int>, workflow: bool,
                     attempt: int, retryOf: Option<nat>, finishedAt: Option<int>)

  datatype Request = Request(asset: nat, profile: string, ticket: string, scanners: seq<string>, key: string,
                             scheduledFor: Option<int>, timeoutSeconds: int)

  // ------------------------------------------------------------------ the gate

  predicate TicketChar(c: char) {
    'A' <= c <= 'Z' || 'a' <= c <= 'z' || '0' <= c <= '9' || c in "._#/-"
  }

  predicate TicketOk(ticket: string) {
    3 <= |ticket| <= 64 && forall c :: c in ticket ==> TicketChar(c)
  }

  function Checks(engineer: bool, a: Asset, ticket: string, profile: string, now: int): seq<bool> {
    [engineer,
     a.authorizationRef != "" && a.authorizedUntil.Some? && now < a.authorizedUntil.value,
     a.verified && a.verifiedUntil.Some? && now < a.verifiedUntil.value,
     a.allowlisted && !a.deleted,
     TicketOk(ticket),
     profile == "safe-passive" || profile == "safe-standard"]
  }

  predicate GatePasses(engineer: bool, a: Asset, ticket: string, profile: string, now: int) {
    false !in Checks(engineer, a, ticket, profile, now)
  }

  /** What has to be there for a scan: an engineer, a customer's authorization and a verified ownership that
      are both in force, a listed asset, a ticket of 3 to 64 plain characters, and a safe profile. */
  predicate Cleared(engineer: bool, a: Asset, ticket: string, profile: string, now: int) {
    && engineer
    && a.authorizationRef != "" && a.authorizedUntil.Some? && now < a.authorizedUntil.value
    && a.verified && a.verifiedUntil.Some? && now < a.verifiedUntil.value
    && a.allowlisted && !a.deleted
    && 3 <= |ticket| <= 64
    && (forall i :: 0 <= i < |ticket| ==>
          'a' <= ticket[i] <= 'z' || 'A' <= ticket[i] <= 'Z' || '0' <= ticket[i] <= '9'
          || ticket[i] == '.' || ticket[i] == '_' || ticket[i] == '#' || ticket[i] == '/' || ticket[i] == '-')
    && (profile == "safe-passive" || profile == "safe-standard")
  }

  /** The gate passes if and only if all of that is there. */
  lemma {:induction false} GateMeans(engineer: bool, a: Asset, ticket: string, profile: string, now: int)
    ensures GatePasses(engineer, a, ticket, profile, now) <==> Cleared(engineer, a, ticket, profile, now)
  {
    var checks := Checks(engineer, a, ticket, profile, now);
    TicketMeans(ticket);
    assert forall b :: b in checks <==> b == checks[0] || b == checks[1] || b == checks[2] || b == checks[3]
                                        || b == checks[4] || b == checks[5];
  }

  lemma {:induction false} TicketMeans(ticket: string)
    ensures TicketOk(ticket) <==>
              && 3 <= |ticket| <= 64
              && forall i :: 0 <= i < |ticket| ==>
                   'a' <= ticket[i] <= 'z' || 'A' <= ticket[i] <= 'Z' || '0' <= ticket[i] <= '9'
                   || ticket[i] == '.' || ticket[i] == '_' || ticket[i] == '#' || ticket[i] == '/' || ticket[i] == '-'
  {
    assert forall c :: c in "._#/-" <==> c == '.' || c == '_' || c == '#' || c == '/' || c == '-';
    assert (forall c :: c in ticket ==> TicketChar(c)) <==> (forall i :: 0 <= i < |ticket| ==> TicketChar(ticket[i]));
  }

  /** A gate that passed can only close again because time ran out, if nothing else changed. */
  lemma {:induction false} GateClosesWithTime(engineer: bool, a: Asset, ticket: string, profile: string, now: int,
                                              later: int)
    requires now <= later && GatePasses(engineer, a, ticket, profile, now)
    ensures GatePasses(engineer, a, ticket, profile, later) <==>
              later < Min(a.authorizedUntil.value, a.verifiedUntil.value)
  {
    assert forall b :: b in Checks(engineer, a, ticket, profile, now) ==> b;
    var was, checks := Checks(engineer, a, ticket, profile, now), Checks(engineer, a, ticket, profile, later);
    assert was[0] && was[1] && was[2] && was[3] && was[4] && was[5];
    assert forall b :: b in checks <==> b == checks[0] || b == checks[1] || b == checks[2] || b == checks[3]
                                        || b == checks[4] || b == checks[5];
  }

  // ------------------------------------------------------------------ one row

  predicate Terminal(s: P.JobStatus) {
    s.Succeeded? || s.Failed? || s.Cancelled? || s.TimedOut?
  }

  predicate Active(r: Row) {
    r.job.status.Queued? || r.job.status.Running?
  }

  function Known(scanners: seq<string>): seq<string> {
    (if "nuclei" in scanners then ["nuclei"] else []) + (if "zap" in scanners then ["zap"] else [])
  }

  function NewRow(q: Request, a: Asset, subject: string, now: int): Row {
    Row(P.Job(q.asset, "https://" + a.target + "/", q.profile, Known(q.scanners), q.ticket, a.authorizationRef,
              subject, q.timeoutSeconds, P.PendingApproval, None),
        q.key, now, q.scheduledFor, false, 1, None, None)
  }

  function WithStatus(r: Row, status: P.JobStatus, now: int): Row {
    r.(job := r.job.(status := status), finishedAt := if Terminal(status) then Some(now) else r.finishedAt)
  }

  /** A late report for a job that has ended is ignored. */
  function Reported(r: Row, status: P.JobStatus, now: int): Row {
    if Terminal(r.job.status) && status != r.job.status then r else WithStatus(r, status, now)
  }

  /** What a report comes to: a job that has ended keeps its end; any other takes the status, and the time if
      that ends it. */
  lemma {:induction false} ReportMeans(r: Row, status: P.JobStatus, now: int)
    ensures var ended := {P.Succeeded, P.Failed, P.Cancelled, P.TimedOut};
            Reported(r, status, now) ==
            if r.job.status in ended && status != r.job.status then r
            else r.(job := r.job.(status := status),
                    finishedAt := if status in ended then Some(now) else r.finishedAt)
  {
  }

  /** A report that follows the life of a job: a start only of a job that has a workflow, and otherwise an
      end. What is reported of a job that has ended makes no difference. */
  predicate InOrder(r: Row, status: P.JobStatus) {
    Terminal(r.job.status) || Terminal(status) || (r.workflow && status.Running?)
  }

  // ------------------------------------------------------------------ what holds

  predicate RowOk(r: Row) {
    && r.attempt >= 1 && (r.job.status.PendingApproval? ==> !r.workflow)
    && (Active(r) ==> r.workflow) && !r.job.status.Approved? && !r.job.status.Rejected?
    && r.job.approvalId.Some?
    && TicketOk(r.job.ticket) && r.job.scanners != [] && forall s :: s in r.job.scanners ==> s == "nuclei" || s == "zap"
  }

  /** A job keeps what its approval was asked for, is started at most once, and does not run again once
      it has ended. */
  predicate Evolved(was: Row, r: Row) {
    && r.key == was.key && r.createdAt == was.createdAt
    && r.job == was.job.(status := r.job.status, approvalId := r.job.approvalId)
    && (was.workflow ==> r.workflow)
    && (r.job.status.PendingApproval? ==> was.job.status.PendingApproval?)
    && (r.job.status.Queued? ==> was.job.status.Queued? || was.job.status.PendingApproval?)
    && (Terminal(was.job.status) ==> Terminal(r.job.status))
  }

  function CountActive(rows: seq<Row>): nat {
    if rows == [] then 0
    else CountActive(rows[..|rows| - 1]) + (if Active(rows[|rows| - 1]) then 1 else 0)
  }

  function Created(rows: seq<Row>): (h: seq<int>)
    ensures |h| == |rows|
  {
    if rows == [] then [] else Created(rows[..|rows| - 1]) + [rows[|rows| - 1].createdAt]
  }

  ghost predicate TableOk(rows: seq<Row>, maxPerDay: nat, maxConcurrent: nat, clock: int) {
    && (forall n :: 0 <= n < |rows| ==> RowOk(rows[n]))
    && (forall n, m :: 0 <= n < |rows| && 0 <= m < |rows| && n != m ==> rows[n].key != rows[m].key)
    && CountActive(rows) <= maxConcurrent
    && R.Sorted(Created(rows)) && R.Until(Created(rows), clock) && R.Spaced(Created(rows), maxPerDay, DAY)
  }

  /** Every stored job has a valid ticket, known scanners and an approval, and is queued or running only with
      a workflow. */
  lemma {:induction false} JobsAreSound(rows: seq<Row>, maxPerDay: nat, maxConcurrent: nat, clock: int, n: nat)
    requires TableOk(rows, maxPerDay, maxConcurrent, clock) && n < |rows|
    ensures 3 <= |rows[n].job.ticket| <= 64 && rows[n].job.scanners != [] && rows[n].job.approvalId.Some?
    ensures forall s :: s in rows[n].job.scanners ==> s == "nuclei" || s == "zap"
    ensures rows[n].job.status in {P.Queued, P.Running} ==> rows[n].workflow
    ensures rows[n].job.status == P.PendingApproval ==> !rows[n].workflow
  {
    assert RowOk(rows[n]);
  }

  ghost predicate Evolves(was: seq<Row>, rows: seq<Row>) {
    |was| <= |rows| && forall n :: 0 <= n < |was| ==> Evolved(was[n], rows[n])
  }

  lemma {:induction false} CreatedStep(rows: seq<Row>, n: nat, cutoff: int)
    requires n < |rows|
    ensures R.CountAfter(Created(rows[..n + 1]), cutoff)
         == R.CountAfter(Created(rows[..n]), cutoff) + (if rows[n].createdAt > cutoff then 1 else 0)
  {
    assert rows[..n + 1][..n] == rows[..n];
    var h := Created(rows[..n]);
    assert Created(rows[..n + 1]) == h + [rows[n].createdAt];
    assert (h + [rows[n].createdAt])[..n] == h;
  }

  /** The jobs that are queued or running. */
  function ActiveIds(rows: seq<Row>): set<nat> {
    set n: nat | n < |rows| && (rows[n].job.status == P.Queued || rows[n].job.status == P.Running)
  }

  lemma {:induction false} CountIsOfActive(rows: seq<Row>)
    ensures CountActive(rows) == |ActiveIds(rows)|
  {
    if rows != [] {
      var init, last := rows[..|rows| - 1], |rows| - 1;
      CountIsOfActive(init);
      assert ActiveIds(rows) == ActiveIds(init) + (if Active(rows[last]) then {last} else {});
    }
  }

  /** The jobs created after a moment. */
  function CreatedAfter(rows: seq<Row>, cutoff: int): set<nat> {
    set n: nat | n < |rows| && cutoff < rows[n].createdAt
  }

  lemma {:induction false} CountIsOfCreated(rows: seq<Row>, cutoff: int)
    ensures R.CountAfter(Created(rows), cutoff) == |CreatedAfter(rows, cutoff)|
  {
    if rows != [] {
      var init, last := rows[..|rows| - 1], |rows| - 1;
      CountIsOfCreated(init, cutoff);
      CreatedStep(rows, last, cutoff);
      assert rows[..last + 1] == rows;
      OneMoreCreated(rows, cutoff);
    }
  }

  lemma {:induction false} OneMoreCreated(rows: seq<Row>, cutoff: int)
    requires rows != []
    ensures var init, last := rows[..|rows| - 1], |rows| - 1;
            |CreatedAfter(rows, cutoff)| == |CreatedAfter(init, cutoff)|
                                            + (if rows[last].createdAt > cutoff then 1 else 0)
  {
    var init, last := rows[..|rows| - 1], |rows| - 1;
    assert CreatedAfter(rows, cutoff) == CreatedAfter(init, cutoff)
                                         + (if rows[last].createdAt > cutoff then {last} else {});
  }

  lemma {:induction false} CountAfterUpdate(rows: seq<Row>, n: nat, r: Row)
    requires n < |rows|
    ensures CountActive(rows[n := r]) + (if Active(rows[n]) then 1 else 0)
         == CountActive(rows) + (if Active(r) then 1 else 0)
  {
    var last := |rows| - 1;
    if n == last {
      assert rows[n := r][..last] == rows[..last];
    } else {
      assert rows[n := r][..last] == rows[..last][n := r];
      CountAfterUpdate(rows[..last], n, r);
    }
  }

  lemma {:induction false} CreatedAfterUpdate(rows: seq<Row>, n: nat, r: Row)
    requires n < |rows| && r.createdAt == rows[n].createdAt
    ensures Created(rows[n := r]) == Created(rows)
  {
    var last := |rows| - 1;
    if n == last {
      assert rows[n := r][..last] == rows[..last];
    } else {
      assert rows[n := r][..last] == rows[..last][n := r];
      CreatedAfterUpdate(rows[..last], n, r);
    }
  }

  lemma {:induction false} UpdateKeepsTable(rows: seq<Row>, n: nat, r: Row, maxPerDay: nat, maxConcurrent: nat,
                                            clock: int)
    requires TableOk(rows, maxPerDay, maxConcurrent, clock) && n < |rows| && RowOk(r) && Evolved(rows[n], r)
    requires Active(r) && !Active(rows[n]) ==> CountActive(rows) < maxConcurrent
    ensures TableOk(rows[n := r], maxPerDay, maxConcurrent, clock) && Evolves(rows, rows[n := r])
  {
    CountAfterUpdate(rows, n, r);
    CreatedAfterUpdate(rows, n, r);
  }

  lemma {:induction false} AddKeepsTable(rows: seq<Row>, r: Row, maxPerDay: nat, maxConcurrent: nat, clock: int)
    requires TableOk(rows, maxPerDay, maxConcurrent, clock) && RowOk(r) && !Active(r) && clock <= r.createdAt
    requires forall n :: 0 <= n < |rows| ==> rows[n].key != r.key
    requires R.SpecAllows(Created(rows), maxPerDay, DAY, r.createdAt)
    ensures TableOk(rows + [r], maxPerDay, maxConcurrent, r.createdAt) && Evolves(rows, rows + [r])
  {
    assert (rows + [r])[..|rows|] == rows;
    R.AcceptKeepsSpaced(Created(rows), maxPerDay, DAY, r.createdAt);
  }

  /** However requests are timed, no 24 hours see more jobs created than the limit of a day. */
  lemma {:induction false} NoDayExceedsTheLimit(rows: seq<Row>, maxPerDay: nat, maxConcurrent: nat, clock: int, lo: int,
                                                closedLeft: bool)
    requires TableOk(rows, maxPerDay, maxConcurrent, clock)
    ensures R.CountIn(Created(rows), lo, lo + DAY, closedLeft) <= maxPerDay
  {
    R.WindowHoldsAtMost(Created(rows), maxPerDay, DAY, lo, closedLeft);
  }

  /** Over every run: a job that has ended never runs again, and one that left PENDING_APPROVAL is never
      queued a second time. */
  lemma {:induction false} EndedJobsStayEnded(run: seq<seq<Row>>, a: nat, b: nat, n: nat)
    requires forall k :: 0 < k < |run| ==> Evolves(run[k - 1], run[k])
    requires a <= b < |run| && n < |run[a]|
    ensures n < |run[b]| && run[b][n].key == run[a][n].key
    ensures Terminal(run[a][n].job.status) ==> Terminal(run[b][n].job.status)
    ensures run[a][n].job.status.Running? ==> !run[b][n].job.status.PendingApproval?
    ensures !run[a][n].job.status.PendingApproval? && run[b][n].job.status.Queued? ==> run[a][n].job.status.Queued?
  {
    if a < b {
      EndedJobsStayEnded(run, a, b - 1, n);
      assert Evolves(run[b - 1], run[b]);
      assert Evolved(run[b - 1][n], run[b][n]);
      if !run[a][n].job.status.PendingApproval? {
        NeverPendingAgain(run, a, b - 1, n);
      }
    }
  }

  lemma {:induction false} NeverPendingAgain(run: seq<seq<Row>>, a: nat, b: nat, n: nat)
    requires forall k :: 0 < k < |run| ==> Evolves(run[k - 1], run[k])
    requires a <= b < |run| && n < |run[a]| && !run[a][n].job.status.PendingApproval?
    ensures n < |run[b]| && !run[b][n].job.status.PendingApproval?
  {
    if a < b {
      NeverPendingAgain(run, a, b - 1, n);
      assert Evolves(run[b - 1], run[b]);
      assert Evolved(run[b - 1][n], run[b][n]);
    }
  }

  // ------------------------------------------------------------------ the service

  function Refusal(q: Request, asset: Option<Asset>, engineer: bool, today: int, maxPerDay: int,
                   now: int): Option<Error> {
    if asset.None? || asset.value.deleted then Some(NotFound)
    else if !GatePasses(engineer, asset.value, q.ticket, q.profile, now) then Some(Forbidden)
    else if q.scanners == [] || exists s :: s in q.scanners && s != "nuclei" && s != "zap" then Some(ValidationFailed)
    else if today >= maxPerDay then Some(RateLimited)
    else if q.scheduledFor.Some? && now + 30 * DAY < q.scheduledFor.value then Some(ValidationFailed)
    else None
  }

  /** What a request comes to: the job its key already names, or a row to be added. */
  datatype Draft = Existing(n: nat) | Fresh(row: Row)

  /** The job with a key. */
  function OwnerOf(rows: seq<Row>, key: string): (owner: Option<nat>)
    ensures owner.Some? ==> owner.value < |rows| && rows[owner.value].key == key
    ensures owner.None? <==> forall n :: 0 <= n < |rows| ==> rows[n].key != key
  {
    if rows == [] then None
    else if rows[|rows| - 1].key == key then Some(|rows| - 1)
    else OwnerOf(rows[..|rows| - 1], key)
  }

  /** What `create_job` answers: the job of a known key if asset and profile are the same, else a
      conflict; for a new key a job if no check refuses it. */
  function CreateAnswer(rows: seq<Row>, q: Request, asset: Option<Asset>, engineer: bool, subject: string,
                        maxPerDay: nat, now: int): Result<Draft, Error>
  {
    var owner := OwnerOf(rows, q.key);
    if owner.Some? then
      var job := rows[owner.value].job;
      if job.assetId == q.asset && job.profile == q.profile then Ok(Existing(owner.value)) else Err(Conflict)
    else
      var refusal := Refusal(q, asset, engineer, R.CountAfter(Created(rows), now - DAY), maxPerDay, now);
      if refusal.Some? then Err(refusal.value) else Ok(Fresh(NewRow(q, asset.value, subject, now)))
  }

  function RequestAnswer(rows: seq<Row>, q: Request, asset: Option<Asset>, engineer: bool, subject: string,
                         approval: Option<nat>, maxPerDay: nat, now: int): Result<nat, Error>
  {
    var draft := CreateAnswer(rows, q, asset, engineer, subject, maxPerDay, now);
    if draft.Err? then Err(draft.error)
    else if draft.value.Existing? then Ok(draft.value.n)
    else if approval.None? then Err(UpstreamUnavailable)
    else Ok(|rows|)
  }

  function RetryAnswer(rows: seq<Row>, n: nat, key: string, asset: Option<Asset>, engineer: bool, subject: string,
                       approval: Option<nat>, maxPerDay: nat, now: int): Result<nat, Error>
  {
    if |rows| <= n then Err(NotFound)
    else if !Retryable(rows[n].job.status) then Err(Conflict)
    else
      var draft := CreateAnswer(rows, Again(rows[n], key), asset, engineer, subject, maxPerDay, now);
      if draft.Err? then Err(draft.error)
      else if approval.None? then Err(UpstreamUnavailable)
      else Ok(if draft.value.Existing? then draft.value.n else |rows|)
  }

  function Linked(r: Row, approval: nat): Row {
    r.(job := r.job.(approvalId := Some(approval)))
  }

  predicate Retryable(s: P.JobStatus) {
    s.Failed? || s.TimedOut? || s.Cancelled?
  }

  /** The request that a retry makes. */
  function Again(r: Row, key: string): Request {
    Request(r.job.assetId, r.job.profile, r.job.ticket, r.job.scanners, key, None, r.job.timeoutSeconds)
  }

  function Retried(r: Row, n: nat, attempt: int, approval: nat): Row {
    Linked(r.(retryOf := Some(n), attempt := attempt + 1), approval)
  }

  function StartAnswer(rows: seq<Row>, n: nat, asset: Option<Asset>, engineer: bool, maxConcurrent: nat,
                       refused: Option<Error>, now: int): Result<nat, Error>
  {
    if |rows| <= n then Err(NotFound)
    else if !rows[n].job.status.PendingApproval? || rows[n].job.approvalId.None? then Err(Conflict)
    else if asset.None? || asset.value.deleted then Err(NotFound)
    else if !GatePasses(engineer, asset.value, rows[n].job.ticket, rows[n].job.profile, now) then Err(Forbidden)
    else if rows[n].job.targetUrl != "https://" + asset.value.target + "/" then Err(Conflict)
    else if CountActive(rows) >= maxConcurrent then Err(RateLimited)
    else if refused.Some? then Err(refused.value)
    else Ok(n)
  }

  function Started(r: Row): Row {
    r.(job := r.job.(status := P.Queued), workflow := true)
  }

  /** A job may be created for this request now, as far as the request and the asset go. */
  predicate Requestable(q: Request, asset: Option<Asset>, engineer: bool, now: int) {
    && asset.Some? && Cleared(engineer, asset.value, q.ticket, q.profile, now)
    && q.scanners != [] && (forall s :: s in q.scanners ==> s == "nuclei" || s == "zap")
    && (q.scheduledFor.Some? ==> q.scheduledFor.value <= now + 30 * 86_400_000_000)
  }

  /** The job of a request: the asset's address and authorization, and the scanners asked for, once each. */
  predicate IsJobOf(r: Row, q: Request, a: Asset, subject: string, now: int) {
    && r.job.assetId == q.asset && r.job.targetUrl == "https://" + a.target + "/" && r.job.profile == q.profile
    && r.job.ticket == q.ticket && r.job.authorization == a.authorizationRef && r.job.requestedBy == subject
    && r.job.timeoutSeconds == q.timeoutSeconds && r.job.status == P.PendingApproval && r.job.approvalId == None
    && r.key == q.key && r.createdAt == now && r.scheduledFor == q.scheduledFor && !r.workflow && r.attempt == 1
    && r.retryOf == None && r.finishedAt == None
    && ("nuclei" in r.job.scanners <==> "nuclei" in q.scanners) && ("zap" in r.job.scanners <==> "zap" in q.scanners)
    && (r.job.scanners == ["nuclei"] || r.job.scanners == ["zap"] || r.job.scanners == ["nuclei", "zap"]
        || r.job.scanners == [])
  }

  lemma {:induction false} NewRowMeans(q: Request, a: Asset, subject: string, now: int)
    ensures IsJobOf(NewRow(q, a, subject, now), q, a, subject, now)
  {
  }

  lemma {:induction false} FreshMeans(rows: seq<Row>, q: Request, asset: Option<Asset>, engineer: bool,
                                      subject: string, maxPerDay: nat, now: int)
    requires forall i :: 0 <= i < |rows| ==> rows[i].key != q.key
    ensures var r := CreateAnswer(rows, q, asset, engineer, subject, maxPerDay, now);
            && (r.Ok? <==> Requestable(q, asset, engineer, now)
                           && |CreatedAfter(rows, now - 86_400_000_000)| < maxPerDay)
            && (r.Ok? ==> r.value.Fresh? && IsJobOf(r.value.row, q, asset.value, subject, now))
            && (r == Err(NotFound) <==> asset.None? || asset.value.deleted)
            && (r == Err(Forbidden) <==>
                  asset.Some? && !asset.value.deleted && !Cleared(engineer, asset.value, q.ticket, q.profile, now))
            && (r == Err(RateLimited) ==> |CreatedAfter(rows, now - 86_400_000_000)| >= maxPerDay)
            && r != Err(Conflict)
  {
    CountIsOfCreated(rows, now - DAY);
    assert OwnerOf(rows, q.key).None?;
    if asset.Some? {
      GateMeans(engineer, asset.value, q.ticket, q.profile, now);
      NewRowMeans(q, asset.value, subject, now);
    }
  }

  /** What `create_job` comes to. A known key gives its job if asset and profile agree, and a conflict if not;
      a new key gives a new job exactly if the request is in order and the day's limit is not reached. */
  lemma {:induction false} CreateMeans(rows: seq<Row>, q: Request, asset: Option<Asset>, engineer: bool,
                                       subject: string, maxPerDay: nat, now: int, n: nat)
    requires forall i, j :: 0 <= i < |rows| && 0 <= j < |rows| && i != j ==> rows[i].key != rows[j].key
    ensures var r := CreateAnswer(rows, q, asset, engineer, subject, maxPerDay, now);
            && (n < |rows| && rows[n].key == q.key ==>
                  r == if rows[n].job.assetId == q.asset && rows[n].job.profile == q.profile
                       then Ok(Existing(n)) else Err(Conflict))
            && ((forall i :: 0 <= i < |rows| ==> rows[i].key != q.key) ==>
                  && (r.Ok? <==> Requestable(q, asset, engineer, now)
                                 && |CreatedAfter(rows, now - 86_400_000_000)| < maxPerDay)
                  && (r.Ok? ==> r.value.Fresh? && IsJobOf(r.value.row, q, asset.value, subject, now))
                  && (r == Err(NotFound) <==> asset.None? || asset.value.deleted)
                  && (r == Err(Forbidden) <==>
                        asset.Some? && !asset.value.deleted
                        && !Cleared(engineer, asset.value, q.ticket, q.profile, now))
                  && (r == Err(RateLimited) ==> |CreatedAfter(rows, now - 86_400_000_000)| >= maxPerDay)
                  && r != Err(Conflict))
  {
    if forall i :: 0 <= i < |rows| ==> rows[i].key != q.key {
      FreshMeans(rows, q, asset, engineer, subject, maxPerDay, now);
    }
  }

  /** A job is started exactly if it is pending with an approval, all that was needed to ask for it is still
      there, its target is the asset's, a place is free, and the approval was redeemed. */
  lemma {:induction false} StartMeans(rows: seq<Row>, n: nat, asset: Option<Asset>, engineer: bool,
                                      maxConcurrent: nat, refused: Option<Error>, now: int)
    ensures var r := StartAnswer(rows, n, asset, engineer, maxConcurrent, refused, now);
            && (r.Ok? <==>
                  && n < |rows| && rows[n].job.status == P.PendingApproval && rows[n].job.approvalId.Some?
                  && asset.Some? && Cleared(engineer, asset.value, rows[n].job.ticket, rows[n].job.profile, now)
                  && rows[n].job.targetUrl == "https://" + asset.value.target + "/"
                  && |ActiveIds(rows)| < maxConcurrent && refused.None?)
            && (r.Ok? ==> r == Ok(n))
            && (r.Err? && refused.None? ==> r.error in {NotFound, Conflict, Forbidden, RateLimited})
            && (r == Err(RateLimited) && refused.None? ==> |ActiveIds(rows)| >= maxConcurrent)
            && (n < |rows| && rows[n].job.status == P.PendingApproval && rows[n].job.approvalId.Some?
                && asset.Some? && !asset.value.deleted
                && !Cleared(engineer, asset.value, rows[n].job.ticket, rows[n].job.profile, now) ==>
                  r == Err(Forbidden))
  {
    CountIsOfActive(rows);
    if n < |rows| && asset.Some? {
      GateMeans(engineer, asset.value, rows[n].job.ticket, rows[n].job.profile, now);
    }
  }

  /** A retry asks for what the failed, timed-out or cancelled job asked for, without a date, under a new
      key; no other job can be retried. */
  lemma {:induction false} RetryMeans(rows: seq<Row>, n: nat, key: string, asset: Option<Asset>, engineer: bool,
                                      subject: string, approval: Option<nat>, maxPerDay: nat, now: int)
    requires forall i :: 0 <= i < |rows| ==> rows[i].key != key
    ensures var r := RetryAnswer(rows, n, key, asset, engineer, subject, approval, maxPerDay, now);
            && (r.Ok? <==>
                  && n < |rows|
                  && (rows[n].job.status == P.Failed || rows[n].job.status == P.TimedOut
                      || rows[n].job.status == P.Cancelled)
                  && asset.Some? && Cleared(engineer, asset.value, rows[n].job.ticket, rows[n].job.profile, now)
                  && rows[n].job.scanners != []
                  && (forall s :: s in rows[n].job.scanners ==> s == "nuclei" || s == "zap")
                  && |CreatedAfter(rows, now - 86_400_000_000)| < maxPerDay && approval.Some?)
            && (r.Ok? ==>
                  && r == Ok(|rows|)
                  && var row := RetriedTable(rows, n, key, asset, subject, approval, r.value, now)[|rows|];
                     && row.retryOf == Some(n) && row.attempt == rows[n].attempt + 1
                     && row.job.approvalId == approval && row.key == key && row.createdAt == now
                     && row.scheduledFor == None && row.job.assetId == rows[n].job.assetId
                     && row.job.profile == rows[n].job.profile && row.job.ticket == rows[n].job.ticket
                     && row.job.timeoutSeconds == rows[n].job.timeoutSeconds && row.job.requestedBy == subject
                     && row.job.targetUrl == "https://" + asset.value.target + "/"
                     && row.job.authorization == asset.value.authorizationRef
                     && row.job.status == P.PendingApproval)
  {
    if n < |rows| {
      FreshMeans(rows, Again(rows[n], key), asset, engineer, subject, maxPerDay, now);
    }
  }

  lemma {:induction false} NewRowIsOk(q: Request, a: Asset, engineer: bool, subject: string, approval: nat, now: int)
    requires GatePasses(engineer, a, q.ticket, q.profile, now) && q.scanners != []
    requires forall s :: s in q.scanners ==> s == "nuclei" || s == "zap"
    ensures RowOk(Linked(NewRow(q, a, subject, now), approval))
  {
    assert Checks(engineer, a, q.ticket, q.profile, now)[4] in Checks(engineer, a, q.ticket, q.profile, now);
    assert q.scanners[0] in q.scanners;
  }

  lemma {:induction false} TimePasses(rows: seq<Row>, maxPerDay: nat, maxConcurrent: nat, clock: int, now: int)
    requires TableOk(rows, maxPerDay, maxConcurrent, clock) && clock <= now
    ensures TableOk(rows, maxPerDay, maxConcurrent, now) && Evolves(rows, rows)
  {
  }

  /** The rows after a retry that was answered with job `m`. */
  function RetriedTable(rows: seq<Row>, n: nat, key: string, asset: Option<Asset>, subject: string,
                        approval: Option<nat>, m: nat, now: int): seq<Row>
    requires n < |rows| && approval.Some? && (|rows| <= m ==> asset.Some?)
  {
    if m < |rows| then rows[m := Retried(rows[m], n, rows[n].attempt, approval.value)]
    else rows + [Retried(NewRow(Again(rows[n], key), asset.value, subject, now), n, rows[n].attempt, approval.value)]
  }

  lemma {:induction false} RetryStep(rows: seq<Row>, n: nat, key: string, asset: Option<Asset>, engineer: bool,
                                     subject: string, approval: Option<nat>, maxPerDay: nat, maxConcurrent: nat,
                                     clock: int, now: int)
    requires TableOk(rows, maxPerDay, maxConcurrent, clock) && clock <= now
    ensures var r := RetryAnswer(rows, n, key, asset, engineer, subject, approval, maxPerDay, now);
            r.Ok? ==>
              && n < |rows| && approval.Some? && (|rows| <= r.value ==> asset.Some?)
              && var after := RetriedTable(rows, n, key, asset, subject, approval, r.value, now);
                 TableOk(after, maxPerDay, maxConcurrent, now) && Evolves(rows, after)
  {
    TimePasses(rows, maxPerDay, maxConcurrent, clock, now);
    var r := RetryAnswer(rows, n, key, asset, engineer, subject, approval, maxPerDay, now);
    if r.Ok? {
      assert RowOk(rows[n]);
      if r.value < |rows| {
        assert RowOk(rows[r.value]);
        UpdateKeepsTable(rows, r.value, Retried(rows[r.value], n, rows[n].attempt, approval.value), maxPerDay,
                         maxConcurrent, now);
      } else {
        var q := Again(rows[n], key);
        NewRowIsOk(q, asset.value, engineer, subject, approval.value, now);
        AddKeepsTable(rows, Retried(NewRow(q, asset.value, subject, now), n, rows[n].attempt, approval.value),
                      maxPerDay, maxConcurrent, now);
      }
    }
  }

  class ScanService {
    const maxPerDay: nat
    const maxConcurrent: nat
    var rows: seq<Row>
    ghost var clock: int

    ghost predicate Valid()
      reads this
    {
      TableOk(rows, maxPerDay, maxConcurrent, clock)
    }

    constructor (maxPerDay: nat, maxConcurrent: nat)
      ensures Valid() && rows == [] && clock == 0
      ensures this.maxPerDay == maxPerDay && this.maxConcurrent == maxConcurrent
    {
      this.maxPerDay, this.maxConcurrent := maxPerDay, maxConcurrent;
      rows, clock := [], 0;
    }

    method FindKey(key: string) returns (found: Option<nat>)
      ensures found == OwnerOf(rows, key)
    {
      var n := |rows|;
      assert rows[..n] == rows;
      while n > 0
        invariant 0 <= n <= |rows| && OwnerOf(rows, key) == OwnerOf(rows[..n], key)
      {
        n := n - 1;
        assert rows[..n + 1][..n] == rows[..n];
        if rows[n].key == key {
          return Some(n);
        }
      }
      found := None;
    }

    method CountSince(cutoff: int) returns (count: nat)
      ensures count == R.CountAfter(Created(rows), cutoff) == |CreatedAfter(rows, cutoff)|
    {
      CountIsOfCreated(rows, cutoff);
      count := 0;
      for n := 0 to |rows|
        invariant count == R.CountAfter(Created(rows[..n]), cutoff)
      {
        CreatedStep(rows, n, cutoff);
        if rows[n].createdAt > cutoff {
          count := count + 1;
        }
      }
      assert rows[..|rows|] == rows;
    }

    method CountRunning() returns (count: nat)
      ensures count == CountActive(rows) == |ActiveIds(rows)|
      ensures Valid() ==> count <= maxConcurrent
    {
      CountIsOfActive(rows);
      count := 0;
      for n := 0 to |rows|
        invariant count == CountActive(rows[..n])
      {
        assert rows[..n + 1][..n] == rows[..n];
        if Active(rows[n]) {
          count := count + 1;
        }
      }
      assert rows[..|rows|] == rows;
    }

    /** The existing job of the key, or a new one if every check passes. */
    method CreateJob(q: Request, asset: Option<Asset>, engineer: bool, subject: string, now: int)
      returns (r: Result<Draft, Error>)
      ensures r == CreateAnswer(rows, q, asset, engineer, subject, maxPerDay, now)
    {
      var existing := FindKey(q.key);
      if existing.Some? {
        var job := rows[existing.value].job;
        if job.assetId != q.asset || job.profile != q.profile {
          return Err(Conflict);
        }
        return Ok(Existing(existing.value));
      }
      var today := CountSince(now - DAY);
      var refusal := Refusal(q, asset, engineer, today, maxPerDay, now);
      r := if refusal.Some? then Err(refusal.value) else Ok(Fresh(NewRow(q, asset.value, subject, now)));
    }

    /** Requesting is creating a job and filing its approval in one transaction: if the approval service
        does not answer, no job is left. */
    method RequestScan(q: Request, asset: Option<Asset>, engineer: bool, subject: string, approval: Option<nat>,
                       now: int)
      returns (r: Result<nat, Error>)
      requires Valid() && clock <= now
      modifies this
      ensures Valid() && clock == now && Evolves(old(rows), rows)
      ensures r == RequestAnswer(old(rows), q, asset, engineer, subject, approval, maxPerDay, now)
      ensures var draft := CreateAnswer(old(rows), q, asset, engineer, subject, maxPerDay, now);
              r == if draft.Err? then Err(draft.error)
                   else if draft.value.Existing? then Ok(draft.value.n)
                   else if approval.None? then Err(UpstreamUnavailable) else Ok(|old(rows)|)
      ensures rows == if r == Ok(|old(rows)|)
                      then old(rows) + [Linked(NewRow(q, asset.value, subject, now), approval.value)] else old(rows)
    {
      TimePasses(rows, maxPerDay, maxConcurrent, clock, now);
      clock := now;
      var draft := CreateJob(q, asset, engineer, subject, now);
      if draft.Err? {
        return Err(draft.error);
      }
      if draft.value.Existing? {
        return Ok(draft.value.n);
      }
      if approval.None? {
        return Err(UpstreamUnavailable);
      }
      NewRowIsOk(q, asset.value, engineer, subject, approval.value, now);
      r := Ok(|rows|);
      Append(Linked(draft.value.row, approval.value));
    }

    method Append(row: Row)
      requires Valid() && RowOk(row) && !Active(row) && clock == row.createdAt && OwnerOf(rows, row.key).None?
      requires R.SpecAllows(Created(rows), maxPerDay, DAY, row.createdAt)
      modifies this
      ensures Valid() && clock == old(clock) && rows == old(rows) + [row] && Evolves(old(rows), rows)
    {
      AddKeepsTable(rows, row, maxPerDay, maxConcurrent, clock);
      rows := rows + [row];
    }

    method Replace(n: nat, row: Row)
      requires Valid() && n < |rows| && RowOk(row) && Evolved(rows[n], row)
      requires Active(row) && !Active(rows[n]) ==> CountActive(rows) < maxConcurrent
      modifies this
      ensures Valid() && clock == old(clock) && rows == old(rows)[n := row] && Evolves(old(rows), rows)
    {
      UpdateKeepsTable(rows, n, row, maxPerDay, maxConcurrent, clock);
      rows := rows[n := row];
    }

    lemma {:induction false} RowsAreOk(n: nat)
      requires Valid() && n < |rows|
      ensures RowOk(rows[n])
    {
    }

    /** Files an approval for a further job like the given one. If the key names an existing job of the
        same asset and profile, the approval is linked to that job instead, whatever its status. */
    method Retry(n: nat, key: string, asset: Option<Asset>, engineer: bool, subject: string, approval: Option<nat>,
                 now: int)
      returns (r: Result<nat, Error>)
      requires Valid() && clock <= now
      modifies this
      ensures Valid() && clock == now && Evolves(old(rows), rows)
      ensures r == RetryAnswer(old(rows), n, key, asset, engineer, subject, approval, maxPerDay, now)
      ensures rows == if r.Err? then old(rows)
                      else RetriedTable(old(rows), n, key, asset, subject, approval, r.value, now)
    {
      TimePasses(rows, maxPerDay, maxConcurrent, clock, now);
      RetryStep(rows, n, key, asset, engineer, subject, approval, maxPerDay, maxConcurrent, clock, now);
      clock := now;
      if |rows| <= n {
        return Err(NotFound);
      }
      if !Retryable(rows[n].job.status) {
        return Err(Conflict);
      }
      var draft := CreateJob(Again(rows[n], key), asset, engineer, subject, now);
      if draft.Err? {
        return Err(draft.error);
      }
      if approval.None? {
        return Err(UpstreamUnavailable);
      }
      match draft.value
      case Existing(m) =>
        r := Ok(m);
        rows := rows[m := Retried(rows[m], n, rows[n].attempt, approval.value)];
      case Fresh(created) =>
        r := Ok(|rows|);
        rows := rows + [Retried(created, n, rows[n].attempt, approval.value)];
    }

    /** A job is queued only from PENDING_APPROVAL, while the gate is open, its target is unchanged, a
        place is free and its approval was consumed: `refused` is the approval service's answer. */
    method Start(n: nat, asset: Option<Asset>, engineer: bool, refused: Option<Error>, now: int)
      returns (r: Result<nat, Error>)
      requires Valid() && clock <= now
      modifies this
      ensures Valid() && clock == now && Evolves(old(rows), rows)
      ensures r == StartAnswer(old(rows), n, asset, engineer, maxConcurrent, refused, now)
      ensures rows == if r.Ok?
                      then old(rows)[n := old(rows)[n].(job := old(rows)[n].job.(status := P.Queued), workflow := true)]
                      else old(rows)
    {
      TimePasses(rows, maxPerDay, maxConcurrent, clock, now);
      clock := now;
      if |rows| <= n {
        return Err(NotFound);
      }
      var row := rows[n];
      RowsAreOk(n);
      if !row.job.status.PendingApproval? || row.job.approvalId.None? {
        return Err(Conflict);
      }
      if asset.None? || asset.value.deleted {
        return Err(NotFound);
      }
      if !GatePasses(engineer, asset.value, row.job.ticket, row.job.profile, now) {
        return Err(Forbidden);
      }
      if row.job.targetUrl != "https://" + asset.value.target + "/" {
        return Err(Conflict);
      }
      var running := CountRunning();
      if running >= maxConcurrent {
        return Err(RateLimited);
      }
      if refused.Some? {
        return Err(refused.value);
      }
      Replace(n, Started(row));
      r := Ok(n);
    }

    method Cancel(n: nat, now: int) returns (r: Result<nat, Error>)
      requires Valid() && clock <= now
      modifies this
      ensures Valid() && clock == now && Evolves(old(rows), rows)
      ensures r == if |old(rows)| <= n then Err(NotFound)
                   else if old(rows)[n].job.status in {P.PendingApproval, P.Queued, P.Running} then Ok(n)
                   else Err(Conflict)
      ensures r.Ok? ==> rows == old(rows)[n := old(rows)[n].(
                          job := old(rows)[n].job.(status := P.Cancelled), finishedAt := Some(now))]
      ensures r.Err? ==> rows == old(rows)
    {
      TimePasses(rows, maxPerDay, maxConcurrent, clock, now);
      clock := now;
      if |rows| <= n {
        return Err(NotFound);
      }
      RowsAreOk(n);
      if !rows[n].job.status.PendingApproval? && !Active(rows[n]) {
        return Err(Conflict);
      }
      Replace(n, WithStatus(rows[n], P.Cancelled, now));
      r := Ok(n);
    }

    /** A report of progress. Nothing here asks whether the job was ever started: the limit on running
        jobs and the rest of the order hold as long as reports of a start come from started jobs, and no
        report takes a job back to an earlier status. */
    method SetStatus(n: nat, status: P.JobStatus, now: int) returns (r: Result<nat, Error>)
      requires Valid() && clock <= now
      modifies this
      ensures clock == now && r == (if n < |old(rows)| then Ok(n) else Err(NotFound))
      ensures rows == if r.Ok? then old(rows)[n := Reported(old(rows)[n], status, now)] else old(rows)
      ensures (n < |old(rows)| ==> InOrder(old(rows)[n], status)) ==> Valid() && Evolves(old(rows), rows)
    {
      TimePasses(rows, maxPerDay, maxConcurrent, clock, now);
      clock := now;
      if |rows| <= n {
        return Err(NotFound);
      }
      RowsAreOk(n);
      if InOrder(rows[n], status) {
        Replace(n, Reported(rows[n], status, now));
      } else {
        rows := rows[n := Reported(rows[n], status, now)];
      }
      r := Ok(n);
    }

    /** Findings end the job whatever its status was. */
    method PersistFindings(n: nat, errors: bool, now: int) returns (r: Result<nat, Error>)
      requires Valid() && clock <= now
      modifies this
      ensures Valid() && clock == now && Evolves(old(rows), rows)
      ensures r == if n < |old(rows)| then Ok(n) else Err(NotFound)
      ensures r.Ok? ==> rows == old(rows)[n := old(rows)[n].(
                          job := old(rows)[n].job.(status := if errors then P.Failed else P.Succeeded),
                          finishedAt := Some(now))]
      ensures r.Err? ==> rows == old(rows)
    {
      TimePasses(rows, maxPerDay, maxConcurrent, clock, now);
      clock := now;
      if |rows| <= n {
        return Err(NotFound);
      }
      RowsAreOk(n);
      Replace(n, WithStatus(rows[n], if errors then P.Failed else P.Succeeded, now));
      r := Ok(n);
    }
  }

  /** A retry never asks whether the job its key names may be retried: for every other job of the same
      asset and profile, in whatever status, it succeeds once an approval is filed, without any gate, and
      links that job to the new approval. */
  lemma {:induction false} RetryRelinksAnyJob(rows: seq<Row>, n: nat, m: nat, asset: Option<Asset>, engineer: bool,
                                              subject: string, approval: Option<nat>, maxPerDay: nat,
                                              maxConcurrent: nat, clock: int, now: int)
    requires TableOk(rows, maxPerDay, maxConcurrent, clock) && n < |rows| && m < |rows|
    requires Retryable(rows[n].job.status)
    requires rows[m].job.assetId == rows[n].job.assetId && rows[m].job.profile == rows[n].job.profile
    ensures RetryAnswer(rows, n, rows[m].key, asset, engineer, subject, approval, maxPerDay, now)
         == if approval.Some? then Ok(m) else Err(UpstreamUnavailable)
    ensures approval.Some? ==>
              RetriedTable(rows, n, rows[m].key, asset, subject, approval, m, now) == rows[m := rows[m].(
                job := rows[m].job.(approvalId := approval), retryOf := Some(n), attempt := rows[n].attempt + 1)]
  {
    assert OwnerOf(rows, rows[m].key) == Some(m);
  }

  function SampleRequest(key: string): Request {
    Request(0, "safe-passive", "SEC-1", ["zap"], key, None, 600)
  }

  function SampleRow(asset: Asset, key: string, approval: nat): Row {
    Linked(NewRow(SampleRequest(key), asset, "alice", 0), approval)
  }

  lemma {:induction false} SamplesAnswered(rows: seq<Row>, asset: Asset, key: string, approval: nat)
    requires GatePasses(true, asset, "SEC-1", "safe-passive", 0) && |rows| < 2 && OwnerOf(rows, key).None?
    ensures RequestAnswer(rows, SampleRequest(key), Some(asset), true, "alice", Some(approval), 2, 0) == Ok(|rows|)
  {
    assert R.CountAfter(Created(rows), -DAY) < 2 by {
      CountIsBounded(Created(rows), -DAY);
    }
    assert !asset.deleted by {
      assert Checks(true, asset, "SEC-1", "safe-passive", 0)[3] in Checks(true, asset, "SEC-1", "safe-passive", 0);
    }
  }

  lemma {:induction false} CountIsBounded(h: seq<int>, cutoff: int)
    ensures R.CountAfter(h, cutoff) <= |h|
  {
    if h != [] {
      CountIsBounded(h[..|h| - 1], cutoff);
    }
  }

  /** Two jobs of one asset and profile, from an empty table. */
  method TwoJobs(asset: Asset) returns (service: ScanService)
    requires GatePasses(true, asset, "SEC-1", "safe-passive", 0)
    ensures fresh(service) && service.Valid() && service.clock == 0 && service.maxConcurrent == 1
    ensures service.rows == [SampleRow(asset, "first", 10)] + [SampleRow(asset, "second", 11)]
  {
    service := new ScanService(2, 1);
    SamplesAnswered(service.rows, asset, "first", 10);
    var a := service.RequestScan(SampleRequest("first"), Some(asset), true, "alice", Some(10), 0);
    assert service.rows == [SampleRow(asset, "first", 10)];
    SamplesAnswered(service.rows, asset, "second", 11);
    var b := service.RequestScan(SampleRequest("second"), Some(asset), true, "alice", Some(11), 0);
  }

  lemma {:induction false} NoneActive(a: Row, b: Row)
    requires !Active(a) && !Active(b)
    ensures CountActive([a] + [b]) == 0
  {
    assert [a][..0] == [] && CountActive([a]) == 0;
    assert ([a] + [b])[..1] == [a];
  }

  /** It is reached: the first job is cancelled, the second one is queued, and retrying the first with the
      key of the second gives the queued one an approval it was not started with. */
  method RetryRelinksAQueuedJob(asset: Asset) returns (service: ScanService, r: Result<nat, Error>)
    requires GatePasses(true, asset, "SEC-1", "safe-passive", 0)
    ensures service.Valid() && r == Ok(1) && |service.rows| == 2
    ensures service.rows[1].job.status.Queued? && service.rows[1].job.approvalId == Some(12)
    ensures service.rows[1].retryOf == Some(0) && service.rows[0].job.status.Cancelled?
  {
    service := TwoJobs(asset);
    NoneActive(SampleRow(asset, "first", 10), SampleRow(asset, "second", 11));
    var started := service.Start(1, Some(asset), true, None, 0);
    assert service.rows[1].job.status.Queued? && service.rows[0].job.status.PendingApproval?;
    var cancelled := service.Cancel(0, 0);
    RetryRelinksAnyJob(service.rows, 0, 1, Some(asset), true, "alice", Some(12), service.maxPerDay,
                       service.maxConcurrent, service.clock, 0);
    r := service.Retry(0, "second", Some(asset), true, "alice", Some(12), 0);
  }

  function Reports(r: Row, statuses: seq<P.JobStatus>, now: int): Row {
    if statuses == [] then r
    else Reported(Reports(r, statuses[..|statuses| - 1], now), statuses[|statuses| - 1], now)
  }

  /** No number of reports changes how a job ended, but late findings do: a cancelled job may still
      succeed. */
  lemma {:induction false} OnlyFindingsReplaceAnEnd(r: Row, statuses: seq<P.JobStatus>, now: int)
    requires Terminal(r.job.status)
    ensures Reports(r, statuses, now).job == r.job
    ensures WithStatus(Reports(r, statuses, now), P.Succeeded, now).job == r.job.(status := P.Succeeded)
  {
    if statuses != [] {
      OnlyFindingsReplaceAnEnd(r, statuses[..|statuses| - 1], now);
    }
  }
}
