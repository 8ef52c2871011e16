/** The notification queue: enqueueing once per key, claiming by any number of workers, delivery with
    retries that back off, cancellation, and delivery receipts. */
module Notifications {
  import opened Common

  datatype Status = Scheduled | Sending | Sent | Delivered | Read | Failed | Cancelled

  datatype Notification = Notification(key: string, related: Option<string>, scheduledFor: int, status: Status,
                                       attempts: nat, sentAt: Option<int>, providerId: Option<string>)

  datatype Template = Template(customer: bool, required: seq<string>)

  datatype Body = Body(template: Template, contact: bool, recipients: bool, variables: seq<string>,
                       scheduledFor: Option<int>, key: string, related: Option<string>)

  /** What a call of the sender comes to: a message id, a reason not to send, a provider error, or the
      end of the worker before the transaction could commit. */
  datatype Outcome = Accepted(providerId: string) | Skipped | ProviderError | Crashed

  /** What is known about a row beyond its columns: whether a live worker still has to deliver it, when
      it was claimed, and how each call of the sender ended. */
  datatype Log = Log(held: bool, claims: seq<int>, sends: seq<Outcome>)

  // ------------------------------------------------------------------ one row

  /** Instants are microseconds. */
  const SECOND: int := 1_000_000

  function Pow2(n: nat): (p: int)
    ensures p >= 1
  {
    if n == 0 then 1 else 2 * Pow2(n - 1)
  }

  /** The wait after a failed attempt. */
  function Backoff(attempts: nat): int {
    30 * Pow2(attempts) * SECOND
  }

  predicate Incomplete(body: Body) {
    || (body.template.customer && !body.contact)
    || (!body.template.customer && !body.recipients)
    || exists k :: k in body.template.required && k !in body.variables
  }

  function NewNotification(body: Body, now: int): Notification {
    var at := if body.scheduledFor.Some? then body.scheduledFor.value else now;
    Notification(body.key, body.related, at, if at < now - 300 * SECOND then Cancelled else Scheduled, 0, None, None)
  }

  predicate Cancellable(row: Notification, related: string, now: int) {
    row.related == Some(related) && row.status.Scheduled? && now < row.scheduledFor
  }

  function CancelRow(row: Notification, related: string, now: int): Notification {
    if Cancellable(row, related, now) then row.(status := Cancelled) else row
  }

  predicate Due(row: Notification, now: int) {
    row.status.Scheduled? && row.scheduledFor <= now
  }

  function ClaimRow(row: Notification): Notification {
    row.(status := Sending, attempts := row.attempts + 1)
  }

  function DeliverRow(row: Notification, outcome: Outcome, maxAttempts: int, now: int): Notification {
    match outcome
    case Accepted(id) => row.(status := Sent, sentAt := Some(now), providerId := Some(id))
    case Skipped => row.(status := Cancelled)
    case ProviderError =>
      if row.attempts >= maxAttempts then row.(status := Failed)
      else row.(status := Scheduled, scheduledFor := now + Backoff(row.attempts))
    case Crashed => row
  }

  /** What a call of the sender made of a row: sent with its message id, cancelled, tried again later or
      given up after the last attempt, or left as it was by a worker that did not live to say. */
  predicate IsDelivered(row: Notification, was: Notification, outcome: Outcome, maxAttempts: int, now: int) {
    && (outcome.Accepted? ==>
          row == was.(status := Sent, sentAt := Some(now), providerId := Some(outcome.providerId)))
    && (outcome == Skipped ==> row == was.(status := Cancelled))
    && (outcome == ProviderError && maxAttempts <= was.attempts ==> row == was.(status := Failed))
    && (outcome == ProviderError && was.attempts < maxAttempts ==>
          row == was.(status := Scheduled, scheduledFor := row.scheduledFor)
          && row.scheduledFor - now == 30_000_000 * Pow2(was.attempts))
    && (outcome == Crashed ==> row == was)
  }

  /** The wait is a minute after the first attempt and doubles with every further one. */
  lemma {:induction false} WaitDoubles(attempts: nat)
    ensures Backoff(1) == 60_000_000 && Backoff(attempts + 1) == 2 * Backoff(attempts)
  {
    assert Pow2(1) == 2 * Pow2(0);
  }

  function ReceiptRow(row: Notification, id: string, status: Status): Notification {
    if row.providerId == Some(id) then row.(status := status) else row
  }

  // ------------------------------------------------------------------ what holds of a row

  /** Every attempt waited for the one before it. */
  predicate SpacedOut(claims: seq<int>) {
    forall k :: 0 < k < |claims| ==> claims[k] >= claims[k - 1] + Backoff(k)
  }

  predicate AllErrors(sends: seq<Outcome>) {
    forall i :: 0 <= i < |sends| ==> sends[i] == ProviderError
  }

  /** Only provider errors before the last call of the sender. */
  predicate ErrorsBeforeLast(sends: seq<Outcome>) {
    sends != [] ==> AllErrors(sends[..|sends| - 1])
  }

  /** The sender was called once for every claim, and what the row is follows from how that ended. */
  predicate Answered(row: Notification, log: Log, maxAttempts: int) {
    && ErrorsBeforeLast(log.sends)
    && (row.status.Sending? ==> |log.sends| <= row.attempts && row.attempts >= 1)
    && (row.status.Sending? && log.held ==> |log.sends| == row.attempts - 1)
    && (row.status.Sending? && |log.sends| == row.attempts ==> log.sends[|log.sends| - 1] == Crashed)
    && (row.status.Sending? && |log.sends| < row.attempts ==>
          |log.sends| == row.attempts - 1 && AllErrors(log.sends))
    && (!row.status.Sending? ==> |log.sends| == row.attempts && !log.held)
    && (row.status.Scheduled? ==> AllErrors(log.sends))
    && (row.providerId.Some? <==> log.sends != [] && log.sends[|log.sends| - 1].Accepted?)
    && (row.providerId.Some? ==> !row.status.Scheduled? && !row.status.Sending? && !row.status.Cancelled?)
    && (row.providerId.None? ==> !row.status.Sent? && !row.status.Delivered? && !row.status.Read?)
    && (row.status.Failed? && row.providerId.None? ==> AllErrors(log.sends) && row.attempts >= Max(1, maxAttempts))
    && (row.status.Cancelled? && row.attempts > 0 && !AllErrors(log.sends) ==> log.sends[|log.sends| - 1] == Skipped)
  }

  predicate Timely(row: Notification, log: Log, clock: int) {
    && |log.claims| == row.attempts && SpacedOut(log.claims)
    && (row.attempts > 0 ==> log.claims[row.attempts - 1] <= clock)
    && (row.status.Scheduled? && row.attempts > 0 ==>
          row.scheduledFor >= log.claims[row.attempts - 1] + Backoff(row.attempts))
  }

  predicate RowOk(row: Notification, log: Log, maxAttempts: int, clock: int) {
    && Answered(row, log, maxAttempts) && Timely(row, log, clock)
    && row.attempts <= Max(1, maxAttempts)
    && (row.status.Scheduled? ==> row.attempts < Max(1, maxAttempts))
  }

  /** Nothing happens to the row any more: it was cancelled or given up, or the worker that had claimed
      it is gone. */
  predicate AtRest(row: Notification, log: Log) {
    || row.status.Cancelled?
    || (row.status.Failed? && row.providerId.None?)
    || (row.status.Sending? && !log.held)
  }

  /** How a row may move: it keeps its key, the sender is called at most once more, not at all for a
      row at rest, and after a success only receipts change it. */
  predicate Moves(was: Notification, wasLog: Log, row: Notification, log: Log) {
    && row.key == was.key && row.related == was.related
    && wasLog.sends <= log.sends && |log.sends| <= |wasLog.sends| + 1
    && (AtRest(was, wasLog) ==> row == was && log == wasLog)
    && (was.providerId.Some? ==> row == was.(status := row.status) && log == wasLog)
  }

  function Successes(sends: seq<Outcome>): nat {
    if sends == [] then 0
    else Successes(sends[..|sends| - 1]) + (if sends[|sends| - 1].Accepted? then 1 else 0)
  }

  lemma {:induction false} ErrorsAreNoSuccess(sends: seq<Outcome>)
    requires AllErrors(sends)
    ensures Successes(sends) == 0
  {
    if sends != [] {
      ErrorsAreNoSuccess(sends[..|sends| - 1]);
    }
  }

  /** The sender is called at most `maxAttempts` times, or once, and succeeds at most once, exactly when
      the row has a message id. All its calls but at most one ended in a provider error, so that a call
      which crashed, and may have been accepted all the same, is never repeated. */
  lemma {:induction false} SentAtMostOnce(row: Notification, log: Log, maxAttempts: int, clock: int)
    requires RowOk(row, log, maxAttempts, clock)
    ensures |log.sends| <= Max(1, maxAttempts)
    ensures Successes(log.sends) == (if row.providerId.Some? then 1 else 0)
    ensures row.status.Cancelled? ==> Successes(log.sends) == 0
    ensures forall i, j :: 0 <= i < |log.sends| && 0 <= j < |log.sends| ==>
              log.sends[i] != ProviderError && log.sends[j] != ProviderError ==> i == j
  {
    if log.sends != [] {
      ErrorsAreNoSuccess(log.sends[..|log.sends| - 1]);
    }
  }

  /** What a status says about the calls of the sender: who has a message id succeeded, who was given up has
      failed as often as allowed, and a cancelled row was never tried, failed, or was skipped. */
  lemma {:induction false} StatusTellsTheCalls(row: Notification, log: Log, maxAttempts: int, clock: int)
    requires RowOk(row, log, maxAttempts, clock)
    ensures row.status in {Sent, Delivered, Read} ==> Successes(log.sends) == 1
    ensures row.status == Failed && row.providerId.None? ==>
              |log.sends| == row.attempts >= Max(1, maxAttempts) && forall s :: s in log.sends ==> s == ProviderError
    ensures row.status == Cancelled && (exists s :: s in log.sends && s != ProviderError) ==>
              log.sends[|log.sends| - 1] == Skipped
    ensures row.status == Scheduled ==> forall s :: s in log.sends ==> s == ProviderError
  {
    SentAtMostOnce(row, log, maxAttempts, clock);
  }

  /** Attempt k + 1 of a row starts at least 60 (2^k - 1) seconds after the first. */
  lemma {:induction false} AttemptsSpreadOut(row: Notification, log: Log, maxAttempts: int, clock: int, k: nat)
    requires RowOk(row, log, maxAttempts, clock) && k < row.attempts
    ensures |log.claims| == row.attempts
    ensures log.claims[k] - log.claims[0] >= 60 * (Pow2(k) - 1) * SECOND
  {
    ClaimsSpreadOut(log.claims, k);
  }

  lemma {:induction false} ClaimsSpreadOut(claims: seq<int>, k: nat)
    requires SpacedOut(claims) && k < |claims|
    ensures claims[k] - claims[0] >= 60 * (Pow2(k) - 1) * SECOND
  {
    if k > 0 {
      ClaimsSpreadOut(claims, k - 1);
    }
  }

  // ------------------------------------------------------------------ steps of one row

  lemma {:induction false} CancelStep(row: Notification, log: Log, maxAttempts: int, clock: int, related: string,
                                      now: int)
    requires RowOk(row, log, maxAttempts, clock) && clock <= now
    ensures RowOk(CancelRow(row, related, now), log, maxAttempts, now)
    ensures Moves(row, log, CancelRow(row, related, now), log)
  {
  }

  function ClaimLog(log: Log, now: int): Log {
    log.(held := true, claims := log.claims + [now])
  }

  lemma {:induction false} ClaimStep(row: Notification, log: Log, maxAttempts: int, clock: int, now: int)
    requires RowOk(row, log, maxAttempts, clock) && clock <= now && Due(row, now)
    ensures RowOk(ClaimRow(row), ClaimLog(log, now), maxAttempts, now)
    ensures Moves(row, log, ClaimRow(row), ClaimLog(log, now))
  {
  }

  function DeliverLog(log: Log, outcome: Outcome): Log {
    log.(held := false, sends := log.sends + [outcome])
  }

  lemma {:induction false} DeliverStep(row: Notification, log: Log, maxAttempts: int, clock: int, outcome: Outcome,
                                       now: int)
    requires RowOk(row, log, maxAttempts, clock) && clock <= now && row.status.Sending? && log.held
    ensures RowOk(DeliverRow(row, outcome, maxAttempts, now), DeliverLog(log, outcome), maxAttempts, now)
    ensures Moves(row, log, DeliverRow(row, outcome, maxAttempts, now), DeliverLog(log, outcome))
  {
    var sends := log.sends + [outcome];
    assert sends[..|sends| - 1] == log.sends;
  }

  lemma {:induction false} ReceiptStep(row: Notification, log: Log, maxAttempts: int, clock: int, id: string,
                                       status: Status)
    requires RowOk(row, log, maxAttempts, clock)
    requires status.Sent? || status.Delivered? || status.Read? || status.Failed?
    ensures RowOk(ReceiptRow(row, id, status), log, maxAttempts, clock)
    ensures Moves(row, log, ReceiptRow(row, id, status), log)
  {
  }

  // ------------------------------------------------------------------ the table

  ghost predicate TableOk(rows: seq<Notification>, logs: seq<Log>, maxAttempts: int, clock: int) {
    && |rows| == |logs|
    && (forall i :: 0 <= i < |rows| ==> RowOk(rows[i], logs[i], maxAttempts, clock))
    && (forall i, j :: 0 <= i < |rows| && 0 <= j < |rows| && i != j ==> rows[i].key != rows[j].key)
  }

  ghost predicate TableMoves(rows: seq<Notification>, logs: seq<Log>, rows': seq<Notification>, logs': seq<Log>)
    requires |rows| == |logs| && |rows'| == |logs'|
  {
    |rows| <= |rows'| && forall i :: 0 <= i < |rows| ==> Moves(rows[i], logs[i], rows'[i], logs'[i])
  }

  lemma {:induction false} TimePasses(row: Notification, log: Log, maxAttempts: int, clock: int, now: int)
    requires RowOk(row, log, maxAttempts, clock) && clock <= now
    ensures RowOk(row, log, maxAttempts, now)
  {
  }

  /** Rows that each keep their own invariant and their key make a good table. */
  lemma {:induction false} RowByRow(rows: seq<Notification>, logs: seq<Log>, rows': seq<Notification>, logs': seq<Log>,
                                    maxAttempts: int, clock: int, now: int)
    requires TableOk(rows, logs, maxAttempts, clock) && |rows'| == |logs'| == |rows|
    requires forall i :: 0 <= i < |rows| ==>
               RowOk(rows'[i], logs'[i], maxAttempts, now) && Moves(rows[i], logs[i], rows'[i], logs'[i])
    ensures TableOk(rows', logs', maxAttempts, now) && TableMoves(rows, logs, rows', logs')
  {
    forall i, j | 0 <= i < |rows'| && 0 <= j < |rows'| && i != j
      ensures rows'[i].key != rows'[j].key
    {
      assert Moves(rows[i], logs[i], rows'[i], logs'[i]) && Moves(rows[j], logs[j], rows'[j], logs'[j]);
      assert rows[i].key != rows[j].key;
    }
  }

  lemma {:induction false} OneRow(rows: seq<Notification>, logs: seq<Log>, n: nat, row: Notification, log: Log,
                                  maxAttempts: int, clock: int, now: int)
    requires TableOk(rows, logs, maxAttempts, clock) && n < |rows| && clock <= now
    requires RowOk(row, log, maxAttempts, now) && Moves(rows[n], logs[n], row, log)
    ensures TableOk(rows[n := row], logs[n := log], maxAttempts, now)
    ensures TableMoves(rows, logs, rows[n := row], logs[n := log])
  {
    forall i | 0 <= i < |rows|
      ensures RowOk(rows[n := row][i], logs[n := log][i], maxAttempts, now)
      ensures Moves(rows[i], logs[i], rows[n := row][i], logs[n := log][i])
    {
      if i != n {
        TimePasses(rows[i], logs[i], maxAttempts, clock, now);
      }
    }
    RowByRow(rows, logs, rows[n := row], logs[n := log], maxAttempts, clock, now);
  }

  /** What a claim may pick: due rows that no other transaction has locked, no more than the limit. */
  ghost predicate Pick(rows: seq<Notification>, picked: seq<nat>, batch: int, now: int) {
    && |picked| <= Min(Max(batch, 1), 500)
    && (forall k :: 0 <= k < |picked| ==> picked[k] < |rows| && Due(rows[picked[k]], now))
    && (forall k, l :: 0 <= k < l < |picked| ==> picked[k] != picked[l])
  }

  // ------------------------------------------------------------------ the service

  class NotificationService {
    const maxAttempts: int
    var rows: seq<Notification>
    ghost var logs: seq<Log>
    ghost var clock: int

    ghost predicate Valid()
      reads this
    {
      TableOk(rows, logs, maxAttempts, clock)
    }

    constructor (maxAttempts: int)
      ensures Valid() && this.maxAttempts == maxAttempts && rows == []
    {
      this.maxAttempts := maxAttempts;
      rows, logs, clock := [], [], 0;
    }

    /** The row with a key, found before anything is inserted. */
    method FindKey(key: string) returns (found: Option<nat>)
      ensures found.Some? ==> found.value < |rows| && rows[found.value].key == key
      ensures found.None? ==> forall i :: 0 <= i < |rows| ==> rows[i].key != key
    {
      for i := 0 to |rows|
        invariant forall j :: 0 <= j < i ==> rows[j].key != key
      {
        if rows[i].key == key {
          return Some(i);
        }
      }
      found := None;
    }

    /** The same key gives the same row, and adds none. A row that comes too late is never sent. */
    method Enqueue(body: Body, now: int) returns (r: Result<nat, Error>)
      requires Valid() && clock <= now
      modifies this
      ensures Valid() && clock == now && TableMoves(old(rows), old(logs), rows, logs)
      ensures r.Err? <==>
                || (if body.template.customer then !body.contact else !body.recipients)
                || exists k :: k in body.template.required && k !in body.variables
      ensures r.Err? ==> r.error == ValidationFailed && rows == old(rows)
      ensures r.Ok? ==> r.value < |rows| && rows[r.value].key == body.key
      ensures r.Ok? && (exists i :: 0 <= i < |old(rows)| && old(rows)[i].key == body.key) ==> rows == old(rows)
      ensures r.Ok? && !(exists i :: 0 <= i < |old(rows)| && old(rows)[i].key == body.key) ==>
                var at := if body.scheduledFor.Some? then body.scheduledFor.value else now;
                && r.value == |old(rows)|
                && rows == old(rows) + [Notification(body.key, body.related, at,
                                                     if now <= at + 300_000_000 then Scheduled else Cancelled,
                                                     0, None, None)]
    {
      LaterStaysOk(now);
      clock := now;
      if Incomplete(body) {
        return Err(ValidationFailed);
      }
      var existing := FindKey(body.key);
      if existing.Some? {
        return Ok(existing.value);
      }
      r := Ok(|rows|);
      rows, logs := rows + [NewNotification(body, now)], logs + [Log(false, [], [])];
    }

    lemma {:induction false} LaterStaysOk(now: int)
      requires Valid() && clock <= now
      ensures TableOk(rows, logs, maxAttempts, now)
    {
      forall i | 0 <= i < |rows|
        ensures RowOk(rows[i], logs[i], maxAttempts, now)
      {
        TimePasses(rows[i], logs[i], maxAttempts, clock, now);
      }
    }

    method CancelRelated(related: string, now: int) returns (count: nat)
      requires Valid() && clock <= now
      modifies this
      ensures Valid() && clock == now && TableMoves(old(rows), old(logs), rows, logs)
      ensures |rows| == |old(rows)|
      ensures forall i :: 0 <= i < |rows| ==>
                var was := old(rows)[i];
                rows[i] == if was.related == Some(related) && was.status == Scheduled && now < was.scheduledFor
                           then was.(status := Cancelled) else was
      ensures count == |set i: nat | i < |rows| && rows[i] != old(rows)[i]|
    {
      count := 0;
      var after := [];
      ghost var hits: set<nat> := {};
      for i := 0 to |rows|
        invariant |after| == i && forall j :: 0 <= j < i ==> after[j] == CancelRow(rows[j], related, now)
        invariant hits == set j: nat | 0 <= j < i && Cancellable(rows[j], related, now)
        invariant count == |hits|
      {
        if Cancellable(rows[i], related, now) {
          hits := hits + {i};
          count := count + 1;
        }
        after := after + [CancelRow(rows[i], related, now)];
      }
      forall i | 0 <= i < |rows|
        ensures RowOk(after[i], logs[i], maxAttempts, now) && Moves(rows[i], logs[i], after[i], logs[i])
      {
        CancelStep(rows[i], logs[i], maxAttempts, clock, related, now);
      }
      RowByRow(rows, logs, after, logs, maxAttempts, clock, now);
      assert hits == set i: nat | i < |rows| && after[i] != rows[i];
      rows, clock := after, now;
    }

    /** Claiming takes the picked rows, all in one transaction, and no other. */
    method Claim(batch: int, picked: seq<nat>, now: int)
      requires Valid() && clock <= now && Pick(rows, picked, batch, now)
      modifies this
      ensures Valid() && clock == now && TableMoves(old(rows), old(logs), rows, logs)
      ensures |rows| == |old(rows)|
      ensures forall i :: 0 <= i < |rows| ==>
                && rows[i] == (if i in picked
                               then old(rows)[i].(status := Sending, attempts := old(rows)[i].attempts + 1)
                               else old(rows)[i])
                && logs[i] == (if i in picked then ClaimLog(old(logs)[i], now) else old(logs)[i])
    {
      var after := rows;
      ghost var afterLogs := logs;
      for k := 0 to |picked|
        invariant |after| == |afterLogs| == |rows|
        invariant forall i :: 0 <= i < |rows| ==>
                    && after[i] == (if i in picked[..k] then ClaimRow(rows[i]) else rows[i])
                    && afterLogs[i] == (if i in picked[..k] then ClaimLog(logs[i], now) else logs[i])
      {
        assert picked[..k + 1] == picked[..k] + [picked[k]];
        assert picked[k] !in picked[..k];
        after := after[picked[k] := ClaimRow(after[picked[k]])];
        afterLogs := afterLogs[picked[k] := ClaimLog(logs[picked[k]], now)];
      }
      assert picked[..|picked|] == picked;
      forall i | 0 <= i < |rows|
        ensures RowOk(after[i], afterLogs[i], maxAttempts, now) && Moves(rows[i], logs[i], after[i], afterLogs[i])
      {
        if i in picked {
          ClaimStep(rows[i], logs[i], maxAttempts, clock, now);
        } else {
          TimePasses(rows[i], logs[i], maxAttempts, clock, now);
        }
      }
      RowByRow(rows, logs, after, afterLogs, maxAttempts, clock, now);
      rows, logs, clock := after, afterLogs, now;
    }

    /** A worker delivers a row it has claimed; a row that is not being sent is left alone. */
    method Deliver(n: nat, outcome: Outcome, now: int)
      requires Valid() && clock <= now
      requires n < |rows| && rows[n].status.Sending? ==> logs[n].held
      modifies this
      ensures Valid() && clock == now && TableMoves(old(rows), old(logs), rows, logs)
      ensures if n < |old(rows)| && old(rows)[n].status.Sending? then
                && rows == old(rows)[n := rows[n]]
                && IsDelivered(rows[n], old(rows)[n], outcome, maxAttempts, now)
                && logs == old(logs)[n := DeliverLog(old(logs)[n], outcome)]
              else rows == old(rows) && logs == old(logs)
    {
      if |rows| <= n || !rows[n].status.Sending? {
        LaterStaysOk(now);
        clock := now;
        return;
      }
      DeliverStep(rows[n], logs[n], maxAttempts, clock, outcome, now);
      OneRow(rows, logs, n, DeliverRow(rows[n], outcome, maxAttempts, now), DeliverLog(logs[n], outcome),
             maxAttempts, clock, now);
      rows := rows[n := DeliverRow(rows[n], outcome, maxAttempts, now)];
      logs := logs[n := DeliverLog(logs[n], outcome)];
      clock := now;
    }

    /** A worker ends, or gives up its batch, before it delivers a row it has claimed. */
    ghost method Lose(n: nat)
      requires Valid() && n < |rows| && rows[n].status.Sending? && logs[n].held
      modifies this
      ensures Valid() && rows == old(rows) && logs == old(logs)[n := old(logs)[n].(held := false)]
      ensures TableMoves(old(rows), old(logs), rows, logs)
    {
      OneRow(rows, logs, n, rows[n], logs[n].(held := false), maxAttempts, clock, clock);
      assert rows[n := rows[n]] == rows;
      logs := logs[n := logs[n].(held := false)];
    }

    method Receive(id: string, status: Status)
      requires Valid() && (status.Sent? || status.Delivered? || status.Read? || status.Failed?)
      modifies this
      ensures Valid() && TableMoves(old(rows), old(logs), rows, logs) && logs == old(logs)
      ensures |rows| == |old(rows)|
      ensures forall i :: 0 <= i < |rows| ==>
                rows[i] == if old(rows)[i].providerId == Some(id) then old(rows)[i].(status := status)
                           else old(rows)[i]
    {
      var after := [];
      for i := 0 to |rows|
        invariant |after| == i && forall j :: 0 <= j < i ==> after[j] == ReceiptRow(rows[j], id, status)
      {
        after := after + [ReceiptRow(rows[i], id, status)];
      }
      forall i | 0 <= i < |rows|
        ensures RowOk(after[i], logs[i], maxAttempts, clock) && Moves(rows[i], logs[i], after[i], logs[i])
      {
        ReceiptStep(rows[i], logs[i], maxAttempts, clock, id, status);
      }
      RowByRow(rows, logs, after, logs, maxAttempts, clock, clock);
      rows := after;
    }
  }

  /** A claimed row whose worker is gone is never due again, however much time passes: no claim can pick
      it and nothing moves it. */
  lemma {:induction false} LostClaimsAreStuck(rows: seq<Notification>, logs: seq<Log>, rows': seq<Notification>,
                                              logs': seq<Log>, n: nat, picked: seq<nat>, batch: int, now: int)
    requires |rows| == |logs| && |rows'| == |logs'| && TableMoves(rows, logs, rows', logs')
    requires n < |rows| && rows[n].status.Sending? && !logs[n].held
    ensures rows'[n] == rows[n] && logs'[n] == logs[n]
    ensures Pick(rows', picked, batch, now) ==> n !in picked
  {
    assert Moves(rows[n], logs[n], rows'[n], logs'[n]);
  }

  function Receipts(row: Notification, id: string, statuses: seq<Status>): Notification {
    if statuses == [] then row
    else ReceiptRow(Receipts(row, id, statuses[..|statuses| - 1]), id, statuses[|statuses| - 1])
  }

  /** Receipts are taken as they come: whatever came before, the last one counts, so a late one can take a
      message that was read back to sent. */
  lemma {:induction false} LastReceiptCounts(row: Notification, id: string, statuses: seq<Status>)
    requires row.providerId == Some(id) && statuses != []
    ensures Receipts(row, id, statuses) == row.(status := statuses[|statuses| - 1])
  {
    if |statuses| > 1 {
      LastReceiptCounts(row, id, statuses[..|statuses| - 1]);
    }
  }

  datatype Moment = Moment(rows: seq<Notification>, logs: seq<Log>)

  /** Over every run a row at rest stays as it is: a cancelled notification is never sent later, and
      neither is one whose worker was lost. After a success the sender is not called again. */
  lemma {:induction false} RestIsForever(run: seq<Moment>, a: nat, b: nat, n: nat)
    requires forall k :: 0 <= k < |run| ==> |run[k].rows| == |run[k].logs|
    requires forall k :: 0 < k < |run| ==> TableMoves(run[k - 1].rows, run[k - 1].logs, run[k].rows, run[k].logs)
    requires a <= b < |run| && n < |run[a].rows|
    ensures n < |run[b].rows| && run[b].rows[n].key == run[a].rows[n].key
    ensures AtRest(run[a].rows[n], run[a].logs[n]) ==>
              run[b].rows[n] == run[a].rows[n] && run[b].logs[n] == run[a].logs[n]
    ensures run[a].rows[n].providerId.Some? ==>
              run[b].rows[n].providerId == run[a].rows[n].providerId && run[b].logs[n] == run[a].logs[n]
  {
    if a < b {
      RestIsForever(run, a, b - 1, n);
      assert TableMoves(run[b - 1].rows, run[b - 1].logs, run[b].rows, run[b].logs);
      assert Moves(run[b - 1].rows[n], run[b - 1].logs[n], run[b].rows[n], run[b].logs[n]);
    }
  }
}
