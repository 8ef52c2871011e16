/** Incidents: one open row per correlation key, risk that only goes up, a fixed life cycle and a
    confirmation that needs evidence. */
module Incidents {
  import opened Common
  import opened Risk

  datatype Status = New | Acknowledged | Investigating | Contained | Remediated | Closed | FalsePositive

  datatype Evidence = Evidence(checklist: seq<string>, refs: seq<string>, justification: string)

  datatype Incident = Incident(correlation: string, category: string, level: Level, score: int, confirmed: bool,
                               status: Status, eventCount: int, firstSeen: int, lastSeen: int,
                               signals: seq<Signal>, success: bool, acknowledgedAt: Option<int>,
                               containedAt: Option<int>, resolvedAt: Option<int>, confirmedBy: Option<string>,
                               confirmedAt: Option<int>, evidence: Option<Evidence>)

  datatype Candidate = Candidate(correlation: string, category: string, signals: seq<Signal>, events: nat,
                                 firstSeen: Option<int>, lastSeen: Option<int>, succeeded: bool, blocked: nat)

  /** The logarithm, and how the signals of an incident are summed up when they are stored. */
  datatype Env = Env(log10: int -> real, summarize: seq<Signal> -> seq<Signal>)

  // ------------------------------------------------------------------ one row

  predicate Open(i: Incident) {
    !i.status.Closed? && !i.status.FalsePositive?
  }

  predicate MayMove(from: Status, to: Status) {
    match from
    case New => to.Acknowledged? || to.FalsePositive?
    case Acknowledged => to.Investigating? || to.FalsePositive?
    case Investigating => to.Contained? || to.Remediated? || to.FalsePositive?
    case Contained => to.Remediated? || to.Investigating?
    case Remediated => to.Closed? || to.Investigating?
    case Closed => to.Investigating?
    case FalsePositive => to.Investigating?
  }

  function BlockedRatio(c: Candidate): real {
    if c.events == 0 then 0.0 else c.blocked as real / c.events as real
  }

  function Opened(env: Env, c: Candidate, criticality: int, now: int): Incident {
    var score := Score(env.log10, c.signals, criticality, c.events, c.succeeded, BlockedRatio(c));
    Incident(c.correlation, c.category, Classify(score), score, false, New, c.events,
             if c.firstSeen.Some? then c.firstSeen.value else now,
             if c.lastSeen.Some? then c.lastSeen.value else now,
             env.summarize(c.signals), c.succeeded, None, None, None, None, None, None)
  }

  /** An open incident that is seen again. Its risk never goes down by itself. */
  function Seen(env: Env, i: Incident, c: Candidate, criticality: int, now: int): Incident {
    var signals := i.signals + c.signals;
    var count := i.eventCount + c.events;
    var latest := Score(env.log10, signals, criticality, count, c.succeeded || i.success, BlockedRatio(c));
    var lower := Classify(latest).Rank() < i.level.Rank();
    var level := if lower then i.level else Classify(latest);
    var score := if lower then Max(latest, i.score) else latest;
    i.(level := level, score := Max(score, i.score), eventCount := count,
       lastSeen := Max(i.lastSeen, if c.lastSeen.Some? then c.lastSeen.value else now),
       signals := env.summarize(signals), success := i.success || c.succeeded)
  }

  function Moved(i: Incident, target: Status, now: int): Incident {
    var resolves := target.Remediated? || target.Closed? || target.FalsePositive?;
    var acknowledges := (target.Acknowledged? || resolves) && i.acknowledgedAt.None?;
    i.(status := target,
       acknowledgedAt := if acknowledges then Some(now) else i.acknowledgedAt,
       containedAt := if target.Contained? then Some(now) else i.containedAt,
       resolvedAt := if resolves && i.resolvedAt.None? then Some(now) else i.resolvedAt)
  }

  function Checklist(category: string): seq<string> {
    ["Analyst reviewed raw evidence (not only FATMA's summary)",
     "Impact on confidentiality, integrity or availability demonstrated"] + Specific(category)
  }

  /** What a confirmation of this kind of incident needs besides. */
  function Specific(category: string): seq<string> {
    match category
    case "sql_injection" => ["Database query logs or data access confirming successful injection"]
    case "malware" => ["Sample verdict corroborated by a second engine or manual analysis",
                       "Presence on a production system confirmed"]
    case "credential_attack" => ["At least one successful login attributable to the attacker"]
    case "data_exfiltration" => ["Data transfer volume and destination verified"]
    case "ddos" => ["Service degradation observed in availability monitoring"]
    case _ => ["Indicator corroborated by an independent source"]
  }

  predicate Sufficient(category: string, e: Evidence) {
    && (forall c :: c in Checklist(category) ==> c in e.checklist)
    && e.refs != [] && |e.justification| >= 30
  }

  function Confirmed(i: Incident, user: string, e: Evidence, now: int): Incident {
    i.(confirmed := true, confirmedBy := Some(user), confirmedAt := Some(now), evidence := Some(e))
  }

  // ------------------------------------------------------------------ what holds of a row

  predicate RowOk(i: Incident) {
    && i.level == Classify(i.score) && 0 <= i.score <= 100
    && (!i.status.New? ==> i.acknowledgedAt.Some?)
    && (i.status.Remediated? || i.status.Closed? || i.status.FalsePositive? ==> i.resolvedAt.Some?)
    && (i.status.Contained? ==> i.containedAt.Some?)
    && (i.confirmed <==> i.confirmedBy.Some?) && (i.confirmed <==> i.evidence.Some?)
    && (i.confirmed ==> Sufficient(i.category, i.evidence.value))
  }

  /** How a row may change: upwards, along the life cycle, and keeping every first time stamp and a
      confirmation with its evidence. */
  predicate Evolved(was: Incident, i: Incident) {
    && i.correlation == was.correlation && i.category == was.category
    && was.score <= i.score && was.level.Rank() <= i.level.Rank()
    && was.eventCount <= i.eventCount && was.lastSeen <= i.lastSeen && i.firstSeen == was.firstSeen
    && (was.success ==> i.success)
    && (i.status == was.status || MayMove(was.status, i.status))
    && (was.acknowledgedAt.Some? ==> i.acknowledgedAt == was.acknowledgedAt)
    && (was.resolvedAt.Some? ==> i.resolvedAt == was.resolvedAt)
    && (was.confirmed ==> i.confirmed && i.confirmedBy == was.confirmedBy && i.confirmedAt == was.confirmedAt
                          && i.evidence == was.evidence)
    && (!Open(was) ==> i.score == was.score && i.eventCount == was.eventCount && i.signals == was.signals)
  }

  /** The unique index: two open rows have different correlation keys. */
  predicate Apart(a: Incident, b: Incident) {
    Open(a) && Open(b) ==> a.correlation != b.correlation
  }

  ghost predicate TableOk(rows: seq<Incident>) {
    && (forall n :: 0 <= n < |rows| ==> RowOk(rows[n]))
    && (forall n, m :: 0 <= n < |rows| && 0 <= m < |rows| && n != m ==> Apart(rows[n], rows[m]))
  }

  ghost predicate Evolves(was: seq<Incident>, rows: seq<Incident>) {
    |was| <= |rows| && forall n :: 0 <= n < |was| ==> Evolved(was[n], rows[n])
  }

  /** What a candidate opens: a new incident with the score of its own signals and events. */
  lemma {:induction false} OpenedMeans(env: Env, c: Candidate, criticality: int, now: int)
    ensures var i := Opened(env, c, criticality, now);
            && i.correlation == c.correlation && i.category == c.category && i.status == New
            && i.score == Score(env.log10, c.signals, criticality, c.events, c.succeeded,
                                if c.events == 0 then 0.0 else c.blocked as real / c.events as real)
            && i.level == Classify(i.score) && i.eventCount == c.events
            && i.firstSeen == (if c.firstSeen == None then now else c.firstSeen.value)
            && i.lastSeen == (if c.lastSeen == None then now else c.lastSeen.value)
            && i.signals == env.summarize(c.signals) && i.success == c.succeeded && !i.confirmed
            && i.acknowledgedAt == None && i.containedAt == None && i.resolvedAt == None
            && i.confirmedBy == None && i.confirmedAt == None && i.evidence == None
  {
  }

  /** The ratchet is a maximum: an incident that is seen again has the higher of its old score and the score
      of all signals and events together, and the level of that. */
  lemma {:induction false} SeenMeans(env: Env, i: Incident, c: Candidate, criticality: int, now: int)
    requires RowOk(i)
    ensures var seen := Seen(env, i, c, criticality, now);
            var score := Max(i.score, Score(env.log10, i.signals + c.signals, criticality, i.eventCount + c.events,
                                            i.success || c.succeeded,
                                            if c.events == 0 then 0.0 else c.blocked as real / c.events as real));
            seen == i.(score := score, level := Classify(score), eventCount := i.eventCount + c.events,
                       lastSeen := Max(i.lastSeen, if c.lastSeen == None then now else c.lastSeen.value),
                       signals := env.summarize(i.signals + c.signals), success := i.success || c.succeeded)
  {
  }

  /** The moves of the life cycle. */
  const LIFE_CYCLE: set<(Status, Status)> :=
    {(New, Acknowledged), (New, FalsePositive), (Acknowledged, Investigating), (Acknowledged, FalsePositive),
     (Investigating, Contained), (Investigating, Remediated), (Investigating, FalsePositive),
     (Contained, Remediated), (Contained, Investigating), (Remediated, Closed), (Remediated, Investigating),
     (Closed, Investigating), (FalsePositive, Investigating)}

  lemma {:induction false} MovesAre(from: Status, to: Status)
    ensures MayMove(from, to) <==> (from, to) in LIFE_CYCLE
  {
  }

  /** The time stamps of a move: the first acknowledgement and the first resolution count, and the last
      containment; whatever resolves an incident acknowledges it too. */
  lemma {:induction false} MovedMeans(i: Incident, target: Status, now: int)
    ensures var m := Moved(i, target, now);
            && m == i.(status := target, acknowledgedAt := m.acknowledgedAt, containedAt := m.containedAt,
                       resolvedAt := m.resolvedAt)
            && m.acknowledgedAt == (if i.acknowledgedAt == None
                                       && target in {Acknowledged, Remediated, Closed, FalsePositive}
                                    then Some(now) else i.acknowledgedAt)
            && m.containedAt == (if target == Contained then Some(now) else i.containedAt)
            && m.resolvedAt == (if i.resolvedAt == None && target in {Remediated, Closed, FalsePositive}
                                then Some(now) else i.resolvedAt)
  {
  }

  /** Every checklist has the same two general points and at least one of its own. */
  lemma {:induction false} ChecklistsAreSpecific(category: string)
    ensures |Checklist(category)| >= 3
    ensures Checklist(category)[0] == Checklist("")[0] && Checklist(category)[1] == Checklist("")[1]
  {
  }

  lemma {:induction false} SeenAgain(env: Env, i: Incident, c: Candidate, criticality: int, now: int)
    requires RowOk(i) && Open(i)
    ensures RowOk(Seen(env, i, c, criticality, now)) && Evolved(i, Seen(env, i, c, criticality, now))
  {
  }

  lemma {:induction false} MovedOn(i: Incident, target: Status, now: int)
    requires RowOk(i) && MayMove(i.status, target)
    ensures RowOk(Moved(i, target, now)) && Evolved(i, Moved(i, target, now))
  {
  }

  // ------------------------------------------------------------------ the table

  lemma {:induction false} PutKeepsTable(rows: seq<Incident>, n: nat, i: Incident)
    requires TableOk(rows) && n < |rows| && RowOk(i) && Evolved(rows[n], i)
    requires Open(i) && !Open(rows[n]) ==> NoOpen(rows, i.correlation)
    ensures TableOk(rows[n := i]) && Evolves(rows, rows[n := i])
  {
    var after := rows[n := i];
    forall a, b | 0 <= a < |after| && 0 <= b < |after| && a != b
      ensures Apart(after[a], after[b])
    {
      assert Apart(rows[a], rows[b]);
    }
  }

  ghost predicate NoOpen(rows: seq<Incident>, correlation: string) {
    forall n :: 0 <= n < |rows| ==> Open(rows[n]) ==> rows[n].correlation != correlation
  }

  lemma {:induction false} AddKeepsTable(rows: seq<Incident>, i: Incident)
    requires TableOk(rows) && RowOk(i) && NoOpen(rows, i.correlation)
    ensures TableOk(rows + [i]) && Evolves(rows, rows + [i])
  {
    var after := rows + [i];
    forall a, b | 0 <= a < |after| && 0 <= b < |after| && a != b
      ensures Apart(after[a], after[b])
    {
      if a < |rows| && b < |rows| {
        assert Apart(rows[a], rows[b]);
      }
    }
  }

  /** What never changes over any number of steps. */
  predicate Kept(was: Incident, i: Incident) {
    && i.correlation == was.correlation && was.score <= i.score && was.level.Rank() <= i.level.Rank()
    && was.eventCount <= i.eventCount && (!was.status.New? ==> !i.status.New?)
    && (was.acknowledgedAt.Some? ==> i.acknowledgedAt == was.acknowledgedAt)
    && (was.resolvedAt.Some? ==> i.resolvedAt == was.resolvedAt)
    && (was.confirmed ==> i.confirmed && i.confirmedBy == was.confirmedBy && i.evidence == was.evidence)
  }

  /** Over every run the risk only rises, and a confirmation is never undone nor its evidence replaced. */
  lemma {:induction false} RiskOnlyRises(run: seq<seq<Incident>>, a: nat, b: nat, n: nat)
    requires forall k :: 0 < k < |run| ==> Evolves(run[k - 1], run[k])
    requires a <= b < |run| && n < |run[a]|
    ensures n < |run[b]| && Kept(run[a][n], run[b][n])
  {
    if a < b {
      RiskOnlyRises(run, a, b - 1, n);
      assert Evolves(run[b - 1], run[b]);
      assert Evolved(run[b - 1][n], run[b][n]);
    }
  }

  // ------------------------------------------------------------------ the engine

  class IncidentEngine {
    const env: Env
    var rows: seq<Incident>

    ghost predicate Valid()
      reads this
    {
      TableOk(rows)
    }

    constructor (env: Env)
      ensures Valid() && this.env == env && rows == []
    {
      this.env := env;
      rows := [];
    }

    method FindOpen(correlation: string) returns (n: Option<nat>)
      requires Valid()
      ensures n.Some? ==> n.value < |rows| && Open(rows[n.value]) && rows[n.value].correlation == correlation
      ensures n.None? ==> NoOpen(rows, correlation)
    {
      for k := 0 to |rows|
        invariant forall m :: 0 <= m < k ==> Open(rows[m]) ==> rows[m].correlation != correlation
      {
        if Open(rows[k]) && rows[k].correlation == correlation {
          return Some(k);
        }
      }
      n := None;
    }

    /** A candidate is added to the open incident of its key, and opens one only if there is none. */
    method Upsert(c: Candidate, criticality: int, now: int)
      returns (n: nat, created: bool, previous: Option<Level>)
      requires Valid()
      modifies this
      ensures Valid() && Evolves(old(rows), rows)
      ensures created <==> forall m :: 0 <= m < |old(rows)| && old(rows)[m].correlation == c.correlation ==>
                                         old(rows)[m].status in {Closed, FalsePositive}
      ensures created ==> n == |old(rows)| && rows == old(rows) + [Opened(env, c, criticality, now)] && previous.None?
      ensures !created ==>
                && n < |old(rows)| && old(rows)[n].correlation == c.correlation
                && old(rows)[n].status !in {Closed, FalsePositive}
                && rows == old(rows)[n := Seen(env, old(rows)[n], c, criticality, now)]
                && previous == Some(old(rows)[n].level)
    {
      var found := FindOpen(c.correlation);
      if found.None? {
        n, created, previous := |rows|, true, None;
        AddKeepsTable(rows, Opened(env, c, criticality, now));
        rows := rows + [Opened(env, c, criticality, now)];
      } else {
        n, created, previous := found.value, false, Some(rows[found.value].level);
        SeenAgain(env, rows[n], c, criticality, now);
        PutKeepsTable(rows, n, Seen(env, rows[n], c, criticality, now));
        rows := rows[n := Seen(env, rows[n], c, criticality, now)];
      }
    }

    /** Only the moves of the life cycle. Reopening fails on the unique index if another incident of the
        same key is open by then, and leaves the row as it was. */
    method Transition(n: nat, target: Status, now: int) returns (r: Result<Incident, Error>)
      requires Valid()
      modifies this
      ensures Valid() && Evolves(old(rows), rows)
      ensures |old(rows)| <= n ==> r == Err(NotFound)
      ensures n < |old(rows)| ==>
                var i := old(rows)[n];
                (r.Ok? <==> && (i.status, target) in LIFE_CYCLE
                            && (i.status in {Closed, FalsePositive} ==>
                                  forall m :: 0 <= m < |old(rows)| && old(rows)[m].correlation == i.correlation ==>
                                    old(rows)[m].status in {Closed, FalsePositive}))
                && (r.Ok? ==> r.value == Moved(i, target, now) && rows == old(rows)[n := r.value])
                && (r.Err? ==> r.error == Conflict)
      ensures r.Err? ==> rows == old(rows)
    {
      if |rows| <= n {
        return Err(NotFound);
      }
      var i := rows[n];
      MovesAre(i.status, target);
      if !MayMove(i.status, target) {
        return Err(Conflict);
      }
      MovedOn(i, target, now);
      if !Open(i) {
        var other := FindOpen(i.correlation);
        if other.Some? {
          return Err(Conflict);
        }
      }
      PutKeepsTable(rows, n, Moved(i, target, now));
      rows := rows[n := Moved(i, target, now)];
      r := Ok(Moved(i, target, now));
    }

    method Confirm(n: nat, user: string, e: Evidence, now: int) returns (r: Result<Incident, Error>)
      requires Valid()
      modifies this
      ensures Valid() && Evolves(old(rows), rows)
      ensures |old(rows)| <= n ==> r == Err(NotFound)
      ensures n < |old(rows)| ==>
                var i := old(rows)[n];
                r == if i.confirmed then Err(Conflict)
                     else if e.refs == [] || |e.justification| < 30
                             || exists c :: c in Checklist(i.category) && c !in e.checklist
                     then Err(ValidationFailed)
                     else Ok(i.(confirmed := true, confirmedBy := Some(user), confirmedAt := Some(now),
                                evidence := Some(e)))
      ensures r.Ok? ==> rows == old(rows)[n := r.value]
      ensures r.Err? ==> rows == old(rows)
    {
      if |rows| <= n {
        return Err(NotFound);
      }
      var i := rows[n];
      if i.confirmed {
        return Err(Conflict);
      }
      if !Sufficient(i.category, e) {
        return Err(ValidationFailed);
      }
      PutKeepsTable(rows, n, Confirmed(i, user, e, now));
      rows := rows[n := Confirmed(i, user, e, now)];
      r := Ok(Confirmed(i, user, e, now));
    }
  }

  /** A closed incident of a key that is seen again stays closed: the candidate opens another row, and
      as long as that one is open the old one cannot be reopened. */
  method CloseSeeReopen(engine: IncidentEngine, n: nat, c: Candidate, criticality: int, now: int)
    returns (r: Result<Incident, Error>)
    requires engine.Valid() && n < |engine.rows| && engine.rows[n].status.Closed?
    requires c.correlation == engine.rows[n].correlation
    modifies engine
    ensures r == Err(Conflict)
    ensures engine.Valid() && n < |engine.rows| && engine.rows[n] == old(engine.rows)[n]
  {
    ghost var was := engine.rows[n];
    var m, created, previous := engine.Upsert(c, criticality, now);
    assert engine.rows[n] == was && !Open(was);
    assert Open(engine.rows[m]) && engine.rows[m].correlation == c.correlation;
    r := engine.Transition(n, Investigating, now);
  }

  lemma {:induction false} CountAfterSeen(env: Env, i: Incident, c: Candidate, criticality: int, now: int)
    ensures Seen(env, i, c, criticality, now).eventCount == i.eventCount + c.events
  {
  }

  function SeenTimes(env: Env, i: Incident, c: Candidate, criticality: int, times: seq<int>): Incident {
    if times == [] then i
    else Seen(env, SeenTimes(env, i, c, criticality, times[..|times| - 1]), c, criticality, times[|times| - 1])
  }

  /** Events are counted as often as they are processed: the same candidate n times adds its events n
      times. */
  lemma {:induction false} EventsAreCountedAgain(env: Env, i: Incident, c: Candidate, criticality: int, times: seq<int>)
    ensures SeenTimes(env, i, c, criticality, times).eventCount == i.eventCount + |times| * c.events
  {
    if times != [] {
      var n, e := |times| - 1, c.events;
      EventsAreCountedAgain(env, i, c, criticality, times[..n]);
      CountAfterSeen(env, SeenTimes(env, i, c, criticality, times[..n]), c, criticality, times[n]);
      assert (n + 1) * e == n * e + e;
    }
  }

  /** If the stored score is that of the stored signals and none of the new events was blocked, the new
      score is that of all signals and events together: the ratchet then changes nothing. */
  lemma {:induction false} KeptSignalsKeepTheScore(env: Env, i: Incident, c: Candidate, criticality: int, now: int)
    requires IsLogarithm(env.log10) && RowOk(i) && Open(i)
    requires c.blocked == 0
    requires i.score == Score(env.log10, i.signals, criticality, i.eventCount, i.success, 0.0)
    ensures Seen(env, i, c, criticality, now).score
         == Score(env.log10, i.signals + c.signals, criticality, i.eventCount + c.events, c.succeeded || i.success,
                  BlockedRatio(c))
  {
    ScoreIsMonotone(env.log10, i.signals, i.signals + c.signals, criticality, criticality, i.eventCount,
                    i.eventCount + c.events, i.success, c.succeeded || i.success, 0.0, BlockedRatio(c));
  }
}
