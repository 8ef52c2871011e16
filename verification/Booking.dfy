/** Booking, cancelling and rescheduling appointments from signed slot offers.
    Each method is one transaction under the calendar's advisory lock; an error leaves the table as
    it was. The external calendar's answers arrive as parameters (`Provider`). */
module Booking {
  import opened Common
  import opened Slots

  datatype Status = Booked | Cancelled | Rescheduled | Completed | NoShow | BookingFailed

  /** `made` numbers the rows in order of creation; `gap` is the buffer its booking was checked with. */
  datatype Appointment = Appointment(
    typeId: nat, contact: nat, conversation: Option<nat>, calendar: string, starts: int, ends: int,
    status: Status, key: string, rescheduledFrom: Option<nat>, made: nat, gap: nat)

  type Table = map<nat, Appointment>

  datatype AppointmentType = AppointmentType(active: bool, calendar: string, durationMinutes: nat, bufferMinutes: nat)

  /** What a genuine slot token carries; `exp` is in seconds. */
  datatype Claims = Claims(tenant: string, typeId: nat, calendar: string, starts: int, ends: int,
                           conversation: Option<nat>, exp: int)

  /** A token either verifies under the slot key, giving its claims, or does not. */
  datatype Token = Genuine(claims: Claims) | Forged

  datatype Request = Request(token: Token, contact: nat, conversation: Option<nat>, key: string)

  /** The external calendar during one transaction: its busy times, and whether its writes succeed. */
  datatype Provider = Provider(busy: set<Slot>, createOk: bool, cancelOk: bool)

  const LOCAL: Provider := Provider({}, true, true)

  function Seconds(instant: int): int {
    instant / 1_000_000
  }

  predicate BookedOn(a: Appointment, calendar: string) {
    a.status == Booked && a.calendar == calendar
  }

  /** The rows `_db_busy` finds for a window. */
  function BusyRows(rows: Table, calendar: string, window: Slot): set<nat> {
    set id | id in rows && BookedOn(rows[id], calendar) && rows[id].starts < window.end && rows[id].ends > window.start
  }

  /** The SQL exclusion constraint: booked ranges `[starts, ends)` of one calendar do not overlap. */
  predicate ExclusionHolds(rows: Table) {
    forall i, j :: i in rows && j in rows && i != j && BookedOn(rows[i], rows[j].calendar) && rows[j].status == Booked
      ==> !Overlaps(Slot(rows[i].starts, rows[i].ends), Slot(rows[j].starts, rows[j].ends))
  }

  /** Two bookings are at least the later-made one's buffer apart. */
  predicate Apart(a: Appointment, b: Appointment) {
    (a.made < b.made && BookedOn(a, b.calendar) && b.status == Booked) ==>
      (a.ends + b.gap <= b.starts || b.ends + b.gap <= a.starts)
  }

  ghost predicate Separated(rows: Table) {
    && (forall i, j :: i in rows && j in rows ==> Apart(rows[i], rows[j]))
    && (forall i :: i in rows && rows[i].status == Booked ==> rows[i].starts < rows[i].ends)
  }

  ghost predicate KeysUnique(rows: Table) {
    && (forall i, j :: i in rows && j in rows && rows[i].key == rows[j].key ==> i == j)
    && (forall i, j :: i in rows && j in rows && rows[i].made == rows[j].made ==> i == j)
  }

  ghost predicate TableValid(rows: Table, next: nat) {
    && Separated(rows) && KeysUnique(rows)
    && (forall i :: i in rows ==> rows[i].made < next)
  }

  /** The buffers alone already give what the exclusion constraint demands, so it never fires. */
  lemma {:induction false} SeparatedImpliesExclusion(rows: Table)
    requires Separated(rows) && KeysUnique(rows)
    ensures ExclusionHolds(rows)
  {
    forall i, j | i in rows && j in rows && i != j && BookedOn(rows[i], rows[j].calendar) && rows[j].status == Booked
      ensures !Overlaps(Slot(rows[i].starts, rows[i].ends), Slot(rows[j].starts, rows[j].ends))
    {
      assert rows[i].made != rows[j].made;
      assert Apart(rows[i], rows[j]) && Apart(rows[j], rows[i]);
    }
  }

  // ------------------------------------------------------------------ one booking, as a value

  ghost predicate KeyTaken(rows: Table, key: string) {
    exists e :: e in rows && rows[e].key == key
  }

  ghost function KeyOwner(rows: Table, key: string): nat
    requires KeyTaken(rows, key)
  {
    var e :| e in rows && rows[e].key == key; e
  }

  /** Token checks in the order of `_verify_slot`. */
  function VerifySlot(token: Token, tenant: string, conversation: Option<nat>, now: int): Result<Claims, Error> {
    if token.Forged? || token.claims.tenant != tenant then Err(ValidationFailed)
    else if token.claims.exp < Seconds(now) then Err(Conflict)
    else if token.claims.conversation.Some? && conversation != token.claims.conversation then Err(ValidationFailed)
    else Ok(token.claims)
  }

  function NewAppointment(c: Claims, rq: Request, made: nat, gap: nat): Appointment {
    Appointment(c.typeId, rq.contact, rq.conversation, c.calendar, c.starts, c.ends, Booked, rq.key, None, made, gap)
  }

  function Gap(types: map<nat, AppointmentType>, c: Claims): nat
    requires c.typeId in types
  {
    types[c.typeId].bufferMinutes * MINUTE
  }

  /** A request whose key is new passes every check up to the insertion. */
  ghost predicate Acceptable(rows: Table, types: map<nat, AppointmentType>, tenant: string, rq: Request,
                             provider: Provider, now: int) {
    var v := VerifySlot(rq.token, tenant, rq.conversation, now);
    && v.Ok? && v.value.typeId in types && types[v.value.typeId].active
    && var window := Buffered(Slot(v.value.starts, v.value.ends), Gap(types, v.value));
    && provider.busy == {}
    && BusyRows(rows, v.value.calendar, window) == {}
    && v.value.starts < v.value.ends
    && provider.createOk
  }

  /** The offer itself is good: signed for this tenant, not expired, and not given out in another
      conversation. An offer expires after the second that its `exp` names. */
  predicate GoodOffer(token: Token, tenant: string, conversation: Option<nat>, now: int) {
    && token.Genuine? && token.claims.tenant == tenant && now < (token.claims.exp + 1) * 1_000_000
    && (token.claims.conversation.None? || token.claims.conversation == conversation)
  }

  /** The appointment type is offered, and nothing booked on the calendar, here or at the provider, comes
      nearer to the offered time than the buffer. */
  predicate FreeToBook(rows: Table, types: map<nat, AppointmentType>, c: Claims, provider: Provider) {
    && c.typeId in types && types[c.typeId].active && provider.busy == {} && c.starts < c.ends
    && forall a :: a in rows && rows[a].status == Booked && rows[a].calendar == c.calendar ==>
         var buffer := types[c.typeId].bufferMinutes * 60_000_000;
         rows[a].ends + buffer <= c.starts || c.ends + buffer <= rows[a].starts
  }

  /** Why an offer is not good: it has expired, or it is none of ours. */
  function OfferError(token: Token, tenant: string, now: int): Error {
    if token.Genuine? && token.claims.tenant == tenant && (token.claims.exp + 1) * 1_000_000 <= now then Conflict
    else ValidationFailed
  }

  lemma {:induction false} TokenMeans(token: Token, tenant: string, conversation: Option<nat>, now: int)
    ensures VerifySlot(token, tenant, conversation, now) ==
            if GoodOffer(token, tenant, conversation, now) then Ok(token.claims)
            else Err(OfferError(token, tenant, now))
  {
  }

  /** What a new booking takes: a good offer for a time that is free, and a calendar that answers. */
  lemma {:induction false} AcceptableMeans(rows: Table, types: map<nat, AppointmentType>, tenant: string, rq: Request,
                                           provider: Provider, now: int)
    ensures Acceptable(rows, types, tenant, rq, provider, now) <==>
              GoodOffer(rq.token, tenant, rq.conversation, now) && FreeToBook(rows, types, rq.token.claims, provider)
              && provider.createOk
  {
    TokenMeans(rq.token, tenant, rq.conversation, now);
    if rq.token.Genuine? && rq.token.claims.typeId in types && rq.token.claims.starts < rq.token.claims.ends {
      NobodyNear(rows, rq.token.claims, Gap(types, rq.token.claims));
    }
  }

  lemma {:induction false} NobodyNear(rows: Table, c: Claims, buffer: int)
    ensures BusyRows(rows, c.calendar, Buffered(Slot(c.starts, c.ends), buffer)) == {} <==>
              forall a :: a in rows && rows[a].status == Booked && rows[a].calendar == c.calendar ==>
                rows[a].ends + buffer <= c.starts || c.ends + buffer <= rows[a].starts
  {
    var near := BusyRows(rows, c.calendar, Buffered(Slot(c.starts, c.ends), buffer));
    forall a | a in rows && rows[a].status == Booked && rows[a].calendar == c.calendar
      ensures a in near <==> !(rows[a].ends + buffer <= c.starts || c.ends + buffer <= rows[a].starts)
    {
    }
  }

  /** A booking that no row blocks keeps the table separated. */
  lemma {:induction false} BookKeepsTable(rows: Table, next: nat, id: nat, a: Appointment)
    requires TableValid(rows, next) && id !in rows && a.made == next && !KeyTaken(rows, a.key)
    requires a.starts < a.ends && a.status == Booked
    requires BusyRows(rows, a.calendar, Buffered(Slot(a.starts, a.ends), a.gap)) == {}
    ensures TableValid(rows[id := a], next + 1)
  {
    forall i | i in rows
      ensures Apart(rows[i], a)
    {
      if BookedOn(rows[i], a.calendar) {
        assert i !in BusyRows(rows, a.calendar, Buffered(Slot(a.starts, a.ends), a.gap));
      }
    }
  }

  /** Taking a row out of BOOKED, or changing its links, keeps the table valid. */
  lemma {:induction false} ReleaseKeepsTable(rows: Table, next: nat, id: nat, a: Appointment)
    requires TableValid(rows, next) && id in rows
    requires a == rows[id].(status := a.status, rescheduledFrom := a.rescheduledFrom)
    requires a.status == rows[id].status || a.status != Booked
    ensures TableValid(rows[id := a], next)
  {
    forall i, j | i in rows && j in rows
      ensures Apart(rows[id := a][i], rows[id := a][j])
    {
      assert Apart(rows[i], rows[j]);
    }
  }

  function BookedIds(rows: Table): set<nat> {
    set id | id in rows && rows[id].status == Booked
  }

  // ------------------------------------------------------------------ the service

  class SchedulingService {
    const tenant: string
    var types: map<nat, AppointmentType>
    var rows: Table
    var next: nat

    ghost predicate Valid()
      reads this
    {
      TableValid(rows, next)
    }

    constructor (tenant: string, types: map<nat, AppointmentType>)
      ensures Valid() && rows == map[] && this.types == types && this.tenant == tenant
    {
      this.tenant := tenant;
      this.types := types;
      rows, next := map[], 0;
    }

    /** `_db_busy`: the booked ranges of one calendar that meet a window, in no particular order. */
    method DbBusy(calendar: string, window: Slot) returns (busy: seq<Slot>)
      ensures IsBusyList(busy, rows, calendar, window)
    {
      busy := [];
      var todo := BusyRows(rows, calendar, window);
      while todo != {}
        invariant todo <= BusyRows(rows, calendar, window)
        invariant forall b :: b in busy <==>
                    exists id :: id in BusyRows(rows, calendar, window) - todo
                                  && b == Slot(rows[id].starts, rows[id].ends)
        decreases |todo|
      {
        var id :| id in todo;
        ghost var done := BusyRows(rows, calendar, window) - todo;
        var b0 := Slot(rows[id].starts, rows[id].ends);
        assert BusyRows(rows, calendar, window) - (todo - {id}) == done + {id};
        forall b | b == b0 || b in busy
          ensures exists i :: i in done + {id} && b == Slot(rows[i].starts, rows[i].ends)
        {
          if b == b0 {
            assert id in done + {id};
          } else {
            var i :| i in done && b == Slot(rows[i].starts, rows[i].ends);
            assert i in done + {id};
          }
        }
        busy := busy + [b0];
        todo := todo - {id};
      }
    }

    /** Signed offers for free grid slots; `q` is the question asked. With sorted working hours they are up
        to `maxSlots`, in order and on as many days as possible. */
    method Availability(typeId: nat, rules: Rules, now: int, earliest: Option<int>, days: int, maxSlots: nat,
                        conversation: Option<nat>, ttl: nat, providerBusy: seq<Slot>)
      returns (r: Result<seq<Token>, Error>, ghost q: Query, ghost slots: seq<Slot>)
      requires rules.slotStepMinutes >= 1
      requires typeId in types ==> types[typeId].durationMinutes >= 1
      ensures r.Ok? <==> typeId in types && types[typeId].active
      ensures r.Err? ==> r == Err(NotFound)
      ensures r.Ok? ==>
                && Proper(q) && q.rules == rules && q.now == now && q.days == days && q.earliest == earliest
                && q.duration == types[typeId].durationMinutes * 60_000_000
                && q.buffer == types[typeId].bufferMinutes * 60_000_000
                && exists mine :: IsBusyList(mine, rows, types[typeId].calendar, Slot(now, Horizon(q)))
                                  && q.busy == providerBusy + mine
      ensures r.Ok? && maxSlots >= 1 && (forall d :: d in rules.hours ==> WindowsSorted(rules.hours[d])) ==>
                |slots| == Min(maxSlots, |Candidates(q)|) && Ascending(slots)
                && |DaysOf(slots)| == Min(maxSlots, |DaysOf(Candidates(q))|)
      ensures r.Ok? ==>
                |r.value| == |slots|
                && forall k :: 0 <= k < |slots| ==>
                     slots[k] in Candidates(q)
                     && r.value[k] == Genuine(Claims(tenant, typeId, types[typeId].calendar, slots[k].start,
                                                     slots[k].end, conversation, now / 1_000_000 + ttl))
    {
      q, slots := Query(rules, 1, 0, now, earliest, days, []), [];
      if typeId !in types || !types[typeId].active {
        return Err(NotFound), q, slots;
      }
      var t := types[typeId];
      var window := Slot(now, now + Min(days, rules.maxDaysAhead) * DAY);
      var mine := DbBusy(t.calendar, window);
      var question := Query(rules, t.durationMinutes * MINUTE, t.bufferMinutes * MINUTE, now, earliest, days,
                            providerBusy + mine);
      var all := CandidateSlots(question);
      if forall d :: d in rules.hours ==> WindowsSorted(rules.hours[d]) {
        CandidatesAscend(question);
      }
      var chosen := Spread(all, maxSlots);
      var offers: seq<Token> := [];
      for k := 0 to |chosen|
        invariant |offers| == k
        invariant forall j :: 0 <= j < k ==>
                    offers[j] == Offer(tenant, typeId, t.calendar, conversation, chosen[j], now, ttl)
      {
        offers := offers + [Offer(tenant, typeId, t.calendar, conversation, chosen[k], now, ttl)];
      }
      q, slots := question, chosen;
      r := Ok(offers);
    }

    /** The second component says whether a row was created. */
    method Book(rq: Request, id: nat, provider: Provider, now: int) returns (r: Result<(nat, bool), Error>)
      requires Valid() && id !in rows
      modifies this`rows, this`next
      ensures Valid() && next >= old(next)
      ensures KeyTaken(old(rows), rq.key) ==>
                rows == old(rows) && next == old(next)
                && var owner := KeyOwner(old(rows), rq.key);
                   r == if rq.token.Genuine? && old(rows)[owner].starts == rq.token.claims.starts
                           && old(rows)[owner].contact == rq.contact
                        then Ok((owner, false)) else Err(Conflict)
      ensures !KeyTaken(old(rows), rq.key) ==>
                && (r.Ok? <==> GoodOffer(rq.token, tenant, rq.conversation, now)
                               && FreeToBook(old(rows), types, rq.token.claims, provider) && provider.createOk)
                && (r.Ok? ==>
                      && r == Ok((id, true)) && next == old(next) + 1
                      && var c := rq.token.claims;
                         rows == old(rows)[id := Appointment(
                           c.typeId, rq.contact, rq.conversation, c.calendar, c.starts, c.ends, Booked, rq.key, None,
                           old(next), types[c.typeId].bufferMinutes * 60_000_000)])
                && (r.Err? ==> rows == old(rows) && next == old(next))
      ensures !KeyTaken(old(rows), rq.key) && r.Err? ==>
                r.error == if !GoodOffer(rq.token, tenant, rq.conversation, now)
                           then OfferError(rq.token, tenant, now)
                           else if rq.token.claims.typeId !in types || !types[rq.token.claims.typeId].active
                           then NotFound
                           else if !FreeToBook(old(rows), types, rq.token.claims, provider) then Conflict
                           else UpstreamUnavailable
    {
      TokenMeans(rq.token, tenant, rq.conversation, now);
      if existing :| existing in rows && rows[existing].key == rq.key {
        if rq.token.Forged? || rows[existing].starts != rq.token.claims.starts || rows[existing].contact != rq.contact {
          return Err(Conflict);
        }
        return Ok((existing, false));
      }
      var verified := VerifySlot(rq.token, tenant, rq.conversation, now);
      if verified.Err? {
        return Err(verified.error);
      }
      var c := verified.value;
      if c.typeId !in types || !types[c.typeId].active {
        return Err(NotFound);
      }
      var buffer := Gap(types, c);
      var window := Buffered(Slot(c.starts, c.ends), buffer);
      NobodyNear(rows, c, buffer);
      if provider.busy != {} || BusyRows(rows, c.calendar, window) != {} {
        return Err(Conflict);
      }
      var a := NewAppointment(c, rq, next, buffer);
      if !(c.starts < c.ends) {
        return Err(Conflict);  // CHECK (ends_at > starts_at)
      }
      BookKeepsTable(rows, next, id, a);
      SeparatedImpliesExclusion(rows[id := a]);
      assert ExclusionHolds(rows[id := a]);  // the flush cannot violate the constraint
      if !provider.createOk {
        return Err(UpstreamUnavailable);
      }
      rows, next := rows[id := a], next + 1;
      r := Ok((id, true));
    }

    method Cancel(id: nat, provider: Provider) returns (r: Result<nat, Error>)
      requires Valid() && id in rows
      modifies this`rows
      ensures Valid()
      ensures r.Ok? <==> old(rows)[id].status == Booked && provider.cancelOk
      ensures r.Ok? ==> rows == old(rows)[id := old(rows)[id].(status := Cancelled)]
      ensures r.Err? ==> rows == old(rows)
                         && r.error == if old(rows)[id].status == Booked then UpstreamUnavailable else Conflict
    {
      if rows[id].status != Booked {
        return Err(Conflict);
      }
      if !provider.cancelOk {
        return Err(UpstreamUnavailable);
      }
      ReleaseKeepsTable(rows, next, id, rows[id].(status := Cancelled));
      rows := rows[id := rows[id].(status := Cancelled)];
      r := Ok(id);
    }

    /** `appt.status = RESCHEDULED` and the flush that follows it. */
    method MarkRescheduled(id: nat)
      requires Valid() && id in rows
      modifies this`rows
      ensures Valid() && rows == Marked(old(rows), id)
    {
      ReleaseKeepsTable(rows, next, id, rows[id].(status := Rescheduled));
      rows := rows[id := rows[id].(status := Rescheduled)];
    }

    method Link(id: nat, from: nat)
      requires Valid() && id in rows
      modifies this`rows
      ensures Valid() && rows == old(rows)[id := old(rows)[id].(rescheduledFrom := Some(from))]
    {
      var a := rows[id].(rescheduledFrom := Some(from));
      ReleaseKeepsTable(rows, next, id, a);
      rows := rows[id := a];
    }

    /** The body of `reschedule` up to the new booking; the caller undoes it on an error. */
    method Rebook(old_: nat, token: Token, key: string, conversation: Option<nat>, id: nat,
                  provider: Provider, now: int)
      returns (r: Result<nat, Error>)
      requires Valid() && old_ in rows && id !in rows && rows[old_].status == Booked
      modifies this`rows, this`next
      ensures r.Ok? <==> CanRebook(old(rows), types, tenant, old_, token, key, conversation, provider, now)
      ensures r.Ok? ==> Valid()
      ensures r.Ok? && KeyTaken(old(rows), key) ==>
                r.value == KeyOwner(old(rows), key) && rows == Marked(old(rows), old_) && next == old(next)
      ensures r.Ok? && !KeyTaken(old(rows), key) ==>
                && r.value == id && next == old(next) + 1
                && rows == Rebooked(old(rows), types, old_, token, key, conversation, id, old(next))
    {
      var rq := Moving(rows[old_], token, key, conversation);
      MarkingKeepsKeys(rows, old_, key);
      MarkedIsGone(rows, types, old_, token, provider);
      MarkRescheduled(old_);
      var booked := Book(rq, id, provider, now);
      r := if booked.Err? then Err(booked.error) else Ok(booked.value.0);
    }

    /** All or nothing. A key that was used before is accepted too if its appointment has the same start
        and contact: then nothing is booked, and that appointment is returned whatever its status. */
    method Reschedule(old_: nat, token: Token, key: string, conversation: Option<nat>, id: nat,
                      provider: Provider, now: int)
      returns (r: Result<nat, Error>)
      requires Valid() && old_ in rows && id !in rows
      modifies this`rows, this`next
      ensures Valid()
      ensures r.Ok? <==> && old(rows)[old_].status == Booked && provider.cancelOk
                         && CanRebook(old(rows), types, tenant, old_, token, key, conversation, provider, now)
      ensures r.Err? ==> rows == old(rows) && next == old(next)
      ensures old(rows)[old_].status != Booked ==> r == Err(Conflict)
      ensures r.Ok? && !KeyTaken(old(rows), key) ==> r.value == id && next == old(next) + 1
      ensures r.Ok? && !KeyTaken(old(rows), key) ==>
                rows == Moved(old(rows), types, old_, token, key, conversation, id, old(next))
      ensures r.Ok? && KeyTaken(old(rows), key) ==> r.value == KeyOwner(old(rows), key) && next == old(next)
      ensures r.Ok? && KeyTaken(old(rows), key) ==>
                rows == Relinked(old(rows), old_, r.value)
    {
      if rows[old_].status != Booked {
        return Err(Conflict);
      }
      var saved, savedNext := rows, next;
      var booked := Rebook(old_, token, key, conversation, id, provider, now);
      if booked.Err? || !provider.cancelOk {
        rows, next := saved, savedNext;  // the exception rolls the transaction back
        return Err(if booked.Err? then booked.error else UpstreamUnavailable);
      }
      Link(booked.value, old_);
      r := booked;
    }
  }

  // ------------------------------------------------------------------ rescheduling, as a value

  /** The booking that `reschedule` asks for. */
  function Moving(a: Appointment, token: Token, key: string, conversation: Option<nat>): Request {
    Request(token, a.contact, if conversation.Some? then conversation else a.conversation, key)
  }

  function Marked(rows: Table, old_: nat): Table
    requires old_ in rows
  {
    rows[old_ := rows[old_].(status := Rescheduled)]
  }

  /** The table after the booking inside `reschedule`. */
  function Rebooked(rows: Table, types: map<nat, AppointmentType>, old_: nat, token: Token, key: string,
                    conversation: Option<nat>, id: nat, made: nat): Table
    requires old_ in rows && token.Genuine? && token.claims.typeId in types
  {
    Marked(rows, old_)[id := NewAppointment(token.claims, Moving(rows[old_], token, key, conversation), made,
                                            Gap(types, token.claims))]
  }

  /** The table after a move to a new row. */
  function Moved(rows: Table, types: map<nat, AppointmentType>, old_: nat, token: Token, key: string,
                 conversation: Option<nat>, id: nat, made: nat): Table
    requires old_ in rows && token.Genuine? && token.claims.typeId in types
  {
    var booked := Rebooked(rows, types, old_, token, key, conversation, id, made);
    booked[id := booked[id].(rescheduledFrom := Some(old_))]
  }

  /** The table after a move that only found the row its key names. */
  function Relinked(rows: Table, old_: nat, owner: nat): Table
    requires old_ in rows && owner in rows
  {
    var marked := Marked(rows, old_);
    marked[owner := marked[owner].(rescheduledFrom := Some(old_))]
  }

  /** The booking inside `reschedule` succeeds, with the old row out of the way. */
  ghost predicate CanRebook(rows: Table, types: map<nat, AppointmentType>, tenant: string, old_: nat, token: Token,
                            key: string, conversation: Option<nat>, provider: Provider, now: int)
    requires old_ in rows
  {
    if KeyTaken(rows, key) then
      && token.Genuine? && rows[KeyOwner(rows, key)].starts == token.claims.starts
      && rows[KeyOwner(rows, key)].contact == rows[old_].contact
    else
      && GoodOffer(token, tenant, if conversation.Some? then conversation else rows[old_].conversation, now)
      && FreeToBook(rows - {old_}, types, token.claims, provider) && provider.createOk
  }

  /** The row that is moved does not stand in its own way. */
  lemma {:induction false} MarkedIsGone(rows: Table, types: map<nat, AppointmentType>, old_: nat, token: Token,
                                        provider: Provider)
    requires old_ in rows
    ensures token.Genuine? ==>
              (FreeToBook(Marked(rows, old_), types, token.claims, provider) <==>
               FreeToBook(rows - {old_}, types, token.claims, provider))
  {
    if token.Genuine? && token.claims.typeId in types {
      var c := token.claims;
      assert forall a :: a in rows && a != old_ ==> Marked(rows, old_)[a] == (rows - {old_})[a];
      assert forall a :: a in Marked(rows, old_) && Marked(rows, old_)[a].status == Booked ==> a in rows - {old_};
      assert forall a :: a in rows - {old_} ==> a in Marked(rows, old_);
    }
  }

  lemma {:induction false} MarkingKeepsKeys(rows: Table, old_: nat, key: string)
    requires KeysUnique(rows) && old_ in rows
    ensures KeyTaken(Marked(rows, old_), key) <==> KeyTaken(rows, key)
    ensures KeyTaken(rows, key) ==> KeyOwner(Marked(rows, old_), key) == KeyOwner(rows, key)
  {
    KeysUntouched(rows, Marked(rows, old_), key);
    if KeyTaken(rows, key) {
      var owner := KeyOwner(rows, key);
      OwnerIsUnique(Marked(rows, old_), owner);
    }
  }

  ghost predicate HasBooking(rows: Table, contact: nat) {
    exists a :: a in rows && rows[a].status == Booked && rows[a].contact == contact
  }

  /** Moving to a new row takes the old row out of BOOKED and puts exactly one other in, with the offered
      times and for the same contact. */
  lemma {:induction false} MovingSwapsOneRow(rows: Table, types: map<nat, AppointmentType>, old_: nat, token: Token,
                                             key: string, conversation: Option<nat>, id: nat, made: nat)
    requires old_ in rows && id !in rows && token.Genuine? && token.claims.typeId in types
    ensures var after := Moved(rows, types, old_, token, key, conversation, id, made);
            var c, was := token.claims, rows[old_];
            && after.Keys == rows.Keys + {id} && after[old_] == was.(status := Rescheduled)
            && after[id] == Appointment(
                 c.typeId, was.contact, if conversation.Some? then conversation else was.conversation, c.calendar,
                 c.starts, c.ends, Booked, key, Some(old_), made, types[c.typeId].bufferMinutes * 60_000_000)
            && (forall a :: a in rows && a != old_ ==> after[a] == rows[a])
            && BookedIds(after) == BookedIds(rows) - {old_} + {id} && HasBooking(after, was.contact)
  {
    var after := Moved(rows, types, old_, token, key, conversation, id, made);
    assert id in after && after[id].status == Booked && after[id].contact == rows[old_].contact;
  }

  /** With a used key nothing is put in: the appointment that is returned is a booked one exactly if it
      is another than the one being moved and was booked already, and the contact is left without any
      booking exactly if they had no other. */
  lemma {:induction false} UsedKeyBooksNothing(rows: Table, old_: nat, owner: nat)
    requires old_ in rows && owner in rows && rows[owner].contact == rows[old_].contact
    ensures var after := Relinked(rows, old_, owner);
            && after.Keys == rows.Keys
            && (forall a :: a in rows ==>
                  after[a] == rows[a].(
                    status := if a == old_ then Rescheduled else rows[a].status,
                    rescheduledFrom := if a == owner then Some(old_) else rows[a].rescheduledFrom))
            && BookedIds(after) == BookedIds(rows) - {old_}
            && (after[owner].status == Booked <==> owner != old_ && rows[owner].status == Booked)
            && (HasBooking(after, rows[old_].contact) <==>
                  exists a :: a in rows && a != old_ && rows[a].status == Booked
                               && rows[a].contact == rows[old_].contact)
  {
    var after := Relinked(rows, old_, owner);
    assert after.Keys == rows.Keys;
    assert forall a :: a in rows ==> after[a].contact == rows[a].contact;
    assert forall a :: a in rows ==> (after[a].status == Booked <==> a != old_ && rows[a].status == Booked);
    if HasBooking(after, rows[old_].contact) {
      var a :| a in after && after[a].status == Booked && after[a].contact == rows[old_].contact;
      assert a in rows && a != old_ && rows[a].status == Booked;
    }
    if a :| a in rows && a != old_ && rows[a].status == Booked && rows[a].contact == rows[old_].contact {
      assert a in after && after[a].status == Booked && after[a].contact == rows[old_].contact;
    }
  }

  /** A calendar, an offer and a request for which `BookAndLose` books. */
  lemma {:induction false} SomethingCanBeLost() returns (types: map<nat, AppointmentType>, rq: Request)
    ensures Acceptable(map[], types, "t", rq, LOCAL, 0)
  {
    types := map[0 := AppointmentType(true, "desk", 30, 10)];
    rq := Request(Genuine(Claims("t", 0, "desk", 0, 30 * MINUTE, None, 1800)), 7, None, "k");
    assert BusyRows(map[], "desk", Buffered(Slot(0, 30 * MINUTE), Gap(types, rq.token.claims))) == {};
  }

  /** Booking, and then rescheduling with the same offer and the same key: the call succeeds, returns the
      very appointment it has just given up, and leaves the contact of an otherwise empty calendar
      without any booking. */
  method BookAndLose(service: SchedulingService, rq: Request, id: nat, id2: nat, provider: Provider, now: int)
    returns (first: Result<(nat, bool), Error>, second: Result<nat, Error>)
    requires service.Valid() && service.rows == map[] && id != id2 && provider.cancelOk
    modifies service
    ensures service.Valid()
    ensures first.Ok? <==> Acceptable(map[], service.types, service.tenant, rq, provider, now)
    ensures first.Ok? ==> first == Ok((id, true)) && second == Ok(id)
    ensures first.Ok? ==> service.rows.Keys == {id} && service.rows[id].status == Rescheduled
    ensures first.Ok? ==> !HasBooking(service.rows, rq.contact)
  {
    AcceptableMeans(map[], service.types, service.tenant, rq, provider, now);
    first := service.Book(rq, id, provider, now);
    second := Err(Conflict);
    if first.Ok? {
      OwnerIsUnique(service.rows, id);
      second := service.Reschedule(id, rq.token, rq.key, rq.conversation, id2, provider, now);
    }
  }

  lemma {:induction false} KeysUntouched(a: Table, b: Table, key: string)
    requires a.Keys == b.Keys && forall i :: i in a ==> a[i].key == b[i].key
    ensures KeyTaken(a, key) <==> KeyTaken(b, key)
  {
    if KeyTaken(a, key) {
      var e :| e in a && a[e].key == key;
      assert b[e].key == key;
    }
    if KeyTaken(b, key) {
      var e :| e in b && b[e].key == key;
      assert a[e].key == key;
    }
  }

  // ------------------------------------------------------------------ offers and bookings agree

  /** The free/busy list `availability` builds from the table, for the window [now, horizon]. */
  ghost predicate IsBusyList(busy: seq<Slot>, rows: Table, calendar: string, window: Slot) {
    forall b :: b in busy <==>
      exists id :: id in rows && rows[id].status == Booked && rows[id].calendar == calendar
                   && rows[id].starts < window.end && window.start < rows[id].ends
                   && b == Slot(rows[id].starts, rows[id].ends)
  }

  /** A booked row that overlaps the buffered slot and lies wholly outside the offer's window. */
  predicate HiddenBlocker(rows: Table, calendar: string, slot: Slot, window: Slot) {
    exists id :: id in rows && BookedOn(rows[id], calendar)
                 && Overlaps(slot, Slot(rows[id].starts, rows[id].ends))
                 && !(rows[id].starts < window.end && rows[id].ends > window.start)
  }

  lemma {:induction false} ClearMeansOnlyHidden(rows: Table, calendar: string, q: Query, s: Slot)
    requires IsBusyList(q.busy, rows, calendar, Slot(q.now, Horizon(q))) && Clear(q, s)
    ensures BusyRows(rows, calendar, Buffered(s, q.buffer)) == {} <==>
            !HiddenBlocker(rows, calendar, Buffered(s, q.buffer), Slot(q.now, Horizon(q)))
  {
    var slot, window := Buffered(s, q.buffer), Slot(q.now, Horizon(q));
    forall id | id in BusyRows(rows, calendar, window)
      ensures id !in BusyRows(rows, calendar, slot)
    {
      var b := Slot(rows[id].starts, rows[id].ends);
      assert b in q.busy;
      assert !Overlaps(slot, b);
    }
    assert forall id :: id in BusyRows(rows, calendar, slot) ==> id !in BusyRows(rows, calendar, window);
    if HiddenBlocker(rows, calendar, slot, window) {
      var id :| id in rows && BookedOn(rows[id], calendar) && Overlaps(slot, Slot(rows[id].starts, rows[id].ends));
      assert id in BusyRows(rows, calendar, slot);
    }
  }

  /** The token `availability` signs for a slot. */
  function Offer(tenant: string, typeId: nat, calendar: string, conversation: Option<nat>, s: Slot, offered: int,
                 ttl: nat): Token {
    Genuine(Claims(tenant, typeId, calendar, s.start, s.end, conversation, Seconds(offered) + ttl))
  }

  /** The question `availability` puts to the slot computation for one appointment type. */
  predicate Asks(q: Query, t: AppointmentType) {
    q.duration == t.durationMinutes * MINUTE && q.buffer == t.bufferMinutes * MINUTE
  }

  /** Two conflict computations, one answer. If the table has not changed since the offer, the local
      calendar is used, the offer is unexpired and answered in its own conversation, then `book`
      accepts an offered slot exactly when no booked row overlaps its buffered interval from outside
      the window [now, horizon] that `availability` looked at. */
  lemma {:induction false} OfferAndBookingAgree(rows: Table, types: map<nat, AppointmentType>, tenant: string,
                                                typeId: nat, q: Query, s: Slot, rq: Request, ttl: nat, later: int)
    requires typeId in types && types[typeId].active && Proper(q) && Asks(q, types[typeId])
    requires IsBusyList(q.busy, rows, types[typeId].calendar, Slot(q.now, Horizon(q)))
    requires s in Candidates(q)
    requires rq.token == Offer(tenant, typeId, types[typeId].calendar, rq.conversation, s, q.now, ttl)
    requires Seconds(later) <= Seconds(q.now) + ttl
    ensures Acceptable(rows, types, tenant, rq, LOCAL, later) <==>
            !HiddenBlocker(rows, types[typeId].calendar, Buffered(s, q.buffer), Slot(q.now, Horizon(q)))
  {
    CandidatesSound(q, s);
    var day, i, k :| IsGridSlot(q, day, i, k, s);
    ClearMeansOnlyHidden(rows, types[typeId].calendar, q, s);
  }

  /** In particular every offer whose buffered interval lies within [now, horizon] can be booked. */
  lemma {:induction false} OfferWithinWindowIsBookable(rows: Table, types: map<nat, AppointmentType>, tenant: string,
                                                       typeId: nat, q: Query, s: Slot, rq: Request, ttl: nat,
                                                       later: int)
    requires typeId in types && types[typeId].active && Proper(q) && Asks(q, types[typeId])
    requires IsBusyList(q.busy, rows, types[typeId].calendar, Slot(q.now, Horizon(q)))
    requires s in Candidates(q)
    requires rq.token == Offer(tenant, typeId, types[typeId].calendar, rq.conversation, s, q.now, ttl)
    requires Seconds(later) <= Seconds(q.now) + ttl
    requires q.now <= s.start - q.buffer && s.end + q.buffer <= Horizon(q)
    ensures Acceptable(rows, types, tenant, rq, LOCAL, later)
  {
    OfferAndBookingAgree(rows, types, tenant, typeId, q, s, rq, ttl, later);
  }

  /** Outside it the agreement fails: with no notice period, a meeting that ended a minute ago still
      blocks, by its buffer, the slot that has just been offered. */
  lemma {:induction false} OfferCanBeRefused() returns (rows: Table, t: AppointmentType, q: Query, s: Slot)
    ensures TableValid(rows, 1) && Proper(q) && Asks(q, t)
    ensures IsBusyList(q.busy, rows, t.calendar, Slot(q.now, Horizon(q)))
    ensures s in Candidates(q)
    ensures HiddenBlocker(rows, t.calendar, Buffered(s, q.buffer), Slot(q.now, Horizon(q)))
  {
    var day := 20_000;
    var nine := day * DAY + 540 * MINUTE;
    t := AppointmentType(true, "desk", 30, 10);
    rows := map[0 := Appointment(0, 0, None, "desk", nine - 31 * MINUTE, nine - MINUTE, Booked, "k", None, 0,
                                  10 * MINUTE)];
    var hours := map[Weekday(day) := [Window(540 * MINUTE, 600 * MINUTE)]];
    q := Query(Rules(0, hours, 0, 30, 30, {}), 30 * MINUTE, 10 * MINUTE, nine, None, 1, []);
    s := Slot(nine, nine + 30 * MINUTE);
    assert BusyRows(rows, "desk", Slot(q.now, Horizon(q))) == {};
    assert IsGridSlot(q, day, 0, 0, s);
    CandidatesComplete(q, day, 0, 0, s);
    assert 0 in rows && BookedOn(rows[0], "desk");
  }

  // ------------------------------------------------------------------ repeating a request

  lemma {:induction false} OwnerIsUnique(rows: Table, id: nat)
    requires KeysUnique(rows) && id in rows
    ensures KeyTaken(rows, rows[id].key) && KeyOwner(rows, rows[id].key) == id
  {
  }

  /** Sending an accepted request again, at any later time and whatever the calendar says by then,
      returns the same appointment and adds none. */
  method BookAndRepeat(service: SchedulingService, rq: Request, id: nat, id2: nat, provider: Provider,
                       provider2: Provider, now: int, later: int)
    returns (first: Result<(nat, bool), Error>, second: Result<(nat, bool), Error>)
    requires service.Valid() && id !in service.rows && id2 !in service.rows && id != id2
    modifies service
    ensures service.Valid()
    ensures first.Ok? ==> second == Ok((first.value.0, false))
    ensures first.Ok? ==> service.rows.Keys == old(service.rows).Keys + (if first.value.1 then {id} else {})
  {
    first := service.Book(rq, id, provider, now);
    if first.Ok? && first.value.1 {
      OwnerIsUnique(service.rows, id);
    }
    second := service.Book(rq, id2, provider2, later);
  }
}
