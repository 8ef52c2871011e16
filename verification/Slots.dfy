/** Slot computation. Instants are integer microseconds since the Unix epoch, in UTC; the business
    time zone is a fixed offset (`local = utc + offset`), so local days are numbered from the epoch. */
module Slots {
  import opened Common

  const MINUTE: int := 60_000_000
  const DAY: int := 86_400_000_000

  type TimeOfDay = t: int | 0 <= t < 86_400_000_000 witness 0

  datatype Slot = Slot(start: int, end: int)

  datatype Window = Window(opens: TimeOfDay, closes: TimeOfDay)

  /** `hours` is keyed by weekday, Monday being 0; a missing weekday has no hours. */
  datatype Rules = Rules(offset: int, hours: map<int, seq<Window>>, minNoticeMinutes: int,
                         maxDaysAhead: int, slotStepMinutes: int, holidays: set<int>)

  datatype Query = Query(rules: Rules, duration: int, buffer: int, now: int, earliest: Option<int>,
                         days: int, busy: seq<Slot>)

  /** What the callers guarantee: a positive step (else the grid loop never ends) and a positive
      duration (the table of appointment types allows 5 to 480 minutes). */
  predicate Proper(q: Query) {
    q.rules.slotStepMinutes >= 1 && q.duration > 0
  }

  predicate Overlaps(a: Slot, b: Slot) {
    a.start < b.end && b.start < a.end
  }

  function Buffered(s: Slot, buffer: int): Slot {
    Slot(s.start - buffer, s.end + buffer)
  }

  function StartBound(q: Query): int {
    Max(q.now + q.rules.minNoticeMinutes * MINUTE, if q.earliest.Some? then q.earliest.value else q.now)
  }

  function Horizon(q: Query): int {
    q.now + Min(q.days, q.rules.maxDaysAhead) * DAY
  }

  function Step(q: Query): int {
    q.rules.slotStepMinutes * MINUTE
  }

  function At(q: Query, day: int, t: int): int {
    day * DAY + t - q.rules.offset
  }

  function LocalDay(q: Query, instant: int): int {
    (instant + q.rules.offset) / DAY
  }

  /** 1 January 1970 was a Thursday. */
  function Weekday(day: int): int {
    (day + 3) % 7
  }

  function WindowsOn(q: Query, day: int): seq<Window> {
    if Weekday(day) in q.rules.hours then q.rules.hours[Weekday(day)] else []
  }

  predicate Clear(q: Query, s: Slot) {
    forall b :: b in q.busy ==> !Overlaps(Buffered(s, q.buffer), b)
  }

  predicate Free(q: Query, s: Slot) {
    StartBound(q) <= s.start && s.end <= Horizon(q) && Clear(q, s)
  }

  // ------------------------------------------------------------------ the slots, as values

  function Grid(q: Query, cursor: int, closes: int): seq<Slot>
    requires Proper(q)
    decreases closes - cursor
  {
    if cursor + q.duration > closes then []
    else
      var s := Slot(cursor, cursor + q.duration);
      (if Free(q, s) then [s] else []) + Grid(q, cursor + Step(q), closes)
  }

  function OnWindows(q: Query, day: int, windows: seq<Window>): seq<Slot>
    requires Proper(q)
  {
    if windows == [] then []
    else Grid(q, At(q, day, windows[0].opens), At(q, day, windows[0].closes)) + OnWindows(q, day, windows[1..])
  }

  function OnDay(q: Query, day: int): seq<Slot>
    requires Proper(q)
  {
    if day in q.rules.holidays then [] else OnWindows(q, day, WindowsOn(q, day))
  }

  function FromDay(q: Query, day: int): seq<Slot>
    requires Proper(q)
    decreases Horizon(q) - At(q, day, 0)
  {
    if At(q, day, 0) >= Horizon(q) then [] else OnDay(q, day) + FromDay(q, day + 1)
  }

  function Candidates(q: Query): seq<Slot>
    requires Proper(q)
  {
    FromDay(q, LocalDay(q, StartBound(q)))
  }

  lemma Append(a: seq<Slot>, b: seq<Slot>, c: seq<Slot>)
    ensures (a + b) + c == a + (b + c)
  {
  }

  /** The innermost loop: the slots of one working window. */
  method ScanWindow(q: Query, w0: int, w1: int, before: seq<Slot>) returns (out: seq<Slot>)
    requires Proper(q)
    ensures out == before + Grid(q, w0, w1)
  {
    out := before;
    var cursor := w0;
    while cursor + q.duration <= w1
      invariant out + Grid(q, cursor, w1) == before + Grid(q, w0, w1)
      decreases w1 - cursor
    {
      var s := Slot(cursor, cursor + q.duration);
      if s.start >= StartBound(q) && s.end <= Horizon(q)
        && !(exists b :: b in q.busy && Overlaps(Buffered(s, q.buffer), b)) {
        Append(out, [s], Grid(q, cursor + Step(q), w1));
        out := out + [s];
      }
      cursor := cursor + Step(q);
    }
  }

  method ScanDay(q: Query, day: int, before: seq<Slot>) returns (out: seq<Slot>)
    requires Proper(q)
    ensures out == before + OnDay(q, day)
  {
    out := before;
    if day !in q.rules.holidays {
      var windows := WindowsOn(q, day);
      for i := 0 to |windows|
        invariant out + OnWindows(q, day, windows[i..]) == before + OnWindows(q, day, windows)
      {
        var w0, w1 := At(q, day, windows[i].opens), At(q, day, windows[i].closes);
        assert windows[i..][1..] == windows[i + 1..];
        Append(out, Grid(q, w0, w1), OnWindows(q, day, windows[i + 1..]));
        out := ScanWindow(q, w0, w1, out);
      }
    }
  }

  /** The day loop of `candidate_slots`, from the local day of the earliest start to the horizon. */
  method CandidateSlots(q: Query) returns (out: seq<Slot>)
    requires Proper(q)
    ensures out == Candidates(q)
  {
    out := [];
    var day := LocalDay(q, StartBound(q));
    while At(q, day, 0) < Horizon(q)
      invariant out + FromDay(q, day) == Candidates(q)
      decreases Horizon(q) - At(q, day, 0)
    {
      Append(out, OnDay(q, day), FromDay(q, day + 1));
      out := ScanDay(q, day, out);
      day := day + 1;
    }
  }

  // ------------------------------------------------------------------ what they are

  /** Grid slot number `k` of window `i` of any day at all, kept by the filters. */
  ghost predicate IsGridSlot(q: Query, day: int, i: nat, k: nat, s: Slot) {
    && day !in q.rules.holidays
    && i < |WindowsOn(q, day)|
    && s.start == At(q, day, WindowsOn(q, day)[i].opens) + k * Step(q)
    && s.end == s.start + q.duration
    && s.end <= At(q, day, WindowsOn(q, day)[i].closes)
    && Free(q, s)
  }

  lemma {:induction false} GridSound(q: Query, cursor: int, closes: int, s: Slot) returns (k: nat)
    requires Proper(q) && s in Grid(q, cursor, closes)
    ensures s.start == cursor + k * Step(q) && s.end == s.start + q.duration && s.end <= closes && Free(q, s)
    decreases closes - cursor
  {
    var head := Slot(cursor, cursor + q.duration);
    if s == head && Free(q, head) {
      k := 0;
    } else {
      var j := GridSound(q, cursor + Step(q), closes, s);
      k := j + 1;
    }
  }

  lemma {:induction false} GridComplete(q: Query, cursor: int, closes: int, k: nat)
    requires Proper(q)
    requires cursor + k * Step(q) + q.duration <= closes
    requires Free(q, Slot(cursor + k * Step(q), cursor + k * Step(q) + q.duration))
    ensures Slot(cursor + k * Step(q), cursor + k * Step(q) + q.duration) in Grid(q, cursor, closes)
    decreases k
  {
    if k > 0 {
      assert k * Step(q) == (k - 1) * Step(q) + Step(q);
      assert (k - 1) * Step(q) >= 0;
      GridComplete(q, cursor + Step(q), closes, k - 1);
    }
  }

  lemma {:induction false} OnWindowsSound(q: Query, day: int, windows: seq<Window>, s: Slot) returns (i: nat, k: nat)
    requires Proper(q) && s in OnWindows(q, day, windows)
    ensures i < |windows| && s.start == At(q, day, windows[i].opens) + k * Step(q)
    ensures s.end == s.start + q.duration && s.end <= At(q, day, windows[i].closes) && Free(q, s)
  {
    var w0, w1 := At(q, day, windows[0].opens), At(q, day, windows[0].closes);
    if s in Grid(q, w0, w1) {
      i := 0;
      k := GridSound(q, w0, w1, s);
    } else {
      var j: nat;
      j, k := OnWindowsSound(q, day, windows[1..], s);
      i := j + 1;
    }
  }

  lemma {:induction false} OnWindowsComplete(q: Query, day: int, windows: seq<Window>, i: nat, s: Slot)
    requires Proper(q) && i < |windows|
    requires s in Grid(q, At(q, day, windows[i].opens), At(q, day, windows[i].closes))
    ensures s in OnWindows(q, day, windows)
  {
    if i > 0 {
      OnWindowsComplete(q, day, windows[1..], i - 1, s);
    }
  }

  lemma {:induction false} FromDaySound(q: Query, day: int, s: Slot) returns (d: int)
    requires Proper(q) && s in FromDay(q, day)
    ensures d >= day && s in OnDay(q, d)
    decreases Horizon(q) - At(q, day, 0)
  {
    if s in OnDay(q, day) {
      d := day;
    } else {
      d := FromDaySound(q, day + 1, s);
    }
  }

  lemma {:induction false} FromDayComplete(q: Query, day: int, d: int, s: Slot)
    requires Proper(q) && day <= d && At(q, d, 0) < Horizon(q) && s in OnDay(q, d)
    ensures s in FromDay(q, day)
    decreases d - day
  {
    assert At(q, day, 0) <= At(q, d, 0);
    if day < d {
      FromDayComplete(q, day + 1, d, s);
    }
  }

  /** A slot of a day before the first one visited starts too early, and a slot of a day whose
      midnight is past the horizon ends too late: the loop bounds lose nothing. */
  lemma SlotDayIsVisited(q: Query, day: int, i: nat, k: nat, s: Slot)
    requires Proper(q) && IsGridSlot(q, day, i, k, s)
    ensures LocalDay(q, StartBound(q)) <= day && At(q, day, 0) < Horizon(q)
  {
    assert k * Step(q) >= 0;
    var b := StartBound(q) + q.rules.offset;
    assert b < (day + 1) * DAY;
    DayOf(b, day);
  }

  lemma DayOf(instant: int, day: int)
    requires instant < (day + 1) * DAY
    ensures instant / DAY <= day
  {
    assert instant == (instant / DAY) * DAY + instant % DAY;
  }

  ghost predicate SomeGridSlot(q: Query, s: Slot) {
    exists day, i, k :: IsGridSlot(q, day, i, k, s)
  }

  lemma CandidatesSound(q: Query, s: Slot)
    requires Proper(q) && s in Candidates(q)
    ensures SomeGridSlot(q, s)
  {
    var day := FromDaySound(q, LocalDay(q, StartBound(q)), s);
    var i, k := OnWindowsSound(q, day, WindowsOn(q, day), s);
    assert IsGridSlot(q, day, i, k, s);
  }

  lemma CandidatesComplete(q: Query, day: int, i: nat, k: nat, s: Slot)
    requires Proper(q) && IsGridSlot(q, day, i, k, s)
    ensures s in Candidates(q)
  {
    SlotDayIsVisited(q, day, i, k, s);
    var w := WindowsOn(q, day)[i];
    GridComplete(q, At(q, day, w.opens), At(q, day, w.closes), k);
    OnWindowsComplete(q, day, WindowsOn(q, day), i, s);
    FromDayComplete(q, LocalDay(q, StartBound(q)), day, s);
  }

  /** `candidate_slots` returns exactly the free grid slots of all working windows of all days. */
  lemma CandidatesAreTheFreeGridSlots(q: Query, s: Slot)
    requires Proper(q)
    ensures s in Candidates(q) <==> SomeGridSlot(q, s)
  {
    if s in Candidates(q) {
      CandidatesSound(q, s);
    } else if SomeGridSlot(q, s) {
      var day, i, k :| IsGridSlot(q, day, i, k, s);
      CandidatesComplete(q, day, i, k, s);
    }
  }

  // ------------------------------------------------------------------ in the terms of the question

  /** Slot number `k` of window `i` of local day `day`, by the clock on the wall: the window starts the
      grid, every step is `slotStepMinutes`, and the slot ends before the window does. */
  ghost predicate OnTheWall(q: Query, day: int, i: nat, k: nat, s: Slot) {
    var weekday := Weekday(day);
    && day !in q.rules.holidays && weekday in q.rules.hours && i < |q.rules.hours[weekday]|
    && var w := q.rules.hours[weekday][i];
       && s.start + q.rules.offset == day * 86_400_000_000 + w.opens + k * (q.rules.slotStepMinutes * 60_000_000)
       && s.end == s.start + q.duration
       && s.end + q.rules.offset <= day * 86_400_000_000 + w.closes
  }

  ghost predicate SomewhereOnTheWall(q: Query, s: Slot) {
    exists day, i, k :: OnTheWall(q, day, i, k, s)
  }

  /** A slot is offered if and only if it is on the grid of a working day, the notice period has passed
      when it starts, it is not before the earliest time asked for (or before now, if none is), it ends
      within the days asked for and within those that may be booked ahead, and nothing busy comes nearer to
      it than the buffer. */
  lemma {:induction false} OfferedIff(q: Query, s: Slot)
    requires Proper(q)
    ensures s in Candidates(q) <==>
              && SomewhereOnTheWall(q, s)
              && q.now + q.rules.minNoticeMinutes * 60_000_000 <= s.start
              && (if q.earliest.Some? then q.earliest.value <= s.start else q.now <= s.start)
              && s.end <= q.now + q.days * 86_400_000_000
              && s.end <= q.now + q.rules.maxDaysAhead * 86_400_000_000
              && forall b :: b in q.busy ==> b.end + q.buffer <= s.start || s.end + q.buffer <= b.start
  {
    CandidatesAreTheFreeGridSlots(q, s);
    FreeMeans(q, s);
    if SomeGridSlot(q, s) {
      var day, i, k :| IsGridSlot(q, day, i, k, s);
      assert OnTheWall(q, day, i, k, s);
    }
    if SomewhereOnTheWall(q, s) && Free(q, s) {
      var day, i, k :| OnTheWall(q, day, i, k, s);
      assert IsGridSlot(q, day, i, k, s);
    }
  }

  lemma {:induction false} FreeMeans(q: Query, s: Slot)
    ensures Free(q, s) <==>
              && q.now + q.rules.minNoticeMinutes * 60_000_000 <= s.start
              && (if q.earliest.Some? then q.earliest.value <= s.start else q.now <= s.start)
              && s.end <= q.now + q.days * 86_400_000_000
              && s.end <= q.now + q.rules.maxDaysAhead * 86_400_000_000
              && forall b :: b in q.busy ==> b.end + q.buffer <= s.start || s.end + q.buffer <= b.start
  {
    assert Min(q.days, q.rules.maxDaysAhead) * DAY <= q.days * 86_400_000_000;
    assert Min(q.days, q.rules.maxDaysAhead) * DAY <= q.rules.maxDaysAhead * 86_400_000_000;
  }

  /** Weekdays follow one another from Monday, 0, to Sunday, 6, and 28 September 2026 is a Monday. */
  lemma {:induction false} WeekdaysGoRound(day: int)
    ensures 0 <= Weekday(day) <= 6
    ensures Weekday(day + 1) == if Weekday(day) == 6 then 0 else Weekday(day) + 1
    ensures Weekday(20724) == 0
  {
  }

  /** Days are counted from midnight to midnight. */
  lemma {:induction false} DayHoldsStart(s: Slot)
    ensures UtcDay(s) * 86_400_000_000 <= s.start < (UtcDay(s) + 1) * 86_400_000_000
  {
  }

  // ------------------------------------------------------------------ their order

  predicate Ascending(slots: seq<Slot>) {
    forall i, j :: 0 <= i < j < |slots| ==> slots[i].start < slots[j].start
  }

  predicate WindowsSorted(windows: seq<Window>) {
    forall i, j :: 0 <= i < j < |windows| ==> windows[i].closes <= windows[j].opens
  }

  predicate Within(slots: seq<Slot>, from: int, until: int) {
    forall i :: 0 <= i < |slots| ==> from <= slots[i].start < until
  }

  lemma JoinAscending(a: seq<Slot>, b: seq<Slot>, from: int, mid: int, until: int)
    requires Ascending(a) && Ascending(b) && Within(a, from, mid) && Within(b, mid, until) && from <= mid <= until
    ensures Ascending(a + b) && Within(a + b, from, until)
  {
  }

  lemma {:induction false} GridAscends(q: Query, cursor: int, closes: int)
    requires Proper(q)
    ensures Ascending(Grid(q, cursor, closes)) && Within(Grid(q, cursor, closes), cursor, Max(cursor, closes))
    decreases closes - cursor
  {
    if cursor + q.duration <= closes {
      GridAscends(q, cursor + Step(q), closes);
    }
  }

  lemma {:induction false} OnWindowsAscends(q: Query, day: int, windows: seq<Window>, from: int)
    requires Proper(q) && WindowsSorted(windows)
    requires from <= At(q, day, DAY)
    requires forall i :: 0 <= i < |windows| ==> from <= At(q, day, windows[i].opens)
    ensures Ascending(OnWindows(q, day, windows)) && Within(OnWindows(q, day, windows), from, At(q, day, DAY))
  {
    if windows != [] {
      var w0, w1 := At(q, day, windows[0].opens), At(q, day, windows[0].closes);
      if w1 <= w0 {
        assert Grid(q, w0, w1) == [];
        OnWindowsAscends(q, day, windows[1..], from);
      } else {
        GridAscends(q, w0, w1);
        OnWindowsAscends(q, day, windows[1..], w1);
        JoinAscending(Grid(q, w0, w1), OnWindows(q, day, windows[1..]), from, w1, At(q, day, DAY));
      }
    }
  }

  ghost predicate HoursSorted(q: Query) {
    forall d :: d in q.rules.hours ==> WindowsSorted(q.rules.hours[d])
  }

  lemma OnDayAscends(q: Query, day: int)
    requires Proper(q) && HoursSorted(q)
    ensures Ascending(OnDay(q, day)) && Within(OnDay(q, day), At(q, day, 0), At(q, day + 1, 0))
  {
    OnWindowsAscends(q, day, WindowsOn(q, day), At(q, day, 0));
  }

  lemma {:induction false} FromDayAscends(q: Query, day: int)
    requires Proper(q) && HoursSorted(q)
    ensures Ascending(FromDay(q, day))
    ensures forall i :: 0 <= i < |FromDay(q, day)| ==> At(q, day, 0) <= FromDay(q, day)[i].start
    decreases Horizon(q) - At(q, day, 0)
  {
    if At(q, day, 0) < Horizon(q) {
      OnDayAscends(q, day);
      FromDayAscends(q, day + 1);
    }
  }

  /** With sorted, disjoint windows on every weekday the offered slots are strictly ascending. */
  lemma CandidatesAscend(q: Query)
    requires Proper(q) && HoursSorted(q)
    ensures Ascending(Candidates(q))
  {
    FromDayAscends(q, LocalDay(q, StartBound(q)));
  }

  // ------------------------------------------------------------------ spreading over days

  function UtcDay(s: Slot): int {
    s.start / DAY
  }

  function DaysOf(slots: seq<Slot>): set<int> {
    set s | s in slots :: UtcDay(s)
  }

  /** The first slot of every day, in order. */
  function FirstOfDays(slots: seq<Slot>): seq<Slot> {
    if slots == [] then []
    else
      var init, last := slots[..|slots| - 1], slots[|slots| - 1];
      if UtcDay(last) in DaysOf(init) then FirstOfDays(init) else FirstOfDays(init) + [last]
  }

  /** The slot is the earliest of its day. */
  predicate OpensDay(s: Slot, slots: seq<Slot>) {
    s in slots && forall u :: u in slots && UtcDay(u) == UtcDay(s) ==> s.start <= u.start
  }

  /** If a slot is left out although a later one is chosen, the later one opens its day and the slot left
      out does not. */
  ghost predicate EarliestFirst(r: seq<Slot>, slots: seq<Slot>) {
    forall s, t :: s in slots && s !in r && t in r && s.start < t.start ==> OpensDay(t, slots) && !OpensDay(s, slots)
  }

  lemma {:induction false} FirstsOpenDays(slots: seq<Slot>, s: Slot)
    requires Ascending(slots)
    ensures s in FirstOfDays(slots) <==> OpensDay(s, slots)
  {
    if slots != [] {
      var init, last := slots[..|slots| - 1], slots[|slots| - 1];
      assert slots == init + [last];
      FirstsOpenDays(init, s);
      FirstOfDaysWithin(init);
      assert forall u :: u in init ==> u.start < last.start;
      if UtcDay(last) in DaysOf(init) {
        var u :| u in init && UtcDay(u) == UtcDay(last);
        assert u in slots && !OpensDay(last, slots);
      }
    }
  }

  lemma {:induction false} PrefixIsEarliest(slots: seq<Slot>, k: nat)
    requires Ascending(slots) && k <= |slots|
    ensures EarliestFirst(FirstOfDays(slots[..k]), slots)
  {
    var r := FirstOfDays(slots[..k]);
    forall s, t | s in slots && s !in r && t in r && s.start < t.start
      ensures OpensDay(t, slots) && !OpensDay(s, slots)
    {
      FirstsOpenDays(slots[..k], s);
      FirstsOpenDays(slots[..k], t);
      assert t in slots[..k] && s in slots[..k];
      assert forall u :: u in slots[..k] ==> u in slots;
      assert forall u :: u in slots && u !in slots[..k] ==> u in slots[k..] && t.start < u.start;
    }
  }

  lemma {:induction false} FilledIsEarliest(slots: seq<Slot>, chosen: seq<Slot>)
    requires Ascending(slots) && forall s :: s in FirstOfDays(slots) ==> s in chosen
    requires forall s, t :: s in slots && s !in chosen && t in chosen && t !in FirstOfDays(slots) ==> t.start < s.start
    ensures EarliestFirst(chosen, slots)
  {
    forall s, t | s in slots && s !in chosen && t in chosen && s.start < t.start
      ensures OpensDay(t, slots) && !OpensDay(s, slots)
    {
      FirstsOpenDays(slots, s);
      FirstsOpenDays(slots, t);
    }
  }

  lemma {:induction false} SameChoice(a: seq<Slot>, b: seq<Slot>, slots: seq<Slot>)
    requires EarliestFirst(a, slots) && forall s :: s in a <==> s in b
    ensures EarliestFirst(b, slots)
  {
  }

  lemma DaysOfAppend(slots: seq<Slot>, s: Slot)
    ensures DaysOf(slots + [s]) == DaysOf(slots) + {UtcDay(s)}
  {
    assert s in slots + [s];
    forall d | d in DaysOf(slots) + {UtcDay(s)}
      ensures d in DaysOf(slots + [s])
    {
      if d in DaysOf(slots) {
        var t :| t in slots && UtcDay(t) == d;
        assert t in slots + [s];
      }
    }
  }

  lemma AppendAscending(slots: seq<Slot>, s: Slot)
    requires Ascending(slots) && (forall t :: t in slots ==> t.start < s.start)
    ensures Ascending(slots + [s])
  {
  }

  lemma {:induction false} FirstOfDaysWithin(slots: seq<Slot>)
    ensures forall s :: s in FirstOfDays(slots) ==> s in slots
  {
    if slots != [] {
      var init := slots[..|slots| - 1];
      FirstOfDaysWithin(init);
      assert forall s :: s in init ==> s in slots;
    }
  }

  lemma {:induction false} FirstOfDaysAscends(slots: seq<Slot>)
    requires Ascending(slots)
    ensures Ascending(FirstOfDays(slots))
  {
    if slots != [] {
      var init, last := slots[..|slots| - 1], slots[|slots| - 1];
      FirstOfDaysAscends(init);
      FirstOfDaysWithin(init);
      forall s | s in FirstOfDays(init)
        ensures s.start < last.start
      {
        assert s in init;
      }
      AppendAscending(FirstOfDays(init), last);
    }
  }

  /** One slot for each day that has any. */
  lemma {:induction false} FirstOfDaysCovers(slots: seq<Slot>)
    ensures DaysOf(FirstOfDays(slots)) == DaysOf(slots) && |FirstOfDays(slots)| == |DaysOf(slots)|
  {
    if slots != [] {
      var init, last := slots[..|slots| - 1], slots[|slots| - 1];
      assert slots == init + [last];
      FirstOfDaysCovers(init);
      DaysOfAppend(init, last);
      DaysOfAppend(FirstOfDays(init), last);
    }
  }

  /** Insertion by start and then end, as Python sorts pairs. */
  function Insert(s: Slot, sorted: seq<Slot>): seq<Slot> {
    if sorted == [] then [s]
    else if s.start < sorted[0].start || (s.start == sorted[0].start && s.end <= sorted[0].end) then [s] + sorted
    else [sorted[0]] + Insert(s, sorted[1..])
  }

  function Sorted(slots: seq<Slot>): seq<Slot> {
    if slots == [] then [] else Insert(slots[0], Sorted(slots[1..]))
  }

  lemma {:induction false} InsertAscends(s: Slot, sorted: seq<Slot>)
    requires Ascending(sorted)
    requires forall t :: t in sorted ==> t.start != s.start
    ensures Ascending(Insert(s, sorted)) && |Insert(s, sorted)| == |sorted| + 1
    ensures forall t :: t in Insert(s, sorted) <==> t == s || t in sorted
  {
    if sorted != [] && sorted[0].start < s.start {
      InsertAscends(s, sorted[1..]);
      assert forall t :: t in sorted[1..] ==> sorted[0].start < t.start;
    }
  }

  /** Sorting slots with different starts puts them in ascending order and changes nothing else. */
  lemma {:induction false} SortedAscends(slots: seq<Slot>)
    requires forall i, j :: 0 <= i < j < |slots| ==> slots[i].start != slots[j].start
    ensures Ascending(Sorted(slots)) && |Sorted(slots)| == |slots|
    ensures forall t :: t in Sorted(slots) <==> t in slots
  {
    if slots != [] {
      SortedAscends(slots[1..]);
      InsertAscends(slots[0], Sorted(slots[1..]));
    }
  }

  lemma {:induction false} CountDays(slots: seq<Slot>)
    ensures |DaysOf(slots)| <= |slots|
  {
    if slots != [] {
      var init, last := slots[..|slots| - 1], slots[|slots| - 1];
      assert slots == init + [last];
      CountDays(init);
      DaysOfAppend(init, last);
    }
  }

  /** No choice of at most `n` offered slots covers more days than `spread` does. */
  lemma BestCoverage(slots: seq<Slot>, n: nat, chosen: seq<Slot>)
    requires |chosen| <= n && forall s :: s in chosen ==> s in slots
    ensures |DaysOf(chosen)| <= Min(n, |DaysOf(slots)|)
  {
    CountDays(chosen);
    SubsetIsSmaller(DaysOf(chosen), DaysOf(slots));
  }

  predicate DifferentStarts(slots: seq<Slot>) {
    forall i, j :: 0 <= i < j < |slots| ==> slots[i].start != slots[j].start
  }

  ghost predicate ChosenFrom(chosen: seq<Slot>, slots: seq<Slot>) {
    (forall s :: s in chosen ==> s in slots) && DifferentStarts(chosen)
  }

  lemma {:induction false} CountDistinct(chosen: seq<Slot>, slots: seq<Slot>)
    requires Ascending(slots) && (forall s :: s in slots ==> s in chosen)
    ensures |slots| <= |chosen|
  {
    if slots != [] {
      var init, last := slots[..|slots| - 1], slots[|slots| - 1];
      assert last in slots;
      var k :| 0 <= k < |chosen| && chosen[k] == last;
      var rest := chosen[..k] + chosen[k + 1..];
      assert chosen == chosen[..k] + [last] + chosen[k + 1..];
      forall s | s in init
        ensures s in rest
      {
        assert s in slots && s.start < last.start;
        assert s in chosen[..k] || s == last || s in chosen[k + 1..];
      }
      CountDistinct(rest, init);
    }
  }

  lemma SameStart(slots: seq<Slot>, s: Slot, t: Slot)
    requires Ascending(slots) && s in slots && t in slots && s.start == t.start
    ensures s == t
  {
  }

  lemma NewStart(slots: seq<Slot>, chosen: seq<Slot>, s: Slot)
    requires Ascending(slots) && s in slots && ChosenFrom(chosen, slots) && s !in chosen
    ensures ChosenFrom(chosen + [s], slots)
  {
    forall j | 0 <= j < |chosen|
      ensures chosen[j].start != s.start
    {
      assert chosen[j] in chosen;
      if chosen[j].start == s.start {
        SameStart(slots, chosen[j], s);
      }
    }
  }

  lemma SameDays(r: seq<Slot>, slots: seq<Slot>, firsts: seq<Slot>)
    requires DaysOf(firsts) == DaysOf(slots)
    requires forall s :: s in firsts ==> s in r
    requires forall s :: s in r ==> s in slots
    ensures DaysOf(r) == DaysOf(slots)
  {
    assert DaysOf(firsts) <= DaysOf(r) <= DaysOf(slots);
  }

  /** The first pass: at most one slot per day, stopping at `n`. */
  method OnePerDay(slots: seq<Slot>, n: nat) returns (chosen: seq<Slot>, full: bool)
    ensures full ==> 0 < |chosen| == n && exists k :: 0 <= k <= |slots| && chosen == FirstOfDays(slots[..k])
    ensures !full ==> chosen == FirstOfDays(slots) && (n >= 1 ==> |chosen| < n)
  {
    chosen := [];
    var usedDays: set<int> := {};
    for i := 0 to |slots|
      invariant chosen == FirstOfDays(slots[..i]) && usedDays == DaysOf(slots[..i])
      invariant (n >= 1 ==> |chosen| < n) && (usedDays != {} ==> chosen != [])
    {
      assert slots[..i + 1][..i] == slots[..i] && slots[..i + 1] == slots[..i] + [slots[i]];
      DaysOfAppend(slots[..i], slots[i]);
      if UtcDay(slots[i]) !in usedDays {
        chosen := chosen + [slots[i]];
        usedDays := usedDays + {UtcDay(slots[i])};
      }
      if |chosen| == n {
        return chosen, true;
      }
    }
    assert slots[..|slots|] == slots;
    full := false;
  }

  /** The second pass: the earliest slots not chosen yet, up to `n` in all. */
  method FillUp(slots: seq<Slot>, n: nat, firsts: seq<Slot>) returns (chosen: seq<Slot>)
    requires |firsts| > n ==> n == 0
    requires forall s :: s in firsts ==> s in slots
    ensures forall s :: s in firsts ==> s in chosen
    ensures forall s :: s in chosen ==> s in slots
    ensures |chosen| == n || forall s :: s in slots ==> s in chosen
    ensures Ascending(slots) && ChosenFrom(firsts, slots) && |firsts| < n < |slots| ==>
              ChosenFrom(chosen, slots) && |chosen| == n
    ensures Ascending(slots) ==>
              forall s, t :: s in slots && s !in chosen && t in chosen && t !in firsts ==> t.start < s.start
  {
    chosen := firsts;
    var i := 0;
    while i < |slots| && |chosen| != n
      invariant i <= |slots| && (n >= 1 ==> |chosen| <= n)
      invariant Ascending(slots) && ChosenFrom(firsts, slots) ==> ChosenFrom(chosen, slots)
      invariant forall s :: s in firsts ==> s in chosen
      invariant forall s :: s in chosen ==> s in slots
      invariant forall s :: s in slots[..i] ==> s in chosen
      invariant forall t :: t in chosen && t !in firsts ==> t in slots[..i]
    {
      assert slots[..i + 1] == slots[..i] + [slots[i]];
      if slots[i] !in chosen {
        if Ascending(slots) && ChosenFrom(firsts, slots) {
          NewStart(slots, chosen, slots[i]);
        }
        chosen := chosen + [slots[i]];
      }
      i := i + 1;
    }
    assert slots == slots[..i] + slots[i..];
    if i == |slots| {
      assert slots[..i] == slots;
      if Ascending(slots) {
        CountDistinct(chosen, slots);
      }
    }
  }

  lemma {:induction false} SortedKeeps(slots: seq<Slot>)
    ensures forall t :: t in Sorted(slots) <==> t in slots
  {
    if slots != [] {
      SortedKeeps(slots[1..]);
      InsertKeeps(slots[0], Sorted(slots[1..]));
    }
  }

  lemma {:induction false} InsertKeeps(s: Slot, sorted: seq<Slot>)
    ensures forall t :: t in Insert(s, sorted) <==> t == s || t in sorted
  {
    if sorted != [] {
      InsertKeeps(s, sorted[1..]);
    }
  }

  /** `spread`: up to `n` of the offered slots, in order, on as many different days as possible, the
      earliest of each day and then the earliest of the rest. The count, the days and the choice are
      promised for ascending slots and `n` of at least one; otherwise only offered slots come out, all of
      them if there are no more than `n`, and for `n` = 0 all of them too. */
  method Spread(slots: seq<Slot>, n: nat) returns (r: seq<Slot>)
    ensures forall s :: s in r ==> s in slots
    ensures |slots| <= n ==> r == slots
    ensures n == 0 ==> forall s :: s in slots ==> s in r
    ensures n >= 1 && Ascending(slots) ==>
              Ascending(r) && |r| == Min(n, |slots|) && |DaysOf(r)| == Min(n, |DaysOf(slots)|)
              && EarliestFirst(r, slots)
  {
    CountDays(slots);
    if |slots| <= n {
      return slots;
    }
    var chosen, full := OnePerDay(slots, n);
    if full {
      ghost var k :| 0 <= k <= |slots| && chosen == FirstOfDays(slots[..k]);
      FirstOfDaysWithin(slots[..k]);
      assert forall s :: s in slots[..k] ==> s in slots;
      if Ascending(slots) {
        PrefixFacts(slots, k);
        PrefixIsEarliest(slots, k);
      }
      FirstOfDaysCovers(slots[..k]);
      return chosen;
    }
    FirstOfDaysWithin(slots);
    FirstOfDaysCovers(slots);
    ghost var firsts := chosen;
    if Ascending(slots) {
      FirstOfDaysAscends(slots);
    }
    chosen := FillUp(slots, n, chosen);
    assert slots[0] in slots && UtcDay(slots[0]) in DaysOf(slots);
    assert firsts[0] in firsts && firsts[0] in chosen;
    SortedKeeps(chosen);
    r := Sorted(chosen);
    if n >= 1 && Ascending(slots) {
      SortedAscends(chosen);
      SameDays(r, slots, firsts);
      FilledIsEarliest(slots, chosen);
      SameChoice(chosen, r, slots);
    }
  }

  lemma PrefixFacts(slots: seq<Slot>, k: nat)
    requires Ascending(slots) && k <= |slots|
    ensures var r := FirstOfDays(slots[..k]);
            Ascending(r) && (forall s :: s in r ==> s in slots) && |DaysOf(r)| == |r| <= |DaysOf(slots)|
  {
    FirstOfDaysAscends(slots[..k]);
    FirstOfDaysWithin(slots[..k]);
    FirstOfDaysCovers(slots[..k]);
    SubsetIsSmaller(DaysOf(slots[..k]), DaysOf(slots));
  }
}
