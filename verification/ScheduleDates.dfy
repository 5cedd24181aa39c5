/**
 One-off dates over a weekly schedule, and when a room that was switched off
 powers on again (nightly/schedule_dates.go). A day is a number; days last
 86,400 seconds (no daylight saving); an instant is local seconds since day 0,
 a Monday.
 */
module ScheduleDates {
  import opened Common

  const DAY: Time := 86_400
  const MINUTE: Time := 60
  /** How many days after the switch-off are searched. */
  const FORTNIGHT: int := 14

  type Room = nat
  type Tag = nat
  type Day = int
  /** A time of day in seconds, as the database's `time` columns hold it. */
  type TimeOfDay = t: Time | 0 <= t < 86_400

  /** A date closes the day, or opens it, perhaps with times of its own. */
  datatype SchedDate = SchedDate(closed: bool, on: Option<TimeOfDay>, off: Option<TimeOfDay>)

  /** One organisation's dates. roomTags: each room's tags, highest priority first. */
  datatype DateBook = DateBook(estate: map<Day, SchedDate>,
                               rooms: map<Room, map<Day, SchedDate>>,
                               tags: map<Tag, map<Day, SchedDate>>,
                               roomTags: map<Room, seq<Tag>>)

  datatype Plan = Plan(active: bool, on: TimeOfDay, off: TimeOfDay)

  const NO_PLAN := Plan(false, 0, 0)

  function Entry<K>(m: map<K, map<Day, SchedDate>>, k: K, day: Day): Option<SchedDate> {
    if k in m && day in m[k] then Some(m[k][day]) else None
  }

  function TagsOf(b: DateBook, room: Room): seq<Tag> {
    if room in b.roomTags then b.roomTags[room] else []
  }

  function FirstTagged(b: DateBook, tags: seq<Tag>, day: Day): Option<SchedDate> {
    if tags == [] then None
    else if Entry(b.tags, tags[0], day).Some? then Entry(b.tags, tags[0], day)
    else FirstTagged(b, tags[1..], day)
  }

  /** The date that applies: the room's own, else its first tag's that has one, else the estate's. */
  function Lookup(b: Option<DateBook>, room: Room, day: Day): Option<SchedDate> {
    if b.None? then None
    else if Entry(b.value.rooms, room, day).Some? then Entry(b.value.rooms, room, day)
    else if FirstTagged(b.value, TagsOf(b.value, room), day).Some? then FirstTagged(b.value, TagsOf(b.value, room), day)
    else if day in b.value.estate then Some(b.value.estate[day])
    else None
  }

  /** 1 is Monday, 7 is Sunday. */
  function IsoWeekday(day: Day): int {
    day % 7 + 1
  }

  function DayPlan(b: Option<DateBook>, room: Room, day: Day, days: seq<int>, on: TimeOfDay, off: TimeOfDay): Plan {
    match Lookup(b, room, day)
    case Some(d) =>
      if d.closed then NO_PLAN
      else Plan(true, if d.on.Some? then d.on.value else on, if d.off.Some? then d.off.value else off)
    case None => Plan(IsoWeekday(day) in days, on, off)
  }

  /** The instant of a time of day, to the minute: time.Date is given hours and minutes only. */
  function At(day: Day, t: TimeOfDay): Time {
    day * DAY + t / MINUTE * MINUTE
  }

  function DayOf(t: Time): Day {
    t / DAY
  }

  /** The last day that is searched after a switch-off. */
  function LastDay(off: Time): Day {
    DayOf(off) + FORTNIGHT
  }

  /** The first power-on after off, on the given day or a later one of the fortnight. */
  function NextFrom(off: Time, planFor: Day -> Plan, day: Day): Option<Time>
    decreases LastDay(off) + 1 - day
  {
    if LastDay(off) < day then None
    else if planFor(day).active && off < At(day, planFor(day).on) then Some(At(day, planFor(day).on))
    else NextFrom(off, planFor, day + 1)
  }

  function NextPowerOn(off: Time, planFor: Day -> Plan): Option<Time> {
    NextFrom(off, planFor, DayOf(off))
  }

  // ------------------------------------------------- as the scheduler runs them

  /** lookup: the loop over the room's tags. */
  method FindDate(b: Option<DateBook>, room: Room, day: Day) returns (d: Option<SchedDate>)
    ensures d == Lookup(b, room, day)
  {
    if b.None? {
      return None;
    }
    d := Entry(b.value.rooms, room, day);
    if d.Some? {
      return;
    }
    var tags := TagsOf(b.value, room);
    var i := 0;
    while i < |tags|
      invariant 0 <= i <= |tags|
      invariant FirstTagged(b.value, tags, day) == FirstTagged(b.value, tags[i..], day)
    {
      d := Entry(b.value.tags, tags[i], day);
      if d.Some? {
        return;
      }
      i := i + 1;
    }
    d := if day in b.value.estate then Some(b.value.estate[day]) else None;
  }

  /** The search of nextPowerOn. None is the zero time: no day of the fortnight is in use. */
  method SearchPowerOn(off: Time, planFor: Day -> Plan) returns (on: Option<Time>)
    ensures on == NextPowerOn(off, planFor)
  {
    var base := DayOf(off);
    var i := 0;
    while i <= FORTNIGHT
      invariant 0 <= i <= FORTNIGHT + 1
      invariant NextPowerOn(off, planFor) == NextFrom(off, planFor, base + i)
    {
      var p := planFor(base + i);
      if p.active {
        var t := At(base + i, p.on);
        if off < t {
          return Some(t);
        }
      }
      i := i + 1;
    }
    on := None;
  }

  // ------------------------------------------------- what they mean

  /** Which of the three levels decides a room's day. */
  lemma {:induction false} FirstTaggedIsFirst(b: DateBook, tags: seq<Tag>, day: Day)
    ensures FirstTagged(b, tags, day).Some? <==> exists k :: 0 <= k < |tags| && Entry(b.tags, tags[k], day).Some?
    ensures forall k | 0 <= k < |tags| && Entry(b.tags, tags[k], day).Some?
              && (forall j :: 0 <= j < k ==> Entry(b.tags, tags[j], day).None?) ::
              FirstTagged(b, tags, day) == Entry(b.tags, tags[k], day)
  {
    if tags != [] {
      FirstTaggedIsFirst(b, tags[1..], day);
      assert forall k :: 0 < k < |tags| ==> tags[k] == tags[1..][k - 1];
    }
  }

  /**
   Precedence: a room's own date beats every tag and the estate; then the tag of
   the highest priority that has a date that day; then the estate; then the
   weekly days.
   */
  lemma DatesTakePrecedence(b: DateBook, room: Room, day: Day, days: seq<int>, on: TimeOfDay, off: TimeOfDay, k: nat)
    requires k < |TagsOf(b, room)| ==> Entry(b.tags, TagsOf(b, room)[k], day).Some?
    requires forall j :: 0 <= j < k && j < |TagsOf(b, room)| ==> Entry(b.tags, TagsOf(b, room)[j], day).None?
    ensures var d := Lookup(Some(b), room, day);
            if Entry(b.rooms, room, day).Some? then d == Entry(b.rooms, room, day)
            else if k < |TagsOf(b, room)| then d == Entry(b.tags, TagsOf(b, room)[k], day)
            else if day in b.estate then d == Some(b.estate[day])
            else d == None && DayPlan(Some(b), room, day, days, on, off) == Plan(IsoWeekday(day) in days, on, off)
    ensures Lookup(Some(b), room, day).Some? ==>
              var d, plan := Lookup(Some(b), room, day).value, DayPlan(Some(b), room, day, days, on, off);
              && (plan.active <==> !d.closed)
              && (!d.closed ==> plan.on == if d.on.Some? then d.on.value else on)
              && (!d.closed ==> plan.off == if d.off.Some? then d.off.value else off)
  {
    FirstTaggedIsFirst(b, TagsOf(b, room), day);
  }

  /** An instant of a day is on that day, at the start of its minute; weekdays run from Monday to Sunday. */
  lemma InstantsAreOfTheirDay(day: Day, t: TimeOfDay)
    ensures DayOf(At(day, t)) == day && At(day, t) <= day * DAY + t < At(day, t) + 60
    ensures (At(day, t) - day * DAY) % 60 == 0
    ensures IsoWeekday(0) == 1 && IsoWeekday(day + 1) == if IsoWeekday(day) == 7 then 1 else IsoWeekday(day) + 1
  {
  }

  /** Without any dates a room is in use on its weekly days, at its weekly times. */
  lemma NoDatesNoChange(room: Room, day: Day, days: seq<int>, on: TimeOfDay, off: TimeOfDay)
    ensures DayPlan(None, room, day, days, on, off) == Plan(IsoWeekday(day) in days, on, off)
  {
  }

  /**
   t is when one of the days in use, from the given day to the end of off's
   fortnight, powers on, and that is after off.
   */
  ghost predicate IsPowerOnFrom(off: Time, planFor: Day -> Plan, day: Day, t: Time) {
    exists d :: day <= d <= LastDay(off) && PowersOnAt(off, planFor, d, t)
  }

  predicate PowersOnAt(off: Time, planFor: Day -> Plan, day: Day, t: Time) {
    planFor(day).active && t == At(day, planFor(day).on) && off < t
  }

  lemma {:induction false} NextFromIsLeast(off: Time, planFor: Day -> Plan, day: Day)
    ensures NextFrom(off, planFor, day).Some? ==> IsPowerOnFrom(off, planFor, day, NextFrom(off, planFor, day).value)
    ensures forall t :: IsPowerOnFrom(off, planFor, day, t) ==>
              NextFrom(off, planFor, day).Some? && NextFrom(off, planFor, day).value <= t
    decreases LastDay(off) + 1 - day
  {
    if day <= LastDay(off) {
      NextFromIsLeast(off, planFor, day + 1);
      var here := At(day, planFor(day).on);
      forall t | IsPowerOnFrom(off, planFor, day, t)
        ensures PowersOnAt(off, planFor, day, t) || (IsPowerOnFrom(off, planFor, day + 1, t) && here < t)
      {
        var d :| day <= d <= LastDay(off) && PowersOnAt(off, planFor, d, t);
        if d != day {
          LaterDaysAreLater(day, d, planFor(day).on, planFor(d).on);
        }
      }
      if planFor(day).active && off < here {
        assert PowersOnAt(off, planFor, day, here);
      } else if NextFrom(off, planFor, day + 1).Some? {
        var d :| day + 1 <= d <= LastDay(off) && PowersOnAt(off, planFor, d, NextFrom(off, planFor, day + 1).value);
      }
    }
  }

  lemma LaterDaysAreLater(d: Day, e: Day, t: TimeOfDay, u: TimeOfDay)
    requires d < e
    ensures At(d, t) < At(e, u)
  {
  }

  /**
   The search finds the least power-on instant strictly after the switch-off
   among all days in use of the fortnight, and nothing exactly when there is none.
   */
  lemma NextPowerOnIsLeast(off: Time, planFor: Day -> Plan)
    ensures NextPowerOn(off, planFor).None? <==> forall t :: !IsPowerOnFrom(off, planFor, DayOf(off), t)
    ensures NextPowerOn(off, planFor).Some? ==>
              && IsPowerOnFrom(off, planFor, DayOf(off), NextPowerOn(off, planFor).value)
              && forall t :: IsPowerOnFrom(off, planFor, DayOf(off), t) ==> NextPowerOn(off, planFor).value <= t
  {
    NextFromIsLeast(off, planFor, DayOf(off));
  }

  // ------------------------------------------------- the dates that are loaded

  /** loadDateBooks reads the dates from two days before today to sixteen after it. */
  const BACK: int := 2
  const AHEAD: int := 16

  function Within(m: map<Day, SchedDate>, lo: Day, hi: Day): map<Day, SchedDate> {
    map d | d in m && lo <= d <= hi :: m[d]
  }

  /** What the scheduler has in memory of the organisation's dates on a given day. */
  function Loaded(b: DateBook, today: Day): DateBook {
    var lo, hi := today - BACK, today + AHEAD;
    DateBook(Within(b.estate, lo, hi),
             map r | r in b.rooms :: Within(b.rooms[r], lo, hi),
             map g | g in b.tags :: Within(b.tags[g], lo, hi),
             b.roomTags)
  }

  function PlanFor(b: DateBook, room: Room, days: seq<int>, on: TimeOfDay): Day -> Plan {
    day => DayPlan(Some(b), room, day, days, on, 0)
  }

  /** On every day of a fortnight that starts at base, today's dates give the answer that all dates give. */
  ghost predicate LoadedIsEnough(base: Day, today: Day) {
    forall b: DateBook, room: Room, days: seq<int>, on: TimeOfDay, off: Time :: DayOf(off) == base ==>
      NextPowerOn(off, PlanFor(Loaded(b, today), room, days, on)) == NextPowerOn(off, PlanFor(b, room, days, on))
  }

  lemma {:induction false} FirstTaggedLoaded(b: DateBook, tags: seq<Tag>, today: Day, day: Day)
    requires today - BACK <= day <= today + AHEAD
    ensures FirstTagged(Loaded(b, today), tags, day) == FirstTagged(b, tags, day)
  {
    if tags != [] {
      FirstTaggedLoaded(b, tags[1..], today, day);
    }
  }

  lemma {:induction false} SamePlansSameSearch(off: Time, p: Day -> Plan, q: Day -> Plan, day: Day)
    requires forall d :: day <= d <= LastDay(off) ==> p(d) == q(d)
    ensures NextFrom(off, p, day) == NextFrom(off, q, day)
    decreases LastDay(off) + 1 - day
  {
    if day <= LastDay(off) {
      SamePlansSameSearch(off, p, q, day + 1);
    }
  }

  /**
   Only the fortnight after the switch-off is ever searched: dates further on never
   bring a waiting run its power-on.
   */
  lemma LaterDatesDontMatter(b: DateBook, c: DateBook, room: Room, days: seq<int>, on: TimeOfDay, off: Time)
    requires forall day :: DayOf(off) <= day <= LastDay(off) ==>
             Lookup(Some(b), room, day) == Lookup(Some(c), room, day)
    ensures NextPowerOn(off, PlanFor(b, room, days, on)) == NextPowerOn(off, PlanFor(c, room, days, on))
  {
    SamePlansSameSearch(off, PlanFor(b, room, days, on), PlanFor(c, room, days, on), DayOf(off));
  }

  /** Open only on the date day, by an estate-wide date. */
  function OpenOn(day: Day): DateBook {
    DateBook(map[day := SchedDate(false, None, None)], map[], map[], map[])
  }

  function ClosedOn(day: Day): DateBook {
    DateBook(map[day := SchedDate(true, None, None)], map[], map[], map[])
  }

  lemma PowersOnOnActiveDays(off: Time, planFor: Day -> Plan)
    ensures var next := NextPowerOn(off, planFor); next.Some? ==> planFor(DayOf(next.value)).active
  {
    NextPowerOnIsLeast(off, planFor);
    var next := NextPowerOn(off, planFor);
    if next.Some? {
      var d :| DayOf(off) <= d <= LastDay(off) && PowersOnAt(off, planFor, d, next.value);
      assert DayOf(next.value) == d;
    }
  }

  /** A closed day that has dropped out of the loaded dates is taken for an open one. */
  lemma OldClosureIsForgotten(base: Day, today: Day)
    requires base < today - BACK
    ensures !LoadedIsEnough(base, today)
  {
    var b, off, days := ClosedOn(base), base * DAY, [1, 2, 3, 4, 5, 6, 7];
    var p, q := PlanFor(Loaded(b, today), 0, days, 60), PlanFor(b, 0, days, 60);
    assert DayOf(off) == base;
    assert p(base) == Plan(true, 60, 0) && At(base, 60) == off + 60;
    assert NextPowerOn(off, p) == Some(At(base, 60));
    PowersOnOnActiveDays(off, q);
    assert DayOf(At(base, 60)) == base && q(base) == NO_PLAN;
    assert NextPowerOn(off, q) != Some(At(base, 60));
  }

  /** The other edge: an opening that isn't loaded yet. */
  lemma FarOpeningIsNotSeen(base: Day, today: Day)
    requires today + AHEAD < base + FORTNIGHT
    ensures !LoadedIsEnough(base, today)
  {
    var b, off := OpenOn(base + FORTNIGHT), base * DAY;
    var p, q := PlanFor(Loaded(b, today), 0, [], 60), PlanFor(b, 0, [], 60);
    assert DayOf(off) == base;
    NextPowerOnIsLeast(off, p);
    NextPowerOnIsLeast(off, q);
    assert forall d :: !p(d).active;
    assert PowersOnAt(off, q, base + FORTNIGHT, At(base + FORTNIGHT, 60));
    assert IsPowerOnFrom(off, q, base, At(base + FORTNIGHT, 60));
    assert NextPowerOn(off, p) != NextPowerOn(off, q);
  }

  /** In the days that are loaded, the loaded dates give the plan that all dates give. */
  lemma SamePlanInside(b: DateBook, today: Day, room: Room, days: seq<int>, on: TimeOfDay, day: Day)
    requires today - BACK <= day <= today + AHEAD
    ensures PlanFor(Loaded(b, today), room, days, on)(day) == PlanFor(b, room, days, on)(day)
  {
    FirstTaggedLoaded(b, TagsOf(b, room), today, day);
  }

  lemma {:induction false} NothingTagged(b: DateBook, tags: seq<Tag>, today: Day, day: Day)
    requires !(today - BACK <= day <= today + AHEAD)
    ensures FirstTagged(Loaded(b, today), tags, day) == None
  {
    if tags != [] {
      NothingTagged(b, tags[1..], today, day);
    }
  }

  /** Outside them, only the weekly days count. */
  lemma WeeklyPlanOutside(b: DateBook, today: Day, room: Room, days: seq<int>, on: TimeOfDay, day: Day)
    requires !(today - BACK <= day <= today + AHEAD)
    ensures PlanFor(Loaded(b, today), room, days, on)(day) == Plan(IsoWeekday(day) in days, on, 0)
  {
    NothingTagged(b, TagsOf(b, room), today, day);
  }

  /**
   The dates loaded on a day answer as all dates do, whatever the dates and the
   switch-off, exactly when the switch-off lies no more than two days back (and no
   more than two ahead).
   */
  lemma LoadedIsEnoughExactly(base: Day, today: Day)
    ensures LoadedIsEnough(base, today) <==> today - BACK <= base && base + FORTNIGHT <= today + AHEAD
  {
    if base < today - BACK {
      OldClosureIsForgotten(base, today);
    } else if today + AHEAD < base + FORTNIGHT {
      FarOpeningIsNotSeen(base, today);
    } else {
      forall b: DateBook, room: Room, days: seq<int>, on: TimeOfDay, off: Time | DayOf(off) == base
        ensures NextPowerOn(off, PlanFor(Loaded(b, today), room, days, on))
                == NextPowerOn(off, PlanFor(b, room, days, on))
      {
        SameSearchInside(b, today, room, days, on, off, base);
      }
    }
  }

  lemma SameSearchInside(b: DateBook, today: Day, room: Room, days: seq<int>, on: TimeOfDay, off: Time, from: Day)
    requires today - BACK <= from && LastDay(off) <= today + AHEAD
    ensures NextFrom(off, PlanFor(Loaded(b, today), room, days, on), from)
            == NextFrom(off, PlanFor(b, room, days, on), from)
  {
    forall day | from <= day <= LastDay(off)
      ensures PlanFor(Loaded(b, today), room, days, on)(day) == PlanFor(b, room, days, on)(day)
    {
      SamePlanInside(b, today, room, days, on, day);
    }
    SamePlansSameSearch(off, PlanFor(Loaded(b, today), room, days, on), PlanFor(b, room, days, on), from);
  }

  // ------------------------------------------------- the switch-offs that runs have

  /**
   A switch-off on a day in use, as every run's is. late: it comes after the day's
   power-on, by the day's own times and by the weekly ones.
   */
  predicate InUse(b: DateBook, room: Room, days: seq<int>, on: TimeOfDay, off: Time, late: bool) {
    var p := PlanFor(b, room, days, on)(DayOf(off));
    p.active && (late ==> At(DayOf(off), p.on) <= off && At(DayOf(off), on) <= off)
  }

  ghost predicate LoadedIsEnoughInUse(base: Day, today: Day, late: bool) {
    forall b: DateBook, room: Room, days: seq<int>, on: TimeOfDay, off: Time ::
      DayOf(off) == base && InUse(b, room, days, on, off, late) ==>
        NextPowerOn(off, PlanFor(Loaded(b, today), room, days, on)) == NextPowerOn(off, PlanFor(b, room, days, on))
  }

  const EVERY_DAY := [1, 2, 3, 4, 5, 6, 7]

  lemma EveryDayIsInIt(day: Day)
    ensures IsoWeekday(day) in EVERY_DAY
  {
    assert EVERY_DAY[IsoWeekday(day) - 1] == IsoWeekday(day);
  }

  /** A power-on that one of two plans has and the other hasn't sets them apart. */
  lemma DifferentSearches(off: Time, p: Day -> Plan, q: Day -> Plan, day: Day)
    requires DayOf(off) <= day <= LastDay(off) && p(day).active && off < At(day, p(day).on)
    requires forall d :: DayOf(off) <= d < day ==> !(q(d).active && off < At(d, q(d).on))
    requires !q(day).active || At(day, q(day).on) != At(day, p(day).on)
    requires forall d :: DayOf(off) <= d < day ==> !(p(d).active && off < At(d, p(d).on))
    ensures NextPowerOn(off, p) != NextPowerOn(off, q)
  {
    FirstFrom(off, p, DayOf(off), day);
    PowersOnOnActiveDays(off, q);
    NextPowerOnIsLeast(off, q);
    if NextPowerOn(off, q) == Some(At(day, p(day).on)) {
      SearchedTime(off, q);
    }
  }

  lemma SearchedTime(off: Time, q: Day -> Plan)
    ensures var next := NextPowerOn(off, q); next.Some? ==> next.value == At(DayOf(next.value), q(DayOf(next.value)).on)
  {
    NextPowerOnIsLeast(off, q);
    var next := NextPowerOn(off, q);
    if next.Some? {
      var d :| DayOf(off) <= d <= LastDay(off) && PowersOnAt(off, q, d, next.value);
      assert DayOf(next.value) == d;
    }
  }

  lemma {:induction false} FirstFrom(off: Time, p: Day -> Plan, from: Day, day: Day)
    requires from <= day <= LastDay(off) && p(day).active && off < At(day, p(day).on)
    requires forall d :: from <= d < day ==> !(p(d).active && off < At(d, p(d).on))
    ensures NextFrom(off, p, from) == Some(At(day, p(day).on))
    decreases day - from
  {
    if from < day {
      FirstFrom(off, p, from + 1, day);
    }
  }

  /** The switch-off's own day had times of its own, which are forgotten: it seems to power on later that day. */
  lemma OwnTimesAreForgotten(base: Day, today: Day)
    requires base < today - BACK
    ensures !LoadedIsEnoughInUse(base, today, false)
  {
    var b, off := DateBook(map[base := SchedDate(false, Some(0), None)], map[], map[], map[]), base * DAY;
    var p, q := PlanFor(Loaded(b, today), 0, EVERY_DAY, 60), PlanFor(b, 0, EVERY_DAY, 60);
    EveryDayIsInIt(base);
    WeeklyPlanOutside(b, today, 0, EVERY_DAY, 60, base);
    assert DayOf(off) == base && InUse(b, 0, EVERY_DAY, 60, off, false);
    assert At(base, 60) == off + 60 && At(base, 0) == off;
    DifferentSearches(off, p, q, base);
  }

  /** The day after the switch-off was closed, which is forgotten. */
  lemma NextClosureIsForgotten(base: Day, today: Day, late: bool)
    requires base + 1 < today - BACK
    ensures !LoadedIsEnoughInUse(base, today, late)
  {
    var b, off := ClosedOn(base + 1), base * DAY + 60;
    var p, q := PlanFor(Loaded(b, today), 0, EVERY_DAY, 60), PlanFor(b, 0, EVERY_DAY, 60);
    EveryDayIsInIt(base);
    EveryDayIsInIt(base + 1);
    WeeklyPlanOutside(b, today, 0, EVERY_DAY, 60, base);
    WeeklyPlanOutside(b, today, 0, EVERY_DAY, 60, base + 1);
    assert DayOf(off) == base && At(base, 60) == off && InUse(b, 0, EVERY_DAY, 60, off, late);
    DifferentSearches(off, p, q, base + 1);
  }

  /** A room that is in use on single days by date only, the next of which isn't loaded yet. */
  lemma FarOpeningIsNotSeenInUse(base: Day, today: Day, late: bool)
    requires today + AHEAD < base + FORTNIGHT
    ensures !LoadedIsEnoughInUse(base, today, late)
  {
    var open := SchedDate(false, None, None);
    var b, off := DateBook(map[base := open, base + FORTNIGHT := open], map[], map[], map[]), base * DAY + 60;
    var p, q := PlanFor(Loaded(b, today), 0, [], 60), PlanFor(b, 0, [], 60);
    WeeklyPlanOutside(b, today, 0, [], 60, base + FORTNIGHT);
    assert DayOf(off) == base && At(base, 60) == off && InUse(b, 0, [], 60, off, late);
    DifferentSearches(off, q, p, base + FORTNIGHT);
  }

  /**
   For the switch-offs that runs have, two days back is the exact bound as well: a
   day in use may have had times of its own. It is three days for switch-offs after
   the day's power-on, by the day's own times and by the weekly ones: their own day
   doesn't count any more.
   */
  lemma LoadedIsEnoughInUseExactly(base: Day, today: Day, late: bool)
    ensures LoadedIsEnoughInUse(base, today, late)
            <==> today - BACK - (if late then 1 else 0) <= base && base + FORTNIGHT <= today + AHEAD
  {
    if today + AHEAD < base + FORTNIGHT {
      FarOpeningIsNotSeenInUse(base, today, late);
    } else if base + 1 < today - BACK {
      NextClosureIsForgotten(base, today, late);
    } else if base < today - BACK && !late {
      OwnTimesAreForgotten(base, today);
    } else {
      forall b: DateBook, room: Room, days: seq<int>, on: TimeOfDay, off: Time
        | DayOf(off) == base && InUse(b, room, days, on, off, late)
        ensures NextPowerOn(off, PlanFor(Loaded(b, today), room, days, on))
                == NextPowerOn(off, PlanFor(b, room, days, on))
      {
        if base < today - BACK {
          WeeklyPlanOutside(b, today, room, days, on, base);
          SameSearchInside(b, today, room, days, on, off, base + 1);
        } else {
          SameSearchInside(b, today, room, days, on, off, base);
        }
      }
    }
  }
}
