/**
 Whole histories of one lease row, as the cloud sees them: no assumption about
 what the collectors do. Two results: grants to different machines are kept
 apart (safety), and a lease never stays ungranted for long while somebody
 polls (liveness).
 */
module LeaseHistory {
  import opened Common
  import opened Lease

  /** One transaction on the row: when it really happened, and what the two clocks said. */
  datatype Event =
    | Acquire(m: Machine, at: Time, wall: Time, stamp: Time)
    | Handover(m: Machine, at: Time, stamp: Time)

  function Step(r: Row, e: Event): Row {
    match e
    case Acquire(m, _, wall, stamp) => Acquired(r, m, wall, stamp)
    case Handover(m, _, stamp) => HandoverRequested(r, m, stamp)
  }

  /** The row once the first k events have happened. */
  function RowAt(r: Row, es: seq<Event>, k: nat): Row
    requires k <= |es|
  {
    if k == 0 then r else Step(RowAt(r, es, k - 1), es[k - 1])
  }

  predicate Grants(r: Row, es: seq<Event>, k: nat, m: Machine)
    requires k < |es|
  {
    es[k].Acquire? && es[k].m == m && Decide(RowAt(r, es, k), m, es[k].wall) == Granted
  }

  predicate StepsDown(r: Row, es: seq<Event>, k: nat, m: Machine)
    requires k < |es|
  {
    es[k].Acquire? && es[k].m == m && Decide(RowAt(r, es, k), m, es[k].wall) == SteppedDown
  }

  /** Events in order; the database stamps at most lag behind, the process reads at most lead ahead. */
  ghost predicate Timely(es: seq<Event>, lag: Time, lead: Time) {
    && 0 <= lag && 0 <= lead
    && (forall i, j :: 0 <= i <= j < |es| ==> es[i].at <= es[j].at)
    && (forall i :: 0 <= i < |es| ==> es[i].at - lag <= es[i].stamp)
    && (forall i :: 0 <= i < |es| && es[i].Acquire? ==> es[i].wall <= es[i].at + lead)
  }

  // ---------------------------------------------------------------- separation

  /** Nobody is granted this row before the process clock reaches t. */
  predicate ClosedUntil(r: Row, t: Time) {
    && r.holder.Some?
    && r.notBefore.Some? && t <= r.notBefore.value
    && r.expires.Some? && t <= r.expires.value
  }

  /**
   What stands between the grant of event i and a grant to somebody else, once
   k events have happened: the lease is still the first machine's, or that
   machine stepped down and the grace is on or over, or a full lease has passed.
   */
  ghost predicate Barrier(r: Row, es: seq<Event>, i: nat, k: nat, lag: Time, lead: Time)
    requires i < k <= |es|
  {
    var row, now := RowAt(r, es, k), es[k - 1].at;
    || (row.holder == Some(es[i].m) && row.expires.Some? && es[i].at + TTL - lag <= row.expires.value)
    || (exists s: nat :: i < s < k && StepsDown(r, es, s, es[i].m)
          && (ClosedUntil(row, es[s].at + HANDOVER_GRACE - lag) || es[s].at + HANDOVER_GRACE - lag - lead <= now))
    || es[i].at + TTL - lag - lead <= now
  }

  lemma BarrierStands(r: Row, es: seq<Event>, i: nat, k: nat, lag: Time, lead: Time)
    requires i < k < |es| && Timely(es, lag, lead) && Barrier(r, es, i, k, lag, lead)
    ensures Barrier(r, es, i, k + 1, lag, lead)
  {
    var row, now := RowAt(r, es, k), es[k - 1].at;
    var m1, e := es[i].m, es[k];
    assert RowAt(r, es, k + 1) == Step(row, e);
    if row.holder == Some(m1) && row.expires.Some? && es[i].at + TTL - lag <= row.expires.value {
      if e.Acquire? && StepsDown(r, es, k, m1) {
        assert ClosedUntil(Step(row, e), e.at + HANDOVER_GRACE - lag);
      }
    } else if es[i].at + TTL - lag - lead <= now {
    } else {
      var s: nat :| i < s < k && StepsDown(r, es, s, m1)
        && (ClosedUntil(row, es[s].at + HANDOVER_GRACE - lag) || es[s].at + HANDOVER_GRACE - lag - lead <= now);
      assert ClosedUntil(Step(row, e), es[s].at + HANDOVER_GRACE - lag)
          || es[s].at + HANDOVER_GRACE - lag - lead <= e.at;
    }
  }

  lemma {:induction false} BarrierFrom(r: Row, es: seq<Event>, i: nat, k: nat, lag: Time, lead: Time)
    requires i < k <= |es| && Timely(es, lag, lead) && Grants(r, es, i, es[i].m)
    ensures Barrier(r, es, i, k, lag, lead)
  {
    if k == i + 1 {
      assert RowAt(r, es, k) == Step(RowAt(r, es, i), es[i]);
    } else {
      BarrierFrom(r, es, i, k - 1, lag, lead);
      BarrierStands(r, es, i, k - 1, lag, lead);
    }
  }

  /**
   Grant separation. If one machine is granted the lease and later another is,
   then a full TTL lies between the two, or the first machine itself stepped
   down in between and the second waited out HANDOVER_GRACE after that. Chained
   and redirected handovers, renewals and lapses in between change nothing. The
   clocks can take away no more than their skew.
   */
  lemma GrantsAreSeparated(r: Row, es: seq<Event>, i: nat, j: nat, lag: Time, lead: Time)
    requires i < j < |es| && Timely(es, lag, lead)
    requires es[i].m != es[j].m && Grants(r, es, i, es[i].m) && Grants(r, es, j, es[j].m)
    ensures || es[i].at + TTL - lag - lead <= es[j].at
            || exists s: nat :: i < s < j && StepsDown(r, es, s, es[i].m)
                 && es[s].at + HANDOVER_GRACE - lag - lead <= es[j].at
  {
    BarrierFrom(r, es, i, j, lag, lead);
    if !(es[i].at + TTL - lag - lead <= es[j].at) {
      var row := RowAt(r, es, j);
      assert !(row.holder == Some(es[i].m) && row.expires.Some? && es[i].at + TTL - lag <= row.expires.value);
    }
  }

  /** A handover's target is granted no sooner than the grace, and the machine that left is not granted before it. */
  lemma StepDownClosesTheLease(r: Row, es: seq<Event>, s: nat, j: nat, m: Machine, lag: Time, lead: Time)
    requires s < j < |es| && Timely(es, lag, lead)
    requires StepsDown(r, es, s, es[s].m) && Grants(r, es, j, m)
    ensures es[s].at + HANDOVER_GRACE - lag - lead <= es[j].at
  {
    ClosedFrom(r, es, s, j, lag, lead);
  }

  lemma {:induction false} ClosedFrom(r: Row, es: seq<Event>, s: nat, k: nat, lag: Time, lead: Time)
    requires s < k <= |es| && Timely(es, lag, lead) && StepsDown(r, es, s, es[s].m)
    ensures ClosedUntil(RowAt(r, es, k), es[s].at + HANDOVER_GRACE - lag)
            || es[s].at + HANDOVER_GRACE - lag - lead <= es[k - 1].at
  {
    if k == s + 1 {
      assert RowAt(r, es, k) == Step(RowAt(r, es, s), es[s]);
    } else {
      ClosedFrom(r, es, s, k - 1, lag, lead);
      assert RowAt(r, es, k) == Step(RowAt(r, es, k - 1), es[k - 1]);
    }
  }

  // ---------------------------------------------------------------- bounded failover

  /** Machine m polls at least once in every stretch of length p that starts at from or later and ends by until. */
  ghost predicate PollsEvery(es: seq<Event>, m: Machine, p: Time, from: Time, until: Time) {
    forall lo, hi :: from <= lo && hi == lo + p && hi <= until ==> PollsWithin(es, m, lo, hi)
  }

  ghost predicate PollsWithin(es: seq<Event>, m: Machine, lo: Time, hi: Time) {
    exists k :: 0 <= k < |es| && es[k].Acquire? && es[k].m == m && lo <= es[k].at <= hi
  }

  /** The wall clock is never more than behind late. */
  ghost predicate WallKeepsUp(es: seq<Event>, behind: Time) {
    forall i :: 0 <= i < |es| && es[i].Acquire? ==> es[i].at - behind <= es[i].wall
  }

  /** When the row's lease runs out; at once if nobody holds it. */
  function LapseTime(r: Row, now: Time): Time {
    if r.holder.None? || r.expires.None? then now else r.expires.value
  }

  /** The row's lease can't start later than it ends; every operation keeps it so. */
  predicate Ordered(r: Row) {
    r.notBefore.Some? ==> r.expires.Some? && r.notBefore.value <= r.expires.value
  }

  lemma {:induction false} RowsStayOrdered(r: Row, es: seq<Event>, k: nat)
    requires k <= |es| && Ordered(r)
    ensures Ordered(RowAt(r, es, k))
  {
    if k > 0 {
      RowsStayOrdered(r, es, k - 1);
    }
  }

  /** With no handover pending or asked for, the row moves only by a grant. */
  lemma {:induction false} OnlyGrantsMoveTheRow(r: Row, es: seq<Event>, i: nat, k: nat)
    requires i <= k <= |es| && RowAt(r, es, i).handover.None?
    requires forall x :: i <= x < k ==> es[x].Acquire?
    requires forall x :: i <= x < k ==> !Grants(r, es, x, es[x].m)
    ensures RowAt(r, es, k) == RowAt(r, es, i)
  {
    if i < k {
      OnlyGrantsMoveTheRow(r, es, i, k - 1);
      assert !Grants(r, es, k - 1, es[k - 1].m);
    }
  }

  /**
   Bounded failover. From any point i of a history at which no handover is
   pending, while none is asked for, if some machine keeps polling every p, then
   some machine is granted the lease within what is left of it, plus p (plus the
   clock's lateness), whatever became of the machine that held it.
   */
  lemma FailoverIsBounded(r: Row, es: seq<Event>, i: nat, m: Machine, p: Time, behind: Time, from: Time, until: Time)
      returns (k: nat)
    requires i <= |es| && Ordered(r) && RowAt(r, es, i).handover.None?
    requires forall x :: i <= x < |es| ==> es[x].Acquire?
    requires forall x, y :: 0 <= x <= y < |es| ==> es[x].at <= es[y].at
    requires forall x :: 0 <= x < i ==> es[x].at < from
    requires 0 <= behind && WallKeepsUp(es, behind) && PollsEvery(es, m, p, from, until)
    requires Max(from, LapseTime(RowAt(r, es, i), from) + behind) + p <= until
    ensures i <= k < |es| && Grants(r, es, k, es[k].m)
    ensures es[k].at <= Max(from, LapseTime(RowAt(r, es, i), from) + behind) + p
  {
    var due := Max(from, LapseTime(RowAt(r, es, i), from) + behind);
    assert PollsWithin(es, m, due, due + p);
    var x :| 0 <= x < |es| && es[x].Acquire? && es[x].m == m && due <= es[x].at <= due + p;
    if y: nat :| i <= y < x && Grants(r, es, y, es[y].m) {
      k := y;
    } else {
      k := x;
      OnlyGrantsMoveTheRow(r, es, i, x);
      RowsStayOrdered(r, es, i);
    }
  }

  /**
   A handover to a machine that is dead is undone by time alone: within the
   grace, one lease and p of the step-down, a machine that keeps polling is
   serving (or another is).
   */
  lemma HandoverToTheDeadIsBounded(r: Row, es: seq<Event>, s: nat, m: Machine, p: Time, behind: Time,
                                   from: Time, until: Time)
      returns (k: nat)
    requires s < |es| && Ordered(r) && StepsDown(r, es, s, es[s].m)
    requires es[s].stamp <= es[s].at < from <= es[s].at + HANDOVER_GRACE + TTL
    requires forall x :: s < x < |es| ==> es[x].Acquire?
    requires forall x, y :: 0 <= x <= y < |es| ==> es[x].at <= es[y].at
    requires 0 <= behind && WallKeepsUp(es, behind) && PollsEvery(es, m, p, from, until)
    requires es[s].at + HANDOVER_GRACE + TTL + behind + p <= until
    ensures s < k < |es| && Grants(r, es, k, es[k].m)
    ensures es[k].at <= es[s].at + HANDOVER_GRACE + TTL + behind + p
  {
    assert RowAt(r, es, s + 1) == Step(RowAt(r, es, s), es[s]);
    k := FailoverIsBounded(r, es, s + 1, m, p, behind, from, until);
  }

  // ---------------------------------------------------------------- a handover that is pending

  /** While a handover to m is pending, the row moves only by a grant to m or by its holder's step-down. */
  lemma {:induction false} PendingHandoverStays(r: Row, es: seq<Event>, i: nat, k: nat, m: Machine)
    requires i <= k <= |es| && RowAt(r, es, i).handover == Some(m)
    requires forall x :: i <= x < k ==> es[x].Acquire?
    requires forall x :: i <= x < k ==> !Answers(r, es, x, m)
    ensures RowAt(r, es, k) == RowAt(r, es, i)
  {
    if i < k {
      PendingHandoverStays(r, es, i, k - 1, m);
      assert !Answers(r, es, k - 1, m);
    }
  }

  /** The event answers a handover to m: with a grant to m, or the holder's step-down. */
  predicate Answers(r: Row, es: seq<Event>, k: nat, m: Machine)
    requires k < |es|
  {
    Grants(r, es, k, m) || StepsDown(r, es, k, es[k].m)
  }

  lemma {:induction false} FirstAnswer(r: Row, es: seq<Event>, i: nat, x: nat, m: Machine) returns (k: nat)
    requires i <= x < |es| && Answers(r, es, x, m)
    ensures i <= k <= x && Answers(r, es, k, m)
    ensures forall y :: i <= y < k ==> !Answers(r, es, y, m)
    decreases x - i
  {
    if Answers(r, es, i, m) {
      k := i;
    } else {
      k := FirstAnswer(r, es, i + 1, x, m);
    }
  }

  /**
   A handover that is pending is answered in time. From any point i of a history at
   which one to m is pending, while no other is asked for, m, which polls every p, is
   granted the lease within what is left of it, plus p, unless the holder is there to
   step down first. Until then the row stays as it is: nobody else is let in. With the
   grant the lease is m's, for a full TTL, and no handover is left.
   */
  lemma PendingHandoverIsAnswered(r: Row, es: seq<Event>, i: nat, m: Machine, p: Time, behind: Time,
                                  from: Time, until: Time)
      returns (k: nat)
    requires i <= |es| && Ordered(r) && RowAt(r, es, i).handover == Some(m)
    requires forall x :: i <= x < |es| ==> es[x].Acquire?
    requires forall x, y :: 0 <= x <= y < |es| ==> es[x].at <= es[y].at
    requires forall x :: 0 <= x < i ==> es[x].at < from
    requires 0 <= behind && WallKeepsUp(es, behind) && PollsEvery(es, m, p, from, until)
    requires Max(from, LapseTime(RowAt(r, es, i), from) + behind) + p <= until
    ensures i <= k < |es| && RowAt(r, es, k) == RowAt(r, es, i)
    ensures es[k].at <= Max(from, LapseTime(RowAt(r, es, i), from) + behind) + p
    ensures var row, stamp := RowAt(r, es, k + 1), es[k].stamp;
            || (Grants(r, es, k, m) && row == Row(Some(m), Some(stamp + TTL), None, None))
            || (StepsDown(r, es, k, es[k].m) && es[k].m != m && RowAt(r, es, i).holder == Some(es[k].m)
                && row == Row(Some(m), Some(stamp + HANDOVER_GRACE + TTL), Some(stamp + HANDOVER_GRACE), None))
  {
    var due := Max(from, LapseTime(RowAt(r, es, i), from) + behind);
    assert PollsWithin(es, m, due, due + p);
    var x :| 0 <= x < |es| && es[x].Acquire? && es[x].m == m && due <= es[x].at <= due + p;
    RowsStayOrdered(r, es, i);
    if y: nat :| i <= y < x && Answers(r, es, y, m) {
      k := FirstAnswer(r, es, i, y, m);
    } else {
      k := x;
    }
    PendingHandoverStays(r, es, i, k, m);
  }

  /** m holds the lease from a step-down on, and nobody else can be granted it yet. */
  predicate Reserved(r: Row, m: Machine, stamp: Time) {
    r == Row(Some(m), Some(stamp + HANDOVER_GRACE + TTL), Some(stamp + HANDOVER_GRACE), None)
  }

  /** While it is reserved, it moves only by a grant to m, and that comes with m's first poll after the grace. */
  lemma ReservedStep(r: Row, m: Machine, stamp: Time, e: Event)
    requires Reserved(r, m, stamp) && e.Acquire? && e.wall < stamp + HANDOVER_GRACE + TTL
    ensures Decide(r, e.m, e.wall) == Granted <==> e.m == m && stamp + HANDOVER_GRACE <= e.wall
    ensures Step(r, e) == if Decide(r, e.m, e.wall) == Granted then Row(Some(m), Some(e.stamp + TTL), None, None) else r
  {
  }

  /**
   The lease is kept for the target of a step-down: m, which polls every p, is granted it
   once the grace is over, and nobody else is before, as long as m's poll and the clocks
   are together late by less than a TTL.
   */
  lemma StepDownReachesItsTarget(r: Row, es: seq<Event>, s: nat, m: Machine, p: Time, behind: Time, lag: Time,
                                 lead: Time, from: Time, until: Time)
      returns (k: nat)
    requires s < |es| && StepsDown(r, es, s, es[s].m) && RowAt(r, es, s).handover == Some(m)
    requires Timely(es, lag, lead) && es[s].stamp <= es[s].at && from <= es[s].at
    requires forall x :: s < x < |es| ==> es[x].Acquire?
    requires 0 <= behind && WallKeepsUp(es, behind) && PollsEvery(es, m, p, from, until)
    requires behind + p + lag + lead < TTL && es[s].at + HANDOVER_GRACE + behind + p <= until
    ensures s < k < |es| && Grants(r, es, k, m) && es[k].at <= es[s].at + HANDOVER_GRACE + behind + p
    ensures forall x :: s < x < k ==> !Grants(r, es, x, es[x].m)
    ensures RowAt(r, es, k + 1) == Row(Some(m), Some(es[k].stamp + TTL), None, None)
  {
    var x := PollAfterGrace(es, s, m, p, behind, from, until);
    EarlyWalls(es, s, x, lag, lead, behind + p);
    assert RowAt(r, es, s + 1) == Step(RowAt(r, es, s), es[s]);
    k := TargetIsFirst(r, es, s, s + 1, x, m);
  }

  /** Of the grants from y to x, the first is m's, if m polls at x after the grace and before the lease has run out. */
  lemma {:induction false} TargetIsFirst(r: Row, es: seq<Event>, s: nat, y: nat, x: nat, m: Machine) returns (k: nat)
    requires s < y <= x < |es| && Reserved(RowAt(r, es, y), m, es[s].stamp)
    requires forall z :: s < z <= x ==> es[z].Acquire? && es[z].wall < es[s].stamp + HANDOVER_GRACE + TTL
    requires es[x].m == m && es[s].stamp + HANDOVER_GRACE <= es[x].wall
    ensures y <= k <= x && Grants(r, es, k, m)
    ensures forall z :: y <= z < k ==> !Grants(r, es, z, es[z].m)
    ensures RowAt(r, es, k + 1) == Row(Some(m), Some(es[k].stamp + TTL), None, None)
    decreases x - y
  {
    ReservedStep(RowAt(r, es, y), m, es[s].stamp, es[y]);
    assert RowAt(r, es, y + 1) == Step(RowAt(r, es, y), es[y]);
    if Grants(r, es, y, m) {
      k := y;
    } else {
      k := TargetIsFirst(r, es, s, y + 1, x, m);
    }
  }

  lemma PollAfterGrace(es: seq<Event>, s: nat, m: Machine, p: Time, behind: Time, from: Time, until: Time)
      returns (x: nat)
    requires s < |es| && forall y, z :: 0 <= y <= z < |es| ==> es[y].at <= es[z].at
    requires from <= es[s].at && 0 <= behind && WallKeepsUp(es, behind) && PollsEvery(es, m, p, from, until)
    requires es[s].at + HANDOVER_GRACE + behind + p <= until
    ensures s < x < |es| && es[x].Acquire? && es[x].m == m && es[s].at + HANDOVER_GRACE <= es[x].wall
    ensures es[x].at <= es[s].at + HANDOVER_GRACE + behind + p
  {
    var due := es[s].at + HANDOVER_GRACE + behind;
    assert PollsWithin(es, m, due, due + p);
    x :| 0 <= x < |es| && es[x].Acquire? && es[x].m == m && due <= es[x].at <= due + p;
  }

  /** Up to x the wall clock stays short of a whole lease after the grace. */
  lemma EarlyWalls(es: seq<Event>, s: nat, x: nat, lag: Time, lead: Time, late: Time)
    requires s < x < |es| && Timely(es, lag, lead) && late + lag + lead < TTL
    requires es[x].at <= es[s].at + HANDOVER_GRACE + late
    ensures forall y :: s < y <= x && es[y].Acquire? ==> es[y].wall < es[s].stamp + HANDOVER_GRACE + TTL
  {
    forall y | s < y <= x && es[y].Acquire? ensures es[y].wall < es[s].stamp + HANDOVER_GRACE + TTL {
      assert es[y].at <= es[x].at;
    }
  }

  /**
   Bounded handover. Whether the holder is dead, so that its lease has to run out, or is
   there to step down, so that the grace has to pass: m, which polls every p, serves within
   what is left of the lease, the grace and two polls, and its handover is done.
   */
  lemma HandoverIsBounded(r: Row, es: seq<Event>, i: nat, m: Machine, p: Time, behind: Time, lag: Time, lead: Time,
                          from: Time, until: Time)
      returns (k: nat)
    requires i <= |es| && Ordered(r) && RowAt(r, es, i).handover == Some(m)
    requires forall x :: i <= x < |es| ==> es[x].Acquire? && es[x].stamp <= es[x].at
    requires Timely(es, lag, lead) && behind + p + lag + lead < TTL
    requires forall x :: 0 <= x < |es| ==> (x < i <==> es[x].at < from)
    requires 0 <= behind && 0 <= p && WallKeepsUp(es, behind) && PollsEvery(es, m, p, from, until)
    requires Max(from, LapseTime(RowAt(r, es, i), from) + behind) + p + HANDOVER_GRACE + behind + p <= until
    ensures i <= k < |es| && Grants(r, es, k, m)
    ensures es[k].at <= Max(from, LapseTime(RowAt(r, es, i), from) + behind) + p + HANDOVER_GRACE + behind + p
    ensures RowAt(r, es, k + 1) == Row(Some(m), Some(es[k].stamp + TTL), None, None)
  {
    k := PendingHandoverIsAnswered(r, es, i, m, p, behind, from, until);
    if !Grants(r, es, k, m) {
      k := StepDownReachesItsTarget(r, es, k, m, p, behind, lag, lead, from, until);
    }
  }
}
