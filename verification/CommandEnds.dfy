/**
 How long a command can last: with expiry on and the sweeper's statements run
 regularly, every command is over within a time that the sweeper's settings give,
 whatever the collectors do.
 */
module CommandEnds {
  import opened Common
  import opened CommandQueue
  import opened CommandLife

  /** The event happens at time t. A move carries no time of its own. */
  predicate HappensAt(e: Event, t: Time) {
    match e
    case Move(_, _) => true
    case _ => e.now == t
  }

  /** ts are the times of the events of es, in order. */
  ghost predicate Timed(es: seq<Event>, ts: seq<Time>) {
    && |ts| == |es|
    && (forall k :: 0 <= k < |es| ==> HappensAt(es[k], ts[k]))
    && (forall i, k :: 0 <= i <= k < |ts| ==> ts[i] <= ts[k])
  }

  predicate IsStatement(e: Event, kind: Statement) {
    match kind
    case Expiry => e.Expire?
    case Failing => e.Timeout?
    case Requeueing => e.Requeue?
  }

  /** The three statements of a sweep. */
  datatype Statement = Expiry | Failing | Requeueing

  ghost predicate RunsWithin(es: seq<Event>, ts: seq<Time>, kind: Statement, lo: Time, hi: Time)
    requires |ts| == |es|
  {
    exists k :: 0 <= k < |es| && IsStatement(es[k], kind) && lo <= ts[k] <= hi
  }

  /** Each statement of the sweep is run in every stretch of length period between two times. */
  ghost predicate SweptEvery(es: seq<Event>, ts: seq<Time>, period: Time, from: Time, until: Time)
    requires |ts| == |es|
  {
    forall kind, lo, hi :: from <= lo && hi == lo + period && hi <= until ==> RunsWithin(es, ts, kind, lo, hi)
  }

  /** Everything the bound rests on. */
  ghost predicate Regular(lim: Limits, es: seq<Event>, ts: seq<Time>, period: Time, from: Time, until: Time) {
    && 1 <= lim.maxClaims && 0 < lim.expireAfter && 0 <= lim.staleAfter && 0 <= period
    && IsRun(lim, es) && Timed(es, ts) && SweptEvery(es, ts, period, from, until)
  }

  /** The longest that a command stays as it is, once it is old enough to expire. */
  function Stay(lim: Limits, period: Time): Time {
    lim.staleAfter + period + 1
  }

  // ------------------------------------------------- a command stays as it is, or has fewer changes left

  /** The columns that decide what the sweeper does with a command. */
  predicate Alike(c: Command, d: Command) {
    c.status == d.status && c.claims == d.claims && c.claimedAt == d.claimedAt && c.submittedAt == d.submittedAt
  }

  lemma StepAlikeOrLess(t: Table, lim: Limits, e: Event, id: Id)
    requires 1 <= lim.maxClaims && Enabled(t, e) && id in t && Healthy(t[id], lim)
    ensures id in Step(t, lim, e) && Healthy(Step(t, lim, e)[id], lim)
    ensures Alike(Step(t, lim, e)[id], t[id]) || Left(Step(t, lim, e)[id], lim) < Left(t[id], lim)
    ensures Step(t, lim, e)[id].submittedAt == t[id].submittedAt
  {
    StepKeepsHealth(t, lim, e, id);
    match e
    case Submit(_, _, _, _) =>
    case Claim(_, _, _, _) =>
    case Complete(_, _, _, _) =>
    case Expire(_) =>
    case Timeout(_) =>
    case Requeue(_) =>
    case Move(_, _) =>
  }

  lemma StepOfRun(lim: Limits, es: seq<Event>, k: nat, id: Id, c: Command) returns (d: Command)
    requires 1 <= lim.maxClaims && IsRun(lim, es) && k < |es| && RowAt(lim, es, k, id) == Some(c) && Healthy(c, lim)
    ensures RowAt(lim, es, k + 1, id) == Some(d) && Healthy(d, lim) && d.submittedAt == c.submittedAt
    ensures Alike(d, c) || Left(d, lim) < Left(c, lim)
    ensures d == Step(TableAt(lim, es, k), lim, es[k])[id]
  {
    assert Enabled(TableAt(lim, es, k), es[k]);
    StepAlikeOrLess(TableAt(lim, es, k), lim, es[k], id);
    d := Step(TableAt(lim, es, k), lim, es[k])[id];
  }

  lemma {:induction false} AlikeOrLess(lim: Limits, es: seq<Event>, i: nat, k: nat, id: Id, c: Command)
      returns (d: Command)
    requires 1 <= lim.maxClaims && IsRun(lim, es) && i <= k <= |es|
    requires RowAt(lim, es, i, id) == Some(c) && Healthy(c, lim)
    ensures RowAt(lim, es, k, id) == Some(d) && Healthy(d, lim) && d.submittedAt == c.submittedAt
    ensures Alike(d, c) || Left(d, lim) < Left(c, lim)
    decreases k
  {
    if i == k {
      d := c;
    } else {
      var b := AlikeOrLess(lim, es, i, k - 1, id, c);
      d := StepOfRun(lim, es, k - 1, id, b);
    }
  }

  /** What a claim's time is: that of an event before. */
  predicate ClaimedBefore(c: Command, t: Time) {
    c.status == InProgress ==> c.claimedAt.Some? && c.claimedAt.value < t
  }

  lemma StepClaimedBefore(tab: Table, lim: Limits, e: Event, id: Id, t: Time, s: Time)
    requires Enabled(tab, e) && HappensAt(e, s) && s < t && (id in tab ==> ClaimedBefore(tab[id], t))
    ensures id in Step(tab, lim, e) ==> ClaimedBefore(Step(tab, lim, e)[id], t)
  {
    match e
    case Submit(_, _, _, _) =>
    case Claim(_, _, _, _) =>
    case Complete(_, _, _, _) =>
    case Expire(_) =>
    case Timeout(_) =>
    case Requeue(_) =>
    case Move(_, _) =>
  }

  lemma {:induction false} ClaimsAreOld(lim: Limits, es: seq<Event>, ts: seq<Time>, k: nat, id: Id, t: Time)
    requires IsRun(lim, es) && Timed(es, ts) && k <= |es| && forall i :: 0 <= i < k ==> ts[i] < t
    ensures RowAt(lim, es, k, id).Some? ==> ClaimedBefore(RowAt(lim, es, k, id).value, t)
    decreases k
  {
    if 0 < k {
      ClaimsAreOld(lim, es, ts, k - 1, id, t);
      assert Enabled(TableAt(lim, es, k - 1), es[k - 1]);
      StepClaimedBefore(TableAt(lim, es, k - 1), lim, es[k - 1], id, t, ts[k - 1]);
    }
  }

  // ------------------------------------------------- every statement that is due brings it on

  /** The statement that an unfinished command is due for. */
  function Due(c: Command, lim: Limits): Statement {
    if c.status == Pending then Expiry else if lim.maxClaims <= c.claims then Failing else Requeueing
  }

  lemma DueStatementMoves(tab: Table, lim: Limits, e: Event, id: Id, t: Time, now: Time)
    requires id in tab && Healthy(tab[id], lim) && !tab[id].status.Terminal() && 0 < lim.expireAfter
    requires IsStatement(e, Due(tab[id], lim)) && HappensAt(e, now) && Enabled(tab, e)
    requires ClaimedBefore(tab[id], t) && tab[id].submittedAt + lim.expireAfter < t
    requires t <= now && (tab[id].status == InProgress ==> t + lim.staleAfter <= now)
    ensures id in Step(tab, lim, e) && Step(tab, lim, e)[id].status != tab[id].status
  {
  }

  /**
   One stay. A command older than the expiry at time t, which everything so far came
   before, has fewer changes left after an event that comes no later than a stay.
   */
  lemma StayEnds(lim: Limits, es: seq<Event>, ts: seq<Time>, period: Time, from: Time, until: Time,
                 k: nat, id: Id, c: Command, t: Time)
      returns (j: nat, d: Command)
    requires Regular(lim, es, ts, period, from, until) && from <= t && k <= |es|
    requires RowAt(lim, es, k, id) == Some(c) && Healthy(c, lim) && !c.status.Terminal()
    requires (forall i :: 0 <= i < k ==> ts[i] < t) && c.submittedAt + lim.expireAfter < t
    requires t + Stay(lim, period) <= until
    ensures k < j <= |es| && (forall i :: 0 <= i < j ==> ts[i] < t + Stay(lim, period))
    ensures RowAt(lim, es, j, id) == Some(d) && Healthy(d, lim) && Left(d, lim) < Left(c, lim)
    ensures d.submittedAt == c.submittedAt
  {
    var kind, lo := Due(c, lim), if c.status == Pending then t else t + lim.staleAfter;
    assert RunsWithin(es, ts, kind, lo, lo + period);
    var x :| 0 <= x < |es| && IsStatement(es[x], kind) && lo <= ts[x] <= lo + period;
    assert k <= x;
    var b := AlikeOrLess(lim, es, k, x, id, c);
    d := StepOfRun(lim, es, x, id, b);
    j := x + 1;
    if Alike(b, c) {
      ClaimsAreOld(lim, es, ts, k, id, t);
      assert Enabled(TableAt(lim, es, x), es[x]);
      DueStatementMoves(TableAt(lim, es, x), lim, es[x], id, t, ts[x]);
    }
  }

  lemma Product(a: int, b: int, d: int)
    requires b < a && 0 <= d
    ensures b * d + d <= a * d
  {
    assert (a - b - 1) * d >= 0;
  }

  lemma {:induction false} ChangesRunOut(lim: Limits, es: seq<Event>, ts: seq<Time>, period: Time, from: Time,
                                         until: Time,
                                         k: nat, id: Id, c: Command, t: Time)
    requires Regular(lim, es, ts, period, from, until) && from <= t && k <= |es|
    requires RowAt(lim, es, k, id) == Some(c) && Healthy(c, lim)
    requires (forall i :: 0 <= i < k ==> ts[i] < t) && c.submittedAt + lim.expireAfter < t
    requires t + Left(c, lim) * Stay(lim, period) <= until
    ensures RowAt(lim, es, |es|, id).Some? && RowAt(lim, es, |es|, id).value.status.Terminal()
    decreases Left(c, lim)
  {
    if c.status.Terminal() {
      FinishedStaysFinished(lim, es, id, k, |es|, c);
    } else {
      Product(Left(c, lim), 0, Stay(lim, period));
      var j, d := StayEnds(lim, es, ts, period, from, until, k, id, c, t);
      Product(Left(c, lim), Left(d, lim), Stay(lim, period));
      ChangesRunOut(lim, es, ts, period, from, until, j, id, d, t + Stay(lim, period));
    }
  }

  /** The events before time t come first. */
  lemma {:induction false} Split(ts: seq<Time>, k: nat, t: Time) returns (j: nat)
    requires k <= |ts| && (forall i :: 0 <= i < k ==> ts[i] < t)
    ensures k <= j <= |ts| && (forall i :: 0 <= i < j ==> ts[i] < t) && (j < |ts| ==> t <= ts[j])
    decreases |ts| - k
  {
    if k < |ts| && ts[k] < t {
      j := Split(ts, k + 1, t);
    } else {
      j := k;
    }
  }

  /** When a command submitted at the given time is over at the latest. */
  function Deadline(lim: Limits, submittedAt: Time, period: Time): Time {
    submittedAt + lim.expireAfter + 1 + 2 * lim.maxClaims * Stay(lim, period)
  }

  lemma SubmittedRow(lim: Limits, es: seq<Event>, s: nat, id: Id) returns (c: Command)
    requires 1 <= lim.maxClaims && IsRun(lim, es) && s < |es| && es[s].Submit? && es[s].id == id
    ensures RowAt(lim, es, s + 1, id) == Some(c) && Healthy(c, lim) && c.submittedAt == es[s].now
  {
    assert Enabled(TableAt(lim, es, s), es[s]);
    c := Step(TableAt(lim, es, s), lim, es[s])[id];
  }

  /**
   Every command ends. With expiry on and each statement of the sweep run at least
   once a period from its submission on, a command is over by its deadline, in every interleaving with
   claims, results and moves, however often it is claimed and given up.
   */
  lemma EveryCommandEnds(lim: Limits, es: seq<Event>, ts: seq<Time>, period: Time, s: nat, id: Id)
    requires s < |es| && es[s].Submit? && es[s].id == id
    requires Regular(lim, es, ts, period, es[s].now, Deadline(lim, es[s].now, period))
    ensures RowAt(lim, es, |es|, id).Some? && RowAt(lim, es, |es|, id).value.status.Terminal()
  {
    var t, until := es[s].now + lim.expireAfter + 1, Deadline(lim, es[s].now, period);
    var c := SubmittedRow(lim, es, s, id);
    var k := Split(ts, s + 1, t);
    var d := AlikeOrLess(lim, es, s + 1, k, id, c);
    assert Left(d, lim) < 2 * lim.maxClaims + 1;
    Product(2 * lim.maxClaims + 1, Left(d, lim), Stay(lim, period));
    ChangesRunOut(lim, es, ts, period, es[s].now, until, k, id, d, t);
  }

  /** Without expiry there is no such time: what nobody claims stays pending through every run. */
  lemma {:induction false} UnclaimedStaysPending(lim: Limits, es: seq<Event>, i: nat, k: nat, id: Id)
    requires lim.expireAfter <= 0 && IsRun(lim, es) && i <= k <= |es|
    requires RowAt(lim, es, i, id).Some? && RowAt(lim, es, i, id).value.status == Pending
    requires forall x :: i <= x < k && es[x].Claim? ==> id !in es[x].chosen
    ensures RowAt(lim, es, k, id).Some? && RowAt(lim, es, k, id).value.status == Pending
    decreases k
  {
    if i < k {
      UnclaimedStaysPending(lim, es, i, k - 1, id);
      assert Enabled(TableAt(lim, es, k - 1), es[k - 1]);
      UnclaimedStep(TableAt(lim, es, k - 1), lim, es[k - 1], id);
    }
  }

  lemma UnclaimedStep(t: Table, lim: Limits, e: Event, id: Id)
    requires lim.expireAfter <= 0 && Enabled(t, e) && id in t && t[id].status == Pending
    requires e.Claim? ==> id !in e.chosen
    ensures id in Step(t, lim, e) && Step(t, lim, e)[id].status == Pending
  {
  }
}
