/**
 Whole runs of the command queue: submits, claims, results, moves and the three
 sweeper statements, in any order and interleaved with each other. How often
 can one command be re-issued, and does it ever come back?
 */
module CommandLife {
  import opened Common
  import opened CommandQueue

  datatype Event =
    | Submit(id: Id, collector: Collector, device: Device, now: Time)
    | Claim(collector: Collector, max: nat, chosen: set<Id>, now: Time)
    | Complete(id: Id, collector: Collector, succeeded: bool, now: Time)
    | Expire(now: Time)
    | Timeout(now: Time)
    | Requeue(now: Time)
    | Move(devices: set<Device>, target: Collector)

  predicate Enabled(t: Table, e: Event) {
    match e
    case Submit(id, _, _, _) => id !in t
    case Claim(collector, max, chosen, _) => IsOldest(t, collector, max, chosen)
    case _ => true
  }

  function Step(t: Table, lim: Limits, e: Event): Table {
    match e
    case Submit(id, collector, device, now) => t[id := Submitted(collector, device, now)]
    case Claim(_, _, chosen, now) => AfterClaim(t, chosen, now)
    case Complete(id, collector, succeeded, now) =>
      if MayComplete(t, id, collector)
      then t[id := Closed(t[id], if succeeded then Succeeded else Failed, if succeeded then NoError else Reported, now)]
      else t
    case Expire(now) => AfterExpire(t, lim, now)
    case Timeout(now) => AfterTimeout(t, lim, now)
    case Requeue(now) => AfterRequeue(t, lim, now)
    case Move(devices, target) => AfterMove(t, devices, target)
  }

  /** The table once the first k events have happened to an empty one. */
  function TableAt(lim: Limits, es: seq<Event>, k: nat): Table
    requires k <= |es|
  {
    if k == 0 then map[] else Step(TableAt(lim, es, k - 1), lim, es[k - 1])
  }

  ghost predicate IsRun(lim: Limits, es: seq<Event>) {
    forall k {:trigger Enabled(TableAt(lim, es, k), es[k])} :: 0 <= k < |es| ==> Enabled(TableAt(lim, es, k), es[k])
  }

  predicate ChangesStatus(lim: Limits, es: seq<Event>, id: Id, k: nat)
    requires k < |es|
  {
    id in TableAt(lim, es, k) && id in TableAt(lim, es, k + 1)
    && TableAt(lim, es, k)[id].status != TableAt(lim, es, k + 1)[id].status
  }

  /** How many of the first k events changed the status of id. */
  function Changes(lim: Limits, es: seq<Event>, id: Id, k: nat): nat
    requires k <= |es|
  {
    if k == 0 then 0
    else Changes(lim, es, id, k - 1) + if ChangesStatus(lim, es, id, k - 1) then 1 else 0
  }

  predicate AcceptsResult(lim: Limits, es: seq<Event>, id: Id, k: nat)
    requires k < |es|
  {
    es[k].Complete? && es[k].id == id && MayComplete(TableAt(lim, es, k), id, es[k].collector)
  }

  /** How many of the first k events claimed id. */
  function Claims(lim: Limits, es: seq<Event>, id: Id, k: nat): nat
    requires k <= |es|
  {
    if k == 0 then 0
    else Claims(lim, es, id, k - 1) + if es[k - 1].Claim? && id in es[k - 1].chosen then 1 else 0
  }

  /** A pending command has a claim left; no command has been claimed more often than the cap. */
  predicate Healthy(c: Command, lim: Limits) {
    && c.claims <= lim.maxClaims
    && (c.status == Pending ==> c.claims < lim.maxClaims)
    && (c.status == InProgress ==> 0 < c.claims)
  }

  /** Status changes still possible: the measure that every change decreases. */
  function Left(c: Command, lim: Limits): nat
    requires Healthy(c, lim)
  {
    if c.status == Pending then 2 * (lim.maxClaims - c.claims)
    else if c.status == InProgress then 2 * (lim.maxClaims - c.claims) + 1
    else 0
  }

  lemma StepKeepsHealth(t: Table, lim: Limits, e: Event, id: Id)
    requires 1 <= lim.maxClaims && Enabled(t, e)
    requires id in t ==> Healthy(t[id], lim)
    ensures id in t ==> id in Step(t, lim, e)
    ensures id in Step(t, lim, e) ==> Healthy(Step(t, lim, e)[id], lim)
    ensures id in t && Step(t, lim, e)[id].status != t[id].status ==> Left(Step(t, lim, e)[id], lim) < Left(t[id], lim)
    ensures id in t && Step(t, lim, e)[id].status == t[id].status ==> Step(t, lim, e)[id].claims == t[id].claims
    ensures id !in t && id in Step(t, lim, e) ==> e.Submit? && Step(t, lim, e)[id].claims == 0
    ensures e.Claim? && id in e.chosen ==> id in t && Step(t, lim, e)[id].claims == t[id].claims + 1
    ensures !(e.Claim? && id in e.chosen) && id in t ==> Step(t, lim, e)[id].claims == t[id].claims
  {
    if e.Claim? && id in e.chosen {
      assert id in PendingOf(t, e.collector);
    }
  }

  lemma {:induction false} RunKeepsHealth(lim: Limits, es: seq<Event>, id: Id, k: nat)
    requires 1 <= lim.maxClaims && IsRun(lim, es) && k <= |es|
    ensures id !in TableAt(lim, es, k) ==> Changes(lim, es, id, k) == 0 && Claims(lim, es, id, k) == 0
    ensures id in TableAt(lim, es, k) ==>
              && Healthy(TableAt(lim, es, k)[id], lim)
              && Changes(lim, es, id, k) + Left(TableAt(lim, es, k)[id], lim) <= 2 * lim.maxClaims
              && Claims(lim, es, id, k) == TableAt(lim, es, k)[id].claims
  {
    if 0 < k {
      RunKeepsHealth(lim, es, id, k - 1);
      StepKeepsHealth(TableAt(lim, es, k - 1), lim, es[k - 1], id);
    }
  }

  /**
   Bounded re-issue. In every run, with any interleaving of the sweeper's
   statements, a command is claimed at most maxClaims times (so it reaches a
   collector no more often than that) and changes status at most 2 * maxClaims
   times; while it is pending it still has a claim left.
   */
  lemma ReissueIsBounded(lim: Limits, es: seq<Event>, id: Id, k: nat)
    requires 1 <= lim.maxClaims && IsRun(lim, es) && k <= |es|
    ensures Changes(lim, es, id, k) <= 2 * lim.maxClaims
    ensures Claims(lim, es, id, k) <= lim.maxClaims
    ensures id in TableAt(lim, es, k) && TableAt(lim, es, k)[id].status == Pending ==>
              Claims(lim, es, id, k) < lim.maxClaims
  {
    RunKeepsHealth(lim, es, id, k);
  }

  /** In no run is any command claimed more often than the cap says. */
  ghost predicate CapKept(lim: Limits) {
    forall es: seq<Event>, id, k :: IsRun(lim, es) && 0 <= k <= |es| ==> Claims(lim, es, id, k) <= lim.maxClaims
  }

  /** The sweeper's cap works exactly when it allows one claim: nothing checks it when a command is claimed. */
  lemma CapKeptExactly(lim: Limits)
    ensures CapKept(lim) <==> 1 <= lim.maxClaims
  {
    if 1 <= lim.maxClaims {
      forall es: seq<Event>, id, k | IsRun(lim, es) && 0 <= k <= |es| ensures Claims(lim, es, id, k) <= lim.maxClaims {
        ReissueIsBounded(lim, es, id, k);
      }
    } else {
      var es := [Submit(0, 0, 0, 0), Claim(0, 1, {0}, 0)];
      assert TableAt(lim, es, 0) == map[];
      assert TableAt(lim, es, 1) == map[0 := Submitted(0, 0, 0)];
      assert PendingOf(TableAt(lim, es, 1), 0) == {0};
      assert Claims(lim, es, 0, 0) == Claims(lim, es, 0, 1) == 0;
      assert IsRun(lim, es) && Claims(lim, es, 0, 2) == 1;
    }
  }

  lemma FinishedStep(t: Table, lim: Limits, e: Event, id: Id)
    requires Enabled(t, e) && id in t && t[id].status.Terminal()
    ensures id in Step(t, lim, e) && Step(t, lim, e)[id] == t[id]
  {
    if e.Claim? {
      assert id !in PendingOf(t, e.collector);
    }
  }

  /** The row of id once k events have happened. */
  function RowAt(lim: Limits, es: seq<Event>, k: nat, id: Id): Option<Command>
    requires k <= |es|
  {
    var t := TableAt(lim, es, k);
    if id in t then Some(t[id]) else None
  }

  lemma FinishedNext(lim: Limits, es: seq<Event>, id: Id, k: nat, c: Command)
    requires IsRun(lim, es) && 0 < k <= |es| && c.status.Terminal() && RowAt(lim, es, k - 1, id) == Some(c)
    ensures RowAt(lim, es, k, id) == Some(c)
  {
    assert Enabled(TableAt(lim, es, k - 1), es[k - 1]);
    FinishedStep(TableAt(lim, es, k - 1), lim, es[k - 1], id);
  }

  /** A finished command is never touched again: its whole row stays as it was. */
  lemma {:induction false} FinishedStaysFinished(lim: Limits, es: seq<Event>, id: Id, i: nat, k: nat, c: Command)
    requires IsRun(lim, es) && i <= k <= |es|
    requires c.status.Terminal() && RowAt(lim, es, i, id) == Some(c)
    ensures RowAt(lim, es, k, id) == Some(c)
    decreases k
  {
    if i < k {
      FinishedStaysFinished(lim, es, id, i, k - 1, c);
      FinishedNext(lim, es, id, k, c);
    }
  }

  lemma NoResultAfterOne(lim: Limits, es: seq<Event>, id: Id, i: nat, j: nat)
    requires IsRun(lim, es) && i < j < |es| && AcceptsResult(lim, es, id, i)
    ensures !AcceptsResult(lim, es, id, j)
  {
    var t := TableAt(lim, es, i);
    var after := TableAt(lim, es, i + 1);
    assert after == Step(t, lim, es[i]);
    FinishedStaysFinished(lim, es, id, i + 1, j, after[id]);
  }

  /** Only one result is ever accepted for a command, even when it was issued several times. */
  lemma OneResultPerCommand(lim: Limits, es: seq<Event>, id: Id, i: nat, j: nat)
    requires IsRun(lim, es) && i < |es| && j < |es|
    requires AcceptsResult(lim, es, id, i) && AcceptsResult(lim, es, id, j)
    ensures i == j
  {
    if i < j {
      NoResultAfterOne(lim, es, id, i, j);
    } else if j < i {
      NoResultAfterOne(lim, es, id, j, i);
    }
  }

  /**
   What one sweep leaves behind: no stale claim, and of the commands old enough
   to expire only those it has just taken back from a stale claim. A second
   sweep at the same moment fails those too.
   */
  lemma SweepLeavesNothingStale(t: Table, lim: Limits, now: Time, id: Id)
    requires id in t
    ensures !IsStale(AfterSweep(t, lim, now)[id], lim, now)
    ensures IsExpired(AfterSweep(t, lim, now)[id], lim, now) ==> IsStale(t[id], lim, now)
    ensures !IsExpired(AfterSweep(AfterSweep(t, lim, now), lim, now)[id], lim, now)
    ensures t[id].status == InProgress && IsStale(t[id], lim, now) ==>
              AfterSweep(t, lim, now)[id].status == if lim.maxClaims <= t[id].claims then Failed else Pending
    ensures t[id].status.Terminal() ==> AfterSweep(t, lim, now)[id] == t[id]
  {
    assert id in AfterSweep(t, lim, now);
  }

  // ------------------------------------------------- every command and every claim is given its time

  /** Of the first k events, the one that claimed id last; none if nothing did. */
  function LastClaim(es: seq<Event>, id: Id, k: nat): (j: Option<nat>)
    requires k <= |es|
    ensures j.Some? ==> j.value < k && es[j.value].Claim? && id in es[j.value].chosen
    ensures forall i :: (if j.Some? then j.value + 1 else 0) <= i < k && es[i].Claim? ==> id !in es[i].chosen
  {
    if k == 0 then None
    else if es[k - 1].Claim? && id in es[k - 1].chosen then Some(k - 1)
    else LastClaim(es, id, k - 1)
  }

  /** The row says when it was submitted and, while it is claimed, when that last happened. */
  predicate Dated(es: seq<Event>, id: Id, k: nat, c: Command)
    requires k <= |es|
  {
    && (exists s :: 0 <= s < k && es[s].Submit? && es[s].id == id && c.submittedAt == es[s].now)
    && (c.status == InProgress ==>
          LastClaim(es, id, k).Some? && c.claimedAt == Some(es[LastClaim(es, id, k).value].now))
  }

  lemma StepKeepsDates(t: Table, lim: Limits, e: Event, id: Id)
    requires Enabled(t, e) && id in t
    ensures id in Step(t, lim, e) && Step(t, lim, e)[id].submittedAt == t[id].submittedAt
    ensures e.Claim? && id in e.chosen ==> Step(t, lim, e)[id].claimedAt == Some(e.now)
    ensures !(e.Claim? && id in e.chosen) && Step(t, lim, e)[id].status == InProgress ==>
              t[id].status == InProgress && Step(t, lim, e)[id].claimedAt == t[id].claimedAt
  {
    match e
    case Submit(_, _, _, _) =>
    case Claim(_, _, _, _) =>
    case Complete(_, _, _, _) =>
    case Expire(_) =>
    case Timeout(_) =>
    case Requeue(_) =>
    case Move(_, _) =>
  }

  lemma {:induction false} RowsAreDated(lim: Limits, es: seq<Event>, id: Id, k: nat)
    requires IsRun(lim, es) && k <= |es| && RowAt(lim, es, k, id).Some?
    ensures Dated(es, id, k, RowAt(lim, es, k, id).value)
    decreases k
  {
    var t, e := TableAt(lim, es, k - 1), es[k - 1];
    assert Enabled(t, e);
    if id in t {
      RowsAreDated(lim, es, id, k - 1);
      StepKeepsDates(t, lim, e, id);
    }
  }

  /** The only Submit event of id. */
  lemma {:induction false} SubmittedOnce(lim: Limits, es: seq<Event>, id: Id, s: nat, k: nat)
    requires IsRun(lim, es) && s < k <= |es| && es[s].Submit? && es[s].id == id
    ensures RowAt(lim, es, k, id).Some? && RowAt(lim, es, k, id).value.submittedAt == es[s].now
    decreases k
  {
    var t, e := TableAt(lim, es, k - 1), es[k - 1];
    assert Enabled(t, e);
    if s + 1 < k {
      SubmittedOnce(lim, es, id, s, k - 1);
      StepKeepsDates(t, lim, e, id);
    }
  }

  lemma {:induction false} ClaimsAreCounted(lim: Limits, es: seq<Event>, id: Id, k: nat)
    requires IsRun(lim, es) && k <= |es|
    ensures Claims(lim, es, id, k) == if RowAt(lim, es, k, id).Some? then RowAt(lim, es, k, id).value.claims else 0
    decreases k
  {
    if 0 < k {
      var t, e := TableAt(lim, es, k - 1), es[k - 1];
      assert Enabled(t, e);
      ClaimsAreCounted(lim, es, id, k - 1);
      assert e.Claim? && id in e.chosen ==> id in PendingOf(t, e.collector);
    }
  }

  /**
   What ends a stay in progress, in every run, with claim times read off the run itself. Other
   than by a result posted from its collector, a command leaves in_progress exactly at a timeout or a requeue that comes
   more than the stale limit after its last claim: the one if it has been claimed up to the cap,
   the other below it. A younger claim stands, whatever else happens.
   */
  lemma ClaimsEndExactly(lim: Limits, es: seq<Event>, id: Id, k: nat)
    requires IsRun(lim, es) && k < |es|
    requires RowAt(lim, es, k, id).Some? && RowAt(lim, es, k, id).value.status == InProgress
    ensures var j, e := LastClaim(es, id, k), es[k];
            && j.Some? && RowAt(lim, es, k + 1, id).Some?
            && var status := RowAt(lim, es, k + 1, id).value.status;
               && (e.Timeout? ==> status == if es[j.value].now + lim.staleAfter < e.now
                                               && lim.maxClaims <= Claims(lim, es, id, k)
                                            then Failed else InProgress)
               && (e.Requeue? ==> status == if es[j.value].now + lim.staleAfter < e.now
                                               && Claims(lim, es, id, k) < lim.maxClaims
                                            then Pending else InProgress)
               && (AcceptsResult(lim, es, id, k) ==> status == if e.succeeded then Succeeded else Failed)
               && (!e.Timeout? && !e.Requeue? && !AcceptsResult(lim, es, id, k) ==> status == InProgress)
  {
    assert Enabled(TableAt(lim, es, k), es[k]);
    RowsAreDated(lim, es, id, k);
    ClaimsAreCounted(lim, es, id, k);
    InProgressStep(TableAt(lim, es, k), lim, es[k], id);
  }

  lemma InProgressStep(t: Table, lim: Limits, e: Event, id: Id)
    requires Enabled(t, e) && id in t && t[id].status == InProgress && t[id].claimedAt.Some?
    ensures id in Step(t, lim, e)
    ensures var status := Step(t, lim, e)[id].status; var since := t[id].claimedAt.value;
            && (e.Timeout? ==> status == if since + lim.staleAfter < e.now && lim.maxClaims <= t[id].claims
                                         then Failed else InProgress)
            && (e.Requeue? ==> status == if since + lim.staleAfter < e.now && t[id].claims < lim.maxClaims
                                         then Pending else InProgress)
            && (e.Complete? ==> status == if e.id != id || e.collector != t[id].collector then InProgress
                                          else if e.succeeded then Succeeded else Failed)
            && (!e.Timeout? && !e.Requeue? && !e.Complete? ==> status == InProgress)
  {
  }

  /**
   First come, first served. In every run, a claim that takes one command and leaves another pending one of
   its collector has taken as many as it may, and the one that it took was submitted no later.
   */
  lemma ClaimsAreInOrder(lim: Limits, es: seq<Event>, k: nat, a: Id, i: nat, b: Id, j: nat)
    requires IsRun(lim, es) && i < k < |es| && j < k && es[k].Claim?
    requires es[i].Submit? && es[i].id == a && es[j].Submit? && es[j].id == b
    requires a in es[k].chosen && b in PendingOf(TableAt(lim, es, k), es[k].collector) && b !in es[k].chosen
    ensures es[i].now <= es[j].now && |es[k].chosen| == es[k].max
    ensures a in PendingOf(TableAt(lim, es, k), es[k].collector)
  {
    var t, pending := TableAt(lim, es, k), PendingOf(TableAt(lim, es, k), es[k].collector);
    assert Enabled(t, es[k]);
    SubmittedOnce(lim, es, a, i, k);
    SubmittedOnce(lim, es, b, j, k);
    if |es[k].chosen| == |pending| {
      SubsetCount(es[k].chosen, pending);
    }
  }

  /**
   What ends a stay in pending. Other than by a claim, a command leaves pending exactly at an
   expiry that is on and comes more than its limit after the command's own Submit event.
   */
  lemma PendingEndsExactly(lim: Limits, es: seq<Event>, id: Id, s: nat, k: nat)
    requires IsRun(lim, es) && s < k < |es| && es[s].Submit? && es[s].id == id
    requires RowAt(lim, es, k, id).Some? && RowAt(lim, es, k, id).value.status == Pending
    ensures RowAt(lim, es, k + 1, id).Some?
    ensures var e, status := es[k], RowAt(lim, es, k + 1, id).value.status;
            status == if e.Claim? && id in e.chosen then InProgress
                      else if e.Expire? && 0 < lim.expireAfter && es[s].now + lim.expireAfter < e.now then Failed
                      else Pending
  {
    assert Enabled(TableAt(lim, es, k), es[k]);
    SubmittedOnce(lim, es, id, s, k);
    PendingStep(TableAt(lim, es, k), lim, es[k], id);
  }

  lemma PendingStep(t: Table, lim: Limits, e: Event, id: Id)
    requires Enabled(t, e) && id in t && t[id].status == Pending
    ensures id in Step(t, lim, e)
    ensures Step(t, lim, e)[id].status ==
            if e.Claim? && id in e.chosen then InProgress
            else if e.Expire? && 0 < lim.expireAfter && t[id].submittedAt + lim.expireAfter < e.now then Failed
            else Pending
  {
  }
}
