/**
 The queue of device commands (commands/queue.go, commands/sweeper.go):
 pending -> in_progress -> terminal, with requeues of stale claims, a cap on
 claims and expiry of commands nobody picked up. Each SQL statement is one
 step on the table.
 */
module CommandQueue {
  import opened Common

  type Id = nat
  type Collector = nat
  type Device = nat

  datatype Status = Pending | InProgress | Succeeded | Failed | Cancelled {
    predicate Terminal() { Succeeded? || Failed? || Cancelled? }
  }

  datatype Error = NoError | Reported | Expired | BridgeTimeout

  datatype Command = Command(collector: Collector, device: Device, status: Status, error: Error,
                             submittedAt: Time, claimedAt: Option<Time>, claims: nat, completedAt: Option<Time>)

  type Table = map<Id, Command>

  /** The sweeper's settings. expireAfter <= 0 disables expiry. */
  datatype Limits = Limits(staleAfter: Time, maxClaims: int, expireAfter: Time)

  function Submitted(collector: Collector, device: Device, now: Time): Command {
    Command(collector, device, Pending, NoError, now, None, 0, None)
  }

  // ------------------------------------------------- what one statement does to one row

  function Claimed(c: Command, now: Time): Command {
    c.(status := InProgress, claimedAt := Some(now), claims := c.claims + 1)
  }

  function Closed(c: Command, status: Status, error: Error, now: Time): Command {
    c.(status := status, error := error, completedAt := Some(now))
  }

  predicate IsExpired(c: Command, lim: Limits, now: Time) {
    0 < lim.expireAfter && c.status == Pending && c.submittedAt < now - lim.expireAfter
  }

  predicate IsStale(c: Command, lim: Limits, now: Time) {
    c.status == InProgress && c.claimedAt.Some? && c.claimedAt.value < now - lim.staleAfter
  }

  function ExpiredOrSame(c: Command, lim: Limits, now: Time): Command {
    if IsExpired(c, lim, now) then Closed(c, Failed, Expired, now) else c
  }

  function TimedOutOrSame(c: Command, lim: Limits, now: Time): Command {
    if IsStale(c, lim, now) && lim.maxClaims <= c.claims then Closed(c, Failed, BridgeTimeout, now) else c
  }

  function RequeuedOrSame(c: Command, lim: Limits, now: Time): Command {
    if IsStale(c, lim, now) && c.claims < lim.maxClaims then c.(status := Pending, claimedAt := None) else c
  }

  // ------------------------------------------------- the statements on the whole table

  function AfterExpire(t: Table, lim: Limits, now: Time): Table {
    map id | id in t :: ExpiredOrSame(t[id], lim, now)
  }

  function AfterTimeout(t: Table, lim: Limits, now: Time): Table {
    map id | id in t :: TimedOutOrSame(t[id], lim, now)
  }

  function AfterRequeue(t: Table, lim: Limits, now: Time): Table {
    map id | id in t :: RequeuedOrSame(t[id], lim, now)
  }

  function AfterClaim(t: Table, chosen: set<Id>, now: Time): Table {
    map id | id in t :: if id in chosen then Claimed(t[id], now) else t[id]
  }

  /** Pending commands follow devices that move; claimed ones stay (portalapi/device_move.go). */
  function AfterMove(t: Table, devices: set<Device>, target: Collector): Table {
    map id | id in t ::
      if t[id].device in devices && t[id].status == Pending then t[id].(collector := target) else t[id]
  }

  function AfterSweep(t: Table, lim: Limits, now: Time): Table {
    AfterRequeue(AfterTimeout(AfterExpire(t, lim, now), lim, now), lim, now)
  }

  function PendingOf(t: Table, collector: Collector): set<Id> {
    set id | id in t && t[id].collector == collector && t[id].status == Pending
  }

  /** chosen are the first max pending commands of the collector, oldest submission first (ties in any order). */
  predicate IsOldest(t: Table, collector: Collector, max: nat, chosen: set<Id>) {
    && chosen <= PendingOf(t, collector)
    && |chosen| == Min(max, |PendingOf(t, collector)|)
    && forall a, b :: a in chosen && b in PendingOf(t, collector) - chosen ==> t[a].submittedAt <= t[b].submittedAt
  }

  predicate MayComplete(t: Table, id: Id, collector: Collector) {
    id in t && t[id].collector == collector && t[id].status == InProgress
  }

  // ------------------------------------------------- the queue as the service runs it

  datatype SubmitResult = Queued(id: Id) | NoSuchDevice

  class Queue {
    var rows: Table
    var next: Id
    /** What has been sent on the two NOTIFY channels, in order. */
    var pendingNotices: seq<Collector>
    var doneNotices: seq<Id>

    predicate Valid()
      reads this
    {
      forall id <- rows :: id < next
    }

    constructor ()
      ensures Valid() && rows == map[] && pendingNotices == [] && doneNotices == []
    {
      rows, next, pendingNotices, doneNotices := map[], 0, [], [];
    }

    /** Queues a command for a live device on whatever collector it is on now, and notifies that collector. */
    method Submit(device: Device, homes: map<Device, Collector>, now: Time) returns (res: SubmitResult)
      requires Valid()
      modifies this
      ensures Valid() && doneNotices == old(doneNotices)
      ensures device !in homes ==>
                res == NoSuchDevice && rows == old(rows) && pendingNotices == old(pendingNotices)
      ensures device in homes ==>
                && res.Queued? && res.id !in old(rows)
                && rows == old(rows)[res.id := Command(homes[device], device, Pending, NoError, now, None, 0, None)]
                && pendingNotices == old(pendingNotices) + [homes[device]]
    {
      if device !in homes {
        return NoSuchDevice;
      }
      res := Queued(next);
      rows := rows[next := Submitted(homes[device], device, now)];
      next := next + 1;
      pendingNotices := pendingNotices + [homes[device]];
    }

    /**
     Claims up to max of the collector's oldest pending commands. Those of
     deleted devices are claimed too, but not handed out.
     */
    method ClaimPending(collector: Collector, max: int, live: set<Device>, now: Time)
        returns (out: seq<Id>, ghost chosen: set<Id>)
      requires Valid()
      modifies this`rows
      ensures Valid()
      ensures IsOldest(old(rows), collector, Max(max, 0), chosen)
      ensures rows == AfterClaim(old(rows), chosen, now) && rows.Keys == old(rows).Keys
      ensures forall id <- rows :: var was := old(rows)[id];
                rows[id] == if id in chosen
                            then was.(status := InProgress, claimedAt := Some(now), claims := was.claims + 1) else was
      ensures HandsOut(old(rows), chosen, live, out)
      ensures forall id :: id in out <==> id in chosen && rows[id].device in live
    {
      if max <= 0 {
        assert rows == AfterClaim(rows, {}, now);
        return [], {};
      }
      var claimed;
      out, claimed := PickOldest(rows, collector, max, live);
      chosen := claimed;
      rows := AfterClaim(rows, claimed, now);
    }

    /** The result of a claimed command, posted by the collector that holds it. */
    method Complete(id: Id, collector: Collector, succeeded: bool, now: Time) returns (accepted: bool)
      requires Valid()
      modifies this
      ensures Valid() && pendingNotices == old(pendingNotices)
      ensures accepted <==>
                id in old(rows) && old(rows)[id].collector == collector && old(rows)[id].status == InProgress
      ensures rows == if !accepted then old(rows) else old(rows)[id :=
                old(rows)[id].(status := if succeeded then Succeeded else Failed,
                               error := if succeeded then NoError else Reported, completedAt := Some(now))]
      ensures doneNotices == old(doneNotices) + if accepted then [id] else []
    {
      if id !in rows || rows[id].collector != collector || rows[id].status != InProgress {
        return false;
      }
      var c := rows[id];
      rows := rows[id := if succeeded then Closed(c, Succeeded, NoError, now) else Closed(c, Failed, Reported, now)];
      doneNotices := doneNotices + [id];
      accepted := true;
    }

    /** Fails what nobody picked up in time, then tells each waiter. */
    method ExpirePending(lim: Limits, now: Time)
      requires Valid()
      modifies this
      ensures Valid() && pendingNotices == old(pendingNotices)
      ensures rows == AfterExpire(old(rows), lim, now)
      ensures old(doneNotices) <= doneNotices
      ensures forall id :: id in doneNotices[|old(doneNotices)|..] <==>
                id in old(rows) && old(rows)[id].status == Pending
                && 0 < lim.expireAfter < now - old(rows)[id].submittedAt
    {
      if lim.expireAfter <= 0 {
        assert rows == AfterExpire(rows, lim, now);
        return;
      }
      var ids := set id | id in rows && IsExpired(rows[id], lim, now);
      ghost var expired := ids;
      rows := AfterExpire(rows, lim, now);
      var sent: seq<Id> := [];
      while ids != {}
        invariant ids <= expired
        invariant forall id :: id in sent <==> id in expired - ids
        invariant doneNotices == old(doneNotices) + sent
        invariant rows == AfterExpire(old(rows), lim, now) && pendingNotices == old(pendingNotices) && Valid()
        decreases ids
      {
        var id :| id in ids;
        ids := ids - {id};
        sent := sent + [id];
        doneNotices := doneNotices + [id];
      }
    }

    /** Takes stale claims back, then tells each collector that got commands back. */
    method RequeueStale(lim: Limits, now: Time)
      requires Valid()
      modifies this`rows, this`pendingNotices
      ensures Valid() && rows == AfterRequeue(old(rows), lim, now) && rows.Keys == old(rows).Keys
      ensures forall id <- rows :: var was := old(rows)[id];
                rows[id] == if was.status == InProgress && was.claims < lim.maxClaims
                               && was.claimedAt.Some? && was.claimedAt.value + lim.staleAfter < now
                            then was.(status := Pending, claimedAt := None) else was
      ensures old(pendingNotices) <= pendingNotices
      ensures forall c :: c in pendingNotices[|old(pendingNotices)|..] <==>
                exists id :: id in old(rows) && old(rows)[id].collector == c
                  && old(rows)[id].status == InProgress && rows[id].status == Pending
    {
      var collectors := TakenBackFrom(rows, lim, now);
      ghost var all := collectors;
      rows := AfterRequeue(rows, lim, now);
      var sent: seq<Collector> := [];
      while collectors != {}
        invariant collectors <= all
        invariant forall c :: c in sent <==> c in all - collectors
        invariant pendingNotices == old(pendingNotices) + sent
        invariant rows == AfterRequeue(old(rows), lim, now) && Valid()
        decreases collectors
      {
        var c :| c in collectors;
        collectors := collectors - {c};
        sent := sent + [c];
        pendingNotices := pendingNotices + [c];
      }
    }

    /**
     Expire, then fail, then requeue; a notice for each expired command and for each
     collector that got commands back.
     */
    method Sweep(lim: Limits, now: Time)
      requires Valid()
      modifies this
      ensures Valid()
      ensures rows == AfterSweep(old(rows), lim, now)
      ensures old(doneNotices) <= doneNotices
      ensures forall id :: id in doneNotices[|old(doneNotices)|..] <==>
                id in old(rows) && old(rows)[id].status == Pending
                && 0 < lim.expireAfter < now - old(rows)[id].submittedAt
      ensures rows.Keys == old(rows).Keys && forall id <- rows :: SweptRight(old(rows)[id], rows[id], lim, now)
      ensures old(pendingNotices) <= pendingNotices
      ensures forall c :: c in pendingNotices[|old(pendingNotices)|..] <==>
                exists id :: id in old(rows) && old(rows)[id].collector == c
                  && old(rows)[id].status == InProgress && rows[id].status == Pending
    {
      ExpirePending(lim, now);
      rows := AfterTimeout(rows, lim, now);
      TakenBackBySweep(old(rows), lim, now);
      RequeueStale(lim, now);
      forall id | id in rows ensures SweptRight(old(rows)[id], rows[id], lim, now) {
        SweepDoesWhatItShould(old(rows), lim, now, id);
      }
    }
  }

  /**
   What a sweep has to make of a row, with the limits spelt out. A command that waits for longer
   than the expiry fails; a claim older than the stale limit fails at the cap and goes back below
   it; whatever is younger is left alone, in every column, and so is whatever has finished.
   */
  predicate SweptRight(was: Command, c: Command, lim: Limits, now: Time) {
    if was.status == Pending && 0 < lim.expireAfter && was.submittedAt + lim.expireAfter < now then
      c == was.(status := Failed, error := Expired, completedAt := Some(now))
    else if was.status == InProgress && was.claimedAt.Some? && was.claimedAt.value + lim.staleAfter < now then
      c == if lim.maxClaims <= was.claims
           then was.(status := Failed, error := BridgeTimeout, completedAt := Some(now))
           else was.(status := Pending, claimedAt := None)
    else
      c == was
  }

  /** The three statements of a sweep come to that, in the order in which they are run. */
  lemma SweepDoesWhatItShould(t: Table, lim: Limits, now: Time, id: Id)
    requires id in t
    ensures id in AfterSweep(t, lim, now) && SweptRight(t[id], AfterSweep(t, lim, now)[id], lim, now)
  {
    assert AfterSweep(t, lim, now)[id] ==
           RequeuedOrSame(TimedOutOrSame(ExpiredOrSame(t[id], lim, now), lim, now), lim, now);
  }

  /** The collectors of the commands that a requeue takes back. */
  function TakenBackFrom(t: Table, lim: Limits, now: Time): set<Collector> {
    set id | id in t && IsStale(t[id], lim, now) && t[id].claims < lim.maxClaims :: t[id].collector
  }

  lemma TakenBackBySweep(t: Table, lim: Limits, now: Time)
    ensures forall c :: c in TakenBackFrom(AfterTimeout(AfterExpire(t, lim, now), lim, now), lim, now) <==>
              exists id :: id in t && t[id].collector == c
                && t[id].status == InProgress && AfterSweep(t, lim, now)[id].status == Pending
  {
    var before, after := AfterTimeout(AfterExpire(t, lim, now), lim, now), AfterSweep(t, lim, now);
    forall id | id in t
      ensures t[id].status == InProgress && after[id].status == Pending <==>
                IsStale(before[id], lim, now) && before[id].claims < lim.maxClaims
      ensures before[id].collector == t[id].collector
    {
      assert after[id] == RequeuedOrSame(before[id], lim, now);
    }
    forall c | c in TakenBackFrom(before, lim, now)
      ensures exists id :: id in t && t[id].collector == c && t[id].status == InProgress && after[id].status == Pending
    {
      var id :| id in before && IsStale(before[id], lim, now) && before[id].claims < lim.maxClaims
                && before[id].collector == c;
      assert id in t;
    }
  }

  /** What a poll is given: the claimed commands of live devices, each once, in the order they were submitted. */
  ghost predicate HandsOut(t: Table, chosen: set<Id>, live: set<Device>, out: seq<Id>) {
    && (forall id :: id in out <==> id in chosen && id in t && t[id].device in live)
    && (forall i, j :: 0 <= i < j < |out| ==> out[i] != out[j] && t[out[i]].submittedAt <= t[out[j]].submittedAt)
  }

  lemma HandOutNext(t: Table, chosen: set<Id>, live: set<Device>, out: seq<Id>, id: Id)
    requires HandsOut(t, chosen, live, out)
    requires id in t && id !in chosen
    requires forall a :: a in chosen ==> a in t && t[a].submittedAt <= t[id].submittedAt
    ensures HandsOut(t, chosen + {id}, live, if t[id].device in live then out + [id] else out)
  {
  }

  /** One row of the ORDER BY submitted_at. */
  method Oldest(t: Table, s: set<Id>) returns (id: Id)
    requires s != {} && s <= t.Keys
    ensures id in s && forall o :: o in s ==> t[id].submittedAt <= t[o].submittedAt
  {
    OldestExists(t, s);
    id :| id in s && forall o :: o in s ==> t[id].submittedAt <= t[o].submittedAt;
  }

  method PickOldest(t: Table, collector: Collector, max: nat, live: set<Device>)
      returns (out: seq<Id>, claimed: set<Id>)
    ensures IsOldest(t, collector, max, claimed)
    ensures HandsOut(t, claimed, live, out)
    ensures forall id :: id in out <==> id in claimed && id in t && t[id].device in live
  {
    out, claimed := [], {};
    var pending := PendingOf(t, collector);
    while |claimed| < max && claimed != pending
      invariant claimed <= pending && |claimed| <= max
      invariant forall a, b :: a in claimed && b in pending - claimed ==> t[a].submittedAt <= t[b].submittedAt
      invariant HandsOut(t, claimed, live, out)
      decreases pending - claimed
    {
      assert pending - claimed != {};
      var id := Oldest(t, pending - claimed);
      HandOutNext(t, claimed, live, out, id);
      if t[id].device in live {
        out := out + [id];
      }
      claimed := claimed + {id};
    }
    SubsetCount(claimed, pending);
  }

  lemma SubsetCount<T>(a: set<T>, b: set<T>)
    requires a <= b
    ensures |a| <= |b| && (|a| == |b| ==> a == b)
  {
    assert a + (b - a) == b;
  }

  lemma {:induction false} OldestExists(t: Table, s: set<Id>)
    requires s != {} && s <= t.Keys
    ensures exists id :: id in s && forall o :: o in s ==> t[id].submittedAt <= t[o].submittedAt
  {
    var x :| x in s;
    if s != {x} {
      OldestExists(t, s - {x});
      var y :| y in s - {x} && forall o :: o in s - {x} ==> t[y].submittedAt <= t[o].submittedAt;
      var z := if t[x].submittedAt <= t[y].submittedAt then x else y;
      assert forall o :: o in s ==> o == x || o in s - {x};
      assert forall o :: o in s ==> t[z].submittedAt <= t[o].submittedAt;
    }
  }
}
