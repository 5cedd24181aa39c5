/**
 The devices of an organisation, as two writers that never meet leave them:
 ingest, which upserts a device for every reading a collector sends
 (ingest/handler.go), and the portal, which moves devices between collectors
 (portalapi/device_move.go). Devices are kept by id; (collector, reported id) is
 a unique key that covers deleted rows too.
 */
module DeviceTable {
  import opened Common
  import Q = CommandQueue

  type Collector = Q.Collector
  type DeviceId = Q.Device
  type Tags = map<string, string>

  /** Where a collector reports a device. */
  datatype Slot = Slot(collector: Collector, reported: string)

  datatype Device = Device(collector: Collector, reported: Option<string>, deleted: bool,
                           status: Option<string>, lastSeen: Option<Time>, lastOnline: Option<Time>,
                           tags: Option<Tags>, editedAt: Option<Time>)

  /** What one reading says about a device. An event on its own is a reading with nothing but the reported id. */
  datatype Reading = Reading(reported: string, status: Option<string>, at: Option<Time>,
                             tags: Option<Tags>, stamp: Option<Time>)

  function EventOnly(reported: string): Reading {
    Reading(reported, None, None, None, None)
  }

  /** next bounds the ids given out so far. */
  datatype Fleet = Fleet(devices: map<DeviceId, Device>, tombstones: set<Slot>, commands: Q.Table, next: DeviceId)

  const ONLINE := "online"

  function OnlineAt(r: Reading): Option<Time> {
    if r.status == Some(ONLINE) then r.at else None
  }

  // ------------------------------------------------- the upsert

  /** The DO UPDATE arm, column by column. */
  function Merged(d: Device, r: Reading): Device {
    d.(tags := if d.editedAt.None? || (r.stamp.Some? && d.editedAt.value <= r.stamp.value)
               then Coalesce(r.tags, d.tags) else d.tags,
       status := if d.lastSeen.None? || r.at.None? || d.lastSeen.value <= r.at.value
                 then Coalesce(r.status, d.status) else d.status,
       lastSeen := Greatest(r.at, d.lastSeen),
       lastOnline := Greatest(OnlineAt(r), d.lastOnline))
  }

  function Inserted(c: Collector, r: Reading): Device {
    Device(c, Some(r.reported), false, r.status, r.at, OnlineAt(r), r.tags, None)
  }

  predicate Holds(d: Device, s: Slot) {
    d.collector == s.collector && d.reported == Some(s.reported)
  }

  predicate Occupied(f: Fleet, s: Slot) {
    exists id <- f.devices :: Holds(f.devices[id], s)
  }

  ghost function Occupant(f: Fleet, s: Slot): (id: DeviceId)
    requires Occupied(f, s)
    ensures id in f.devices && Holds(f.devices[id], s)
  {
    var id :| id in f.devices && Holds(f.devices[id], s);
    id
  }

  predicate WellFormed(f: Fleet) {
    && (forall id <- f.devices :: id < f.next)
    && forall i, j :: i in f.devices && j in f.devices && i != j && f.devices[i].reported.Some? ==>
         !Holds(f.devices[j], Slot(f.devices[i].collector, f.devices[i].reported.value))
  }

  /** INSERT ... WHERE no tombstone OR a row exists, ON CONFLICT DO UPDATE ... WHERE not deleted. */
  ghost function Upserted(f: Fleet, c: Collector, r: Reading): Fleet {
    var s := Slot(c, r.reported);
    if Occupied(f, s) then
      var id := Occupant(f, s);
      if f.devices[id].deleted then f else f.(devices := f.devices[id := Merged(f.devices[id], r)])
    else if s in f.tombstones then f
    else f.(devices := f.devices[f.next := Inserted(c, r)], next := f.next + 1)
  }

  /** The id the upsert returns: nothing for a deleted device or a tombstoned slot. */
  ghost function UpsertedId(f: Fleet, c: Collector, r: Reading): Option<DeviceId> {
    var s := Slot(c, r.reported);
    if Occupied(f, s) then (if f.devices[Occupant(f, s)].deleted then None else Some(Occupant(f, s)))
    else if s in f.tombstones then None
    else Some(f.next)
  }

  ghost function AllUpserted(f: Fleet, c: Collector, rs: seq<Reading>): Fleet {
    if rs == [] then f else Upserted(AllUpserted(f, c, rs[..|rs| - 1]), c, rs[|rs| - 1])
  }

  ghost function EventsUpserted(f: Fleet, c: Collector, events: seq<string>): Fleet {
    if events == [] then f
    else Upserted(EventsUpserted(f, c, events[..|events| - 1]), c, EventOnly(events[|events| - 1]))
  }

  /** A push has met these devices: live, at the slot it reported them under. */
  ghost predicate Met(f: Fleet, c: Collector, met: map<string, DeviceId>) {
    forall r <- met :: met[r] in f.devices && !f.devices[met[r]].deleted && Holds(f.devices[met[r]], Slot(c, r))
  }

  // ------------------------------------------------- the move

  datatype MoveResult =
    | TargetNotFound
    | TargetIsStandby
    | DeviceNotFound
    | Conflicts(devices: set<DeviceId>)
    | Done(moved: nat, stayed: nat)

  function LiveAmong(f: Fleet, ids: seq<DeviceId>): set<DeviceId> {
    set id | id in ids && id in f.devices && !f.devices[id].deleted
  }

  function Moving(f: Fleet, ids: seq<DeviceId>, target: Collector): set<DeviceId> {
    set id | id in LiveAmong(f, ids) && f.devices[id].collector != target
  }

  /** COALESCE(reported_id, ''). */
  function Reported(f: Fleet, id: DeviceId): string
    requires id in f.devices
  {
    if f.devices[id].reported.Some? then f.devices[id].reported.value else ""
  }

  /** Two devices of one request want the same name on the target. */
  ghost predicate ShareName(f: Fleet, moving: set<DeviceId>)
    requires moving <= f.devices.Keys
  {
    exists i, j :: i in moving && j in moving && i != j && Reported(f, i) == Reported(f, j)
  }

  /** The devices of a request that come, in the order of their ids, after another of the same name. */
  ghost function SecondOfName(f: Fleet, moving: set<DeviceId>): set<DeviceId>
    requires moving <= f.devices.Keys
  {
    set id | id in moving && exists j :: j in moving && j < id && Reported(f, j) == Reported(f, id)
  }

  function Names(f: Fleet, ids: set<DeviceId>): set<string>
    requires ids <= f.devices.Keys
  {
    set id | id in ids :: Reported(f, id)
  }

  /** The devices whose name is taken on the target, by a live or a deleted device. */
  function Taken(f: Fleet, moving: set<DeviceId>, target: Collector): set<DeviceId>
    requires moving <= f.devices.Keys
  {
    set id | id in moving && Occupied(f, Slot(target, Reported(f, id)))
  }

  function SlotsLeft(f: Fleet, moving: set<DeviceId>): set<Slot>
    requires moving <= f.devices.Keys
  {
    set id | id in moving && Reported(f, id) != "" :: Slot(f.devices[id].collector, Reported(f, id))
  }

  function SlotsTaken(f: Fleet, moving: set<DeviceId>, target: Collector): set<Slot>
    requires moving <= f.devices.Keys
  {
    set id | id in moving :: Slot(target, Reported(f, id))
  }

  function Moved(f: Fleet, moving: set<DeviceId>, target: Collector): Fleet
    requires moving <= f.devices.Keys
  {
    Fleet(map id | id in f.devices :: if id in moving then f.devices[id].(collector := target) else f.devices[id],
          f.tombstones + SlotsLeft(f, moving) - SlotsTaken(f, moving, target),
          Q.AfterMove(f.commands, moving, target),
          f.next)
  }

  ghost predicate MayMove(f: Fleet, ids: seq<DeviceId>, target: Collector, standby: map<Collector, bool>) {
    && target in standby && !standby[target]
    && |LiveAmong(f, ids)| == |ids|
    && !ShareName(f, Moving(f, ids, target))
    && Taken(f, Moving(f, ids, target), target) == {}
  }

  // ------------------------------------------------- as the service runs them

  class Store {
    var devices: map<DeviceId, Device>
    var tombstones: set<Slot>
    var commands: Q.Table
    var next: DeviceId

    function View(): Fleet
      reads this
    {
      Fleet(devices, tombstones, commands, next)
    }

    constructor ()
      ensures View() == Fleet(map[], {}, map[], 0) && WellFormed(View())
    {
      devices, tombstones, commands, next := map[], {}, map[], 0;
    }

    method Upsert(c: Collector, r: Reading) returns (id: Option<DeviceId>)
      requires WellFormed(View())
      modifies this
      ensures View() == Upserted(old(View()), c, r) && WellFormed(View())
      ensures id == UpsertedId(old(View()), c, r)
      ensures tombstones == old(tombstones) && commands == old(commands)
      ensures (forall d <- old(devices) :: !Holds(old(devices)[d], Slot(c, r.reported))) ==>
                if Slot(c, r.reported) in old(tombstones) then id == None && devices == old(devices)
                else && id == Some(old(next)) && old(next) !in old(devices)
                     && devices == old(devices)[old(next) := NewDevice(c, r)]
      ensures forall d <- old(devices) | Holds(old(devices)[d], Slot(c, r.reported)) ::
                if old(devices)[d].deleted then id == None && devices == old(devices)
                else id == Some(d) && devices == old(devices)[d := Merged(old(devices)[d], r)]
      ensures id.Some? ==>
                && id.value in devices && !devices[id.value].deleted
                && Holds(devices[id.value], Slot(c, r.reported))
    {
      UpsertKeepsKeys(View(), c, r);
      var s := Slot(c, r.reported);
      if d :| d in devices && Holds(devices[d], s) {
        assert d == Occupant(View(), s);
        if devices[d].deleted {
          return None;
        }
        devices := devices[d := Merged(devices[d], r)];
        return Some(d);
      }
      if s in tombstones {
        return None;
      }
      id := Some(next);
      devices := devices[next := Inserted(c, r)];
      next := next + 1;
    }

    /**
     One push from a collector: its readings, then its events. A device already
     met in the push is not upserted again for an event.
     */
    method Ingest(c: Collector, telemetry: seq<Reading>, events: seq<string>) returns (met: map<string, DeviceId>)
      requires WellFormed(View())
      modifies this
      ensures WellFormed(View()) && Met(View(), c, met)
      ensures View() == EventsUpserted(AllUpserted(old(View()), c, telemetry), c, events)
    {
      met := IngestTelemetry(c, telemetry);
      met := IngestEvents(c, events, met);
    }

    method IngestTelemetry(c: Collector, telemetry: seq<Reading>) returns (met: map<string, DeviceId>)
      requires WellFormed(View())
      modifies this
      ensures WellFormed(View()) && Met(View(), c, met)
      ensures View() == AllUpserted(old(View()), c, telemetry)
    {
      met := map[];
      var i := 0;
      while i < |telemetry|
        invariant 0 <= i <= |telemetry| && WellFormed(View()) && Met(View(), c, met)
        invariant View() == AllUpserted(old(View()), c, telemetry[..i])
      {
        UpsertKeepsDevices(View(), c, telemetry[i]);
        var id := Upsert(c, telemetry[i]);
        if id.Some? {
          met := met[telemetry[i].reported := id.value];
        }
        assert telemetry[..i + 1][..i] == telemetry[..i];
        i := i + 1;
      }
      assert telemetry[..i] == telemetry;
    }

    method IngestEvents(c: Collector, events: seq<string>, before: map<string, DeviceId>)
        returns (met: map<string, DeviceId>)
      requires WellFormed(View()) && Met(View(), c, before)
      modifies this
      ensures WellFormed(View()) && Met(View(), c, met)
      ensures View() == EventsUpserted(old(View()), c, events)
    {
      met := before;
      var i := 0;
      while i < |events|
        invariant 0 <= i <= |events| && WellFormed(View()) && Met(View(), c, met)
        invariant View() == EventsUpserted(old(View()), c, events[..i])
      {
        if events[i] in met {
          EventChangesNothing(View(), c, events[i]);
        } else {
          UpsertKeepsDevices(View(), c, EventOnly(events[i]));
          var id := Upsert(c, EventOnly(events[i]));
          if id.Some? {
            met := met[events[i] := id.value];
          }
        }
        assert events[..i + 1][..i] == events[..i];
        i := i + 1;
      }
      assert events[..i] == events;
    }

    /**
     Moves live devices to the target collector, all of them or none. standby says
     which collectors exist, and which are standbys.
     */
    method MoveDevices(ids: seq<DeviceId>, target: Collector, standby: map<Collector, bool>) returns (res: MoveResult)
      requires WellFormed(View())
      modifies this
      ensures WellFormed(View())
      ensures Answers(old(View()), ids, target, standby, res)
      ensures View() == if res.Done? then Moved(old(View()), Moving(old(View()), ids, target), target) else old(View())
      ensures res.Done? ==> devices.Keys == old(devices).Keys && commands.Keys == old(commands).Keys
      ensures res.Done? ==> forall id <- devices ::
                devices[id] == if id in ids then old(devices)[id].(collector := target) else old(devices)[id]
      ensures res.Done? ==> forall c <- commands ::
                var was := old(commands)[c];
                commands[c] == if was.device in Moving(old(View()), ids, target) && was.status == Q.Pending
                               then was.(collector := target) else was
    {
      var moving;
      res, moving := PlanMove(View(), ids, target, standby);
      if res.Done? {
        MoveKeepsKeys(View(), moving, target);
        var after := Moved(View(), moving, target);
        assert forall id :: id in ids ==> id in LiveAmong(View(), ids) by {
          AllAreLive(View(), ids);
        }
        devices, tombstones, commands := after.devices, after.tombstones, after.commands;
      }
    }
  }

  /** As many live devices as ids means that every id is one. */
  lemma AllAreLive(f: Fleet, ids: seq<DeviceId>)
    requires |LiveAmong(f, ids)| == |ids|
    ensures forall id :: id in ids ==> id in LiveAmong(f, ids)
  {
    AsManyAreAll(LiveAmong(f, ids), ids);
  }

  /** Members of a list, as many as it is long, are all of it. */
  lemma {:induction false} AsManyAreAll(some: set<DeviceId>, ids: seq<DeviceId>)
    requires forall id <- some :: id in ids
    ensures |some| <= |ids| && (|some| == |ids| ==> forall id :: id in ids ==> id in some)
  {
    if ids == [] {
      assert some == {};
    } else {
      AsManyAreAll(some - {ids[0]}, ids[1..]);
    }
  }

  /** The answer of a move request: done exactly when nothing stands in the way, and otherwise which devices clash. */
  ghost predicate Answers(f: Fleet, ids: seq<DeviceId>, target: Collector, standby: map<Collector, bool>,
                          res: MoveResult)
  {
    var moving := Moving(f, ids, target);
    && (forall id :: id in moving <==>
          id in ids && id in f.devices && !f.devices[id].deleted && f.devices[id].collector != target)
    && (res.Done? <==> MayMove(f, ids, target, standby))
    && (res.Done? ==> res.moved == |moving| && res.moved + res.stayed == |ids|)
    && (res.Conflicts? ==> res.devices != {} && res.devices <= moving)
    && (res.Conflicts? ==>
          res.devices == if ShareName(f, moving) then SecondOfName(f, moving) else Taken(f, moving, target))
    && (res == TargetNotFound <==> target !in standby)
    && (res == TargetIsStandby <==> target in standby && standby[target])
    && (res == DeviceNotFound <==> target in standby && !standby[target] && |LiveAmong(f, ids)| != |ids|)
  }

  /** Everything moveDevices reads before it writes. */
  method PlanMove(f: Fleet, ids: seq<DeviceId>, target: Collector, standby: map<Collector, bool>)
      returns (res: MoveResult, moving: set<DeviceId>)
    ensures Answers(f, ids, target, standby, res)
    ensures res.Done? ==> moving == Moving(f, ids, target)
  {
    moving := {};
    if target !in standby {
      return TargetNotFound, moving;
    }
    if standby[target] {
      return TargetIsStandby, moving;
    }
    var found := LiveAmong(f, ids);
    if |found| != |ids| {
      return DeviceNotFound, moving;
    }
    var stayed;
    moving, stayed := SortOut(f, found, target);
    assert moving == Moving(f, ids, target);
    if moving == {} {
      return Done(0, stayed), moving;
    }
    var byReported := NamesOf(f, moving);
    if |byReported| != |moving| {
      var twice := Repeated(f, moving);
      return Conflicts(twice), moving;
    }
    var taken := Taken(f, moving, target);
    if taken != {} {
      return Conflicts(taken), moving;
    }
    res := Done(|moving|, stayed);
  }

  /** The first loop of moveDevices: who moves, and how many are there already. */
  method SortOut(f: Fleet, found: set<DeviceId>, target: Collector) returns (moving: set<DeviceId>, stayed: nat)
    requires found <= f.devices.Keys
    ensures moving == set id | id in found && f.devices[id].collector != target
    ensures |moving| + stayed == |found|
  {
    moving, stayed := {}, 0;
    var done: set<DeviceId> := {};
    while done != found
      invariant done <= found && |moving| + stayed == |done|
      invariant moving == set id | id in done && f.devices[id].collector != target
      decreases found - done
    {
      var id := OneLeft(found, done);
      done := done + {id};
      if f.devices[id].collector == target {
        stayed := stayed + 1;
      } else {
        moving := moving + {id};
      }
    }
  }

  /** The byReported map of moveDevices: as many names as devices exactly when no two share one. */
  method NamesOf(f: Fleet, moving: set<DeviceId>) returns (byReported: map<string, DeviceId>)
    requires moving <= f.devices.Keys
    ensures |byReported| != |moving| <==> ShareName(f, moving)
  {
    byReported := map[];
    var done: set<DeviceId> := {};
    while done != moving
      invariant done <= moving && byReported.Keys == Names(f, done)
      decreases moving - done
    {
      var id := OneLeft(moving, done);
      OneMoreName(f, done, id);
      done := done + {id};
      byReported := byReported[Reported(f, id) := id];
    }
    NamesCount(f, moving);
    assert |byReported| == |byReported.Keys|;
  }

  lemma {:induction false} NamesCount(f: Fleet, ids: set<DeviceId>)
    requires ids <= f.devices.Keys
    ensures |Names(f, ids)| <= |ids|
    ensures |Names(f, ids)| != |ids| <==> ShareName(f, ids)
  {
    if id :| id in ids {
      NamesCount(f, ids - {id});
      OneMoreName(f, ids - {id}, id);
      assert ids == ids - {id} + {id};
    } else {
      assert Names(f, ids) == {};
    }
  }

  /** The loop that finds the devices that repeat a name, by id as the rows come. */
  method Repeated(f: Fleet, moving: set<DeviceId>) returns (twice: set<DeviceId>)
    requires moving <= f.devices.Keys && ShareName(f, moving)
    ensures twice == SecondOfName(f, moving) && twice != {}
  {
    var seen: set<string> := {};
    var done: set<DeviceId> := {};
    twice := {};
    while done != moving
      invariant done <= moving && twice == SecondOfName(f, done)
      invariant forall i, j :: i in done && j in moving - done ==> i < j
      invariant seen == Names(f, done)
      decreases moving - done
    {
      assert done + (moving - done) == moving;
      var id := Smallest(moving - done);
      OneMoreSecond(f, done, id);
      OneMoreName(f, done, id);
      done := done + {id};
      if Reported(f, id) in seen {
        twice := twice + {id};
      }
      seen := seen + {Reported(f, id)};
    }
    var i, j :| i in moving && j in moving && i != j && Reported(f, i) == Reported(f, j);
    assert Max(i, j) in SecondOfName(f, moving);
  }

  lemma OneMoreSecond(f: Fleet, done: set<DeviceId>, id: DeviceId)
    requires done <= f.devices.Keys && id in f.devices && id !in done && forall i <- done :: i < id
    ensures SecondOfName(f, done + {id}) ==
            if Reported(f, id) in Names(f, done) then SecondOfName(f, done) + {id} else SecondOfName(f, done)
  {
    forall i | i in done ensures i in SecondOfName(f, done + {id}) <==> i in SecondOfName(f, done) {
      if i in SecondOfName(f, done) {
        var j :| j in done && j < i && Reported(f, j) == Reported(f, i);
        assert j in done + {id};
      }
    }
    if Reported(f, id) in Names(f, done) {
      var j :| j in done && Reported(f, j) == Reported(f, id);
      assert j in done + {id} && j < id;
    }
  }

  method Smallest(s: set<DeviceId>) returns (id: DeviceId)
    requires s != {}
    ensures id in s && forall o <- s :: id <= o
  {
    SmallestExists(s);
    id :| id in s && forall o <- s :: id <= o;
  }

  lemma {:induction false} SmallestExists(s: set<DeviceId>)
    requires s != {}
    ensures exists id :: id in s && forall o <- s :: id <= o
  {
    var x :| x in s;
    if s != {x} {
      SmallestExists(s - {x});
      var y :| y in s - {x} && forall o <- s - {x} :: y <= o;
      var z := Min(x, y);
      assert forall o <- s :: o == x || o in s - {x};
      assert z in s && forall o <- s :: z <= o;
    }
  }

  method OneLeft(all: set<DeviceId>, done: set<DeviceId>) returns (id: DeviceId)
    requires done <= all && done != all
    ensures id in all && id !in done
  {
    id :| id in all && id !in done;
  }

  // ------------------------------------------------- what an upsert and a move come to

  /** A device first seen through a reading: live, as the reading says, and online then if it says so. */
  function NewDevice(c: Collector, r: Reading): Device {
    Device(c, Some(r.reported), false, r.status, r.at, if r.status == Some("online") then r.at else None, r.tags, None)
  }

  /**
   A reading for a slot that nothing holds and nothing guards creates exactly one device there, with
   all that the reading says; a guard keeps it out.
   */
  lemma NewDevicesAreInserted(f: Fleet, c: Collector, r: Reading)
    requires WellFormed(f) && !Occupied(f, Slot(c, r.reported))
    ensures var g, id := Upserted(f, c, r), UpsertedId(f, c, r);
            if Slot(c, r.reported) in f.tombstones then g == f && id == None
            else
              && id.Some? && id.value !in f.devices && g.devices == f.devices[id.value := NewDevice(c, r)]
              && g.tombstones == f.tombstones && g.commands == f.commands
              && Occupied(g, Slot(c, r.reported)) && Occupant(g, Slot(c, r.reported)) == id.value
  {
    if Slot(c, r.reported) !in f.tombstones {
      var g, id := Upserted(f, c, r), UpsertedId(f, c, r).value;
      UpsertKeepsKeys(f, c, r);
      assert Holds(g.devices[id], Slot(c, r.reported));
    }
  }

  /** A live device takes a reading's tags exactly if it isn't made with settings older than the device's. */
  lemma TagsAreTakenExactly(d: Device, r: Reading)
    requires r.tags.Some? && r.tags != d.tags
    ensures Merged(d, r).tags == r.tags
            <==> d.editedAt.None? || (r.stamp.Some? && d.editedAt.value <= r.stamp.value)
    ensures Merged(d, r).tags == r.tags || Merged(d, r).tags == d.tags
  {
  }

  /** And its status exactly if it isn't older than the one there is. */
  lemma StatusIsTakenExactly(d: Device, r: Reading)
    requires r.status.Some? && r.status != d.status
    ensures Merged(d, r).status == r.status
            <==> d.lastSeen.None? || r.at.None? || d.lastSeen.value <= r.at.value
    ensures Merged(d, r).status == r.status || Merged(d, r).status == d.status
  {
  }

  /** What isn't an observation is none of a reading's business, and what a reading doesn't say stays. */
  lemma ReadingsLeaveTheRest(d: Device, r: Reading)
    ensures var e := Merged(d, r);
            && e.collector == d.collector && e.reported == d.reported && e.deleted == d.deleted
            && e.editedAt == d.editedAt
            && (r.tags.None? ==> e.tags == d.tags) && (r.status.None? ==> e.status == d.status)
            && (r.at.None? ==> e.lastSeen == d.lastSeen)
            && (r.at.None? || r.status != Some("online") ==> e.lastOnline == d.lastOnline)
  {
  }

  // ------------------------------------------------- keys and events

  lemma UpsertKeepsKeys(f: Fleet, c: Collector, r: Reading)
    requires WellFormed(f)
    ensures WellFormed(Upserted(f, c, r))
  {
  }

  lemma MoveKeepsKeys(f: Fleet, moving: set<DeviceId>, target: Collector)
    requires WellFormed(f) && moving <= f.devices.Keys
    requires !ShareName(f, moving) && Taken(f, moving, target) == {}
    ensures WellFormed(Moved(f, moving, target))
  {
    var g := Moved(f, moving, target);
    forall i, j | i in g.devices && j in g.devices && i != j && g.devices[i].reported.Some?
      ensures !Holds(g.devices[j], Slot(g.devices[i].collector, g.devices[i].reported.value))
    {
      if i in moving && j !in moving {
        assert i !in Taken(f, moving, target);
      } else if i !in moving && j in moving {
        assert j !in Taken(f, moving, target);
      }
    }
  }

  /** An event on its own never changes a device that is there. */
  lemma EventChangesNothing(f: Fleet, c: Collector, reported: string)
    requires Occupied(f, Slot(c, reported))
    ensures Upserted(f, c, EventOnly(reported)) == f
  {
    var d := f.devices[Occupant(f, Slot(c, reported))];
    assert Merged(d, EventOnly(reported)) == d;
  }

  /** Upserts for events are upserts of readings that say nothing. */
  lemma {:induction false} EventsAreReadings(f: Fleet, c: Collector, events: seq<string>)
    ensures EventsUpserted(f, c, events)
            == AllUpserted(f, c, seq(|events|, i requires 0 <= i < |events| => EventOnly(events[i])))
  {
    if events != [] {
      var front := events[..|events| - 1];
      EventsAreReadings(f, c, front);
      var rs := seq(|events|, i requires 0 <= i < |events| => EventOnly(events[i]));
      assert rs[..|events| - 1] == seq(|front|, i requires 0 <= i < |front| => EventOnly(front[i]));
    }
  }

  /** Every row keeps its key and its deletion mark through an upsert. */
  lemma UpsertKeepsDevices(f: Fleet, c: Collector, r: Reading)
    requires WellFormed(f)
    ensures forall id <- f.devices ::
              && id in Upserted(f, c, r).devices
              && f.devices[id].collector == Upserted(f, c, r).devices[id].collector
              && f.devices[id].reported == Upserted(f, c, r).devices[id].reported
              && f.devices[id].deleted == Upserted(f, c, r).devices[id].deleted
  {
  }

  lemma OneMoreName(f: Fleet, done: set<DeviceId>, id: DeviceId)
    requires done <= f.devices.Keys && id in f.devices && id !in done
    ensures Names(f, done + {id}) == Names(f, done) + {Reported(f, id)}
    ensures ShareName(f, done + {id}) <==> ShareName(f, done) || Reported(f, id) in Names(f, done)
  {
    if Reported(f, id) in Names(f, done) {
      var j :| j in done && Reported(f, j) == Reported(f, id);
      assert id in done + {id} && j in done + {id};
    } else if ShareName(f, done + {id}) {
      var i, j :| i in done + {id} && j in done + {id} && i != j && Reported(f, i) == Reported(f, j);
      assert i in done ==> Reported(f, i) in Names(f, done);
      assert j in done ==> Reported(f, j) in Names(f, done);
    }
  }
}
