/**
 Whole histories of the device table: readings, portal edits, moves and the
 command queue, in any order. No reading from a collector that a device has left
 ever brings the device back there as a second row.
 */
module FleetHistory {
  import opened Common
  import opened DeviceTable
  import Q = CommandQueue

  datatype Event =
    | Report(collector: Collector, reading: Reading)
    | Create(collector: Collector, reported: string)
    | Delete(id: DeviceId)
    | Move(ids: seq<DeviceId>, target: Collector)
    | ReadHome(ticket: nat, device: DeviceId)
    | Submit(ticket: nat, command: Q.Id, now: Time)
    | Claim(collector: Collector, max: nat, chosen: set<Q.Id>, now: Time)
    | Complete(command: Q.Id, collector: Collector, succeeded: bool, now: Time)
    | Expire(now: Time)
    | TimeOut(now: Time)
    | Requeue(now: Time)

  /** A command being submitted: its device, and the collector that was read for it. */
  datatype Reader = Reader(device: DeviceId, home: Collector)

  /**
   left: every slot with a name that some device has been moved away from. readers:
   submissions that have read their device's collector and not inserted their command.
   */
  datatype State = State(f: Fleet, left: set<Slot>, readers: map<nat, Reader>)

  /** overlaps: whether a device may be moved between the read and the insert of a command for it. */
  ghost predicate Enabled(overlaps: bool, s: State, e: Event) {
    match e
    case ReadHome(ticket, device) => ticket !in s.readers && device in s.f.devices && !s.f.devices[device].deleted
    case Submit(ticket, command, _) => ticket in s.readers && command !in s.f.commands
    case Claim(collector, max, chosen, _) => Q.IsOldest(s.f.commands, collector, max, chosen)
    case Move(ids, target) => overlaps || forall t <- s.readers :: s.readers[t].device !in Moving(s.f, ids, target)
    case _ => true
  }

  /** The portal's insert: nothing happens when the slot is taken, by a live or a deleted device. */
  ghost function Created(f: Fleet, c: Collector, reported: string): Fleet {
    if Occupied(f, Slot(c, reported)) then f
    else f.(devices := f.devices[f.next := Inserted(c, EventOnly(reported))], next := f.next + 1)
  }

  function Deleted(f: Fleet, id: DeviceId): Fleet {
    if id in f.devices then f.(devices := f.devices[id := f.devices[id].(deleted := true)]) else f
  }

  ghost function Step(s: State, standby: map<Collector, bool>, lim: Q.Limits, e: Event): State {
    var f := s.f;
    match e
    case Report(c, r) => s.(f := Upserted(f, c, r))
    case Create(c, reported) => s.(f := Created(f, c, reported))
    case Delete(id) => s.(f := Deleted(f, id))
    case Move(ids, target) =>
      var moving := Moving(f, ids, target);
      if MayMove(f, ids, target, standby)
      then s.(f := Moved(f, moving, target), left := s.left + SlotsLeft(f, moving))
      else s
    case ReadHome(ticket, device) =>
      if device in f.devices then s.(readers := s.readers[ticket := Reader(device, f.devices[device].collector)]) else s
    case Submit(ticket, command, now) =>
      if ticket in s.readers
      then
        var r := s.readers[ticket];
        s.(f := f.(commands := f.commands[command := Q.Submitted(r.home, r.device, now)]),
           readers := s.readers - {ticket})
      else s
    case Claim(_, _, chosen, now) => s.(f := f.(commands := Q.AfterClaim(f.commands, chosen, now)))
    case Complete(command, c, succeeded, now) =>
      if Q.MayComplete(f.commands, command, c)
      then s.(f := f.(commands := f.commands[command :=
                Q.Closed(f.commands[command], if succeeded then Q.Succeeded else Q.Failed,
                         if succeeded then Q.NoError else Q.Reported, now)]))
      else s
    case Expire(now) => s.(f := f.(commands := Q.AfterExpire(f.commands, lim, now)))
    case TimeOut(now) => s.(f := f.(commands := Q.AfterTimeout(f.commands, lim, now)))
    case Requeue(now) => s.(f := f.(commands := Q.AfterRequeue(f.commands, lim, now)))
  }

  ghost predicate Runs(overlaps: bool, s: State, standby: map<Collector, bool>, lim: Q.Limits, es: seq<Event>)
    decreases |es|
  {
    es == [] || (Enabled(overlaps, s, es[0]) && Runs(overlaps, Step(s, standby, lim, es[0]), standby, lim, es[1..]))
  }

  ghost function Final(s: State, standby: map<Collector, bool>, lim: Q.Limits, es: seq<Event>): State
    decreases |es|
  {
    if es == [] then s else Final(Step(s, standby, lim, es[0]), standby, lim, es[1..])
  }

  const EMPTY := State(Fleet(map[], {}, map[], 0), {}, map[])

  // ------------------------------------------------- what is kept

  /** Every slot a device has left is guarded: by a tombstone, or by a row that is there. */
  predicate SlotsGuarded(s: State) {
    forall slot <- s.left :: slot.reported != "" && (slot in s.f.tombstones || Occupied(s.f, slot))
  }

  /** Commands, and those being submitted, are for devices that exist; a claimed command counts its claims. */
  predicate DevicesKnown(s: State) {
    && (forall c <- s.f.commands ::
          && s.f.commands[c].device in s.f.devices
          && (s.f.commands[c].status == Q.InProgress ==> 0 < s.f.commands[c].claims))
    && (forall t <- s.readers :: s.readers[t].device in s.f.devices)
  }

  /** A pending command that was never claimed is on the collector its device is on now. */
  predicate CommandsFollow(f: Fleet) {
    forall c <- f.commands ::
      f.commands[c].device in f.devices && f.commands[c].status == Q.Pending && f.commands[c].claims == 0 ==>
        f.commands[c].collector == f.devices[f.commands[c].device].collector
  }

  /** So will those be that are being submitted. */
  predicate ReadersFollow(s: State) {
    forall t <- s.readers :: s.readers[t].device in s.f.devices ==>
      s.readers[t].home == s.f.devices[s.readers[t].device].collector
  }

  predicate Inv(overlaps: bool, s: State) {
    WellFormed(s.f) && SlotsGuarded(s) && DevicesKnown(s) && (!overlaps ==> CommandsFollow(s.f) && ReadersFollow(s))
  }

  lemma ReportKeepsInv(overlaps: bool, s: State, c: Collector, r: Reading)
    requires Inv(overlaps, s)
    ensures Inv(overlaps, s.(f := Upserted(s.f, c, r)))
  {
    UpsertKeepsKeys(s.f, c, r);
    UpsertKeepsDevices(s.f, c, r);
    forall slot <- s.left | Occupied(s.f, slot) ensures Occupied(Upserted(s.f, c, r), slot) {
      var id := Occupant(s.f, slot);
      assert Holds(Upserted(s.f, c, r).devices[id], slot);
    }
  }

  lemma CreateKeepsInv(overlaps: bool, s: State, c: Collector, reported: string)
    requires Inv(overlaps, s)
    ensures Inv(overlaps, s.(f := Created(s.f, c, reported)))
  {
    var f' := Created(s.f, c, reported);
    forall slot <- s.left | Occupied(s.f, slot) ensures Occupied(f', slot) {
      var id := Occupant(s.f, slot);
      assert Holds(f'.devices[id], slot);
    }
  }

  lemma DeleteKeepsInv(overlaps: bool, s: State, id: DeviceId)
    requires Inv(overlaps, s)
    ensures Inv(overlaps, s.(f := Deleted(s.f, id)))
  {
    var f' := Deleted(s.f, id);
    forall slot <- s.left | Occupied(s.f, slot) ensures Occupied(f', slot) {
      var o := Occupant(s.f, slot);
      assert Holds(f'.devices[o], slot);
    }
  }

  lemma MoveGuardsSlots(s: State, moving: set<DeviceId>, target: Collector)
    requires SlotsGuarded(s) && moving <= s.f.devices.Keys
    ensures SlotsGuarded(s.(f := Moved(s.f, moving, target), left := s.left + SlotsLeft(s.f, moving)))
  {
    var f' := Moved(s.f, moving, target);
    forall slot | slot in s.left + SlotsLeft(s.f, moving)
      ensures slot.reported != "" && (slot in f'.tombstones || Occupied(f', slot))
    {
      if slot in SlotsTaken(s.f, moving, target) {
        var id :| id in moving && slot == Slot(target, Reported(s.f, id));
        assert Holds(f'.devices[id], slot);
      } else if slot !in s.f.tombstones && slot !in SlotsLeft(s.f, moving) {
        var id := Occupant(s.f, slot);
        if id in moving {
          assert false;
        }
        assert Holds(f'.devices[id], slot);
      }
    }
  }

  lemma MoveKeepsInv(overlaps: bool, s: State, moving: set<DeviceId>, target: Collector)
    requires Inv(overlaps, s) && moving <= s.f.devices.Keys
    requires !ShareName(s.f, moving) && Taken(s.f, moving, target) == {}
    requires overlaps || forall t <- s.readers :: s.readers[t].device !in moving
    ensures Inv(overlaps, s.(f := Moved(s.f, moving, target), left := s.left + SlotsLeft(s.f, moving)))
  {
    MoveKeepsKeys(s.f, moving, target);
    MoveGuardsSlots(s, moving, target);
  }

  predicate QueueEvent(e: Event) {
    e.ReadHome? || e.Submit? || e.Claim? || e.Complete? || e.Expire? || e.TimeOut? || e.Requeue?
  }

  lemma QueueKeepsKnown(overlaps: bool, s: State, standby: map<Collector, bool>, lim: Q.Limits, e: Event)
    requires DevicesKnown(s) && Enabled(overlaps, s, e) && QueueEvent(e)
    ensures DevicesKnown(Step(s, standby, lim, e))
  {
  }

  lemma QueueKeepsFollowing(overlaps: bool, s: State, standby: map<Collector, bool>, lim: Q.Limits, e: Event)
    requires DevicesKnown(s) && CommandsFollow(s.f) && ReadersFollow(s) && Enabled(overlaps, s, e) && QueueEvent(e)
    ensures CommandsFollow(Step(s, standby, lim, e).f) && ReadersFollow(Step(s, standby, lim, e))
  {
  }

  /** The queue's own statements leave devices and tombstones alone. */
  lemma QueueKeepsInv(overlaps: bool, s: State, standby: map<Collector, bool>, lim: Q.Limits, e: Event)
    requires Inv(overlaps, s) && Enabled(overlaps, s, e) && QueueEvent(e)
    ensures Inv(overlaps, Step(s, standby, lim, e))
  {
    QueueKeepsKnown(overlaps, s, standby, lim, e);
    if !overlaps {
      QueueKeepsFollowing(overlaps, s, standby, lim, e);
    }
    var s' := Step(s, standby, lim, e);
    assert s' == s.(f := s.f.(commands := s'.f.commands), readers := s'.readers);
  }

  lemma {:induction false} HistoriesKeepInv(overlaps: bool, s: State, standby: map<Collector, bool>, lim: Q.Limits,
                                            es: seq<Event>)
    requires Inv(overlaps, s) && Runs(overlaps, s, standby, lim, es)
    ensures Inv(overlaps, Final(s, standby, lim, es))
    decreases |es|
  {
    if es != [] {
      match es[0] {
        case Report(c, r) => ReportKeepsInv(overlaps, s, c, r);
        case Create(c, reported) => CreateKeepsInv(overlaps, s, c, reported);
        case Delete(id) => DeleteKeepsInv(overlaps, s, id);
        case Move(ids, target) =>
          if MayMove(s.f, ids, target, standby) {
            MoveKeepsInv(overlaps, s, Moving(s.f, ids, target), target);
          }
        case _ => QueueKeepsInv(overlaps, s, standby, lim, es[0]);
      }
      HistoriesKeepInv(overlaps, Step(s, standby, lim, es[0]), standby, lim, es[1..]);
    }
  }

  /**
   No ghost devices. After any history, a reading for a slot that some device has
   been moved away from never inserts a row: it is dropped, or it updates the
   device that is at that slot.
   */
  lemma NoGhostDevices(standby: map<Collector, bool>, lim: Q.Limits, es: seq<Event>, c: Collector, r: Reading)
    requires Runs(true, EMPTY, standby, lim, es)
    requires Slot(c, r.reported) in Final(EMPTY, standby, lim, es).left
    ensures var f := Final(EMPTY, standby, lim, es).f;
            && Upserted(f, c, r).devices.Keys == f.devices.Keys
            && (Upserted(f, c, r) != f ==> Occupied(f, Slot(c, r.reported)))
  {
    HistoriesKeepInv(true, EMPTY, standby, lim, es);
  }

  /** A guard keeps out readings alone: the portal may put a new device at a slot that was left. */
  lemma PortalInsertsAnyway(f: Fleet, c: Collector, reported: string)
    requires WellFormed(f) && !Occupied(f, Slot(c, reported))
    ensures var g := Created(f, c, reported);
            && g.devices == f.devices[f.next := Device(c, Some(reported), false, None, None, None, None, None)]
            && f.next !in f.devices && g.tombstones == f.tombstones && g.commands == f.commands
            && Occupied(g, Slot(c, reported))
  {
    assert Holds(Created(f, c, reported).devices[f.next], Slot(c, reported));
  }

  /** Only slots that a device has left are guarded. */
  predicate GuardsAreForSlotsLeft(s: State) {
    s.f.tombstones <= s.left
  }

  lemma StepKeepsGuards(s: State, standby: map<Collector, bool>, lim: Q.Limits, e: Event)
    requires GuardsAreForSlotsLeft(s)
    ensures GuardsAreForSlotsLeft(Step(s, standby, lim, e)) && s.left <= Step(s, standby, lim, e).left
  {
  }

  lemma {:induction false} LeftGrows(s: State, standby: map<Collector, bool>, lim: Q.Limits, es: seq<Event>)
    requires GuardsAreForSlotsLeft(s)
    ensures s.left <= Final(s, standby, lim, es).left
    decreases |es|
  {
    if es != [] {
      StepKeepsGuards(s, standby, lim, es[0]);
      LeftGrows(Step(s, standby, lim, es[0]), standby, lim, es[1..]);
    }
  }

  /** A row stays at its slot unless it is moved away. */
  lemma HolderStays(s: State, standby: map<Collector, bool>, lim: Q.Limits, e: Event, id: DeviceId, slot: Slot)
    requires WellFormed(s.f) && id in s.f.devices && Holds(s.f.devices[id], slot)
    requires slot.reported != "" && slot !in Step(s, standby, lim, e).left
    ensures id in Step(s, standby, lim, e).f.devices && Holds(Step(s, standby, lim, e).f.devices[id], slot)
  {
    match e
    case Report(c, r) => UpsertKeepsDevices(s.f, c, r);
    case _ =>
  }

  lemma EventKeepsInv(s: State, standby: map<Collector, bool>, lim: Q.Limits, es: seq<Event>)
    requires Inv(true, s) && Runs(true, s, standby, lim, es) && es != []
    ensures Inv(true, Step(s, standby, lim, es[0])) && Runs(true, Step(s, standby, lim, es[0]), standby, lim, es[1..])
  {
    HistoriesKeepInv(true, s, standby, lim, [es[0]]);
    assert [es[0]][1..] == [];
    assert Final(s, standby, lim, [es[0]]) == Step(s, standby, lim, es[0]);
  }

  lemma {:induction false} HolderStaysForGood(s: State, standby: map<Collector, bool>, lim: Q.Limits, es: seq<Event>,
                                              id: DeviceId, slot: Slot)
    requires Inv(true, s) && GuardsAreForSlotsLeft(s) && Runs(true, s, standby, lim, es)
    requires id in s.f.devices && Holds(s.f.devices[id], slot)
    requires slot.reported != "" && slot !in Final(s, standby, lim, es).left
    ensures Occupied(Final(s, standby, lim, es).f, slot)
    decreases |es|
  {
    if es != [] {
      var s' := Step(s, standby, lim, es[0]);
      EventKeepsInv(s, standby, lim, es);
      StepKeepsGuards(s, standby, lim, es[0]);
      LeftGrows(s', standby, lim, es[1..]);
      HolderStays(s, standby, lim, es[0], id, slot);
      HolderStaysForGood(s', standby, lim, es[1..], id, slot);
    }
  }

  lemma ReadingFillsSlot(s: State, c: Collector, r: Reading) returns (id: DeviceId)
    requires WellFormed(s.f) && Slot(c, r.reported) !in s.f.tombstones
    ensures id in Upserted(s.f, c, r).devices && Holds(Upserted(s.f, c, r).devices[id], Slot(c, r.reported))
  {
    if Occupied(s.f, Slot(c, r.reported)) {
      id := Occupant(s.f, Slot(c, r.reported));
      UpsertKeepsDevices(s.f, c, r);
    } else {
      NewDevicesAreInserted(s.f, c, r);
      id := UpsertedId(s.f, c, r).value;
    }
  }

  /** A push leaves a row at the slot of each of its readings, unless the slot is guarded. */
  lemma {:induction false} PushFillsSlots(s: State, c: Collector, rs: seq<Reading>, i: nat)
    requires WellFormed(s.f) && i < |rs| && Slot(c, rs[i].reported) !in s.f.tombstones
    ensures WellFormed(AllUpserted(s.f, c, rs)) && AllUpserted(s.f, c, rs).tombstones == s.f.tombstones
    ensures Occupied(AllUpserted(s.f, c, rs), Slot(c, rs[i].reported))
  {
    var front, r := rs[..|rs| - 1], rs[|rs| - 1];
    PushKeepsKeys(s.f, c, front);
    var v := s.(f := AllUpserted(s.f, c, front));
    UpsertKeepsKeys(v.f, c, r);
    if i < |front| {
      PushFillsSlots(s, c, front, i);
      var id := Occupant(v.f, Slot(c, rs[i].reported));
      UpsertKeepsDevices(v.f, c, r);
      assert Holds(Upserted(v.f, c, r).devices[id], Slot(c, rs[i].reported));
    } else {
      var id := ReadingFillsSlot(v, c, r);
    }
  }

  lemma {:induction false} PushKeepsKeys(f: Fleet, c: Collector, rs: seq<Reading>)
    requires WellFormed(f)
    ensures WellFormed(AllUpserted(f, c, rs)) && AllUpserted(f, c, rs).tombstones == f.tombstones
  {
    if rs != [] {
      PushKeepsKeys(f, c, rs[..|rs| - 1]);
      UpsertKeepsKeys(AllUpserted(f, c, rs[..|rs| - 1]), c, rs[|rs| - 1]);
    }
  }

  lemma {:induction false} ReportedSlotIsHeld(s: State, standby: map<Collector, bool>, lim: Q.Limits, es: seq<Event>,
                                              i: nat, slot: Slot)
    requires Inv(true, s) && GuardsAreForSlotsLeft(s) && Runs(true, s, standby, lim, es)
    requires i < |es| && es[i].Report? && slot == Slot(es[i].collector, es[i].reading.reported)
    requires slot.reported != "" && slot !in Final(s, standby, lim, es).left
    ensures Occupied(Final(s, standby, lim, es).f, slot)
    decreases |es|
  {
    var s' := Step(s, standby, lim, es[0]);
    EventKeepsInv(s, standby, lim, es);
    StepKeepsGuards(s, standby, lim, es[0]);
    if i == 0 {
      LeftGrows(s, standby, lim, es);
      var id := ReadingFillsSlot(s, es[0].collector, es[0].reading);
      HolderStaysForGood(s', standby, lim, es[1..], id, slot);
    } else {
      ReportedSlotIsHeld(s', standby, lim, es[1..], i - 1, slot);
    }
  }

  /**
   No lost devices: the other half of NoGhostDevices. Once a collector has sent a reading for a slot,
   the table has a row for it through every history, for as long as no device has been moved away
   from there.
   */
  lemma ReportedDevicesAreThere(standby: map<Collector, bool>, lim: Q.Limits, es: seq<Event>, i: nat)
    requires Runs(true, EMPTY, standby, lim, es) && i < |es| && es[i].Report? && es[i].reading.reported != ""
    requires Slot(es[i].collector, es[i].reading.reported) !in Final(EMPTY, standby, lim, es).left
    ensures Occupied(Final(EMPTY, standby, lim, es).f, Slot(es[i].collector, es[i].reading.reported))
  {
    ReportedSlotIsHeld(EMPTY, standby, lim, es, i, Slot(es[i].collector, es[i].reading.reported));
  }

  /** Through every history, (collector, reported id) stays a key that covers deleted rows. */
  lemma KeysStayUnique(standby: map<Collector, bool>, lim: Q.Limits, es: seq<Event>, i: DeviceId, j: DeviceId,
                       slot: Slot)
    requires Runs(true, EMPTY, standby, lim, es)
    requires var f := Final(EMPTY, standby, lim, es).f;
             i in f.devices && j in f.devices && Holds(f.devices[i], slot) && Holds(f.devices[j], slot)
    ensures i == j
  {
    HistoriesKeepInv(true, EMPTY, standby, lim, es);
  }

  /**
   Commands follow their device: one that is pending and was never claimed waits on
   the collector the device is on now.
   */
  ghost predicate AlwaysFollow(overlaps: bool) {
    forall standby, lim, es ::
      Runs(overlaps, EMPTY, standby, lim, es) ==> CommandsFollow(Final(EMPTY, standby, lim, es).f)
  }

  /**
   They do in every history exactly when no device is moved between the read and the
   insert of a command for it. Nothing locks the device in between.
   */
  lemma UnclaimedCommandsFollowExactly(overlaps: bool)
    ensures AlwaysFollow(overlaps) <==> !overlaps
  {
    if overlaps {
      MoveDuringSubmit();
    } else {
      forall standby, lim, es | Runs(false, EMPTY, standby, lim, es)
        ensures CommandsFollow(Final(EMPTY, standby, lim, es).f)
      {
        HistoriesKeepInv(false, EMPTY, standby, lim, es);
      }
    }
  }

  lemma After(s: State, standby: map<Collector, bool>, lim: Q.Limits, e: Event, s': State, es: seq<Event>)
      returns (all: seq<Event>)
    requires Enabled(true, s, e) && Step(s, standby, lim, e) == s' && Runs(true, s', standby, lim, es)
    ensures Runs(true, s, standby, lim, all) && Final(s, standby, lim, all) == Final(s', standby, lim, es)
  {
    all := [e] + es;
    assert all[1..] == es;
  }

  /** Device 0 is at collector 0, and a command for it is being submitted. */
  function Submitting(): State {
    EMPTY.(f := Fleet(map[0 := Inserted(0, EventOnly("tv"))], {}, map[], 1), readers := map[0 := Reader(0, 0)])
  }

  lemma FromSubmitting(standby: map<Collector, bool>, lim: Q.Limits, es: seq<Event>) returns (all: seq<Event>)
    requires Runs(true, Submitting(), standby, lim, es)
    ensures Runs(true, EMPTY, standby, lim, all)
             && Final(EMPTY, standby, lim, all) == Final(Submitting(), standby, lim, es)
  {
    var s := Submitting().(readers := map[]);
    all := After(s, standby, lim, ReadHome(0, 0), Submitting(), es);
    all := After(EMPTY, standby, lim, Create(0, "tv"), s, all);
  }

  /** A new device at collector 0, moved to collector 1 while a command for it is being submitted. */
  lemma MoveDuringSubmit()
    ensures !AlwaysFollow(true)
  {
    var standby, lim, s := map[1 := false], Q.Limits(1, 1, 1), Submitting();
    MovesAway(s, Inserted(0, EventOnly("tv")), standby);
    var s1 := s.(f := Moved(s.f, {0}, 1), left := SlotsLeft(s.f, {0}));
    var s2 := s1.(f := s1.f.(commands := map[0 := Q.Submitted(0, 0, 0)]), readers := map[]);
    assert Step(s, standby, lim, Move([0], 1)) == s1;
    assert !CommandsFollow(s2.f) by {
      assert 0 in s2.f.commands && s2.f.devices[0].collector == 1;
    }
    var es := After(s1, standby, lim, Submit(0, 0, 0), s2, []);
    es := After(s, standby, lim, Move([0], 1), s1, es);
    es := FromSubmitting(standby, lim, es);
  }

  lemma MovesAway(s: State, d: Device, standby: map<Collector, bool>)
    requires s.f.devices == map[0 := d] && d == Inserted(0, EventOnly("tv")) && standby == map[1 := false]
    ensures Moving(s.f, [0], 1) == {0} && MayMove(s.f, [0], 1, standby)
  {
    assert LiveAmong(s.f, [0]) == {0} by {
      assert 0 in [0];
    }
    assert Moving(s.f, [0], 1) == {0};
  }

  // ------------------------------------------------- one move

  /**
   A move to a collector and back restores every row, guards the collector left last,
   and lifts what guarded the home.
   */
  lemma ThereAndBack(f: Fleet, moving: set<DeviceId>, home: Collector, away: Collector)
    requires WellFormed(f) && moving <= f.devices.Keys && home != away
    requires forall id <- moving :: f.devices[id].collector == home && f.devices[id].reported.Some?
                                           && Reported(f, id) != ""
    requires !ShareName(f, moving) && Taken(f, moving, away) == {}
    ensures var g := Moved(f, moving, away);
            && moving <= g.devices.Keys && !ShareName(g, moving) && Taken(g, moving, home) == {}
            && Moved(g, moving, home).devices == f.devices
            && Moved(g, moving, home).tombstones
               == f.tombstones - SlotsTaken(f, moving, home) + SlotsTaken(f, moving, away)
  {
  }

  /**
   What a move reopens on the target is exactly the slots of the devices that move
   there; every other slot keeps its guard.
   */
  lemma MoveReopensExactly(f: Fleet, moving: set<DeviceId>, target: Collector, slot: Slot)
    requires WellFormed(f) && moving <= f.devices.Keys && slot in f.tombstones
    ensures slot !in Moved(f, moving, target).tombstones <==> slot in SlotsTaken(f, moving, target)
    ensures slot in SlotsTaken(f, moving, target) && slot.reported != "" ==> Occupied(Moved(f, moving, target), slot)
  {
    if slot in SlotsTaken(f, moving, target) && slot.reported != "" {
      var id :| id in moving && slot == Slot(target, Reported(f, id));
      assert Holds(Moved(f, moving, target).devices[id], slot);
    }
  }

  /**
   Why only unclaimed commands follow: whenever a device is moved while one of its
   commands is with the old collector, and the sweeper then takes that command
   back, it waits, pending, on the collector the device has left.
   */
  lemma RequeuedCommandsStayBehind(s: State, standby: map<Collector, bool>, lim: Q.Limits, ids: seq<DeviceId>,
                                   target: Collector, c: Q.Id, now: Time)
    requires DevicesKnown(s) && MayMove(s.f, ids, target, standby)
    requires c in s.f.commands && s.f.commands[c].device in Moving(s.f, ids, target)
    requires s.f.commands[c].collector != target
    requires Q.IsStale(s.f.commands[c], lim, now) && s.f.commands[c].claims < lim.maxClaims
    ensures var moved := Step(s, standby, lim, Move(ids, target)); var f := Step(moved, standby, lim, Requeue(now)).f;
            && c in f.commands && f.commands[c].device in f.devices
            && f.commands[c].status == Q.Pending && 0 < f.commands[c].claims
            && f.commands[c].collector == s.f.commands[c].collector
            && f.devices[f.commands[c].device].collector == target
  {
    var moved := Step(s, standby, lim, Move(ids, target));
    assert moved.f.commands[c] == s.f.commands[c];
    assert Step(moved, standby, lim, Requeue(now)).f.commands[c] == Q.RequeuedOrSame(moved.f.commands[c], lim, now);
  }
}
