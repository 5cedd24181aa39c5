/**
 Nightly power runs (nightly/scheduler.go, nightly/power.go): a room is switched
 off in the evening and on in the morning, and its devices are marked as
 switched off in between. One clock, in seconds.
 */
module PowerRun {
  import opened Common
  import opened ScheduleDates
  import Q = CommandQueue

  type RunId = nat
  type CommandId = nat
  type Device = nat

  datatype Phase = ScheduledOff | Off | ScheduledOn | Waking | Warming | Ready | FailedPhase
  datatype Status = InProgress | Succeeded | Failed
  datatype Action = PowerOff | PowerOn

  datatype Config = Config(grace: Time, warmup: Time, dryRun: bool)

  /** Past this, unfinished power commands count as failed. */
  const SETTLE_TIMEOUT: Time := 720

  /**
   A run. planned, settledAt and endedAt are history: the power-on instant the
   run acted on, when its power-on settled, and when it ended.
   */
  datatype Run = Run(room: Room, phase: Phase, status: Status, scheduledAt: Time, since: Time,
                     poweredOnAt: Option<Time>, planned: Option<Time>, settledAt: Option<Time>, endedAt: Option<Time>)

  /** A command submitted for a run's schedule, with the status the queue has given it. */
  datatype PowerCommand = PowerCommand(run: RunId, action: Action, device: Device, status: Q.Status)

  datatype World = World(runs: map<RunId, Run>, marks: map<Device, RunId>, commands: map<CommandId, PowerCommand>)

  predicate Asleep(p: Phase) {
    p == Off || p == ScheduledOn || p == Waking || p == Warming
  }

  // ------------------------------------------------- decisions

  /** Go's integer division, which truncates; it is only reached with a positive warm-up. */
  function Half(warmup: Time): Time
    requires 0 < warmup
  {
    warmup / 2
  }

  /** decideTransition. planFor is the room's plan over the dates the scheduler has loaded. */
  function Decide(cfg: Config, phase: Phase, scheduledAt: Time, since: Time, zoneKnown: bool,
                  planFor: Day -> Plan, now: Time): Option<Phase> {
    match phase
    case ScheduledOff => if cfg.dryRun then Some(Off) else None
    case Off =>
      if !zoneKnown then Some(FailedPhase)
      else
        var on := NextPowerOn(scheduledAt, planFor);
        if on.None? || now < on.value then None
        else if cfg.grace < now - on.value then Some(FailedPhase)
        else Some(ScheduledOn)
    case ScheduledOn => if cfg.dryRun then Some(Waking) else None
    case Waking => if cfg.warmup <= 0 || Half(cfg.warmup) <= now - since then Some(Warming) else None
    case Warming =>
      if cfg.warmup <= 0 || cfg.warmup - Half(cfg.warmup) <= now - since then Some(Ready) else None
    case _ => None
  }

  // ------------------------------------------------- the statements

  function Woken(marks: map<Device, RunId>, id: RunId): map<Device, RunId> {
    map d | d in marks && marks[d] != id :: marks[d]
  }

  function PhaseSet(w: World, id: RunId, phase: Phase, now: Time): World
    requires id in w.runs
  {
    var r := w.runs[id];
    w.(runs := w.runs[id := r.(phase := phase, since := now,
                               poweredOnAt := if phase == ScheduledOn then Some(now) else r.poweredOnAt,
                               settledAt := if phase == Waking then Some(now) else r.settledAt)],
       marks := if Asleep(phase) then w.marks else Woken(w.marks, id))
  }

  function Finished(w: World, id: RunId, phase: Phase, status: Status, now: Time): World
    requires id in w.runs
  {
    w.(runs := w.runs[id := w.runs[id].(phase := phase, status := status, endedAt := Some(now))],
       marks := Woken(w.marks, id))
  }

  function CommandsOf(w: World, id: RunId, action: Action): set<CommandId> {
    set c | c in w.commands && w.commands[c].run == id && w.commands[c].action == action
  }

  function SwitchedOff(w: World, id: RunId): set<Device> {
    set c | c in CommandsOf(w, id, PowerOff) && w.commands[c].status == Q.Succeeded :: w.commands[c].device
  }

  function Marked(w: World, id: RunId): World {
    w.(marks := w.marks + map d | d in SwitchedOff(w, id) :: id)
  }

  /** submitRoomPower: one pending command for each of the room's capable devices. */
  function Dispatched(w: World, id: RunId, action: Action, queued: map<CommandId, Device>): World {
    w.(commands := w.commands + map c | c in queued :: PowerCommand(id, action, queued[c], Q.Pending))
  }

  predicate Unfinished(s: Q.Status) { s == Q.Pending || s == Q.InProgress }

  /** A power phase is over: every command has finished, or the wait has been too long. */
  predicate Settles(w: World, id: RunId, action: Action, now: Time)
    requires id in w.runs
  {
    || SETTLE_TIMEOUT <= now - w.runs[id].since
    || forall c <- CommandsOf(w, id, action) :: !Unfinished(w.commands[c].status)
  }

  predicate AllSucceeded(w: World, id: RunId, action: Action) {
    forall c <- CommandsOf(w, id, action) :: w.commands[c].status == Q.Succeeded
  }

  function Settled(w: World, id: RunId, now: Time): World
    requires id in w.runs
  {
    var action := if w.runs[id].phase == ScheduledOn then PowerOn else PowerOff;
    if !Settles(w, id, action, now) then w
    else if action == PowerOff then PhaseSet(Marked(w, id), id, Off, now)
    else if AllSucceeded(w, id, PowerOn) then PhaseSet(w, id, Waking, now)
    else Finished(w, id, FailedPhase, Failed, now)
  }

  /** One run's turn in advanceRuns. queued are the commands queued if this turn powers the room on. */
  datatype Turn = Turn(id: RunId, zoneKnown: bool, planFor: Day -> Plan, queued: map<CommandId, Device>)

  predicate Advances(w: World, t: Turn) {
    t.id in w.runs && w.runs[t.id].status == InProgress
  }

  /** What a decision comes to. */
  function Decided(cfg: Config, w: World, t: Turn, next: Phase, now: Time): World
    requires t.id in w.runs
  {
    match next
    case Ready => Finished(w, t.id, Ready, Succeeded, now)
    case FailedPhase => Finished(w, t.id, FailedPhase, Failed, now)
    case ScheduledOn =>
      var r := w.runs[t.id];
      var planned := w.(runs := w.runs[t.id := r.(planned := NextPowerOn(r.scheduledAt, t.planFor))]);
      Dispatched(PhaseSet(planned, t.id, ScheduledOn, now), t.id, PowerOn, if cfg.dryRun then map[] else t.queued)
    case p => PhaseSet(w, t.id, p, now)
  }

  function Advanced(cfg: Config, w: World, t: Turn, now: Time): World {
    if !Advances(w, t) then w
    else
      var r := w.runs[t.id];
      if !cfg.dryRun && (r.phase == ScheduledOff || r.phase == ScheduledOn) then Settled(w, t.id, now)
      else match Decide(cfg, r.phase, r.scheduledAt, r.since, t.zoneKnown, t.planFor, now)
        case None => w
        case Some(next) => Decided(cfg, w, t, next, now)
  }

  /** The turns of the given runs, one after the other. */
  function AllAdvanced(cfg: Config, w: World, seen: map<RunId, Turn>, order: seq<RunId>, now: Time): World
    requires forall id <- order :: id in seen
  {
    if order == [] then w
    else Advanced(cfg, AllAdvanced(cfg, w, seen, order[..|order| - 1], now), seen[order[|order| - 1]], now)
  }

  /** The in-progress runs, which advanceRuns reads first. */
  function InProgressRuns(w: World): set<RunId> {
    set id | id in w.runs && w.runs[id].status == InProgress
  }

  /** order names each in-progress run once, and no other. */
  predicate Covers(order: seq<RunId>, w: World) {
    && (forall id <- order :: id in InProgressRuns(w))
    && (forall id <- InProgressRuns(w) :: id in order)
    && (forall i, j :: 0 <= i < j < |order| ==> order[i] != order[j])
  }

  predicate RoomBusy(w: World, room: Room) {
    exists id <- w.runs :: w.runs[id].room == room && w.runs[id].status == InProgress
  }

  predicate CycleExists(w: World, room: Room, scheduledAt: Time) {
    exists id <- w.runs :: w.runs[id].room == room && w.runs[id].scheduledAt == scheduledAt
  }

  /**
   An enabled room as createDueRuns sees it. ahead is how far its zone is ahead of
   UTC, or nothing if the zone is unknown; excluded is the last day on which it is
   left alone, if it is.
   */
  datatype RoomView = RoomView(room: Room, ahead: Option<Time>, excluded: Option<Day>, planFor: Day -> Plan)

  /**
   Whether the exclusion still holds at a moment of local time. Truncating to a day
   counts days from midnight UTC, whatever the zone.
   */
  predicate IsExcluded(last: Day, ahead: Time, now: Time) {
    DayOf(now - ahead) <= last
  }

  /** createDueRuns for one room: whether a run starts. */
  predicate StartsRun(cfg: Config, w: World, rv: RoomView, now: Time) {
    var today := rv.planFor(DayOf(now));
    var scheduled := At(DayOf(now), today.off);
    && rv.ahead.Some? && (rv.excluded.Some? ==> !IsExcluded(rv.excluded.value, rv.ahead.value, now))
    && today.active
    && scheduled <= now && now - scheduled <= cfg.grace
    && !RoomBusy(w, rv.room) && !CycleExists(w, rv.room, scheduled)
  }

  function Started(cfg: Config, w: World, id: RunId, room: Room, scheduledAt: Time, now: Time,
                   queued: map<CommandId, Device>): World {
    Dispatched(w.(runs := w.runs[id := Run(room, ScheduledOff, InProgress, scheduledAt, now, None, None, None, None)]),
               id, PowerOff, if cfg.dryRun then map[] else queued)
  }

  // ------------------------------------------------- the scheduler's own loops

  class Scheduler {
    const cfg: Config
    var runs: map<RunId, Run>
    var marks: map<Device, RunId>
    var commands: map<CommandId, PowerCommand>

    function View(): World
      reads this
    {
      World(runs, marks, commands)
    }

    constructor (cfg: Config)
      ensures this.cfg == cfg && View() == World(map[], map[], map[])
    {
      this.cfg := cfg;
      runs, marks, commands := map[], map[], map[];
    }

    method SetPhase(id: RunId, phase: Phase, now: Time)
      requires id in runs
      modifies this
      ensures View() == PhaseSet(old(View()), id, phase, now)
    {
      var r := runs[id];
      runs := runs[id := r.(phase := phase, since := now)];
      if phase == ScheduledOn {
        runs := runs[id := runs[id].(poweredOnAt := Some(now))];
      }
      if phase == Waking {
        runs := runs[id := runs[id].(settledAt := Some(now))];
      }
      if !Asleep(phase) {
        marks := Woken(marks, id);
      }
    }

    method Finish(id: RunId, phase: Phase, status: Status, now: Time)
      requires id in runs
      modifies this
      ensures View() == Finished(old(View()), id, phase, status, now)
    {
      runs := runs[id := runs[id].(phase := phase, status := status, endedAt := Some(now))];
      marks := Woken(marks, id);
    }

    /** powerOutcome: the loop over a run's commands, in some order. failures are those that didn't succeed. */
    method PowerOutcome(id: RunId, action: Action, now: Time) returns (done: bool, failures: set<CommandId>)
      requires id in runs
      ensures done <==> Settles(View(), id, action, now)
      ensures done ==> failures == set c | c in CommandsOf(View(), id, action) && commands[c].status != Q.Succeeded
    {
      var timedOut := SETTLE_TIMEOUT <= now - runs[id].since;
      failures := {};
      ghost var all := CommandsOf(View(), id, action);
      var rows := CommandsOf(View(), id, action);
      while rows != {}
        invariant rows <= all
        invariant failures == set c | c in all - rows && commands[c].status != Q.Succeeded
        invariant timedOut || forall c <- all - rows :: !Unfinished(commands[c].status)
        decreases rows
      {
        var c :| c in rows;
        rows := rows - {c};
        if commands[c].status != Q.Succeeded {
          if Unfinished(commands[c].status) && !timedOut {
            return false, {};
          }
          failures := failures + {c};
        }
      }
      done := true;
    }

    /** settlePower: a failed power-off doesn't stop the night, a failed power-on fails the run. */
    method SettlePower(id: RunId, now: Time)
      requires id in runs
      modifies this
      ensures View() == Settled(old(View()), id, now)
    {
      var action := if runs[id].phase == ScheduledOn then PowerOn else PowerOff;
      var done, failures := PowerOutcome(id, action, now);
      if !done {
        return;
      }
      if action == PowerOn && failures != {} {
        assert !AllSucceeded(View(), id, PowerOn);
        Finish(id, FailedPhase, Failed, now);
        return;
      }
      if action == PowerOff {
        marks := Marked(View(), id).marks;
        SetPhase(id, Off, now);
      } else {
        assert forall c <- CommandsOf(View(), id, PowerOn) :: c !in failures;
        SetPhase(id, Waking, now);
      }
    }

    method Dispatch(id: RunId, action: Action, queued: map<CommandId, Device>)
      modifies this`commands
      ensures View() == Dispatched(old(View()), id, action, if cfg.dryRun then map[] else queued)
      ensures commands == if cfg.dryRun then old(commands)
                else old(commands) + map c | c in queued :: PowerCommand(id, action, queued[c], Q.Pending)
    {
      if cfg.dryRun {
        assert View() == Dispatched(View(), id, action, map[]);
        return;
      }
      commands := Dispatched(View(), id, action, queued).commands;
    }

    method AdvanceRun(t: Turn, now: Time)
      modifies this
      ensures View() == Advanced(cfg, old(View()), t, now)
    {
      if t.id !in runs || runs[t.id].status != InProgress {
        return;
      }
      var r := runs[t.id];
      if !cfg.dryRun && (r.phase == ScheduledOff || r.phase == ScheduledOn) {
        SettlePower(t.id, now);
        return;
      }
      var next := Decide(cfg, r.phase, r.scheduledAt, r.since, t.zoneKnown, t.planFor, now);
      if next.None? {
        return;
      }
      match next.value {
        case Ready => Finish(t.id, Ready, Succeeded, now);
        case FailedPhase => Finish(t.id, FailedPhase, Failed, now);
        case ScheduledOn =>
          var on := SearchPowerOn(r.scheduledAt, t.planFor);
          runs := runs[t.id := r.(planned := on)];
          SetPhase(t.id, ScheduledOn, now);
          Dispatch(t.id, PowerOn, t.queued);
        case p => SetPhase(t.id, p, now);
      }
    }

    /**
     advanceRuns: every in-progress run gets one turn. seen says what the scheduler
     finds out about each as it comes to it.
     */
    method AdvanceRuns(seen: map<RunId, Turn>, now: Time) returns (order: seq<RunId>)
      requires InProgressRuns(View()) <= seen.Keys && forall id <- seen :: seen[id].id == id
      modifies this
      ensures Covers(order, old(View())) && View() == AllAdvanced(cfg, old(View()), seen, order, now)
    {
      var left := InProgressRuns(View());
      ghost var all := left;
      order := [];
      while left != {}
        invariant left <= all
        invariant forall id <- order :: id in all - left
        invariant forall id <- all - left :: id in order
        invariant forall i, j :: 0 <= i < j < |order| ==> order[i] != order[j]
        invariant View() == AllAdvanced(cfg, old(View()), seen, order, now)
        decreases left
      {
        var id :| id in left;
        left := left - {id};
        AdvanceRun(seen[id], now);
        assert id !in order && (order + [id])[..|order|] == order;
        order := order + [id];
      }
    }

    /** createDueRuns, for one enabled room. */
    method CreateDueRun(id: RunId, rv: RoomView, now: Time, queued: map<CommandId, Device>) returns (created: bool)
      requires id !in runs
      modifies this
      ensures created <==> StartsRun(cfg, old(View()), rv, now)
      ensures var today := rv.planFor(DayOf(now)); var off := At(DayOf(now), today.off);
              created <==>
                && rv.ahead.Some? && (rv.excluded.Some? ==> rv.excluded.value < DayOf(now - rv.ahead.value))
                && today.active && off <= now <= off + cfg.grace
                && forall o <- old(runs) :: old(runs)[o].room == rv.room ==>
                     old(runs)[o].status != InProgress && old(runs)[o].scheduledAt != off
      ensures !created ==> View() == old(View())
      ensures created ==>
                var off := At(DayOf(now), rv.planFor(DayOf(now)).off);
                && View() == Started(cfg, old(View()), id, rv.room, off, now, queued)
                && runs == old(runs)[id := Run(rv.room, ScheduledOff, InProgress, off, now, None, None, None, None)]
                && marks == old(marks)
                && commands == if cfg.dryRun then old(commands)
                     else old(commands) + map c | c in queued :: PowerCommand(id, PowerOff, queued[c], Q.Pending)
    {
      if rv.ahead.None? {
        return false;
      }
      if rv.excluded.Some? {
        if IsExcluded(rv.excluded.value, rv.ahead.value, now) {
          return false;
        }
      }
      var today := rv.planFor(DayOf(now));
      if !today.active {
        return false;
      }
      var scheduled := At(DayOf(now), today.off);
      if now < scheduled || cfg.grace < now - scheduled {
        return false;
      }
      if RoomBusy(View(), rv.room) || CycleExists(View(), rv.room, scheduled) {
        return false;
      }
      runs := runs[id := Run(rv.room, ScheduledOff, InProgress, scheduled, now, None, None, None, None)];
      Dispatch(id, PowerOff, queued);
      created := true;
    }
  }

  /**
   The exclusion follows the room's own calendar, at all times, exactly in zones that
   are level with UTC: west of it a room is powered off on its last excluded evening,
   east of it the exclusion runs into the next morning.
   */
  lemma ExclusionIsLocalExactly(ahead: Time)
    ensures (forall last, now :: IsExcluded(last, ahead, now) <==> DayOf(now) <= last) <==> ahead == 0
  {
    if ahead < 0 {
      assert DayOf(-1) == -1 && !IsExcluded(-1, ahead, -1);
    } else if ahead > 0 {
      assert DayOf(0) == 0 && IsExcluded(-1, ahead, 0);
    } else {
      forall last, now ensures IsExcluded(last, ahead, now) <==> DayOf(now) <= last {
        assert now - ahead == now;
      }
    }
  }
}
