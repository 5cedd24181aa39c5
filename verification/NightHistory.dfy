/**
 Whole nights: runs created, given turns by the scheduler, and their power
 commands moved along by the queue, in any order. What the sleep marks say, and
 what a run that ended ready has been through.
 */
module NightHistory {
  import opened Common
  import opened ScheduleDates
  import opened PowerRun
  import Q = CommandQueue

  datatype Event =
    | Create(id: RunId, rv: RoomView, now: Time, queued: map<CommandId, Device>)
    | Advance(turn: Turn, now: Time)
    | CommandMoves(c: CommandId, status: Q.Status)

  datatype Night = Night(w: World, clock: Time)

  predicate Enabled(cfg: Config, n: Night, e: Event) {
    match e
    case Create(id, rv, now, queued) =>
      && n.clock <= now && id !in n.w.runs && StartsRun(cfg, n.w, rv, now)
      && queued.Keys !! n.w.commands.Keys
    case Advance(turn, now) => n.clock <= now && turn.queued.Keys !! n.w.commands.Keys
    // A finished command stays finished (CommandLife).
    case CommandMoves(c, _) => c in n.w.commands && !n.w.commands[c].status.Terminal()
  }

  function Step(cfg: Config, n: Night, e: Event): Night {
    match e
    case Create(id, rv, now, queued) =>
      Night(Started(cfg, n.w, id, rv.room, At(DayOf(now), rv.planFor(DayOf(now)).off), now, queued), now)
    case Advance(turn, now) => Night(Advanced(cfg, n.w, turn, now), now)
    case CommandMoves(c, status) =>
      if c in n.w.commands
      then Night(n.w.(commands := n.w.commands[c := n.w.commands[c].(status := status)]), n.clock)
      else n
  }

  predicate Runs(cfg: Config, n: Night, es: seq<Event>)
    decreases |es|
  {
    es == [] || (Enabled(cfg, n, es[0]) && Runs(cfg, Step(cfg, n, es[0]), es[1..]))
  }

  function Final(cfg: Config, n: Night, es: seq<Event>): Night
    requires Runs(cfg, n, es)
    decreases |es|
  {
    if es == [] then n else Final(cfg, Step(cfg, n, es[0]), es[1..])
  }

  predicate Init(n: Night) {
    n.w == World(map[], map[], map[])
  }

  // ------------------------------------------------- what is kept

  /** A mark names a run that is still on, in a phase in which its devices are off. */
  predicate MarksTrackRuns(w: World) {
    forall d <- w.marks ::
      w.marks[d] in w.runs && w.runs[w.marks[d]].status == InProgress && Asleep(w.runs[w.marks[d]].phase)
  }

  predicate StatusFitsPhase(r: Run) {
    && (r.status == Succeeded <==> r.phase == Ready)
    && (r.status == Failed <==> r.phase == FailedPhase)
  }

  /** The run acted on its power-on instant no earlier than that, and within the grace. */
  predicate PoweredOnInTime(cfg: Config, r: Run) {
    && r.planned.Some? && r.poweredOnAt.Some?
    && r.planned.value <= r.poweredOnAt.value <= r.planned.value + cfg.grace
  }

  predicate WarmedFor(r: Run, from: Time, least: Time) {
    r.settledAt.Some? && r.settledAt.value + least <= from
  }

  predicate RunOk(cfg: Config, w: World, id: RunId, clock: Time)
    requires id in w.runs
  {
    var r := w.runs[id];
    && StatusFitsPhase(r) && r.since <= clock
    && (r.phase == ScheduledOff || r.phase == Off ==> CommandsOf(w, id, PowerOn) == {})
    && (r.phase == ScheduledOn || r.phase == Waking || r.phase == Warming || r.phase == Ready ==>
        PoweredOnInTime(cfg, r))
    && (r.phase == Waking || r.phase == Warming || r.phase == Ready ==>
          r.settledAt.Some? && r.poweredOnAt.value <= r.settledAt.value && (!cfg.dryRun ==>
              AllSucceeded(w, id, PowerOn)))
    && (r.phase == ScheduledOn ==> r.poweredOnAt == Some(r.since))
    && (r.phase == Waking ==> r.settledAt == Some(r.since))
    && (r.phase == Warming ==> WarmedFor(r, r.since, if 0 < cfg.warmup then Half(cfg.warmup) else 0))
    && (r.phase == Ready ==> r.endedAt.Some? && WarmedFor(r, r.endedAt.value, Max(cfg.warmup, 0)))
  }

  predicate Inv(cfg: Config, n: Night) {
    && MarksTrackRuns(n.w)
    && (forall id <- n.w.runs :: RunOk(cfg, n.w, id, n.clock))
    && (forall c <- n.w.commands :: n.w.commands[c].run in n.w.runs)
  }

  /** A turn queues commands, if any, for its own run alone. */
  lemma TurnQueuesItsOwn(cfg: Config, w: World, t: Turn, now: Time)
    ensures var w' := Advanced(cfg, w, t, now);
            || w'.commands == w.commands
            || w'.commands == w.commands + map c | c in t.queued :: PowerCommand(t.id, PowerOn, t.queued[c], Q.Pending)
  {
    if Advances(w, t) && !cfg.dryRun && (w.runs[t.id].phase == ScheduledOff || w.runs[t.id].phase == ScheduledOn) {
      assert Settled(w, t.id, now).commands == w.commands;
    }
  }

  lemma SettledKeepsOtherRuns(w: World, id: RunId, now: Time, other: RunId)
    requires id in w.runs && other in w.runs && other != id
    ensures other in Settled(w, id, now).runs && Settled(w, id, now).runs[other] == w.runs[other]
  {
  }

  lemma DecidedKeepsOtherRuns(cfg: Config, w: World, t: Turn, next: Phase, now: Time, other: RunId)
    requires t.id in w.runs && other in w.runs && other != t.id
    ensures other in Decided(cfg, w, t, next, now).runs && Decided(cfg, w, t, next, now).runs[other] == w.runs[other]
  {
  }

  lemma TurnKeepsOtherRuns(cfg: Config, w: World, t: Turn, now: Time, id: RunId)
    requires id in w.runs && id != t.id
    ensures id in Advanced(cfg, w, t, now).runs && Advanced(cfg, w, t, now).runs[id] == w.runs[id]
  {
    if Advances(w, t) {
      var r := w.runs[t.id];
      if !cfg.dryRun && (r.phase == ScheduledOff || r.phase == ScheduledOn) {
        SettledKeepsOtherRuns(w, t.id, now, id);
      } else {
        var next := Decide(cfg, r.phase, r.scheduledAt, r.since, t.zoneKnown, t.planFor, now);
        if next.Some? {
          DecidedKeepsOtherRuns(cfg, w, t, next.value, now, id);
        }
      }
    }
  }

  /** Another run's turn doesn't touch this one. */
  lemma OthersUntouched(cfg: Config, w: World, t: Turn, now: Time, id: RunId)
    requires id in w.runs && id != t.id && t.queued.Keys !! w.commands.Keys
    ensures id in Advanced(cfg, w, t, now).runs && Advanced(cfg, w, t, now).runs[id] == w.runs[id]
    ensures forall a: Action :: CommandsOf(Advanced(cfg, w, t, now), id, a) == CommandsOf(w, id, a)
    ensures forall c <- w.commands ::
              c in Advanced(cfg, w, t, now).commands && Advanced(cfg, w, t, now).commands[c] == w.commands[c]
  {
    TurnQueuesItsOwn(cfg, w, t, now);
    TurnKeepsOtherRuns(cfg, w, t, now, id);
  }

  lemma SettledKeepsRun(cfg: Config, w: World, id: RunId, clock: Time, now: Time)
    requires id in w.runs && w.runs[id].status == InProgress && clock <= now && !cfg.dryRun
    requires w.runs[id].phase == ScheduledOff || w.runs[id].phase == ScheduledOn
    requires RunOk(cfg, w, id, clock)
    ensures RunOk(cfg, Settled(w, id, now), id, now)
  {
    var w' := Settled(w, id, now);
    assert w'.commands == w.commands;
  }

  lemma DecidedKeepsRun(cfg: Config, w: World, t: Turn, next: Phase, clock: Time, now: Time)
    requires Advances(w, t) && clock <= now && RunOk(cfg, w, t.id, clock)
    requires var r := w.runs[t.id];
             (cfg.dryRun || (r.phase != ScheduledOff && r.phase != ScheduledOn))
             && Decide(cfg, r.phase, r.scheduledAt, r.since, t.zoneKnown, t.planFor, now) == Some(next)
    ensures RunOk(cfg, Decided(cfg, w, t, next, now), t.id, now)
  {
    if next != ScheduledOn {
      assert Decided(cfg, w, t, next, now).commands == w.commands;
    }
  }

  lemma TurnKeepsRun(cfg: Config, w: World, t: Turn, clock: Time, now: Time)
    requires Advances(w, t) && clock <= now && RunOk(cfg, w, t.id, clock)
    ensures t.id in Advanced(cfg, w, t, now).runs && RunOk(cfg, Advanced(cfg, w, t, now), t.id, now)
  {
    var r := w.runs[t.id];
    if !cfg.dryRun && (r.phase == ScheduledOff || r.phase == ScheduledOn) {
      SettledKeepsRun(cfg, w, t.id, clock, now);
    } else {
      var next := Decide(cfg, r.phase, r.scheduledAt, r.since, t.zoneKnown, t.planFor, now);
      if next.Some? {
        DecidedKeepsRun(cfg, w, t, next.value, clock, now);
      }
    }
  }

  /** The results of power commands that a turn of id can see. */
  predicate SameFor(w: World, v: World, id: RunId) {
    && id in w.runs && id in v.runs && w.runs[id] == v.runs[id]
    && (forall a: Action :: CommandsOf(w, id, a) == CommandsOf(v, id, a))
    && (forall c <- w.commands :: w.commands[c].run == id ==> c in v.commands && v.commands[c] == w.commands[c])
  }

  /** A turn depends on its own run and commands alone. */
  lemma SameTurn(cfg: Config, w: World, v: World, t: Turn, now: Time)
    requires SameFor(w, v, t.id)
    ensures t.id in Advanced(cfg, w, t, now).runs && t.id in Advanced(cfg, v, t, now).runs
    ensures Advanced(cfg, w, t, now).runs[t.id] == Advanced(cfg, v, t, now).runs[t.id]
  {
    var r := w.runs[t.id];
    if Advances(w, t) {
      if !cfg.dryRun && (r.phase == ScheduledOff || r.phase == ScheduledOn) {
        SameSettled(w, v, t.id, now);
      } else {
        var next := Decide(cfg, r.phase, r.scheduledAt, r.since, t.zoneKnown, t.planFor, now);
        if next.Some? {
          SameDecided(cfg, w, v, t, next.value, now);
        }
      }
    }
  }

  lemma SameDecided(cfg: Config, w: World, v: World, t: Turn, next: Phase, now: Time)
    requires t.id in w.runs && t.id in v.runs && w.runs[t.id] == v.runs[t.id]
    ensures t.id in Decided(cfg, w, t, next, now).runs && t.id in Decided(cfg, v, t, next, now).runs
    ensures Decided(cfg, w, t, next, now).runs[t.id] == Decided(cfg, v, t, next, now).runs[t.id]
  {
  }

  lemma SameSettled(w: World, v: World, id: RunId, now: Time)
    requires SameFor(w, v, id)
    ensures id in Settled(w, id, now).runs && id in Settled(v, id, now).runs
    ensures Settled(w, id, now).runs[id] == Settled(v, id, now).runs[id]
  {
    forall a: Action ensures Settles(w, id, a, now) <==> Settles(v, id, a, now) {
      assert CommandsOf(w, id, a) == CommandsOf(v, id, a);
    }
    assert AllSucceeded(w, id, PowerOn) <==> AllSucceeded(v, id, PowerOn) by {
      assert CommandsOf(w, id, PowerOn) == CommandsOf(v, id, PowerOn);
    }
  }

  /** The commands queued in a tick are new. */
  predicate QueuesNew(w: World, seen: map<RunId, Turn>) {
    forall o <- seen :: seen[o].id == o && seen[o].queued.Keys !! w.commands.Keys
  }

  lemma {:induction false} NotYetTouched(cfg: Config, w: World, seen: map<RunId, Turn>, order: seq<RunId>,
                                         now: Time, id: RunId)
    requires id in w.runs && id !in order && QueuesNew(w, seen) && forall o <- order :: o in seen
    ensures SameFor(w, AllAdvanced(cfg, w, seen, order, now), id)
  {
    if order != [] {
      var front, o := order[..|order| - 1], order[|order| - 1];
      NotYetTouched(cfg, w, seen, front, now, id);
      var v := AllAdvanced(cfg, w, seen, front, now);
      TurnQueuesItsOwn(cfg, v, seen[o], now);
      TurnKeepsOtherRuns(cfg, v, seen[o], now, id);
    }
  }

  /**
   The order of turns doesn't matter: after a tick each run is where its own turn
   alone would have taken it.
   */
  lemma {:induction false} EveryRunTakesItsOwnTurn(cfg: Config, w: World, seen: map<RunId, Turn>, order: seq<RunId>,
                                                   now: Time, id: RunId)
    requires QueuesNew(w, seen) && id in order
    requires forall o <- order :: o in seen && o in w.runs
    requires forall i, j :: 0 <= i < j < |order| ==> order[i] != order[j]
    ensures var v := AllAdvanced(cfg, w, seen, order, now);
            && id in v.runs && id in Advanced(cfg, w, seen[id], now).runs
            && v.runs[id] == Advanced(cfg, w, seen[id], now).runs[id]
  {
    var front, o := order[..|order| - 1], order[|order| - 1];
    var v := AllAdvanced(cfg, w, seen, front, now);
    if o == id {
      NotYetTouched(cfg, w, seen, front, now, id);
      SameTurn(cfg, w, v, seen[id], now);
    } else {
      EveryRunTakesItsOwnTurn(cfg, w, seen, front, now, id);
      TurnKeepsOtherRuns(cfg, v, seen[o], now, id);
    }
  }

  /** Marks of every run but id are in order. */
  predicate MarksTrackOthers(w: World, id: RunId) {
    forall d <- w.marks :: w.marks[d] != id ==>
      w.marks[d] in w.runs && w.runs[w.marks[d]].status == InProgress && Asleep(w.runs[w.marks[d]].phase)
  }

  lemma PhaseSetTracks(w: World, id: RunId, phase: Phase, now: Time)
    requires id in w.runs && w.runs[id].status == InProgress && MarksTrackOthers(w, id)
    ensures MarksTrackRuns(PhaseSet(w, id, phase, now))
  {
  }

  lemma FinishedTracks(w: World, id: RunId, phase: Phase, status: Status, now: Time)
    requires id in w.runs && MarksTrackOthers(w, id)
    ensures MarksTrackRuns(Finished(w, id, phase, status, now))
  {
  }

  lemma SettledTracks(w: World, id: RunId, now: Time)
    requires id in w.runs && w.runs[id].status == InProgress && MarksTrackRuns(w)
    ensures MarksTrackRuns(Settled(w, id, now))
  {
    PhaseSetTracks(Marked(w, id), id, Off, now);
    PhaseSetTracks(w, id, Waking, now);
    FinishedTracks(w, id, FailedPhase, Failed, now);
  }

  lemma TurnKeepsMarks(cfg: Config, w: World, t: Turn, now: Time)
    requires MarksTrackRuns(w)
    ensures MarksTrackRuns(Advanced(cfg, w, t, now))
  {
    if Advances(w, t) {
      var r := w.runs[t.id];
      if !cfg.dryRun && (r.phase == ScheduledOff || r.phase == ScheduledOn) {
        SettledTracks(w, t.id, now);
      } else {
        var next := Decide(cfg, r.phase, r.scheduledAt, r.since, t.zoneKnown, t.planFor, now);
        if next.Some? {
          match next.value {
            case Ready => FinishedTracks(w, t.id, Ready, Succeeded, now);
            case FailedPhase => FinishedTracks(w, t.id, FailedPhase, Failed, now);
            case ScheduledOn =>
              var planned := r.(planned := NextPowerOn(r.scheduledAt, t.planFor));
              PhaseSetTracks(w.(runs := w.runs[t.id := planned]), t.id, ScheduledOn, now);
            case p => PhaseSetTracks(w, t.id, p, now);
          }
        }
      }
    }
  }

  lemma TurnKeepsKeys(cfg: Config, w: World, t: Turn, now: Time)
    ensures Advanced(cfg, w, t, now).runs.Keys == w.runs.Keys
    ensures forall c <- Advanced(cfg, w, t, now).commands ::
              (c in w.commands && Advanced(cfg, w, t, now).commands[c] == w.commands[c])
              || (Advances(w, t) && Advanced(cfg, w, t, now).commands[c].run == t.id)
  {
    TurnQueuesItsOwn(cfg, w, t, now);
  }

  lemma AdvanceKeepsInv(cfg: Config, n: Night, t: Turn, now: Time)
    requires Inv(cfg, n) && Enabled(cfg, n, Advance(t, now))
    ensures Inv(cfg, Step(cfg, n, Advance(t, now)))
  {
    var w, w' := n.w, Advanced(cfg, n.w, t, now);
    TurnKeepsMarks(cfg, w, t, now);
    TurnKeepsKeys(cfg, w, t, now);
    forall id <- w'.runs ensures RunOk(cfg, w', id, now) {
      TurnKeepsRuns(cfg, n, t, now, id);
    }
  }

  lemma TurnKeepsRuns(cfg: Config, n: Night, t: Turn, now: Time, id: RunId)
    requires Inv(cfg, n) && Enabled(cfg, n, Advance(t, now)) && id in n.w.runs
    ensures id in Advanced(cfg, n.w, t, now).runs && RunOk(cfg, Advanced(cfg, n.w, t, now), id, now)
  {
    assert RunOk(cfg, n.w, id, n.clock);
    if id != t.id {
      OthersUntouched(cfg, n.w, t, now, id);
    } else if Advances(n.w, t) {
      TurnKeepsRun(cfg, n.w, t, n.clock, now);
    }
  }

  lemma CreateKeepsRun(cfg: Config, n: Night, e: Event, id: RunId)
    requires e.Create? && Inv(cfg, n) && Enabled(cfg, n, e) && id in n.w.runs
    ensures id in Step(cfg, n, e).w.runs && RunOk(cfg, Step(cfg, n, e).w, id, e.now)
  {
    assert RunOk(cfg, n.w, id, n.clock);
    assert CommandsOf(Step(cfg, n, e).w, id, PowerOn) == CommandsOf(n.w, id, PowerOn);
  }

  lemma CreatedRunIsOk(cfg: Config, n: Night, e: Event)
    requires e.Create? && Inv(cfg, n) && Enabled(cfg, n, e)
    ensures RunOk(cfg, Step(cfg, n, e).w, e.id, e.now)
  {
    assert CommandsOf(Step(cfg, n, e).w, e.id, PowerOn) == {};
  }

  lemma CreateKeepsInv(cfg: Config, n: Night, e: Event)
    requires e.Create? && Inv(cfg, n) && Enabled(cfg, n, e)
    ensures Inv(cfg, Step(cfg, n, e))
  {
    forall id <- Step(cfg, n, e).w.runs ensures RunOk(cfg, Step(cfg, n, e).w, id, e.now) {
      if id == e.id {
        CreatedRunIsOk(cfg, n, e);
      } else {
        CreateKeepsRun(cfg, n, e, id);
      }
    }
  }

  lemma CommandKeepsInv(cfg: Config, n: Night, e: Event)
    requires e.CommandMoves? && Inv(cfg, n) && Enabled(cfg, n, e)
    ensures Inv(cfg, Step(cfg, n, e))
  {
    var w, w' := n.w, Step(cfg, n, e).w;
    forall id <- w'.runs ensures RunOk(cfg, w', id, n.clock) {
      assert RunOk(cfg, w, id, n.clock);
      assert CommandsOf(w', id, PowerOn) == CommandsOf(w, id, PowerOn);
    }
  }

  lemma {:induction false} NightsKeepInv(cfg: Config, n: Night, es: seq<Event>)
    requires Inv(cfg, n) && Runs(cfg, n, es)
    ensures Inv(cfg, Final(cfg, n, es))
    decreases |es|
  {
    if es != [] {
      match es[0] {
        case Create(_, _, _, _) => CreateKeepsInv(cfg, n, es[0]);
        case Advance(t, now) => AdvanceKeepsInv(cfg, n, t, now);
        case CommandMoves(_, _) => CommandKeepsInv(cfg, n, es[0]);
      }
      NightsKeepInv(cfg, Step(cfg, n, es[0]), es[1..]);
    }
  }

  /**
   Sleep marks: at every moment of every history, a device reads as switched off
   only because of a run that is in progress and in one of the phases from
   power-off to the end of the warm-up. So no mark survives a run's end.
   */
  lemma MarksAlwaysTrackRuns(cfg: Config, n: Night, es: seq<Event>, d: Device)
    requires Init(n) && Runs(cfg, n, es)
    requires d in Final(cfg, n, es).w.marks
    ensures var w := Final(cfg, n, es).w;
            w.marks[d] in w.runs && w.runs[w.marks[d]].status == InProgress && Asleep(w.runs[w.marks[d]].phase)
  {
    NightsKeepInv(cfg, n, es);
  }

  /**
   A real (not dry) run that ended ready entered power-on no earlier than its
   planned instant and at most the grace after it, has no power-on command that
   didn't succeed, and stayed at least the whole warm-up between settling and
   ready, although the warm-up is waited out in two halves.
   */
  lemma ReadyRunsWereOnTime(cfg: Config, n: Night, es: seq<Event>, id: RunId)
    requires Init(n) && Runs(cfg, n, es)
    requires id in Final(cfg, n, es).w.runs && Final(cfg, n, es).w.runs[id].status == Succeeded
    ensures var w := Final(cfg, n, es).w; var r := w.runs[id];
            && PoweredOnInTime(cfg, r)
            && r.settledAt.Some? && r.endedAt.Some?
            && r.poweredOnAt.value <= r.settledAt.value && r.settledAt.value + Max(cfg.warmup, 0) <= r.endedAt.value
            && (!cfg.dryRun ==> forall c <- w.commands ::
                  w.commands[c].run == id && w.commands[c].action == PowerOn ==> w.commands[c].status == Q.Succeeded)
  {
    NightsKeepInv(cfg, n, es);
    var w := Final(cfg, n, es).w;
    assert RunOk(cfg, w, id, Final(cfg, n, es).clock);
    forall c <- w.commands | w.commands[c].run == id && w.commands[c].action == PowerOn
      ensures c in CommandsOf(w, id, PowerOn)
    {}
  }

  function Rank(p: Phase): nat {
    match p
    case ScheduledOff => 0
    case Off => 1
    case ScheduledOn => 2
    case Waking => 3
    case Warming => 4
    case Ready => 5
    case FailedPhase => 5
  }

  /** A step of a run from one phase to another. */
  predicate Forward(p: Phase, q: Phase) {
    && (q == p || q == FailedPhase || Rank(q) == Rank(p) + 1)
    && (q != p && p != Ready && p != FailedPhase ==> Rank(p) < Rank(q))
  }

  lemma DecisionsMoveForward(cfg: Config, w: World, t: Turn, next: Phase, now: Time)
    requires Advances(w, t)
    requires var r := w.runs[t.id];
             Decide(cfg, r.phase, r.scheduledAt, r.since, t.zoneKnown, t.planFor, now) == Some(next)
    ensures t.id in Decided(cfg, w, t, next, now).runs
    ensures Forward(w.runs[t.id].phase, Decided(cfg, w, t, next, now).runs[t.id].phase)
  {
    assert Decided(cfg, w, t, next, now).runs[t.id].phase == next;
  }

  lemma TurnMovesForward(cfg: Config, w: World, t: Turn, now: Time)
    requires Advances(w, t)
    ensures t.id in Advanced(cfg, w, t, now).runs
    ensures Forward(w.runs[t.id].phase, Advanced(cfg, w, t, now).runs[t.id].phase)
  {
    var r := w.runs[t.id];
    if cfg.dryRun || (r.phase != ScheduledOff && r.phase != ScheduledOn) {
      var next := Decide(cfg, r.phase, r.scheduledAt, r.since, t.zoneKnown, t.planFor, now);
      if next.Some? {
        DecisionsMoveForward(cfg, w, t, next.value, now);
      }
    }
  }

  /** Phases only move forward, one at a time or straight to failed, and an ended run never moves again. */
  lemma PhasesMoveForward(cfg: Config, n: Night, e: Event, id: RunId)
    requires Inv(cfg, n) && Enabled(cfg, n, e) && id in n.w.runs
    ensures id in Step(cfg, n, e).w.runs
    ensures var r, r' := n.w.runs[id], Step(cfg, n, e).w.runs[id];
            && (r'.phase == r.phase || r'.phase == FailedPhase || Rank(r'.phase) == Rank(r.phase) + 1)
            && (r'.phase != r.phase ==> Rank(r.phase) < Rank(r'.phase))
            && (r.status != InProgress ==> r' == r)
  {
    assert RunOk(cfg, n.w, id, n.clock);
    if e.Advance? {
      if id != e.turn.id {
        OthersUntouched(cfg, n.w, e.turn, e.now, id);
      } else if Advances(n.w, e.turn) {
        TurnMovesForward(cfg, n.w, e.turn, e.now);
      }
    }
  }

  // ------------------------------------------------- one run to a room

  predicate OneRunPerRoom(w: World) {
    forall i, j :: i in w.runs && j in w.runs && i != j && w.runs[i].room == w.runs[j].room ==>
      !(w.runs[i].status == InProgress && w.runs[j].status == InProgress)
  }

  lemma TurnKeepsRooms(cfg: Config, w: World, t: Turn, now: Time)
    requires t.id in w.runs
    ensures t.id in Advanced(cfg, w, t, now).runs && Advanced(cfg, w, t, now).runs[t.id].room == w.runs[t.id].room
    ensures Advanced(cfg, w, t, now).runs[t.id].status == InProgress ==> w.runs[t.id].status == InProgress
  {
  }

  lemma StepKeepsOneRun(cfg: Config, n: Night, e: Event)
    requires OneRunPerRoom(n.w) && Enabled(cfg, n, e)
    ensures OneRunPerRoom(Step(cfg, n, e).w)
  {
    match e
    case Create(_, _, _, _) =>
    case CommandMoves(_, _) =>
    case Advance(t, now) =>
      if Advances(n.w, t) {
        TurnKeepsKeys(cfg, n.w, t, now);
        TurnKeepsRooms(cfg, n.w, t, now);
        forall id <- n.w.runs | id != t.id ensures Advanced(cfg, n.w, t, now).runs[id] == n.w.runs[id] {
          TurnKeepsOtherRuns(cfg, n.w, t, now, id);
        }
      }
  }

  /** Through every history a room has at most one power run in progress. */
  lemma {:induction false} RoomsHaveOneRun(cfg: Config, n: Night, es: seq<Event>)
    requires OneRunPerRoom(n.w) && Runs(cfg, n, es)
    ensures OneRunPerRoom(Final(cfg, n, es).w)
    decreases |es|
  {
    if es != [] {
      StepKeepsOneRun(cfg, n, es[0]);
      RoomsHaveOneRun(cfg, Step(cfg, n, es[0]), es[1..]);
    }
  }

  // ------------------------------------------------- waiting on the dates of each day

  /** A room's schedule: all its organisation's dates, its weekly days and its weekly power-on. */
  datatype Schedule = Schedule(b: DateBook, room: Room, days: seq<int>, on: TimeOfDay) {
    /** By all dates. */
    function All(): Day -> Plan { PlanFor(b, room, days, on) }

    /** By the dates loaded at a moment. */
    function Seen(now: Time): Day -> Plan { PlanFor(Loaded(b, DayOf(now)), room, days, on) }

    predicate HasWeekday() { exists w :: 1 <= w <= 7 && w in days }
  }

  /** What the scheduler decides at a moment for a run that was powered off at off. */
  function DecideOff(cfg: Config, sch: Schedule, off: Time, since: Time, now: Time): Option<Phase> {
    Decide(cfg, Off, off, since, true, sch.Seen(now), now)
  }

  /** A day of the fortnight that powers on, and is not forgotten yet at the given moment. */
  predicate StillComes(sch: Schedule, off: Time, from: Time, d: Day) {
    && DayOf(off) <= d <= LastDay(off) && DayOf(from) - BACK <= d
    && sch.All()(d).active && off < At(d, sch.All()(d).on)
  }

  /** Nothing will ever take a run on that is powered off at the given moment. */
  ghost predicate Stuck(sch: Schedule, off: Time, from: Time) {
    !sch.HasWeekday() && forall d :: !StillComes(sch, off, from, d)
  }

  /** A day that has powered on by now is enough for the run to be taken on, or to fail. */
  lemma DueIsDecided(cfg: Config, off: Time, since: Time, planFor: Day -> Plan, d: Day, now: Time)
    requires DayOf(off) <= d <= LastDay(off) && planFor(d).active && off < At(d, planFor(d).on) <= now
    ensures Decide(cfg, Off, off, since, true, planFor, now).Some?
    ensures cfg.grace < now - At(d, planFor(d).on) ==>
             Decide(cfg, Off, off, since, true, planFor, now) == Some(FailedPhase)
  {
    NextPowerOnIsLeast(off, planFor);
    assert PowersOnAt(off, planFor, d, At(d, planFor(d).on));
    assert IsPowerOnFrom(off, planFor, DayOf(off), At(d, planFor(d).on));
  }

  /** The day of the week w among the seven days after base. */
  function WeekdayAfter(base: Day, w: int): (d: Day)
    requires 1 <= w <= 7
    ensures base < d <= base + 7 && IsoWeekday(d) == w
  {
    base + 1 + (w - 1 - (base + 1) % 7) % 7
  }

  /**
   A room with a weekday doesn't wait for good, whatever it is closed for. Three days
   after the first of its weekdays that follow the switch-off, its dates for that day
   are forgotten; once the grace is over as well, every turn fails the run.
   */
  lemma LongWaitsFail(cfg: Config, sch: Schedule, off: Time, since: Time, now: Time)
    requires sch.HasWeekday()
    requires DayOf(off) + 7 + BACK < DayOf(now) && (DayOf(off) + 8) * DAY + cfg.grace <= now
    ensures DecideOff(cfg, sch, off, since, now) == Some(FailedPhase)
  {
    var w :| 1 <= w <= 7 && w in sch.days;
    var d := WeekdayAfter(DayOf(off), w);
    WeeklyPlanOutside(sch.b, DayOf(now), sch.room, sch.days, sch.on, d);
    assert At(d, sch.on) < (d + 1) * DAY <= (DayOf(off) + 8) * DAY;
    assert off < At(d, sch.on);
    DueIsDecided(cfg, off, since, sch.Seen(now), d, now);
  }

  /** A power-on that the loaded dates show is on a weekday, or of a day that still comes. */
  lemma SeenPowerOns(sch: Schedule, off: Time, from: Time, now: Time, d: Day)
    requires DayOf(off) <= d <= LastDay(off) && from <= now && sch.Seen(now)(d).active
             && off < At(d, sch.Seen(now)(d).on)
    ensures sch.HasWeekday() || StillComes(sch, off, from, d)
  {
    if DayOf(now) - BACK <= d <= DayOf(now) + AHEAD {
      SamePlanInside(sch.b, DayOf(now), sch.room, sch.days, sch.on, d);
    } else {
      WeeklyPlanOutside(sch.b, DayOf(now), sch.room, sch.days, sch.on, d);
      assert 1 <= IsoWeekday(d) <= 7;
    }
  }

  lemma StuckIsNeverDecided(cfg: Config, sch: Schedule, off: Time, from: Time, since: Time, now: Time)
    requires Stuck(sch, off, from) && from <= now
    ensures DecideOff(cfg, sch, off, since, now) == None
  {
    NextPowerOnIsLeast(off, sch.Seen(now));
    if NextPowerOn(off, sch.Seen(now)).Some? {
      var t := NextPowerOn(off, sch.Seen(now)).value;
      var d :| DayOf(off) <= d <= LastDay(off) && PowersOnAt(off, sch.Seen(now), d, t);
      SeenPowerOns(sch, off, from, now, d);
    }
  }

  /** A run that isn't stuck is decided at some moment. */
  lemma OthersAreDecided(cfg: Config, sch: Schedule, off: Time, from: Time) returns (now: Time)
    requires off <= from && !Stuck(sch, off, from)
    ensures from <= now && forall since :: DecideOff(cfg, sch, off, since, now).Some?
  {
    if d :| StillComes(sch, off, from, d) {
      now := Max(from, At(d, sch.All()(d).on));
      SamePlanInside(sch.b, DayOf(now), sch.room, sch.days, sch.on, d);
      forall since ensures DecideOff(cfg, sch, off, since, now).Some? {
        DueIsDecided(cfg, off, since, sch.Seen(now), d, now);
      }
    } else {
      now := Max(from, (DayOf(off) + 8 + BACK) * DAY + Max(cfg.grace, 0));
      forall since ensures DecideOff(cfg, sch, off, since, now).Some? {
        LongWaitsFail(cfg, sch, off, since, now);
      }
    }
  }

  /**
   At no moment from a given one on does the scheduler, with the dates of each day,
   take the run on or fail it, exactly when the room has no weekday and no power-on
   of its fortnight is both to come by all dates and not forgotten yet.
   */
  lemma WaitsForGoodExactly(cfg: Config, sch: Schedule, off: Time, from: Time)
    requires off <= from
    ensures (forall since, now :: from <= now ==> DecideOff(cfg, sch, off, since, now) == None)
             <==> Stuck(sch, off, from)
  {
    if Stuck(sch, off, from) {
      forall since, now | from <= now ensures DecideOff(cfg, sch, off, since, now) == None {
        StuckIsNeverDecided(cfg, sch, off, from, since, now);
      }
    } else {
      var now := OthersAreDecided(cfg, sch, off, from);
      assert DecideOff(cfg, sch, off, 0, now).Some?;
    }
  }

  /** From the switch-off on: exactly when the room has no weekday and its fortnight no power-on by all dates. */
  lemma NeverPowersOnExactly(cfg: Config, sch: Schedule, off: Time)
    ensures (forall since, now :: off <= now ==> DecideOff(cfg, sch, off, since, now) == None)
            <==> !sch.HasWeekday() && NextPowerOn(off, sch.All()) == None
  {
    WaitsForGoodExactly(cfg, sch, off, off);
    NextPowerOnIsLeast(off, sch.All());
    if d :| StillComes(sch, off, off, d) {
      assert PowersOnAt(off, sch.All(), d, At(d, sch.All()(d).on));
      assert IsPowerOnFrom(off, sch.All(), DayOf(off), At(d, sch.All()(d).on));
    } else if NextPowerOn(off, sch.All()).Some? {
      var t := NextPowerOn(off, sch.All()).value;
      var d :| DayOf(off) <= d <= LastDay(off) && PowersOnAt(off, sch.All(), d, t);
      assert StillComes(sch, off, off, d);
    }
  }

  /** Every turn that run id gets finds its zone, and the dates that are loaded on its day. */
  ghost predicate SeesDates(es: seq<Event>, id: RunId, sch: Schedule) {
    forall i :: 0 <= i < |es| && es[i].Advance? && es[i].turn.id == id ==>
      es[i].turn.zoneKnown && es[i].turn.planFor == sch.Seen(es[i].now)
  }

  /** Run id is powered off and waits. */
  predicate Waits(n: Night, id: RunId) {
    id in n.w.runs && n.w.runs[id].status == InProgress && n.w.runs[id].phase == Off
  }

  lemma WaitingRunStays(cfg: Config, n: Night, e: Event, id: RunId)
    requires Enabled(cfg, n, e) && Waits(n, id)
    requires e.Advance? && e.turn.id == id ==>
               var r := n.w.runs[id];
               Decide(cfg, Off, r.scheduledAt, r.since, e.turn.zoneKnown, e.turn.planFor, e.now) == None
    ensures id in Step(cfg, n, e).w.runs && Step(cfg, n, e).w.runs[id] == n.w.runs[id]
  {
    if e.Advance? && e.turn.id != id {
      TurnKeepsOtherRuns(cfg, n.w, e.turn, e.now, id);
    }
  }

  /**
   A stuck run stays as it is through every history, and keeps its room to itself: no
   other run of the room ever starts.
   */
  lemma {:induction false} StuckRunBlocksTheRoom(cfg: Config, n: Night, es: seq<Event>, id: RunId, sch: Schedule,
                                                 from: Time)
    requires Runs(cfg, n, es) && SeesDates(es, id, sch) && Waits(n, id) && from <= n.clock
    requires Stuck(sch, n.w.runs[id].scheduledAt, from)
    ensures id in Final(cfg, n, es).w.runs && Final(cfg, n, es).w.runs[id] == n.w.runs[id]
    ensures forall i :: 0 <= i < |es| && es[i].Create? ==> es[i].rv.room != n.w.runs[id].room
    decreases |es|
  {
    if es != [] {
      var e, r := es[0], n.w.runs[id];
      if e.Advance? && e.turn.id == id {
        StuckIsNeverDecided(cfg, sch, r.scheduledAt, from, r.since, e.now);
      }
      WaitingRunStays(cfg, n, e, id);
      StuckRunBlocksTheRoom(cfg, Step(cfg, n, e), es[1..], id, sch, from);
      forall i | 0 <= i < |es| && es[i].Create? ensures es[i].rv.room != r.room {
        if i == 0 {
          assert !RoomBusy(n.w, e.rv.room);
        } else {
          assert es[i] == es[1..][i - 1];
        }
      }
    }
  }

  /** One turn, with the dates of its day. */
  function TurnOf(id: RunId, sch: Schedule, now: Time): Event {
    Advance(Turn(id, true, sch.Seen(now), map[]), now)
  }

  lemma OneTurn(cfg: Config, n: Night, id: RunId, sch: Schedule, now: Time)
    requires n.clock <= now
    ensures Runs(cfg, n, [TurnOf(id, sch, now)]) && SeesDates([TurnOf(id, sch, now)], id, sch)
    ensures Final(cfg, n, [TurnOf(id, sch, now)]) == Step(cfg, n, TurnOf(id, sch, now))
  {
    assert [TurnOf(id, sch, now)][1..] == [];
  }

  lemma DecidedRunMoves(cfg: Config, n: Night, id: RunId, sch: Schedule, now: Time)
    requires Waits(n, id) && DecideOff(cfg, sch, n.w.runs[id].scheduledAt, n.w.runs[id].since, now).Some?
    ensures id in Step(cfg, n, TurnOf(id, sch, now)).w.runs
    ensures Step(cfg, n, TurnOf(id, sch, now)).w.runs[id] != n.w.runs[id]
  {
  }

  /**
   A waiting run is off for good, in every history in which it sees the dates of each
   day, exactly when it is stuck.
   */
  lemma OffForGoodExactly(cfg: Config, n: Night, id: RunId, sch: Schedule)
    requires Waits(n, id) && n.w.runs[id].scheduledAt <= n.clock
    ensures (forall es :: Runs(cfg, n, es) && SeesDates(es, id, sch) ==>
               id in Final(cfg, n, es).w.runs && Final(cfg, n, es).w.runs[id] == n.w.runs[id])
            <==> Stuck(sch, n.w.runs[id].scheduledAt, n.clock)
  {
    if Stuck(sch, n.w.runs[id].scheduledAt, n.clock) {
      forall es | Runs(cfg, n, es) && SeesDates(es, id, sch)
        ensures id in Final(cfg, n, es).w.runs && Final(cfg, n, es).w.runs[id] == n.w.runs[id]
      {
        StuckRunBlocksTheRoom(cfg, n, es, id, sch, n.clock);
      }
    } else {
      var now := OthersAreDecided(cfg, sch, n.w.runs[id].scheduledAt, n.clock);
      OneTurn(cfg, n, id, sch, now);
      DecidedRunMoves(cfg, n, id, sch, now);
    }
  }

  /**
   The other case: in a room with a weekday a run that waits long enough fails at its
   next turn, which wakes its devices and frees the room for its next run.
   */
  lemma LongWaitFreesTheRoom(cfg: Config, n: Night, id: RunId, sch: Schedule, now: Time)
    requires Inv(cfg, n) && OneRunPerRoom(n.w) && Waits(n, id) && n.clock <= now && sch.HasWeekday()
    requires var base := DayOf(n.w.runs[id].scheduledAt);
             base + 7 + BACK < DayOf(now) && (base + 8) * DAY + cfg.grace <= now
    ensures var w' := Step(cfg, n, TurnOf(id, sch, now)).w;
            && id in w'.runs && w'.runs[id].status == Failed
            && (forall d <- w'.marks :: w'.marks[d] != id)
            && !RoomBusy(w', n.w.runs[id].room)
  {
    var t := TurnOf(id, sch, now).turn;
    LongWaitsFail(cfg, sch, n.w.runs[id].scheduledAt, n.w.runs[id].since, now);
    assert Advanced(cfg, n.w, t, now) == Finished(n.w, id, FailedPhase, Failed, now);
  }

  // ------------------------------------------------- a closure longer than the loaded dates

  /**
   The dates forgotten by ScheduleDates.LoadedIsEnoughExactly end runs that ought to
   wait. Take a run for which, by all dates, no power-on has been due up to now, and a
   weekday d of the room, more than two days back, that was closed. By the dates loaded
   today the run has missed the power-on of d, and fails.
   */
  lemma ForgottenClosureFailsTheRun(cfg: Config, sch: Schedule, off: Time, since: Time, d: Day, now: Time)
    requires cfg.grace < DAY
    requires DayOf(off) <= d < DayOf(now) - BACK && d <= LastDay(off) && off < At(d, sch.on)
             && IsoWeekday(d) in sch.days
    requires NothingDue(off, sch.All(), now)
    ensures Decide(cfg, Off, off, since, true, sch.All(), now) == None
    ensures DecideOff(cfg, sch, off, since, now) == Some(FailedPhase)
  {
    NextPowerOnIsLater(off, sch.All(), now);
    WeeklyPlanOutside(sch.b, DayOf(now), sch.room, sch.days, sch.on, d);
    DueIsDecided(cfg, off, since, sch.Seen(now), d, now);
  }

  /** Up to today, whatever day is in use powers on no later than the switch-off. */
  ghost predicate NothingDue(off: Time, planFor: Day -> Plan, now: Time) {
    forall x :: DayOf(off) <= x <= DayOf(now) && planFor(x).active ==> At(x, planFor(x).on) <= off
  }

  lemma NextPowerOnIsLater(off: Time, planFor: Day -> Plan, now: Time)
    requires NothingDue(off, planFor, now)
    ensures NextPowerOn(off, planFor).Some? ==> now < NextPowerOn(off, planFor).value
  {
    NextPowerOnIsLeast(off, planFor);
    if NextPowerOn(off, planFor).Some? {
      var x :| DayOf(off) <= x <= LastDay(off) && PowersOnAt(off, planFor, x, NextPowerOn(off, planFor).value);
      assert DayOf(now) < x;
    }
  }

  // ------------------------------------------------- a closed week

  /**
   Day 4 is a Friday. The week after it is closed, and a room is in use from Monday
   to Friday, from 07:00 to 22:00.
   */
  const FRIDAY: Day := 4
  const CLOSED := SchedDate(true, None, None)
  const CLOSED_DAYS := map[7 := CLOSED, 8 := CLOSED, 9 := CLOSED, 10 := CLOSED, 11 := CLOSED]
  const WEEK := Schedule(DateBook(CLOSED_DAYS, map[], map[], map[]), 0, [1, 2, 3, 4, 5], 25_200)
  const EVENING: TimeOfDay := 79_200

  /** The room as it is at 22:00 on the Friday. */
  function FridayRoom(): RoomView {
    RoomView(0, Some(0), None, day => DayPlan(Some(Loaded(WEEK.b, FRIDAY)), 0, day, WEEK.days, WEEK.on, EVENING))
  }

  /** 09:00 on the Thursday of the closed week. */
  const THURSDAY: Time := 10 * DAY + 32_400

  lemma ClosedWeekPlans()
    ensures DayOf(THURSDAY) == 10 && DayOf(At(FRIDAY, EVENING)) == FRIDAY
    ensures NothingDue(At(FRIDAY, EVENING), WEEK.All(), THURSDAY)
    ensures NextPowerOn(At(FRIDAY, EVENING), WEEK.All()) == Some(At(14, 25_200))
  {
    var off, p := At(FRIDAY, EVENING), WEEK.All();
    assert DayOf(off) == FRIDAY && DayOf(THURSDAY) == 10;
    forall x | FRIDAY <= x <= 13 && p(x).active ensures x == FRIDAY {}
    assert At(FRIDAY, 25_200) <= off < At(14, 25_200);
    assert IsoWeekday(14) == 1 && WEEK.days[0] == 1 && p(14) == Plan(true, 25_200, 0);
    FirstFrom(off, p, FRIDAY, 14);
  }

  lemma ClosedWeekEnds(cfg: Config, since: Time)
    requires 0 <= cfg.grace < DAY
    ensures DecideOff(cfg, WEEK, At(FRIDAY, EVENING), since, THURSDAY) == Some(FailedPhase)
    ensures Decide(cfg, Off, At(FRIDAY, EVENING), since, true, WEEK.All(), THURSDAY) == None
  {
    ClosedWeekPlans();
    assert IsoWeekday(7) == 1 && WEEK.days[0] == 1;
    ForgottenClosureFailsTheRun(cfg, WEEK, At(FRIDAY, EVENING), since, 7, THURSDAY);
  }

  lemma FridayStarts(cfg: Config, n: Night)
    requires Init(n) && 0 <= cfg.grace
    ensures StartsRun(cfg, n.w, FridayRoom(), At(FRIDAY, EVENING))
    ensures At(DayOf(At(FRIDAY, EVENING)), FridayRoom().planFor(DayOf(At(FRIDAY, EVENING))).off) == At(FRIDAY, EVENING)
  {
    assert DayOf(At(FRIDAY, EVENING)) == FRIDAY;
    assert IsoWeekday(FRIDAY) == 5 && WEEK.days[4] == 5;
    assert FridayRoom().planFor(FRIDAY) == Plan(true, 25_200, EVENING);
  }

  /** Powered off on the Friday evening by its first turn, it waits. */
  lemma FridayWaits(cfg: Config, n: Night) returns (waiting: Night)
    requires 0 <= cfg.grace && Init(n) && n.clock <= At(FRIDAY, EVENING)
    ensures var off := At(FRIDAY, EVENING); var created := Create(0, FridayRoom(), off, map[]);
            && Enabled(cfg, n, created) && Enabled(cfg, Step(cfg, n, created), TurnOf(0, WEEK, off))
            && waiting == Step(cfg, Step(cfg, n, created), TurnOf(0, WEEK, off))
            && Waits(waiting, 0) && waiting.w.runs[0].scheduledAt == off && waiting.clock == off
  {
    FridayStarts(cfg, n);
    var off := At(FRIDAY, EVENING);
    waiting := Step(cfg, Step(cfg, n, Create(0, FridayRoom(), off, map[])), TurnOf(0, WEEK, off));
  }

  lemma ThursdayFails(cfg: Config, n: Night)
    requires 0 <= cfg.grace < DAY && Waits(n, 0) && n.w.runs[0].scheduledAt == At(FRIDAY, EVENING)
    ensures var w := Step(cfg, n, TurnOf(0, WEEK, THURSDAY)).w;
            && 0 in w.runs && w.runs[0].status == Failed && w.runs[0].endedAt == Some(THURSDAY)
            && w.runs[0].scheduledAt == At(FRIDAY, EVENING)
  {
    ClosedWeekEnds(cfg, n.w.runs[0].since);
  }

  /**
   Such a run is one that the scheduler creates: a room that is switched off on a
   Friday evening, before a week in which the whole estate is closed, and is given a
   turn that night and one on the Thursday. It has failed, though its next power-on
   is on the Monday after.
   */
  lemma ClosedWeekFailsTheRun(cfg: Config, n: Night) returns (es: seq<Event>)
    requires 0 <= cfg.grace < DAY && Init(n) && n.clock <= At(FRIDAY, EVENING)
    ensures Runs(cfg, n, es) && SeesDates(es, 0, WEEK)
    ensures var w := Final(cfg, n, es).w;
            && 0 in w.runs && w.runs[0].status == Failed && w.runs[0].scheduledAt == At(FRIDAY, EVENING)
            && w.runs[0].endedAt == Some(THURSDAY)
    ensures THURSDAY < At(14, 25_200) && NextPowerOn(At(FRIDAY, EVENING), WEEK.All()) == Some(At(14, 25_200))
  {
    var off := At(FRIDAY, EVENING);
    var e0, e1, e2 := Create(0, FridayRoom(), off, map[]), TurnOf(0, WEEK, off), TurnOf(0, WEEK, THURSDAY);
    ClosedWeekPlans();
    var waiting := FridayWaits(cfg, n);
    ThursdayFails(cfg, waiting);
    OneTurn(cfg, waiting, 0, WEEK, THURSDAY);
    assert [e1, e2][1..] == [e2] && [e0, e1, e2][1..] == [e1, e2];
    assert Runs(cfg, Step(cfg, n, e0), [e1, e2]);
    es := [e0, e1, e2];
  }
}
