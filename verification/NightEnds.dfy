/**
 How a night goes on: which turns take a run from one phase to the next, which
 devices are marked meanwhile, and that a run whose power-on has gone out comes to
 an end after few enough turns of its own.
 */
module NightEnds {
  import opened Common
  import opened ScheduleDates
  import opened PowerRun
  import opened NightHistory
  import Q = CommandQueue

  // ------------------------------------------------- one turn, phase by phase

  /** The power commands of a run for one action have all come to an end. */
  predicate AllOver(w: World, id: RunId, action: Action) {
    forall c <- w.commands :: w.commands[c].run == id && w.commands[c].action == action ==>
      w.commands[c].status in {Q.Succeeded, Q.Failed, Q.Cancelled}
  }

  /** They have, and all well. */
  predicate AllWell(w: World, id: RunId, action: Action) {
    forall c <- w.commands :: w.commands[c].run == id && w.commands[c].action == action ==>
      w.commands[c].status == Q.Succeeded
  }

  lemma SettlesMeans(w: World, id: RunId, action: Action, now: Time)
    requires id in w.runs
    ensures Settles(w, id, action, now) <==> w.runs[id].since + 720 <= now || AllOver(w, id, action)
    ensures AllSucceeded(w, id, action) <==> AllWell(w, id, action)
  {
    forall c | c in w.commands && w.commands[c].run == id && w.commands[c].action == action
      ensures c in CommandsOf(w, id, action)
    {}
  }

  /** A device that a run has switched off. */
  ghost predicate WentOff(w: World, id: RunId, d: Device) {
    exists c :: c in w.commands && w.commands[c] == PowerCommand(id, PowerOff, d, Q.Succeeded)
  }

  /**
   The first phase ends, at a run's own turn, exactly in a dry run, after twelve minutes or once
   every power-off command is over, and never badly. The devices that a command switched off are
   then marked, and no others; every other mark stays.
   */
  lemma PowerOffSettlesExactly(cfg: Config, w: World, t: Turn, now: Time)
    requires Advances(w, t) && w.runs[t.id].phase == ScheduledOff
    ensures var r, w' := w.runs[t.id], Advanced(cfg, w, t, now);
            var ends := cfg.dryRun || r.since + 720 <= now || AllOver(w, t.id, PowerOff);
            && w'.runs == (if ends then w.runs[t.id := r.(phase := Off, since := now)] else w.runs)
            && w'.commands == w.commands
            && (cfg.dryRun || !ends ==> w'.marks == w.marks)
            && (ends && !cfg.dryRun ==>
                  forall d :: && (d in w'.marks <==> d in w.marks || WentOff(w, t.id, d))
                              && (d in w'.marks ==> w'.marks[d] == if WentOff(w, t.id, d) then t.id else w.marks[d]))
  {
    SettlesMeans(w, t.id, PowerOff, now);
    if !cfg.dryRun && Settles(w, t.id, PowerOff, now) {
      forall d ensures d in SwitchedOff(w, t.id) <==> WentOff(w, t.id, d) {
        SwitchedOffMeans(w, t.id, d);
      }
    }
  }

  lemma SwitchedOffMeans(w: World, id: RunId, d: Device)
    ensures d in SwitchedOff(w, id) <==> WentOff(w, id, d)
  {
    if c :| c in w.commands && w.commands[c] == PowerCommand(id, PowerOff, d, Q.Succeeded) {
      assert c in CommandsOf(w, id, PowerOff);
    }
  }

  /**
   A run that is powered off goes on exactly from its room's power-on to the end of the grace, and
   then queues the power-on commands; later, or without a zone, it fails; before, or while no
   power-on is in sight, it waits.
   */
  lemma PowerOnComesExactly(cfg: Config, w: World, t: Turn, now: Time)
    requires Advances(w, t) && w.runs[t.id].phase == Off
    ensures var r, on, w' := w.runs[t.id], NextPowerOn(w.runs[t.id].scheduledAt, t.planFor), Advanced(cfg, w, t, now);
            if t.zoneKnown && (on.None? || now < on.value) then w' == w
            else if t.zoneKnown && now <= on.value + cfg.grace then
              && w'.runs == w.runs[t.id := r.(phase := ScheduledOn, since := now, poweredOnAt := Some(now),
                                              planned := on)]
              && w'.marks == w.marks
              && w'.commands == (if cfg.dryRun then w.commands
                   else w.commands + map c | c in t.queued :: PowerCommand(t.id, PowerOn, t.queued[c], Q.Pending))
            else FailsWith(w, t.id, w', now)
  {
  }

  /** The run has failed, its marks are gone, and all else is as it was. */
  ghost predicate FailsWith(w: World, id: RunId, w': World, now: Time)
    requires id in w.runs
  {
    && w'.runs == w.runs[id := w.runs[id].(phase := FailedPhase, status := Failed, endedAt := Some(now))]
    && NoMarksOf(w, id, w') && w'.commands == w.commands
  }

  /** The marks that are left are those of other runs. */
  ghost predicate NoMarksOf(w: World, id: RunId, w': World) {
    forall d :: (d in w'.marks <==> d in w.marks && w.marks[d] != id) && (d in w'.marks ==> w'.marks[d] == w.marks[d])
  }

  /**
   A run that is being powered on goes on to warm up exactly if every power-on command has succeeded
   by the time they are all over, or twelve minutes have passed; otherwise it fails then. A dry run,
   which has sent none, goes on at once.
   */
  lemma PowerOnSettlesExactly(cfg: Config, w: World, t: Turn, now: Time)
    requires Advances(w, t) && w.runs[t.id].phase == ScheduledOn
    ensures var r, w' := w.runs[t.id], Advanced(cfg, w, t, now);
            if cfg.dryRun || ((r.since + 720 <= now || AllOver(w, t.id, PowerOn)) && AllWell(w, t.id, PowerOn)) then
              && w'.runs == w.runs[t.id := r.(phase := Waking, since := now, settledAt := Some(now))]
              && w'.marks == w.marks && w'.commands == w.commands
            else if r.since + 720 <= now || AllOver(w, t.id, PowerOn) then FailsWith(w, t.id, w', now)
            else w' == w
  {
    SettlesMeans(w, t.id, PowerOn, now);
  }

  /** The two halves of the warm-up, and the end of a run that has been through both. */
  lemma WarmUpEndsExactly(cfg: Config, w: World, t: Turn, now: Time)
    requires Advances(w, t) && w.runs[t.id].phase in {Waking, Warming} && w.runs[t.id].since <= now
    ensures var r, w' := w.runs[t.id], Advanced(cfg, w, t, now);
            if now < r.since + WaitOf(cfg, r.phase) then w' == w
            else if r.phase == Waking then
              && w'.runs == w.runs[t.id := r.(phase := Warming, since := now)]
              && w'.marks == w.marks && w'.commands == w.commands
            else
              && w'.runs == w.runs[t.id := r.(phase := Ready, status := Succeeded, endedAt := Some(now))]
              && NoMarksOf(w, t.id, w') && w'.commands == w.commands
  {
  }

  /** Half of the warm-up, and the rest of it. Nothing is waited for without one. */
  function WaitOf(cfg: Config, phase: Phase): (wait: Time)
    ensures 0 <= wait
  {
    if cfg.warmup <= 0 then 0 else if phase == Waking then cfg.warmup / 2 else cfg.warmup - cfg.warmup / 2
  }

  // ------------------------------------------------- a run that has powered on comes to an end

  /** Run id waits out the first half of its warm-up since s. */
  predicate Wakes(n: Night, id: RunId, s: Time) {
    && id in n.w.runs && n.w.runs[id].status == InProgress
    && n.w.runs[id].phase == Waking && n.w.runs[id].since == s
  }

  /** It waits out the second half, since t at the latest. */
  predicate Warms(n: Night, id: RunId, t: Time) {
    && id in n.w.runs && n.w.runs[id].status == InProgress
    && n.w.runs[id].phase == Warming && n.w.runs[id].since <= t
  }

  predicate IsReady(n: Night, id: RunId, last: Time) {
    && id in n.w.runs && n.w.runs[id].status == Succeeded && n.w.runs[id].phase == Ready
    && n.w.runs[id].endedAt.Some? && n.w.runs[id].endedAt.value <= last
  }

  /** The event is a turn of run id. */
  predicate Own(e: Event, id: RunId) {
    e.Advance? && e.turn.id == id
  }

  lemma OthersKeepRun(cfg: Config, n: Night, e: Event, id: RunId)
    requires Enabled(cfg, n, e) && id in n.w.runs && (Own(e, id) ==> !Advances(n.w, e.turn))
    ensures id in Step(cfg, n, e).w.runs && Step(cfg, n, e).w.runs[id] == n.w.runs[id]
  {
    if e.Advance? && e.turn.id != id {
      TurnKeepsOtherRuns(cfg, n.w, e.turn, e.now, id);
    }
  }

  lemma WakingStep(cfg: Config, n: Night, e: Event, id: RunId, s: Time)
    requires Inv(cfg, n) && Enabled(cfg, n, e) && Wakes(n, id, s)
    ensures var n' := Step(cfg, n, e);
            if Own(e, id) && s + WaitOf(cfg, Waking) <= e.now then Warms(n', id, e.now) else Wakes(n', id, s)
  {
    assert RunOk(cfg, n.w, id, n.clock);
    if Own(e, id) {
      WarmUpEndsExactly(cfg, n.w, e.turn, e.now);
    } else {
      OthersKeepRun(cfg, n, e, id);
    }
  }

  lemma WarmingStep(cfg: Config, n: Night, e: Event, id: RunId, t: Time)
    requires Inv(cfg, n) && Enabled(cfg, n, e) && Warms(n, id, t)
    ensures var n' := Step(cfg, n, e);
            && (Warms(n', id, t) || (Own(e, id) && IsReady(n', id, e.now)))
            && (Own(e, id) && t + WaitOf(cfg, Warming) <= e.now ==> IsReady(n', id, e.now))
  {
    assert RunOk(cfg, n.w, id, n.clock);
    if Own(e, id) {
      WarmUpEndsExactly(cfg, n.w, e.turn, e.now);
    } else {
      OthersKeepRun(cfg, n, e, id);
    }
  }

  lemma {:induction false} ReadyStays(cfg: Config, n: Night, es: seq<Event>, id: RunId, last: Time)
    requires Runs(cfg, n, es) && IsReady(n, id, last)
    ensures IsReady(Final(cfg, n, es), id, last)
    decreases |es|
  {
    if es != [] {
      OthersKeepRun(cfg, n, es[0], id);
      ReadyStays(cfg, Step(cfg, n, es[0]), es[1..], id, last);
    }
  }

  lemma EventKeepsInv(cfg: Config, n: Night, es: seq<Event>)
    requires Inv(cfg, n) && Runs(cfg, n, es) && es != []
    ensures Inv(cfg, Step(cfg, n, es[0])) && Runs(cfg, Step(cfg, n, es[0]), es[1..])
    ensures Final(cfg, n, es) == Final(cfg, Step(cfg, n, es[0]), es[1..])
    ensures n.clock <= Step(cfg, n, es[0]).clock && (es[0].Advance? ==> Step(cfg, n, es[0]).clock == es[0].now)
  {
    NightsKeepInv(cfg, n, [es[0]]);
    assert [es[0]][1..] == [];
    assert Final(cfg, n, [es[0]]) == Step(cfg, n, es[0]);
  }

  lemma {:induction false} TurnsComeLater(cfg: Config, n: Night, es: seq<Event>, j: nat)
    requires Runs(cfg, n, es) && j < |es| && es[j].Advance?
    ensures n.clock <= es[j].now
    decreases |es|
  {
    if 0 < j {
      TurnsComeLater(cfg, Step(cfg, n, es[0]), es[1..], j - 1);
    }
  }

  lemma FirstIsNoLater(cfg: Config, n: Night, es: seq<Event>, j: nat)
    requires Runs(cfg, n, es) && j < |es| && es[0].Advance? && es[j].Advance?
    ensures es[0].now <= es[j].now
  {
    if 0 < j {
      TurnsComeLater(cfg, Step(cfg, n, es[0]), es[1..], j - 1);
    }
  }

  lemma {:induction false} WarmingGetsReady(cfg: Config, n: Night, es: seq<Event>, id: RunId, t: Time, j: nat)
    requires Inv(cfg, n) && Runs(cfg, n, es) && Warms(n, id, t)
    requires j < |es| && Own(es[j], id) && t + WaitOf(cfg, Warming) <= es[j].now
    ensures IsReady(Final(cfg, n, es), id, es[j].now)
    decreases |es|
  {
    var e, n' := es[0], Step(cfg, n, es[0]);
    WarmingStep(cfg, n, e, id, t);
    EventKeepsInv(cfg, n, es);
    if Warms(n', id, t) {
      WarmingGetsReady(cfg, n', es[1..], id, t, j - 1);
    } else {
      FirstIsNoLater(cfg, n, es, j);
      ReadyStays(cfg, n', es[1..], id, e.now);
    }
  }

  /** Turns i and j of the run are late enough for the two halves of a warm-up that began at s. */
  predicate TurnsFor(cfg: Config, es: seq<Event>, id: RunId, s: Time, i: nat, j: nat) {
    && i < j < |es| && Own(es[i], id) && Own(es[j], id)
    && s + WaitOf(cfg, Waking) <= es[i].now && es[i].now + WaitOf(cfg, Warming) <= es[j].now
  }

  /** They are the same turns once the first event has happened, and late enough for whatever began before. */
  lemma TurnsAfterFirst(cfg: Config, es: seq<Event>, id: RunId, s: Time, i: nat, j: nat, earlier: Time)
    requires 0 < i && TurnsFor(cfg, es, id, s, i, j) && earlier <= s
    ensures TurnsFor(cfg, es[1..], id, earlier, i - 1, j - 1)
  {
  }

  lemma {:induction false} WakingGetsReady(cfg: Config, n: Night, es: seq<Event>, id: RunId, s: Time, i: nat, j: nat)
    requires Inv(cfg, n) && Runs(cfg, n, es) && Wakes(n, id, s) && TurnsFor(cfg, es, id, s, i, j)
    ensures IsReady(Final(cfg, n, es), id, es[j].now)
    decreases |es|
  {
    var e, n' := es[0], Step(cfg, n, es[0]);
    WakingStep(cfg, n, e, id, s);
    EventKeepsInv(cfg, n, es);
    if Wakes(n', id, s) {
      TurnsAfterFirst(cfg, es, id, s, i, j, s);
      WakingGetsReady(cfg, n', es[1..], id, s, i - 1, j - 1);
    } else {
      FirstIsNoLater(cfg, n, es, i);
      RestGetsReady(cfg, n', es, id, e.now, i, j);
    }
  }

  lemma RestGetsReady(cfg: Config, n: Night, es: seq<Event>, id: RunId, t: Time, i: nat, j: nat)
    requires es != [] && Inv(cfg, n) && Runs(cfg, n, es[1..]) && Warms(n, id, t)
    requires i < j < |es| && es[i].Advance? && Own(es[j], id)
    requires t <= es[i].now && es[i].now + WaitOf(cfg, Warming) <= es[j].now
    ensures IsReady(Final(cfg, n, es[1..]), id, es[j].now)
  {
    assert es[1..][j - 1] == es[j];
    WarmingGetsReady(cfg, n, es[1..], id, t, j - 1);
  }

  lemma EndedRunHasNoMarks(cfg: Config, n: Night, es: seq<Event>, id: RunId)
    requires Inv(cfg, n) && Runs(cfg, n, es)
    requires id in Final(cfg, n, es).w.runs && Final(cfg, n, es).w.runs[id].status != InProgress
    ensures forall d <- Final(cfg, n, es).w.marks :: Final(cfg, n, es).w.marks[d] != id
  {
    NightsKeepInv(cfg, n, es);
  }

  /**
   A run whose power-on has settled ends ready. Whatever happens around it, it has succeeded once it
   has had two turns of its own: one no earlier than half the warm-up after it settled, and one no
   earlier than the rest of the warm-up after that. Its devices are no longer marked then.
   */
  lemma SettledRunGetsReady(cfg: Config, n: Night, es: seq<Event>, id: RunId, s: Time, i: nat, j: nat)
    requires Inv(cfg, n) && Runs(cfg, n, es) && Wakes(n, id, s) && TurnsFor(cfg, es, id, s, i, j)
    ensures IsReady(Final(cfg, n, es), id, es[j].now)
    ensures forall d <- Final(cfg, n, es).w.marks :: Final(cfg, n, es).w.marks[d] != id
  {
    WakingGetsReady(cfg, n, es, id, s, i, j);
    EndedRunHasNoMarks(cfg, n, es, id);
  }

  /** Run id has been powered on, at s, and its commands are out. */
  predicate PowersOn(n: Night, id: RunId, s: Time) {
    && id in n.w.runs && n.w.runs[id].status == InProgress
    && n.w.runs[id].phase == ScheduledOn && n.w.runs[id].since == s
  }

  predicate HasFailed(n: Night, id: RunId) {
    id in n.w.runs && n.w.runs[id].status == Failed
  }

  lemma PowersOnStep(cfg: Config, n: Night, e: Event, id: RunId, s: Time)
    requires Inv(cfg, n) && Enabled(cfg, n, e) && PowersOn(n, id, s)
    ensures var n' := Step(cfg, n, e);
            || (PowersOn(n', id, s) && !(Own(e, id) && s + 720 <= e.now))
            || (Own(e, id) && (Wakes(n', id, e.now) || HasFailed(n', id)))
  {
    if Own(e, id) {
      PowerOnSettlesExactly(cfg, n.w, e.turn, e.now);
    } else {
      OthersKeepRun(cfg, n, e, id);
    }
  }

  lemma {:induction false} FailedStays(cfg: Config, n: Night, es: seq<Event>, id: RunId)
    requires Runs(cfg, n, es) && HasFailed(n, id)
    ensures HasFailed(Final(cfg, n, es), id)
    decreases |es|
  {
    if es != [] {
      OthersKeepRun(cfg, n, es[0], id);
      FailedStays(cfg, Step(cfg, n, es[0]), es[1..], id);
    }
  }

  /** Turn h settles a power-on of s at the latest, and turns i and j are late enough for the warm-up after it. */
  predicate ThreeTurns(cfg: Config, es: seq<Event>, id: RunId, s: Time, h: nat, i: nat, j: nat) {
    h < i < |es| && Own(es[h], id) && s + 720 <= es[h].now && TurnsFor(cfg, es, id, es[h].now, i, j)
  }

  lemma ThreeTurnsAfterFirst(cfg: Config, es: seq<Event>, id: RunId, s: Time, h: nat, i: nat, j: nat)
    requires 0 < h && ThreeTurns(cfg, es, id, s, h, i, j)
    ensures ThreeTurns(cfg, es[1..], id, s, h - 1, i - 1, j - 1) && es[1..][j - 1] == es[j]
  {
    TurnsAfterFirst(cfg, es, id, es[h].now, i, j, es[h].now);
  }

  lemma {:induction false} PowerOnEnds(cfg: Config, n: Night, es: seq<Event>, id: RunId, s: Time,
                                       h: nat, i: nat, j: nat)
    requires Inv(cfg, n) && Runs(cfg, n, es) && PowersOn(n, id, s) && ThreeTurns(cfg, es, id, s, h, i, j)
    ensures IsReady(Final(cfg, n, es), id, es[j].now) || HasFailed(Final(cfg, n, es), id)
    decreases |es|, 0
  {
    PowersOnStep(cfg, n, es[0], id, s);
    EventKeepsInv(cfg, n, es);
    if es[0].Advance? {
      FirstIsNoLater(cfg, n, es, h);
    }
    RestEnds(cfg, Step(cfg, n, es[0]), es, id, s, h, i, j);
  }

  /** n is what the first event has left: a run that is still powering on, one that has settled, or one that failed. */
  lemma {:induction false} RestEnds(cfg: Config, n: Night, es: seq<Event>, id: RunId, s: Time, h: nat, i: nat, j: nat)
    requires ThreeTurns(cfg, es, id, s, h, i, j) && Inv(cfg, n) && Runs(cfg, n, es[1..])
    requires || HasFailed(n, id) || (PowersOn(n, id, s) && 0 < h)
             || (Own(es[0], id) && es[0].now <= es[h].now && Wakes(n, id, es[0].now))
    ensures IsReady(Final(cfg, n, es[1..]), id, es[j].now) || HasFailed(Final(cfg, n, es[1..]), id)
    decreases |es| - 1, 1
  {
    if HasFailed(n, id) {
      FailedStays(cfg, n, es[1..], id);
    } else if PowersOn(n, id, s) {
      ThreeTurnsAfterFirst(cfg, es, id, s, h, i, j);
      PowerOnEnds(cfg, n, es[1..], id, s, h - 1, i - 1, j - 1);
    } else {
      RestWakes(cfg, n, es, id, es[0].now, es[h].now, i, j);
    }
  }

  lemma RestWakes(cfg: Config, n: Night, es: seq<Event>, id: RunId, t: Time, s: Time, i: nat, j: nat)
    requires 0 < i && TurnsFor(cfg, es, id, s, i, j) && t <= s
    requires Inv(cfg, n) && Runs(cfg, n, es[1..]) && Wakes(n, id, t)
    ensures IsReady(Final(cfg, n, es[1..]), id, es[j].now)
  {
    TurnsAfterFirst(cfg, es, id, s, i, j, t);
    assert es[1..][j - 1] == es[j];
    WakingGetsReady(cfg, n, es[1..], id, t, i - 1, j - 1);
  }

  /**
   A run that has powered on is over after three turns of its own: one twelve minutes after the
   power-on, when it settles at the latest, and the two of the warm-up. It has succeeded or failed,
   and no device is marked for it.
   */
  lemma PoweredOnRunEnds(cfg: Config, n: Night, es: seq<Event>, id: RunId, s: Time, h: nat, i: nat, j: nat)
    requires Inv(cfg, n) && Runs(cfg, n, es) && PowersOn(n, id, s) && ThreeTurns(cfg, es, id, s, h, i, j)
    ensures IsReady(Final(cfg, n, es), id, es[j].now) || HasFailed(Final(cfg, n, es), id)
    ensures forall d <- Final(cfg, n, es).w.marks :: Final(cfg, n, es).w.marks[d] != id
  {
    PowerOnEnds(cfg, n, es, id, s, h, i, j);
    EndedRunHasNoMarks(cfg, n, es, id);
  }

  // ------------------------------------------------- marks through the night

  /** Run id has been powered off and isn't through with its warm-up. */
  predicate Sleeps(n: Night, id: RunId) {
    id in n.w.runs && n.w.runs[id].status == InProgress && Asleep(n.w.runs[id].phase)
  }

  lemma OtherTurnsKeepMarks(cfg: Config, w: World, t: Turn, now: Time, d: Device)
    requires d in w.marks && w.marks[d] != t.id && !WentOff(w, t.id, d)
    ensures d in Advanced(cfg, w, t, now).marks && Advanced(cfg, w, t, now).marks[d] == w.marks[d]
  {
    if Advances(w, t) {
      match w.runs[t.id].phase {
        case ScheduledOff => PowerOffSettlesExactly(cfg, w, t, now);
        case Off => PowerOnComesExactly(cfg, w, t, now);
        case ScheduledOn => PowerOnSettlesExactly(cfg, w, t, now);
        case _ =>
      }
    }
  }

  lemma OwnTurnKeepsMarks(cfg: Config, w: World, t: Turn, now: Time, d: Device)
    requires Advances(w, t) && Asleep(w.runs[t.id].phase) && d in w.marks && w.marks[d] == t.id
    ensures var w' := Advanced(cfg, w, t, now);
            && t.id in w'.runs
            && (Asleep(w'.runs[t.id].phase) ==> d in w'.marks && w'.marks[d] == t.id)
  {
    match w.runs[t.id].phase {
      case Off => PowerOnComesExactly(cfg, w, t, now);
      case ScheduledOn => PowerOnSettlesExactly(cfg, w, t, now);
      case _ =>
    }
  }

  /**
   A mark stays for as long as its run is in one of the phases from power-off to the end of the
   warm-up, unless another run has switched the same device off.
   */
  lemma MarksStay(cfg: Config, n: Night, e: Event, id: RunId, d: Device)
    requires Enabled(cfg, n, e) && Sleeps(n, id) && d in n.w.marks && n.w.marks[d] == id
    requires Sleeps(Step(cfg, n, e), id)
    requires e.Advance? && e.turn.id != id ==> !WentOff(n.w, e.turn.id, d)
    ensures d in Step(cfg, n, e).w.marks && Step(cfg, n, e).w.marks[d] == id
  {
    if e.Advance? {
      if e.turn.id == id {
        OwnTurnKeepsMarks(cfg, n.w, e.turn, e.now, d);
      } else {
        OtherTurnsKeepMarks(cfg, n.w, e.turn, e.now, d);
      }
    }
  }

  /** Every mark is for a device that a command of the marking run has switched off. */
  ghost predicate MarksAreEarned(w: World) {
    forall d <- w.marks :: WentOff(w, w.marks[d], d)
  }

  lemma TurnMarksOff(cfg: Config, w: World, t: Turn, now: Time, d: Device)
    requires d in Advanced(cfg, w, t, now).marks
    ensures var id := Advanced(cfg, w, t, now).marks[d]; (d in w.marks && w.marks[d] == id) || WentOff(w, id, d)
  {
    if Advances(w, t) {
      match w.runs[t.id].phase {
        case ScheduledOff => PowerOffSettlesExactly(cfg, w, t, now);
        case Off => PowerOnComesExactly(cfg, w, t, now);
        case ScheduledOn => PowerOnSettlesExactly(cfg, w, t, now);
        case _ =>
      }
    }
  }

  lemma WentOffStays(cfg: Config, n: Night, e: Event, id: RunId, d: Device)
    requires Enabled(cfg, n, e) && WentOff(n.w, id, d)
    ensures WentOff(Step(cfg, n, e).w, id, d)
  {
    var c :| c in n.w.commands && n.w.commands[c] == PowerCommand(id, PowerOff, d, Q.Succeeded);
    if e.Advance? {
      TurnQueuesItsOwn(cfg, n.w, e.turn, e.now);
    }
    assert Step(cfg, n, e).w.commands[c] == n.w.commands[c];
  }

  /** Through every history, no device is marked that wasn't switched off. */
  lemma {:induction false} MarksAreAlwaysEarned(cfg: Config, n: Night, es: seq<Event>)
    requires MarksAreEarned(n.w) && Runs(cfg, n, es)
    ensures MarksAreEarned(Final(cfg, n, es).w)
    decreases |es|
  {
    if es != [] {
      var e, n' := es[0], Step(cfg, n, es[0]);
      forall d <- n'.w.marks ensures WentOff(n'.w, n'.w.marks[d], d) {
        if e.Advance? {
          TurnMarksOff(cfg, n.w, e.turn, e.now, d);
        }
        WentOffStays(cfg, n, e, n'.w.marks[d], d);
      }
      MarksAreAlwaysEarned(cfg, n', es[1..]);
    }
  }

  // ------------------------------------------------- one run to a room's switch-off

  /** No two runs are for one switch-off of a room. */
  ghost predicate OneRunPerCycle(w: World) {
    forall i, j :: i in w.runs && j in w.runs && i != j && w.runs[i].room == w.runs[j].room ==>
      w.runs[i].scheduledAt != w.runs[j].scheduledAt
  }

  lemma TurnKeepsCycle(cfg: Config, w: World, t: Turn, now: Time, id: RunId)
    requires id in w.runs
    ensures id in Advanced(cfg, w, t, now).runs
    ensures var r, r' := w.runs[id], Advanced(cfg, w, t, now).runs[id];
            r'.room == r.room && r'.scheduledAt == r.scheduledAt
  {
    if id != t.id {
      TurnKeepsOtherRuns(cfg, w, t, now, id);
    }
  }

  lemma StepKeepsCycles(cfg: Config, n: Night, e: Event)
    requires OneRunPerCycle(n.w) && Enabled(cfg, n, e)
    ensures OneRunPerCycle(Step(cfg, n, e).w)
  {
    match e
    case Create(_, _, _, _) =>
    case CommandMoves(_, _) =>
    case Advance(t, now) =>
      TurnKeepsKeys(cfg, n.w, t, now);
      forall id <- n.w.runs
        ensures var r, r' := n.w.runs[id], Advanced(cfg, n.w, t, now).runs[id];
                r'.room == r.room && r'.scheduledAt == r.scheduledAt
      {
        TurnKeepsCycle(cfg, n.w, t, now, id);
      }
  }

  /** Through every history a room is switched off at most once for each of its switch-off instants. */
  lemma {:induction false} CyclesAreUnique(cfg: Config, n: Night, es: seq<Event>)
    requires OneRunPerCycle(n.w) && Runs(cfg, n, es)
    ensures OneRunPerCycle(Final(cfg, n, es).w)
    decreases |es|
  {
    if es != [] {
      StepKeepsCycles(cfg, n, es[0]);
      CyclesAreUnique(cfg, Step(cfg, n, es[0]), es[1..]);
    }
  }
}
