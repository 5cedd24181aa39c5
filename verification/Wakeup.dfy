/**
 Long polls against the queue: BridgeHandler.Poll and WaitForPending on the
 bridge's side, WaitForTerminalNotified on the portal's. Every database
 statement and every notification is a step of its own, so a wait can be
 overtaken anywhere. The claim is that no wait sleeps through its wake-up.
 */
module Wakeup {
  import opened Common
  import opened CommandQueue

  /** Where a poll is: what it does next, or that it is blocked, or over. */
  datatype PollAt = ToLease | ToClaim | ToListen | ToReclaim | Waiting | ToRelease | ToFinalClaim | Over

  /** self and group are the two ids the poll listens for; active is the last answer of Acquire. */
  datatype Poll = Poll(self: Collector, group: Collector, max: nat, pc: PollAt, active: bool, buffer: seq<Collector>) {
    predicate Listens() { pc == ToReclaim || pc == Waiting }
  }

  datatype WaitAt = ToGet | Blocked | Returned

  /** A portal request waiting for one command to finish. */
  datatype Waiter = Waiter(id: Id, pc: WaitAt, buffer: seq<Id>) {
    predicate Listens() { pc != Returned }
  }

  /**
   owed and owedDone are notifications that a committed sweep has still to send:
   it sends them after the commit, while Submit, Complete and the devices trigger
   send theirs with it.
   */
  datatype State = State(t: Table, live: set<Device>, polls: map<nat, Poll>, waiters: map<nat, Waiter>,
                         owed: set<Collector>, owedDone: set<Id>)

  datatype Event =
    | StartPoll(p: nat, self: Collector, group: Collector, max: nat)
    | Lease(p: nat, active: bool)
    | ClaimFor(p: nat, chosen: set<Id>, now: Time)
    | Listen(p: nat)
    | Receive(p: nat)
    | HoldOver(p: nat)
    | StartWait(w: nat, id: Id)
    | Get(w: nat)
    | ReceiveDone(w: nat)
    | GiveUp(w: nat)
    | Submit(id: Id, device: Device, collector: Collector, now: Time)
    | Complete(id: Id, collector: Collector, succeeded: bool, now: Time)
    | Expire(now: Time)
    | TimeOut(now: Time)
    | Requeue(now: Time)
    | SendOwed(c: Collector)
    | SendOwedDone(id: Id)
    | Move(devices: set<Device>, from: set<Collector>, target: Collector)
    | DeleteDevice(device: Device)
    | NotifyOnly(c: Collector)

  // ------------------------------------------------- steps

  function Heard(p: Poll, cs: seq<Collector>): Poll {
    if p.Listens() then p.(buffer := p.buffer + cs) else p
  }

  function HeardDone(w: Waiter, ids: seq<Id>): Waiter {
    if w.Listens() then w.(buffer := w.buffer + ids) else w
  }

  /** NOTIFY cmd_pending: every listening poll buffers the payload. */
  function Notified(s: State, cs: seq<Collector>): State {
    s.(polls := map p | p in s.polls :: Heard(s.polls[p], cs))
  }

  function NotifiedDone(s: State, ids: seq<Id>): State {
    s.(waiters := map w | w in s.waiters :: HeardDone(s.waiters[w], ids))
  }

  predicate Handed(s: State, chosen: set<Id>) {
    exists id <- chosen :: id in s.t && s.t[id].device in s.live
  }

  predicate Enabled(s: State, e: Event) {
    match e
    case StartPoll(p, _, _, max) => p !in s.polls && 1 <= max
    case Lease(p, _) => p in s.polls && (s.polls[p].pc == ToLease || s.polls[p].pc == ToRelease)
    case ClaimFor(p, chosen, _) =>
      && p in s.polls
      && (s.polls[p].pc == ToClaim || s.polls[p].pc == ToReclaim || s.polls[p].pc == ToFinalClaim)
      && if s.polls[p].active then IsOldest(s.t, s.polls[p].group, s.polls[p].max, chosen) else chosen == {}
    case Listen(p) => p in s.polls && s.polls[p].pc == ToListen
    case Receive(p) => p in s.polls && s.polls[p].pc == Waiting && s.polls[p].buffer != []
    case HoldOver(p) => p in s.polls && s.polls[p].pc == Waiting
    case StartWait(w, _) => w !in s.waiters
    case Get(w) => w in s.waiters && s.waiters[w].pc == ToGet
    case ReceiveDone(w) => w in s.waiters && s.waiters[w].pc == Blocked && s.waiters[w].buffer != []
    case GiveUp(w) => w in s.waiters
    // Of any device and for any collector: both were read in an earlier statement.
    case Submit(id, _, _, _) => id !in s.t
    case SendOwed(c) => c in s.owed
    case SendOwedDone(id) => id in s.owedDone
    // The trigger on devices notifies the collectors a moved device leaves.
    case Move(devices, from, target) =>
      forall id <- s.t ::
        s.t[id].device in devices && s.t[id].status == Pending ==> s.t[id].collector in from + {target}
    case _ => true
  }

  /** After a claim: answer with commands if there are any, else go on to what comes next. */
  function AfterClaimAt(p: Poll, handed: bool): Poll {
    if handed || p.pc == ToFinalClaim then p.(pc := Over)
    else if p.pc == ToClaim then p.(pc := ToListen)
    else p.(pc := Waiting)
  }

  /** One payload off the buffer: a match wakes the poll, anything else is skipped. */
  function Received(p: Poll): Poll
    requires p.buffer != []
  {
    p.(buffer := p.buffer[1..], pc := if p.buffer[0] == p.self || p.buffer[0] == p.group then ToRelease else p.pc)
  }

  function ReceivedDone(w: Waiter): Waiter
    requires w.buffer != []
  {
    w.(buffer := w.buffer[1..], pc := if w.buffer[0] == w.id then Returned else w.pc)
  }

  ghost function SeqOf<T(!new)>(s: set<T>): (r: seq<T>)
    ensures forall x :: x in r <==> x in s
  {
    if s == {} then [] else
      var x :| x in s;
      [x] + SeqOf(s - {x})
  }

  ghost function Step(s: State, lim: Limits, e: Event): State
    requires Enabled(s, e)
  {
    match e
    case StartPoll(p, self, group, max) => s.(polls := s.polls[p := Poll(self, group, max, ToLease, false, [])])
    case Lease(p, active) =>
      var next := if s.polls[p].pc == ToLease then ToClaim else ToFinalClaim;
      s.(polls := s.polls[p := s.polls[p].(active := active, pc := next)])
    case ClaimFor(p, chosen, now) =>
      s.(t := AfterClaim(s.t, chosen, now), polls := s.polls[p := AfterClaimAt(s.polls[p], Handed(s, chosen))])
    case Listen(p) => s.(polls := s.polls[p := s.polls[p].(pc := ToReclaim, buffer := [])])
    case Receive(p) => s.(polls := s.polls[p := Received(s.polls[p])])
    case HoldOver(p) => s.(polls := s.polls[p := s.polls[p].(pc := ToRelease)])
    case StartWait(w, id) => s.(waiters := s.waiters[w := Waiter(id, ToGet, [])])
    case Get(w) =>
      var over := s.waiters[w].id !in s.t || s.t[s.waiters[w].id].status.Terminal();
      s.(waiters := s.waiters[w := s.waiters[w].(pc := if over then Returned else Blocked)])
    case ReceiveDone(w) => s.(waiters := s.waiters[w := ReceivedDone(s.waiters[w])])
    case GiveUp(w) => s.(waiters := s.waiters[w := s.waiters[w].(pc := Returned)])
    case Submit(id, device, collector, now) =>
      Notified(s.(t := s.t[id := Submitted(collector, device, now)]), [collector])
    case Complete(id, collector, succeeded, now) =>
      if MayComplete(s.t, id, collector)
      then NotifiedDone(s.(t := s.t[id := Closed(s.t[id], if succeeded then Succeeded else Failed,
                                                 if succeeded then NoError else Reported, now)]), [id])
      else s
    case Expire(now) =>
      s.(t := AfterExpire(s.t, lim, now), owedDone := s.owedDone + set id | id in s.t && IsExpired(s.t[id], lim, now))
    case TimeOut(now) => s.(t := AfterTimeout(s.t, lim, now))
    case Requeue(now) =>
      s.(t := AfterRequeue(s.t, lim, now),
         owed := s.owed + set id | id in s.t && RequeuedOrSame(s.t[id], lim, now) != s.t[id] :: s.t[id].collector)
    case SendOwed(c) => Notified(s.(owed := s.owed - {c}), [c])
    case SendOwedDone(id) => NotifiedDone(s.(owedDone := s.owedDone - {id}), [id])
    case Move(devices, from, target) =>
      Notified(s.(t := AfterMove(s.t, devices, target)), SeqOf(from) + [target])
    case DeleteDevice(device) => s.(live := s.live - {device})
    case NotifyOnly(c) => Notified(s, [c])
  }

  /** A service that has just started: any table, nobody waiting, nothing owed. */
  predicate Init(s: State) {
    s.polls == map[] && s.waiters == map[] && s.owed == {} && s.owedDone == {}
  }

  ghost predicate Runs(s: State, lim: Limits, es: seq<Event>)
    decreases |es|
  {
    es == [] || (Enabled(s, es[0]) && Runs(Step(s, lim, es[0]), lim, es[1..]))
  }

  ghost function Final(s: State, lim: Limits, es: seq<Event>): State
    requires Runs(s, lim, es)
    decreases |es|
  {
    if es == [] then s else Final(Step(s, lim, es[0]), lim, es[1..])
  }

  // ------------------------------------------------- the two claims

  /** A blocked lease holder with work in the queue has its wake-up buffered, or a sweep still owes it. */
  predicate NoLostWakeup(s: State) {
    forall p <- s.polls ::
      s.polls[p].pc == Waiting && s.polls[p].active && PendingOf(s.t, s.polls[p].group) != {} ==>
        s.polls[p].group in s.polls[p].buffer || s.polls[p].group in s.owed
  }

  /** A request blocked on a command that is over has its wake-up on the way, unless the sweep timed the command out. */
  predicate NoLostCompletion(s: State) {
    forall w <- s.waiters ::
      var id := s.waiters[w].id;
      s.waiters[w].pc == Blocked && id in s.t && s.t[id].status.Terminal() && s.t[id].error != BridgeTimeout ==>
        id in s.waiters[w].buffer || id in s.owedDone
  }

  function DeadPending(s: State, group: Collector): set<Id> {
    set id | id in PendingOf(s.t, group) && s.t[id].device !in s.live
  }

  /** When the poll re-checks the queue, at most dead of its group's pending commands belong to deleted devices. */
  ghost predicate FewDead(s: State, lim: Limits, es: seq<Event>, dead: nat, max: nat)
    requires Runs(s, lim, es)
    decreases |es|
  {
    es == [] ||
    (&& (es[0].StartPoll? ==> es[0].max == max)
     && (es[0].ClaimFor? && s.polls[es[0].p].pc == ToReclaim ==> |DeadPending(s, s.polls[es[0].p].group)| <= dead)
     && FewDead(Step(s, lim, es[0]), lim, es[1..], dead, max))
  }

  // ------------------------------------------------- proofs

  /**
   A claim that hands out nothing leaves nothing behind, when fewer than max pending
   commands are of deleted devices.
   */
  lemma EmptyClaimLeavesNothing(s: State, group: Collector, max: nat, chosen: set<Id>)
    requires IsOldest(s.t, group, max, chosen) && !Handed(s, chosen)
    requires |DeadPending(s, group)| < max
    ensures chosen == PendingOf(s.t, group)
  {
    assert chosen <= DeadPending(s, group);
    SubsetCount(chosen, DeadPending(s, group));
    SubsetCount(chosen, PendingOf(s.t, group));
  }

  lemma ReclaimKeepsWakeup(s: State, lim: Limits, e: Event)
    requires Enabled(s, e) && NoLostWakeup(s) && e.ClaimFor?
    requires s.polls[e.p].pc == ToReclaim ==> |DeadPending(s, s.polls[e.p].group)| < s.polls[e.p].max
    ensures NoLostWakeup(Step(s, lim, e))
  {
    var s' := Step(s, lim, e);
    forall g ensures PendingOf(s'.t, g) <= PendingOf(s.t, g) {}
    if s.polls[e.p].pc == ToReclaim && s.polls[e.p].active && !Handed(s, e.chosen) {
      EmptyClaimLeavesNothing(s, s.polls[e.p].group, s.polls[e.p].max, e.chosen);
      assert PendingOf(s'.t, s.polls[e.p].group) == {};
    }
  }

  /** A command that is new to its group's queue is notified with the step that brought it, or owed a notice. */
  lemma NewWorkIsHeardOf(s: State, lim: Limits, e: Event, p: nat, id: Id)
    requires Enabled(s, e) && p in s.polls && s.polls[p].pc == Waiting
    requires e.Submit? || e.Requeue? || e.Move?
    requires id in PendingOf(Step(s, lim, e).t, s.polls[p].group) && id !in PendingOf(s.t, s.polls[p].group)
    ensures s.polls[p].group in Step(s, lim, e).polls[p].buffer || s.polls[p].group in Step(s, lim, e).owed
  {
    match e
    case Submit(_, _, _, _) =>
    case Requeue(now) =>
      assert Step(s, lim, e).t[id] == RequeuedOrSame(s.t[id], lim, now);
    case Move(_, _, _) =>
  }

  /** Other statements bring nothing new. */
  lemma NoNewWork(s: State, lim: Limits, e: Event, group: Collector)
    requires Enabled(s, e) && (e.Complete? || e.Expire? || e.TimeOut?)
    ensures PendingOf(Step(s, lim, e).t, group) <= PendingOf(s.t, group)
  {
  }

  lemma TableStepKeepsPolls(s: State, lim: Limits, e: Event, p: nat)
    requires Enabled(s, e) && (e.Submit? || e.Complete? || e.Expire? || e.TimeOut? || e.Requeue? || e.Move?)
    ensures var s' := Step(s, lim, e);
            && s'.polls.Keys == s.polls.Keys && s.owed <= s'.owed
            && (p in s.polls ==> s'.polls[p].(buffer := s.polls[p].buffer) == s.polls[p]
                                 && forall c <- s.polls[p].buffer :: c in s'.polls[p].buffer)
  {
  }

  /** What a step adds to a group's queue is notified with it, or owed. */
  lemma TableStepKeepsWakeup(s: State, lim: Limits, e: Event)
    requires Enabled(s, e) && NoLostWakeup(s)
    requires e.Submit? || e.Complete? || e.Expire? || e.TimeOut? || e.Requeue? || e.Move?
    ensures NoLostWakeup(Step(s, lim, e))
  {
    var s' := Step(s, lim, e);
    forall p <- s'.polls | s'.polls[p].pc == Waiting && s'.polls[p].active && PendingOf(s'.t, s'.polls[p].group) != {}
      ensures s'.polls[p].group in s'.polls[p].buffer || s'.polls[p].group in s'.owed
    {
      TableStepKeepsPolls(s, lim, e, p);
      var g := s.polls[p].group;
      var id :| id in PendingOf(s'.t, g);
      if id in PendingOf(s.t, g) {
        assert g in s.polls[p].buffer || g in s.owed;
      } else if e.Complete? || e.Expire? || e.TimeOut? {
        NoNewWork(s, lim, e, g);
      } else {
        NewWorkIsHeardOf(s, lim, e, p, id);
      }
    }
  }

  lemma OtherStepKeepsWakeup(s: State, lim: Limits, e: Event)
    requires Enabled(s, e) && NoLostWakeup(s)
    requires !e.ClaimFor?
    requires !(e.Submit? || e.Complete? || e.Expire? || e.TimeOut? || e.Requeue? || e.Move?)
    ensures NoLostWakeup(Step(s, lim, e))
  {
    var s' := Step(s, lim, e);
    forall p <- s'.polls | s'.polls[p].pc == Waiting && s'.polls[p].active && PendingOf(s'.t, s'.polls[p].group) != {}
      ensures s'.polls[p].group in s'.polls[p].buffer || s'.polls[p].group in s'.owed
    {
      var g := s'.polls[p].group;
      assert g in s.polls[p].buffer || g in s.owed;
      if e.Receive? && e.p == p {
        assert s.polls[p].buffer == [s.polls[p].buffer[0]] + s.polls[p].buffer[1..];
      }
    }
  }

  lemma {:induction false} RunKeepsWakeup(s: State, lim: Limits, es: seq<Event>, dead: nat, max: nat)
    requires Runs(s, lim, es) && FewDead(s, lim, es, dead, max) && dead < max
    requires NoLostWakeup(s) && forall p <- s.polls :: s.polls[p].max == max
    ensures NoLostWakeup(Final(s, lim, es))
    decreases |es|
  {
    if es != [] {
      var e := es[0];
      if e.ClaimFor? {
        ReclaimKeepsWakeup(s, lim, e);
      } else if e.Submit? || e.Complete? || e.Expire? || e.TimeOut? || e.Requeue? || e.Move? {
        TableStepKeepsWakeup(s, lim, e);
      } else {
        OtherStepKeepsWakeup(s, lim, e);
      }
      RunKeepsWakeup(Step(s, lim, e), lim, es[1..], dead, max);
    }
  }

  /**
   Polls of size max never lose a wake-up, while at most dead of a group's pending
   commands are of deleted devices.
   */
  ghost predicate Safe(dead: nat, max: nat) {
    forall s: State, lim, es ::
      Init(s) && Runs(s, lim, es) && FewDead(s, lim, es, dead, max) ==> NoLostWakeup(Final(s, lim, es))
  }

  ghost function Range(lo: nat, hi: nat): (r: set<nat>)
    requires lo <= hi
    ensures |r| == hi - lo && forall i :: i in r <==> lo <= i < hi
    decreases hi
  {
    if lo == hi then {} else Range(lo, hi - 1) + {hi - 1}
  }

  /** From s, the events es lose a wake-up although the re-checks meet at most dead commands of deleted devices. */
  ghost predicate Loses(s: State, lim: Limits, es: seq<Event>, dead: nat, max: nat) {
    Runs(s, lim, es) && FewDead(s, lim, es, dead, max) && !NoLostWakeup(Final(s, lim, es))
  }

  lemma LosesAfter(s: State, lim: Limits, e: Event, s': State, es: seq<Event>, dead: nat, max: nat)
    requires Enabled(s, e) && Step(s, lim, e) == s' && Loses(s', lim, es, dead, max)
    requires e.StartPoll? ==> e.max == max
    requires e.ClaimFor? && s.polls[e.p].pc == ToReclaim ==> |DeadPending(s, s.polls[e.p].group)| <= dead
    ensures Loses(s, lim, [e] + es, dead, max)
  {
    assert ([e] + es)[1..] == es;
  }

  /**
   A queue that puts polls of size max to sleep: first and second, as many
   commands each, for the deleted device 1; then last, for the live device 2.
   */
  datatype Trap = Trap(first: set<Id>, second: set<Id>, last: Id, max: nat) {
    ghost predicate Valid() {
      1 <= max && first !! second && last !in first + second && |first| == max && |second| == max
    }

    /** A command of the queue once the first stage claims have been made. */
    function Row(id: Id, stage: nat): Command {
      var c :=
        if id in first then Submitted(0, 1, 0) else if id in second then Submitted(0, 1, 1) else Submitted(0, 2, 2);
      if (id in first && 1 <= stage) || (id in second && 2 <= stage) then Claimed(c, 0) else c
    }

    function Rows(stage: nat): Table {
      map id | id in first + second + {last} :: Row(id, stage)
    }

    function Pending(stage: nat): set<Id> {
      if stage == 0 then first + second + {last} else if stage == 1 then second + {last} else {last}
    }

    /** One poll of collector 0, at pc. */
    function At(stage: nat, pc: PollAt, active: bool): State {
      State(Rows(stage), {2}, map[0 := Poll(0, 0, max, pc, active, [])], map[], {}, {})
    }
  }

  lemma TrapPending(x: Trap, stage: nat)
    requires x.Valid()
    ensures PendingOf(x.Rows(stage), 0) == x.Pending(stage)
  {
  }

  function Chosen(x: Trap, stage: nat): set<Id> {
    if stage == 0 then x.first else x.second
  }

  lemma TrapOldest(x: Trap, stage: nat)
    requires x.Valid() && stage < 2
    ensures IsOldest(x.Rows(stage), 0, x.max, Chosen(x, stage))
  {
    var t, chosen := x.Rows(stage), Chosen(x, stage);
    TrapPending(x, stage);
    SubsetCount(chosen, x.Pending(stage));
    forall a, b | a in chosen && b in PendingOf(t, 0) - chosen ensures t[a].submittedAt <= t[b].submittedAt {
      assert t[a] == x.Row(a, stage) && t[b] == x.Row(b, stage);
    }
  }

  lemma TrapClaimed(x: Trap, stage: nat)
    requires x.Valid() && stage < 2
    ensures AfterClaim(x.Rows(stage), Chosen(x, stage), 0) == x.Rows(stage + 1)
  {
    var t := AfterClaim(x.Rows(stage), Chosen(x, stage), 0);
    forall id | id in t ensures t[id] == x.Row(id, stage + 1) {
      assert x.Rows(stage)[id] == x.Row(id, stage);
    }
  }

  lemma TrapDead(x: Trap)
    requires x.Valid()
    ensures |DeadPending(x.At(1, ToReclaim, true), 0)| == x.max
  {
    TrapPending(x, 1);
    assert DeadPending(x.At(1, ToReclaim, true), 0) == x.second;
  }

  /** A claim that hands nothing out moves the trap, and its poll, one stage on. */
  lemma TrapClaims(x: Trap, lim: Limits, stage: nat, pc: PollAt, next: PollAt)
    requires x.Valid() && stage < 2
    requires (pc == ToClaim && next == ToListen) || (pc == ToReclaim && next == Waiting)
    ensures var s, e := x.At(stage, pc, true), ClaimFor(0, Chosen(x, stage), 0);
            Enabled(s, e) && Step(s, lim, e) == x.At(stage + 1, next, true)
  {
    var s, chosen := x.At(stage, pc, true), Chosen(x, stage);
    TrapOldest(x, stage);
    TrapClaimed(x, stage);
    TrapHandsNothing(x, stage, pc);
    TrapPollMoves(x, stage, pc, next);
  }

  lemma TrapPollMoves(x: Trap, stage: nat, pc: PollAt, next: PollAt)
    requires (pc == ToClaim && next == ToListen) || (pc == ToReclaim && next == Waiting)
    ensures var polls := x.At(stage, pc, true).polls;
            polls[0 := AfterClaimAt(polls[0], false)] == x.At(stage + 1, next, true).polls
  {
  }

  lemma TrapHandsNothing(x: Trap, stage: nat, pc: PollAt)
    requires x.Valid() && stage < 2
    ensures !Handed(x.At(stage, pc, true), Chosen(x, stage))
  {
    var t := x.Rows(stage);
    assert forall id <- Chosen(x, stage) :: t[id] == x.Row(id, stage) && t[id].device == 1;
  }

  lemma TrapStarts(x: Trap, lim: Limits)
    requires x.Valid()
    ensures var s := x.At(0, ToLease, false);
            && Step(s.(polls := map[]), lim, StartPoll(0, 0, 0, x.max)) == s
            && Enabled(s, Lease(0, true)) && Step(s, lim, Lease(0, true)) == x.At(0, ToClaim, true)
  {
  }

  lemma TrapListens(x: Trap, lim: Limits)
    requires x.Valid()
    ensures var s := x.At(1, ToListen, true);
            Enabled(s, Listen(0)) && Step(s, lim, Listen(0)) == x.At(1, ToReclaim, true)
  {
  }

  lemma TrapSleeps(x: Trap)
    requires x.Valid()
    ensures !NoLostWakeup(x.At(2, Waiting, true))
  {
    var slept := x.At(2, Waiting, true);
    TrapPending(x, 2);
    assert x.last in PendingOf(slept.t, slept.polls[0].group);
  }

  lemma TrapClaimLoses(x: Trap, dead: nat, lim: Limits, stage: nat, pc: PollAt, next: PollAt, after: State,
                       es: seq<Event>)
      returns (all: seq<Event>)
    requires x.Valid() && x.max <= dead
    requires (stage == 0 && pc == ToClaim && next == ToListen) || (stage == 1 && pc == ToReclaim && next == Waiting)
    requires after == x.At(stage + 1, next, true) && Loses(after, lim, es, dead, x.max)
    ensures Loses(x.At(stage, pc, true), lim, all, dead, x.max)
  {
    var e := ClaimFor(0, Chosen(x, stage), 0);
    TrapDead(x);
    TrapClaims(x, lim, stage, pc, next);
    LosesAfter(x.At(stage, pc, true), lim, e, after, es, dead, x.max);
    all := [e] + es;
  }

  lemma TrapStepLoses(x: Trap, dead: nat, lim: Limits, e: Event, s: State, s': State, es: seq<Event>)
      returns (all: seq<Event>)
    requires Enabled(s, e) && Step(s, lim, e) == s' && !e.ClaimFor? && (e.StartPoll? ==> e.max == x.max)
    requires Loses(s', lim, es, dead, x.max)
    ensures Loses(s, lim, all, dead, x.max)
  {
    LosesAfter(s, lim, e, s', es, dead, x.max);
    all := [e] + es;
  }

  /** From the moment the poll listens: its re-check comes back empty, and it sleeps on the live command. */
  lemma TrapFromListening(x: Trap, dead: nat, lim: Limits) returns (es: seq<Event>)
    requires x.Valid() && x.max <= dead
    ensures Loses(x.At(1, ToListen, true), lim, es, dead, x.max)
  {
    TrapSleeps(x);
    TrapListens(x, lim);
    es := TrapClaimLoses(x, dead, lim, 1, ToReclaim, Waiting, x.At(2, Waiting, true), []);
    es := TrapStepLoses(x, dead, lim, Listen(0), x.At(1, ToListen, true), x.At(1, ToReclaim, true), es);
  }

  /** From its first claim: that comes back empty too. */
  lemma TrapFromClaim(x: Trap, dead: nat, lim: Limits) returns (es: seq<Event>)
    requires x.Valid() && x.max <= dead
    ensures Loses(x.At(0, ToClaim, true), lim, es, dead, x.max)
  {
    es := TrapFromListening(x, dead, lim);
    es := TrapClaimLoses(x, dead, lim, 0, ToClaim, ToListen, x.At(1, ToListen, true), es);
  }

  lemma TrapFromLease(x: Trap, dead: nat, lim: Limits) returns (es: seq<Event>)
    requires x.Valid() && x.max <= dead
    ensures Loses(x.At(0, ToLease, false), lim, es, dead, x.max)
  {
    es := TrapFromClaim(x, dead, lim);
    TrapStarts(x, lim);
    es := TrapStepLoses(x, dead, lim, Lease(0, true), x.At(0, ToLease, false), x.At(0, ToClaim, true), es);
  }

  /** Both claims of the poll come back empty, and it sleeps on the live command. */
  lemma DeadCommandsBlockThePoll(x: Trap, dead: nat, lim: Limits) returns (s: State, es: seq<Event>)
    requires x.Valid() && x.max <= dead
    ensures Init(s) && Loses(s, lim, es, dead, x.max)
  {
    s := x.At(0, ToLease, false).(polls := map[]);
    es := TrapFromLease(x, dead, lim);
    TrapStarts(x, lim);
    es := TrapStepLoses(x, dead, lim, StartPoll(0, 0, 0, x.max), s, x.At(0, ToLease, false), es);
  }

  /**
   No lost wake-up, exactly: a blocked lease holder always has its wake-up on the
   way, in every interleaving, as long as each re-check meets fewer commands of
   deleted devices than the poll may claim, and not beyond that.
   */
  lemma WakeupsAreSafeExactly(dead: nat, max: nat)
    requires 1 <= max
    ensures Safe(dead, max) <==> dead < max
  {
    if dead < max {
      forall s: State, lim, es | Init(s) && Runs(s, lim, es) && FewDead(s, lim, es, dead, max)
        ensures NoLostWakeup(Final(s, lim, es))
      {
        RunKeepsWakeup(s, lim, es, dead, max);
      }
    } else {
      var x := Trap(Range(0, max), Range(max, 2 * max), 2 * max, max);
      var lim := Limits(1, 1, 1);
      var s, es := DeadCommandsBlockThePoll(x, dead, lim);
    }
  }

  // ------------------------------------------------- the portal's side

  lemma StepKeepsCompletion(s: State, lim: Limits, e: Event)
    requires Enabled(s, e) && NoLostCompletion(s)
    ensures NoLostCompletion(Step(s, lim, e))
  {
    var s' := Step(s, lim, e);
    forall w <- s'.waiters | s'.waiters[w].pc == Blocked
      && s'.waiters[w].id in s'.t && s'.t[s'.waiters[w].id].status.Terminal()
          && s'.t[s'.waiters[w].id].error != BridgeTimeout
      ensures s'.waiters[w].id in s'.waiters[w].buffer || s'.waiters[w].id in s'.owedDone
    {
      var id := s'.waiters[w].id;
      if e.ReceiveDone? && e.w == w {
        assert s.waiters[w].buffer == [s.waiters[w].buffer[0]] + s.waiters[w].buffer[1..];
      } else if e.ClaimFor? {
        assert id !in e.chosen;
      }
    }
  }

  /**
   No lost completion: in every run, a portal request blocked on a command that
   has finished has its wake-up buffered or owed, unless the command was failed
   with bridge_timeout.
   */
  lemma {:induction false} CompletionsAreNotLost(s: State, lim: Limits, es: seq<Event>)
    requires Runs(s, lim, es) && NoLostCompletion(s)
    ensures NoLostCompletion(Final(s, lim, es))
    decreases |es|
  {
    if es != [] {
      StepKeepsCompletion(s, lim, es[0]);
      CompletionsAreNotLost(Step(s, lim, es[0]), lim, es[1..]);
    }
  }

  /**
   The exception is real: a waiter blocked on a command that the sweep times out,
   with nothing on the way to it yet, is still blocked and still has nothing on
   the way afterwards, though the command is over.
   */
  lemma TimedOutWaiterIsNotWoken(s: State, lim: Limits, now: Time, w: nat)
    requires w in s.waiters && s.waiters[w].pc == Blocked && s.waiters[w].id in s.t
    requires IsStale(s.t[s.waiters[w].id], lim, now) && lim.maxClaims <= s.t[s.waiters[w].id].claims
    requires s.waiters[w].id !in s.waiters[w].buffer && s.waiters[w].id !in s.owedDone
    ensures var s', id := Step(s, lim, TimeOut(now)), s.waiters[w].id;
            && id in s'.t && s'.t[id].status == Failed && s'.t[id].error == BridgeTimeout
            && s'.waiters[w] == s.waiters[w] && id !in s'.owedDone
  {
    var s', id := Step(s, lim, TimeOut(now)), s.waiters[w].id;
    assert s'.t[id] == TimedOutOrSame(s.t[id], lim, now);
  }

  // ------------------------------------------------- every wait comes to an end

  /** How far a poll is from its answer. */
  function StepsToGo(pc: PollAt): nat {
    match pc
    case ToLease => 7
    case ToClaim => 6
    case ToListen => 5
    case ToReclaim => 4
    case Waiting => 3
    case ToRelease => 2
    case ToFinalClaim => 1
    case Over => 0
  }

  /** The event is a step of poll p. */
  predicate OwnStep(e: Event, p: nat) {
    match e
    case Lease(q, _) => q == p
    case ClaimFor(q, _, _) => q == p
    case Listen(q) => q == p
    case Receive(q) => q == p
    case HoldOver(q) => q == p
    case _ => false
  }

  predicate TableEvent(e: Event) {
    e.Submit? || e.Complete? || e.Expire? || e.TimeOut? || e.Requeue? || e.Move?
  }

  lemma TableLeavesPolls(s: State, lim: Limits, e: Event, p: nat)
    requires Enabled(s, e) && p in s.polls && TableEvent(e)
    ensures p in Step(s, lim, e).polls
    ensures var b, b' := s.polls[p], Step(s, lim, e).polls[p]; b'.(buffer := b.buffer) == b && b.buffer <= b'.buffer
  {
    match e
    case Submit(_, _, _, _) =>
    case Complete(_, _, _, _) =>
    case Expire(_) =>
    case TimeOut(_) =>
    case Requeue(_) =>
    case Move(_, _, _) =>
  }

  /** Other events add to what a listening poll has buffered, and change nothing else about a poll. */
  lemma OthersLeavePolls(s: State, lim: Limits, e: Event, p: nat)
    requires Enabled(s, e) && p in s.polls && !OwnStep(e, p)
    ensures p in Step(s, lim, e).polls
    ensures var b, b' := s.polls[p], Step(s, lim, e).polls[p]; b'.(buffer := b.buffer) == b && b.buffer <= b'.buffer
  {
    if TableEvent(e) {
      TableLeavesPolls(s, lim, e, p);
    }
  }

  /**
   Every step of its own brings a poll closer to its answer, except for a payload that names neither of
   its two ids, which costs it just that payload. A poll answers with commands as soon as a claim hands
   some out, and never but after a claim; it wakes as soon as it reads one of its ids, or at the end of
   its hold, and then asks for the lease anew before its last claim.
   */
  lemma PollsMoveForward(s: State, lim: Limits, e: Event, p: nat)
    requires Enabled(s, e) && p in s.polls && OwnStep(e, p)
    ensures p in Step(s, lim, e).polls
    ensures var b, b' := s.polls[p], Step(s, lim, e).polls[p];
            && b'.self == b.self && b'.group == b.group && b'.max == b.max
            && (e.ClaimFor? && Handed(s, e.chosen) ==> b'.pc == Over)
            && (b'.pc == Over ==> e.ClaimFor?) && (b'.pc == ToFinalClaim ==> e.Lease?)
            && (b'.pc == Waiting && b.pc != Waiting ==> e.ClaimFor? && b.Listens())
            && (e.Receive? && b.buffer[0] in {b.self, b.group} ==> b'.pc == ToRelease)
            && (e.Lease? ==> b'.active == e.active)
            && (StepsToGo(b'.pc) < StepsToGo(b.pc)
                || (e.Receive? && b.buffer[0] !in {b.self, b.group} && b' == b.(buffer := b.buffer[1..])))
  {
  }

  /** Steps of poll p among the events. */
  function OwnSteps(es: seq<Event>, p: nat): nat {
    if es == [] then 0 else OwnSteps(es[1..], p) + if OwnStep(es[0], p) then 1 else 0
  }

  /** Payloads that poll p reads in the run and that name neither of its ids. */
  ghost function Skipped(s: State, lim: Limits, es: seq<Event>, p: nat): nat
    requires Runs(s, lim, es) && p in s.polls
    decreases |es|
  {
    if es == [] then 0 else
      var skips := es[0] == Receive(p) && s.polls[p].buffer[0] !in {s.polls[p].self, s.polls[p].group};
      PollStays(s, lim, es[0], p);
      Skipped(Step(s, lim, es[0]), lim, es[1..], p) + if skips then 1 else 0
  }

  lemma PollStays(s: State, lim: Limits, e: Event, p: nat)
    requires Enabled(s, e) && p in s.polls
    ensures p in Step(s, lim, e).polls
  {
  }

  /**
   Every poll answers. In every run a poll takes at most seven steps of its own besides reading payloads
   that are meant for others, and what is left of them is how far it still is from its answer.
   */
  lemma {:induction false} PollsAnswer(s: State, lim: Limits, es: seq<Event>, p: nat)
    requires Runs(s, lim, es) && p in s.polls
    ensures p in Final(s, lim, es).polls
    ensures OwnSteps(es, p) + StepsToGo(Final(s, lim, es).polls[p].pc)
            <= StepsToGo(s.polls[p].pc) + Skipped(s, lim, es, p)
    decreases |es|
  {
    if es != [] {
      PollStays(s, lim, es[0], p);
      if OwnStep(es[0], p) {
        PollsMoveForward(s, lim, es[0], p);
      } else {
        OthersLeavePolls(s, lim, es[0], p);
      }
      PollsAnswer(Step(s, lim, es[0]), lim, es[1..], p);
    }
  }

  lemma TableLeavesWaiters(s: State, lim: Limits, e: Event, w: nat)
    requires Enabled(s, e) && w in s.waiters && TableEvent(e)
    ensures w in Step(s, lim, e).waiters && Step(s, lim, e).waiters[w].pc == s.waiters[w].pc
  {
    match e
    case Submit(_, _, _, _) =>
    case Complete(_, _, _, _) =>
    case Expire(_) =>
    case TimeOut(_) =>
    case Requeue(_) =>
    case Move(_, _, _) =>
  }

  /** A portal request returns exactly when it finds its command over, reads its id, or gives up. */
  lemma WaitersReturnExactly(s: State, lim: Limits, e: Event, w: nat)
    requires Enabled(s, e) && w in s.waiters && s.waiters[w].pc != Returned
    ensures w in Step(s, lim, e).waiters
    ensures Step(s, lim, e).waiters[w].pc == Returned <==>
              || e == GiveUp(w)
              || (e == Get(w) && (s.waiters[w].id in s.t ==> s.t[s.waiters[w].id].status.Terminal()))
              || (e == ReceiveDone(w) && s.waiters[w].buffer[0] == s.waiters[w].id)
  {
    if TableEvent(e) {
      TableLeavesWaiters(s, lim, e, w);
    }
  }
}
