/**
 The collector's side of a warm-standby group (av-bridge/internal/ha) and the
 protocol it makes with the cloud's lease: the safety claim in the header of
 collectorha/lease.go, that the old holder has always stopped polling devices
 before the new one starts.

 What the two packages leave to their surroundings is an Env: how long replies
 and checks take, and how far the two clocks behind Acquire stray. The theorem
 SafeExactly says for which surroundings the claim holds, in every run.
 */
module Fence {
  import opened Common
  import opened Lease

  /** The active machine's fence falls this long ahead of the end of its lease. */
  const SAFETY_MARGIN: Time := 20_000

  /** The wire value of a poll reply's role. */
  datatype Role = NotGrouped | RoleActive | RoleStandby

  datatype Control = Control(grouped: bool, active: bool, fenced: bool, deadline: Time)

  const STARTED := Control(false, false, false, 0)

  function Observed(c: Control, role: Role, ttl: Time, now: Time): Control {
    match role
    case NotGrouped => Control(false, true, false, c.deadline)
    case RoleStandby => Control(true, false, false, c.deadline)
    case RoleActive =>
      var t := if ttl <= SAFETY_MARGIN then SAFETY_MARGIN + 1_000 else ttl;
      Control(true, true, false, now + t - SAFETY_MARGIN)
  }

  /** Whether the reply makes the machine drop all its devices. */
  predicate Drops(c: Control, role: Role) {
    role == RoleStandby && (!c.grouped || c.active)
  }

  /** Whether device lists from the cloud may be applied. */
  predicate Serving(c: Control) {
    !c.grouped || c.active
  }

  function Checked(c: Control, now: Time): Control {
    if c.grouped && c.active && c.deadline <= now then c.(active := false, fenced := true) else c
  }

  /** The controller as the collector runs it: one object, updated in place under a mutex. */
  class Controller {
    var grouped: bool
    var active: bool
    var fenced: bool
    var deadline: Time

    function View(): Control
      reads this
    {
      Control(grouped, active, fenced, deadline)
    }

    constructor ()
      ensures View() == STARTED
    {
      grouped, active, fenced, deadline := false, false, false, 0;
    }

    /** After every successful poll. Drops every device, or asks for a config pull, when the role changes. */
    method Observe(role: Role, ttl: Time, now: Time) returns (dropDevices: bool, pullConfig: bool)
      modifies this
      ensures View() == Observed(old(View()), role, ttl, now)
      ensures grouped == (role != NotGrouped) && active == (role != RoleStandby) && !fenced
      ensures deadline == if role != RoleActive then old(deadline)
                          else if ttl <= 20_000 then now + 1_000 else now + ttl - 20_000
      ensures dropDevices <==> role == RoleStandby && (!old(grouped) || old(active))
      ensures pullConfig <==> (role == NotGrouped && old(grouped) && !old(active))
                              || (role == RoleActive && !(old(grouped) && old(active)))
    {
      dropDevices, pullConfig := false, false;
      match role {
        case NotGrouped =>
          pullConfig := grouped && !active;
          grouped, active, fenced := false, true, false;
        case RoleStandby =>
          if !grouped || active {
            dropDevices := true;
          }
          grouped, active, fenced := true, false, false;
        case RoleActive =>
          var t := ttl;
          if t <= SAFETY_MARGIN {
            t := SAFETY_MARGIN + 1_000;
          }
          deadline := now + t - SAFETY_MARGIN;
          if !grouped || !active {
            pullConfig := true;
          }
          grouped, active, fenced := true, true, false;
      }
    }

    /** Fences once the lease can no longer be trusted. */
    method Check(now: Time) returns (dropDevices: bool)
      modifies this
      ensures View() == Checked(old(View()), now)
      ensures dropDevices <==> old(grouped) && old(active) && old(deadline) <= now
      ensures grouped == old(grouped) && deadline == old(deadline)
      ensures active == (old(active) && !dropDevices) && fenced == (old(fenced) || dropDevices)
    {
      if !grouped || !active || now < deadline {
        return false;
      }
      active, fenced := false, true;
      return true;
    }
  }

  /**
   How long a reply is good for: a machine told that it's active is active exactly until the
   safety margin before the end of its lease, or for a second if the lease is no longer than
   that; one told that it's a standby never is, and one outside any group always.
   */
  lemma HowLongAReplyLasts(c: Control, ttl: Time, now: Time, t: Time)
    ensures var after := Checked(Observed(c, RoleActive, ttl, now), t);
            && (after.active <==> t < now + if SAFETY_MARGIN < ttl then ttl - SAFETY_MARGIN else 1_000)
            && (after.fenced <==> !after.active) && (Serving(after) <==> after.active)
    ensures !Serving(Checked(Observed(c, RoleStandby, ttl, now), t))
    ensures var alone := Checked(Observed(c, NotGrouped, ttl, now), t); Serving(alone) && !alone.fenced
    ensures Drops(c, RoleStandby) <==> Serving(c)
  {
  }

  // ---------------------------------------------------------------- surroundings

  /**
   What the protocol can't decide for itself.
   - delay: a reply reaches the machine at most this long after the Acquire that
     wrote it, or not at all;
   - check: a machine past its deadline has run Check within this time;
   - lag, lead: the database stamps at most lag behind real time, and the Go
     process reads its clock at most lead ahead of it;
   - stepDown: a machine made to step down has heard of it, or has stopped for
     another reason, within this time. None: that reply may be lost for good;
   - handovers: whether operators ask for handovers at all;
   - ownDevices: whether a machine may start with devices of its own, which it polls
     at once: those of its local configuration, or of a cache from before the group;
   - earlyPulls: whether a config pull may pass a machine's gate between its start
     and its first poll reply. Until that reply it doesn't know that it's in a group;
   - lateApply: whether a poll reply or a fence may fall between the moment at which
     a pull passes the gate and the moment at which its devices are started.
   */
  datatype Env = Env(delay: Time, check: Time, lag: Time, lead: Time, stepDown: Option<Time>, handovers: bool,
                     ownDevices: bool, earlyPulls: bool, lateApply: bool) {
    predicate Valid() {
      0 <= delay && 0 < check && 0 <= lag && 0 <= lead && (stepDown.Some? ==> 0 < stepDown.value)
    }

    function Skew(): Time { lag + lead }
  }

  datatype Reply = Reply(active: bool, sentAt: Time)

  /** A config pull under way: whether it brings devices, and whether it has passed the gate. */
  datatype Pull = Pull(devices: bool, passed: bool)

  /**
   One machine: its controller, whether its devices are running, the pull and the poll reply
   on their way to it, and when it was made to step down.
   */
  datatype Bridge = Bridge(ctl: Control, running: bool, pull: Option<Pull>, reply: Option<Reply>, left: Option<Time>) {
    predicate Applying() { pull.Some? && pull.value.passed }
  }

  datatype State = State(now: Time, row: Row, bridges: map<Machine, Bridge>)

  datatype Event =
    | Advance(until: Time)
    | Poll(m: Machine, wall: Time, stamp: Time)
    | Deliver(m: Machine)
    | Lose(m: Machine)
    | Check(m: Machine)
    | Crash(m: Machine, own: bool)
    | Handover(m: Machine, stamp: Time)
    | AnswerPull(m: Machine, stamp: Time)
    | PassGate(m: Machine)
    | ApplyPull(m: Machine)

  /** Time can't pass the moment by which a machine has fenced, or has learnt that it stepped down. */
  predicate MayRunUntil(env: Env, b: Bridge, t: Time) {
    b.ctl.active ==>
      && t < b.ctl.deadline + env.check
      && (b.left.Some? && env.stepDown.Some? ==> t < b.left.value + env.stepDown.value)
  }

  predicate Enabled(env: Env, s: State, e: Event) {
    match e
    case Advance(t) => s.now < t && forall m <- s.bridges :: MayRunUntil(env, s.bridges[m], t)
    case Poll(m, wall, stamp) => m in s.bridges && wall <= s.now + env.lead && s.now - env.lag <= stamp
    case Deliver(m) =>
      && m in s.bridges && s.bridges[m].reply.Some?
      && s.now <= s.bridges[m].reply.value.sentAt + env.delay
      && (s.bridges[m].Applying() ==> env.lateApply)
    case Check(m) => m in s.bridges && (s.bridges[m].Applying() ==> env.lateApply)
    case Crash(m, own) => m in s.bridges && (own ==> env.ownDevices)
    case Handover(m, _) => env.handovers && m in s.bridges
    case AnswerPull(m, stamp) => m in s.bridges && !s.bridges[m].Applying() && s.now - env.lag <= stamp
    case PassGate(m) =>
      && m in s.bridges && s.bridges[m].pull.Some? && !s.bridges[m].Applying()
      && (s.bridges[m].ctl.grouped || env.earlyPulls)
    case ApplyPull(m) => m in s.bridges && s.bridges[m].Applying()
    case _ => e.m in s.bridges
  }

  function AfterPoll(b: Bridge, outcome: Outcome, now: Time): Bridge {
    b.(reply := Some(Reply(outcome == Granted, now)),
       left := match outcome
         case Granted => None
         case SteppedDown => if b.ctl.active then Some(now) else b.left
         case Declined => b.left)
  }

  function AfterDeliver(b: Bridge, now: Time): Bridge
    requires b.reply.Some?
  {
    var role := if b.reply.value.active then RoleActive else RoleStandby;
    b.(ctl := Observed(b.ctl, role, TTL, now), running := b.running && !Drops(b.ctl, role), reply := None)
  }

  function AfterCheck(b: Bridge, now: Time): Bridge {
    b.(ctl := Checked(b.ctl, now), running := b.running && Checked(b.ctl, now) == b.ctl)
  }

  /** A pull that brings devices to a machine that isn't serving is ignored. */
  function AfterGate(b: Bridge): Bridge
    requires b.pull.Some?
  {
    b.(pull := if b.pull.value.devices && !Serving(b.ctl) then None else Some(b.pull.value.(passed := true)))
  }

  function AfterApply(b: Bridge): Bridge
    requires b.pull.Some?
  {
    b.(running := b.pull.value.devices, pull := None)
  }

  /** The machine of an event, once it has happened. */
  function Moved(env: Env, s: State, e: Event): Bridge
    requires Enabled(env, s, e) && !e.Advance?
  {
    var b := s.bridges[e.m];
    match e
    case Poll(m, wall, _) => AfterPoll(b, Decide(s.row, m, wall), s.now)
    case Deliver(_) => AfterDeliver(b, s.now)
    case Lose(_) => b.(reply := None)
    case Check(_) => AfterCheck(b, s.now)
    case Crash(_, own) => b.(ctl := STARTED, running := own, pull := None, reply := None)
    case Handover(_, _) => b
    // The cloud gives the group's devices to the holder, and an empty list to everybody else.
    case AnswerPull(m, stamp) => b.(pull := Some(Pull(IsActive(s.row, m, stamp), false)))
    case PassGate(_) => AfterGate(b)
    case ApplyPull(_) => AfterApply(b)
  }

  function Apply(env: Env, s: State, e: Event): State
    requires Enabled(env, s, e)
  {
    match e
    case Advance(t) => s.(now := t)
    case _ =>
      State(s.now,
            match e
            case Poll(m, wall, stamp) => Acquired(s.row, m, wall, stamp)
            case Handover(m, stamp) => HandoverRequested(s.row, m, stamp)
            case _ => s.row,
            s.bridges[e.m := Moved(env, s, e)])
  }

  /** Nobody holds the lease, and nobody polls devices but from its own configuration. */
  predicate Init(env: Env, s: State) {
    && s.row == FREE
    && forall m <- s.bridges ::
         s.bridges[m].(running := false) == Bridge(STARTED, false, None, None, None)
         && (s.bridges[m].running ==> env.ownDevices)
  }

  /** Every event of the list can happen when its turn comes. */
  predicate Runs(env: Env, s: State, es: seq<Event>)
    decreases |es|
  {
    es == [] || (Enabled(env, s, es[0]) && Runs(env, Apply(env, s, es[0]), es[1..]))
  }

  function Final(env: Env, s: State, es: seq<Event>): State
    requires Runs(env, s, es)
    decreases |es|
  {
    if es == [] then s else Final(env, Apply(env, s, es[0]), es[1..])
  }

  /** At most one machine of the group polls devices. */
  predicate Exclusive(s: State) {
    forall m, o :: m in s.bridges && o in s.bridges && m != o ==> !(s.bridges[m].running && s.bridges[o].running)
  }

  /** No run of a group of any size ever has two machines polling devices at one instant. */
  ghost predicate Safe(env: Env) {
    forall s: State, es: seq<Event> :: Init(env, s) && Runs(env, s, es) ==> Exclusive(Final(env, s, es))
  }

  /** The condition: both waits outlast whatever can delay the old holder's stop, and no devices run unfenced. */
  predicate Sufficient(env: Env) {
    && !env.ownDevices && !env.earlyPulls && !env.lateApply
    && env.check + env.delay + env.Skew() <= SAFETY_MARGIN
    && (env.handovers ==> env.stepDown.Some? && env.stepDown.value + env.Skew() <= HANDOVER_GRACE)
  }

  // ---------------------------------------------------------------- safety

  /** A machine that is active, or will be when the reply on its way arrives in time. */
  predicate Claims(env: Env, s: State, m: Machine)
    requires m in s.bridges
  {
    var b := s.bridges[m];
    b.ctl.active || (b.reply.Some? && b.reply.value.active && s.now <= b.reply.value.sentAt + env.delay)
  }

  /** The row gives nobody the lease before time t, except to the holder of an owned row. */
  predicate Owned(r: Row, m: Machine, t: Time) {
    r.holder == Some(m) && r.notBefore.None? && r.expires.Some? && t <= r.expires.value
  }

  predicate Waiting(r: Row, t: Time) {
    && r.holder.Some?
    && r.notBefore.Some? && t <= r.notBefore.value
    && r.expires.Some? && t <= r.expires.value
  }

  /** What protects the claim of m: the lease is its own past the end of the claim, or nobody's before that. */
  predicate Protected(env: Env, s: State, m: Machine)
    requires m in s.bridges
  {
    var b := s.bridges[m];
    if b.left.None? then
      && (b.ctl.active ==> Owned(s.row, m, b.ctl.deadline + env.check + env.lead))
      && (b.reply.Some? && b.reply.value.active ==>
            Owned(s.row, m, b.reply.value.sentAt + env.delay + TTL - SAFETY_MARGIN + env.check + env.lead))
    else
      Waiting(s.row, b.left.value + HANDOVER_GRACE - env.lag)
  }

  predicate Sane(env: Env, s: State, m: Machine)
    requires m in s.bridges
  {
    var b := s.bridges[m];
    && (b.ctl.active ==> b.ctl.grouped && b.ctl.deadline <= s.now + TTL - SAFETY_MARGIN)
    && (b.running || (b.Applying() && b.pull.value.devices) ==> b.ctl.active)
    && MayRunUntil(env, b, s.now)
    && (b.reply.Some? ==> b.reply.value.sentAt <= s.now)
    && (b.reply.Some? && b.reply.value.active ==> b.left.None?)
    && (b.left.Some? ==> b.left.value <= s.now)
  }

  predicate Inv(env: Env, s: State) {
    && (forall m <- s.bridges :: Sane(env, s, m))
    && (!env.handovers ==> s.row.handover.None? && forall m <- s.bridges :: s.bridges[m].left.None?)
    && (forall m <- s.bridges :: Claims(env, s, m) ==> Protected(env, s, m))
    && (forall m, o :: m in s.bridges && o in s.bridges && m != o ==> !(Claims(env, s, m) && Claims(env, s, o)))
  }

  /** Acquire grants nothing while another machine claims the lease. */
  lemma NoGrantBeside(env: Env, s: State, m: Machine, wall: Time, stamp: Time, o: Machine)
    requires env.Valid() && Sufficient(env) && Inv(env, s) && Enabled(env, s, Poll(m, wall, stamp))
    requires o in s.bridges && o != m && Claims(env, s, o)
    ensures Decide(s.row, m, wall) != Granted
  {
    assert Protected(env, s, o) && Sane(env, s, o);
  }

  /** What a poll of m leaves of another machine. */
  lemma PollKeepsOther(env: Env, s: State, m: Machine, wall: Time, stamp: Time, o: Machine)
    requires env.Valid() && Sufficient(env) && Inv(env, s) && Enabled(env, s, Poll(m, wall, stamp))
    requires o in s.bridges && o != m
    ensures var s' := Apply(env, s, Poll(m, wall, stamp));
            Sane(env, s', o) && (Claims(env, s', o) ==> Claims(env, s, o) && Protected(env, s', o))
  {
    assert Sane(env, s, o);
    if Claims(env, s, o) {
      assert Protected(env, s, o);
      NoGrantBeside(env, s, m, wall, stamp, o);
    }
  }

  lemma PollKeepsPoller(env: Env, s: State, m: Machine, wall: Time, stamp: Time)
    requires env.Valid() && Sufficient(env) && Inv(env, s) && Enabled(env, s, Poll(m, wall, stamp))
    ensures var s' := Apply(env, s, Poll(m, wall, stamp));
            && Sane(env, s', m) && (Claims(env, s', m) ==> Protected(env, s', m))
            && (Claims(env, s', m) ==> Claims(env, s, m) || Decide(s.row, m, wall) == Granted)
  {
    assert Sane(env, s, m);
    assert Claims(env, s, m) ==> Protected(env, s, m);
  }

  lemma PollKeepsInv(env: Env, s: State, m: Machine, wall: Time, stamp: Time)
    requires env.Valid() && Sufficient(env) && Inv(env, s) && Enabled(env, s, Poll(m, wall, stamp))
    ensures Inv(env, Apply(env, s, Poll(m, wall, stamp)))
  {
    var s' := Apply(env, s, Poll(m, wall, stamp));
    forall o <- s'.bridges
      ensures Sane(env, s', o) && (Claims(env, s', o) ==> Protected(env, s', o))
      ensures Claims(env, s', o) ==> Claims(env, s, o) || (o == m && Decide(s.row, m, wall) == Granted)
      ensures o != m && Claims(env, s, o) ==> Decide(s.row, m, wall) != Granted
    {
      if o == m {
        PollKeepsPoller(env, s, m, wall, stamp);
      } else {
        PollKeepsOther(env, s, m, wall, stamp, o);
        if Claims(env, s, o) {
          NoGrantBeside(env, s, m, wall, stamp, o);
        }
      }
    }
  }

  /** Any other event makes no new claim, and leaves every claim protected. */
  lemma OtherKeepsMachine(env: Env, s: State, e: Event, o: Machine)
    requires env.Valid() && Sufficient(env) && Inv(env, s) && Enabled(env, s, e) && !e.Poll? && o in s.bridges
    ensures var s' := Apply(env, s, e);
            Sane(env, s', o) && (Claims(env, s', o) ==> Claims(env, s, o) && Protected(env, s', o))
  {
    match e
    case Deliver(_) => ControlKeepsMachine(env, s, e, o);
    case Check(_) => ControlKeepsMachine(env, s, e, o);
    case AnswerPull(_, _) => PullKeepsMachine(env, s, e, o);
    case PassGate(_) => PullKeepsMachine(env, s, e, o);
    case ApplyPull(_) => PullKeepsMachine(env, s, e, o);
    case _ => StopKeepsMachine(env, s, e, o);
  }

  lemma StopKeepsMachine(env: Env, s: State, e: Event, o: Machine)
    requires env.Valid() && Sufficient(env) && Inv(env, s) && Enabled(env, s, e) && o in s.bridges
    requires e.Advance? || e.Handover? || e.Lose? || e.Crash?
    ensures var s' := Apply(env, s, e);
            Sane(env, s', o) && (Claims(env, s', o) ==> Claims(env, s, o) && Protected(env, s', o))
  {
    assert Sane(env, s, o);
    assert Claims(env, s, o) ==> Protected(env, s, o);
  }

  lemma ControlKeepsMachine(env: Env, s: State, e: Event, o: Machine)
    requires env.Valid() && Sufficient(env) && Inv(env, s) && Enabled(env, s, e) && o in s.bridges
    requires e.Deliver? || e.Check?
    ensures var s' := Apply(env, s, e);
            Sane(env, s', o) && (Claims(env, s', o) ==> Claims(env, s, o) && Protected(env, s', o))
  {
    assert Sane(env, s, o);
    assert Claims(env, s, o) ==> Protected(env, s, o);
  }

  lemma PullKeepsMachine(env: Env, s: State, e: Event, o: Machine)
    requires env.Valid() && Sufficient(env) && Inv(env, s) && Enabled(env, s, e) && o in s.bridges
    requires e.AnswerPull? || e.PassGate? || e.ApplyPull?
    ensures var s' := Apply(env, s, e);
            Sane(env, s', o) && (Claims(env, s', o) ==> Claims(env, s, o) && Protected(env, s', o))
  {
    assert Sane(env, s, o);
    assert Claims(env, s, o) ==> Protected(env, s, o);
  }

  lemma OtherKeepsInv(env: Env, s: State, e: Event)
    requires env.Valid() && Sufficient(env) && Inv(env, s) && Enabled(env, s, e) && !e.Poll?
    ensures Inv(env, Apply(env, s, e))
  {
    var s' := Apply(env, s, e);
    forall o <- s'.bridges
      ensures Sane(env, s', o) && (Claims(env, s', o) ==> Claims(env, s, o) && Protected(env, s', o))
    {
      OtherKeepsMachine(env, s, e, o);
    }
  }

  lemma {:induction false} RunKeepsInv(env: Env, s: State, es: seq<Event>)
    requires env.Valid() && Sufficient(env) && Inv(env, s) && Runs(env, s, es)
    ensures Inv(env, Final(env, s, es))
    decreases |es|
  {
    if es != [] {
      match es[0] {
        case Poll(m, wall, stamp) => PollKeepsInv(env, s, m, wall, stamp);
        case _ => OtherKeepsInv(env, s, es[0]);
      }
      RunKeepsInv(env, Apply(env, s, es[0]), es[1..]);
    }
  }

  lemma SufficientIsSafe(env: Env)
    requires env.Valid() && Sufficient(env)
    ensures Safe(env)
  {
    forall s: State, es: seq<Event> | Init(env, s) && Runs(env, s, es) ensures Exclusive(Final(env, s, es)) {
      RunKeepsInv(env, s, es);
      var f := Final(env, s, es);
      assert forall m <- f.bridges :: Sane(env, f, m) && (f.bridges[m].running ==> Claims(env, f, m));
    }
  }

  // ---------------------------------------------------------------- and only then

  lemma RunsCons(env: Env, s: State, e: Event, es: seq<Event>)
    requires Enabled(env, s, e) && Runs(env, Apply(env, s, e), es)
    ensures Runs(env, s, [e] + es) && Final(env, s, [e] + es) == Final(env, Apply(env, s, e), es)
  {
    assert ([e] + es)[1..] == es;
  }

  /** From s, es leads to two machines that poll devices at once. */
  predicate Overlaps(env: Env, s: State, es: seq<Event>) {
    Runs(env, s, es) && !Exclusive(Final(env, s, es))
  }

  lemma After(env: Env, s: State, e: Event, es: seq<Event>) returns (all: seq<Event>)
    requires Enabled(env, s, e) && Overlaps(env, Apply(env, s, e), es)
    ensures Overlaps(env, s, all)
  {
    RunsCons(env, s, e, es);
    all := [e] + es;
  }

  const NEW := Bridge(STARTED, false, None, None, None)
  const PAIR := State(0, FREE, map[0 := NEW, 1 := NEW])

  /** The machine serves: its pull has been answered, passed and applied. */
  function Served(s: State, m: Machine): State
    requires m in s.bridges
  {
    s.(bridges := s.bridges[m := s.bridges[m].(running := true, pull := None)])
  }

  /** A machine that may apply what the cloud gives, and that the cloud takes for the holder, pulls its devices. */
  lemma PullsItsDevices(env: Env, s: State, m: Machine, stamp: Time, es: seq<Event>) returns (all: seq<Event>)
    requires m in s.bridges && s.bridges[m].pull.None? && Serving(s.bridges[m].ctl)
    requires s.bridges[m].ctl.grouped || env.earlyPulls
    requires s.now - env.lag <= stamp && IsActive(s.row, m, stamp)
    requires Overlaps(env, Served(s, m), es)
    ensures Overlaps(env, s, all)
  {
    var s1 := Apply(env, s, AnswerPull(m, stamp));
    var s2 := Apply(env, s1, PassGate(m));
    assert Apply(env, s2, ApplyPull(m)) == Served(s, m);
    all := After(env, s2, ApplyPull(m), es);
    all := After(env, s1, PassGate(m), all);
    all := After(env, s, AnswerPull(m, stamp), all);
  }

  /** The last part of every run below: machine 1 takes over while machine 0 still polls devices. */
  lemma TakesOver(env: Env, s: State) returns (es: seq<Event>)
    requires env.Valid() && s.bridges.Keys == {0, 1}
    requires s.bridges[0].running && s.bridges[1].pull.None?
    requires Decide(s.row, 1, s.now + env.lead) == Granted
    ensures Overlaps(env, s, es)
  {
    var takeOver := Poll(1, s.now + env.lead, s.now);
    var s1 := Apply(env, s, takeOver);
    var s2 := Apply(env, s1, Deliver(1));
    var s3 := Served(s2, 1);
    assert s3.bridges[0].running && s3.bridges[1].running;
    es := [];
    es := PullsItsDevices(env, s2, 1, s.now, es);
    es := After(env, s1, Deliver(1), es);
    es := After(env, s, takeOver, es);
  }

  /** The same after some time. */
  lemma Overlap(env: Env, s: State, t: Time) returns (es: seq<Event>)
    requires env.Valid() && s.now <= t && s.bridges.Keys == {0, 1}
    requires s.bridges[0].running && MayRunUntil(env, s.bridges[0], t)
    requires s.bridges[1].pull.None? && !s.bridges[1].ctl.active
    requires Decide(s.row, 1, t + env.lead) == Granted
    ensures Overlaps(env, s, es)
  {
    if s.now < t {
      es := TakesOver(env, Apply(env, s, Advance(t)));
      es := After(env, s, Advance(t), es);
    } else {
      es := TakesOver(env, s);
    }
  }

  /** A reply that is slow enough: the lease lapses before the fence falls. */
  lemma SlowReplyOverlaps(env: Env) returns (es: seq<Event>)
    requires env.Valid() && SAFETY_MARGIN < env.check + env.delay + env.Skew()
    ensures Init(env, PAIR) && Overlaps(env, PAIR, es)
  {
    var first, late := Poll(0, 0, -env.lag), Min(env.delay, TTL - 1);
    var s1 := Apply(env, PAIR, first);
    var s2 := if 0 < late then Apply(env, s1, Advance(late)) else s1;
    var s3 := Apply(env, s2, Deliver(0));
    es := Overlap(env, Served(s3, 0), Max(late, TTL - env.Skew()));
    es := PullsItsDevices(env, s3, 0, late - env.lag, es);
    es := After(env, s2, Deliver(0), es);
    if 0 < late {
      es := After(env, s1, Advance(late), es);
    }
    es := After(env, PAIR, first, es);
  }

  /** Machine 0 serves from time 0, by a grant with the given stamp. */
  function Started(env: Env, stamp: Time): State
    requires env.Valid() && -env.lag <= stamp
  {
    Served(Apply(env, Apply(env, PAIR, Poll(0, 0, stamp)), Deliver(0)), 0)
  }

  lemma FromStart(env: Env, stamp: Time, es: seq<Event>) returns (all: seq<Event>)
    requires env.Valid() && -env.lag <= stamp && Overlaps(env, Started(env, stamp), es)
    ensures Overlaps(env, PAIR, all)
  {
    var s1 := Apply(env, PAIR, Poll(0, 0, stamp));
    all := PullsItsDevices(env, Apply(env, s1, Deliver(0)), 0, stamp, es);
    all := After(env, s1, Deliver(0), all);
    all := After(env, PAIR, Poll(0, 0, stamp), all);
  }

  /** A step-down that isn't heard of in time: the target starts while the old holder still polls. */
  lemma UnheardStepDownOverlaps(env: Env) returns (es: seq<Event>)
    requires env.Valid() && env.handovers
    requires env.stepDown.Some? ==> HANDOVER_GRACE < env.stepDown.value + env.Skew()
    ensures Init(env, PAIR) && Overlaps(env, PAIR, es)
  {
    var leave := Poll(0, 0, -env.lag);
    var s0 := Started(env, 0);
    var s1 := Apply(env, s0, Handover(1, 0));
    es := Overlap(env, Apply(env, s1, leave), Max(0, HANDOVER_GRACE - env.Skew()));
    es := After(env, s1, leave, es);
    es := After(env, s0, Handover(1, 0), es);
    es := FromStart(env, 0, es);
  }

  /** Machine 0 was granted the lease at time 0 and started anew. */
  function Restarted(env: Env, own: bool): State
    requires env.Valid() && (own ==> env.ownDevices)
  {
    Apply(env, Apply(env, PAIR, Poll(0, 0, -env.lag)), Crash(0, own))
  }

  lemma FromRestart(env: Env, own: bool, es: seq<Event>) returns (all: seq<Event>)
    requires env.Valid() && (own ==> env.ownDevices) && Overlaps(env, Restarted(env, own), es)
    ensures Overlaps(env, PAIR, all)
  {
    var first := Poll(0, 0, -env.lag);
    all := After(env, Apply(env, PAIR, first), Crash(0, own), es);
    all := After(env, PAIR, first, all);
  }

  /**
   A holder that restarts cut off from the cloud, with devices of its own: it
   isn't in a group as far as it knows, so it never fences.
   */
  lemma OwnDevicesOverlap(env: Env) returns (es: seq<Event>)
    requires env.Valid() && env.ownDevices
    ensures Init(env, PAIR) && Overlaps(env, PAIR, es)
  {
    es := Overlap(env, Restarted(env, true), Max(0, TTL - env.Skew()));
    es := FromRestart(env, true, es);
  }

  /** A holder that restarts, pulls its devices and is then cut off: the same. */
  lemma EarlyPullOverlaps(env: Env) returns (es: seq<Event>)
    requires env.Valid() && env.earlyPulls
    ensures Init(env, PAIR) && Overlaps(env, PAIR, es)
  {
    var s := Restarted(env, false);
    es := Overlap(env, Served(s, 0), Max(0, TTL - env.Skew()));
    es := PullsItsDevices(env, s, 0, -env.lag, es);
    es := FromRestart(env, false, es);
  }

  /** From the gate on: the fence falls, the devices are started behind it, and the other machine takes over. */
  lemma FenceBeforeApply(env: Env, s: State, deadline: Time) returns (es: seq<Event>)
    requires env.Valid() && env.lateApply && s.bridges.Keys == {0, 1}
    requires s.bridges[0].ctl.grouped && s.bridges[0].ctl.active && s.bridges[0].left.None?
    requires s.now < deadline == s.bridges[0].ctl.deadline && deadline <= TTL
             && s.bridges[0].pull == Some(Pull(true, true))
    requires s.bridges[1] == NEW && Decide(s.row, 1, Max(deadline, TTL - env.Skew()) + env.lead) == Granted
    ensures Overlaps(env, s, es)
  {
    var s1 := Apply(env, s, Advance(deadline));
    var s2 := Apply(env, s1, Check(0));
    es := Overlap(env, Apply(env, s2, ApplyPull(0)), Max(deadline, TTL - env.Skew()));
    es := After(env, s2, ApplyPull(0), es);
    es := After(env, s1, Check(0), es);
    es := After(env, s, Advance(deadline), es);
  }

  /** A pull that has passed the gate when the fence falls, and starts its devices behind it. */
  lemma LateApplyOverlaps(env: Env) returns (es: seq<Event>)
    requires env.Valid() && env.lateApply
    ensures Init(env, PAIR) && Overlaps(env, PAIR, es)
  {
    var s := Started(env, -env.lag);
    var s1 := Apply(env, s, AnswerPull(0, -env.lag));
    es := FenceBeforeApply(env, Apply(env, s1, PassGate(0)), TTL - SAFETY_MARGIN);
    es := After(env, s1, PassGate(0), es);
    es := After(env, s, AnswerPull(0, -env.lag), es);
    es := FromStart(env, -env.lag, es);
  }

  /**
   Fenced mutual exclusion, exactly: no run ever has two machines of a group
   polling devices at once if and only if the safety margin covers the slowest
   reply, check and clock skew; every step-down is heard of within the handover
   grace (where operators ask for handovers); and no machine polls devices that the
   fence doesn't know of: its own at the start, those of a pull before its first
   poll reply, or those of a pull that is applied after the gate has closed.
   Failover alone needs no step-down to be heard of: an old holder that is cut off
   is covered by the first part.
   */
  lemma SafeExactly(env: Env)
    requires env.Valid()
    ensures Safe(env) <==> Sufficient(env)
  {
    if Sufficient(env) {
      SufficientIsSafe(env);
    } else if env.ownDevices {
      var es := OwnDevicesOverlap(env);
    } else if env.earlyPulls {
      var es := EarlyPullOverlaps(env);
    } else if env.lateApply {
      var es := LateApplyOverlaps(env);
    } else if SAFETY_MARGIN < env.check + env.delay + env.Skew() {
      var es := SlowReplyOverlaps(env);
    } else {
      var es := UnheardStepDownOverlaps(env);
    }
  }

  /** The collector gives up on a poll after this long unless configured otherwise. */
  const LONG_POLL_TIMEOUT: Time := 35_000

  /**
   The poll timeout alone doesn't bound a reply well enough for the fence, and a
   handover whose step-down reply is lost isn't covered by the fence either. A
   machine does start the devices of its local configuration at once, does pull as
   it starts, and does read the gate some time before it starts the devices.
   */
  lemma DefaultsAreNotEnough(env: Env)
    requires env.Valid()
    requires || env.delay == LONG_POLL_TIMEOUT || (env.handovers && env.stepDown.None?)
             || env.ownDevices || env.earlyPulls || env.lateApply
    ensures !Safe(env)
  {
    SafeExactly(env);
  }
}
