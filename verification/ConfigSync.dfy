/**
 The version handshake by which a collector learns that its device config has
 changed (bridgecfg/handler.go Get, db/db.go). A pull reads its role, the config
 version and the devices at three different moments; changes land in between.
 */
module ConfigSync {
  import opened Common
  import opened Lease

  type CollectorId = nat
  /** A device config, by reported id; what is in it doesn't matter here. */
  type Devices = map<string, nat>

  // ------------------------------------------------- rows and their columns

  datatype DeviceRow = DeviceRow(collector: CollectorId, reported: Option<string>, deleted: bool, config: nat)

  /** The columns of the collectors table that the handshake uses. */
  class Collectors {
    var standbyFor: map<CollectorId, CollectorId>
    var version: map<CollectorId, int>
    var pulled: map<CollectorId, int>

    predicate Valid()
      reads this
    {
      version.Keys == pulled.Keys && standbyFor.Keys <= version.Keys && standbyFor.Values <= version.Keys
    }

    constructor ()
      ensures Valid() && version == map[]
    {
      standbyFor, version, pulled := map[], map[], map[];
    }

    /** The collector whose devices m serves. */
    function GroupOf(m: CollectorId): CollectorId
      reads this
    {
      if m in standbyFor then standbyFor[m] else m
    }

    /** Whether the config of m's group has moved past what m has pulled; nothing for an unknown collector. */
    method NeedsResync(m: CollectorId) returns (stale: Option<bool>)
      requires Valid()
      ensures m !in version ==> stale == None
      ensures m in version && m !in standbyFor ==> stale == Some(pulled[m] < version[m])
      ensures m in version && m in standbyFor ==> stale == Some(pulled[m] < version[standbyFor[m]])
    {
      if m !in version {
        return None;
      }
      assert m in standbyFor ==> standbyFor[m] in standbyFor.Values;
      stale := Some(version[GroupOf(m)] > pulled[m]);
    }

    /** Records what a pull served. The recorded version never goes down. */
    method TouchConfigPull(m: CollectorId, served: int)
      requires Valid()
      modifies this`pulled
      ensures Valid()
      ensures pulled == if m in old(pulled) then old(pulled)[m := Max(old(pulled)[m], served)] else old(pulled)
    {
      if m in pulled {
        pulled := pulled[m := Max(pulled[m], served)];
      }
    }
  }

  /** The device part of an answer: the live, named devices of the group, if this machine serves it. */
  ghost predicate Answers(rows: seq<DeviceRow>, group: CollectorId, serving: bool, out: seq<DeviceRow>) {
    && (forall d :: d in out <==> d in rows && serving && d.collector == group && !d.deleted
                                  && d.reported.Some? && d.reported.value != "")
    && |out| <= |rows|
  }

  /** The row loop of Get. A device that no collector has named yet is skipped. */
  method CollectDevices(rows: seq<DeviceRow>, group: CollectorId, serving: bool) returns (out: seq<DeviceRow>)
    ensures Answers(rows, group, serving, out)
    ensures forall d :: d in out <==>
              serving && d in rows && d.collector == group && !d.deleted && d.reported.Some? && |d.reported.value| > 0
  {
    out := [];
    if !serving {
      return;
    }
    for i := 0 to |rows|
      invariant Answers(rows[..i], group, serving, out)
    {
      var d := rows[i];
      assert rows[..i + 1] == rows[..i] + [d];
      if d.collector == group && !d.deleted {
        if d.reported.None? || d.reported.value == "" {
          continue;
        }
        out := out + [d];
      }
    }
    assert rows[..|rows|] == rows;
  }

  // ------------------------------------------------- pulls, changes and the lease interleaved

  /** The machine whose pulls are followed, and any other machine of its group. */
  const ME: Machine := 0
  const PEER: Machine := 1

  /**
   How a pull goes about it, and what its surroundings do. This service reads the
   version first, and rules out none of the rest.
   - renewals: ME may renew a lease of its own that has run out;
   - handovers: operators may ask for ME to take over;
   - startsInPull: ME may start to serve between the role and the version read of its pull.
   */
  datatype Policy = Policy(versionFirst: bool, renewals: bool, handovers: bool, startsInPull: bool)

  datatype PullAt = Idle | GotRole | GotVersion | GotDevices | ToAnswer

  /**
   One group and its machine ME, by the database's clock. owed counts the version
   bumps that committed lease changes have still to make; pulled is ME's
   config_version_pulled; then its pull under way, and its last answer: which
   devices it carried, as whom it was given, and (history) of which version.
   history lists the devices at every version.
   */
  datatype State = State(now: Time, row: Row, owed: nat, version: nat, devices: Devices, pulled: nat,
                         pc: PullAt, role: bool, seen: nat, read: Devices, readAt: nat,
                         served: Devices, servedRole: bool, servedAt: nat, history: seq<Devices>)
  {
    /** Whether ME serves its group at this moment. */
    predicate Serving() { IsActive(row, ME, now) }
  }

  datatype Event =
    | Tick(now: Time)
    | Change(devices: Devices)
    | Acquire(m: Machine, wall: Time)
    | Bump
    | Handover(m: Machine)
    | ReadRole
    | ReadVersion
    | ReadDevices
    | Answer(touched: bool)

  const START := State(0, FREE, 0, 0, map[], 0, Idle, false, 0, map[], 0, map[], false, 0, [map[]])

  predicate NeedsResync(s: State) {
    s.version > s.pulled
  }

  /** ME is granted a lease that is its own already, and that it doesn't serve by. */
  predicate RenewsLate(s: State, e: Event) {
    e.Acquire? && e.m == ME && Decide(s.row, ME, e.wall) == Granted && s.row.holder == Some(ME) && !s.Serving()
  }

  predicate Enabled(p: Policy, s: State, e: Event) {
    && (match e
        case Tick(now) => s.now <= now
        case Bump => 0 < s.owed
        case Handover(m) => m == ME ==> p.handovers
        case ReadRole => s.pc == Idle
        case ReadVersion => s.pc == if p.versionFirst then GotRole else GotDevices
        case ReadDevices => s.pc == if p.versionFirst then GotVersion else GotRole
        case Answer(_) => s.pc == ToAnswer
        case _ => true)
    && (RenewsLate(s, e) ==> p.renewals)
    && (!p.startsInPull && s.pc == GotRole && !s.Serving() ==> !Step(p, s, e).Serving())
  }

  function Bumped(s: State, devices: Devices): State {
    s.(version := s.version + 1, devices := devices, history := s.history + [devices])
  }

  /** The transaction of Acquire comes first, and the bump that a change of holder owes is a later statement. */
  function Step(p: Policy, s: State, e: Event): State {
    match e
    case Tick(now) => s.(now := now)
    case Change(devices) => Bumped(s, devices)
    case Acquire(m, wall) =>
      s.(row := Acquired(s.row, m, wall, s.now), owed := if Changes(s.row, m, wall) then s.owed + 1 else s.owed)
    case Bump => if 0 < s.owed then Bumped(s, s.devices).(owed := s.owed - 1) else s
    case Handover(m) => s.(row := HandoverRequested(s.row, m, s.now))
    case ReadRole => s.(pc := GotRole, role := s.Serving())
    case ReadVersion => s.(pc := if p.versionFirst then GotVersion else ToAnswer, seen := s.version)
    case ReadDevices =>
      s.(pc := if p.versionFirst then ToAnswer else GotDevices,
         read := if s.role then s.devices else map[], readAt := s.version)
    case Answer(touched) =>
      s.(pc := Idle, pulled := if touched then Max(s.pulled, s.seen) else s.pulled,
         served := s.read, servedRole := s.role, servedAt := s.readAt)
  }

  predicate Runs(p: Policy, s: State, es: seq<Event>)
    decreases |es|
  {
    es == [] || (Enabled(p, s, es[0]) && Runs(p, Step(p, s, es[0]), es[1..]))
  }

  function Final(p: Policy, s: State, es: seq<Event>): State
    decreases |es|
  {
    if es == [] then s else Final(p, Step(p, s, es[0]), es[1..])
  }

  /** No resync is asked for only if ME's last answer, given to it as the serving machine, is up to date. */
  predicate FreshAnswer(s: State) {
    !NeedsResync(s) && s.servedRole ==> s.served == s.devices
  }

  /**
   Once no bump is owed, no resync is asked for only if ME, when it serves, has been
   served the devices as they are.
   */
  predicate FreshServing(s: State) {
    s.owed == 0 && !NeedsResync(s) && s.Serving() ==> s.served == s.devices
  }

  ghost predicate AlwaysFreshAnswer(p: Policy) {
    forall es :: Runs(p, START, es) ==> FreshAnswer(Final(p, START, es))
  }

  ghost predicate AlwaysFreshServing(p: Policy) {
    forall es :: Runs(p, START, es) ==> FreshServing(Final(p, START, es))
  }

  // ------------------------------------------------- what is kept

  predicate Recorded(s: State) {
    && |s.history| == s.version + 1 && s.history[s.version] == s.devices
    && s.pulled <= s.version
    && (s.pc == GotVersion || s.pc == ToAnswer ==> s.pulled <= s.seen <= s.version)
    && (s.pc == ToAnswer ==>
          s.seen <= s.readAt <= s.version && s.read == if s.role then s.history[s.readAt] else map[])
    && s.pulled <= s.servedAt <= s.version
    && s.served == if s.servedRole then s.history[s.servedAt] else map[]
  }

  /**
   A serving machine whose last answer, or next one, was given to a standby has a
   resync coming, or a bump that brings it.
   */
  predicate RoleSeen(s: State) {
    && (s.Serving() && !s.servedRole ==> s.pulled < s.version || 0 < s.owed)
    && (s.pc == GotRole && !s.role ==> !s.Serving())
    && ((s.pc == GotVersion || s.pc == ToAnswer) && !s.role && s.Serving() ==> s.seen < s.version || 0 < s.owed)
    && s.row.handover != Some(ME) && (s.row.holder == Some(ME) ==> s.row.notBefore.None?)
  }

  predicate Restricted(p: Policy) {
    !p.renewals && !p.handovers && !p.startsInPull
  }

  lemma ChangeKeepsRecorded(s: State, devices: Devices)
    requires Recorded(s)
    ensures Recorded(Bumped(s, devices))
  {
  }

  lemma StepKeepsRecorded(p: Policy, s: State, e: Event)
    requires p.versionFirst && Recorded(s) && Enabled(p, s, e)
    ensures Recorded(Step(p, s, e))
  {
    match e
    case Change(devices) => ChangeKeepsRecorded(s, devices);
    case Bump => ChangeKeepsRecorded(s, s.devices);
    case Tick(_) =>
    case Acquire(_, _) =>
    case Handover(_) =>
    case ReadRole =>
    case ReadVersion =>
    case ReadDevices =>
    case Answer(_) =>
  }

  /** With no late renewal and no handover to it, ME starts to serve only by a takeover, which owes a bump. */
  lemma StartsOweABump(p: Policy, s: State, e: Event)
    requires Restricted(p) && RoleSeen(s) && Enabled(p, s, e) && (e.Tick? || e.Acquire? || e.Handover?)
    ensures var s' := Step(p, s, e);
            && (s'.Serving() ==> s.Serving() || 0 < s'.owed)
            && s.owed <= s'.owed
            && s'.row.handover != Some(ME) && (s'.row.holder == Some(ME) ==> s'.row.notBefore.None?)
  {
  }

  lemma StepKeepsRoleSeen(p: Policy, s: State, e: Event)
    requires p.versionFirst && Restricted(p)
    requires Recorded(s) && RoleSeen(s) && Enabled(p, s, e)
    ensures RoleSeen(Step(p, s, e))
  {
    match e
    case Tick(_) => StartsOweABump(p, s, e);
    case Acquire(_, _) => StartsOweABump(p, s, e);
    case Handover(_) => StartsOweABump(p, s, e);
    case Change(_) =>
    case Bump =>
    case ReadRole =>
    case ReadVersion =>
    case ReadDevices =>
    case Answer(_) =>
  }

  lemma {:induction false} RunsKeepRecorded(p: Policy, s: State, es: seq<Event>)
    requires p.versionFirst && Recorded(s) && Runs(p, s, es)
    requires Restricted(p) ==> RoleSeen(s)
    ensures Recorded(Final(p, s, es))
    ensures Restricted(p) ==> RoleSeen(Final(p, s, es))
    decreases |es|
  {
    if es != [] {
      StepKeepsRecorded(p, s, es[0]);
      if Restricted(p) {
        StepKeepsRoleSeen(p, s, es[0]);
      }
      RunsKeepRecorded(p, Step(p, s, es[0]), es[1..]);
    }
  }

  /**
   When the flag fails a serving machine, whatever the surroundings do: no bump is
   owed and no resync asked for, and yet it lacks devices, exactly when its last
   answer was given to it as a standby and there are devices to serve.
   */
  lemma StaleExactlyAfterAStandbysAnswer(p: Policy, es: seq<Event>)
    requires p.versionFirst && Runs(p, START, es)
    ensures var s := Final(p, START, es);
            !FreshServing(s) <==> s.owed == 0 && !NeedsResync(s) && s.Serving() && !s.servedRole && s.devices != map[]
  {
    RunsKeepRecorded(p, START, es);
  }

  // ------------------------------------------------- the four ways to lose devices

  /** From s, es leads to a machine that serves without its devices and isn't told. */
  predicate Loses(p: Policy, s: State, es: seq<Event>) {
    Runs(p, s, es) && !FreshServing(Final(p, s, es))
  }

  lemma After(p: Policy, s: State, e: Event, es: seq<Event>) returns (all: seq<Event>)
    requires Enabled(p, s, e) && Loses(p, Step(p, s, e), es)
    ensures Loses(p, s, all) && Final(p, s, all) == Final(p, Step(p, s, e), es)
  {
    all := [e] + es;
    assert all[1..] == es;
  }

  /** The rest of a pull that was begun as a standby's, by a machine that serves now. */
  lemma FinishesAsAStandby(p: Policy, s: State) returns (es: seq<Event>)
    requires p.versionFirst && s.pc == GotRole && !s.role && s.Serving()
    requires s.owed == 0 && s.pulled <= s.version && s.devices != map[]
    ensures Loses(p, s, es)
  {
    var s1 := Step(p, s, ReadVersion);
    var s2 := Step(p, s1, ReadDevices);
    es := After(p, s2, Answer(true), []);
    es := After(p, s1, ReadDevices, es);
    es := After(p, s, ReadVersion, es);
  }

  /** What a whole pull by a standby leaves: an empty answer, recorded at the current version. */
  function PulledAsAStandby(s: State): State {
    s.(pulled := Max(s.pulled, s.version), role := false, seen := s.version, read := map[], readAt := s.version,
       served := map[], servedRole := false, servedAt := s.version)
  }

  lemma PullsAsAStandby(p: Policy, s: State, es: seq<Event>) returns (all: seq<Event>)
    requires p.versionFirst && s.pc == Idle && !s.Serving() && Loses(p, PulledAsAStandby(s), es)
    ensures Loses(p, s, all)
  {
    var s1 := Step(p, s, ReadRole);
    var s2 := Step(p, s1, ReadVersion);
    var s3 := Step(p, s2, ReadDevices);
    assert Step(p, s3, Answer(true)) == PulledAsAStandby(s);
    all := After(p, s3, Answer(true), es);
    all := After(p, s2, ReadDevices, all);
    all := After(p, s1, ReadVersion, all);
    all := After(p, s, ReadRole, all);
  }

  /** A pull as a standby, and then a start to serve that owes no bump. */
  lemma StartsAfterAPull(p: Policy, s: State, e: Event) returns (es: seq<Event>)
    requires p.versionFirst && s.pc == Idle && !s.Serving() && s.owed == 0 && s.pulled <= s.version
             && s.devices != map[]
    requires (e.Tick? || e.Acquire?) && Enabled(p, PulledAsAStandby(s), e)
    requires Step(p, s, e).Serving() && Step(p, s, e).owed == 0
    ensures Loses(p, s, es)
  {
    es := After(p, PulledAsAStandby(s), e, []);
    es := PullsAsAStandby(p, s, es);
  }

  const TV: Devices := map["tv" := 1]

  lemma TvIsSomething()
    ensures TV != map[]
  {
    assert "tv" in TV;
  }

  /** ME serves, has taken the lease over, and the bump for that is made. */
  function Holding(p: Policy): State {
    Step(p, Step(p, START, Acquire(ME, 0)), Bump)
  }

  lemma FromHolding(p: Policy, es: seq<Event>) returns (all: seq<Event>)
    requires Loses(p, Holding(p), es)
    ensures Loses(p, START, all) && Final(p, START, all) == Final(p, Holding(p), es)
  {
    all := After(p, Step(p, START, Acquire(ME, 0)), Bump, es);
    all := After(p, START, Acquire(ME, 0), all);
  }

  /** Devices first: a change that lands between the reads is recorded as served, and isn't. */
  lemma DevicesFirstLosesAChange(p: Policy) returns (es: seq<Event>)
    requires !p.versionFirst
    ensures Loses(p, START, es) && !FreshAnswer(Final(p, START, es))
  {
    TvIsSomething();
    var s1 := Step(p, Holding(p), ReadRole);
    var s2 := s1.(pc := GotDevices, read := map[], readAt := 1);
    assert Step(p, s1, ReadDevices) == s2;
    var s3 := Step(p, s2, Change(TV));
    var s4 := Step(p, s3, ReadVersion);
    es := After(p, s4, Answer(true), []);
    es := After(p, s3, ReadVersion, es);
    es := After(p, s2, Change(TV), es);
    es := After(p, s1, ReadDevices, es);
    es := After(p, Holding(p), ReadRole, es);
    es := FromHolding(p, es);
  }

  /** A takeover in the middle of a pull, with the bump made before the version is read. */
  lemma TakesOverInPull(p: Policy, s: State) returns (es: seq<Event>)
    requires p.versionFirst && p.startsInPull
    requires s.row == FREE && s.pc == GotRole && !s.role && s.owed == 0 && s.pulled <= s.version && s.devices != map[]
    ensures Loses(p, s, es)
  {
    var s1 := s.(row := Row(Some(ME), Some(s.now + TTL), None, None), owed := 1);
    assert Step(p, s, Acquire(ME, 0)) == s1;
    es := FinishesAsAStandby(p, Step(p, s1, Bump));
    es := After(p, s1, Bump, es);
    es := After(p, s, Acquire(ME, 0), es);
  }

  /**
   A machine that takes the lease over between its role and version reads is told it
   has everything, and has nothing.
   */
  lemma StartDuringPullLosesTheDevices(p: Policy) returns (es: seq<Event>)
    requires p.versionFirst && p.startsInPull
    ensures Loses(p, START, es)
  {
    TvIsSomething();
    var s := Step(p, START, Change(TV));
    es := TakesOverInPull(p, Step(p, s, ReadRole));
    es := After(p, s, ReadRole, es);
    es := After(p, START, Change(TV), es);
  }

  /** So is a holder whose lease lapses, pulls, and then renews: a renewal doesn't bump the version. */
  lemma RenewalAfterLapseLosesTheDevices(p: Policy) returns (es: seq<Event>)
    requires p.versionFirst && p.renewals
    ensures Loses(p, START, es)
  {
    TvIsSomething();
    var s1 := Step(p, Holding(p), Change(TV));
    var s2 := Step(p, s1, Tick(TTL));
    es := StartsAfterAPull(p, s2, Acquire(ME, 0));
    es := After(p, s1, Tick(TTL), es);
    es := After(p, Holding(p), Change(TV), es);
    es := FromHolding(p, es);
  }

  const PEERS := Row(Some(PEER), Some(TTL), None, None)
  const IN_GRACE := Row(Some(ME), Some(HANDOVER_GRACE + TTL), Some(HANDOVER_GRACE), None)

  /** The peer holds the lease, ME is to take over, and the peer steps down. Two bumps are owed for that. */
  lemma FromHandover(p: Policy, es: seq<Event>) returns (all: seq<Event>)
    requires p.handovers && Loses(p, START.(row := IN_GRACE, owed := 2), es)
    ensures Loses(p, START, all)
  {
    var s1 := START.(row := PEERS, owed := 1);
    var s2 := START.(row := PEERS.(handover := Some(ME)), owed := 1);
    assert Step(p, START, Acquire(PEER, 0)) == s1 && Step(p, s1, Handover(ME)) == s2;
    assert Step(p, s2, Acquire(PEER, 0)) == START.(row := IN_GRACE, owed := 2);
    all := After(p, s2, Acquire(PEER, 0), es);
    all := After(p, s1, Handover(ME), all);
    all := After(p, START, Acquire(PEER, 0), all);
  }

  /**
   So is the target of an ordinary handover that pulls during the grace: the bump
   was made at the step-down, and serving starts by time alone.
   */
  lemma HandoverLosesTheDevices(p: Policy) returns (es: seq<Event>)
    requires p.versionFirst && p.handovers
    ensures Loses(p, START, es)
  {
    TvIsSomething();
    var s1 := START.(row := IN_GRACE, owed := 2);
    var s2 := Step(p, s1, Bump);
    var s3 := Step(p, s2, Bump);
    es := StartsAfterAPull(p, Step(p, s3, Change(TV)), Tick(HANDOVER_GRACE));
    es := After(p, s3, Change(TV), es);
    es := After(p, s2, Bump, es);
    es := After(p, s1, Bump, es);
    es := FromHandover(p, es);
  }

  /** Not even the target's first grant bumps the version: it is a renewal as far as the holder goes. */
  lemma TargetsFirstGrantBumpsNothing(r: Row, from: Machine, m: Machine, wall: Time, stamp: Time, later: Time)
    requires Decide(r, from, wall) == SteppedDown && r.handover == Some(m)
    ensures var left := Acquired(r, from, wall, stamp);
            && Changes(r, from, wall) && !IsActive(left, m, stamp)
            && (Decide(left, m, later) == Granted <==> stamp + HANDOVER_GRACE <= later) && !Changes(left, m, later)
  {
  }

  /**
   No lost config change: that the handshake never misses a change for the machine
   as which it pulled, in any interleaving, comes down to the order of the two reads.
   */
  lemma FreshAnswersExactly(p: Policy)
    ensures AlwaysFreshAnswer(p) <==> p.versionFirst
  {
    if p.versionFirst {
      forall es | Runs(p, START, es) ensures FreshAnswer(Final(p, START, es)) {
        RunsKeepRecorded(p, START, es);
      }
    } else {
      var es := DevicesFirstLosesAChange(p);
    }
  }

  /**
   For the machine that serves now, whoever it was when it pulled, the handshake is
   enough exactly when, besides, it never renews a lease that has run out, is never
   the target of a handover, and doesn't start to serve between the role and the
   version read of a pull. What is left are takeovers, and those owe a bump.
   */
  lemma FreshServingExactly(p: Policy)
    ensures AlwaysFreshServing(p) <==> p.versionFirst && Restricted(p)
  {
    if !p.versionFirst {
      var es := DevicesFirstLosesAChange(p);
    } else if p.renewals {
      var es := RenewalAfterLapseLosesTheDevices(p);
    } else if p.handovers {
      var es := HandoverLosesTheDevices(p);
    } else if p.startsInPull {
      var es := StartDuringPullLosesTheDevices(p);
    } else {
      forall es | Runs(p, START, es) ensures FreshServing(Final(p, START, es)) {
        RunsKeepRecorded(p, START, es);
      }
    }
  }
}
