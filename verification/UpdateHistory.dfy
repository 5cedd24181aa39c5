/**
 Runs of one collector's update row under a fixed release: polls, reports, Update
 presses, sweeps, and whatever else writes the columns that an offer depends on.
 A poll reads the row and carries out its decision as one step, or, when polls of
 the same collector overlap, as two with anything in between.
 */
module UpdateHistory {
  import opened Common
  import Versions
  import opened Updates

  type PollId = nat

  /** A poll between its read of the row and its write. */
  datatype Pending = Pending(from: UpdateState, meta: Meta, decision: Decision)

  /** What the log keeps: presses taken, offers made (asked for or by the schedule), and arrivals at succeeded. */
  datatype Mark =
    | Pressed
    | Asked(version: string, reported: string)
    | Scheduled(version: string, reported: string)
    | Done

  datatype State = State(row: Row, polls: map<PollId, Pending>, log: seq<Mark>)

  datatype Event =
    | Poll(meta: Meta, now: Time, local: Time)
    | Read(poll: PollId, meta: Meta, local: Time)
    | Write(poll: PollId, now: Time)
    | Report(state: string, version: string, now: Time)
    | Request(now: Time)
    | Sweep(now: Time)
    | Seen(version: string)
    | SetWindow(windowStart: Option<nat>)

  predicate Enabled(overlapping: bool, s: State, e: Event) {
    match e
    case Poll(meta, _, _) => meta.version != "" && meta.capable.Some?
    case Read(poll, meta, _) => overlapping && poll !in s.polls && meta.version != "" && meta.capable.Some?
    case Write(poll, _) => poll in s.polls
    case _ => true
  }

  /** Arrival at succeeded is marked, whatever brought it about. */
  function With(s: State, row: Row): State {
    if row.state == Succeeded && s.row.state != Succeeded then s.(row := row, log := s.log + [Done]) else s.(row := row)
  }

  /** A poll carries out its decision; if that's an offer and the row is still as it was read, the offer is logged. */
  function Carry(s: State, p: Pending, now: Time): State {
    match p.decision
    case Issue(version) =>
      if s.row.state != p.from then s
      else
        s.(row := Taken(s.row, p.from, version, now),
           log := s.log + [if p.from == Requested then Asked(version, p.meta.version)
                           else Scheduled(version, p.meta.version)])
    case _ => With(s, Carried(s.row, p.from, p.decision, now))
  }

  function Reading(release: Option<Release>, s: State, meta: Meta, local: Time): Pending {
    Pending(s.row.state, meta, Decide(release, Recorded(s.row, meta), meta, local))
  }

  function Step(release: Option<Release>, s: State, e: Event): State {
    match e
    case Poll(meta, now, local) => Carry(s.(row := Recorded(s.row, meta)), Reading(release, s, meta, local), now)
    case Read(poll, meta, local) =>
      s.(row := Recorded(s.row, meta), polls := s.polls[poll := Reading(release, s, meta, local)])
    case Write(poll, now) =>
      if poll in s.polls then Carry(s.(polls := s.polls - {poll}), s.polls[poll], now) else s
    case Report(state, version, now) =>
      if Reported(state).Some? then With(s, AfterReport(s.row, Reported(state).value, version, now)) else s
    case Request(now) =>
      if InFlight(s.row) || Obstacle(release, View(s.row)).Some? then s
      else s.(row := AfterRequest(s.row, release.value.version, now), log := s.log + [Pressed])
    case Sweep(now) => With(s, Swept(s.row, now))
    case Seen(version) => s.(row := s.row.(version := Some(version)))
    case SetWindow(w) => s.(row := s.row.(windowStart := w))
  }

  /**
   A poll in one step is what Service.Offer does to the row; in two, with nothing in
   between, it comes to the same.
   */
  lemma PollIsOffer(release: Option<Release>, s: State, poll: PollId, meta: Meta, now: Time, local: Time)
    requires poll !in s.polls
    ensures var whole := Step(release, s, Poll(meta, now, local));
            && whole.row == Carried(Recorded(s.row, meta), s.row.state,
                                    Decide(release, Recorded(s.row, meta), meta, local), now)
            && Step(release, Step(release, s, Read(poll, meta, local)), Write(poll, now)) == whole
  {
    assert s.polls[poll := Reading(release, s, meta, local)] - {poll} == s.polls;
  }

  predicate Runs(release: Option<Release>, overlapping: bool, s: State, es: seq<Event>)
    decreases |es|
  {
    es == [] || (Enabled(overlapping, s, es[0]) && Runs(release, overlapping, Step(release, s, es[0]), es[1..]))
  }

  function Final(release: Option<Release>, s: State, es: seq<Event>): State
    decreases |es|
  {
    if es == [] then s else Final(release, Step(release, s, es[0]), es[1..])
  }

  function Start(row: Row): State {
    State(row, map[], [])
  }

  // ------------------------------------------------- offers asked for

  function Presses(log: seq<Mark>): nat {
    if log == [] then 0 else Presses(log[..|log| - 1]) + if log[|log| - 1].Pressed? then 1 else 0
  }

  function AskedOffers(log: seq<Mark>): nat {
    if log == [] then 0 else AskedOffers(log[..|log| - 1]) + if log[|log| - 1].Asked? then 1 else 0
  }

  lemma CountMore(log: seq<Mark>, m: Mark)
    ensures Presses(log + [m]) == Presses(log) + if m.Pressed? then 1 else 0
    ensures AskedOffers(log + [m]) == AskedOffers(log) + if m.Asked? then 1 else 0
  {
    assert (log + [m])[..|log|] == log;
  }

  function One(b: bool): nat {
    if b then 1 else 0
  }

  /** Presses used up, and the one that is waiting, are among those taken; open is one that was waiting at the start. */
  predicate Paid(s: State, open: nat) {
    AskedOffers(s.log) + One(s.row.state == Requested) <= Presses(s.log) + open
  }

  predicate Offers(m: Mark) {
    m.Asked? || m.Scheduled?
  }

  /** A decision to offer brings the collector forward, to the release. */
  predicate Forward(release: Option<Release>, d: Decision, reported: string) {
    d.Issue? ==> release.Some? && d.version == release.value.version && Versions.IsNewer(d.version, reported)
  }

  ghost predicate AllForward(release: Option<Release>, s: State) {
    && (forall p <- s.polls :: Forward(release, s.polls[p].decision, s.polls[p].meta.version))
    && (forall m <- s.log :: Offers(m) ==> Forward(release, Issue(m.version), m.reported))
  }

  lemma {:induction false} DecisionsAreForward(release: Option<Release>, row: Row, meta: Meta, local: Time)
    ensures Forward(release, Decide(release, row, meta, local), meta.version)
  {
    ObstacleExactly(release, meta);
  }

  lemma WithKeepsPaid(s: State, row: Row, open: nat)
    requires Paid(s, open) && (row.state == Requested ==> s.row.state == Requested)
    ensures Paid(With(s, row), open)
  {
    CountMore(s.log, Done);
  }

  lemma CarryKeepsPaid(s: State, p: Pending, now: Time, open: nat)
    requires Paid(s, open) && (p.decision.Settle? ==> p.decision.to != Requested)
    ensures Paid(Carry(s, p, now), open)
  {
    CountMore(s.log, Done);
    if p.decision.Issue? {
      CountMore(s.log, Asked(p.decision.version, p.meta.version));
      CountMore(s.log, Scheduled(p.decision.version, p.meta.version));
    }
  }

  predicate Settles(s: State) {
    forall p <- s.polls :: s.polls[p].decision.Settle? ==> s.polls[p].decision.to != Requested
  }

  lemma ReadingSettles(release: Option<Release>, s: State, meta: Meta, local: Time)
    ensures var d := Reading(release, s, meta, local).decision; d.Settle? ==> d.to != Requested
  {
  }

  lemma ReadKeepsPaid(release: Option<Release>, s: State, e: Event, open: nat)
    requires Paid(s, open) && Settles(s) && (e.Poll? || e.Read?)
    ensures Paid(Step(release, s, e), open) && Settles(Step(release, s, e))
  {
    ReadingSettles(release, s, e.meta, e.local);
    if e.Poll? {
      CarryKeepsPaid(s.(row := Recorded(s.row, e.meta)), Reading(release, s, e.meta, e.local), e.now, open);
    }
  }

  lemma WriteKeepsPaid(release: Option<Release>, s: State, e: Event, open: nat)
    requires Paid(s, open) && Settles(s) && e.Write?
    ensures Paid(Step(release, s, e), open) && Settles(Step(release, s, e))
  {
    if e.poll in s.polls {
      CarryKeepsPaid(s.(polls := s.polls - {e.poll}), s.polls[e.poll], e.now, open);
    }
  }

  lemma ReportKeepsPaid(s: State, state: UpdateState, version: string, now: Time, open: nat)
    requires Paid(s, open) && state != Requested
    ensures Paid(With(s, AfterReport(s.row, state, version, now)), open)
  {
    WithKeepsPaid(s, AfterReport(s.row, state, version, now), open);
  }

  lemma SweepKeepsPaid(s: State, now: Time, open: nat)
    requires Paid(s, open)
    ensures Paid(With(s, Swept(s.row, now)), open)
  {
    WithKeepsPaid(s, Swept(s.row, now), open);
  }

  lemma PressKeepsPaid(s: State, row: Row, open: nat)
    requires Paid(s, open) && s.row.state != Requested
    ensures Paid(s.(row := row, log := s.log + [Pressed]), open)
  {
    CountMore(s.log, Pressed);
  }

  lemma RequestKeepsPaid(release: Option<Release>, s: State, now: Time, open: nat)
    requires Paid(s, open)
    ensures Paid(Step(release, s, Request(now)), open) && Step(release, s, Request(now)).polls == s.polls
  {
    if !InFlight(s.row) && Obstacle(release, View(s.row)).None? {
      PressKeepsPaid(s, AfterRequest(s.row, release.value.version, now), open);
    }
  }

  lemma StepKeepsPaid(release: Option<Release>, s: State, e: Event, open: nat)
    requires Paid(s, open) && Settles(s)
    ensures Paid(Step(release, s, e), open) && Settles(Step(release, s, e))
  {
    match e
    case Poll(_, _, _) => ReadKeepsPaid(release, s, e, open);
    case Read(_, _, _) => ReadKeepsPaid(release, s, e, open);
    case Write(_, _) => WriteKeepsPaid(release, s, e, open);
    case Report(state, version, now) =>
      if Reported(state).Some? {
        ReportKeepsPaid(s, Reported(state).value, version, now, open);
      }
    case Request(now) => RequestKeepsPaid(release, s, now, open);
    case Sweep(now) => SweepKeepsPaid(s, now, open);
    case Seen(_) =>
    case SetWindow(_) =>
  }

  lemma CarryKeepsForward(release: Option<Release>, s: State, p: Pending, now: Time)
    requires AllForward(release, s) && Forward(release, p.decision, p.meta.version)
    ensures AllForward(release, Carry(s, p, now))
  {
  }

  lemma StepKeepsForward(release: Option<Release>, s: State, e: Event)
    requires AllForward(release, s)
    ensures AllForward(release, Step(release, s, e))
  {
    match e
    case Poll(meta, now, local) =>
      DecisionsAreForward(release, Recorded(s.row, meta), meta, local);
      CarryKeepsForward(release, s.(row := Recorded(s.row, meta)), Reading(release, s, meta, local), now);
    case Read(_, meta, local) =>
      DecisionsAreForward(release, Recorded(s.row, meta), meta, local);
    case Write(poll, now) =>
      if poll in s.polls {
        CarryKeepsForward(release, s.(polls := s.polls - {poll}), s.polls[poll], now);
      }
    case _ =>
  }

  lemma {:induction false} RunsKeepPaid(release: Option<Release>, overlapping: bool, s: State, es: seq<Event>,
                                        open: nat)
    requires Runs(release, overlapping, s, es) && Paid(s, open) && Settles(s) && AllForward(release, s)
    ensures Paid(Final(release, s, es), open) && AllForward(release, Final(release, s, es))
    decreases |es|
  {
    if es != [] {
      StepKeepsPaid(release, s, es[0], open);
      StepKeepsForward(release, s, es[0]);
      RunsKeepPaid(release, overlapping, Step(release, s, es[0]), es[1..], open);
    }
  }

  /**
   In every run, overlapping polls or not: a press is answered with at most one offer,
   and every offer is of the bundled release to a collector that reported an older one.
   */
  lemma OffersArePaidForAndForward(release: Option<Release>, overlapping: bool, row: Row, es: seq<Event>)
    requires Runs(release, overlapping, Start(row), es)
    ensures var log := Final(release, Start(row), es).log;
            && AskedOffers(log) <= Presses(log) + One(row.state == Requested)
            && forall m <- log :: Offers(m) ==>
                 release.Some? && m.version == release.value.version && Versions.IsNewer(m.version, m.reported)
  {
    RunsKeepPaid(release, overlapping, Start(row), es, One(row.state == Requested));
    var log := Final(release, Start(row), es).log;
    forall m | m in log && Offers(m)
      ensures release.Some? && m.version == release.value.version && Versions.IsNewer(m.version, m.reported)
    {
      assert Forward(release, Issue(m.version), m.reported);
    }
  }

  // ------------------------------------------------- offers by the schedule

  /** Between any two offers by the schedule, the collector arrived at succeeded. */
  ghost predicate Spaced(log: seq<Mark>) {
    forall i, j :: 0 <= i < j < |log| && log[i].Scheduled? && log[j].Scheduled? ==>
      exists k :: i < k < j && log[k].Done?
  }

  /** The schedule has made an offer that hasn't come to succeeded. */
  predicate Owing(log: seq<Mark>) {
    log != [] && (log[|log| - 1].Scheduled? || (!log[|log| - 1].Done? && Owing(log[..|log| - 1])))
  }

  lemma {:induction false} NotOwing(log: seq<Mark>, i: nat)
    requires !Owing(log) && i < |log| && log[i].Scheduled?
    ensures exists k :: i < k < |log| && log[k].Done?
    decreases |log|
  {
    if !log[|log| - 1].Done? {
      NotOwing(log[..|log| - 1], i);
    }
  }

  lemma SpacedMore(log: seq<Mark>, m: Mark)
    requires Spaced(log) && (m.Scheduled? ==> !Owing(log))
    ensures Spaced(log + [m]) && (Owing(log + [m]) <==> m.Scheduled? || (Owing(log) && !m.Done?))
  {
    var l := log + [m];
    assert l[..|log|] == log;
    forall i, j | 0 <= i < j < |l| && l[i].Scheduled? && l[j].Scheduled? ensures exists k :: i < k < j && l[k].Done? {
      if j == |log| {
        NotOwing(log, i);
        var k :| i < k < |log| && log[k].Done?;
        assert l[k].Done?;
      } else {
        var k :| i < k < j && log[k].Done?;
        assert l[k].Done?;
      }
    }
  }

  /** There is a kind of collector that the release can be offered to. */
  ghost predicate Offerable(release: Option<Release>) {
    exists meta: Meta :: Obstacle(release, meta).None?
  }

  predicate TargetsRelease(release: Option<Release>, row: Row) {
    release.Some? && row.target == Some(release.value.version)
  }

  predicate Settled(row: Row) {
    row.state == Idle || row.state == Succeeded
  }

  /** No attempt at another release is open, or ended badly. */
  predicate Clean(release: Option<Release>, row: Row) {
    Settled(row) || TargetsRelease(release, row)
  }

  /** Polls under way decided from a state that an offer leaves for good, until the next arrival at succeeded. */
  predicate PollsAreSafe(s: State) {
    forall p <- s.polls ::
      s.polls[p].decision.Issue? ==> s.polls[p].from in {Requested, Idle, Succeeded}
  }

  predicate PollsTarget(release: Option<Release>, s: State) {
    forall p <- s.polls :: Targeted(release, s.polls[p])
  }

  predicate Targeted(release: Option<Release>, p: Pending) {
    match p.decision
    case Nothing => true
    case Settle(to) => to in {Succeeded, Failed} && p.from in {InProgress, Requested}
    case Issue(version) => release.Some? && version == release.value.version
  }

  ghost predicate Tidy(release: Option<Release>, s: State) {
    Spaced(s.log) && (Owing(s.log) ==> TargetsRelease(release, s.row) && !Settled(s.row))
  }

  lemma WithKeepsTidy(release: Option<Release>, s: State, row: Row)
    requires Tidy(release, s) && row.target == s.row.target
    requires row.state != s.row.state ==> InFlight(s.row) && row.state != Idle
    ensures Tidy(release, With(s, row))
    ensures Clean(release, s.row) ==> Clean(release, row)
  {
    SpacedMore(s.log, Done);
  }

  lemma CarryKeepsTidy(release: Option<Release>, s: State, p: Pending, now: Time)
    requires Tidy(release, s) && Targeted(release, p)
    requires p.decision.Issue? && p.from != Requested && s.row.state == p.from ==>
             Settled(s.row) || !TargetsRelease(release, s.row)
    ensures Tidy(release, Carry(s, p, now))
    ensures Clean(release, s.row) ==> Clean(release, Carry(s, p, now).row)
  {
    match p.decision
    case Issue(version) =>
      if s.row.state == p.from {
        var m := if p.from == Requested then Asked(version, p.meta.version) else Scheduled(version, p.meta.version);
        SpacedMore(s.log, m);
      }
    case _ =>
      WithKeepsTidy(release, s, Carried(s.row, p.from, p.decision, now));
  }

  /** What a run keeps when offers by the schedule are to stay apart. */
  ghost predicate Good(release: Option<Release>, overlapping: bool, s: State) {
    && Tidy(release, s) && PollsTarget(release, s)
    && (if overlapping then (Offerable(release) ==> Clean(release, s.row)) && PollsAreSafe(s) else s.polls == map[])
  }

  lemma ReadingIsTargeted(release: Option<Release>, s: State, meta: Meta, local: Time)
    ensures var p := Reading(release, s, meta, local);
            && Targeted(release, p)
            && (p.decision.Issue? ==> Offerable(release))
            && (p.decision.Issue? && p.from != Requested ==> Settled(s.row) || !TargetsRelease(release, s.row))
  {
  }

  /** A pending poll that decided on the row as it is. */
  predicate Fits(release: Option<Release>, s: State, p: Pending) {
    && p.from == s.row.state && Targeted(release, p)
    && (p.decision.Issue? && p.from != Requested ==> Settled(s.row) || !TargetsRelease(release, s.row))
  }

  lemma AddedPollKeepsGood(release: Option<Release>, s: State, meta: Meta, poll: PollId, p: Pending)
    requires Good(release, true, s) && Fits(release, s, p) && (p.decision.Issue? ==> Offerable(release))
    ensures Good(release, true, s.(row := Recorded(s.row, meta), polls := s.polls[poll := p]))
  {
  }

  lemma CarriedPollKeepsGood(release: Option<Release>, overlapping: bool, s: State, meta: Meta, p: Pending, now: Time)
    requires Good(release, overlapping, s) && Fits(release, s, p)
    ensures Good(release, overlapping, Carry(s.(row := Recorded(s.row, meta)), p, now))
  {
    CarryKeepsTidy(release, s.(row := Recorded(s.row, meta)), p, now);
  }

  lemma ReadKeepsGood(release: Option<Release>, overlapping: bool, s: State, e: Event)
    requires Good(release, overlapping, s) && Enabled(overlapping, s, e) && (e.Poll? || e.Read?)
    ensures Good(release, overlapping, Step(release, s, e))
  {
    var p := Reading(release, s, e.meta, e.local);
    ReadingIsTargeted(release, s, e.meta, e.local);
    if e.Poll? {
      CarriedPollKeepsGood(release, overlapping, s, e.meta, p, e.now);
    } else {
      AddedPollKeepsGood(release, s, e.meta, e.poll, p);
    }
  }

  lemma WriteKeepsGood(release: Option<Release>, overlapping: bool, s: State, e: Event)
    requires Good(release, overlapping, s) && Enabled(overlapping, s, e) && e.Write?
    ensures Good(release, overlapping, Step(release, s, e))
  {
    CarryKeepsTidy(release, s.(polls := s.polls - {e.poll}), s.polls[e.poll], e.now);
  }

  lemma WithKeepsGood(release: Option<Release>, overlapping: bool, s: State, row: Row)
    requires Good(release, overlapping, s) && row.target == s.row.target
    requires row.state != s.row.state ==> InFlight(s.row) && row.state != Idle
    ensures Good(release, overlapping, With(s, row))
  {
    WithKeepsTidy(release, s, row);
  }

  lemma PressKeepsGood(release: Option<Release>, overlapping: bool, s: State, row: Row)
    requires Good(release, overlapping, s) && TargetsRelease(release, row) && row.state == Requested
    ensures Good(release, overlapping, s.(row := row, log := s.log + [Pressed]))
  {
    SpacedMore(s.log, Pressed);
  }

  lemma RequestKeepsGood(release: Option<Release>, overlapping: bool, s: State, now: Time)
    requires Good(release, overlapping, s)
    ensures Good(release, overlapping, Step(release, s, Request(now)))
  {
    if !InFlight(s.row) && Obstacle(release, View(s.row)).None? {
      PressKeepsGood(release, overlapping, s, AfterRequest(s.row, release.value.version, now));
    }
  }

  lemma StepKeepsGood(release: Option<Release>, overlapping: bool, s: State, e: Event)
    requires Good(release, overlapping, s) && Enabled(overlapping, s, e)
    ensures Good(release, overlapping, Step(release, s, e))
  {
    match e
    case Poll(_, _, _) => ReadKeepsGood(release, overlapping, s, e);
    case Read(_, _, _) => ReadKeepsGood(release, overlapping, s, e);
    case Write(_, _) => WriteKeepsGood(release, overlapping, s, e);
    case Report(state, version, now) =>
      if Reported(state).Some? {
        WithKeepsGood(release, overlapping, s, AfterReport(s.row, Reported(state).value, version, now));
      }
    case Request(now) => RequestKeepsGood(release, overlapping, s, now);
    case Sweep(now) => WithKeepsGood(release, overlapping, s, Swept(s.row, now));
    case Seen(_) =>
    case SetWindow(_) =>
  }

  lemma {:induction false} RunsKeepGood(release: Option<Release>, overlapping: bool, s: State, es: seq<Event>)
    requires Runs(release, overlapping, s, es) && Good(release, overlapping, s)
    ensures Good(release, overlapping, Final(release, s, es))
    decreases |es|
  {
    if es != [] {
      StepKeepsGood(release, overlapping, s, es[0]);
      RunsKeepGood(release, overlapping, Step(release, s, es[0]), es[1..]);
    }
  }

  // ------------------------------------------------- when the schedule offers twice

  lemma Cons(release: Option<Release>, s: State, e: Event, es: seq<Event>)
    requires Enabled(true, s, e) && Runs(release, true, Step(release, s, e), es)
    ensures Runs(release, true, s, [e] + es) && Final(release, s, [e] + es) == Final(release, Step(release, s, e), es)
  {
    assert ([e] + es)[1..] == es;
  }

  /** Runs without overlap are among those with it; here, e is any one step. */
  lemma Last(release: Option<Release>, s: State, e: Event)
    requires Enabled(true, s, e)
    ensures Runs(release, true, s, [e]) && Final(release, s, [e]) == Step(release, s, e)
  {
    Cons(release, s, e, []);
    assert [e] + [] == [e];
  }

  /** A collector that the release suits is still suited when it runs no version at all. */
  lemma SuitsOlder(release: Option<Release>, meta: Meta, v: string)
    requires Installable(release, meta) && Versions.Parsed(v).None?
    ensures Installable(release, meta.(version := v))
  {
  }

  lemma OtherVersion(other: Option<string>) returns (v: string)
    ensures v != "" && Versions.Parsed(v).None? && Some(v) != other
  {
    v := if other == Some("dev") then "x" else "dev";
    NotAVersion(v);
  }

  /** A report about a collector that the release suits, on a version that isn't the given one. */
  lemma Candidate(release: Option<Release>, other: Option<string>) returns (meta: Meta)
    requires Offerable(release)
    ensures Obstacle(release, meta).None? && meta.version != "" && meta.capable.Some? && Some(meta.version) != other
  {
    var v := OtherVersion(other);
    var m: Meta :| Obstacle(release, m).None?;
    ObstacleExactly(release, m);
    SuitsOlder(release, m, v);
    meta := m.(version := v);
    ObstacleExactly(release, meta);
  }

  lemma NotAVersion(v: string)
    requires v == "dev" || v == "x"
    ensures Versions.Parsed(v).None?
  {
  }

  /** Two polls decided to offer on what they read; a report in between takes the row back to where it was. */
  lemma BothWrite(release: Option<Release>, s: State, p: Pending, q: Pending, version: string) returns (es: seq<Event>)
    requires s.polls == map[0 := p, 1 := q] && s.log == []
    requires p.from == q.from == s.row.state && p.from in {InProgress, Failed, RolledBack}
    requires p.decision == q.decision == Issue(version)
    ensures Runs(release, true, s, es) && !Spaced(Final(release, s, es).log)
  {
    var name :=
      if s.row.state == Failed then "failed" else if s.row.state == RolledBack then "rolled_back" else "restarting";
    assert Reported(name) == Some(s.row.state);
    var s1 := Step(release, s, Write(0, 0));
    var s2 := Step(release, s1, Report(name, version, 0));
    var s3 := Step(release, s2, Write(1, 0));
    var log := [Scheduled(version, p.meta.version), Scheduled(version, q.meta.version)];
    assert s3.log == log && log[0].Scheduled? && log[1].Scheduled?;
    Last(release, s2, Write(1, 0));
    Cons(release, s1, Report(name, version, 0), [Write(1, 0)]);
    es := [Report(name, version, 0)] + [Write(1, 0)];
    Cons(release, s, Write(0, 0), es);
    es := [Write(0, 0)] + es;
  }

  lemma ScheduleOffers(release: Option<Release>, row: Row, meta: Meta)
    requires Obstacle(release, meta).None? && Some(meta.version) != row.target
    requires !Clean(release, row) && row.windowStart == Some(0)
    ensures Decide(release, row, meta, 0) == Issue(release.value.version)
  {
    assert Window.Within(0, 0, 0);
  }

  lemma TwoReads(release: Option<Release>, s: State, meta: Meta, es: seq<Event>) returns (all: seq<Event>)
    requires s.polls == map[] && meta.version != "" && meta.capable.Some?
    requires var p := Reading(release, s, meta, 0);
             var both := s.(row := Recorded(s.row, meta), polls := map[0 := p, 1 := p]);
             Runs(release, true, both, es) && !Spaced(Final(release, both, es).log)
    ensures Runs(release, true, s, all) && !Spaced(Final(release, s, all).log)
  {
    var s1 := Step(release, s, Read(0, meta, 0));
    var s2 := Step(release, s1, Read(1, meta, 0));
    var p := Reading(release, s, meta, 0);
    assert Recorded(Recorded(s.row, meta), meta) == Recorded(s.row, meta);
    assert s2.polls == map[0 := p, 1 := p];
    Cons(release, s1, Read(1, meta, 0), es);
    all := [Read(1, meta, 0)] + es;
    Cons(release, s, Read(0, meta, 0), all);
    all := [Read(0, meta, 0)] + all;
  }

  lemma OpenWindowOffersTwice(release: Option<Release>, row: Row, meta: Meta) returns (es: seq<Event>)
    requires row.windowStart == Some(0) && row.state in {InProgress, Failed, RolledBack}
             && !TargetsRelease(release, row)
    requires Obstacle(release, meta).None? && meta.version != "" && meta.capable.Some?
             && Some(meta.version) != row.target
    ensures Runs(release, true, Start(row), es) && !Spaced(Final(release, Start(row), es).log)
  {
    var p := Reading(release, Start(row), meta, 0);
    ScheduleOffers(release, Recorded(row, meta), meta);
    es := BothWrite(release, State(Recorded(row, meta), map[0 := p, 1 := p], []), p, p, release.value.version);
    es := TwoReads(release, Start(row), meta, es);
  }

  /** Two polls read the same row, an attempt at an older release that failed, was rolled back or is still open. */
  lemma TwoPollsOfferTwice(release: Option<Release>, row: Row) returns (es: seq<Event>)
    requires Offerable(release) && !Clean(release, row) && row.state != Requested
    ensures Runs(release, true, Start(row), es) && !Spaced(Final(release, Start(row), es).log)
  {
    var meta := Candidate(release, row.target);
    var e := SetWindow(Some(0));
    es := OpenWindowOffersTwice(release, row.(windowStart := Some(0)), meta);
    Cons(release, Start(row), e, es);
    es := [e] + es;
  }

  lemma PressFails(release: Option<Release>, row: Row, meta: Meta)
    requires row.state == Requested && meta.capable == Some(false)
    ensures Step(release, Start(row), Poll(meta, 0, 0))
            == Start(Recorded(row, meta).(state := Failed, stateAt := Some(0)))
  {
    assert Obstacle(release, meta).Some?;
  }

  /** A press for an older release fails first, because the collector can't update itself just now. */
  lemma FailedPressOffersTwice(release: Option<Release>, row: Row, meta: Meta) returns (es: seq<Event>)
    requires Offerable(release) && !Clean(release, row) && row.state == Requested
    requires meta.capable == Some(false) && meta.version != ""
    ensures Runs(release, true, Start(row), es) && !Spaced(Final(release, Start(row), es).log)
  {
    PressFails(release, row, meta);
    es := TwoPollsOfferTwice(release, Recorded(row, meta).(state := Failed, stateAt := Some(0)));
    Cons(release, Start(row), Poll(meta, 0, 0), es);
    es := [Poll(meta, 0, 0)] + es;
  }

  ghost predicate AlwaysSpaced(release: Option<Release>, overlapping: bool, row: Row) {
    forall es :: Runs(release, overlapping, Start(row), es) ==> Spaced(Final(release, Start(row), es).log)
  }

  /**
   Once per release: between two offers by the schedule the collector arrives at succeeded, in
   every run, exactly when polls of one collector don't overlap, or the release suits nobody, or
   the row doesn't carry an attempt at another release that is open or ended badly. The write of
   an offer compares the state alone, so such a row lets a second poll through.
   */
  lemma OncePerReleaseExactly(release: Option<Release>, overlapping: bool, row: Row)
    ensures AlwaysSpaced(release, overlapping, row) <==> !overlapping || !Offerable(release) || Clean(release, row)
  {
    if !overlapping || !Offerable(release) || Clean(release, row) {
      forall es | Runs(release, overlapping, Start(row), es) ensures Spaced(Final(release, Start(row), es).log) {
        RunsKeepGood(release, overlapping, Start(row), es);
      }
    } else if row.state == Requested {
      var es := FailedPressOffersTwice(release, row, Meta("dev", "", Some(false), ""));
    } else {
      var es := TwoPollsOfferTwice(release, row);
    }
  }

  // ------------------------------------------------- results stand

  /** Polls under way settle open attempts only. */
  predicate SettlesOpen(s: State) {
    forall p <- s.polls :: s.polls[p].decision.Settle? ==> s.polls[p].from in {Requested, InProgress}
  }

  lemma CarryKeepsResult(s: State, p: Pending, now: Time)
    requires s.row.state == Succeeded && (p.decision.Settle? ==> p.from in {Requested, InProgress})
    ensures s.log <= Carry(s, p, now).log && Carry(s, p, now).polls == s.polls
    ensures Carry(s, p, now).log == s.log ==> Carry(s, p, now).row.state == Succeeded
  {
  }

  lemma CarryExtendsLog(s: State, p: Pending, now: Time)
    ensures s.log <= Carry(s, p, now).log && Carry(s, p, now).polls == s.polls
  {
  }

  lemma StepKeepsSettlesOpen(release: Option<Release>, s: State, e: Event)
    requires SettlesOpen(s)
    ensures SettlesOpen(Step(release, s, e)) && s.log <= Step(release, s, e).log
  {
    match e
    case Poll(meta, now, local) =>
      CarryExtendsLog(s.(row := Recorded(s.row, meta)), Reading(release, s, meta, local), now);
    case Write(poll, now) =>
      if poll in s.polls {
        CarryExtendsLog(s.(polls := s.polls - {poll}), s.polls[poll], now);
      }
    case _ =>
  }

  /** What leaves succeeded is an offer or a press, and both are in the log. */
  lemma StepKeepsSuccess(release: Option<Release>, s: State, e: Event)
    requires SettlesOpen(s) && s.row.state == Succeeded && Step(release, s, e).log == s.log
    ensures Step(release, s, e).row.state == Succeeded
  {
    match e
    case Poll(meta, now, local) =>
      CarryKeepsResult(s.(row := Recorded(s.row, meta)), Reading(release, s, meta, local), now);
    case Write(poll, now) =>
      if poll in s.polls {
        CarryKeepsResult(s.(polls := s.polls - {poll}), s.polls[poll], now);
      }
    case _ =>
  }

  lemma {:induction false} LogGrows(release: Option<Release>, s: State, es: seq<Event>)
    requires SettlesOpen(s)
    ensures s.log <= Final(release, s, es).log && SettlesOpen(Final(release, s, es))
    decreases |es|
  {
    if es != [] {
      StepKeepsSettlesOpen(release, s, es[0]);
      LogGrows(release, Step(release, s, es[0]), es[1..]);
    }
  }

  lemma {:induction false} SuccessStays(release: Option<Release>, s: State, es: seq<Event>)
    requires SettlesOpen(s) && s.row.state == Succeeded && Final(release, s, es).log == s.log
    ensures Final(release, s, es).row.state == Succeeded
    decreases |es|
  {
    if es != [] {
      StepKeepsSettlesOpen(release, s, es[0]);
      LogGrows(release, Step(release, s, es[0]), es[1..]);
      StepKeepsSuccess(release, s, es[0]);
      SuccessStays(release, Step(release, s, es[0]), es[1..]);
    }
  }

  /**
   A success that is reported stands. In every run, overlapping polls or not, the report "succeeded"
   for the version of the attempt that is open puts the row at succeeded and an arrival in the log,
   and there the row stays until the log shows another offer or another press.
   */
  lemma SuccessStands(release: Option<Release>, row: Row, before: seq<Event>, version: string, now: Time,
                      after: seq<Event>)
    requires IsOpen(Final(release, Start(row), before).row, version)
    ensures var s := Final(release, Start(row), before);
            var done := Step(release, s, Report("succeeded", version, now));
            && done.row.state == Succeeded && done.row.stateAt == Some(now) && done.log == s.log + [Done]
            && done.log <= Final(release, done, after).log
            && (Final(release, done, after).log == done.log ==> Final(release, done, after).row.state == Succeeded)
  {
    LogGrows(release, Start(row), before);
    var s := Final(release, Start(row), before);
    var done := Step(release, s, Report("succeeded", version, now));
    ReportMeans(s.row, version, now);
    LogGrows(release, done, after);
    if Final(release, done, after).log == done.log {
      SuccessStays(release, done, after);
    }
  }

  /** The last attempt was at the bundled release, and ended badly. */
  predicate Burnt(release: Option<Release>, s: State) {
    TargetsRelease(release, s.row) && s.row.state in {Failed, RolledBack} && s.polls == map[]
  }

  lemma BurntStep(release: Option<Release>, s: State, e: Event)
    requires Burnt(release, s) && Enabled(false, s, e) && !e.Request?
    ensures Burnt(release, Step(release, s, e)) && Step(release, s, e).log == s.log
    ensures Step(release, s, e).row.state == s.row.state
  {
    match e
    case Poll(meta, now, local) =>
      assert !Decide(release, Recorded(s.row, meta), meta, local).Issue?;
    case _ =>
  }

  lemma {:induction false} BurntStays(release: Option<Release>, s: State, es: seq<Event>)
    requires Burnt(release, s) && Runs(release, false, s, es) && forall e <- es :: !e.Request?
    ensures var f := Final(release, s, es);
            Burnt(release, f) && f.log == s.log && f.row.state == s.row.state
    decreases |es|
  {
    if es != [] {
      BurntStep(release, s, es[0]);
      BurntStays(release, Step(release, s, es[0]), es[1..]);
    }
  }

  /**
   A release that failed is left alone. Once a bridge has reported "failed" or "rolled_back" for an
   attempt at the bundled release, no run without a press offers it again, however often the
   collector polls in its window: the row keeps that result. (Polls that don't overlap.)
   */
  lemma FailedReleaseWaitsForAPress(release: Option<Release>, s: State, name: string, now: Time, es: seq<Event>)
    requires release.Some? && IsOpen(s.row, release.value.version) && s.polls == map[]
    requires name == "failed" || name == "rolled_back"
    requires Runs(release, false, Step(release, s, Report(name, release.value.version, now)), es)
    requires forall e <- es :: !e.Request?
    ensures var f := Final(release, Step(release, s, Report(name, release.value.version, now)), es);
            && f.row.state == (if name == "failed" then Failed else RolledBack)
            && f.log == s.log
  {
    ReportMeans(s.row, release.value.version, now);
    BurntStays(release, Step(release, s, Report(name, release.value.version, now)), es);
  }
}
