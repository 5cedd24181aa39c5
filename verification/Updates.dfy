/**
 Collector self-update (collectorupdate/service.go, release.go): who is offered the
 bundled release, and how an attempt moves from requested to a result.
 */
module Updates {
  import opened Common
  import Versions
  import Window

  type CollectorId = nat

  /** Seconds. An attempt that goes quiet has failed after these. */
  const IN_PROGRESS_TIMEOUT: Time := 15 * 60
  const REQUESTED_TIMEOUT: Time := 24 * 60 * 60

  // ------------------------------------------------- the release

  datatype File = File(sha256: string, signature: string)

  datatype Release = Release(version: string, files: map<string, File>)

  datatype Instruction = Instruction(version: string, artefact: string, url: string, sha256: string, signature: string)

  predicate Signed(r: Release) {
    r.files != map[] && forall a <- r.files :: r.files[a].sha256 != "" && r.files[a].signature != ""
  }

  function ArtefactFor(platform: string): Option<string> {
    if platform == "linux/amd64" then Some("av-bridge-linux-amd64")
    else if platform == "linux/arm64" then Some("av-bridge-linux-arm64")
    else if platform == "windows/amd64" then Some("av-bridge-windows-amd64.exe")
    else None
  }

  /** What a bridge says about itself. One older than the updater doesn't say whether it's capable. */
  datatype Meta = Meta(version: string, platform: string, capable: Option<bool>, blocker: string)

  /** Why a collector can't be offered r, in the order in which the reasons are looked for; none if it can. */
  function Obstacle(r: Option<Release>, c: Meta): Option<string> {
    if r.None? then Some("no collector release is bundled with this cloud")
    else if !Signed(r.value) then Some("this cloud's collector release isn't signed")
    else if c.capable.None? || c.platform == "" then
      Some("this collector's version can't update itself; update it manually once")
    else if !c.capable.value then
      Some(if c.blocker != "" then c.blocker else "this collector can't update itself")
    else
      var art := ArtefactFor(c.platform);
      if art.None? || art.value !in r.value.files then Some("no collector build for " + c.platform)
      else if !Versions.IsNewer(r.value.version, c.version) then Some("up to date")
      else None
  }

  // ------------------------------------------------- a collector's row

  datatype UpdateState = Idle | Requested | InProgress | Succeeded | Failed | RolledBack

  /**
   The update columns of a collector, and what its bridge last said about itself.
   Nullable text is "" except where null matters.
   */
  datatype Row = Row(state: UpdateState, target: Option<string>, stateAt: Option<Time>, windowStart: Option<nat>,
                     version: Option<string>, platform: string, capable: Option<bool>, blocker: string)

  function Recorded(row: Row, meta: Meta): Row {
    row.(version := Some(meta.version), platform := meta.platform, capable := meta.capable, blocker := meta.blocker)
  }

  /** The row as Request sees it. */
  function View(row: Row): Meta {
    Meta(Coalesce(row.version, Some("")).value, row.platform, row.capable, row.blocker)
  }

  /** Compare and set. Only the state is compared. */
  function Moved(row: Row, from: UpdateState, to: UpdateState, now: Time): Row {
    if row.state == from then row.(state := to, stateAt := Some(now)) else row
  }

  /** Compare and set to an attempt at version. */
  function Taken(row: Row, from: UpdateState, version: string, now: Time): Row {
    if row.state == from then row.(state := InProgress, target := Some(version), stateAt := Some(now)) else row
  }

  /** What a poll is to do once it has read the row. */
  datatype Decision = Nothing | Settle(to: UpdateState) | Issue(version: string)

  /** The schedule leaves alone a release that has been tried and isn't installed, and keeps to the window. */
  predicate ScheduleAllows(r: Release, row: Row, local: Time) {
    && row.windowStart.Some?
    && (row.target == Some(r.version) ==> row.state == Idle || row.state == Succeeded)
    && Window.InWindow(local, row.windowStart.value)
  }

  function Decide(release: Option<Release>, row: Row, meta: Meta, local: Time): Decision {
    if row.state == InProgress && row.target == Some(meta.version) then Settle(Succeeded)
    else if Obstacle(release, meta).Some? then (if row.state == Requested then Settle(Failed) else Nothing)
    else if row.state == Requested || ScheduleAllows(release.value, row, local) then Issue(release.value.version)
    else Nothing
  }

  /** The row after a decision taken on reading state from is carried out. */
  function Carried(row: Row, from: UpdateState, d: Decision, now: Time): Row {
    match d
    case Nothing => row
    case Settle(to) => Moved(row, from, to, now)
    case Issue(version) => Taken(row, from, version, now)
  }

  /** A result that a bridge can report. */
  function Reported(state: string): Option<UpdateState> {
    if state == "restarting" then Some(InProgress)
    else if state == "succeeded" then Some(Succeeded)
    else if state == "failed" then Some(Failed)
    else if state == "rolled_back" then Some(RolledBack)
    else None
  }

  predicate InFlight(row: Row) {
    row.state == Requested || row.state == InProgress
  }

  /** An attempt at version that has no result yet. */
  predicate IsOpen(row: Row, version: string) {
    row.state in {Requested, InProgress} && row.target == Some(version)
  }

  function AfterReport(row: Row, next: UpdateState, version: string, now: Time): Row {
    if InFlight(row) && row.target == Some(version) then row.(state := next, stateAt := Some(now)) else row
  }

  function AfterRequest(row: Row, version: string, now: Time): Row {
    row.(state := Requested, target := Some(version), stateAt := Some(now))
  }

  /** Quiet for longer than the limit. */
  predicate Quiet(row: Row, limit: Time, now: Time) {
    row.stateAt.Some? && row.stateAt.value < now - limit
  }

  /** An attempt without a result: the collector may show that it's on its target. */
  function SweptAttempt(row: Row, now: Time): Row {
    if row.state == InProgress && Quiet(row, IN_PROGRESS_TIMEOUT, now) then
      row.(state := if row.version.Some? && row.version == row.target then Succeeded else Failed, stateAt := Some(now))
    else row
  }

  /** A press that no poll has answered. */
  function SweptPress(row: Row, now: Time): Row {
    if row.state == Requested && Quiet(row, REQUESTED_TIMEOUT, now) then
      row.(state := Failed, stateAt := Some(now))
    else row
  }

  function Swept(row: Row, now: Time): Row {
    SweptPress(SweptAttempt(row, now), now)
  }

  /**
   What a sweep has to make of a row: only an attempt that was quiet for more than a quarter of an hour
   and a press that was for more than a day come to an end.
   */
  predicate SweptRight(was: Row, row: Row, now: Time) {
    if was.state == InProgress && was.stateAt.Some? && was.stateAt.value + 15 * 60 < now then
      row == was.(state := if was.version.Some? && was.target == was.version then Succeeded else Failed,
                  stateAt := Some(now))
    else if was.state == Requested && was.stateAt.Some? && was.stateAt.value + 24 * 60 * 60 < now then
      row == was.(state := Failed, stateAt := Some(now))
    else
      row == was
  }

  /** The two statements come to that, and leave nothing quiet open. */
  lemma SweepDoesWhatItShould(row: Row, now: Time)
    ensures SweptRight(row, Swept(row, now), now)
    ensures Swept(row, now).state == InProgress ==> !Quiet(Swept(row, now), IN_PROGRESS_TIMEOUT, now)
    ensures Swept(row, now).state == Requested ==> !Quiet(Swept(row, now), REQUESTED_TIMEOUT, now)
  {
  }

  datatype RequestResult = Accepted | NoRows | ErrInFlight | ErrNotEligible(reason: string)

  // ------------------------------------------------- the service

  /** An instruction that a collector of meta's platform can use: the release's own signed build for it. */
  predicate ForPlatform(i: Instruction, release: Option<Release>, meta: Meta) {
    && release.Some? && ArtefactFor(meta.platform) == Some(i.artefact) && i.artefact in release.value.files
    && i == Instruction(release.value.version, i.artefact, "/public/downloads/" + i.artefact,
                        release.value.files[i.artefact].sha256, release.value.files[i.artefact].signature)
    && i.sha256 != "" && i.signature != ""
  }

  /** What an eligible collector is sent. */
  function InstructionFor(release: Option<Release>, meta: Meta): (i: Instruction)
    requires Obstacle(release, meta).None?
    ensures ForPlatform(i, release, meta)
  {
    var art := ArtefactFor(meta.platform).value;
    var f := release.value.files[art];
    Instruction(release.value.version, art, "/public/downloads/" + art, f.sha256, f.signature)
  }

  /** The choices of Offer, on the row it has read. */
  method Choose(release: Option<Release>, row: Row, meta: Meta, local: Time) returns (d: Decision)
    requires meta.version != ""
    ensures d == Decide(release, row, meta, local)
    ensures d.Issue? ==> Obstacle(release, meta).None?
  {
    var target := Coalesce(row.target, Some("")).value;
    if row.state == InProgress && target != "" && meta.version == target {
      return Settle(Succeeded);
    }
    var obstacle := Obstacle(release, meta);
    if row.state == Requested {
      if obstacle.Some? {
        return Settle(Failed);
      }
    } else if row.windowStart.Some? && obstacle.None? {
      VersionIsNotEmpty(release.value.version, meta.version);
      if target == release.value.version && row.state != Idle && row.state != Succeeded {
        return Nothing;
      }
      var open := Window.CheckWindow(local, row.windowStart.value);
      if !open {
        return Nothing;
      }
    } else {
      return Nothing;
    }
    return Issue(release.value.version);
  }

  lemma VersionIsNotEmpty(version: string, current: string)
    requires Versions.IsNewer(version, current)
    ensures version != ""
  {
  }

  class Service {
    const release: Option<Release>
    var rows: map<CollectorId, Row>
    /** Collectors whose poll has been woken. */
    var notified: seq<CollectorId>

    constructor (release: Option<Release>)
      ensures this.release == release && rows == map[] && notified == []
    {
      this.release := release;
      rows, notified := map[], [];
    }

    method SetState(c: CollectorId, from: UpdateState, to: UpdateState, now: Time)
      modifies this`rows
      ensures rows == if c in old(rows) then old(rows)[c := Moved(old(rows)[c], from, to, now)] else old(rows)
      ensures rows == if c in old(rows) && old(rows)[c].state == from
                      then old(rows)[c := old(rows)[c].(state := to, stateAt := Some(now))] else old(rows)
    {
      if c in rows && rows[c].state == from {
        rows := rows[c := rows[c].(state := to, stateAt := Some(now))];
      }
    }

    /** The statement that gives the attempt to one poll of those that read the same state. */
    method Take(c: CollectorId, from: UpdateState, version: string, now: Time) returns (taken: bool)
      modifies this`rows
      ensures taken <==> c in old(rows) && old(rows)[c].state == from
      ensures rows == if c in old(rows) then old(rows)[c := Taken(old(rows)[c], from, version, now)] else old(rows)
      ensures rows == if !taken then old(rows) else old(rows)[c :=
                old(rows)[c].(state := InProgress, target := Some(version), stateAt := Some(now))]
    {
      taken := c in rows && rows[c].state == from;
      if taken {
        rows := rows[c := rows[c].(state := InProgress, target := Some(version), stateAt := Some(now))];
      }
    }

    /**
     Takes in what a bridge said and returns an update for it to install, if there is one.
     local is the time of day at the collector's building.
     */
    method Offer(c: CollectorId, meta: Meta, now: Time, local: Time) returns (i: Option<Instruction>)
      modifies this`rows
      ensures meta.version == "" || meta.capable.None? || c !in old(rows) ==> rows == old(rows) && i == None
      ensures meta.version != "" && meta.capable.Some? && c in old(rows) ==>
                var row := old(rows)[c];
                var d := Decide(release, Recorded(row, meta), meta, local);
                && rows == old(rows)[c := Carried(Recorded(row, meta), row.state, d, now)]
                && (i.Some? <==> d.Issue?)
                && (d.Issue? ==> ForPlatform(i.value, release, meta))
                && var said := row.(version := Some(meta.version), platform := meta.platform,
                                    capable := meta.capable, blocker := meta.blocker);
                   rows == old(rows)[c := match d
                     case Nothing => said
                     case Settle(to) => said.(state := to, stateAt := Some(now))
                     case Issue(v) => said.(state := InProgress, target := Some(v), stateAt := Some(now))]
    {
      if meta.version == "" || meta.capable.None? || c !in rows {
        return None;
      }
      rows := rows[c := Recorded(rows[c], meta)];
      var row := rows[c];
      var d := Choose(release, row, meta, local);
      match d {
        case Nothing =>
          return None;
        case Settle(to) =>
          SetState(c, row.state, to, now);
          return None;
        case Issue(version) =>
          var taken := Take(c, row.state, version, now);
          var instruction := InstructionFor(release, meta);
          return if taken then Some(instruction) else None;
      }
    }

    /** Applies a result that the bridge reports for the attempt at version. */
    method Report(c: CollectorId, state: string, version: string, now: Time) returns (known: bool)
      modifies this`rows
      ensures known <==> state in {"restarting", "succeeded", "failed", "rolled_back"}
      ensures rows == if known && c in old(rows)
                      then old(rows)[c := AfterReport(old(rows)[c], Reported(state).value, version, now)] else old(rows)
      ensures c in old(rows) && IsOpen(old(rows)[c], version) ==>
                var was := old(rows)[c].(stateAt := Some(now));
                && (state == "restarting" ==> rows == old(rows)[c := was.(state := InProgress)])
                && (state == "succeeded" ==> rows == old(rows)[c := was.(state := Succeeded)])
                && (state == "failed" ==> rows == old(rows)[c := was.(state := Failed)])
                && (state == "rolled_back" ==> rows == old(rows)[c := was.(state := RolledBack)])
      ensures (c in old(rows) ==> !IsOpen(old(rows)[c], version)) || !known ==> rows == old(rows)
    {
      var next := Reported(state);
      if next.None? {
        return false;
      }
      if c in rows && rows[c].target == Some(version) && rows[c].state in {InProgress, Requested} {
        rows := rows[c := rows[c].(state := next.value, stateAt := Some(now))];
      }
      return true;
    }

    /** Settles attempts that went quiet: two statements over the whole table. */
    method Sweep(now: Time)
      modifies this`rows
      ensures rows == map c | c in old(rows) :: Swept(old(rows)[c], now)
      ensures forall c <- rows :: SweptRight(old(rows)[c], rows[c], now)
      ensures forall c <- rows :: rows[c].state == InProgress ==> !Quiet(rows[c], IN_PROGRESS_TIMEOUT, now)
      ensures forall c <- rows :: rows[c].state == Requested ==> !Quiet(rows[c], REQUESTED_TIMEOUT, now)
    {
      rows := map c | c in rows :: SweptAttempt(rows[c], now);
      rows := map c | c in rows :: SweptPress(rows[c], now);
      assert forall c <- rows :: rows[c] == Swept(old(rows)[c], now);
      forall c | c in rows ensures SweptRight(old(rows)[c], rows[c], now) {
        SweepDoesWhatItShould(old(rows)[c], now);
      }
    }

    /** An Update press in the portal. */
    method Request(c: CollectorId, now: Time) returns (r: RequestResult)
      modifies this
      ensures r == if c !in old(rows) then NoRows
                   else if InFlight(old(rows)[c]) then ErrInFlight
                   else if Obstacle(release, View(old(rows)[c])).Some?
                   then ErrNotEligible(Obstacle(release, View(old(rows)[c])).value)
                   else RequestResult.Accepted
      ensures r.Accepted? ==>
                && release.Some?
                && rows == old(rows)[c := AfterRequest(old(rows)[c], release.value.version, now)]
                && rows == old(rows)[c := old(rows)[c].(state := Requested, target := Some(release.value.version),
                                                        stateAt := Some(now))]
                && notified == old(notified) + [c]
      ensures !r.Accepted? ==> rows == old(rows) && notified == old(notified)
    {
      if c !in rows {
        return NoRows;
      }
      if rows[c].state == Requested || rows[c].state == InProgress {
        return ErrInFlight;
      }
      var obstacle := Obstacle(release, View(rows[c]));
      if obstacle.Some? {
        return ErrNotEligible(obstacle.value);
      }
      rows := rows[c := rows[c].(state := Requested, target := Some(release.value.version), stateAt := Some(now))];
      notified := notified + [c];
      return RequestResult.Accepted;
    }
  }

  // ------------------------------------------------- what one offer means

  /** The release can be put on a collector like this one, and would bring it forward. */
  predicate Installable(release: Option<Release>, meta: Meta) {
    && release.Some? && Signed(release.value) && meta.capable == Some(true)
    && ArtefactFor(meta.platform).Some? && ArtefactFor(meta.platform).value in release.value.files
    && Versions.IsNewer(release.value.version, meta.version)
  }

  lemma ObstacleExactly(release: Option<Release>, meta: Meta)
    ensures Obstacle(release, meta).None? <==> Installable(release, meta)
  {
    assert ArtefactFor("").None?;
  }

  /**
   When a poll is answered with an update: the release suits the collector and is newer than what
   it runs, it hasn't just come back on its target, and either somebody asked or it's the hour and
   the release is untried or was left behind after an install.
   */
  lemma OfferedExactly(release: Option<Release>, row: Row, meta: Meta, local: Time)
    requires row.windowStart.Some? ==> row.windowStart.value < Window.MINUTES_PER_DAY
    ensures Decide(release, row, meta, local).Issue?
            <==> Installable(release, meta) && !(row.state == InProgress && row.target == Some(meta.version))
                 && (row.state == Requested
                     || (&& row.windowStart.Some? && Window.OnCircle(local, row.windowStart.value)
                         && (row.target == Some(release.value.version) ==> row.state in {Idle, Succeeded})))
    ensures Decide(release, row, meta, local).Settle?
            <==> (row.state == InProgress && row.target == Some(meta.version))
                 || (row.state == Requested && !Installable(release, meta))
    ensures match Decide(release, row, meta, local)
            case Issue(version) => version == release.value.version
            case Settle(to) => to == if row.state == InProgress then Succeeded else Failed
            case Nothing => true
  {
    if row.windowStart.Some? {
      Window.TwoDaysMakeACircle(local, row.windowStart.value);
    }
    ObstacleExactly(release, meta);
  }

  /**
   What a bridge's report comes to, by the names it uses. Only an open attempt at the reported
   version is moved; no other name, version or state changes anything.
   */
  lemma ReportMeans(row: Row, version: string, now: Time)
    ensures Reported("restarting") == Some(InProgress) && Reported("succeeded") == Some(Succeeded)
    ensures Reported("failed") == Some(Failed) && Reported("rolled_back") == Some(RolledBack)
    ensures forall state: string ::
              Reported(state).Some? <==> state in {"restarting", "succeeded", "failed", "rolled_back"}
    ensures forall next: UpdateState :: next != row.state ==>
              (AfterReport(row, next, version, now).state == next <==> IsOpen(row, version))
    ensures forall next: UpdateState :: var after := AfterReport(row, next, version, now);
              after == row || after == row.(state := next, stateAt := Some(now))
  {
  }

  /** Why a press is refused, when there is anything to say: each reason, once none of those before it holds. */
  lemma ReasonsInOrder(r: Release, meta: Meta)
    ensures Obstacle(None, meta) == Some("no collector release is bundled with this cloud")
    ensures !Signed(r) ==> Obstacle(Some(r), meta) == Some("this cloud's collector release isn't signed")
    ensures Signed(r) ==>
              && (meta.capable.None? || meta.platform == "" ==>
                    Obstacle(Some(r), meta)
                    == Some("this collector's version can't update itself; update it manually once"))
              && (meta.capable == Some(false) && meta.platform != "" ==>
                    Obstacle(Some(r), meta) ==
                      Some(if meta.blocker == "" then "this collector can't update itself" else meta.blocker))
              && (meta.capable == Some(true) && meta.platform != "" ==>
                    if ArtefactFor(meta.platform).Some? && ArtefactFor(meta.platform).value in r.files
                    then Obstacle(Some(r), meta) ==
                         if Versions.IsNewer(r.version, meta.version) then None else Some("up to date")
                    else Obstacle(Some(r), meta) == Some("no collector build for " + meta.platform))
  {
  }

  /** The builds of a release, by the platform that a bridge gives. */
  lemma ArtefactNames(platform: string)
    ensures ArtefactFor("linux/amd64") == Some("av-bridge-linux-amd64")
    ensures ArtefactFor("linux/arm64") == Some("av-bridge-linux-arm64")
    ensures ArtefactFor("windows/amd64") == Some("av-bridge-windows-amd64.exe")
    ensures ArtefactFor(platform).Some? <==> platform in {"linux/amd64", "linux/arm64", "windows/amd64"}
  {
  }

  /** A collector on the bundled release, or past it, is neither offered it nor let in by Request. */
  lemma InstalledIsLeftAlone(release: Release, row: Row, meta: Meta, local: Time)
    requires Versions.Parsed(meta.version).Some? && !Versions.IsNewer(release.version, meta.version)
    ensures !Decide(Some(release), row, meta, local).Issue?
    ensures Obstacle(Some(release), View(Recorded(row, meta))).Some?
  {
    assert View(Recorded(row, meta)) == meta;
    ObstacleExactly(Some(release), meta);
    NoOfferAgainstAnObstacle(Some(release), row, meta, local);
  }

  lemma NoOfferAgainstAnObstacle(release: Option<Release>, row: Row, meta: Meta, local: Time)
    requires Obstacle(release, meta).Some?
    ensures !Decide(release, row, meta, local).Issue?
  {
  }
}
