# Verified model of the AV bridge cloud's protocols

The cloud side of the AV bridge runs several small protocols over one database: a warm-standby lease between
the collectors of a group, a command queue with long polls, nightly power runs, ingest and device moves, a
config handshake, collector self-updates and a routine executor. This project models them in Dafny and proves
what they promise, over whole runs, for all inputs. Where the code keeps a promise only under a condition, the
project proves that condition exactly: the promise holds if and only if it does, and a run that breaks the
promise is built whenever it doesn't.

`dafny verify dfyconfig.toml` checks everything.

## How the model is laid out

Each SQL statement or transaction is one step. What the services update in place is a class whose methods are
proved against functions on plain values (`GroupRow`, `Queue`, `Scheduler`, `Store`, `Collectors`, `Service`,
`Run`, and the bridge's `Controller`); the theorems about whole runs are about those functions, with lists of
events for everything that may interleave. Clocks, replies, notification order and the outcome of a dispatched
step are parameters.

| file | what it holds |
|---|---|
| Common.dfy | optional values, instants, SQL's GREATEST and COALESCE |
| Lease.dfy, LeaseHistory.dfy, Fence.dfy | the lease row; histories of one row; the row together with the collectors' fences |
| CommandQueue.dfy, CommandLife.dfy, CommandEnds.dfy, Wakeup.dfy | the queue and the sweeper; runs of them; how long a command lasts; long polls and notifications |
| ScheduleDates.dfy, PowerRun.dfy, NightHistory.dfy, NightEnds.dfy | one-off dates and the power-on search; the scheduler; whole nights; which turns do what, and how runs end |
| DeviceTable.dfy, Registers.dfy, FleetHistory.dfy | upserts and moves; late and repeated readings; histories of both |
| ConfigSync.dfy | config pulls, the lease and the resync flag |
| Text.dfy, Versions.dfy, Window.dfy, Updates.dfy, UpdateHistory.dfy | text helpers; version strings; the update window; the update service; runs of it |
| Executor.dfy | the routine executor |

## What the proofs found

In each of these the model follows the code, and the code and what is written about it differ, or the promise
needs a condition.

- Fence. The lease's promise that the old holder has always stopped holds exactly when the 20 s safety margin
  covers reply delay, check interval and clock skew, when every step-down is heard of within the 10 s grace, and
  when no machine polls devices that the fence doesn't know of. The code rules out none of these: the collector's
  own poll timeout is 35 s and a step-down reply can be lost; a machine whose configuration file lists devices
  starts them at once, and pulls its config as it starts, while it doesn't yet know it is grouped, so `Check` never
  fences it; and a pull reads the serving gate some time before it starts its devices, so a fence or a standby
  reply that falls in between leaves them running (`SafeExactly`, `DefaultsAreNotEnough`).
- Long polls. A claim may use up its whole batch on commands of deleted devices and come back empty; a poll
  whose re-check does so sleeps although work is pending (`WakeupsAreSafeExactly`). Commands failed with
  bridge_timeout send no completion notice (`TimedOutWaiterIsNotWoken`).
- Claim cap. Nothing checks the cap when a command is claimed, so a configured cap below one isn't kept (`CapKeptExactly`).
- Nightly dates. The scheduler loads two days back, so a run that waits through a longer closure forgets the
  closure's beginning, takes the closed days for open ones and fails its run as having missed power-on
  (`LoadedIsEnoughExactly`, `LoadedIsEnoughInUseExactly`, `ForgottenClosureFailsTheRun`, and, for a room that is shut
  from one Friday to the Monday after next, `ClosedWeekFailsTheRun`). The comment at
  nightly/schedule_dates.go:183-185 expects later ticks to see more days; the search is anchored at the switch-off, so
  they don't (`LaterDatesDontMatter`).
- Long closures. With the dates of each day, a room that has a weekday never waits for good: a closure of a fortnight
  or more ends in a failed run, which frees the room (`LongWaitsFail`, `LongWaitFreesTheRoom`). A room that is in use
  by single dates alone does: a run that finds no power-on in the fortnight after its switch-off, or none that isn't
  forgotten yet, stays off and keeps its room from ever starting another (`NeverPowersOnExactly`,
  `OffForGoodExactly`, `StuckRunBlocksTheRoom`).
- Exclusions. A room's exclusion ends by the UTC day, not by the room's own, so outside UTC it ends early or late
  (`ExclusionIsLocalExactly`).
- Endings. With expiry on and regular sweeps every command is over by a deadline; with expiry off, one that nobody
  claims stays pending for good (`EveryCommandEnds`, `UnclaimedStaysPending`).
- Tags. An edit that saves the tags unchanged isn't stamped, so an older reading may still replace them
  (`EditsProtectExactly`). Two readings of one instant that disagree leave whichever comes last (`TwoReadingsCommuteExactly`).
- Moves. A command that was claimed before its device moved goes back to pending on the old collector when its
  claim goes stale (`RequeuedCommandsStayBehind`). A submit reads its device's collector in one statement and inserts
  in another with no lock between, so a move in between leaves a command on the old collector that was never
  claimed (`UnclaimedCommandsFollowExactly`).
- Config pulls. "No resync" is not enough for a serving machine to have its devices: a lease change commits first
  and bumps the version later; a takeover between a pull's role and version reads, a late renewal by the holder,
  and every handover whose target pulls during the grace start a machine that was last answered as a standby
  without a bump after that answer. A handover bumps at the step-down alone; its target starts by time, and its
  first grant counts as a renewal (`FreshServingExactly`, `StaleExactlyAfterAStandbysAnswer`). The collector makes up
  for it with a pull of its own when it turns active.
- Updates. The write of an offer compares the state but not the target, so two overlapping polls of a collector
  whose last attempt was at an older release, and is open or ended badly, both get the offer: the schedule then
  offers one release twice (`OncePerReleaseExactly`).
- Executor. A cancelled run is meant to be marked failed (nightly/executor.go:277-281), but the statement that would do it
  is sent under the cancelled context and isn't carried out (`ShutdownLeavesTheRunOpen`). A retry count too large
  for an int means no retries, not ten (`PrintedRetriesCount`).

## Model

| member | source | states |
|---|---|---|
| Lease.GroupRow.Acquire | av-bridge-cloud/internal/collectorha/lease.go:79-169 | One Acquire renews, takes over, steps down or declines: which of them, in terms of holder, handover, grace and expiry alone; all four lease columns afterwards, written out; the group's version is bumped and the group woken exactly when the holder is another one; an ungrouped collector is active and nothing is touched |
| Lease.GroupRow.RequestHandover | av-bridge-cloud/internal/collectorha/lease.go:254-295 | The two refusals, the handover target an accepted request leaves (none when the machine already holds a running lease) with every other column kept, and that the group is notified exactly when a target is set |
| Lease.ActiveMachinesRenew | av-bridge-cloud/internal/collectorha/lease.go:230-241 | A machine that IsActive names is granted its next Acquire exactly when no handover away from it is pending, and every other machine is declined until the lease runs out |
| Lease.GrantShowsAsActive | av-bridge-cloud/internal/collectorha/lease.go:110-151 | After a grant, IsActive names that machine exactly until TTL after the stamp, and nobody else |
| Lease.ChangesExactly | av-bridge-cloud/internal/collectorha/lease.go:108-169 | A group is told of a change exactly when the Acquire has left the lease with another holder |
| Lease.RequestIsHeard | av-bridge-cloud/internal/collectorha/lease.go:254-295 | What a request comes to at the next polls: the target is let in once nobody else's lease runs, the holder is made to step down, everybody else is declined; asked for the machine that serves, it takes back what was pending |
| LeaseHistory.GrantsAreSeparated | av-bridge-cloud/internal/collectorha/lease.go:110-151 | In every history of one row, grants to two machines lie a TTL apart, or the first stepped down in between and the second waited out the grace, up to clock skew; no assumption about collectors |
| LeaseHistory.StepDownClosesTheLease | av-bridge-cloud/internal/collectorha/lease.go:116-129 | After a step-down nobody at all is granted the lease before the grace is over, whatever handovers are asked for meanwhile |
| LeaseHistory.FailoverIsBounded | av-bridge-cloud/internal/collectorha/lease.go:132-151 | With no handover pending, a machine that polls every p means that some machine is granted the lease within what is left of it plus p |
| LeaseHistory.HandoverToTheDeadIsBounded | av-bridge-cloud/internal/collectorha/lease.go:116-151 | After a step-down to a machine that is dead, some machine is granted the lease within grace + TTL + p |
| LeaseHistory.PendingHandoverIsAnswered | av-bridge-cloud/internal/collectorha/lease.go:116-151 | While a handover to m is pending the row stays as it is until m, which polls every p, is granted the lease, within what is left of it plus p, for a full TTL and with no handover left; unless the holder steps down before that, which leaves the lease to m |
| LeaseHistory.StepDownReachesItsTarget | av-bridge-cloud/internal/collectorha/lease.go:116-134 | After a step-down its target is the first to be granted the lease, within the grace plus p, as long as poll and clocks are together late by less than a TTL |
| LeaseHistory.HandoverIsBounded | av-bridge-cloud/internal/collectorha/lease.go:110-151 | Holder dead or alive, a pending handover's target that polls every p is granted the lease within what is left of it, the grace and two polls, and the handover is done |
| Fence.Controller.Observe | av-bridge/internal/ha/controller.go:54-86 | The controller after a poll reply, and exactly when it drops all devices or asks for a config pull |
| Fence.Controller.Check | av-bridge/internal/ha/controller.go:99-108 | Fences an active, grouped machine at its deadline, and drops the devices exactly when it does |
| Fence.HowLongAReplyLasts | av-bridge/internal/ha/controller.go:54-108 | A machine told that it is active is so exactly until the margin before its lease's end, or for a second if that is no later than the margin; one told that it is a standby never is, one outside any group always, unfenced |
| Fence.SafeExactly | av-bridge-cloud/internal/collectorha/lease.go:11-37 | For groups of any size, no run of polls, lost and late replies, checks, restarts, handovers, config pulls and skewed clocks has two machines polling devices at once, if and only if the margins cover delay, check and skew, step-downs are heard of in time, and no machine starts devices of its own, passes a pull before its first reply, or applies one after the gate has closed |
| Fence.SufficientIsSafe | av-bridge/internal/ha/controller.go:5-16 | The safety half on its own: under the condition, at most one machine polls devices in every run |
| Fence.SlowReplyOverlaps | av-bridge/internal/ha/controller.go:26-29 | For every surroundings in which the margin is too small, a run with two machines polling at once |
| Fence.UnheardStepDownOverlaps | av-bridge-cloud/internal/collectorha/lease.go:35-37 | The same whenever a step-down may be heard of too late or not at all |
| Fence.OwnDevicesOverlap | av-bridge/internal/hub/hub.go:154-163 | The same whenever a holder may restart, cut off, with devices of its own |
| Fence.EarlyPullOverlaps | av-bridge/internal/cloudpull/poller.go:241-285 | The same whenever a restarted holder's config pull may pass the gate before its first poll reply |
| Fence.LateApplyOverlaps | av-bridge/internal/hub/hub.go:223-277 | The same whenever a fence may fall between a pull's gate and the start of its devices |
| Fence.DefaultsAreNotEnough | av-bridge/internal/cloudpoll/poller.go:89-94 | A reply that is only bounded by the 35 s poll timeout, a step-down reply that may be lost, devices of its own, an early pull or a late apply each rule out the guarantee |
| CommandQueue.Queue.Submit | av-bridge-cloud/internal/commands/queue.go:64-98 | Queues on the collector the device is on now and notifies that collector; nothing happens for a device that isn't there |
| CommandQueue.Queue.ClaimPending | av-bridge-cloud/internal/commands/queue.go:234-272 | Claims the oldest pending commands up to the limit, changes no other row, and hands out those of live devices, each once, oldest first |
| CommandQueue.PickOldest | av-bridge-cloud/internal/commands/queue.go:240-257 | The selection and order of a claim's rows |
| CommandQueue.Queue.Complete | av-bridge-cloud/internal/commands/queue.go:280-305 | A result is accepted exactly for an in-progress command of the collector that posts it, closes that row alone and notifies its waiter |
| CommandQueue.Queue.ExpirePending | av-bridge-cloud/internal/commands/sweeper.go:142-183 | Fails exactly the pending commands past the limit, and notifies exactly those; nothing when expiry is off |
| CommandQueue.Queue.RequeueStale | av-bridge-cloud/internal/commands/sweeper.go:93-132 | Takes exactly the claims older than the stale limit and below the cap back to pending, changes no other row, and notifies exactly the collectors they are on |
| CommandQueue.Queue.Sweep | av-bridge-cloud/internal/commands/sweeper.go:66-135 | What becomes of every row, with the limits spelt out: only a command that waits for longer than the expiry fails, only a claim older than the stale limit fails at the cap or goes back below it, and everything younger keeps every column; notifies exactly the waiters of expired commands and the collectors that got commands back |
| CommandQueue.SweepDoesWhatItShould | av-bridge-cloud/internal/commands/sweeper.go:66-183 | The three statements in their order come to that for every row of every table |
| CommandLife.ReissueIsBounded | av-bridge-cloud/internal/commands/sweeper.go:66-135 | In every run, with the sweep's statements interleaved with anything, a command is claimed at most maxClaims times, changes status at most 2 * maxClaims times, and has a claim left while it is pending |
| CommandLife.RunKeepsHealth | av-bridge-cloud/internal/commands/queue.go:240-257 | The measure behind it: status changes made and still possible add up to at most 2 * maxClaims at every moment, and claim_count counts the claims |
| CommandLife.CapKeptExactly | av-bridge-cloud/internal/commands/sweeper.go:71-118 | No run claims a command more often than the cap if and only if the cap is at least one |
| CommandLife.FinishedStaysFinished | av-bridge-cloud/internal/commands/queue.go:289-298 | A terminal row never changes again in any column |
| CommandLife.OneResultPerCommand | av-bridge-cloud/internal/commands/queue.go:280-305 | At most one result is ever accepted for a command, however often it was issued |
| CommandLife.SweepLeavesNothingStale | av-bridge-cloud/internal/commands/sweeper.go:66-183 | After a sweep no claim is stale, and only what it has just taken back can be past expiry; a second sweep fails those |
| CommandLife.ClaimsEndExactly | av-bridge-cloud/internal/commands/sweeper.go:71-118 | In every run, with claim times and counts read off the run: other than by an accepted result, a command leaves in_progress exactly at a timeout or requeue more than the stale limit after its last Claim event, the one at the cap and the other below it |
| CommandLife.PendingEndsExactly | av-bridge-cloud/internal/commands/sweeper.go:142-146 | In every run, other than by a claim, a command leaves pending exactly at an expiry, if that is on, more than its limit after the command's own Submit event |
| CommandLife.ClaimsAreInOrder | av-bridge-cloud/internal/commands/queue.go:240-257 | In every run, a claim that leaves a pending command of its collector behind has taken as many as it may, none of them submitted later |
| CommandEnds.EveryCommandEnds | av-bridge-cloud/internal/commands/sweeper.go:66-183 | With expiry on and each statement of the sweep run once a period, every command is terminal by submission + expiry + 2 * maxClaims * (stale limit + period + 1) + 1, in every interleaving with claims, results and moves |
| CommandEnds.StayEnds | av-bridge-cloud/internal/commands/sweeper.go:71-118 | Past its expiry, a command has fewer changes left after each such stay: the statement it is due for finds it as it was, or something else moved it |
| CommandEnds.UnclaimedStaysPending | av-bridge-cloud/internal/commands/sweeper.go:142-146 | With expiry off, a command that nobody claims stays pending through every run |
| Wakeup.WakeupsAreSafeExactly | av-bridge-cloud/internal/commands/bridge_handler.go:130-201 | In every interleaving of polls, submits, claims, sweeps, moves and their notifications, a lease holder blocked with work pending has its wake-up buffered or owed, if and only if its re-check meets fewer commands of deleted devices than it may claim |
| Wakeup.EmptyClaimLeavesNothing | av-bridge-cloud/internal/commands/queue.go:234-272 | An empty claim means an empty queue when fewer than max pending commands are of deleted devices |
| Wakeup.DeadCommandsBlockThePoll | av-bridge-cloud/internal/commands/queue.go:206-228 | For every larger number of such commands, a run that ends with a poll asleep over pending work and no wake-up on its way |
| Wakeup.CompletionsAreNotLost | av-bridge-cloud/internal/commands/queue.go:157-198 | A portal request blocked on a finished command always has its wake-up buffered or owed, unless the command was failed with bridge_timeout |
| Wakeup.TimedOutWaiterIsNotWoken | av-bridge-cloud/internal/commands/sweeper.go:71-92 | That exception is real: the waiter of a command that is timed out is sent nothing |
| Wakeup.PollsMoveForward | av-bridge-cloud/internal/commands/bridge_handler.go:130-201 | Each step of its own brings a poll closer to its answer or skips one payload meant for others; it answers as soon as a claim hands commands out, and wakes on either of its two ids |
| Wakeup.PollsAnswer | av-bridge-cloud/internal/commands/bridge_handler.go:130-201 | In every run a poll takes at most seven steps besides the payloads it skips, and has answered after them |
| Wakeup.WaitersReturnExactly | av-bridge-cloud/internal/commands/queue.go:157-198 | A portal request returns exactly when it finds its command over, reads its id or gives up |
| ScheduleDates.FindDate | av-bridge-cloud/internal/nightly/schedule_dates.go:31-52 | The loop over tags finds the date that applies |
| ScheduleDates.SearchPowerOn | av-bridge-cloud/internal/nightly/schedule_dates.go:167-187 | The fifteen-day loop finds the next power-on, and the zero time when there is none |
| ScheduleDates.FirstTaggedIsFirst | av-bridge-cloud/internal/nightly/schedule_dates.go:38-44 | The tag date that counts is that of the first tag, in priority order, that has one |
| ScheduleDates.DatesTakePrecedence | av-bridge-cloud/internal/nightly/schedule_dates.go:31-71 | Room date, then first tag date, then estate date, then weekly days; a date closes or opens its day whatever the weekly days say, and each of its own times replaces the weekly one |
| ScheduleDates.InstantsAreOfTheirDay | av-bridge-cloud/internal/nightly/schedule_dates.go:167-173 | An instant of a day is on that day, at the start of its minute |
| ScheduleDates.NextPowerOnIsLeast | av-bridge-cloud/internal/nightly/schedule_dates.go:167-187 | The least power-on instant strictly after the switch-off among all in-use days 0..14, and none exactly when there is none |
| ScheduleDates.LaterDatesDontMatter | av-bridge-cloud/internal/nightly/schedule_dates.go:167-187 | Two date books that agree on the fortnight after the switch-off give the same power-on |
| ScheduleDates.OldClosureIsForgotten | av-bridge-cloud/internal/nightly/schedule_dates.go:77-83 | A switch-off more than two days back: a closure for which the loaded dates give a wrong answer |
| ScheduleDates.FarOpeningIsNotSeen | av-bridge-cloud/internal/nightly/schedule_dates.go:77-83 | A switch-off more than two days ahead: an opening that isn't loaded |
| ScheduleDates.LoadedIsEnoughExactly | av-bridge-cloud/internal/nightly/schedule_dates.go:77-83 | The loaded window answers as all dates would, for every book, room and switch-off, if and only if the switch-off is within two days of today |
| ScheduleDates.LoadedIsEnoughInUseExactly | av-bridge-cloud/internal/nightly/schedule_dates.go:73-83 | For switch-offs on a day in use the bound is the same, and exactly one day more behind for those after that day's power-on, by its own times and by the weekly ones |
| PowerRun.Scheduler.SetPhase | av-bridge-cloud/internal/nightly/scheduler.go:555-567 | The run's new phase and instants, with its sleep marks lifted when the phase isn't an asleep one, and nothing else changed |
| PowerRun.Scheduler.Finish | av-bridge-cloud/internal/nightly/scheduler.go:571-587 | Ends the run and lifts its marks |
| PowerRun.Scheduler.PowerOutcome | av-bridge-cloud/internal/nightly/power.go:115-157 | Done exactly when every command has finished or the wait is over; the failures are exactly the commands that didn't succeed |
| PowerRun.Scheduler.SettlePower | av-bridge-cloud/internal/nightly/scheduler.go:624-662 | A failed power-off goes on with the night, a failed power-on fails the run, and the devices that were switched off are marked |
| PowerRun.Scheduler.Dispatch | av-bridge-cloud/internal/nightly/scheduler.go:592-617 | Queues the room's power commands, and none in a dry run |
| PowerRun.Scheduler.AdvanceRun | av-bridge-cloud/internal/nightly/scheduler.go:330-451 | One run's turn: waits, settles, moves on or fails, with what that does to runs, marks and commands; NightEnds says phase by phase, in terms of times and command results, which turn does which |
| PowerRun.Scheduler.AdvanceRuns | av-bridge-cloud/internal/nightly/scheduler.go:330-451 | The loop gives every in-progress run exactly one turn, and no other run any |
| PowerRun.Scheduler.CreateDueRun | av-bridge-cloud/internal/nightly/scheduler.go:224-316 | A run starts exactly in a known zone, when the exclusion is over, on an in-use day, from that day's switch-off for the length of the grace, when the room has neither a run on nor one for this cycle; the new run and its commands are written out |
| PowerRun.ExclusionIsLocalExactly | av-bridge-cloud/internal/nightly/scheduler.go:246-253 | The exclusion follows the room's own dates at all times if and only if its zone is level with UTC |
| NightHistory.NightsKeepInv | av-bridge-cloud/internal/nightly/scheduler.go:330-451 | Everything below as one invariant of every history of creations, turns and command changes |
| NightHistory.MarksAlwaysTrackRuns | av-bridge-cloud/internal/nightly/power.go:181-205 | A device marked as switched off by a run means that run is in progress and in an asleep phase; no mark survives ready or failed |
| NightHistory.ReadyRunsWereOnTime | av-bridge-cloud/internal/nightly/scheduler.go:478-541 | A run that ended ready acted on its power-on no earlier than planned and at most the grace later, had no failed power-on command unless dry, and spent the full warm-up between settling and ready |
| NightHistory.PhasesMoveForward | av-bridge-cloud/internal/nightly/scheduler.go:458-543 | Every step moves a run one phase on, to failed, or nowhere, and never touches an ended run |
| NightHistory.ForgottenClosureFailsTheRun | av-bridge-cloud/internal/nightly/scheduler.go:486-516 | Whenever by all dates no power-on has been due since the switch-off, and a weekday more than two days back was closed, the dates of the day fail a run that all dates would leave waiting |
| NightHistory.ClosedWeekFailsTheRun | av-bridge-cloud/internal/nightly/schedule_dates.go:77-83 | A history in which it happens to a run that the scheduler created: switched off on a Friday, shut the week after, failed on the Thursday |
| NightHistory.RoomsHaveOneRun | av-bridge-cloud/internal/nightly/scheduler.go:283-295 | Through every history a room has at most one power run in progress |
| NightHistory.EveryRunTakesItsOwnTurn | av-bridge-cloud/internal/nightly/scheduler.go:330-451 | The order of the turns of a tick doesn't matter: each run ends where its own turn alone would have taken it |
| NightHistory.WaitsForGoodExactly | av-bridge-cloud/internal/nightly/scheduler.go:486-516 | From a given moment on, with the dates loaded on each day, a powered-off run is never taken on or failed, if and only if its room has no weekday and no power-on of its fortnight is in the dates and not forgotten yet |
| NightHistory.NeverPowersOnExactly | av-bridge-cloud/internal/nightly/schedule_dates.go:163-187 | From the switch-off on, that is if and only if the room has no weekday and its fortnight no power-on by all dates |
| NightHistory.OffForGoodExactly | av-bridge-cloud/internal/nightly/scheduler.go:330-451 | The same for histories: in every one in which its turns see the dates of their day the run stays as it is, if and only if it is stuck in that sense |
| NightHistory.LongWaitsFail | av-bridge-cloud/internal/nightly/scheduler.go:486-516 | In a room with a weekday, every turn from the tenth day after the switch-off on, once the grace has passed since the end of the seventh, fails the run |
| NightHistory.LongWaitFreesTheRoom | av-bridge-cloud/internal/nightly/scheduler.go:571-587 | Such a turn ends the run, wakes its devices and leaves the room free for its next run |
| NightHistory.StuckRunBlocksTheRoom | av-bridge-cloud/internal/nightly/scheduler.go:283-295 | A stuck run stays as it is through every history, and no other run of its room ever starts |
| NightEnds.PowerOffSettlesExactly | av-bridge-cloud/internal/nightly/scheduler.go:624-662 | The turns that end the first phase: exactly those of a dry run, after twelve minutes, or once every power-off command is over; the devices that a command switched off, and no others, are then marked |
| NightEnds.PowerOnComesExactly | av-bridge-cloud/internal/nightly/scheduler.go:486-516 | The turns that power a run on, with the commands they queue: exactly those from the room's power-on to the end of the grace; later ones fail it, earlier ones leave it |
| NightEnds.PowerOnSettlesExactly | av-bridge-cloud/internal/nightly/scheduler.go:624-662 | The turns that end the power-on: as for the power-off, on to the warm-up if every power-on command has succeeded, and failed otherwise |
| NightEnds.WarmUpEndsExactly | av-bridge-cloud/internal/nightly/scheduler.go:519-541 | The turns that end each half of the warm-up, by the time since the phase began; the second ends the run ready, with its marks lifted |
| NightEnds.SettledRunGetsReady | av-bridge-cloud/internal/nightly/scheduler.go:519-541 | In every history, a run whose power-on has settled has succeeded, with no device marked for it, by the second of two turns of its own, half the warm-up after it settled and the rest after that |
| NightEnds.PoweredOnRunEnds | av-bridge-cloud/internal/nightly/scheduler.go:330-451 | A run that has powered on is over, ready or failed, after three such turns, the first of them twelve minutes after the power-on |
| NightEnds.MarksStay | av-bridge-cloud/internal/nightly/power.go:181-205 | A mark stays for as long as its run is in an asleep phase, unless another run has switched the same device off |
| NightEnds.MarksAreAlwaysEarned | av-bridge-cloud/internal/nightly/power.go:185-197 | Through every history each marked device was switched off by a power-off command of the marking run |
| NightEnds.CyclesAreUnique | av-bridge-cloud/internal/nightly/scheduler.go:283-295 | Through every history no two runs are for one switch-off of a room, whatever became of the first |
| DeviceTable.Store.Upsert | av-bridge-cloud/internal/ingest/handler.go:265-324 | Updates the live device at the slot column by column; on a slot with neither row nor tombstone inserts exactly one live row with all that the reading says, written out, and answers with its id; does nothing for a deleted device or a tombstone; the key stays unique |
| DeviceTable.Store.Ingest | av-bridge-cloud/internal/ingest/handler.go:153-200 | A push is its readings' upserts in order and then its events' upserts, although events of devices already met skip theirs |
| DeviceTable.NewDevicesAreInserted | av-bridge-cloud/internal/ingest/handler.go:273-284 | A reading for a slot that nothing holds or guards creates one device there, live, with the reading's status, instants and tags, last_online_at only if it is online |
| DeviceTable.TagsAreTakenExactly | av-bridge-cloud/internal/ingest/handler.go:301-309 | A reading's tags are taken exactly if the device was never edited or the reading's stamp is no older than the edit |
| DeviceTable.StatusIsTakenExactly | av-bridge-cloud/internal/ingest/handler.go:310-313 | Its status is taken exactly if it isn't older than the last one |
| DeviceTable.ReadingsLeaveTheRest | av-bridge-cloud/internal/ingest/handler.go:285-325 | A reading leaves key, deletion and edit stamp alone, and every column it says nothing about |
| DeviceTable.EventChangesNothing | av-bridge-cloud/internal/ingest/handler.go:377-390 | An upsert for an event changes no column of a device that is there |
| DeviceTable.EventsAreReadings | av-bridge-cloud/internal/ingest/handler.go:377-390 | The upserts for a push's events are those of readings that say nothing but the reported id |
| DeviceTable.Store.MoveDevices | av-bridge-cloud/internal/portalapi/device_move.go:59-227 | All or nothing: either the whole state is unchanged and the answer says why, or every requested device has the target as its collector and no other column changed, pending commands of those that moved went along, and the tombstones are those of the move |
| DeviceTable.PlanMove | av-bridge-cloud/internal/portalapi/device_move.go:59-162 | The move goes ahead exactly when the target can take it, every device is there, no two share a name and no name is taken; else the clashes are exactly those whose name is taken, or that come, by id, after another of the same name |
| DeviceTable.NamesOf | av-bridge-cloud/internal/portalapi/device_move.go:104-130 | Fewer names than devices exactly when two devices of the request share one |
| DeviceTable.UpsertKeepsKeys | av-bridge-cloud/internal/ingest/handler.go:265-284 | An upsert keeps (collector, reported_id) unique, deleted rows included |
| DeviceTable.MoveKeepsKeys | av-bridge-cloud/internal/portalapi/device_move.go:173-196 | So does a move that met no clash |
| Registers.MergedAllMeans | av-bridge-cloud/internal/ingest/handler.go:310-324 | After any list of readings last_seen_at and last_online_at are the greatest instants and the status is that of the greatest timestamp |
| Registers.ReplaysDontMatter | av-bridge-cloud/internal/ingest/handler.go:273-324 | Order, repeats and interleaved events change nothing: only which readings arrived counts |
| Registers.PushMergesReadings | av-bridge-cloud/internal/ingest/handler.go:153-200 | A whole push leaves each live device with its own readings merged in order, and nothing of the others' |
| Registers.ReplayedPushesDontMatter | av-bridge-cloud/internal/ingest/handler.go:153-200 | Pushes that bring the same readings for a device, repeated or in another order, leave it in the same current state |
| Registers.TwoReadingsCommuteExactly | av-bridge-cloud/internal/ingest/handler.go:310-321 | Two readings can change places exactly when their timestamps differ, their statuses agree, or both are old news |
| Registers.EditsProtectExactly | av-bridge-cloud/internal/portalapi/admin_handlers.go:1669-1676 | An edit is safe from every older-stamped reading if and only if it changed the tags |
| Registers.PortalTagsStay | av-bridge-cloud/internal/bridgecfg/handler.go:53-57 | In every run of edits, pulls read and applied, and late or repeated readings, an edit's tags stay until a reading made after a pull of those tags arrives |
| Registers.TagsStayUntilSuperseded | av-bridge-cloud/internal/ingest/handler.go:301-309 | The same from any state that keeps the stamps in order |
| FleetHistory.NoGhostDevices | av-bridge-cloud/internal/ingest/handler.go:265-284 | After any history, a reading for a slot some device has left never inserts a row |
| FleetHistory.ReportedDevicesAreThere | av-bridge-cloud/internal/ingest/handler.go:265-284 | The other half: through every history, a slot for which a reading has arrived holds a row, as long as no device has been moved away from it |
| FleetHistory.PushFillsSlots | av-bridge-cloud/internal/ingest/handler.go:153-200 | A push leaves a row at the slot of each of its readings, unless the slot is guarded |
| FleetHistory.PortalInsertsAnyway | av-bridge-cloud/internal/portalapi/admin_handlers.go:1472-1486 | A guard keeps out readings alone: the portal may put a new device at a slot that was left |
| FleetHistory.KeysStayUnique | av-bridge-cloud/internal/portalapi/device_move.go:104-162 | Through every history no two rows hold the same slot |
| FleetHistory.UnclaimedCommandsFollowExactly | av-bridge-cloud/internal/commands/queue.go:69-84 | In every history a pending command that was never claimed is on its device's current collector, if and only if no device is moved between the read and the insert of a submit |
| FleetHistory.ThereAndBack | av-bridge-cloud/internal/portalapi/device_move.go:173-196 | Moving away and back restores every row, guards the collector left last and lifts exactly the guards at home |
| FleetHistory.MoveReopensExactly | av-bridge-cloud/internal/portalapi/device_move.go:187-196 | A move lifts exactly the tombstones of the slots it fills |
| FleetHistory.MoveGuardsSlots | av-bridge-cloud/internal/portalapi/device_move.go:173-186 | Every slot left, now or before, has a tombstone or a row after a move |
| FleetHistory.HistoriesKeepInv | av-bridge-cloud/internal/portalapi/device_move.go:59-227 | Keys, guards and commands as one invariant of every history of readings, portal inserts and deletes, moves and queue statements |
| FleetHistory.RequeuedCommandsStayBehind | av-bridge-cloud/internal/commands/sweeper.go:93-118 | Whenever a claimed command's device moves and the claim goes stale, the command waits on the collector that the device has left |
| ConfigSync.Collectors.NeedsResync | av-bridge-cloud/internal/db/db.go:280-293 | Whether the group's version is past what this machine has pulled; nothing for an unknown collector |
| ConfigSync.Collectors.TouchConfigPull | av-bridge-cloud/internal/db/db.go:268-278 | The recorded version of that machine alone rises to what was served and never falls |
| ConfigSync.CollectDevices | av-bridge-cloud/internal/bridgecfg/handler.go:149-211 | The answer holds exactly the live, named devices of the group for a serving machine, and nothing for another |
| ConfigSync.RunsKeepRecorded | av-bridge-cloud/internal/bridgecfg/handler.go:138-164 | With the version read first, the recorded version is never newer than what the last answer carried |
| ConfigSync.FreshAnswersExactly | av-bridge-cloud/internal/bridgecfg/handler.go:139-148 | No lost config change: "no resync" means the last answer to a serving machine is up to date, in every interleaving of changes, lease operations and the reads of a pull, if and only if the version is read before the devices |
| ConfigSync.FreshServingExactly | av-bridge-cloud/internal/collectorha/lease.go:165-193 | Once no bump is owed it means that for the machine that IsActive names now, if and only if, besides, it never renews a lapsed lease, is never a handover's target and doesn't start to serve between a pull's role and version reads |
| ConfigSync.StaleExactlyAfterAStandbysAnswer | av-bridge-cloud/internal/collectorha/lease.go:230-241 | In every run, a serving machine without its devices and without a resync or a bump to come is one whose last answer was a standby's, and conversely when there are devices |
| ConfigSync.StartsOweABump | av-bridge-cloud/internal/collectorha/lease.go:132-151 | With late renewals and handovers to it ruled out, a machine starts to serve only by a takeover, which owes a bump |
| ConfigSync.TargetsFirstGrantBumpsNothing | av-bridge-cloud/internal/collectorha/lease.go:114-133 | A handover changes the holder at the step-down, while the target isn't serving yet; the target's first grant comes from the end of the grace on and changes nothing |
| ConfigSync.DevicesFirstLosesAChange | av-bridge-cloud/internal/bridgecfg/handler.go:139-144 | The other order of reads, with a change in between: recorded as served, and never served |
| ConfigSync.StartDuringPullLosesTheDevices | av-bridge-cloud/internal/bridgecfg/handler.go:122-148 | A takeover between the role and the version read: nothing served, no resync asked for |
| ConfigSync.RenewalAfterLapseLosesTheDevices | av-bridge-cloud/internal/collectorha/lease.go:132-151 | A lapse, a pull and a renewal: the same |
| ConfigSync.HandoverLosesTheDevices | av-bridge-cloud/internal/collectorha/lease.go:116-129 | A pull by the target during the grace of an ordinary handover: the same |
| Versions.Parse | av-bridge-cloud/internal/collectorupdate/release.go:81-101 | parseVersion reads exactly the strings whose core is three int-sized numbers, to those numbers |
| Versions.Newer | av-bridge-cloud/internal/collectorupdate/release.go:107-122 | True exactly when the candidate parses and the current version doesn't, or is behind at the first number that differs |
| Versions.NewerIsAnOrder | av-bridge-cloud/internal/collectorupdate/release.go:103-122 | On all strings: asymmetric, transitive, and two strings tie exactly when they are the same version or neither is one |
| Versions.PrintedVersionsParse | av-bridge-cloud/internal/collectorupdate/release.go:81-101 | A printed version with or without v and with any -pre or +meta suffix is read back as its three numbers |
| Versions.NewerComparesNumbers | av-bridge-cloud/internal/collectorupdate/release.go:107-122 | Between released versions Newer compares major, minor and patch in that order |
| Window.CheckWindow | av-bridge-cloud/internal/collectorupdate/release.go:168-185 | The two-day loop says open exactly when the time is less than two hours past the start on the circle of the day |
| Window.TwoDaysAreEnoughExactly | av-bridge-cloud/internal/collectorupdate/release.go:176-184 | Loop and circle agree at all times if and only if the window opens on minute 0 to 2760 |
| Window.ParsesExactlyWhatIsPrinted | av-bridge-cloud/internal/collectorupdate/release.go:187-199 | ParseWindow accepts the printed form, with spaces around or a one-digit hour, and nothing else |
| Window.ParseInvertsFormat | av-bridge-cloud/internal/collectorupdate/release.go:187-199 | For every minute of the day, what FormatWindow prints ParseWindow reads back |
| Updates.Choose | av-bridge-cloud/internal/collectorupdate/service.go:109-138 | The choice an Offer makes on the row it has read |
| Updates.Service.Offer | av-bridge-cloud/internal/collectorupdate/service.go:72-157 | Records what the bridge said, settles or opens the attempt, and answers with an instruction exactly when it opens one: the release's own signed build for that platform |
| Updates.Service.Take | av-bridge-cloud/internal/collectorupdate/service.go:142-150 | The compare-and-set on the state, and the attempt it opens |
| Updates.Service.SetState | av-bridge-cloud/internal/collectorupdate/service.go:186-194 | Moves the state only from the one expected |
| Updates.Service.Report | av-bridge-cloud/internal/collectorupdate/service.go:161-184 | For an open attempt at the same version "restarting", "succeeded", "failed" and "rolled_back" leave the state of that name; anything else changes nothing, and an unknown name is refused |
| Updates.Service.Sweep | av-bridge-cloud/internal/collectorupdate/service.go:197-222 | What becomes of every row: an attempt quiet for more than 15 minutes succeeds when the collector is on its target and fails otherwise, a press quiet for more than 24 hours fails, and everything else is left alone |
| Updates.Service.Request | av-bridge-cloud/internal/collectorupdate/service.go:249-277 | The three refusals in order, and the press with its notification when there is none |
| Updates.OfferedExactly | av-bridge-cloud/internal/collectorupdate/service.go:109-138 | When a poll is answered with an update, and when it settles an attempt, in terms of release, window and attempt |
| Updates.InstalledIsLeftAlone | av-bridge-cloud/internal/collectorupdate/release.go:135-160 | A collector that the release wouldn't bring forward gets no offer and can't be pressed into one |
| Updates.ReportMeans | av-bridge-cloud/internal/collectorupdate/service.go:161-184 | The four names a bridge reports, the states they stand for, and that only an open attempt at the reported version moves |
| Updates.ReasonsInOrder | av-bridge-cloud/internal/collectorupdate/release.go:133-160 | Each reason for which a collector can't be offered the release, once none of those before it holds, and no other |
| Updates.SweepDoesWhatItShould | av-bridge-cloud/internal/collectorupdate/service.go:197-222 | The two statements of a sweep come to that for every row, and leave nothing quiet open |
| Updates.ArtefactNames | av-bridge-cloud/internal/collectorupdate/release.go:68-79 | The build for each of the three platforms, and none for any other |
| UpdateHistory.PollIsOffer | av-bridge-cloud/internal/collectorupdate/service.go:72-157 | A poll of a run does to the row what Offer does, in one step or in two undisturbed ones |
| UpdateHistory.SuccessStands | av-bridge-cloud/internal/collectorupdate/service.go:161-184 | In every run, a report "succeeded" for the open attempt's version puts the row at succeeded and an arrival in the log, and there it stays until another offer or press is logged |
| UpdateHistory.FailedReleaseWaitsForAPress | av-bridge-cloud/internal/collectorupdate/service.go:127-133 | After a report "failed" or "rolled_back" for the bundled release, no run without a press (and without overlapping polls) offers it again or changes the result |
| UpdateHistory.OffersArePaidForAndForward | av-bridge-cloud/internal/collectorupdate/service.go:95-157 | In every run, overlapping polls included, offers made from requested never outnumber accepted presses, and every offer is the bundled release to a collector that reported an older one |
| UpdateHistory.OncePerReleaseExactly | av-bridge-cloud/internal/collectorupdate/service.go:127-150 | Two offers by the schedule always have an arrival at succeeded between them if and only if polls don't overlap, or the release suits nobody, or the row carries no open or failed attempt at another release |
| UpdateHistory.TwoPollsOfferTwice | av-bridge-cloud/internal/collectorupdate/service.go:142-150 | For every such row, two overlapping polls that are both given the offer |
| Executor.RunStep | av-bridge-cloud/internal/nightly/executor.go:342-364 | The result of the first attempt that passes, or of the last of 1 + N; passes exactly when one of them does, and stops there |
| Executor.PrintedRetriesCount | av-bridge-cloud/internal/nightly/executor.go:1087-1104 | "retry:N" means N more attempts, ten at most, and none when N doesn't fit an int |
| Executor.RetryCount | av-bridge-cloud/internal/nightly/executor.go:1087-1104 | At most ten retries for any on_failure, and none for a policy that aborts |
| Executor.AbortsExactly | av-bridge-cloud/internal/nightly/executor.go:297-303 | A failed step stops the routine exactly if its policy, spaces taken off, is empty or "abort" in letters of either case |
| Executor.ContinueGoesOn | av-bridge-cloud/internal/nightly/executor.go:1087-1104 | "continue" neither stops the routine nor retries |
| Executor.PlansFollowSteps | av-bridge-cloud/internal/nightly/executor.go:1071-1076 | A step goes by its name, or by its kind without one, with the retries and the abort of its policy |
| Executor.LinesRead | av-bridge-cloud/internal/nightly/executor.go:293-320 | Steps are counted from one in the lines, and a summary sets its lines apart by "; " alone |
| Executor.Run.ExecuteSteps | av-bridge-cloud/internal/nightly/executor.go:268-338 | The loop writes the results and the outcome that the tally of the routine gives |
| Executor.SucceedsExactly | av-bridge-cloud/internal/nightly/executor.go:268-338 | Without a shutdown a run succeeds if and only if every step passes within its attempts; recorded results are a gapless prefix of the routine that stops early only at a failed abort step |
| Executor.ReasonsAreListed | av-bridge-cloud/internal/nightly/executor.go:290-333 | The reason of a failed run: the line of the abort step that stopped it, or how many steps failed and a line for each, in order, with its place, name and last error |
| Executor.FailedLinesMean | av-bridge-cloud/internal/nightly/executor.go:293-296 | Each failed step that is run has one line, after those of the failed steps before it; a step that passes has none |
| Executor.ShutdownLeavesTheRunOpen | av-bridge-cloud/internal/nightly/executor.go:276-338 | An outcome is written if and only if the service is up after the last step, and then it is the one the run would have had anyway; results written are a prefix of the full ones |

## Left out

- HTTP, JSON, HMAC, encryption, row-level security and SQL text: requests arrive as values and each statement or transaction is one atomic step.
- Database write failures partway through a step, among them a version bump that fails after its lease change, and failed notifications.
- Group formation, deletion of collectors and what it cascades to: the lease theorems start with fixed membership and a free row.
- Poll handlers that live on after their bridge gave up: a machine has one reply on its way at a time, and a poll that starts anew replaces it.
- A device poll that is under way when its machine fences: the time adapters take to stop counts into the check interval.
- A machine that is taken out of or put into a group while it runs; the role of an ungrouped machine is in the controller only.
- A handover whose target and holder are both dead: the code waits for the target on purpose, so with one pending the bound is for the target alone.
- Daylight saving and time zones: days have 86,400 seconds at a fixed offset, and the date on which dates are loaded is the local one. An unknown zone of a building is a flag in the power runs; the fallback zone of the update window is not part of the model.
- The two clocks of the power runs and of the updates: the code decides by the Go process's clock and stamps by the database's, and these models have one. The lease models have both.
- Fractions of a second: instants are whole milliseconds in the lease and whole seconds elsewhere.
- Other columns of the ingest upsert (name, metrics and the like), which follow the same rule as the status or are overwritten outright.
- Order of rows where SQL gives none, and of the conflicts of a refused move: they are sets.
- Edits of a room's dates while a run waits: the theorems about waiting runs fix the dates and look at which of them are loaded.
- Readiness runs, the hand-over of a warmed room to the executor, recordPowerStep, digests and audit entries.
- Executor.Run.ExecuteSteps: what a step's dispatch does and how long it takes are a parameter, with its timeout; the map of runs under way and SweepStuck are not part of the model.
- Updates.Service.Offer: the messages kept for the portal beside a state are not part of the row, and the window's time of day is a parameter.
- Text.ToLower: lowers ASCII letters only, which decides every comparison the services make with it.
- Versions.Parse: a version string is a row of characters; Go's handling of invalid UTF-8 is not modelled.
- Lost replies of config pulls and pulls of one machine that overlap.
- Hierarchy and asset records, dashboards, display links, firmware targets, ServiceNow and the portals: simple records that would add only easy members.
